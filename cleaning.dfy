/** The cleaning of the unified table (app.py:36-38): `descricao` and
    `endereco` become text, upper-cased and stripped; `lote` does too, and a
    lot that is then exactly "NAN" becomes None. */
module Cleaning {
  import opened Text
  import opened Schema

  /** What `astype(str)` makes of a missing cell (NaN) and of None. */
  const NanText: string := "nan"
  const NoneText: string := "None"

  /** pandas' `astype(str)` on one cell: a string stays itself, NaN becomes
      "nan" and None becomes Python's `str(None)`. */
  function ToText(v: Value): string {
    match v
    case Text(s) => s
    case NaN => NanText
    case Null => NoneText
  }

  /** The rewrite of one `descricao` or `endereco` cell (app.py:36-37). */
  function CleanText(v: Value): Value {
    Text(Normalize(ToText(v)))
  }

  /** The rewrite of one `lote` cell exactly as app.py:38 writes it: the
      None of a product row is stringified like every other cell. */
  function CleanLotAsWritten(v: Value): Value {
    var t := Normalize(ToText(v));
    if t == "NAN" then Null else Text(t)
  }

  /** The rewrite of one `lote` cell as intended: a cell that holds no lot
      (None) stays without one; every other cell is rewritten as app.py:38 does. */
  function CleanLot(v: Value): Value {
    if v == Null then Null else CleanLotAsWritten(v)
  }

  /** A rewritten description or address is text in normal form. */
  lemma CleanTextNormal(v: Value)
    ensures CleanText(v).Text? && IsNormal(CleanText(v).s)
  {
    NormalizeIsNormal(ToText(v));
  }

  /** A lot rewritten as written is absent or normal text other than "NAN". */
  lemma CleanLotAsWrittenShape(v: Value)
    ensures var r := CleanLotAsWritten(v); r == Null || (r.Text? && IsNormal(r.s) && r.s != "NAN")
  {
    NormalizeIsNormal(ToText(v));
  }

  /** A rewritten lot is absent or normal text other than "NAN". */
  lemma CleanLotShape(v: Value)
    ensures var r := CleanLot(v); r == Null || (r.Text? && IsNormal(r.s) && r.s != "NAN")
  {
    CleanLotAsWrittenShape(v);
  }

  /** Line 36 on one row. */
  function CleanDescricao(e: Entry): Entry {
    e.(descricao := CleanText(e.descricao))
  }

  /** Line 37 on one row. */
  function CleanEndereco(e: Entry): Entry {
    e.(endereco := CleanText(e.endereco))
  }

  /** Line 38 on one row. */
  function CleanLote(e: Entry): Entry {
    e.(lote := CleanLot(e.lote))
  }

  /** A row after all three column rewrites. */
  function CleanEntry(e: Entry): Entry {
    CleanLote(CleanEndereco(CleanDescricao(e)))
  }

  /** The whole table after the three column rewrites. */
  function CleanAll(es: seq<Entry>): (r: seq<Entry>)
    ensures |r| == |es|
    ensures forall i :: 0 <= i < |es| ==> r[i] == CleanEntry(es[i])
  {
    seq(|es|, i requires 0 <= i < |es| => CleanEntry(es[i]))
  }

  /** The cleaning is row by row, so it distributes over concatenation. */
  lemma CleanAllAppend(a: seq<Entry>, b: seq<Entry>)
    ensures CleanAll(a + b) == CleanAll(a) + CleanAll(b)
  {
    var l, r := CleanAll(a + b), CleanAll(a) + CleanAll(b);
    forall k | 0 <= k < |l|
      ensures l[k] == r[k]
    {
      if k < |a| {
        assert (a + b)[k] == a[k];
      } else {
        assert (a + b)[k] == b[k - |a|];
      }
    }
  }

  /** What a clean row looks like: description and address are text in
      normal form, the lot is absent or normal text other than "NAN". */
  predicate IsClean(e: Entry) {
    e.descricao.Text? && IsNormal(e.descricao.s) &&
    e.endereco.Text? && IsNormal(e.endereco.s) &&
    (e.lote == Null || (e.lote.Text? && IsNormal(e.lote.s) && e.lote.s != "NAN"))
  }

  /** Every cleaned row is clean, and its origin is untouched. */
  lemma CleanEntryIsClean(e: Entry)
    ensures IsClean(CleanEntry(e)) && CleanEntry(e).origem == e.origem
  {
    CleanTextNormal(e.descricao);
    CleanTextNormal(e.endereco);
    CleanLotShape(e.lote);
  }

  /** Cleaning a clean row changes nothing, so cleaning is idempotent. */
  lemma CleanEntryOfClean(e: Entry)
    requires IsClean(e)
    ensures CleanEntry(e) == e
  {
    NormalizeNormal(e.descricao.s);
    NormalizeNormal(e.endereco.s);
    if e.lote != Null {
      NormalizeNormal(e.lote.s);
    }
  }

  lemma CleanIdempotent(e: Entry)
    ensures CleanEntry(CleanEntry(e)) == CleanEntry(e)
  {
    CleanEntryIsClean(e);
    CleanEntryOfClean(CleanEntry(e));
  }

  /** The lot replacement, in terms of the raw cell: a lot cell becomes
      absent exactly when it holds no lot, is missing (NaN), or is text that,
      stripped, spells nan in any mix of cases; any other lot is kept in
      normal form. */
  lemma LotAbsentIff(v: Value)
    ensures CleanLot(v) == Null <==>
      v == Null || v == NaN ||
      (v.Text? && var t := Trim(v.s); |t| == 3 && t[0] in "nN" && t[1] in "aA" && t[2] in "nN")
    ensures CleanLot(v) != Null ==> CleanLot(v) == Text(Normalize(ToText(v)))
  {
    if v == NaN {
      MissingLotAbsent();
    }
    if v.Text? {
      LotStringAbsentIff(v.s);
    }
  }

  /** A lot string becomes absent exactly when, stripped, it spells nan in
      any mix of cases (" nan ", "NaN", "\tNAN\n"). */
  lemma LotStringAbsentIff(s: string)
    ensures CleanLot(Text(s)) == Null <==>
      var t := Trim(s); |t| == 3 && t[0] in "nN" && t[1] in "aA" && t[2] in "nN"
  {
    NormalizeIsNan(s);
  }

  /** A missing lot cell of the lot sheet (NaN) becomes absent. */
  lemma MissingLotAbsent()
    ensures CleanLot(NaN) == Null
  {
    NormalizeNan();
  }

  /** The text pandas gives a missing cell normalises to "NAN". */
  lemma NormalizeNan()
    ensures Normalize("nan") == "NAN"
  {
    UpperOfNan("nan");
    TrimTrimmed("NAN");
  }

  /** The replacement is never applied to `descricao` or `endereco`: a
      missing or "nan" description or address keeps the text "NAN". */
  lemma NanTextKept(v: Value)
    requires v == NaN || v == Text("nan")
    ensures CleanText(v) == Text("NAN")
  {
    NormalizeNan();
  }

  /** A lot that only contains NAN is kept: "banana" becomes "BANANA". */
  lemma LotContainingNanKept()
    ensures CleanLot(Text("banana")) == Text("BANANA")
  {
    UpperAscii("banana");
    assert Upper("banana") == "BANANA";
    TrimTrimmed("BANANA");
  }

  /** The finding: as written, the None lot of a product row is
      stringified to "None" and so kept as the lot "NONE" instead of
      becoming absent.  This is what happens when the lot sheet's column 0
      holds text, as lot codes usually do; when pandas reads that column as
      numbers, `pd.concat` turns the None into NaN instead, and the lot is
      dropped as intended. */
  lemma GenericLotAsWritten(row: seq<Value>)
    requires |row| >= 2
    ensures CleanLotAsWritten(MapGenericRow(row).lote) == Text("NONE")
  {
    var u := Upper("None");
    assert u == "NONE" by {
      assert "None"[1..] == "one";
      assert "one"[1..] == "ne";
      assert "ne"[1..] == "e";
      assert "e"[1..] == "";
    }
    TrimTrimmed(u);
  }

  /** The intended behaviour: every product row's lot is absent after cleaning. */
  lemma GenericLotAbsent(row: seq<Value>)
    requires |row| >= 2
    ensures CleanLot(MapGenericRow(row).lote) == Null
    ensures CleanEntry(MapGenericRow(row)).lote != CleanLotAsWritten(MapGenericRow(row).lote)
  {
    GenericLotAsWritten(row);
  }

  /** One column assignment `df_total[col] = ...` in place: every row of
      the table is replaced by `f` of itself, where `f` rewrites one column. */
  method RewriteColumn(t: array<Entry>, f: Entry -> Entry)
    modifies t
    ensures forall k :: 0 <= k < t.Length ==> t[k] == f(old(t[k]))
  {
    var i := 0;
    while i < t.Length
      invariant 0 <= i <= t.Length
      invariant forall k :: 0 <= k < i ==> t[k] == f(old(t[k]))
      invariant forall k :: i <= k < t.Length ==> t[k] == old(t[k])
    {
      t[i] := f(t[i]);
      i := i + 1;
    }
  }

  /** The cleaning of `df_total` in place, one column after the other,
      as app.py:36-38 rewrites them. */
  method CleanColumns(t: array<Entry>)
    modifies t
    ensures t[..] == CleanAll(old(t[..]))
  {
    RewriteColumn(t, CleanDescricao);
    RewriteColumn(t, CleanEndereco);
    RewriteColumn(t, CleanLote);
  }
}
