/** The import routine `importar_dados_para_supabase` (app.py:2-49) without
    its I/O: from the two sheets to the list of records handed to the
    database insert, or the error that the blanket `except` reports. */
module Importer {
  import opened Wrappers
  import opened Text
  import opened Schema
  import opened Cleaning

  /** Why `iloc` fails: a sheet has fewer columns than the mapping reads. */
  datatype ImportError = MissingLotColumns | MissingProductColumns

  /** One dictionary of `to_dict(orient='records')`: the row sent to the
      `estoque_unificado` table. */
  datatype Record = Record(lote: Option<string>, descricao: string, endereco: string, origem: string)

  /** Line 41 on one cleaned row. */
  function ToRecord(e: Entry): Record {
    Record(if e.lote.Text? then Some(e.lote.s) else None,
           ToText(e.descricao), ToText(e.endereco), OriginTag(e.origem))
  }

  /** Line 41: the table as a list of records, in row order. */
  function ToRecords(es: seq<Entry>): (r: seq<Record>)
    ensures |r| == |es|
    ensures forall i :: 0 <= i < |es| ==> r[i] == ToRecord(es[i])
  {
    seq(|es|, i requires 0 <= i < |es| => ToRecord(es[i]))
  }

  /** The conversion is row by row, so it distributes over concatenation. */
  lemma ToRecordsAppend(a: seq<Entry>, b: seq<Entry>)
    ensures ToRecords(a + b) == ToRecords(a) + ToRecords(b)
  {
    var l, r := ToRecords(a + b), ToRecords(a) + ToRecords(b);
    forall k | 0 <= k < |l|
      ensures l[k] == r[k]
    {
      if k < |a| {
        assert (a + b)[k] == a[k];
      } else {
        assert (a + b)[k] == b[k - |a|];
      }
    }
  }

  /** The import: the lot sheet needs three columns and the product sheet
      two; otherwise the records of the lot rows, then those of the product
      rows, each cleaned. */
  function Import(lots: Sheet, prods: Sheet): (r: Result<seq<Record>, ImportError>)
    requires Rectangular(lots) && Rectangular(prods)
    ensures r == Failure(MissingLotColumns) <==> lots.width < 3
    ensures r == Failure(MissingProductColumns) <==> 3 <= lots.width && prods.width < 2
    ensures r.Success? ==> |r.value| == |lots.rows| + |prods.rows|
  {
    if lots.width < 3 then Failure(MissingLotColumns)
    else if prods.width < 2 then Failure(MissingProductColumns)
    else Success(ToRecords(CleanAll(Frame(lots.rows, prods.rows))))
  }

  /** `pd.concat` materialised: a fresh array holding the unified rows. */
  method NewTable(frame: seq<Entry>) returns (table: array<Entry>)
    ensures fresh(table) && table[..] == frame
  {
    table := new Entry[|frame|](i requires 0 <= i < |frame| => frame[i]);
  }

  /** The routine as the source runs it: build `df_total`, clean its
      columns in place, convert it to records. */
  method RunImport(lots: Sheet, prods: Sheet) returns (r: Result<seq<Record>, ImportError>)
    requires Rectangular(lots) && Rectangular(prods)
    ensures r == Import(lots, prods)
  {
    if lots.width < 3 {
      return Failure(MissingLotColumns);
    }
    if prods.width < 2 {
      return Failure(MissingProductColumns);
    }
    var table := NewTable(Frame(lots.rows, prods.rows));
    CleanColumns(table);
    r := Success(ToRecords(table[..]));
  }

  /** The record a lot-sheet row becomes. */
  function LotRecord(row: seq<Value>): Record
    requires |row| >= 3
  {
    ToRecord(CleanEntry(MapLotRow(row)))
  }

  /** The record a product-sheet row becomes. */
  function GenericRecord(row: seq<Value>): Record
    requires |row| >= 2
  {
    ToRecord(CleanEntry(MapGenericRow(row)))
  }

  /** Record `i` of a successful import, by where its row came from. */
  lemma ImportAt(lots: Sheet, prods: Sheet, i: nat)
    requires Rectangular(lots) && Rectangular(prods)
    requires lots.width >= 3 && prods.width >= 2
    requires i < |lots.rows| + |prods.rows|
    ensures Import(lots, prods).value[i] ==
      if i < |lots.rows| then LotRecord(lots.rows[i]) else GenericRecord(prods.rows[i - |lots.rows|])
  {
    var f := Frame(lots.rows, prods.rows);
    var c := CleanAll(f);
    assert c[i] == CleanEntry(f[i]);
    assert Import(lots, prods).value[i] == ToRecord(c[i]);
    if i >= |lots.rows| {
      assert f[|lots.rows| + (i - |lots.rows|)] == MapGenericRow(prods.rows[i - |lots.rows|]);
    }
  }

  /** The records of the lot sheet, one per row, in row order. */
  function LotRecords(rows: seq<seq<Value>>): (r: seq<Record>)
    requires forall i :: 0 <= i < |rows| ==> |rows[i]| >= 3
    ensures |r| == |rows| && forall i :: 0 <= i < |rows| ==> r[i] == LotRecord(rows[i])
  {
    seq(|rows|, i requires 0 <= i < |rows| => LotRecord(rows[i]))
  }

  /** The records of the product sheet, one per row, in row order. */
  function GenericRecords(rows: seq<seq<Value>>): (r: seq<Record>)
    requires forall i :: 0 <= i < |rows| ==> |rows[i]| >= 2
    ensures |r| == |rows| && forall i :: 0 <= i < |rows| ==> r[i] == GenericRecord(rows[i])
  {
    seq(|rows|, i requires 0 <= i < |rows| => GenericRecord(rows[i]))
  }

  /** The import yields the lot rows' records in input order followed by
      the product rows' records in input order, so the count reported to
      the user is the number of lot rows plus the number of product rows. */
  lemma ImportOrder(lots: Sheet, prods: Sheet)
    requires Rectangular(lots) && Rectangular(prods)
    requires lots.width >= 3 && prods.width >= 2
    ensures Import(lots, prods) == Success(LotRecords(lots.rows) + GenericRecords(prods.rows))
    ensures |Import(lots, prods).value| == |lots.rows| + |prods.rows|
  {
    var lf, gf := LotFrame(lots.rows), GenericFrame(prods.rows);
    CleanAllAppend(lf, gf);
    ToRecordsAppend(CleanAll(lf), CleanAll(gf));
    assert ToRecords(CleanAll(lf)) == LotRecords(lots.rows);
    assert ToRecords(CleanAll(gf)) == GenericRecords(prods.rows);
  }

  /** Positional mapping of a lot row: the lot comes from column 0, the
      description from column 1 and the address from column 2, each in
      normal form; the lot is absent exactly when column 0 holds no value,
      is missing, or is text that, stripped, spells nan in any mix of cases. */
  lemma LotRecordFields(row: seq<Value>)
    requires |row| >= 3
    ensures var r := LotRecord(row);
      r.descricao == Normalize(ToText(row[1])) &&
      r.endereco == Normalize(ToText(row[2])) &&
      r.origem == "FRACIONAMENTO" &&
      (r.lote == None <==>
        row[0] == Null || row[0] == NaN ||
        (row[0].Text? && var t := Trim(row[0].s);
          |t| == 3 && t[0] in "nN" && t[1] in "aA" && t[2] in "nN")) &&
      (r.lote != None ==> r.lote == Some(Normalize(ToText(row[0]))))
  {
    LotAbsentIff(row[0]);
  }

  /** Positional mapping of a product row: no lot, the description from
      column 0 and the address from column 1, each in normal form. */
  lemma GenericRecordFields(row: seq<Value>)
    requires |row| >= 2
    ensures GenericRecord(row) ==
      Record(None, Normalize(ToText(row[0])), Normalize(ToText(row[1])), "SPEX/GENERICO")
  {
  }

  /** Two sheets agree on their first `n` columns. */
  predicate AgreeUpTo(rows: seq<seq<Value>>, rows': seq<seq<Value>>, n: nat) {
    |rows| == |rows'| &&
    forall i :: 0 <= i < |rows| ==>
      |rows[i]| >= n && |rows'[i]| >= n && rows[i][..n] == rows'[i][..n]
  }

  /** The unified table reads a lot row only up to column 2 and a product
      row only up to column 1. */
  lemma FrameReadsPrefix(lots: seq<seq<Value>>, prods: seq<seq<Value>>,
                         lots': seq<seq<Value>>, prods': seq<seq<Value>>)
    requires AgreeUpTo(lots, lots', 3) && AgreeUpTo(prods, prods', 2)
    ensures Frame(lots, prods) == Frame(lots', prods')
  {
    var f, f' := Frame(lots, prods), Frame(lots', prods');
    forall k | 0 <= k < |f|
      ensures f[k] == f'[k]
    {
      if k < |lots| {
        var a, b := lots[k], lots'[k];
        assert a[0] == a[..3][0] && a[1] == a[..3][1] && a[2] == a[..3][2];
        assert b[0] == b[..3][0] && b[1] == b[..3][1] && b[2] == b[..3][2];
      } else {
        var j := k - |lots|;
        assert f[|lots| + j] == MapGenericRow(prods[j]);
        assert f'[|lots| + j] == MapGenericRow(prods'[j]);
        var a, b := prods[j], prods'[j];
        assert a[0] == a[..2][0] && a[1] == a[..2][1];
        assert b[0] == b[..2][0] && b[1] == b[..2][1];
      }
    }
  }

  /** Columns past the ones the mapping reads have no effect on the import. */
  lemma ExtraColumnsIgnored(lots: Sheet, prods: Sheet, lots': Sheet, prods': Sheet)
    requires Rectangular(lots) && Rectangular(prods) && Rectangular(lots') && Rectangular(prods')
    requires lots.width >= 3 && prods.width >= 2 && lots'.width >= 3 && prods'.width >= 2
    requires AgreeUpTo(lots.rows, lots'.rows, 3) && AgreeUpTo(prods.rows, prods'.rows, 2)
    ensures Import(lots, prods) == Import(lots', prods')
  {
    FrameReadsPrefix(lots.rows, prods.rows, lots'.rows, prods'.rows);
  }

  /** Provenance: a record is tagged FRACIONAMENTO exactly when it comes
      from the lot sheet, and SPEX/GENERICO otherwise, whatever the cells hold. */
  lemma Provenance(lots: Sheet, prods: Sheet, i: nat)
    requires Rectangular(lots) && Rectangular(prods)
    requires lots.width >= 3 && prods.width >= 2
    requires i < |lots.rows| + |prods.rows|
    ensures var r := Import(lots, prods).value;
      (r[i].origem == "FRACIONAMENTO" <==> i < |lots.rows|) &&
      (r[i].origem == "SPEX/GENERICO" <==> |lots.rows| <= i)
  {
    ImportAt(lots, prods, i);
    assert "FRACIONAMENTO"[0] != "SPEX/GENERICO"[0];
    if i < |lots.rows| {
      assert LotRecord(lots.rows[i]).origem == OriginTag(Fracionamento);
    } else {
      assert GenericRecord(prods.rows[i - |lots.rows|]).origem == OriginTag(SpexGenerico);
    }
  }

  /** After the import every description and address is upper-case and
      stripped, and every lot is absent or upper-case, stripped and not "NAN". */
  lemma ImportIsClean(lots: Sheet, prods: Sheet, i: nat)
    requires Rectangular(lots) && Rectangular(prods)
    requires Import(lots, prods).Success? && i < |Import(lots, prods).value|
    ensures var r := Import(lots, prods).value[i];
      IsNormal(r.descricao) && IsNormal(r.endereco) &&
      (r.lote == None || (IsNormal(r.lote.value) && r.lote.value != "NAN"))
  {
    CleanEntryIsClean(Frame(lots.rows, prods.rows)[i]);
  }

  /** Product records never carry a lot. */
  lemma GenericRecordsHaveNoLot(lots: Sheet, prods: Sheet, j: nat)
    requires Rectangular(lots) && Rectangular(prods)
    requires lots.width >= 3 && prods.width >= 2
    requires j < |prods.rows|
    ensures Import(lots, prods).value[|lots.rows| + j].lote == None
  {
    ImportAt(lots, prods, |lots.rows| + j);
    GenericLotAbsent(prods.rows[j]);
  }
}
