/** The text normalisation the import applies to every field: Python's
    `str.upper()` followed by `str.strip()`.

    `IsSpace` is exactly the set of characters for which Python's
    `str.isspace()` holds, which is what `strip()` removes.  `UpperChar`
    follows Python's `str.upper()` on ASCII and Latin-1 (including the
    one-to-two mapping of sharp s to "SS"); every other character is left
    as it is.

    The functions are plain definitions; what they guarantee is stated by
    the lemmas beside them. */
module Text {

  /** Python's `str.isspace()`. */
  predicate IsSpace(c: char) {
    var n := c as int;
    (0x09 <= n <= 0x0D) || (0x1C <= n <= 0x20) || n == 0x85 || n == 0xA0 ||
    n == 0x1680 || (0x2000 <= n <= 0x200A) || n == 0x2028 || n == 0x2029 ||
    n == 0x202F || n == 0x205F || n == 0x3000
  }

  /** The characters that `UpperChar` changes: a-z and the Latin-1 letters
      that `str.upper()` maps to something else.  This is not Python's
      `str.islower()`: the ordinal indicators U+00AA and U+00BA are
      lower-case there but `str.upper()` leaves them as they are. */
  predicate ChangedByUpper(c: char) {
    var n := c as int;
    ('a' <= c <= 'z') || n == 0xB5 || n == 0xDF || (0xE0 <= n <= 0xFF && n != 0xF7)
  }

  /** Python's `str.upper()` on one character. */
  function UpperChar(c: char): string {
    var n := c as int;
    if 'a' <= c <= 'z' then [(n - 32) as char]
    else if n == 0xDF then "SS"
    else if n == 0xFF then [0x178 as char]
    else if n == 0xB5 then [0x39C as char]
    else if 0xE0 <= n <= 0xFE && n != 0xF7 then [(n - 32) as char]
    else [c]
  }

  /** Upper-casing a character changes it exactly when it is in
      `ChangedByUpper`; the result holds no character upper-casing would
      change again and is whitespace exactly when
      the character is; only sharp s grows, to two characters. */
  lemma UpperCharFacts(c: char)
    ensures |UpperChar(c)| == 1 || (|UpperChar(c)| == 2 && c as int == 0xDF)
    ensures UpperChar(c) != [c] <==> ChangedByUpper(c)
    ensures forall k :: 0 <= k < |UpperChar(c)| ==>
      !ChangedByUpper(UpperChar(c)[k]) && (IsSpace(UpperChar(c)[k]) <==> IsSpace(c))
  {
  }

  /** No character of `s` is one that upper-casing would change. */
  predicate NothingToUpper(s: string) {
    forall k :: 0 <= k < |s| ==> !ChangedByUpper(s[k])
  }

  /** Python's `str.upper()`. */
  function Upper(s: string): string {
    if s == [] then [] else UpperChar(s[0]) + Upper(s[1..])
  }

  /** Upper-cased text has no character left that upper-casing would change, is never shorter than
      the input, and is empty only for empty input. */
  lemma {:induction false} UpperFacts(s: string)
    ensures NothingToUpper(Upper(s))
    ensures |s| <= |Upper(s)|
    ensures Upper(s) == [] <==> s == []
  {
    if s != [] {
      var u, v := UpperChar(s[0]), Upper(s[1..]);
      UpperCharFacts(s[0]);
      UpperFacts(s[1..]);
      assert forall k :: |u| <= k < |u + v| ==> (u + v)[k] == v[k - |u|];
    }
  }

  /** `s` neither starts nor ends with whitespace. */
  predicate Trimmed(s: string) {
    s == [] || (!IsSpace(s[0]) && !IsSpace(s[|s| - 1]))
  }

  /** Python's `str.lstrip()`. */
  function TrimStart(s: string): string {
    if s != [] && IsSpace(s[0]) then TrimStart(s[1..]) else s
  }

  /** `lstrip()` keeps a suffix, removes only whitespace, and what it keeps
      does not start with whitespace. */
  lemma {:induction false} TrimStartFacts(s: string)
    ensures |TrimStart(s)| <= |s| && TrimStart(s) == s[|s| - |TrimStart(s)|..]
    ensures forall k :: 0 <= k < |s| - |TrimStart(s)| ==> IsSpace(s[k])
    ensures TrimStart(s) == [] || !IsSpace(TrimStart(s)[0])
  {
    if s != [] && IsSpace(s[0]) {
      TrimStartFacts(s[1..]);
    }
  }

  /** Python's `str.rstrip()`. */
  function TrimEnd(s: string): string {
    if s != [] && IsSpace(s[|s| - 1]) then TrimEnd(s[..|s| - 1]) else s
  }

  /** `rstrip()` keeps a prefix, removes only whitespace, and what it keeps
      does not end with whitespace. */
  lemma {:induction false} TrimEndFacts(s: string)
    ensures |TrimEnd(s)| <= |s| && TrimEnd(s) == s[..|TrimEnd(s)|]
    ensures forall k :: |TrimEnd(s)| <= k < |s| ==> IsSpace(s[k])
    ensures TrimEnd(s) == [] || !IsSpace(TrimEnd(s)[|TrimEnd(s)| - 1])
  {
    if s != [] && IsSpace(s[|s| - 1]) {
      TrimEndFacts(s[..|s| - 1]);
    }
  }

  /** Python's `str.strip()`. */
  function Trim(s: string): string {
    TrimEnd(TrimStart(s))
  }

  /** `r` is what is left of `s` once the whitespace before position `i`
      and after position `i + |r|` is removed. */
  ghost predicate StripOf(s: string, i: int, r: string) {
    0 <= i <= i + |r| <= |s| && r == s[i..i + |r|] &&
    (forall k :: 0 <= k < i ==> IsSpace(s[k])) &&
    (forall k :: i + |r| <= k < |s| ==> IsSpace(s[k])) &&
    Trimmed(r)
  }

  /** `strip()` removes exactly the leading and the trailing whitespace. */
  lemma TrimIsStrip(s: string)
    ensures StripOf(s, |s| - |TrimStart(s)|, Trim(s))
  {
    var t := TrimStart(s);
    var i := |s| - |t|;
    TrimStartFacts(s);
    TrimEndFacts(t);
    var r := Trim(s);
    assert t == s[i..];
    assert r == t[..|r|];
    forall k | i + |r| <= k < |s|
      ensures IsSpace(s[k])
    {
      assert s[k] == t[k - i];
    }
    if r != [] {
      assert r[0] == t[0];
    }
  }

  /** Two strippings of the same string agree: `StripOf` determines `strip()`. */
  lemma StripOfUnique(s: string, i: int, r: string, j: int, q: string)
    requires StripOf(s, i, r) && StripOf(s, j, q)
    ensures r == q
  {
    if r != [] {
      assert !IsSpace(s[i]) && !IsSpace(s[i + |r| - 1]);
    }
    if q != [] {
      assert !IsSpace(s[j]) && !IsSpace(s[j + |q| - 1]);
    }
  }

  /** Stripping text that has no surrounding whitespace changes nothing. */
  lemma TrimTrimmed(s: string)
    requires Trimmed(s)
    ensures Trim(s) == s
  {
    TrimIsStrip(s);
    StripOfUnique(s, |s| - |TrimStart(s)|, Trim(s), 0, s);
  }

  /** What the cleaning leaves behind: nothing to upper-case, nothing to strip. */
  predicate IsNormal(s: string) {
    NothingToUpper(s) && Trimmed(s)
  }

  /** The cleaning of one field: upper-case first, then strip. */
  function Normalize(s: string): string {
    Trim(Upper(s))
  }

  /** A cleaned field has no character upper-casing would change and no
      surrounding whitespace. */
  lemma NormalizeIsNormal(s: string)
    ensures IsNormal(Normalize(s))
  {
    var u := Upper(s);
    UpperFacts(s);
    TrimIsStrip(u);
    var i, r := |u| - |TrimStart(u)|, Normalize(s);
    forall k | 0 <= k < |r|
      ensures !ChangedByUpper(r[k])
    {
      assert r[k] == u[i + k];
    }
  }

  /** Upper-casing distributes over concatenation. */
  lemma {:induction false} UpperAppend(a: string, b: string)
    ensures Upper(a + b) == Upper(a) + Upper(b)
  {
    if a != [] {
      assert (a + b)[0] == a[0];
      assert (a + b)[1..] == a[1..] + b;
      UpperAppend(a[1..], b);
    } else {
      assert a + b == b;
    }
  }

  /** Upper-casing leaves text unchanged when it holds no character in `ChangedByUpper`. */
  lemma {:induction false} UpperFixpoint(s: string)
    requires NothingToUpper(s)
    ensures Upper(s) == s
  {
    if s != [] {
      UpperCharFacts(s[0]);
      UpperFixpoint(s[1..]);
    }
  }

  /** On ASCII lower-case letters, upper-casing subtracts 32 from each. */
  lemma {:induction false} UpperAscii(s: string)
    requires forall k :: 0 <= k < |s| ==> 'a' <= s[k] <= 'z'
    ensures |Upper(s)| == |s|
    ensures forall k :: 0 <= k < |s| ==> Upper(s)[k] == (s[k] as int - 32) as char
  {
    if s != [] {
      UpperAscii(s[1..]);
    }
  }

  lemma {:induction false} TrimStartUpper(s: string)
    ensures TrimStart(Upper(s)) == Upper(TrimStart(s))
  {
    if s != [] {
      UpperCharFacts(s[0]);
      if IsSpace(s[0]) {
        assert UpperChar(s[0]) == [s[0]];
        TrimStartUpper(s[1..]);
      }
    }
  }

  lemma {:induction false} TrimEndUpper(s: string)
    ensures TrimEnd(Upper(s)) == Upper(TrimEnd(s))
  {
    if s != [] {
      var init, last := s[..|s| - 1], s[|s| - 1];
      assert s == init + [last];
      UpperAppend(init, [last]);
      assert Upper([last]) == UpperChar(last);
      UpperCharFacts(last);
      if IsSpace(last) {
        assert UpperChar(last) == [last];
        var u := Upper(init) + [last];
        assert u[..|u| - 1] == Upper(init);
        TrimEndUpper(init);
      }
    }
  }

  /** Upper-casing neither creates nor removes whitespace, so stripping
      after it (as the source does) gives the same text as stripping before it. */
  lemma UpperTrimCommute(s: string)
    ensures Normalize(s) == Upper(Trim(s))
  {
    TrimStartUpper(s);
    TrimEndUpper(TrimStart(s));
  }

  /** A field already in normal form is left as it is. */
  lemma NormalizeNormal(s: string)
    requires IsNormal(s)
    ensures Normalize(s) == s
  {
    UpperFixpoint(s);
    TrimTrimmed(s);
  }

  /** Normalising twice is the same as normalising once. */
  lemma NormalizeIdempotent(s: string)
    ensures Normalize(Normalize(s)) == Normalize(s)
  {
    NormalizeIsNormal(s);
    NormalizeNormal(Normalize(s));
  }

  /** If upper-cased text starts with a character other than 'S', that
      character comes from the first input character alone. */
  lemma UpperHead(t: string, c: char, rest: string)
    requires Upper(t) == [c] + rest && c != 'S'
    ensures t != [] && UpperChar(t[0]) == [c] && Upper(t[1..]) == rest
  {
    var u := UpperChar(t[0]);
    UpperCharFacts(t[0]);
    assert Upper(t) == u + Upper(t[1..]);
    assert u[0] == Upper(t)[0] == c;
    assert |u| == 1;
    assert Upper(t)[1..] == Upper(t[1..]);
  }

  /** The only characters upper-cased to 'N' and to 'A'. */
  lemma UpperCharNA(c: char)
    ensures UpperChar(c) == "N" <==> c == 'n' || c == 'N'
    ensures UpperChar(c) == "A" <==> c == 'a' || c == 'A'
  {
  }

  /** Upper-cased text without an 'S' comes from input of the same length,
      character by character. */
  lemma {:induction false} UpperWithoutS(t: string, u: string)
    requires Upper(t) == u && forall k :: 0 <= k < |u| ==> u[k] != 'S'
    ensures |t| == |u| && forall k :: 0 <= k < |t| ==> UpperChar(t[k]) == [u[k]]
  {
    if u == [] {
      UpperFacts(t);
    } else {
      assert u == [u[0]] + u[1..];
      UpperHead(t, u[0], u[1..]);
      UpperWithoutS(t[1..], u[1..]);
      forall k | 0 <= k < |t|
        ensures UpperChar(t[k]) == [u[k]]
      {
        if k > 0 {
          assert t[k] == t[1..][k - 1] && u[k] == u[1..][k - 1];
        }
      }
    }
  }

  lemma UpperIsNanOnly(t: string)
    requires Upper(t) == "NAN"
    ensures |t| == 3 && t[0] in "nN" && t[1] in "aA" && t[2] in "nN"
  {
    UpperWithoutS(t, "NAN");
    UpperCharNA(t[0]);
    UpperCharNA(t[1]);
    UpperCharNA(t[2]);
  }

  lemma UpperOfNan(t: string)
    requires |t| == 3 && t[0] in "nN" && t[1] in "aA" && t[2] in "nN"
    ensures Upper(t) == "NAN"
  {
    UpperCharNA(t[0]);
    UpperCharNA(t[1]);
    UpperCharNA(t[2]);
    assert Upper(t[2..]) == "N" by {
      assert t[2..][1..] == [];
    }
    assert Upper(t[1..]) == "AN" by {
      assert t[1..][1..] == t[2..];
    }
  }

  /** Text upper-cases to "NAN" exactly when it spells nan in any mix of cases. */
  lemma UpperIsNan(t: string)
    ensures Upper(t) == "NAN" <==>
      |t| == 3 && t[0] in "nN" && t[1] in "aA" && t[2] in "nN"
  {
    if Upper(t) == "NAN" {
      UpperIsNanOnly(t);
    }
    if |t| == 3 && t[0] in "nN" && t[1] in "aA" && t[2] in "nN" {
      UpperOfNan(t);
    }
  }

  /** A value normalises to "NAN" exactly when, stripped, it spells nan in any mix of cases. */
  lemma NormalizeIsNan(s: string)
    ensures Normalize(s) == "NAN" <==>
      var t := Trim(s); |t| == 3 && t[0] in "nN" && t[1] in "aA" && t[2] in "nN"
  {
    UpperTrimCommute(s);
    UpperIsNan(Trim(s));
  }
}
