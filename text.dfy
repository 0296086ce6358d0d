/**
 * The string operations the quiz handlers rely on, stated on `seq<char>`:
 * Python's `str.strip()`, `str.lower()`, `str.isdigit()`, `int()` on a
 * decimal literal, `str.startswith()`, the `[A-Za-z0-9]` character class,
 * `str.split(",")` and `<=` on strings.  Letters are folded in the ASCII
 * range only and digits are the ASCII digits (see README, "Left out").
 */
module Text {
  import opened Prelude

  // ---------------------------------------------------------------------
  // Whitespace and strip
  // ---------------------------------------------------------------------

  /** The characters for which Python's `str.isspace()` holds. */
  predicate IsSpace(c: char)
  {
    c == ' ' || ('\t' <= c <= '\r') || ('\U{1C}' <= c <= '\U{1F}')
    || c == '\U{85}' || c == '\U{A0}' || c == '\U{1680}'
    || ('\U{2000}' <= c <= '\U{200A}') || c == '\U{2028}' || c == '\U{2029}'
    || c == '\U{202F}' || c == '\U{205F}' || c == '\U{3000}'
  }

  /** Removes leading whitespace. */
  function TrimStart(s: string): (r: string)
    ensures |r| <= |s|
    ensures r != [] ==> !IsSpace(r[0])
    ensures forall i :: 0 <= i < |s| - |r| ==> IsSpace(s[i])
  {
    if s != [] && IsSpace(s[0]) then TrimStart(s[1..]) else s
  }

  /** What is left after the leading whitespace is a suffix of the input. */
  lemma {:induction false} TrimStartSuffix(s: string)
    ensures TrimStart(s) == s[|s| - |TrimStart(s)|..]
    decreases |s|
  {
    if s != [] && IsSpace(s[0]) {
      TrimStartSuffix(s[1..]);
      assert s[1..][|s[1..]| - |TrimStart(s[1..])|..] == s[|s| - |TrimStart(s)|..];
    }
  }

  /** Removes trailing whitespace. */
  function TrimEnd(s: string): (r: string)
    ensures |r| <= |s| && r == s[..|r|]
    ensures r != [] ==> !IsSpace(r[|r| - 1])
    ensures forall i :: |r| <= i < |s| ==> IsSpace(s[i])
  {
    if s != [] && IsSpace(s[|s| - 1]) then TrimEnd(s[..|s| - 1]) else s
  }

  /** Python's `s.strip()`: neither end of the result is whitespace, and a
      string whose ends are not whitespace is returned unchanged. */
  function Strip(s: string): (r: string)
    ensures |r| <= |s|
    ensures r == [] || (!IsSpace(r[0]) && !IsSpace(r[|r| - 1]))
    ensures (s == [] || (!IsSpace(s[0]) && !IsSpace(s[|s| - 1]))) ==> r == s
  {
    TrimEnd(TrimStart(s))
  }

  lemma StripIdempotent(s: string)
    ensures Strip(Strip(s)) == Strip(s)
  {
  }

  // ---------------------------------------------------------------------
  // Lower case
  // ---------------------------------------------------------------------

  function LowerChar(c: char): char
  {
    if 'A' <= c <= 'Z' then (c as int + 32) as char else c
  }

  /** Python's `s.lower()`, folding the ASCII letters. */
  function Lower(s: string): string
  {
    seq(|s|, i requires 0 <= i < |s| => LowerChar(s[i]))
  }

  lemma LowerIdempotent(s: string)
    ensures Lower(Lower(s)) == Lower(s)
  {
  }

  lemma {:induction false} LowerTrimStart(s: string)
    ensures Lower(TrimStart(s)) == TrimStart(Lower(s))
    decreases |s|
  {
    if s != [] && IsSpace(s[0]) {
      assert Lower(s)[1..] == Lower(s[1..]);
      LowerTrimStart(s[1..]);
    }
  }

  lemma {:induction false} LowerTrimEnd(s: string)
    ensures Lower(TrimEnd(s)) == TrimEnd(Lower(s))
    decreases |s|
  {
    if s != [] && IsSpace(s[|s| - 1]) {
      assert Lower(s)[..|s| - 1] == Lower(s[..|s| - 1]);
      LowerTrimEnd(s[..|s| - 1]);
    }
  }

  /** Lower-casing and stripping commute: no whitespace character is a letter. */
  lemma LowerStripCommute(s: string)
    ensures Lower(Strip(s)) == Strip(Lower(s))
  {
    LowerTrimStart(s);
    LowerTrimEnd(TrimStart(s));
  }

  // ---------------------------------------------------------------------
  // Prefixes and character classes
  // ---------------------------------------------------------------------

  /** Python's `s.startswith(p)`. */
  predicate StartsWith(s: string, p: string)
  {
    |p| <= |s| && s[..|p|] == p
  }

  /** The regular-expression class `[A-Za-z0-9]`. */
  predicate IsAlnum(c: char)
  {
    ('A' <= c <= 'Z') || ('a' <= c <= 'z') || ('0' <= c <= '9')
  }

  predicate AllAlnum(s: string)
  {
    forall i :: 0 <= i < |s| ==> IsAlnum(s[i])
  }

  /** A string that starts and ends with a letter or digit is its own
      stripped form. */
  lemma StripAlnumEnds(s: string, a: char, z: char)
    requires s != [] && s[0] == a && s[|s| - 1] == z
    requires IsAlnum(a) && IsAlnum(z)
    ensures Strip(s) == s
  {
    AlnumNotSpace(a);
    AlnumNotSpace(z);
  }

  /** A letter or digit is not whitespace. */
  lemma AlnumNotSpace(c: char)
    requires IsAlnum(c)
    ensures !IsSpace(c)
  {
  }

  /** Letters and digits are neither commas nor whitespace. */
  lemma AlnumPlain(s: string)
    requires AllAlnum(s)
    ensures ',' !in s
    ensures s != [] ==> !IsSpace(s[0]) && !IsSpace(s[|s| - 1])
  {
  }

  // ---------------------------------------------------------------------
  // Decimal digits
  // ---------------------------------------------------------------------

  predicate IsDigit(c: char)
  {
    '0' <= c <= '9'
  }

  predicate AllDigits(s: string)
  {
    forall i :: 0 <= i < |s| ==> IsDigit(s[i])
  }

  /** Python's `s.isdigit()`: non-empty and made of digits only. */
  predicate IsDigits(s: string)
  {
    |s| > 0 && AllDigits(s)
  }

  /** Lower-casing leaves digits alone, and only digits lower-case to digits. */
  lemma LowerDigits(s: string)
    ensures IsDigits(Lower(s)) <==> IsDigits(s)
    ensures IsDigits(s) ==> Lower(s) == s
  {
    if IsDigits(Lower(s)) {
      forall i | 0 <= i < |s| ensures IsDigit(s[i]) {
        assert IsDigit(Lower(s)[i]);
      }
    }
  }

  /** The value of a string of decimal digits, as `int(s)` computes it. */
  function DigitsValue(s: string): nat
    requires AllDigits(s)
  {
    if s == [] then 0 else DigitsValue(s[..|s| - 1]) * 10 + (s[|s| - 1] as int - '0' as int)
  }

  function DigitChar(d: nat): (c: char)
    requires d < 10
    ensures IsDigit(c) && c as int - '0' as int == d
  {
    ('0' as int + d) as char
  }

  /** The decimal numeral of `n`, as `str(n)` writes it. */
  function Decimal(n: nat): (s: string)
    ensures IsDigits(s)
    ensures !IsSpace(s[0]) && !IsSpace(s[|s| - 1])
  {
    if n < 10 then [DigitChar(n)] else Decimal(n / 10) + [DigitChar(n % 10)]
  }

  /** Reading back a numeral gives the number it was written from. */
  lemma {:induction false} DecimalRoundTrip(n: nat)
    ensures DigitsValue(Decimal(n)) == n
  {
    var s := Decimal(n);
    if n < 10 {
      assert s[..|s| - 1] == [];
    } else {
      assert s[..|s| - 1] == Decimal(n / 10);
      DecimalRoundTrip(n / 10);
    }
  }

  /** The digits of an `int` literal with Python's grouping: digits and
      underscores, starting and ending with a digit, and never two
      underscores in a row. */
  predicate IsGroupedDigits(s: string)
  {
    && |s| > 0 && IsDigit(s[0]) && IsDigit(s[|s| - 1])
    && (forall i :: 0 <= i < |s| ==> IsDigit(s[i]) || s[i] == '_')
    && (forall i :: 0 <= i < |s| - 1 ==> !DoubleUnderscoreAt(s, i))
  }

  predicate DoubleUnderscoreAt(s: string, i: nat)
    requires i + 1 < |s|
  {
    s[i] == '_' && s[i + 1] == '_'
  }

  /** The digits of a grouped literal with its underscores dropped. */
  function Ungrouped(s: string): (r: string)
    requires forall i :: 0 <= i < |s| ==> IsDigit(s[i]) || s[i] == '_'
    ensures AllDigits(r) && |r| <= |s|
    ensures AllDigits(s) ==> r == s
    decreases |s|
  {
    if s == [] then []
    else
      var rest := Ungrouped(s[1..]);
      if s[0] == '_' then rest else [s[0]] + rest
  }

  /** A plain numeral is a grouped one with no underscore to drop. */
  lemma DigitsAreGrouped(s: string)
    requires IsDigits(s)
    ensures IsGroupedDigits(s) && Ungrouped(s) == s
  {
  }

  /** Python's `int(s)` on a string of ASCII digits: surrounding whitespace
      is ignored, one leading sign is allowed, and the digits may be grouped
      with single underscores; anything else is a `ValueError`, here `None`. */
  function ParseInt(s: string): (r: Option<int>)
    ensures r.Some? ==> |Strip(s)| > 0
  {
    ParseIntStripped(Strip(s))
  }

  /** `int` on text already stripped: an optional sign, then grouped digits. */
  function ParseIntStripped(t: string): (r: Option<int>)
    ensures r.Some? ==> |t| > 0
  {
    if |t| > 1 && (t[0] == '+' || t[0] == '-') && IsGroupedDigits(t[1..]) then
      var v: int := DigitsValue(Ungrouped(t[1..]));
      Some(if t[0] == '-' then -v else v)
    else if IsGroupedDigits(t) then
      Some(DigitsValue(Ungrouped(t)))
    else
      None
  }

  /** Underscores group digits: `int("1_0")` is 10 and `int("-2_5")` is -25. */
  lemma ParseIntGrouped()
    ensures ParseInt("1_0") == Some(10)
    ensures ParseInt("-2_5") == Some(-25)
  {
    GroupedTen();
    GroupedMinusTwentyFive();
  }

  lemma GroupedTen()
    ensures ParseInt("1_0") == Some(10)
  {
    var a := "1_0";
    assert Strip(a) == a by { assert !IsSpace(a[0]) && !IsSpace(a[2]); }
    assert a[1..] == "_0" && a[1..][1..] == "0";
    assert Ungrouped(a) == "10";
    assert DigitsValue("10") == 10 by { assert "10"[..1] == "1"; }
    ParseIntUnsigned(a);
  }

  lemma GroupedMinusTwentyFive()
    ensures ParseInt("-2_5") == Some(-25)
  {
    var b := "-2_5";
    assert Strip(b) == b by { assert !IsSpace(b[0]) && !IsSpace(b[3]); }
    assert b[1..] == "2_5" && b[1..][1..] == "_5" && b[1..][1..][1..] == "5";
    assert IsGroupedDigits(b[1..]);
    assert Ungrouped(b[1..]) == "25";
    assert DigitsValue("25") == 25 by { assert "25"[..1] == "2"; }
    ParseIntNegative(b);
  }

  /** Only between two digits: a doubled, leading or trailing underscore is a
      `ValueError`. */
  lemma ParseIntMisgrouped()
    ensures ParseInt("1__0") == None
    ensures ParseInt("_1") == None
    ensures ParseInt("1_") == None
  {
    var a, b, c := "1__0", "_1", "1_";
    assert Strip(a) == a && Strip(b) == b && Strip(c) == c;
    assert !IsGroupedDigits(a) by { assert DoubleUnderscoreAt(a, 1); }
  }

  /** A string of digits, bare or after a minus sign, is read as its value. */
  lemma ParseIntDigits(s: string)
    requires IsDigits(s)
    ensures ParseInt(s) == Some(DigitsValue(s) as int)
    ensures ParseInt("-" + s) == Some(-(DigitsValue(s) as int))
  {
    ParseIntBare(s);
    ParseIntMinus(s);
  }

  lemma ParseIntBare(s: string)
    requires IsDigits(s)
    ensures ParseInt(s) == Some(DigitsValue(s) as int)
  {
    DigitsAreGrouped(s);
    DigitsUnpadded(s);
    ParseIntUnsigned(s);
  }

  lemma ParseIntMinus(s: string)
    requires IsDigits(s)
    ensures ParseInt("-" + s) == Some(-(DigitsValue(s) as int))
  {
    DigitsAreGrouped(s);
    DigitsUnpadded(s);
    SignThenDigits('-', s);
    ParseIntNegative("-" + s);
  }

  lemma SignThenDigits(sign: char, s: string)
    ensures |[sign] + s| == |s| + 1 && ([sign] + s)[0] == sign && ([sign] + s)[1..] == s
  {
  }

  /** Neither a digit string nor one after a minus sign has whitespace to strip. */
  lemma DigitsUnpadded(s: string)
    requires IsDigits(s)
    ensures Strip(s) == s
    ensures Strip("-" + s) == "-" + s
  {
    assert IsDigit(s[0]) && IsDigit(s[|s| - 1]);
    var t := "-" + s;
    assert t[0] == '-' && t[|t| - 1] == s[|s| - 1];
  }

  lemma ParseIntUnsigned(t: string)
    requires IsGroupedDigits(t)
    ensures ParseIntStripped(t) == Some(DigitsValue(Ungrouped(t)) as int)
  {
    assert IsDigit(t[0]);
  }

  lemma ParseIntNegative(t: string)
    requires |t| > 1 && t[0] == '-' && IsGroupedDigits(t[1..])
    ensures ParseIntStripped(t) == Some(-(DigitsValue(Ungrouped(t[1..])) as int))
  {
  }

  /** `int(str(n)) == n` for every integer, positive or negative. */
  lemma ParseIntRoundTrip(n: int)
    ensures n >= 0 ==> ParseInt(Decimal(n)) == Some(n)
    ensures n < 0 ==> ParseInt("-" + Decimal(-n)) == Some(n)
  {
    if n >= 0 {
      DecimalRoundTrip(n);
      ParseIntDigits(Decimal(n));
    } else {
      DecimalRoundTrip(-n);
      ParseIntDigits(Decimal(-n));
    }
  }

  // ---------------------------------------------------------------------
  // Splitting on commas
  // ---------------------------------------------------------------------

  /** Python's `s.split(",")`: the pieces between commas, always at least one. */
  function SplitComma(s: string): (pieces: seq<string>)
    ensures |pieces| >= 1
    ensures forall k :: 0 <= k < |pieces| ==> ',' !in pieces[k]
    decreases |s|
  {
    if s == [] then [""]
    else
      var rest := SplitComma(s[1..]);
      if s[0] == ',' then [""] + rest else [[s[0]] + rest[0]] + rest[1..]
  }

  /** `",".join(pieces)`. */
  function JoinComma(pieces: seq<string>): string
    requires |pieces| >= 1
  {
    if |pieces| == 1 then pieces[0] else pieces[0] + "," + JoinComma(pieces[1..])
  }

  /** Splitting and joining again gives the original text back. */
  lemma {:induction false} SplitJoinRoundTrip(s: string)
    ensures JoinComma(SplitComma(s)) == s
    decreases |s|
  {
    if s != [] {
      var rest := SplitComma(s[1..]);
      SplitJoinRoundTrip(s[1..]);
      if s[0] == ',' {
        assert ([""] + rest)[1..] == rest;
      } else {
        var p := [[s[0]] + rest[0]] + rest[1..];
        if |rest| > 1 {
          assert p[1..] == rest[1..];
          assert JoinComma(rest) == rest[0] + "," + JoinComma(rest[1..]);
        }
      }
    }
  }

  /** Splitting text that begins with comma-free `p` puts `p` in front of the first piece. */
  lemma {:induction false} SplitPrefix(p: string, s: string)
    requires ',' !in p
    ensures SplitComma(p + s) == [p + SplitComma(s)[0]] + SplitComma(s)[1..]
    decreases |p|
  {
    var pieces := SplitComma(s);
    if p == [] {
      assert p + s == s;
      assert p + pieces[0] == pieces[0];
      assert pieces == [pieces[0]] + pieces[1..];
    } else {
      assert (p + s)[1..] == p[1..] + s;
      assert (p + s)[0] == p[0] && p[0] in p;
      SplitPrefix(p[1..], s);
      assert [p[0]] + (p[1..] + SplitComma(s)[0]) == p + SplitComma(s)[0];
    }
  }

  /** Joining comma-free pieces and splitting again gives the pieces back. */
  lemma {:induction false} JoinSplitRoundTrip(pieces: seq<string>)
    requires |pieces| >= 1 && forall k :: 0 <= k < |pieces| ==> ',' !in pieces[k]
    ensures SplitComma(JoinComma(pieces)) == pieces
    decreases |pieces|
  {
    if |pieces| == 1 {
      SplitPrefix(pieces[0], "");
      assert SplitComma("") == [""];
      assert pieces[0] + "" == pieces[0];
      assert JoinComma(pieces) == pieces[0];
      assert pieces == [pieces[0]];
    } else {
      var rest := JoinComma(pieces[1..]);
      JoinSplitRoundTrip(pieces[1..]);
      assert pieces[0] + "," + rest == pieces[0] + ("," + rest);
      SplitPrefix(pieces[0], "," + rest);
      assert ("," + rest)[1..] == rest && ("," + rest)[0] == ',';
      assert SplitComma("," + rest) == [""] + pieces[1..];
      assert pieces[0] + "" == pieces[0];
      assert pieces == [pieces[0]] + pieces[1..];
    }
  }

  /** The joined text starts with the first piece's first character and
      ends with the last piece's last character. */
  lemma {:induction false} JoinEnds(pieces: seq<string>)
    requires |pieces| >= 1 && forall k :: 0 <= k < |pieces| ==> pieces[k] != []
    ensures var j := JoinComma(pieces);
      j != [] && j[0] == pieces[0][0] && j[|j| - 1] == pieces[|pieces| - 1][|pieces[|pieces| - 1]| - 1]
    decreases |pieces|
  {
    if |pieces| > 1 {
      JoinEnds(pieces[1..]);
      var rest := JoinComma(pieces[1..]);
      assert JoinComma(pieces) == pieces[0] + "," + rest;
    }
  }

  /** Non-empty pieces of letters and digits, joined with commas, have no
      whitespace to strip. */
  lemma AlnumPiecesStripped(pieces: seq<string>)
    requires pieces != []
    requires forall p :: p in pieces ==> p != "" && AllAlnum(p)
    ensures Strip(JoinComma(pieces)) == JoinComma(pieces)
  {
    var first, last := pieces[0], pieces[|pieces| - 1];
    assert first in pieces && last in pieces;
    assert IsAlnum(first[0]) && IsAlnum(last[|last| - 1]);
    assert forall k :: 0 <= k < |pieces| ==> pieces[k] != [] by {
      forall k | 0 <= k < |pieces| ensures pieces[k] != [] {
        assert pieces[k] in pieces;
      }
    }
    JoinEndsStripped(pieces, first[0], last[|last| - 1]);
  }

  /** Pieces of letters and digits hold no comma. */
  lemma AlnumPiecesPlain(pieces: seq<string>)
    requires forall p :: p in pieces ==> AllAlnum(p)
    ensures forall k :: 0 <= k < |pieces| ==> ',' !in pieces[k]
  {
    forall k | 0 <= k < |pieces| ensures ',' !in pieces[k] {
      assert pieces[k] in pieces;
      AlnumPlain(pieces[k]);
    }
  }

  /** Comma-joined pieces whose outer characters are letters or digits
      have no whitespace to strip. */
  lemma JoinEndsStripped(pieces: seq<string>, a: char, z: char)
    requires pieces != [] && forall k :: 0 <= k < |pieces| ==> pieces[k] != []
    requires a == pieces[0][0] && z == pieces[|pieces| - 1][|pieces[|pieces| - 1]| - 1]
    requires IsAlnum(a) && IsAlnum(z)
    ensures Strip(JoinComma(pieces)) == JoinComma(pieces)
  {
    JoinEnds(pieces);
    StripAlnumEnds(JoinComma(pieces), a, z);
  }

  // ---------------------------------------------------------------------
  // Ordering of strings
  // ---------------------------------------------------------------------

  /** Python's `a <= b` on strings: code points compared lexicographically. */
  predicate LexLe(a: string, b: string)
    decreases |a|
  {
    a == [] || (b != [] && (a[0] < b[0] || (a[0] == b[0] && LexLe(a[1..], b[1..]))))
  }

  lemma {:induction false} LexLeTotal(a: string, b: string)
    ensures LexLe(a, b) || LexLe(b, a)
    decreases |a|
  {
    if a != [] && b != [] && a[0] == b[0] {
      LexLeTotal(a[1..], b[1..]);
    }
  }

  lemma {:induction false} LexLeTrans(a: string, b: string, c: string)
    requires LexLe(a, b) && LexLe(b, c)
    ensures LexLe(a, c)
    decreases |a|
  {
    if a != [] && a[0] == b[0] && b[0] == c[0] {
      LexLeTrans(a[1..], b[1..], c[1..]);
    }
  }
}
