/** The Python string built-ins the core relies on: `str.isspace`, `str.strip`,
    `str.startswith`, `int(text)`, `str(n)`, left-aligned format padding,
    `str.upper` and `str.join`. */
module Text {
  import opened Wrappers
  import opened Seqs

  /** `c.isspace()`: the characters CPython treats as whitespace. */
  predicate IsSpace(c: char) {
    var n := c as int;
    (9 <= n <= 13) || (28 <= n <= 32) || n == 0x85 || n == 0xA0 || n == 0x1680
    || (0x2000 <= n <= 0x200A) || n == 0x2028 || n == 0x2029 || n == 0x202F
    || n == 0x205F || n == 0x3000
  }

  predicate IsDigit(c: char) {
    '0' <= c <= '9'
  }

  /** `s.lstrip()`. */
  function LStrip(s: string): string {
    if s != [] && IsSpace(s[0]) then LStrip(s[1..]) else s
  }

  /** `s.rstrip()`. */
  function RStrip(s: string): string {
    if s != [] && IsSpace(Last(s)) then RStrip(DropLast(s)) else s
  }

  /** `s.strip()`. */
  function Strip(s: string): string {
    RStrip(LStrip(s))
  }

  /** `lstrip` drops exactly the leading run of whitespace. */
  lemma LStripSpec(s: string)
    ensures |LStrip(s)| <= |s| && LStrip(s) == s[|s| - |LStrip(s)|..]
    ensures forall i :: 0 <= i < |s| - |LStrip(s)| ==> IsSpace(s[i])
    ensures LStrip(s) != [] ==> !IsSpace(LStrip(s)[0])
  {
    LStripSuffix(s);
    LStripDrops(s);
    LStripStart(s);
  }

  lemma {:induction false} LStripSuffix(s: string)
    ensures |LStrip(s)| <= |s| && LStrip(s) == s[|s| - |LStrip(s)|..]
  {
    if s != [] && IsSpace(s[0]) {
      var t := s[1..];
      LStripSuffix(t);
      assert t[|t| - |LStrip(t)|..] == s[|s| - |LStrip(t)|..];
    }
  }

  lemma {:induction false} LStripDrops(s: string)
    ensures forall i :: 0 <= i < |s| - |LStrip(s)| ==> IsSpace(s[i])
  {
    if s != [] && IsSpace(s[0]) {
      var t := s[1..];
      LStripDrops(t);
      forall i | 0 < i < |s| - |LStrip(t)| ensures IsSpace(s[i]) {
        assert s[i] == t[i - 1];
      }
    }
  }

  lemma {:induction false} LStripStart(s: string)
    ensures LStrip(s) != [] ==> !IsSpace(LStrip(s)[0])
  {
    if s != [] && IsSpace(s[0]) {
      LStripStart(s[1..]);
    }
  }

  /** `rstrip` drops exactly the trailing run of whitespace. */
  lemma RStripSpec(s: string)
    ensures |RStrip(s)| <= |s| && RStrip(s) == s[..|RStrip(s)|]
    ensures forall i :: |RStrip(s)| <= i < |s| ==> IsSpace(s[i])
    ensures RStrip(s) != [] ==> !IsSpace(RStrip(s)[|RStrip(s)| - 1])
  {
    RStripPrefix(s);
    RStripDrops(s);
    RStripEnd(s);
  }

  lemma {:induction false} RStripPrefix(s: string)
    ensures |RStrip(s)| <= |s| && RStrip(s) == s[..|RStrip(s)|]
  {
    if s != [] && IsSpace(Last(s)) {
      var t := DropLast(s);
      RStripPrefix(t);
      assert t[..|RStrip(t)|] == s[..|RStrip(t)|];
    }
  }

  lemma {:induction false} RStripDrops(s: string)
    ensures forall i :: |RStrip(s)| <= i < |s| ==> IsSpace(s[i])
  {
    if s != [] && IsSpace(Last(s)) {
      var t := DropLast(s);
      RStripDrops(t);
      forall i | |RStrip(t)| <= i < |s| - 1 ensures IsSpace(s[i]) {
        assert s[i] == t[i];
      }
    }
  }

  lemma {:induction false} RStripEnd(s: string)
    ensures RStrip(s) != [] ==> !IsSpace(RStrip(s)[|RStrip(s)| - 1])
  {
    if s != [] && IsSpace(Last(s)) {
      RStripEnd(DropLast(s));
    }
  }

  /** `strip` removes a run of whitespace from each end and nothing else: the result is a
      slice of `s` with whitespace only outside it, and it neither starts nor ends with
      whitespace. */
  lemma StripSpec(s: string)
    ensures var r := Strip(s); var a := |s| - |LStrip(s)|;
      && 0 <= a && a + |r| <= |s| && r == s[a..a + |r|]
      && (forall i :: 0 <= i < a ==> IsSpace(s[i]))
      && (forall i :: a + |r| <= i < |s| ==> IsSpace(s[i]))
      && (r != [] ==> !IsSpace(r[0]) && !IsSpace(r[|r| - 1]))
  {
    var l := LStrip(s);
    var r := RStrip(l);
    LStripSpec(s);
    RStripSpec(l);
    var a := |s| - |l|;
    assert l == s[a..] && r == l[..|r|];
    assert s[a..][..|r|] == s[a..a + |r|];
    forall i | a + |r| <= i < |s| ensures IsSpace(s[i]) {
      assert s[i] == l[i - a];
    }
    if r != [] {
      assert r[0] == l[0];
    }
  }

  /** Stripping twice is stripping once. */
  lemma StripIdempotent(s: string)
    ensures Strip(Strip(s)) == Strip(s)
  {
    var l := LStrip(s);
    var r := RStrip(l);
    LStripSpec(s);
    RStripSpec(l);
    if r != [] {
      assert r[0] == l[0];
    }
    StripClean(r);
  }

  /** A string whose ends are not whitespace is its own strip. */
  lemma StripClean(s: string)
    requires s != [] ==> !IsSpace(s[0]) && !IsSpace(s[|s| - 1])
    ensures Strip(s) == s
  {
  }

  /** `s.startswith(prefix)`. */
  predicate StartsWith<T(==)>(s: seq<T>, prefix: seq<T>) {
    |prefix| <= |s| && s[..|prefix|] == prefix
  }

  /** Whatever follows, a sequence still starts with the prefixes it started with. */
  lemma StartsWithAppend<T>(s: seq<T>, prefix: seq<T>, rest: seq<T>)
    requires StartsWith(s, prefix)
    ensures StartsWith(s + rest, prefix)
  {
    assert (s + rest)[..|prefix|] == s[..|prefix|];
  }

  function DigitChar(d: nat): (c: char)
    requires d < 10
    ensures IsDigit(c) && c as int - '0' as int == d
  {
    ('0' as int + d) as char
  }

  /** `str(n)` for a natural number: decimal digits, no leading zero. */
  function NatToString(n: nat): (r: string)
    ensures |r| > 0 && forall i :: 0 <= i < |r| ==> IsDigit(r[i])
    ensures |r| > 1 ==> r[0] != '0'
  {
    if n < 10 then [DigitChar(n)] else NatToString(n / 10) + [DigitChar(n % 10)]
  }

  /** `str(i)` for any integer. */
  function IntToString(i: int): (r: string)
    ensures |r| > 0
    ensures forall k :: 0 <= k < |r| ==> IsDigit(r[k]) || (k == 0 && r[k] == '-')
  {
    if i < 0 then "-" + NatToString(-i) else NatToString(i)
  }

  /** The body of an integer literal as `int()` takes it: digits, with single underscores
      allowed between two digits. */
  predicate DigitRun(s: string) {
    && |s| > 0 && IsDigit(s[0]) && IsDigit(Last(s))
    && DigitsOrUnderscores(s)
    && forall i, j :: 0 <= i < |s| && 0 <= j < |s| && j == i + 1 ==> !(s[i] == '_' && s[j] == '_')
  }

  predicate DigitsOrUnderscores(s: string) {
    forall i :: 0 <= i < |s| ==> IsDigit(s[i]) || s[i] == '_'
  }

  /** The value of a run of digits, underscores skipped. */
  function DigitsValue(s: string): nat
    requires DigitsOrUnderscores(s)
  {
    if s == [] then 0
    else
      var d := Last(s);
      assert IsDigit(d) || d == '_';
      if d == '_' then DigitsValue(DropLast(s))
      else DigitsValue(DropLast(s)) * 10 + (d as int - '0' as int)
  }

  /** The whitespace `int()` skips around a literal. Below U+0080 it is only the space, tab,
      line feed, vertical tab, form feed and carriage return, so the separators U+001C to
      U+001F, which `isspace` accepts, are not skipped; above, it is what `isspace` accepts. */
  predicate IsIntSpace(c: char) {
    (9 <= c as int <= 13) || c == ' ' || (c as int >= 0x80 && IsSpace(c))
  }

  function IntTrimLeft(s: string): string {
    if s != [] && IsIntSpace(s[0]) then IntTrimLeft(s[1..]) else s
  }

  function IntTrimRight(s: string): string {
    if s != [] && IsIntSpace(Last(s)) then IntTrimRight(DropLast(s)) else s
  }

  /** `int(s)`: surrounding whitespace skipped, an optional sign, then a digit run.
      None where Python raises ValueError. */
  function ParseInt(s: string): Option<int> {
    ParseStripped(IntTrimRight(IntTrimLeft(s)))
  }

  /** `int()` once the surrounding whitespace is gone. */
  function ParseStripped(t: string): Option<int> {
    var signed := t != [] && (t[0] == '-' || t[0] == '+');
    var body := if signed then t[1..] else t;
    if !DigitRun(body) then None
    else
      var v: int := DigitsValue(body);
      Some(if signed && t[0] == '-' then -v else v)
  }

  lemma {:induction false} NatToStringValue(n: nat)
    ensures DigitsValue(NatToString(n)) == n
  {
    if n >= 10 {
      NatToStringValue(n / 10);
      var s := NatToString(n);
      assert DropLast(s) == NatToString(n / 10);
    }
  }

  /** `int(str(i)) == i`: every count the report prints reads back as the number it came from. */
  lemma ParseIntToString(i: int)
    ensures ParseInt(IntToString(i)) == Some(i)
  {
    var r := IntToString(i);
    if i < 0 {
      assert r[1..] == NatToString(-i);
      NatToStringValue(-i);
    } else {
      NatToStringValue(i);
    }
    ParseCleanInt(r);
  }

  /** `int()` on text whose ends are not whitespace to it: nothing is skipped. */
  lemma ParseClean(t: string)
    requires t != [] ==> !IsIntSpace(t[0]) && !IsIntSpace(t[|t| - 1])
    ensures ParseInt(t) == ParseStripped(t)
  {
  }

  /** `int()` on text whose ends are not whitespace to it: a digit run is its value, a
      minus sign negates it, and anything else in front is rejected. */
  lemma ParseCleanInt(t: string)
    requires t != [] && !IsIntSpace(t[0]) && !IsIntSpace(t[|t| - 1])
    ensures IsDigit(t[0]) && DigitRun(t) ==> ParseInt(t) == Some(DigitsValue(t))
    ensures t[0] == '-' && DigitRun(t[1..]) ==> ParseInt(t) == Some(0 - DigitsValue(t[1..]))
    ensures !IsDigit(t[0]) && t[0] != '-' && t[0] != '+' ==> ParseInt(t) == None
  {
    ParseClean(t);
    StrippedCases(t);
  }

  /** The three ways `int()` reads text that starts with a digit, a minus or anything else. */
  lemma StrippedCases(t: string)
    requires t != []
    ensures IsDigit(t[0]) && DigitRun(t) ==> ParseStripped(t) == Some(DigitsValue(t))
    ensures t[0] == '-' && DigitRun(t[1..]) ==> ParseStripped(t) == Some(0 - DigitsValue(t[1..]))
    ensures !IsDigit(t[0]) && t[0] != '-' && t[0] != '+' ==> ParseStripped(t) == None
  {
    if IsDigit(t[0]) {
      assert t[0] != '-' && t[0] != '+';
    } else if t[0] == '-' {
    } else if t[0] != '+' {
      assert !DigitRun(t);
    }
  }

  /** `int()` skips a blank and a non-breaking space around a literal, but not the
      information separator U+001C that `strip` removes. */
  lemma IntSpaceIsNotStripSpace()
    ensures ParseInt(" 5\U{A0}") == Some(5)
    ensures ParseInt("5\U{1C}") == None
    ensures Strip("5\U{1C}") == "5"
  {
    assert IntTrimLeft(" 5\U{A0}") == "5\U{A0}";
    assert IntTrimRight("5\U{A0}") == "5";
    assert DropLast("5\U{1C}") == "5";
    ParseCleanInt("5\U{1C}");
    assert LStrip("5\U{1C}") == "5\U{1C}";
  }

  /** The text `"unknown"`, the default `portid`, is not an integer. */
  lemma UnknownIsNotInteger()
    ensures ParseInt("unknown") == None
  {
    ParseCleanInt("unknown");
  }

  function Spaces(n: nat): (r: string)
    ensures |r| == n && forall i :: 0 <= i < n ==> r[i] == ' '
  {
    seq(n, _ => ' ')
  }

  /** `"=" * n`. */
  function Repeat(c: char, n: nat): (r: string)
    ensures |r| == n && forall i :: 0 <= i < n ==> r[i] == c
  {
    seq(n, _ => c)
  }

  /** `f"{s:w}"` for a string: left-aligned, padded with spaces to width w, never cut. */
  function PadRight(s: string, w: nat): (r: string)
    ensures |r| == if |s| < w then w else |s|
    ensures r[..|s|] == s
    ensures forall i :: |s| <= i < |r| ==> r[i] == ' '
  {
    if |s| < w then s + Spaces(w - |s|) else s
  }

  function UpperChar(c: char): char {
    if 'a' <= c <= 'z' then (c as int - 'a' as int + 'A' as int) as char else c
  }

  /** `s.upper()` on ASCII letters. */
  function Upper(s: string): (r: string)
    ensures |r| == |s|
    ensures forall i :: 0 <= i < |s| ==> r[i] == UpperChar(s[i])
  {
    Map(UpperChar, s)
  }

  /** `sep.join(parts)`. */
  function Join(parts: seq<string>, sep: string): (r: string)
    ensures parts == [] ==> r == ""
    ensures |parts| == 1 ==> r == parts[0]
  {
    if parts == [] then ""
    else if |parts| == 1 then parts[0]
    else Join(DropLast(parts), sep) + sep + Last(parts)
  }
}
