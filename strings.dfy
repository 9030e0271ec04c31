/**
 * The Python string built-ins the program relies on: `str(int)`, `int(str)`,
 * `str.strip()`, left-justified formatting, lower-casing for a substring test
 * and `"\n".join`.  Strings are sequences of Unicode scalar values, as Python's are.
 */
module Strings {
  import opened Options

  predicate IsDigit(c: char) {
    '0' <= c <= '9'
  }

  function DigitValue(c: char): (d: nat)
    requires IsDigit(c)
    ensures d < 10
  {
    c as int - '0' as int
  }

  function DigitChar(d: nat): (c: char)
    requires d < 10
    ensures IsDigit(c) && DigitValue(c) == d
  {
    (d + '0' as int) as char
  }

  /** Python's `str(n)` for a non-negative `n`: its decimal digits, most significant first. */
  function NatToString(n: nat): string
    decreases n
  {
    if n < 10 then [DigitChar(n)] else NatToString(n / 10) + [DigitChar(n % 10)]
  }

  /** `str(n)` is a non-empty run of digits without a leading zero. */
  lemma {:induction false} NatToStringShape(n: nat)
    ensures var s := NatToString(n);
            && |s| > 0
            && (forall i :: 0 <= i < |s| ==> IsDigit(s[i]))
            && (|s| > 1 ==> s[0] != '0')
    decreases n
  {
    if n >= 10 {
      NatToStringShape(n / 10);
    }
  }

  /** Python's `str(i)` for any integer. */
  function IntToString(i: int): string {
    if i < 0 then "-" + NatToString(-i) else NatToString(i)
  }

  /** Characters that Python's `str.isspace()` accepts: the ones `strip()` skips. */
  predicate IsSpace(c: char) {
    || c == ' ' || c == '\t' || c == '\n' || c == '\r' || c == '\U{B}' || c == '\U{C}'
    || ('\U{1C}' <= c <= '\U{1F}')
    || c == '\U{85}' || c == '\U{A0}' || c == '\U{1680}'
    || ('\U{2000}' <= c <= '\U{200A}')
    || c == '\U{2028}' || c == '\U{2029}' || c == '\U{202F}' || c == '\U{205F}' || c == '\U{3000}'
  }

  /**
   * The white space `int()` skips around its digits: the ASCII characters
   * `' \t\n\v\f\r'` and every non-ASCII `isspace()` character.  Unlike
   * `strip()`, it does not skip the ASCII separators U+001C..U+001F.
   */
  predicate IsIntSpace(c: char) {
    IsSpace(c) && !('\U{1C}' <= c <= '\U{1F}')
  }

  /** Drops the leading characters that `skip` accepts. */
  function TrimStart(s: string, skip: char -> bool): string {
    if s != [] && skip(s[0]) then TrimStart(s[1..], skip) else s
  }

  /** Drops the trailing characters that `skip` accepts. */
  function TrimEnd(s: string, skip: char -> bool): string {
    if s != [] && skip(s[|s| - 1]) then TrimEnd(s[..|s| - 1], skip) else s
  }

  lemma {:induction false} TrimStartShape(s: string, skip: char -> bool)
    ensures var r := TrimStart(s, skip);
            && |r| <= |s| && r == s[|s| - |r|..]
            && (forall i :: 0 <= i < |s| - |r| ==> skip(s[i]))
            && (r != [] ==> !skip(r[0]))
    decreases |s|
  {
    if s != [] && skip(s[0]) {
      TrimStartShape(s[1..], skip);
    }
  }

  lemma {:induction false} TrimEndShape(s: string, skip: char -> bool)
    ensures var r := TrimEnd(s, skip);
            && |r| <= |s| && r == s[..|r|]
            && (forall i :: |r| <= i < |s| ==> skip(s[i]))
            && (r != [] ==> !skip(r[|r| - 1]))
    decreases |s|
  {
    if s != [] && skip(s[|s| - 1]) {
      TrimEndShape(s[..|s| - 1], skip);
    }
  }

  /** Python's `s.strip()`: `s` without white space at either end. */
  function Strip(s: string): string {
    TrimEnd(TrimStart(s, IsSpace), IsSpace)
  }

  /** The text `int()` reads its sign and digits from: `s` without `int()`'s white space at either end. */
  function IntStrip(s: string): string {
    TrimEnd(TrimStart(s, IsIntSpace), IsIntSpace)
  }

  /**
   * `strip()` keeps a slice of `s`: everything before it and after it is
   * white space, and it neither starts nor ends with white space.
   */
  lemma StripShape(s: string)
    ensures var r := Strip(s);
            exists lo {:trigger s[lo..]} :: && 0 <= lo && lo + |r| <= |s| && r == s[lo..lo + |r|]
                         && (forall i :: 0 <= i < lo ==> IsSpace(s[i]))
                         && (forall i :: lo + |r| <= i < |s| ==> IsSpace(s[i]))
    ensures var r := Strip(s); r != [] ==> !IsSpace(r[0]) && !IsSpace(r[|r| - 1])
  {
    TrimStartShape(s, IsSpace);
    var start := TrimStart(s, IsSpace);
    TrimEndShape(start, IsSpace);
    var lo := |s| - |start|;
    var r := Strip(s);
    assert r == s[lo..lo + |r|];
    assert s[lo..] == start;
  }

  /** A string with no white space at either end is its own strip. */
  lemma StripUnpadded(s: string)
    requires s != [] ==> !IsSpace(s[0]) && !IsSpace(s[|s| - 1])
    ensures Strip(s) == s
  {
  }

  /** The same for the white space `int()` skips. */
  lemma IntStripUnpadded(s: string)
    requires s != [] ==> !IsIntSpace(s[0]) && !IsIntSpace(s[|s| - 1])
    ensures IntStrip(s) == s
  {
  }

  /** `strip()` gives the empty string exactly when the input is all white space. */
  lemma StripEmpty(s: string)
    ensures Strip(s) == [] <==> forall i :: 0 <= i < |s| ==> IsSpace(s[i])
  {
    var start := TrimStart(s, IsSpace);
    TrimStartShape(s, IsSpace);
    TrimEndShape(start, IsSpace);
    var k := |s| - |start|;
    if !forall i :: 0 <= i < |s| ==> IsSpace(s[i]) {
      var i :| 0 <= i < |s| && !IsSpace(s[i]);
      assert start != [] && start[i - k] == s[i];
    }
  }

  /** Digits with single underscores between them: the body `int()` accepts after the sign. */
  predicate WellFormedDigits(s: string) {
    && |s| > 0
    && IsDigit(s[0]) && IsDigit(s[|s| - 1])
    && (forall i :: 0 <= i < |s| ==> IsDigit(s[i]) || s[i] == '_')
    && (forall i :: 0 <= i < |s| - 1 ==> s[i] == '_' ==> s[i + 1] != '_')
  }

  /** The value of a run of decimal digits, ignoring the underscores between them. */
  function DigitsValue(s: string): nat
    requires forall i :: 0 <= i < |s| ==> IsDigit(s[i]) || s[i] == '_'
  {
    if s == [] then 0
    else if s[|s| - 1] == '_' then DigitsValue(s[..|s| - 1])
    else 10 * DigitsValue(s[..|s| - 1]) + DigitValue(s[|s| - 1])
  }

  /**
   * Python's `int(text)` in base 10: `int()`'s white space around an optional
   * sign and a digit run; `None` where Python raises `ValueError`.
   */
  function ParseInt(text: string): Option<int> {
    var t := IntStrip(text);
    if |t| > 0 && (t[0] == '+' || t[0] == '-') then
      var body := t[1..];
      if WellFormedDigits(body) then
        assert IsDigit(t[1]);
        var magnitude: int := DigitsValue(body);
        Some(if t[0] == '-' then -magnitude else magnitude)
      else None
    else if WellFormedDigits(t) then
      assert IsDigit(t[0]);
      Some(DigitsValue(t))
    else None
  }

  lemma {:induction false} NatToStringValue(n: nat)
    ensures WellFormedDigits(NatToString(n))
    ensures DigitsValue(NatToString(n)) == n
    decreases n
  {
    var s := NatToString(n);
    NatToStringShape(n);
    if n >= 10 {
      NatToStringValue(n / 10);
      assert s[..|s| - 1] == NatToString(n / 10);
    }
  }

  /** `int(str(i)) == i`: the two conversions are inverse. */
  lemma ParseIntToString(i: int)
    ensures ParseInt(IntToString(i)) == Some(i)
  {
    var s := IntToString(i);
    var digits := NatToString(if i < 0 then -i else i);
    NatToStringValue(if i < 0 then -i else i);
    assert !IsIntSpace(digits[0]) && !IsIntSpace(digits[|digits| - 1]);
    IntStripUnpadded(s);
    if i < 0 {
      assert s[1..] == digits;
      assert DigitsValue(s[1..]) == -i;
    } else {
      assert s == digits;
      assert s[0] != '+' && s[0] != '-';
    }
  }

  /**
   * `int()` and `strip()` disagree on the ASCII separators: a digit run after
   * U+001C strips to the digits, but `int()` rejects it.
   */
  lemma {:induction false} SeparatorBeforeDigits(digits: string)
    requires WellFormedDigits(digits)
    ensures Strip("\U{1C}" + digits) == digits
    ensures ParseInt("\U{1C}" + digits) == None
  {
    var text := "\U{1C}" + digits;
    assert text[1..] == digits;
    assert TrimStart(text, IsSpace) == TrimStart(digits, IsSpace) == digits;
    assert TrimStart(text, IsIntSpace) == text;
    assert text[|text| - 1] == digits[|digits| - 1];
    assert TrimEnd(text, IsIntSpace) == text;
  }

  function Repeat(c: char, n: nat): string {
    seq(n, _ => c)
  }

  /** Python's `f"{s:<width}"`: `s` followed by spaces up to `width` characters. */
  function PadRight(s: string, width: nat): string {
    if |s| < width then s + Repeat(' ', width - |s|) else s
  }

  /** Padding keeps `s` in front and fills up to `width` with spaces, never cutting `s` short. */
  lemma PadRightShape(s: string, width: nat)
    ensures var r := PadRight(s, width);
            && |r| == (if |s| < width then width else |s|)
            && r[..|s|] == s
            && forall i :: |s| <= i < |r| ==> r[i] == ' '
  {
  }

  /** Lower-cases the ASCII capitals and leaves every other character alone. */
  function AsciiLower(s: string): string {
    seq(|s|, i requires 0 <= i < |s| => if 'A' <= s[i] <= 'Z' then (s[i] as int + 32) as char else s[i])
  }

  /** Lowering a slice is slicing the lowered string. */
  lemma AsciiLowerSlice(s: string, i: int, j: int)
    requires 0 <= i <= j <= |s|
    ensures AsciiLower(s)[i..j] == AsciiLower(s[i..j])
  {
  }

  predicate IsPrefix(p: string, s: string) {
    |p| <= |s| && s[..|p|] == p
  }

  predicate IsSuffix(p: string, s: string) {
    |p| <= |s| && s[|s| - |p|..] == p
  }

  /** Python's `pattern in s`. */
  predicate Contains(s: string, pattern: string)
    decreases |s|
  {
    IsPrefix(pattern, s) || (s != [] && Contains(s[1..], pattern))
  }

  /** `pattern` occurs in `s` starting at index `k`. */
  predicate OccursAt(s: string, pattern: string, k: int) {
    0 <= k <= |s| - |pattern| && IsPrefix(pattern, s[k..])
  }

  /** `Contains` holds exactly when the pattern occurs at some position. */
  lemma ContainsAt(s: string, pattern: string)
    ensures Contains(s, pattern) <==> exists k :: OccursAt(s, pattern, k)
  {
    if Contains(s, pattern) {
      var k := ContainsWitness(s, pattern);
    }
    if exists k :: OccursAt(s, pattern, k) {
      var k :| OccursAt(s, pattern, k);
      OccursContains(s, pattern, k);
    }
  }

  /** Where `Contains` holds, the first position at which the pattern occurs. */
  lemma {:induction false} ContainsWitness(s: string, pattern: string) returns (k: int)
    requires Contains(s, pattern)
    ensures OccursAt(s, pattern, k)
    decreases |s|
  {
    if IsPrefix(pattern, s) {
      k := 0;
      assert s[0..] == s;
    } else {
      var k' := ContainsWitness(s[1..], pattern);
      k := k' + 1;
      assert s[1..][k'..] == s[k..];
    }
  }

  /** An occurrence anywhere makes `Contains` hold. */
  lemma {:induction false} OccursContains(s: string, pattern: string, k: int)
    requires OccursAt(s, pattern, k)
    ensures Contains(s, pattern)
    decreases k
  {
    if k == 0 {
      assert s[0..] == s;
    } else {
      assert s[1..][k - 1..] == s[k..];
      OccursContains(s[1..], pattern, k - 1);
    }
  }

  /** Python's `sep.join(parts)`. */
  function Join(parts: seq<string>, sep: string): (r: string)
    ensures parts == [] ==> r == ""
    ensures |parts| == 1 ==> r == parts[0]
  {
    if parts == [] then ""
    else if |parts| == 1 then parts[0]
    else Join(parts[..|parts| - 1], sep) + sep + parts[|parts| - 1]
  }

  /** A joined text starts with the first part and ends with the last two parts and the separator between them. */
  lemma JoinEnds(parts: seq<string>, sep: string)
    requires |parts| >= 3
    ensures IsPrefix(parts[0], Join(parts, sep))
    ensures IsSuffix(parts[|parts| - 1], Join(parts, sep))
    ensures IsSuffix(sep + parts[|parts| - 2] + sep + parts[|parts| - 1], Join(parts, sep))
  {
    var init, last := parts[..|parts| - 1], parts[|parts| - 1];
    var j := Join(init, sep);
    JoinFirst(init, sep);
    JoinLast(parts, sep);
    JoinTail(init, sep);
    assert init[0] == parts[0] && init[|init| - 1] == parts[|parts| - 2];
    var inner := sep + parts[|parts| - 2];
    assert (j + sep + last)[|j + sep + last| - |inner + sep + last|..] == j[|j| - |inner|..] + sep + last;
  }

  /** With two parts or more, the joined text ends with a separator and the last part. */
  lemma JoinTail(parts: seq<string>, sep: string)
    requires |parts| >= 2
    ensures IsSuffix(sep + parts[|parts| - 1], Join(parts, sep))
  {
    var j, last := Join(parts[..|parts| - 1], sep), parts[|parts| - 1];
    assert (j + sep + last)[|j + sep + last| - |sep + last|..] == sep + last;
  }

  lemma {:induction false} JoinFirst(parts: seq<string>, sep: string)
    requires parts != []
    ensures IsPrefix(parts[0], Join(parts, sep))
    decreases |parts|
  {
    if |parts| > 1 {
      var init := parts[..|parts| - 1];
      JoinFirst(init, sep);
      var j := Join(init, sep);
      assert (j + sep + parts[|parts| - 1])[..|parts[0]|] == j[..|parts[0]|];
    }
  }

  lemma JoinLast(parts: seq<string>, sep: string)
    requires parts != []
    ensures IsSuffix(parts[|parts| - 1], Join(parts, sep))
  {
    if |parts| > 1 {
      var j, last := Join(parts[..|parts| - 1], sep), parts[|parts| - 1];
      assert (j + sep + last)[|j + sep + last| - |last|..] == last;
    }
  }
}
