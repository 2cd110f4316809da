/** The parts of Python's built-in string behaviour that the six programs rely
    on: `str.isspace` and `str.strip`, slicing with clamped bounds,
    `startswith`/`endswith`, `str.upper` on ASCII letters, `int(s)` and
    `int(s, 16)`, `str(n)` on integers, and `str.split` with a separator. */
module PyText {
  import opened Wrappers

  // ---------------------------------------------------------------------------
  // Whitespace and strip

  /** `c.isspace()`: the characters that `str.strip()` with no argument removes. */
  predicate IsSpace(c: char) {
    || c == ' '
    || ('\t' <= c <= '\r')
    || ('\U{1c}' <= c <= '\U{1f}')
    || c == '\U{85}' || c == '\U{a0}' || c == '\U{1680}'
    || ('\U{2000}' <= c <= '\U{200a}')
    || c == '\U{2028}' || c == '\U{2029}' || c == '\U{202f}' || c == '\U{205f}' || c == '\U{3000}'
  }

  /** Every character of `s` is whitespace (the empty string included). */
  predicate AllSpace(s: string) {
    forall i :: 0 <= i < |s| ==> IsSpace(s[i])
  }

  /** The end of the run of whitespace that starts at index `i`. */
  function SpaceRunEnd(s: string, i: nat): (k: nat)
    requires i <= |s|
    ensures i <= k <= |s|
    ensures forall j :: i <= j < k ==> IsSpace(s[j])
    ensures k < |s| ==> !IsSpace(s[k])
    decreases |s| - i
  {
    if i < |s| && IsSpace(s[i]) then SpaceRunEnd(s, i + 1) else i
  }

  /** The start of the run of whitespace that ends at index `j`, not going
      below `lo`. */
  function SpaceRunStart(s: string, lo: nat, j: nat): (k: nat)
    requires lo <= j <= |s|
    ensures lo <= k <= j
    ensures forall i :: k <= i < j ==> IsSpace(s[i])
    ensures k > lo ==> !IsSpace(s[k - 1])
  {
    if j > lo && IsSpace(s[j - 1]) then SpaceRunStart(s, lo, j - 1) else j
  }

  /** `s.strip()`: the whitespace at both ends removed. The characters are
      copied one by one rather than sliced, so that `Strip(s) == s` never
      equates `s` with a slice of itself. */
  function Strip(s: string): (r: string)
    ensures |r| <= |s|
    ensures |r| > 0 ==> !IsSpace(r[0]) && !IsSpace(r[|r| - 1])
    ensures var lo := SpaceRunEnd(s, 0);
      && lo + |r| <= |s|
      && (forall k :: 0 <= k < lo ==> IsSpace(s[k]))
      && (forall k :: 0 <= k < |r| ==> r[k] == s[lo + k])
      && (forall k :: lo + |r| <= k < |s| ==> IsSpace(s[k]))
  {
    var lo := SpaceRunEnd(s, 0);
    var hi := SpaceRunStart(s, lo, |s|);
    seq(hi - lo, k requires 0 <= k < hi - lo => s[lo + k])
  }

  /** A stripped string is empty exactly when the original holds only whitespace. */
  lemma StripEmptyIff(s: string)
    ensures Strip(s) == "" <==> AllSpace(s)
  {
    var lo := SpaceRunEnd(s, 0);
    var hi := SpaceRunStart(s, lo, |s|);
    if lo == hi {
      assert lo == |s|;
    }
  }

  /** A string that neither starts nor ends with whitespace is left unchanged. */
  lemma StripUnchanged(s: string)
    requires |s| > 0 ==> !IsSpace(s[0]) && !IsSpace(s[|s| - 1])
    ensures Strip(s) == s
  {
  }

  /** Stripping twice is the same as stripping once. */
  lemma StripIdempotent(s: string)
    ensures Strip(Strip(s)) == Strip(s)
  {
    StripUnchanged(Strip(s));
  }

  // ---------------------------------------------------------------------------
  // Slicing, prefixes and suffixes

  /** `s[i:j]` for non-negative `i` and `j`: both bounds are clamped to `len(s)`. */
  function Slice(s: string, i: nat, j: nat): (r: string)
    ensures i <= j <= |s| ==> r == s[i..j]
    ensures i <= |s| <= j ==> r == s[i..]
    ensures j <= i || |s| <= i ==> r == ""
  {
    var lo := if i < |s| then i else |s|;
    var hi := if j < lo then lo else if j < |s| then j else |s|;
    s[lo..hi]
  }

  /** `s.startswith(p)`. */
  predicate StartsWith(s: string, p: string) {
    |p| <= |s| && s[..|p|] == p
  }

  /** `s.endswith(p)`. */
  predicate EndsWith(s: string, p: string) {
    |p| <= |s| && s[|s| - |p|..] == p
  }

  /** The end of the run of `c` that starts at index `i`. */
  function CharRunEnd(s: string, c: char, i: nat): (k: nat)
    requires i <= |s|
    ensures i <= k <= |s|
    ensures forall j :: i <= j < k ==> s[j] == c
    ensures k < |s| ==> s[k] != c
    decreases |s| - i
  {
    if i < |s| && s[i] == c then CharRunEnd(s, c, i + 1) else i
  }

  /** `s.lstrip(c)` for a single character `c`: everything after the leading
      run of `c`. */
  function LStripChar(s: string, c: char): (r: string)
    ensures |r| <= |s|
    ensures forall i :: 0 <= i < |r| ==> r[i] == s[|s| - |r| + i]
    ensures forall i :: 0 <= i < |s| - |r| ==> s[i] == c
    ensures |r| > 0 ==> r[0] != c
  {
    var k := CharRunEnd(s, c, 0);
    seq(|s| - k, i requires 0 <= i < |s| - k => s[k + i])
  }

  // ---------------------------------------------------------------------------
  // Upper case

  /** `c.upper()` on ASCII letters; every other character is left as it is. */
  function UpperChar(c: char): char {
    if 'a' <= c <= 'z' then (c as int - 32) as char else c
  }

  /** `s.upper()`, character by character. */
  function Upper(s: string): (r: string)
    ensures |r| == |s|
    ensures forall i :: 0 <= i < |s| ==> r[i] == UpperChar(s[i])
  {
    seq(|s|, i requires 0 <= i < |s| => UpperChar(s[i]))
  }

  /** `c.lower()` on ASCII letters; every other character is left as it is. */
  function LowerChar(c: char): char {
    if 'A' <= c <= 'Z' then (c as int + 32) as char else c
  }

  /** `s.lower()`, character by character. */
  function Lower(s: string): (r: string)
    ensures |r| == |s|
    ensures forall i :: 0 <= i < |s| ==> r[i] == LowerChar(s[i])
  {
    seq(|s|, i requires 0 <= i < |s| => LowerChar(s[i]))
  }

  // ---------------------------------------------------------------------------
  // Digits and str(n)

  /** A digit of `base` (10 or 16); hexadecimal digits are case-insensitive. */
  predicate IsDigit(c: char, base: nat) {
    ('0' <= c <= '9') || (base == 16 && (('a' <= c <= 'f') || ('A' <= c <= 'F')))
  }

  function DigitValue(c: char): nat {
    if '0' <= c <= '9' then c as int - '0' as int
    else if 'a' <= c <= 'f' then c as int - 'a' as int + 10
    else if 'A' <= c <= 'F' then c as int - 'A' as int + 10
    else 0
  }

  /** The number the digits of `s[lo..hi]` denote in `base`, most
      significant first; underscores between digits are skipped. */
  function DigitsValue(s: string, lo: nat, hi: nat, base: nat): nat
    requires lo <= hi <= |s|
    decreases hi
  {
    if hi == lo then 0
    else if s[hi - 1] == '_' then DigitsValue(s, lo, hi - 1, base)
    else DigitsValue(s, lo, hi - 1, base) * base + DigitValue(s[hi - 1])
  }

  /** Appending characters does not change the value of a range before them. */
  lemma {:induction false} DigitsValueAppend(a: string, b: string, lo: nat, hi: nat, base: nat)
    requires lo <= hi <= |a|
    ensures DigitsValue(a + b, lo, hi, base) == DigitsValue(a, lo, hi, base)
    decreases hi
  {
    if hi > lo {
      assert (a + b)[hi - 1] == a[hi - 1];
      DigitsValueAppend(a, b, lo, hi - 1, base);
    }
  }

  /** Prepending characters shifts a range without changing its value. */
  lemma {:induction false} DigitsValuePrepend(p: string, d: string, lo: nat, hi: nat, base: nat)
    requires lo <= hi <= |d|
    ensures DigitsValue(p + d, |p| + lo, |p| + hi, base) == DigitsValue(d, lo, hi, base)
    decreases hi
  {
    if hi > lo {
      assert (p + d)[|p| + hi - 1] == d[hi - 1];
      DigitsValuePrepend(p, d, lo, hi - 1, base);
    }
  }

  /** The lower-case digit Python prints for `d` (`format(d, 'x')` for one digit). */
  function DigitChar(d: nat): (c: char)
    requires d < 16
    ensures IsDigit(c, 16) && DigitValue(c) == d
    ensures d < 10 ==> IsDigit(c, 10)
    ensures !('A' <= c <= 'Z')
  {
    if d < 10 then ('0' as int + d) as char else ('a' as int + d - 10) as char
  }

  /** `str(n)` for a natural number: its decimal digits, no leading zero. */
  function Decimal(n: nat): (r: string)
    ensures |r| >= 1
    ensures forall i :: 0 <= i < |r| ==> '0' <= r[i] <= '9'
    ensures r[0] == '0' ==> n == 0
    ensures n < 10 ==> |r| == 1
    ensures 10 <= n < 100 ==> |r| == 2
    ensures 100 <= n < 1000 ==> |r| == 3
    ensures 1000 <= n < 10000 ==> |r| == 4
  {
    if n < 10 then [DigitChar(n)]
    else
      var high := Decimal(n / 10);
      assert (high + [DigitChar(n % 10)])[0] == high[0];
      high + [DigitChar(n % 10)]
  }

  /** Reading back the digits of `str(n)` gives `n`. */
  lemma {:induction false} DecimalValue(n: nat)
    ensures DigitsValue(Decimal(n), 0, |Decimal(n)|, 10) == n
  {
    var d := Decimal(n);
    if n < 10 {
      assert d == [DigitChar(n)];
    } else {
      var high := Decimal(n / 10);
      assert d == high + [DigitChar(n % 10)];
      DecimalValue(n / 10);
      DigitsValueAppend(high, [DigitChar(n % 10)], 0, |high|, 10);
      assert d[|d| - 1] == DigitChar(n % 10);
    }
  }

  /** Different numbers print differently. */
  lemma DecimalInjective(a: nat, b: nat)
    ensures Decimal(a) == Decimal(b) ==> a == b
  {
    DecimalValue(a);
    DecimalValue(b);
  }

  /** `str(i)` for any integer. */
  function IntToString(i: int): (r: string)
    ensures |r| >= 1
  {
    if i < 0 then "-" + Decimal(-i) else Decimal(i)
  }

  /** `f"{n:02d}"`: at least two digits, zero-padded. */
  function Pad2(n: nat): (r: string)
    ensures n < 100 ==> |r| == 2
    ensures forall i :: 0 <= i < |r| ==> '0' <= r[i] <= '9'
  {
    if n < 10 then "0" + Decimal(n) else Decimal(n)
  }

  /** `f"{n:04d}"`: at least four digits, zero-padded. */
  function Pad4(n: nat): (r: string)
    ensures n < 10000 ==> |r| == 4
    ensures forall i :: 0 <= i < |r| ==> '0' <= r[i] <= '9'
  {
    if n < 10 then "000" + Decimal(n)
    else if n < 100 then "00" + Decimal(n)
    else if n < 1000 then "0" + Decimal(n)
    else Decimal(n)
  }

  // ---------------------------------------------------------------------------
  // int(s) and int(s, 16)

  /** The characters at `i` and `i + 1` are not both underscores. */
  predicate NoDoubleUnderscoreAt(s: string, i: nat)
    requires i + 1 < |s|
  {
    !(s[i] == '_' && s[i + 1] == '_')
  }

  /** `s[lo..]` is digits of `base` with single underscores between them,
      as `int()` allows. */
  predicate GroupedFrom(s: string, lo: nat, base: nat) {
    && lo < |s| && IsDigit(s[lo], base) && IsDigit(s[|s| - 1], base)
    && (forall i :: lo <= i < |s| ==> IsDigit(s[i], base) || s[i] == '_')
    && (forall i: nat :: lo <= i && i + 1 < |s| ==> NoDoubleUnderscoreAt(s, i))
  }

  /** Where the digits of `int(s, base)` begin when the sign (if any) ends at
      `start`: for base 16 after an optional `0x`/`0X` prefix, itself
      optionally followed by one underscore. */
  function DigitsStart(s: string, start: nat, base: nat): (lo: nat)
    requires start <= |s|
    ensures start <= lo <= |s|
  {
    if base == 16 && start + 2 <= |s| && s[start] == '0' && (s[start + 1] == 'x' || s[start + 1] == 'X') then
      if start + 2 < |s| && s[start + 2] == '_' then start + 3 else start + 2
    else start
  }

  /** The magnitude `int(s, base)` reads from `s[start..]`. */
  function ParseUnsigned(s: string, start: nat, base: nat): Option<nat>
    requires start <= |s|
  {
    var lo := DigitsStart(s, start, base);
    if GroupedFrom(s, lo, base) then Some(DigitsValue(s, lo, |s|, base)) else None
  }

  /** A stripped numeral with at most one leading sign. */
  function ParseSigned(t: string, base: nat): Option<int> {
    var signed := |t| > 0 && (t[0] == '+' || t[0] == '-');
    match ParseUnsigned(t, if signed then 1 else 0, base)
    case None => None
    case Some(n) => Some(if signed && t[0] == '-' then -(n as int) else n as int)
  }

  /** The whitespace `int()` skips around a numeral: " \t\n\v\f\r" and the
      non-ASCII whitespace that CPython turns into ' ' before parsing. The
      separators U+001C..U+001F count for `isspace` but are not skipped. */
  predicate IntSpace(c: char) {
    IsSpace(c) && !('\U{1c}' <= c <= '\U{1f}')
  }

  /** Every character of `s` is whitespace that `int()` skips. */
  predicate AllIntSpace(s: string) {
    forall i :: 0 <= i < |s| ==> IntSpace(s[i])
  }

  /** `int(s)` (base 10) or `int(s, 16)`: `None` stands for the `ValueError`.
      Surrounding `IntSpace` is skipped and one sign is allowed. A numeral
      neither starts nor ends with whitespace, so this is `s.strip()` read as
      a numeral, provided every character the strip removed is `IntSpace`. */
  function ParseInt(s: string, base: nat): Option<int>
    requires base == 10 || base == 16
  {
    var t := Strip(s);
    var lo := SpaceRunEnd(s, 0);
    if AllIntSpace(s[..lo]) && AllIntSpace(s[lo + |t|..]) then ParseSigned(t, base) else None
  }

  /** The whitespace run at the front of `a + d + b` is exactly `a` when `a`
      is all whitespace and `d` starts with a non-space. */
  lemma SpaceRunEndPadded(a: string, d: string, b: string)
    requires AllSpace(a)
    requires |d| > 0 && !IsSpace(d[0])
    ensures SpaceRunEnd(a + d + b, 0) == |a|
  {
    var s := a + d + b;
    var lo := SpaceRunEnd(s, 0);
    assert s[|a|] == d[0];
    assert forall k :: 0 <= k < |a| ==> s[k] == a[k];
  }

  /** Stripping whitespace from around a numeral-like middle gives the middle. */
  lemma StripPadded(a: string, d: string, b: string)
    requires AllSpace(a) && AllSpace(b)
    requires |d| > 0 && !IsSpace(d[0]) && !IsSpace(d[|d| - 1])
    ensures Strip(a + d + b) == d
  {
    var s := a + d + b;
    var t := Strip(s);
    SpaceRunEndPadded(a, d, b);
    var lo := |a|;
    assert s[lo + |d| - 1] == d[|d| - 1];
    assert forall k :: 0 <= k < |b| ==> s[lo + |d| + k] == b[k];
    forall k | 0 <= k < |d|
      ensures t[k] == d[k]
    {
      assert s[lo + k] == d[k];
    }
  }

  /** A numeral padded with skipped whitespace on both sides reads as the numeral. */
  lemma ParseIntPadded(a: string, d: string, b: string, base: nat)
    requires base == 10 || base == 16
    requires AllIntSpace(a) && AllIntSpace(b)
    requires |d| > 0 && !IsSpace(d[0]) && !IsSpace(d[|d| - 1])
    ensures ParseInt(a + d + b, base) == ParseSigned(d, base)
  {
    var s := a + d + b;
    SpaceRunEndPadded(a, d, b);
    StripPadded(a, d, b);
    assert s[..|a|] == a;
    assert s[|a| + |d|..] == b;
  }

  /** A leading information separator is not skipped, so "\U{1c}5" is refused. */
  lemma ParseIntSeparator()
    ensures ParseInt("\U{1c}5", 10) == None
  {
    var s := "\U{1c}5";
    assert SpaceRunEnd(s, 0) == 1;
    assert !IntSpace(s[..1][0]);
  }

  /** An empty or all-whitespace string is not a number. */
  lemma ParseIntBlank(s: string, base: nat)
    requires base == 10 || base == 16
    requires AllSpace(s)
    ensures ParseInt(s, base) == None
  {
    StripEmptyIff(s);
  }

  /** The digits of `str(n)` parse back to `n`. */
  lemma DecimalParses(n: nat)
    ensures ParseUnsigned(Decimal(n), 0, 10) == Some(n)
  {
    DecimalValue(n);
  }

  /** A numeral that starts with a digit reads as its digits. */
  lemma ParseSignedDigits(d: string, n: nat)
    requires |d| > 0 && '0' <= d[0] <= '9'
    requires ParseUnsigned(d, 0, 10) == Some(n)
    ensures ParseSigned(d, 10) == Some(n)
  {
  }

  /** With a minus sign in front, a numeral reads as the negation of its digits. */
  lemma ParseSignedMinus(d: string, n: nat)
    requires ParseUnsigned(d, 0, 10) == Some(n)
    ensures ParseSigned("-" + d, 10) == Some(-(n as int))
  {
    var s := "-" + d;
    assert GroupedFrom(s, 1, 10) by {
      forall i | 1 <= i < |s| ensures IsDigit(s[i], 10) || s[i] == '_' {
        assert s[i] == d[i - 1];
      }
      forall i: nat | 1 <= i && i + 1 < |s| ensures NoDoubleUnderscoreAt(s, i) {
        assert NoDoubleUnderscoreAt(d, i - 1);
      }
    }
    DigitsValuePrepend("-", d, 0, |d|, 10);
  }

  /** `int()` of a string without surrounding whitespace reads the string itself. */
  lemma ParseIntStripped(s: string, base: nat)
    requires base == 10 || base == 16
    requires |s| > 0 ==> !IsSpace(s[0]) && !IsSpace(s[|s| - 1])
    ensures ParseInt(s, base) == ParseSigned(s, base)
  {
    StripUnchanged(s);
  }

  /** `str(n)` begins and ends with a digit, never with white space. */
  lemma DecimalEnds(n: nat)
    ensures var d := Decimal(n); '0' <= d[0] <= '9' && !IsSpace(d[0]) && !IsSpace(d[|d| - 1])
  {
    var d := Decimal(n);
    assert '0' <= d[0] <= '9' && '0' <= d[|d| - 1] <= '9';
  }

  /** `int(str(n)) == n` for a natural number. */
  lemma NaturalRoundTrip(n: nat)
    ensures ParseInt(Decimal(n), 10) == Some(n)
  {
    var d := Decimal(n);
    DecimalParses(n);
    DecimalEnds(n);
    ParseSignedDigits(d, n);
    ParseIntStripped(d, 10);
  }

  /** `int(str(-n)) == -n` for a natural number. */
  lemma NegativeRoundTrip(n: nat)
    ensures ParseInt("-" + Decimal(n), 10) == Some(-(n as int))
  {
    MinusNumeralEnds(n);
    ParseIntStripped("-" + Decimal(n), 10);
    DecimalParses(n);
    ParseSignedMinus(Decimal(n), n);
  }

  /** `str(-n)` begins with '-' and ends with a digit, never with white space. */
  lemma MinusNumeralEnds(n: nat)
    ensures var s := "-" + Decimal(n); !IsSpace(s[0]) && !IsSpace(s[|s| - 1])
  {
    var d := Decimal(n);
    DecimalEnds(n);
    assert ("-" + d)[|d|] == d[|d| - 1];
  }

  /** `int(str(i)) == i` for every integer, negative ones included. */
  lemma IntRoundTrip(i: int)
    ensures ParseInt(IntToString(i), 10) == Some(i)
  {
    var s := IntToString(i);
    if i < 0 {
      var n: nat := -i;
      NegativeRoundTrip(n);
      assert s == "-" + Decimal(n);
    } else {
      var n: nat := i;
      NaturalRoundTrip(n);
      assert s == Decimal(n);
    }
  }

  /** `int(h + l, 16)` for two lower-case hexadecimal digits. */
  lemma HexPairValue(h: nat, l: nat)
    requires h < 16 && l < 16
    ensures ParseInt([DigitChar(h), DigitChar(l)], 16) == Some(h * 16 + l)
  {
    var s := [DigitChar(h), DigitChar(l)];
    StripUnchanged(s);
    assert DigitsStart(s, 0, 16) == 0;
    assert GroupedFrom(s, 0, 16);
    assert DigitsValue(s, 0, 1, 16) == h;
  }

  // ---------------------------------------------------------------------------
  // split

  /** `sep` occurs in `s` starting at position `k`. */
  predicate OccursAt(s: string, sep: string, k: nat) {
    k + |sep| <= |s| && s[k..k + |sep|] == sep
  }

  /** Shifting by one character moves every occurrence one position back. */
  lemma OccursAtTail(s: string, sep: string, k: nat)
    requires |s| > 0
    ensures OccursAt(s, sep, k + 1) <==> OccursAt(s[1..], sep, k)
  {
    if k + 1 + |sep| <= |s| {
      assert s[k + 1..k + 1 + |sep|] == s[1..][k..k + |sep|];
    }
  }

  /** `s.find(sep)`: the first position where `sep` occurs, if any. */
  function IndexOf(s: string, sep: string): (r: Option<nat>)
    requires |sep| > 0
    ensures r.Some? ==> OccursAt(s, sep, r.value)
    ensures r.Some? ==> forall k: nat :: k < r.value ==> !OccursAt(s, sep, k)
    ensures r.None? ==> forall k: nat :: !OccursAt(s, sep, k)
    decreases |s|
  {
    if |s| < |sep| then None
    else if s[..|sep|] == sep then Some(0)
    else
      var rest := IndexOf(s[1..], sep);
      assert forall k: nat {:trigger OccursAt(s, sep, k)} :: k >= 1 ==>
        (OccursAt(s, sep, k) <==> OccursAt(s[1..], sep, k - 1)) by {
        forall k: nat | k >= 1 ensures OccursAt(s, sep, k) <==> OccursAt(s[1..], sep, k - 1) {
          OccursAtTail(s, sep, k - 1);
        }
      }
      match rest
      case None => None
      case Some(k) => Some(k + 1)
  }

  /** `s.split(sep)` for a non-empty separator. */
  function Split(s: string, sep: string): (parts: seq<string>)
    requires |sep| > 0
    ensures |parts| >= 1
    decreases |s|
  {
    match IndexOf(s, sep)
    case None => [s]
    case Some(k) => [s[..k]] + Split(s[k + |sep|..], sep)
  }

  /** No part of a split holds the separator: each part ends where the
      next occurrence begins, and the last part holds none. */
  lemma {:induction false} SplitPartsFree(s: string, sep: string)
    requires |sep| > 0
    ensures forall i: nat, k: nat :: i < |Split(s, sep)| ==> !OccursAt(Split(s, sep)[i], sep, k)
    decreases |s|
  {
    match IndexOf(s, sep)
    case None =>
      assert Split(s, sep) == [s];
    case Some(k) =>
      var rest := s[k + |sep|..];
      SplitPartsFree(rest, sep);
      var head := s[..k];
      forall j: nat ensures !OccursAt(head, sep, j) {
        if OccursAt(head, sep, j) {
          assert head[j..j + |sep|] == s[j..j + |sep|];
          assert OccursAt(s, sep, j);
        }
      }
      var parts, tail := Split(s, sep), Split(rest, sep);
      assert parts == [head] + tail;
      assert forall i :: 1 <= i < |parts| ==> parts[i] == tail[i - 1];
  }

  /** `sep.join(parts)`. */
  function Join(parts: seq<string>, sep: string): string {
    if |parts| == 0 then ""
    else if |parts| == 1 then parts[0]
    else parts[0] + sep + Join(parts[1..], sep)
  }

  /** Joining the pieces of a split with the same separator gives the original. */
  lemma {:induction false} SplitJoin(s: string, sep: string)
    requires |sep| > 0
    ensures Join(Split(s, sep), sep) == s
    decreases |s|
  {
    var i := IndexOf(s, sep);
    if i.Some? {
      var k := i.value;
      var rest := s[k + |sep|..];
      var tail := Split(rest, sep);
      SplitJoin(rest, sep);
      var parts := Split(s, sep);
      assert parts == [s[..k]] + tail;
      assert parts[1..] == tail;
      assert Join(parts, sep) == s[..k] + sep + Join(tail, sep);
      assert s == s[..k] + s[k..k + |sep|] + rest;
    }
  }

  /** A string without `sep` in it splits into itself alone. */
  lemma SplitWithout(s: string, sep: string)
    requires |sep| > 0
    requires forall k: nat :: !OccursAt(s, sep, k)
    ensures Split(s, sep) == [s]
  {
  }
}
