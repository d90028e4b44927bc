/**
 * Small shared vocabulary: optional values, results, decimal rendering of
 * integers, prefix and substring tests on strings, and the split of a number
 * of seconds into days, hours, minutes and seconds (Python's chained divmod).
 */
module Common {

  datatype Option<+T> = None | Some(value: T) {
    function GetOr(default: T): T {
      if Some? then value else default
    }
  }

  datatype Result<+T, +E> = Ok(value: T) | Err(error: E)

  datatype Outcome<+E> = Pass | Fail(error: E)

  // ---------------------------------------------------------------------
  // Characters and digits (ASCII; Python's str.isdigit also accepts other
  // Unicode digits, which this model does not)
  // ---------------------------------------------------------------------

  predicate IsDigit(c: char) {
    '0' <= c <= '9'
  }

  predicate AllDigits(s: string) {
    forall i :: 0 <= i < |s| ==> IsDigit(s[i])
  }

  /** Python's str.isdigit(): non-empty and every character a digit. */
  predicate IsDigitString(s: string) {
    |s| > 0 && AllDigits(s)
  }

  function DigitChar(d: nat): (c: char)
    requires d < 10
    ensures IsDigit(c)
    ensures DigitValue(c) == d
  {
    "0123456789"[d]
  }

  function DigitValue(c: char): nat
    requires IsDigit(c)
  {
    (c as int - '0' as int) as nat
  }

  /** The characters of `s` that satisfy IsDigit, in order. */
  function KeepDigits(s: string): (r: string)
    ensures AllDigits(r)
    ensures |r| <= |s|
    ensures |s| == 1 ==> r == (if IsDigit(s[0]) then s else [])
  {
    if s == [] then []
    else (if IsDigit(s[0]) then [s[0]] else []) + KeepDigits(s[1..])
  }

  /**
   * The filter works character by character: the digits of a concatenation
   * are the digits of each half, in order. With the one-character case this
   * fixes KeepDigits on every string.
   */
  lemma {:induction false} KeepDigitsAppend(a: string, b: string)
    ensures KeepDigits(a + b) == KeepDigits(a) + KeepDigits(b)
  {
    if a != [] {
      assert (a + b)[1..] == a[1..] + b;
      KeepDigitsAppend(a[1..], b);
    } else {
      assert a + b == b;
    }
  }

  lemma {:induction false} KeepDigitsOfDigits(s: string)
    requires AllDigits(s)
    ensures KeepDigits(s) == s
  {
    if s != [] {
      KeepDigitsOfDigits(s[1..]);
    }
  }

  /** The value of a string of decimal digits, most significant first. */
  function DigitsValue(s: string): nat
    requires AllDigits(s)
  {
    if s == [] then 0 else DigitsValue(s[..|s| - 1]) * 10 + DigitValue(s[|s| - 1])
  }

  /** Python's str(n) for a non-negative integer. */
  function NatToString(n: nat): (r: string)
    ensures |r| >= 1 && AllDigits(r)
    ensures r[0] == '0' ==> n == 0
  {
    if n < 10 then [DigitChar(n)] else NatToString(n / 10) + [DigitChar(n % 10)]
  }

  /** Reading back the digits of NatToString(n) gives n. */
  lemma {:induction false} NatToStringRoundTrip(n: nat)
    ensures DigitsValue(NatToString(n)) == n
  {
    if n >= 10 {
      var s := NatToString(n);
      assert s[..|s| - 1] == NatToString(n / 10);
      NatToStringRoundTrip(n / 10);
    }
  }

  lemma NatToStringInjective(m: nat, n: nat)
    requires NatToString(m) == NatToString(n)
    ensures m == n
  {
    NatToStringRoundTrip(m);
    NatToStringRoundTrip(n);
  }

  /** Python's str(i) for any integer. */
  function IntToString(i: int): (r: string)
    ensures |r| >= 1
    ensures i >= 0 ==> r == NatToString(i)
    ensures i < 0 ==> r == "-" + NatToString(-i)
  {
    if i < 0 then "-" + NatToString(-i) else NatToString(i)
  }

  // ---------------------------------------------------------------------
  // Rendered quantities: "12d", "3h", "-1d" and texts made of them
  // ---------------------------------------------------------------------

  /** The unit letters of days, hours, minutes and seconds. */
  predicate IsUnit(c: char) {
    c == 'd' || c == 'h' || c == 'm' || c == 's'
  }

  /** An optional minus sign, decimal digits, then one unit letter. */
  predicate IsUnitPart(p: string) {
    |p| >= 2 && IsUnit(p[|p| - 1]) &&
    (AllDigits(p[..|p| - 1]) || (|p| >= 3 && p[0] == '-' && AllDigits(p[1..|p| - 1])))
  }

  /** The number a rendered quantity reads back to. */
  function PartValue(p: string): int
    requires IsUnitPart(p)
  {
    if AllDigits(p[..|p| - 1]) then DigitsValue(p[..|p| - 1]) else -(DigitsValue(p[1..|p| - 1]) as int)
  }

  function LastChar(p: string): char {
    if p == [] then ' ' else p[|p| - 1]
  }

  /** The last character of every word: for rendered quantities, their units in order. */
  function LastChars(ps: seq<string>): (r: string)
    ensures |r| == |ps|
  {
    seq(|ps|, i requires 0 <= i < |ps| => LastChar(ps[i]))
  }

  /** The units of a concatenation of words are those of each half. */
  lemma LastCharsAppend(a: seq<string>, b: seq<string>)
    ensures LastChars(a + b) == LastChars(a) + LastChars(b)
  {
    assert forall i :: 0 <= i < |a + b| ==> LastChars(a + b)[i] == (LastChars(a) + LastChars(b))[i];
  }

  /** str(n) followed by a unit letter reads back to n and that unit. */
  lemma PartReadsBack(n: int, u: char)
    requires IsUnit(u)
    ensures IsUnitPart(IntToString(n) + [u])
    ensures PartValue(IntToString(n) + [u]) == n && LastChar(IntToString(n) + [u]) == u
  {
    var p := IntToString(n) + [u];
    assert p[..|p| - 1] == IntToString(n);
    if n >= 0 {
      NatToStringRoundTrip(n);
    } else {
      assert p[1..|p| - 1] == NatToString(-n);
      assert p[..|p| - 1][0] == '-';
      NatToStringRoundTrip(-n);
    }
  }

  /** A non-digit does not occur in a string of digits. */
  lemma NotInDigits(s: string, c: char)
    requires AllDigits(s) && !IsDigit(c)
    ensures c !in s
  {
  }

  /** A rendered quantity holds no space. */
  lemma NoSpaceInPart(p: string)
    requires IsUnitPart(p)
    ensures ' ' !in p
  {
  }

  /** Python's s.split(' '): the words between single spaces. */
  function SplitSpace(s: string): (r: seq<string>)
    ensures |r| >= 1
  {
    if s == [] then [""]
    else if s[0] == ' ' then [""] + SplitSpace(s[1..])
    else var rest := SplitSpace(s[1..]); [[s[0]] + rest[0]] + rest[1..]
  }

  /** A word without spaces in front of t joins the first word of t. */
  lemma {:induction false} SplitSpaceWord(w: string, t: string)
    requires ' ' !in w
    ensures SplitSpace(w + t) == [w + SplitSpace(t)[0]] + SplitSpace(t)[1..]
  {
    if w != [] {
      assert (w + t)[0] == w[0] && (w + t)[1..] == w[1..] + t;
      assert w[0] in w;
      SplitSpaceWord(w[1..], t);
      assert [w[0]] + (w[1..] + SplitSpace(t)[0]) == w + SplitSpace(t)[0];
    } else {
      assert w + t == t;
      var r := SplitSpace(t);
      assert w + r[0] == r[0] && r == [r[0]] + r[1..];
    }
  }

  // ---------------------------------------------------------------------
  // Prefixes and substrings
  // ---------------------------------------------------------------------

  /** Python's s.startswith(p). */
  predicate StartsWith(s: string, p: string) {
    |p| <= |s| && s[..|p|] == p
  }

  /** Python's `sub in s` (a contiguous occurrence anywhere in s). */
  predicate Contains(s: string, sub: string)
    decreases |s|
  {
    StartsWith(s, sub) || (|s| > 0 && Contains(s[1..], sub))
  }

  /** `sub` occurs in `s` starting at position i. */
  predicate OccursAt(s: string, sub: string, i: int) {
    0 <= i <= |s| - |sub| && s[i..i + |sub|] == sub
  }

  /** Contains agrees with "sub occurs at some position of s". */
  lemma {:induction false} ContainsAt(s: string, sub: string)
    ensures Contains(s, sub) <==> exists i :: OccursAt(s, sub, i)
  {
    if StartsWith(s, sub) {
      assert OccursAt(s, sub, 0);
    } else if |s| > 0 {
      ContainsAt(s[1..], sub);
      if Contains(s[1..], sub) {
        var i :| OccursAt(s[1..], sub, i);
        assert s[i + 1..i + 1 + |sub|] == s[1..][i..i + |sub|];
        assert OccursAt(s, sub, i + 1);
      } else {
        forall i | 0 <= i <= |s| - |sub| ensures !OccursAt(s, sub, i) {
          if i == 0 {
            assert s[..|sub|] == s[i..i + |sub|];
          } else {
            assert s[1..][i - 1..i - 1 + |sub|] == s[i..i + |sub|];
            assert !OccursAt(s[1..], sub, i - 1);
          }
        }
      }
    }
  }

  /** Every prefix of a string is contained in it. */
  lemma PrefixContained(s: string, p: string)
    requires StartsWith(s, p)
    ensures Contains(s, p)
  {
  }

  // ---------------------------------------------------------------------
  // ASCII case folding (Python's str.lower() restricted to A-Z)
  // ---------------------------------------------------------------------

  function LowerChar(c: char): char {
    if 'A' <= c <= 'Z' then (c as int + 32) as char else c
  }

  function Lower(s: string): (r: string)
    ensures |r| == |s|
    ensures forall i :: 0 <= i < |s| ==> r[i] == LowerChar(s[i])
  {
    if s == [] then [] else [LowerChar(s[0])] + Lower(s[1..])
  }

  // ---------------------------------------------------------------------
  // Seconds split into days, hours, minutes and seconds
  // ---------------------------------------------------------------------

  datatype Span = Span(days: int, hours: nat, minutes: nat, seconds: nat)

  /** The value of the unit a letter names. */
  function UnitValue(sp: Span, u: char): int {
    if u == 'd' then sp.days else if u == 'h' then sp.hours else if u == 'm' then sp.minutes else sp.seconds
  }

  /** A word is a rendered quantity whose number is the count of its unit in sp. */
  predicate ReadsBackTo(p: string, sp: Span) {
    IsUnitPart(p) && PartValue(p) == UnitValue(sp, LastChar(p))
  }

  /**
   * divmod(total, 86400), then divmod(rest, 3600), then divmod(rest, 60), with
   * Python's flooring semantics (Dafny's division agrees with it for positive
   * divisors, also when total is negative).
   */
  function SplitSeconds(total: int): (r: Span)
    ensures r.hours < 24 && r.minutes < 60 && r.seconds < 60
    ensures r.days * 86400 + r.hours * 3600 + r.minutes * 60 + r.seconds == total
  {
    var rem := total % 86400;
    Span(total / 86400, rem / 3600, rem % 3600 / 60, rem % 60)
  }

  /** The split is the only one whose hour, minute and second parts are in range. */
  lemma SplitSecondsUnique(total: int, sp: Span)
    requires sp.hours < 24 && sp.minutes < 60 && sp.seconds < 60
    requires sp.days * 86400 + sp.hours * 3600 + sp.minutes * 60 + sp.seconds == total
    ensures sp == SplitSeconds(total)
  {
    var r := SplitSeconds(total);
    var lowA := sp.hours * 3600 + sp.minutes * 60 + sp.seconds;
    var lowB := r.hours * 3600 + r.minutes * 60 + r.seconds;
    assert 0 <= lowA < 86400 && 0 <= lowB < 86400;
    assert (sp.days - r.days) * 86400 == lowB - lowA;
    assert sp.days == r.days;
    assert sp.hours * 3600 + (sp.minutes * 60 + sp.seconds) == r.hours * 3600 + (r.minutes * 60 + r.seconds);
    assert sp.hours == r.hours;
    assert sp.minutes == r.minutes;
  }
}
