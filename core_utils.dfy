/**
 * Two helpers of the core package: `human_readable_timedelta`, which
 * renders a duration as its non-zero day, hour and minute parts (seconds
 * only when nothing else shows), and `validate_phone` with its pattern
 * `^\\+?\d{7,15}$`.
 */
module CoreUtils {
  import opened Common

  // ---------------------------------------------------------------------
  // human_readable_timedelta
  // ---------------------------------------------------------------------

  /**
   * `int(td.total_seconds())` for a duration of `seconds` whole seconds
   * (rounded down, as a timedelta stores it) plus `micro` microseconds:
   * rounded toward zero.
   */
  function TruncatedSeconds(seconds: int, micro: nat): (t: int)
    requires micro < 1000000
    ensures var exact := seconds * 1000000 + micro;
      (exact >= 0 ==> t * 1000000 <= exact < (t + 1) * 1000000) &&
      (exact < 0 ==> (t - 1) * 1000000 < exact <= t * 1000000)
  {
    if seconds < 0 && micro > 0 then seconds + 1 else seconds
  }

  /** The parts in the order days, hours, minutes; seconds only when none of those is there. */
  function Parts(sp: Span): (p: seq<string>)
    ensures |p| <= 3
    ensures p == [] <==> sp.days == 0 && sp.hours == 0 && sp.minutes == 0 && sp.seconds == 0
  {
    var dhm := (if sp.days != 0 then [IntToString(sp.days) + "d"] else []) +
               (if sp.hours != 0 then [NatToString(sp.hours) + "h"] else []) +
               (if sp.minutes != 0 then [NatToString(sp.minutes) + "m"] else []);
    dhm + (if sp.seconds != 0 && dhm == [] then [NatToString(sp.seconds) + "s"] else [])
  }

  /** `' '.join(parts)`. */
  function JoinSpace(parts: seq<string>): string {
    if parts == [] then ""
    else if |parts| == 1 then parts[0]
    else parts[0] + " " + JoinSpace(parts[1..])
  }

  /** Splitting a join of space-free words at its spaces gives the words back. */
  lemma {:induction false} SplitJoin(parts: seq<string>)
    requires |parts| >= 1 && forall i :: 0 <= i < |parts| ==> ' ' !in parts[i]
    ensures SplitSpace(JoinSpace(parts)) == parts
  {
    if |parts| == 1 {
      SplitSpaceWord(parts[0], "");
      assert parts[0] + "" == parts[0];
    } else {
      var j := JoinSpace(parts[1..]);
      SplitJoin(parts[1..]);
      assert JoinSpace(parts) == parts[0] + (" " + j);
      SplitSpaceWord(parts[0], " " + j);
      assert (" " + j)[0] == ' ' && (" " + j)[1..] == j;
      var rest := SplitSpace(" " + j);
      assert rest == [""] + SplitSpace(j);
      assert rest[0] == "" && rest[1..] == SplitSpace(j);
      assert parts[0] + rest[0] == parts[0];
      assert parts == [parts[0]] + parts[1..];
    }
  }

  /** `' '.join(parts) or '0s'`. */
  function Render(parts: seq<string>): string {
    if parts == [] then "0s" else JoinSpace(parts)
  }

  /** The rendering of a duration whose truncated length is `total` seconds. */
  function TimedeltaText(total: int): string {
    Render(Parts(SplitSeconds(total)))
  }

  /** No part at all exactly for a zero duration. */
  lemma PartsEmptyIffZero(total: int)
    ensures Parts(SplitSeconds(total)) == [] <==> total == 0
  {
  }

  /** The seconds part shows only for durations under a minute, and then alone. */
  lemma SecondsShowAlone(total: int)
    ensures 0 < total < 60 ==> Parts(SplitSeconds(total)) == [NatToString(total) + "s"]
    ensures total >= 60 || total < 0 ==> forall i :: 0 <= i < |Parts(SplitSeconds(total))| ==>
      Parts(SplitSeconds(total))[i][|Parts(SplitSeconds(total))[i]| - 1] != 's'
  {
    var sp := SplitSeconds(total);
    if 0 < total < 60 {
      SplitSecondsUnique(total, Span(0, 0, 0, total));
    } else if total >= 60 || total < 0 {
      assert sp.days != 0 || sp.hours != 0 || sp.minutes != 0;
      DhmPartsEndInUnit(sp);
    }
  }

  /**
   * What the parts say: their units are d, h, m for the non-zero day, hour
   * and minute counts, in that order, then s only when none of those shows;
   * each part reads back to the count of its unit.
   */
  lemma PartsReadBack(sp: Span)
    ensures LastChars(Parts(sp)) ==
      (if sp.days != 0 then "d" else "") + (if sp.hours != 0 then "h" else "") +
      (if sp.minutes != 0 then "m" else "") +
      (if sp.seconds != 0 && sp.days == 0 && sp.hours == 0 && sp.minutes == 0 then "s" else "")
    ensures forall i :: 0 <= i < |Parts(sp)| ==> ReadsBackTo(Parts(sp)[i], sp)
  {
    var d, h, m, sec := IntToString(sp.days) + "d", NatToString(sp.hours) + "h",
                        NatToString(sp.minutes) + "m", NatToString(sp.seconds) + "s";
    PartReadsBack(sp.days, 'd');
    PartReadsBack(sp.hours, 'h');
    PartReadsBack(sp.minutes, 'm');
    PartReadsBack(sp.seconds, 's');
    var a := if sp.days != 0 then [d] else [];
    var b := if sp.hours != 0 then [h] else [];
    var c := if sp.minutes != 0 then [m] else [];
    var e := if sp.seconds != 0 && a + b + c == [] then [sec] else [];
    assert Parts(sp) == a + b + c + e;
    LastCharsAppend(a, b);
    LastCharsAppend(a + b, c);
    LastCharsAppend(a + b + c, e);
    assert LastChars(a) == (if sp.days != 0 then "d" else "");
    assert LastChars(b) == (if sp.hours != 0 then "h" else "");
    assert LastChars(c) == (if sp.minutes != 0 then "m" else "");
    assert LastChars(e) == (if sp.seconds != 0 && sp.days == 0 && sp.hours == 0 && sp.minutes == 0 then "s" else "");
    forall x | x in a + b + c + e ensures ReadsBackTo(x, sp) {
    }
  }

  /** A non-zero duration's text splits at its spaces into exactly the parts. */
  lemma TimedeltaTextReadsBack(total: int)
    requires total != 0
    ensures SplitSpace(TimedeltaText(total)) == Parts(SplitSeconds(total))
  {
    var p := Parts(SplitSeconds(total));
    PartsEmptyIffZero(total);
    PartsReadBack(SplitSeconds(total));
    forall i | 0 <= i < |p| ensures ' ' !in p[i] {
      NoSpaceInPart(p[i]);
    }
    SplitJoin(p);
  }

  /** When a day, hour or minute part is there, every part ends in d, h or m. */
  lemma DhmPartsEndInUnit(sp: Span)
    requires sp.days != 0 || sp.hours != 0 || sp.minutes != 0
    ensures forall i :: 0 <= i < |Parts(sp)| ==> Parts(sp)[i][|Parts(sp)[i]| - 1] != 's'
  {
  }

  lemma JoinSpaceOfMany(parts: seq<string>)
    requires |parts| >= 2
    ensures exists i :: 0 <= i < |JoinSpace(parts)| && JoinSpace(parts)[i] == ' '
  {
    assert JoinSpace(parts)[|parts[0]|] == ' ';
  }

  /** The text is "0s" exactly for a zero duration: no rendered part can read "0s". */
  lemma ZeroTextIffZero(total: int)
    ensures TimedeltaText(total) == "0s" <==> total == 0
  {
    var sp := SplitSeconds(total);
    var p := Parts(sp);
    if |p| >= 2 {
      JoinSpaceOfMany(p);
    } else if |p| == 1 {
      SecondsShowAlone(total);
      PartsEmptyIffZero(total);
      if 0 < total < 60 {
        assert p[0] == NatToString(total) + "s";
        assert p[0][0] == NatToString(total)[0] != '0';
      } else {
        assert p[0][|p[0]| - 1] != 's';
      }
      assert p[0] != "0s";
    }
  }

  /** `human_readable_timedelta`: div-mod by day, hour and minute, then the parts joined. */
  method HumanReadableTimedelta(seconds: int, micro: nat) returns (text: string)
    requires micro < 1000000
    ensures text == TimedeltaText(TruncatedSeconds(seconds, micro))
  {
    var total := if seconds < 0 && micro > 0 then seconds + 1 else seconds;
    var days, rem := total / 86400, total % 86400;
    var hours := rem / 3600;
    rem := rem % 3600;
    var minutes, secs := rem / 60, rem % 60;
    SplitSecondsUnique(total, Span(days, hours, minutes, secs));
    var parts: seq<string> := [];
    if days != 0 {
      parts := parts + [IntToString(days) + "d"];
    }
    if hours != 0 {
      parts := parts + [NatToString(hours) + "h"];
    }
    if minutes != 0 {
      parts := parts + [NatToString(minutes) + "m"];
    }
    if secs != 0 && parts == [] {
      parts := parts + [NatToString(secs) + "s"];
    }
    assert parts == Parts(Span(days, hours, minutes, secs));
    if parts == [] {
      text := "0s";
    } else {
      text := JoinSpace(parts);
    }
  }

  // ---------------------------------------------------------------------
  // validate_phone
  // ---------------------------------------------------------------------

  const Backslash: char := '\\'

  predicate AllBackslashes(s: string) {
    forall i :: 0 <= i < |s| ==> s[i] == Backslash
  }

  /**
   * The strings the raw pattern `^\\+?\d{7,15}$` matches from the start: k
   * (one or more) backslashes (the `\\+?` is a lazy "one or more", not an
   * optional plus sign), n digits with 7 <= n <= 15, then the end or a final
   * newline.
   */
  predicate PhoneShape(s: string, k: int, n: int) {
    1 <= k && 7 <= n <= 15 && (|s| == k + n || (|s| == k + n + 1 && s[k + n] == '\n')) &&
    AllBackslashes(s[..k]) && AllDigits(s[k..k + n])
  }

  predicate PhonePatternAccepts(s: string) {
    exists k, n | 1 <= k <= |s| && 7 <= n <= 15 :: PhoneShape(s, k, n)
  }

  /** The number of leading backslashes. */
  function LeadingBackslashes(s: string): (k: nat)
    ensures k <= |s| && AllBackslashes(s[..k])
    ensures k < |s| ==> s[k] != Backslash
  {
    if s == [] || s[0] != Backslash then 0
    else
      var k := 1 + LeadingBackslashes(s[1..]);
      assert s[..k] == [s[0]] + s[1..][..k - 1];
      k
  }

  datatype ValidationError = InvalidPhone

  /**
   * `validate_phone`: the leading backslashes, then the digits up to the
   * end or up to a final newline.
   */
  function ValidatePhone(value: string): (r: Outcome<ValidationError>)
    ensures r == Pass <==> PhonePatternAccepts(value)
  {
    var k := LeadingBackslashes(value);
    var rest := value[k..];
    var body := if |rest| > 0 && rest[|rest| - 1] == '\n' then rest[..|rest| - 1] else rest;
    PhoneMatchIsPattern(value, k, rest, body);
    if k >= 1 && 7 <= |body| <= 15 && AllDigits(body) then Pass else Fail(InvalidPhone)
  }

  lemma PhoneMatchIsPattern(value: string, k: nat, rest: string, body: string)
    requires k == LeadingBackslashes(value) && rest == value[k..]
    requires body == if |rest| > 0 && rest[|rest| - 1] == '\n' then rest[..|rest| - 1] else rest
    ensures (k >= 1 && 7 <= |body| <= 15 && AllDigits(body)) <==> PhonePatternAccepts(value)
  {
    if k >= 1 && 7 <= |body| <= 15 && AllDigits(body) {
      MatchHasShape(value, k, rest, body);
    }
    if PhonePatternAccepts(value) {
      PatternIsMatch(value, k, rest, body);
    }
  }

  /** Any match of the pattern is the one the leading backslashes determine. */
  lemma PatternIsMatch(value: string, k: nat, rest: string, body: string)
    requires k == LeadingBackslashes(value) && rest == value[k..]
    requires body == if |rest| > 0 && rest[|rest| - 1] == '\n' then rest[..|rest| - 1] else rest
    requires PhonePatternAccepts(value)
    ensures k >= 1 && 7 <= |body| <= 15 && AllDigits(body)
  {
    var j, n :| 1 <= j <= |value| && 7 <= n <= 15 && PhoneShape(value, j, n);
    ShapeStartsAfterBackslashes(value, j, n);
    ShapeBody(value, k, n, rest, body);
  }

  /** The leading backslashes and the rest less a final newline, when that is 7 to 15 digits, are a match. */
  lemma MatchHasShape(value: string, k: nat, rest: string, body: string)
    requires k <= |value| && rest == value[k..]
    requires body == if |rest| > 0 && rest[|rest| - 1] == '\n' then rest[..|rest| - 1] else rest
    requires 1 <= k && AllBackslashes(value[..k]) && 7 <= |body| <= 15 && AllDigits(body)
    ensures PhoneShape(value, k, |body|)
  {
    assert value[k..k + |body|] == body;
  }

  /** A match's backslashes are all the leading ones: a digit follows them. */
  lemma ShapeStartsAfterBackslashes(value: string, j: int, n: int)
    requires PhoneShape(value, j, n)
    ensures j == LeadingBackslashes(value)
  {
    var k := LeadingBackslashes(value);
    assert value[j] == value[j..j + n][0];
  }

  /** Given the backslashes, a match's digits are the rest less a final newline. */
  lemma ShapeBody(value: string, k: nat, n: int, rest: string, body: string)
    requires PhoneShape(value, k, n) && rest == value[k..]
    requires body == if |rest| > 0 && rest[|rest| - 1] == '\n' then rest[..|rest| - 1] else rest
    ensures body == value[k..k + n]
    ensures 1 <= k && 7 <= |body| <= 15 && AllDigits(body)
  {
    DigitsEndTheValue(value, k, n, rest, body);
  }

  /** The digits of a match are the rest after its prefix, less a final newline. */
  lemma DigitsEndTheValue(value: string, k: nat, n: int, rest: string, body: string)
    requires 7 <= n && (|value| == k + n || (|value| == k + n + 1 && value[k + n] == '\n'))
    requires AllDigits(value[k..k + n]) && rest == value[k..]
    requires body == if |rest| > 0 && rest[|rest| - 1] == '\n' then rest[..|rest| - 1] else rest
    ensures body == value[k..k + n]
  {
    if |value| == k + n + 1 {
      assert rest[|rest| - 1] == value[k + n];
    } else {
      assert rest[|rest| - 1] == value[k..k + n][n - 1];
    }
  }

  // ---------------------------------------------------------------------
  // validate_phone as evidently intended: `^\+?\d{7,15}$`
  // ---------------------------------------------------------------------

  /** An optional plus sign (k is 0 or 1), n digits with 7 <= n <= 15, then the end or a final newline. */
  predicate IntendedShape(s: string, k: int, n: int) {
    0 <= k <= 1 && 7 <= n <= 15 && (|s| == k + n || (|s| == k + n + 1 && s[k + n] == '\n')) &&
    (k == 1 ==> s[0] == '+') && AllDigits(s[k..k + n])
  }

  predicate IntendedAccepts(s: string) {
    exists k, n | 0 <= k <= 1 && 7 <= n <= 15 :: IntendedShape(s, k, n)
  }

  /** The validator with the pattern `^\+?\d{7,15}$`: an optional leading plus sign, then the digits. */
  function ValidatePhoneIntended(value: string): (r: Outcome<ValidationError>)
    ensures r == Pass <==> IntendedAccepts(value)
  {
    var k := if |value| > 0 && value[0] == '+' then 1 else 0;
    var rest := value[k..];
    var body := if |rest| > 0 && rest[|rest| - 1] == '\n' then rest[..|rest| - 1] else rest;
    IntendedMatchIsPattern(value, k, rest, body);
    if 7 <= |body| <= 15 && AllDigits(body) then Pass else Fail(InvalidPhone)
  }

  lemma IntendedMatchIsPattern(value: string, k: nat, rest: string, body: string)
    requires k == (if |value| > 0 && value[0] == '+' then 1 else 0) && rest == value[k..]
    requires body == if |rest| > 0 && rest[|rest| - 1] == '\n' then rest[..|rest| - 1] else rest
    ensures (7 <= |body| <= 15 && AllDigits(body)) <==> IntendedAccepts(value)
  {
    if 7 <= |body| <= 15 && AllDigits(body) {
      assert value[k..k + |body|] == body;
      assert IntendedShape(value, k, |body|);
    }
    if IntendedAccepts(value) {
      var j, n :| 0 <= j <= 1 && 7 <= n <= 15 && IntendedShape(value, j, n);
      DigitsEndTheValue(value, k, n, rest, body);
    }
  }

  /**
   * A number in international form is refused by the pattern as written and
   * accepted by the intended one; what the written pattern takes instead is
   * a backslash in place of the plus sign.
   */
  lemma InternationalNumberRefused()
    ensures ValidatePhone("+254712345678") == Fail(InvalidPhone)
    ensures ValidatePhoneIntended("+254712345678") == Pass
    ensures ValidatePhone("\\254712345678") == Pass
  {
    var digits := "254712345678";
    assert AllDigits(digits) by {
      assert forall i :: 0 <= i < |digits| ==> IsDigit(digits[i]);
    }
    assert ("+" + digits)[1..] == digits;
    assert ("\\" + digits)[1..] == digits;
    assert LeadingBackslashes("\\" + digits) == 1;
  }

  /** A plain digit string, with or without a plus sign, is refused. */
  lemma PlainNumbersRefused(value: string)
    requires value == [] || value[0] != Backslash
    ensures ValidatePhone(value) == Fail(InvalidPhone)
  {
  }
}
