/**
 * The duration formatter `format_time` (stopwatch.py:6-15): a non-negative
 * number of seconds is cut into whole hours, minutes, seconds and hundredths,
 * all by truncation, and rendered as `HH:MM:SS.CC` when there is at least one
 * hour and as `MM:SS.CC` otherwise, each field zero-padded to two digits.
 *
 * Times are exact reals, so `int(x)` on a non-negative x is `x.Floor`.
 */
module TimeFormat {
  import opened Optional

  /** The four fields that a formatted duration shows. */
  datatype Clock = Clock(hours: nat, minutes: nat, secs: nat, hundredths: nat)

  predicate IsDigit(c: char) { '0' <= c <= '9' }

  predicate AllDigits(s: string) {
    forall i :: 0 <= i < |s| ==> IsDigit(s[i])
  }

  /** The number a string of decimal digits denotes (leading zeros allowed). */
  function DigitsValue(s: string): nat
    requires AllDigits(s)
    decreases |s|
  {
    if s == [] then 0
    else DigitsValue(s[..|s| - 1]) * 10 + (s[|s| - 1] as int - '0' as int)
  }

  /** Python's `str(n)` for a natural number: its shortest decimal digits. */
  function Decimal(n: nat): (r: string)
    ensures 1 <= |r| && AllDigits(r) && DigitsValue(r) == n
    ensures n < 10 ==> |r| == 1
    ensures 10 <= n < 100 ==> |r| == 2
    ensures 10 <= n ==> 2 <= |r|
    ensures 0 < n ==> r[0] != '0'
    decreases n
  {
    var last := [('0' as int + n % 10) as char];
    if n < 10 then last
    else
      var r := Decimal(n / 10) + last;
      assert r[..|r| - 1] == Decimal(n / 10);
      assert r[0] == Decimal(n / 10)[0];
      r
  }

  /** The format spec `{n:02d}`: decimal digits, zero-padded to at least two. */
  function Pad2(n: nat): (r: string)
    ensures AllDigits(r) && DigitsValue(r) == n
    ensures 2 <= |r|
    ensures n < 100 ==> |r| == 2
    ensures 100 <= n ==> r[0] != '0'
  {
    if n < 10 then
      var r := "0" + Decimal(n);
      assert r[..1] == "0" && r[..1][..0] == "";
      r
    else Decimal(n)
  }

  /**
   * The fields of `seconds` (stopwatch.py:8-12). The ensures clauses pin the
   * result down completely: whole seconds are split into hours, minutes and
   * seconds, and hundredths are the fraction truncated, never rounded up.
   */
  function Decompose(seconds: real): (c: Clock)
    requires seconds >= 0.0
    ensures c.minutes < 60 && c.secs < 60 && c.hundredths < 100
    ensures c.hours * 3600 + c.minutes * 60 + c.secs == seconds.Floor
    ensures c.hundredths as real / 100.0 <= seconds - seconds.Floor as real
    ensures seconds - seconds.Floor as real < (c.hundredths + 1) as real / 100.0
    ensures c.hours > 0 <==> seconds >= 3600.0
  {
    var totalSec := seconds.Floor;
    var hundredths := ((seconds - totalSec as real) * 100.0).Floor;
    Clock(totalSec / 3600, (totalSec % 3600) / 60, totalSec % 60, hundredths)
  }

  /** The rendering step of `format_time` (stopwatch.py:13-15). */
  function Render(c: Clock): (r: string)
    requires c.minutes < 100 && c.secs < 100 && c.hundredths < 100
    ensures 8 <= |r|
    ensures |r| == 8 <==> c.hours == 0
  {
    if c.hours > 0 then
      Pad2(c.hours) + ":" + Pad2(c.minutes) + ":" + Pad2(c.secs) + "." + Pad2(c.hundredths)
    else
      Pad2(c.minutes) + ":" + Pad2(c.secs) + "." + Pad2(c.hundredths)
  }

  /** `format_time` on a non-negative duration (stopwatch.py:6-15). */
  function FormatTime(seconds: real): (r: string)
    requires seconds >= 0.0
    ensures 8 <= |r|
    ensures |r| == 8 <==> seconds < 3600.0
  {
    Render(Decompose(seconds))
  }

  /** An 8-character `MM:SS.CC` field group. */
  predicate WellFormedTail(t: string) {
    && |t| == 8
    && AllDigits(t[0..2]) && t[2] == ':'
    && AllDigits(t[3..5]) && t[5] == '.'
    && AllDigits(t[6..8])
  }

  /**
   * An hours field as `{hours:02d}` writes a positive number: at least two
   * digits, and a leading zero only when there are exactly two.
   */
  predicate CanonicalHours(h: string) {
    && AllDigits(h) && 2 <= |h|
    && (|h| == 2 || h[0] != '0')
    && DigitsValue(h) > 0
  }

  /**
   * Reads a formatted duration back: `MM:SS.CC`, optionally preceded by a
   * canonical hours field and a colon, so that each clock has one text. This is the inverse that
   * RenderRoundTrip relates Render to.
   */
  function ParseClock(r: string): Option<Clock> {
    if |r| < 8 then None
    else
      var head, tail := r[..|r| - 8], r[|r| - 8..];
      if !WellFormedTail(tail) then None
      else
        var m, s, c := DigitsValue(tail[0..2]), DigitsValue(tail[3..5]), DigitsValue(tail[6..8]);
        if head == [] then Some(Clock(0, m, s, c))
        else if 3 <= |head| && head[|head| - 1] == ':' && CanonicalHours(head[..|head| - 1]) then
          Some(Clock(DigitsValue(head[..|head| - 1]), m, s, c))
        else None
  }

  /** The three two-digit fields read back from the group that Render ends with. */
  lemma TailRoundTrip(mm: string, ss: string, cc: string)
    requires |mm| == 2 && |ss| == 2 && |cc| == 2
    requires AllDigits(mm) && AllDigits(ss) && AllDigits(cc)
    ensures var t := mm + ":" + ss + "." + cc;
      && WellFormedTail(t)
      && t[0..2] == mm && t[3..5] == ss && t[6..8] == cc
  {
    var t := mm + ":" + ss + "." + cc;
    assert t[0..2] == mm;
    assert t[3..5] == ss;
    assert t[6..8] == cc;
  }

  /** The rendered text gives back every field it was made from. */
  lemma RenderRoundTrip(c: Clock)
    requires c.minutes < 100 && c.secs < 100 && c.hundredths < 100
    ensures ParseClock(Render(c)) == Some(c)
  {
    var r := Render(c);
    var mm, ss, cc := Pad2(c.minutes), Pad2(c.secs), Pad2(c.hundredths);
    var tail := mm + ":" + ss + "." + cc;
    TailRoundTrip(mm, ss, cc);
    var head := if c.hours > 0 then Pad2(c.hours) + ":" else "";
    assert r == head + tail;
    SplitOffTail(head, tail);
    if c.hours > 0 {
      assert head[..|head| - 1] == Pad2(c.hours);
    }
  }

  lemma SplitOffTail(head: string, tail: string)
    requires |tail| == 8
    ensures var r := head + tail; |r| >= 8 && r[..|r| - 8] == head && r[|r| - 8..] == tail
  {
  }

  /** The formatted text determines all four fields: nothing is lost but what truncation drops. */
  lemma FormatTimeRoundTrip(seconds: real)
    requires seconds >= 0.0
    ensures ParseClock(FormatTime(seconds)) == Some(Decompose(seconds))
  {
    RenderRoundTrip(Decompose(seconds));
  }

  /** Two durations that show the same text have the same fields. */
  lemma FormatTimeInjectiveOnFields(a: real, b: real)
    requires a >= 0.0 && b >= 0.0
    requires FormatTime(a) == FormatTime(b)
    ensures Decompose(a) == Decompose(b)
  {
    FormatTimeRoundTrip(a);
    FormatTimeRoundTrip(b);
  }

  /** Worked values of `format_time`; the last shows truncation rather than rounding. */
  lemma FormatTimeExamples()
    ensures FormatTime(0.0) == "00:00.00"
    ensures FormatTime(65.4) == "01:05.40"
    ensures FormatTime(3661.5) == "01:01:01.50"
    ensures FormatTime(59.999) == "00:59.99"
  {
    assert Decompose(0.0) == Clock(0, 0, 0, 0);
    assert Decompose(65.4) == Clock(0, 1, 5, 40);
    assert Decompose(3661.5) == Clock(1, 1, 1, 50);
    assert Decompose(59.999) == Clock(0, 0, 59, 99);
  }
}
