/** Quiet-hours membership: whether a time of day falls in the configured
    window [start, end), where a window whose start is not before its end
    wraps past midnight. */
module QuietWindow {
  import opened TimeOfDay

  /** The configured window of the bot: 19:00 to 08:00, across midnight. */
  const QuietStart: Time := Time(19, 0, 0, 0)
  const QuietEnd: Time := Time(8, 0, 0, 0)

  /** Reference reading of a quiet window on the 24-hour dial: the arc that
      runs clockwise from `s` (inclusive) to `e` (exclusive), the whole dial
      when the two coincide. Offsets are microseconds since midnight. */
  function ArcLength(s: int, e: int): int {
    if s == e then MicrosPerDay else (e - s) % MicrosPerDay
  }

  predicate OnArc(x: int, s: int, e: int) {
    (x - s) % MicrosPerDay < ArcLength(s, e)
  }

  /** A difference of two times of day, taken modulo a day. */
  lemma OffsetMod(d: int)
    requires -MicrosPerDay < d < MicrosPerDay
    ensures d % MicrosPerDay == if d >= 0 then d else d + MicrosPerDay
  {
    if d < 0 {
      assert d == -1 * MicrosPerDay + (d + MicrosPerDay);
    }
  }

  /** On offsets within a day, the case split on `s < e` picks out the arc. */
  lemma CaseSplitIsArc(x: int, s: int, e: int)
    requires 0 <= x < MicrosPerDay && 0 <= s < MicrosPerDay && 0 <= e < MicrosPerDay
    ensures (if s < e then s <= x < e else x >= s || x < e) <==> OnArc(x, s, e)
  {
    OffsetMod(x - s);
    OffsetMod(e - s);
  }

  /** Whether `t` is in quiet hours, deciding as the bot does: a window with
      `start < end` lies inside one day, any other window (`start == end`
      included) wraps past midnight. The answer is exactly membership in the
      clockwise arc from `start` to `end`. */
  function IsQuiet(t: Time, start: Time, end: Time): (quiet: bool)
    ensures quiet <==> OnArc(ToMicros(t), ToMicros(start), ToMicros(end))
  {
    CaseSplitIsArc(ToMicros(t), ToMicros(start), ToMicros(end));
    if Compare(start, end) < 0 then
      Compare(start, t) <= 0 && Compare(t, end) < 0
    else
      Compare(t, start) >= 0 || Compare(t, end) < 0
  }

  /** A window inside one day holds exactly the times from its start up to,
      not including, its end. */
  lemma QuietInsideOneDay(t: Time, start: Time, end: Time)
    requires ToMicros(start) < ToMicros(end)
    ensures IsQuiet(t, start, end) <==> ToMicros(start) <= ToMicros(t) < ToMicros(end)
  {
  }

  /** A window across midnight holds the times from its start onwards and
      the times before its end. */
  lemma QuietAcrossMidnight(t: Time, start: Time, end: Time)
    requires ToMicros(start) >= ToMicros(end)
    ensures IsQuiet(t, start, end) <==> ToMicros(t) >= ToMicros(start) || ToMicros(t) < ToMicros(end)
  {
  }

  /** The start of every window is quiet. */
  lemma StartIsQuiet(start: Time, end: Time)
    ensures IsQuiet(start, start, end)
  {
  }

  /** The end of a window is not quiet, unless the window starts there too. */
  lemma EndIsNotQuiet(start: Time, end: Time)
    ensures IsQuiet(end, start, end) <==> start == end
  {
  }

  /** A window that starts where it ends covers the whole day. */
  lemma EqualBoundsAlwaysQuiet(t: Time, start: Time)
    ensures IsQuiet(t, start, start)
  {
  }

  /** Swapping two distinct bounds gives the complementary window: a
      midnight-crossing window is exactly the times outside [end, start). */
  lemma SwappedBoundsComplement(t: Time, start: Time, end: Time)
    requires start != end
    ensures IsQuiet(t, start, end) <==> !IsQuiet(t, end, start)
  {
  }

  /** The configured 19:00-08:00 window is the times from 19:00 on and the
      times before 08:00. */
  lemma ConfiguredWindowByHour(t: Time)
    ensures IsQuiet(t, QuietStart, QuietEnd) <==> t.hour >= 19 || t.hour < 8
  {
  }

  /** The boundary instants of the configured window. */
  lemma ConfiguredWindowExamples()
    ensures IsQuiet(Time(7, 59, 0, 0), QuietStart, QuietEnd)
    ensures IsQuiet(Time(7, 59, 59, 999_999), QuietStart, QuietEnd)
    ensures !IsQuiet(Time(8, 0, 0, 0), QuietStart, QuietEnd)
    ensures !IsQuiet(Time(18, 59, 0, 0), QuietStart, QuietEnd)
    ensures !IsQuiet(Time(18, 59, 59, 999_999), QuietStart, QuietEnd)
    ensures IsQuiet(Time(19, 0, 0, 0), QuietStart, QuietEnd)
    ensures IsQuiet(Time(0, 0, 0, 0), QuietStart, QuietEnd)
  {
  }

  /** Whether an instant is quiet depends only on its time of day, so the
      answer repeats every day. */
  lemma QuietIsDaily(local: int, days: int, start: Time, end: Time)
    ensures IsQuiet(TimeOf(local + days * MicrosPerDay), start, end) <==> IsQuiet(TimeOf(local), start, end)
  {
    TimeOfIsDaily(local, days);
  }
}
