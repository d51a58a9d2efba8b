/**
  The hub's do-not-disturb schedule (server/index.js, `isWithinDndSchedule`):
  a pure function of the local minute of the day and a schedule of two
  "HH:MM" strings, with a window that may wrap past midnight.
 */
module DndSchedule {
  import opened Options
  import opened Strings

  datatype Schedule = Schedule(enabled: bool, start: string, end: string)

  predicate AllDigits(s: string) {
    forall i :: 0 <= i < |s| ==> IsDigit(s[i])
  }

  /**
    `Number(text)`, modelled for blank and digit-string fields only:
    surrounding whitespace is ignored, an empty text is 0 and a run of
    decimal digits is its value. Every other text is None here, although
    `Number` also reads signs, fractions, exponents and hexadecimal.
   */
  function ToNumber(text: string): (n: Option<int>)
    ensures n.Some? ==> n.value >= 0
    ensures Trim(text) == "" ==> n == Some(0)
  {
    var t := Trim(text);
    if t == "" then Some(0)
    else if AllDigits(t) then Some(DigitsValue(t))
    else None
  }

  /** Hour and minute of `text.split(':').map(Number)`; a missing minute is None, like NaN. */
  function ClockFields(text: string): (hm: (Option<int>, Option<int>))
  {
    var parts := Split(text, ':');
    (ToNumber(parts[0]), if |parts| > 1 then ToNumber(parts[1]) else None)
  }

  /** `h * 60 + (m || 0)`: a missing, unparseable or zero minute all count as 0. */
  function MinuteOfDay(hour: int, minute: Option<int>): int {
    hour * 60 + minute.GetOr(0)
  }

  /** The quiet-window test on minutes: equal bounds mean always quiet; otherwise `[start, end)`, wrapping at midnight. */
  predicate InQuietWindow(startMinutes: int, endMinutes: int, nowMinutes: int) {
    if startMinutes == endMinutes then true
    else if startMinutes < endMinutes then startMinutes <= nowMinutes < endMinutes
    else nowMinutes >= startMinutes || nowMinutes < endMinutes
  }

  /** `isWithinDndSchedule` at local minute-of-day `nowMinutes`. */
  function IsWithinDndSchedule(schedule: Schedule, nowMinutes: int): (quiet: bool)
    ensures quiet ==> schedule.enabled
    ensures quiet ==> ClockFields(schedule.start).0.Some? && ClockFields(schedule.end).0.Some?
  {
    if !schedule.enabled then false
    else
      var (startH, startM) := ClockFields(schedule.start);
      var (endH, endM) := ClockFields(schedule.end);
      if startH.None? || endH.None? then false
      else InQuietWindow(MinuteOfDay(startH.value, startM), MinuteOfDay(endH.value, endM), nowMinutes)
  }

  /** With both hours readable, the schedule is exactly the quiet-window test on the parsed minutes. */
  lemma ScheduleIsWindow(schedule: Schedule, nowMinutes: int)
    requires schedule.enabled
    requires ClockFields(schedule.start).0.Some? && ClockFields(schedule.end).0.Some?
    ensures var (sh, sm) := ClockFields(schedule.start);
      var (eh, em) := ClockFields(schedule.end);
      IsWithinDndSchedule(schedule, nowMinutes) ==
        InQuietWindow(MinuteOfDay(sh.value, sm), MinuteOfDay(eh.value, em), nowMinutes)
  {
  }

  /** Equal bounds: quiet all day. */
  lemma EqualBoundsAlwaysQuiet(t: int, nowMinutes: int)
    ensures InQuietWindow(t, t, nowMinutes)
  {
  }

  /** Same-day window: quiet from `start` inclusive to `end` exclusive. */
  lemma SameDayWindow(s: int, e: int, nowMinutes: int)
    requires s < e
    ensures InQuietWindow(s, e, nowMinutes) <==> s <= nowMinutes && nowMinutes < e
  {
  }

  /** Wrapping window: the complement of the same-day window with the bounds swapped. */
  lemma WrapIsComplement(s: int, e: int, nowMinutes: int)
    requires s != e
    ensures InQuietWindow(s, e, nowMinutes) <==> !InQuietWindow(e, s, nowMinutes)
  {
  }

  /** A field without a minute reads like the same hour at minute 0. */
  lemma MissingMinuteIsZero(hour: string, nowMinutes: int, end: string)
    requires forall i :: 0 <= i < |hour| ==> hour[i] != ':'
    ensures IsWithinDndSchedule(Schedule(true, hour, end), nowMinutes)
         == IsWithinDndSchedule(Schedule(true, hour + ":00", end), nowMinutes)
  {
    MinuteFieldZero(hour);
  }

  lemma MinuteFieldZero(hour: string)
    requires forall i :: 0 <= i < |hour| ==> hour[i] != ':'
    ensures ClockFields(hour).1 == None
    ensures ClockFields(hour + ":00") == (ClockFields(hour).0, Some(0))
  {
    SplitNoSeparator(hour);
    assert hour + ":00" == hour + ":" + "00";
    SplitAppend(hour, "00");
    ZeroField("00");
  }

  lemma ZeroField(m: string)
    requires |m| == 2 && m[0] == '0' && m[1] == '0'
    ensures ToNumber(m) == Some(0)
  {
    TrimDigits(m);
    TwoDigits(m);
  }

  lemma {:induction false} SplitNoSeparator(s: string)
    requires forall i :: 0 <= i < |s| ==> s[i] != ':'
    ensures Split(s, ':') == [s]
    decreases |s|
  {
    if s != [] {
      SplitNoSeparator(s[1..]);
      assert s == [s[0]] + s[1..];
    }
  }

  lemma {:induction false} SplitAppend(s: string, tail: string)
    requires forall i :: 0 <= i < |s| ==> s[i] != ':'
    requires forall i :: 0 <= i < |tail| ==> tail[i] != ':'
    ensures Split(s + ":" + tail, ':') == [s, tail]
    decreases |s|
  {
    if s == [] {
      assert s + ":" + tail == [':'] + tail;
      assert (s + ":" + tail)[1..] == tail;
      SplitNoSeparator(tail);
    } else {
      var whole := s + ":" + tail;
      SplitAppend(s[1..], tail);
      assert whole[0] == s[0] && whole[1..] == s[1..] + ":" + tail;
      assert [s[0]] + s[1..] == s;
    }
  }

  /** A 22:00-07:00 schedule, whatever the spelling of its bounds. */
  lemma OvernightWindow(start: string, end: string, nowMinutes: int)
    requires ClockFields(start) == (Some(22), Some(0)) && ClockFields(end) == (Some(7), Some(0))
    ensures IsWithinDndSchedule(Schedule(true, start, end), nowMinutes)
        <==> nowMinutes >= 22 * 60 || nowMinutes < 7 * 60
  {
  }

  /** The overnight schedule "22:00"-"07:00": quiet from 22:00 up to, not including, 07:00. */
  lemma OvernightExample(nowMinutes: int)
    ensures IsWithinDndSchedule(Schedule(true, "22:00", "07:00"), nowMinutes)
        <==> nowMinutes >= 22 * 60 || nowMinutes < 7 * 60
  {
    Clock("22:00", 22);
    Clock("07:00", 7);
    OvernightWindow("22:00", "07:00", nowMinutes);
  }

  /** 09:00-09:00 is quiet at every minute. */
  lemma SameBoundsExample(nowMinutes: int)
    ensures IsWithinDndSchedule(Schedule(true, "09:00", "09:00"), nowMinutes)
  {
    Clock("09:00", 9);
  }

  /** "HH:00" on the hour. */
  lemma Clock(text: string, hour: nat)
    requires |text| == 5 && text[2] == ':' && text[3] == '0' && text[4] == '0'
    requires IsDigit(text[0]) && IsDigit(text[1])
    requires 10 * DigitValue(text[0]) + DigitValue(text[1]) == hour
    ensures ClockFields(text) == (Some(hour), Some(0))
  {
    var h, m := text[..2], text[3..];
    assert h[0] == text[0] && h[1] == text[1] && m[0] == '0' && m[1] == '0';
    TwoDigits(h);
    TwoDigits(m);
    ClockOf(text, hour, 0);
  }

  /** A well-formed "HH:MM" field reads as its hour and minute. */
  lemma ClockOf(text: string, hour: nat, minute: nat)
    requires |text| == 5 && text[2] == ':'
    requires AllDigits(text[..2]) && AllDigits(text[3..])
    requires DigitsValue(text[..2]) == hour && DigitsValue(text[3..]) == minute
    ensures ClockFields(text) == (Some(hour), Some(minute))
  {
    assert text == text[..2] + ":" + text[3..];
    SplitAppend(text[..2], text[3..]);
    TrimDigits(text[..2]);
    TrimDigits(text[3..]);
  }

  lemma TwoDigits(s: string)
    requires |s| == 2 && AllDigits(s)
    ensures DigitsValue(s) == 10 * DigitValue(s[0]) + DigitValue(s[1])
  {
    var first := s[..1];
    assert first[..0] == [] && first[0] == s[0];
    assert DigitsValue(first) == DigitValue(s[0]);
  }

  lemma TrimDigits(s: string)
    requires s != [] && AllDigits(s)
    ensures Trim(s) == s
  {
    assert !IsSpace(s[0]) && !IsSpace(s[|s| - 1]);
  }
}
