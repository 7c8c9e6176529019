/**
 * The market calendar of live_trader.py and multi_trader.py on a simulated clock.
 * An instant is a whole number of seconds of US Eastern local time counted from a
 * Monday midnight, so its day is `t / 86400`, its weekday `day % 7` (0 is Monday)
 * and its time of day `t % 86400`.
 */
module MarketClock {

  const SecondsPerDay: int := 86400

  /** The opening and closing times of one trading session, in seconds after midnight. */
  datatype Session = Session(open: int, close: int)

  /** 09:30 to 16:00. */
  const Regular: Session := Session(9 * 3600 + 30 * 60, 16 * 3600)

  /** 08:00 to 18:00, with pre-market and after-hours trading. */
  const Extended: Session := Session(8 * 3600, 18 * 3600)

  function SessionOf(extended: bool): Session { if extended then Extended else Regular }

  function Day(t: int): int { t / SecondsPerDay }
  function TimeOfDay(t: int): int { t % SecondsPerDay }
  function Weekday(t: int): int { Day(t) % 7 }

  /** `is_weekday`: Monday to Friday. */
  predicate IsWeekday(t: int) { Weekday(t) < 5 }

  /** `is_market_hours`: a weekday, between the session's open and close, both included. */
  predicate IsMarketHours(t: int, extended: bool) {
    IsWeekday(t) && SessionOf(extended).open <= TimeOfDay(t) <= SessionOf(extended).close
  }

  /** An instant at which the session opens on a trading day. */
  predicate IsOpening(t: int, extended: bool) {
    IsWeekday(t) && TimeOfDay(t) == SessionOf(extended).open
  }

  /** Every instant splits into its day and its time of day. */
  lemma Split(t: int)
    ensures t == Day(t) * SecondsPerDay + TimeOfDay(t) && 0 <= TimeOfDay(t) < SecondsPerDay
  {
  }

  /** The instant `s` seconds into day `d` lies on day `d`. */
  lemma DayOf(d: int, s: int)
    requires 0 <= s < SecondsPerDay
    ensures Day(d * SecondsPerDay + s) == d && TimeOfDay(d * SecondsPerDay + s) == s
  {
    var t := d * SecondsPerDay + s;
    Split(t);
  }

  /** Of three consecutive days, one at least is a weekday. */
  lemma NoLongWeekend(d: int)
    requires d % 7 >= 5 && (d + 1) % 7 >= 5
    ensures (d + 2) % 7 < 5
  {
  }

  /** No clock reading is in market hours on a Saturday or a Sunday. */
  lemma ClosedAtWeekends(t: int, extended: bool)
    requires Weekday(t) >= 5
    ensures !IsMarketHours(t, extended)
  {
  }

  /** The extended session contains the regular one. */
  lemma RegularWithinExtended(t: int)
    ensures IsMarketHours(t, false) ==> IsMarketHours(t, true)
  {
  }

  /**
   * `time_until_market_open`: today's opening when it is still ahead on a weekday,
   * otherwise the opening of the first weekday after today.  The opening returned is
   * the first one strictly after `now`, at most three days away.
   */
  method TimeUntilMarketOpen(now: int, extended: bool) returns (secs: int, nextOpen: int)
    ensures secs == nextOpen - now && nextOpen > now
    ensures IsOpening(nextOpen, extended)
    ensures forall t :: now < t < nextOpen ==> !IsOpening(t, extended)
    ensures secs <= 3 * SecondsPerDay
  {
    var open := SessionOf(extended).open;
    var today := Day(now);
    Split(now);
    var todayOpen := today * SecondsPerDay + open;
    DayOf(today, open);
    if now < todayOpen && IsWeekday(now) {
      NoOpeningBefore(now, today, extended);
      return todayOpen - now, todayOpen;
    }
    var nextDay := today + 1;
    while nextDay % 7 >= 5
      invariant today < nextDay <= today + 3
      invariant nextDay == today + 3 ==> nextDay % 7 < 5
      invariant today % 7 >= 5 ==> nextDay <= today + 2
      invariant forall d :: today < d < nextDay ==> d % 7 >= 5
      decreases today + 3 - nextDay
    {
      if nextDay == today + 2 {
        NoLongWeekend(today + 1);
      }
      nextDay := nextDay + 1;
    }
    nextOpen := nextDay * SecondsPerDay + open;
    DayOf(nextDay, open);
    secs := nextOpen - now;
    NoOpeningBefore(now, nextDay, extended);
  }

  /**
   * No session opens after `now` and before the opening on day `d`, when every day in
   * between is a weekend day and, unless `d` is today, today's opening is not ahead.
   */
  lemma NoOpeningBefore(now: int, d: int, extended: bool)
    requires Day(now) <= d
    requires forall e :: Day(now) < e < d ==> e % 7 >= 5
    requires Day(now) < d ==> TimeOfDay(now) >= SessionOf(extended).open || !IsWeekday(now)
    ensures forall t :: now < t < d * SecondsPerDay + SessionOf(extended).open ==> !IsOpening(t, extended)
  {
    var open := SessionOf(extended).open;
    Split(now);
    forall t | now < t < d * SecondsPerDay + open ensures !IsOpening(t, extended) {
      Split(t);
      assert Day(now) <= Day(t) <= d;
      if Day(t) == d {
        assert TimeOfDay(t) < open;
      } else if Day(t) == Day(now) {
        assert TimeOfDay(t) > TimeOfDay(now) || Weekday(t) == Weekday(now);
      } else {
        assert Weekday(t) >= 5;
      }
    }
  }

  /**
   * From a closed instant the market stays closed until the next opening: an instant in
   * market hours before it would lie in a session that opened after `now`.
   */
  lemma ClosedUntilOpening(now: int, nextOpen: int, extended: bool)
    requires !IsMarketHours(now, extended) && now < nextOpen
    requires forall t :: now < t < nextOpen ==> !IsOpening(t, extended)
    ensures forall t :: now <= t < nextOpen ==> !IsMarketHours(t, extended)
  {
    var open := SessionOf(extended).open;
    forall t | now <= t < nextOpen ensures !IsMarketHours(t, extended) {
      if IsMarketHours(t, extended) {
        Split(t);
        Split(now);
        var o := Day(t) * SecondsPerDay + open;
        DayOf(Day(t), open);
        assert now < o <= t;
        assert IsOpening(o, extended);
      }
    }
  }

  /** The first half minute after an opening is in market hours. */
  lemma OpenForHalfAMinute(o: int, extended: bool)
    requires IsOpening(o, extended)
    ensures forall t :: o <= t < o + 30 ==> IsMarketHours(t, extended)
  {
    forall t | o <= t < o + 30 ensures IsMarketHours(t, extended) {
      Split(o);
      DayOf(Day(o), TimeOfDay(o) + (t - o));
    }
  }

  // ---------------------------------------------------------------- durations

  /** The two renderings of `format_duration`: "Hh Mm", or "Mm" under an hour. */
  datatype Duration = HoursMinutes(hours: int, minutes: int) | MinutesOnly(minutes: int)

  /**
   * `format_duration`: whole hours and whole minutes past them, floor-divided as
   * Python's `//` and `%` do; the hours are left out when there are none.
   */
  function FormatDuration(seconds: int): (d: Duration)
    ensures 0 <= d.minutes < 60
    ensures d.HoursMinutes? <==> seconds >= 3600
    ensures d.HoursMinutes? ==> d.hours * 3600 + d.minutes * 60 <= seconds < d.hours * 3600 + d.minutes * 60 + 60
    ensures d.MinutesOnly? ==> d.minutes * 60 <= seconds % 3600 < d.minutes * 60 + 60
  {
    var hours := seconds / 3600;
    var minutes := (seconds % 3600) / 60;
    if hours > 0 then HoursMinutes(hours, minutes) else MinutesOnly(minutes)
  }

  /** Under an hour and not negative, the minutes alone account for the duration. */
  lemma ShortDuration(seconds: int)
    requires 0 <= seconds < 3600
    ensures FormatDuration(seconds) == MinutesOnly(seconds / 60)
  {
  }

  /** A wait of a weekend and a half from Friday's close is shown as 65h 30m. */
  lemma WeekendDurationExample()
    ensures FormatDuration(65 * 3600 + 30 * 60 + 59) == HoursMinutes(65, 30)
  {
  }
}
