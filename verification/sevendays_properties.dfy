/**
 * What the world-time conversion promises: its value at known dates, the
 * size of one day and one hour, rounding minutes up, monotonicity, and that
 * the game's own clock reads the requested moment back.
 */
module SevenDaysProperties {
  import opened Wrappers
  import opened RustInt
  import opened SevenDays

  /** Day 1 at 00:00 is the start of the world: tick 0. */
  lemma FirstDayStartsAtZero()
    ensures ToUtcTime(New(1, 0, 0)) == Some(0)
  {
  }

  /** Day 7 at 00:00 is tick 144000. */
  lemma SeventhDay()
    ensures ToUtcTime(New(7, 0, 0)) == Some(144000)
  {
  }

  /** Day 3 at 16:22 is tick 64367. */
  lemma ThirdDayAt1622()
    ensures ToUtcTime(New(3, 16, 22)) == Some(64367)
  {
  }

  /** The next day, same hour and minute, is exactly 24000 ticks later. */
  lemma DayStep(day: U8, hour: U8, minute: U8)
    requires 1 <= day < 255
    ensures ToUtcTime(SevendaysDatetimes(day + 1, hour, minute)).value
         == ToUtcTime(SevendaysDatetimes(day, hour, minute)).value + TICKS_PER_DAY
  {
  }

  /** The next hour, same day and minute, is exactly 1000 ticks later. */
  lemma HourStep(day: U8, hour: U8, minute: U8)
    requires 1 <= day && hour < 255
    ensures ToUtcTime(SevendaysDatetimes(day, hour + 1, minute)).value
         == ToUtcTime(SevendaysDatetimes(day, hour, minute)).value + TICKS_PER_HOUR
  {
  }

  /** One minute is 16.67 ticks and is rounded up to 17, not down to 16. */
  lemma OneMinuteRoundsUp()
    ensures MinuteTicks(1) == 17
  {
  }

  /** A later-or-equal moment, field by field, never has a smaller world time. */
  lemma Monotone(s: SevendaysDatetimes, t: SevendaysDatetimes)
    requires 1 <= s.day <= t.day && s.hour <= t.hour && s.minute <= t.minute
    ensures ToUtcTime(s).value <= ToUtcTime(t).value
  {
  }

  /** The bound of ToUtcTime is reached: day 255 at hour 255, minute 255. */
  lemma LargestWorldTime()
    ensures ToUtcTime(SevendaysDatetimes(255, 255, 255)) == Some(MAX_TICKS)
    ensures MAX_TICKS == 6355250 < U32_LIMIT
  {
  }

  /**
   * The clock the game shows for a world time: the day counts from 1, the
   * hour is the whole thousands within the day, and the minute is the ticks
   * within the hour scaled to 60 and truncated.
   */
  datatype Clock = Clock(day: nat, hour: nat, minute: nat)

  function ClockOf(ticks: nat): Clock {
    Clock(ticks / TICKS_PER_DAY + 1,
          ticks % TICKS_PER_DAY / TICKS_PER_HOUR,
          ticks % TICKS_PER_HOUR * MINUTES_PER_HOUR / TICKS_PER_HOUR)
  }

  lemma DivModDay(a: nat, q: nat, r: nat)
    requires 0 <= r < TICKS_PER_DAY && a == q * TICKS_PER_DAY + r
    ensures a / TICKS_PER_DAY == q && a % TICKS_PER_DAY == r
  {
  }

  lemma DivModHour(a: nat, q: nat, r: nat)
    requires 0 <= r < TICKS_PER_HOUR && a == q * TICKS_PER_HOUR + r
    ensures a / TICKS_PER_HOUR == q && a % TICKS_PER_HOUR == r
  {
  }

  /**
   * For a moment on the clock face (hour below 24, minute below 60), the
   * game's clock reads back exactly the requested day, hour and minute. In
   * particular the minute shown is never earlier than the one requested,
   * which is why the minute term rounds up.
   */
  lemma ClockReadsBack(s: SevendaysDatetimes)
    requires 1 <= s.day && s.hour < 24 && s.minute < MINUTES_PER_HOUR
    ensures ClockOf(ToUtcTime(s).value) == Clock(s.day, s.hour, s.minute)
  {
    var ticks := ToUtcTime(s).value;
    var t := MinuteTicks(s.minute);
    assert t < TICKS_PER_HOUR;
    var inDay := s.hour * TICKS_PER_HOUR + t;
    DivModDay(ticks, s.day - 1, inDay);
    DivModHour(inDay, s.hour, t);
    DivModHour(ticks, (s.day - 1) * 24 + s.hour, t);
    var scaled := t * MINUTES_PER_HOUR;
    DivModHour(scaled, s.minute, scaled - s.minute * TICKS_PER_HOUR);
  }

  /** Rounding the minute term down instead would make the clock show 00:00 for 00:01. */
  lemma RoundingDownReadsEarlier()
    ensures var down := TICKS_PER_HOUR * 1 / MINUTES_PER_HOUR;
            ClockOf(down).minute == 0 && ClockOf(MinuteTicks(1)).minute == 1
  {
  }

  /**
   * A release build, whose u32 arithmetic wraps, agrees with a debug build
   * whenever the debug build does not panic; both agree with ToUtcTime.
   */
  lemma ProfilesAgree(s: SevendaysDatetimes)
    requires CompiledToUtcTime(Debug, s).Success?
    ensures 1 <= s.day
    ensures CompiledToUtcTime(Release, s) == CompiledToUtcTime(Debug, s) == Success(ToUtcTime(s).value)
  {
  }

  /**
   * With day 0 a release build wraps `0 - 1` to 2^32 - 1 and the product
   * by 24000 to 2^32 - 24000, so the result lies just below 2^32 or wraps again.
   */
  lemma ReleaseDayZero(hour: U8, minute: U8)
    ensures CompiledToUtcTime(Release, SevendaysDatetimes(0, hour, minute))
         == Success((U32_LIMIT - TICKS_PER_DAY + hour * TICKS_PER_HOUR + MinuteTicks(minute)) % U32_LIMIT)
  {
    assert Sub(Release, 0, 1) == Success(U32_LIMIT - 1);
    assert (U32_LIMIT - 1) * TICKS_PER_DAY % U32_LIMIT == U32_LIMIT - TICKS_PER_DAY;
  }
}
