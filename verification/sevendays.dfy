/**
 * The in-game date of 7 Days to Die and its conversion to the world time
 * that the `settime` / `st` console command takes. One in-game day is
 * 24000 ticks and one hour 1000 ticks; a minute is 1000/60 ticks.
 */
module SevenDays {
  import opened Wrappers
  import opened RustInt

  const TICKS_PER_DAY: nat := 24000
  const TICKS_PER_HOUR: nat := 1000
  const MINUTES_PER_HOUR: nat := 60
  /** The largest world time a day in 1..255 and hour, minute in 0..255 give. */
  const MAX_TICKS: nat := 254 * TICKS_PER_DAY + 255 * TICKS_PER_HOUR + 4250

  /** A requested in-game moment, each part held in 8 bits. */
  datatype SevendaysDatetimes = SevendaysDatetimes(day: U8, hour: U8, minute: U8)

  /** Builds the moment from parsed arguments, narrowing each to 8 bits. */
  function New(day: Usize, hour: Usize, minute: Usize): (s: SevendaysDatetimes)
    ensures (day - s.day) % U8_LIMIT == 0 && (day < U8_LIMIT ==> s.day == day)
    ensures (hour - s.hour) % U8_LIMIT == 0 && (hour < U8_LIMIT ==> s.hour == hour)
    ensures (minute - s.minute) % U8_LIMIT == 0 && (minute < U8_LIMIT ==> s.minute == minute)
  {
    SevendaysDatetimes(AsU8(day), AsU8(hour), AsU8(minute))
  }

  /** Arguments that differ by a multiple of 256 give the same moment. */
  lemma NewWraps(day: Usize, hour: Usize, minute: Usize, k: nat, j: nat, i: nat)
    requires day + 256 * k < USIZE_LIMIT && hour + 256 * j < USIZE_LIMIT && minute + 256 * i < USIZE_LIMIT
    ensures New(day + 256 * k, hour + 256 * j, minute + 256 * i) == New(day, hour, minute)
  {
  }

  /**
   * Ticks for a number of minutes, rounded up to a whole tick. The program
   * computes this in f32 as `ceil(minute * (1000.0 / 60.0))`; here it is the
   * exact integer ceiling.
   */
  function MinuteTicks(minute: U8): (t: nat)
    ensures TICKS_PER_HOUR * minute <= MINUTES_PER_HOUR * t < TICKS_PER_HOUR * minute + MINUTES_PER_HOUR
  {
    (minute * TICKS_PER_HOUR + MINUTES_PER_HOUR - 1) / MINUTES_PER_HOUR
  }

  /**
   * The world time of a moment whose day is at least 1: day 1 starts at
   * tick 0, then whole hours, then the minutes rounded up. It always has a
   * value, and that value fits in a u32.
   */
  function ToUtcTime(s: SevendaysDatetimes): (r: Option<U32>)
    requires s.day >= 1
    ensures r.Some? && r.value <= MAX_TICKS
    ensures var rest := r.value - (s.day - 1) * TICKS_PER_DAY - s.hour * TICKS_PER_HOUR;
            TICKS_PER_HOUR * s.minute <= MINUTES_PER_HOUR * rest < TICKS_PER_HOUR * s.minute + MINUTES_PER_HOUR
  {
    Some((s.day - 1) * TICKS_PER_DAY + s.hour * TICKS_PER_HOUR + MinuteTicks(s.minute))
  }

  /**
   * The same three lines evaluated as the compiled program does, in u32
   * arithmetic: `(day - 1) * 24000`, then `hour * 1000`, then
   * `day + hour + minute`. Defined for every moment, including day 0.
   */
  function CompiledToUtcTime(p: Profile, s: SevendaysDatetimes): (r: Result<U32, Panic>)
    ensures s.day >= 1 ==> r == Success(ToUtcTime(s).value)
    ensures s.day == 0 ==> (r.Failure? <==> p == Debug)
    ensures r.Failure? ==> r.error == SubtractOverflow
  {
    match Sub(p, s.day, 1)
    case Failure(e) => Failure(e)
    case Success(dayLess) =>
      match Mul(p, dayLess, TICKS_PER_DAY)
      case Failure(e) => Failure(e)
      case Success(dayTicks) =>
        match Mul(p, s.hour, TICKS_PER_HOUR)
        case Failure(e) => Failure(e)
        case Success(hourTicks) =>
          match Add(p, dayTicks, hourTicks)
          case Failure(e) => Failure(e)
          case Success(sum) => Add(p, sum, MinuteTicks(s.minute))
  }
}
