/**
 * The command `7dtt <day> [hour] [minute]`: what it prints for already
 * parsed arguments. Argument parsing itself belongs to the CLI library; its
 * result enters here as an optional `Arguments` value.
 */
module Cli {
  import opened Wrappers
  import opened RustInt
  import opened Decimal
  import opened SevenDays
  import SevenDaysProperties

  /** The parsed arguments, each a usize. */
  datatype Arguments = Arguments(day: Usize, hour: Usize, minute: Usize)

  /** What one run of the program does. */
  datatype Outcome =
    | PrintedHelp                  // parsing failed: the long help text
    | Printed(lines: seq<string>)  // these lines, in this order, on standard output
    | Panicked(panic: Panic)       // an arithmetic overflow check fired

  const DAY_ZERO_MESSAGE: string := "arguments \"day\" must be set to higher than 0 (1~)"

  /** The three lines printed for a world time: the number, then both console commands. */
  function TickLines(ticks: nat): (lines: seq<string>)
    ensures |lines| == 3 && AllDigits(lines[0]) && ParseDecimal(lines[0]) == ticks
    ensures 1 <= |lines[0]| && (lines[0][0] == '0' ==> ticks == 0 && |lines[0]| == 1)
    ensures lines[1] == "settime " + lines[0] && lines[2] == "st " + lines[0]
  {
    ParseNatToString(ticks);
    var n := NatToString(ticks);
    [n, "settime " + n, "st " + n]
  }

  /** One run of the program as written, in the given build profile. */
  function Run(p: Profile, parsed: Option<Arguments>): (o: Outcome)
    ensures parsed.None? ==> o == PrintedHelp
    ensures parsed.Some? && parsed.value.day == 0 ==> o == Printed([DAY_ZERO_MESSAGE])
    ensures parsed.Some? && parsed.value.day % U8_LIMIT != 0 ==>
              var a := parsed.value;
              o == Printed(TickLines(ToUtcTime(New(a.day, a.hour, a.minute)).value))
    ensures o.Panicked? <==>
              p == Debug && parsed.Some? && parsed.value.day != 0 && parsed.value.day % U8_LIMIT == 0
    ensures o.Panicked? ==> o.panic == SubtractOverflow
    ensures p == Release && parsed.Some? && parsed.value.day != 0 && parsed.value.day % U8_LIMIT == 0 ==>
              var a := parsed.value;
              o == Printed(TickLines((U32_LIMIT - TICKS_PER_DAY + AsU8(a.hour) * TICKS_PER_HOUR
                                      + MinuteTicks(AsU8(a.minute))) % U32_LIMIT))
  {
    match parsed
    case None => PrintedHelp
    case Some(a) =>
      if a.day == 0 then Printed([DAY_ZERO_MESSAGE])
      else
        var s := New(a.day, a.hour, a.minute);
        SevenDaysProperties.ReleaseDayZero(s.hour, s.minute);
        match CompiledToUtcTime(p, s)
        case Failure(e) => Panicked(e)
        case Success(utc) => Printed(TickLines(utc))
  }

  /**
   * The guard against day 0 looks at the usize before it is narrowed, so a
   * day of 256 passes it and reaches `0 - 1` on u32: a debug build panics and
   * a release build prints a world time near 2^32.
   */
  lemma Day256PassesTheGuard()
    ensures Run(Debug, Some(Arguments(256, 0, 0))) == Panicked(SubtractOverflow)
    ensures Run(Release, Some(Arguments(256, 0, 0))) == Printed(TickLines(4294943296))
  {
    var s := New(256, 0, 0);
    assert s == SevendaysDatetimes(0, 0, 0);
    assert MinuteTicks(0) == 0;
    SevenDaysProperties.ReleaseDayZero(0, 0);
    assert CompiledToUtcTime(Release, s) == Success(4294943296);
  }

  /**
   * One run with the guard applied to the narrowed day instead, so that
   * the conversion is only reached with a day of at least 1.
   */
  function RunValidated(p: Profile, parsed: Option<Arguments>): (o: Outcome)
    ensures !o.Panicked?
    ensures parsed.None? ==> o == PrintedHelp
    ensures parsed.Some? && parsed.value.day % U8_LIMIT == 0 ==> o == Printed([DAY_ZERO_MESSAGE])
    ensures parsed.Some? && parsed.value.day % U8_LIMIT != 0 ==>
              var a := parsed.value;
              o == Printed(TickLines(ToUtcTime(New(a.day, a.hour, a.minute)).value))
  {
    match parsed
    case None => PrintedHelp
    case Some(a) =>
      var s := New(a.day, a.hour, a.minute);
      if s.day == 0 then Printed([DAY_ZERO_MESSAGE])
      else
        match CompiledToUtcTime(p, s)
        case Failure(e) => Panicked(e)
        case Success(utc) => Printed(TickLines(utc))
  }

  /** Wherever the program as written does not panic in a debug build, the validated run does the same. */
  lemma RunValidatedAgrees(p: Profile, parsed: Option<Arguments>)
    requires !Run(Debug, parsed).Panicked?
    ensures RunValidated(p, parsed) == Run(p, parsed)
  {
  }

  /** `7dtt 3 16 22` prints 64367 and the two commands carrying it. */
  lemma ThirdDayAt1622Prints(p: Profile)
    ensures Run(p, Some(Arguments(3, 16, 22)))
         == Printed(["64367", "settime 64367", "st 64367"])
  {
    SevenDaysProperties.ThirdDayAt1622();
    assert NatToString(6) == "6";
    assert NatToString(64) == "64";
    assert NatToString(643) == "643";
    assert NatToString(6436) == "6436";
    assert NatToString(64367) == "64367";
    assert "settime " + "64367" == "settime 64367" && "st " + "64367" == "st 64367";
    assert TickLines(64367) == ["64367", "settime 64367", "st 64367"];
  }

  /** `7dtt 7`, whose hour and minute the parser sets to 0, prints 144000. */
  lemma SeventhDayPrints(p: Profile)
    ensures Run(p, Some(Arguments(7, 0, 0)))
         == Printed(["144000", "settime 144000", "st 144000"])
  {
    SevenDaysProperties.SeventhDay();
    assert NatToString(1) == "1";
    assert NatToString(14) == "14";
    assert NatToString(144) == "144";
    assert NatToString(1440) == "1440";
    assert NatToString(14400) == "14400";
    assert NatToString(144000) == "144000";
    assert "settime " + "144000" == "settime 144000" && "st " + "144000" == "st 144000";
    assert TickLines(144000) == ["144000", "settime 144000", "st 144000"];
  }

  /** `7dtt 0` prints only the guidance message, and no world time. */
  lemma DayZeroPrintsOnlyTheMessage(p: Profile, hour: Usize, minute: Usize)
    ensures Run(p, Some(Arguments(0, hour, minute))) == Printed([DAY_ZERO_MESSAGE])
  {
  }
}
