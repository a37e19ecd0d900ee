# seven_days_to_time_rs in Dafny

`7dtt <day> [hour] [minute]` turns an in-game date of *7 Days to Die* into the
world time that the game's `settime` / `st` console command takes, and prints
that number followed by the two ready-to-paste commands. One in-game day is
24000 ticks, one hour 1000 ticks, and a minute 1000/60 ticks rounded up, so
that the game's clock, which truncates ticks back to minutes, shows the
requested minute and not the one before it.

This project models the program's core, `src/main.rs`:

- `RustInt` — the fixed-width integers involved (`u8`, `u32`, `usize`), the
  `as u8` narrowing, and `u32` subtraction, multiplication and addition in both
  build profiles: a debug build panics on overflow, a release build (the
  default of `cargo install`) wraps modulo 2^32.
- `SevenDays` — the `SevendaysDatetimes` value, its constructor `New`
  (narrowing each argument to 8 bits), the conversion `ToUtcTime` as a
  mathematical function that requires day ≥ 1, and `CompiledToUtcTime`, the
  same lines evaluated in `u32` arithmetic for any day, including 0.
- `SevenDaysProperties` — what the conversion promises: known values, the
  size of a day and an hour, rounding up, monotonicity, the `u32` bound, and
  that the game's clock reads the requested moment back.
- `Decimal` — how a world time is rendered as a decimal string, with its
  inverse.
- `Cli` — one run of `main` on already-parsed arguments: help on a parse
  failure, the guidance message for day 0, a panic, or the three output lines.

The minute term is computed in the program as
`(minute as f32 * (1000.0 / 60.0)).ceil()`. The model uses the exact integer
ceiling `(minute * 1000 + 59) / 60` instead. For minute in 0..255 the two are
taken to agree, because the f32 constant lies just below 50/3 and its error is
far smaller than the 1/3 gap the ceiling needs; this agreement is an
assumption of the model, not something proved here.

## Model

| member | source | states |
|---|---|---|
| `RustInt.AsU8` | src/main.rs:55-57 | `x as u8` gives the value in 0..255 congruent to `x` modulo 256, and leaves any `x` below 256 unchanged |
| `RustInt.Sub` | src/main.rs:69 | `u32` subtraction: exact when no underflow; on underflow a debug build panics with the subtraction overflow (and only then), a release build gives the result modulo 2^32 |
| `RustInt.Mul` | src/main.rs:69-70 | `u32` multiplication: exact below 2^32; past it a debug build panics with the multiplication overflow (and only then), a release build gives the product modulo 2^32 |
| `RustInt.Add` | src/main.rs:72 | `u32` addition: exact below 2^32; past it a debug build panics with the addition overflow (and only then), a release build gives the sum modulo 2^32 |
| `SevenDays.New` | src/main.rs:53-59 | each stored field is congruent to its argument modulo 256, and equal to it when the argument is below 256 |
| `SevenDays.NewWraps` | src/main.rs:53-59 | arguments differing by multiples of 256 build the same value: an hour or minute of 256 or more wraps silently |
| `SevenDays.MinuteTicks` | src/main.rs:71 | the minute term is the ceiling of minute × 1000 / 60: the least whole tick count at least that large |
| `SevenDays.ToUtcTime` | src/main.rs:68-73 | for day ≥ 1 the result is always `Some`, at most 6355250 (so it fits a `u32`), and equals (day − 1) × 24000 + hour × 1000 plus the rounded-up minute ticks |
| `SevenDays.CompiledToUtcTime` | src/main.rs:69-72 | evaluated in `u32` arithmetic, the conversion equals `ToUtcTime` whenever day ≥ 1; with day 0 it fails exactly in a debug build, and the only panic it can raise is the subtraction overflow |
| `SevenDaysProperties.FirstDayStartsAtZero` | src/main.rs:69-72 | day 1, 00:00 is world time 0 |
| `SevenDaysProperties.SeventhDay` | src/test.rs:5-6 | day 7, 00:00 is world time 144000 |
| `SevenDaysProperties.ThirdDayAt1622` | src/main.rs:16-19 | day 3, 16:22 is world time 64367 |
| `SevenDaysProperties.DayStep` | src/main.rs:69 | one more day, same hour and minute, adds exactly 24000 |
| `SevenDaysProperties.HourStep` | src/main.rs:70 | one more hour, same day and minute, adds exactly 1000 |
| `SevenDaysProperties.OneMinuteRoundsUp` | src/main.rs:71 | one minute contributes 17 ticks, not 16 |
| `SevenDaysProperties.Monotone` | src/main.rs:69-72 | a moment later or equal in every field never has a smaller world time |
| `SevenDaysProperties.LargestWorldTime` | src/main.rs:69-72 | the bound 6355250 is reached at day 255, hour 255, minute 255, and lies below 2^32 |
| `SevenDaysProperties.ClockReadsBack` | src/main.rs:69-72 | for hour < 24 and minute < 60, the game's clock reading of the world time (day = ticks / 24000 + 1, hour and minute truncated) is exactly the requested day, hour and minute |
| `SevenDaysProperties.RoundingDownReadsEarlier` | src/main.rs:71 | rounding the minute term down would make the clock show minute 0 for a requested minute 1; rounding up shows 1 |
| `SevenDaysProperties.ProfilesAgree` | src/main.rs:69-72 | whenever a debug build does not panic, day ≥ 1 and the release build computes the same value, which is `ToUtcTime`'s |
| `SevenDaysProperties.ReleaseDayZero` | src/main.rs:69-72 | with day 0 a release build yields (2^32 − 24000 + hour × 1000 + minute ticks) modulo 2^32 |
| `Decimal.NatToString` | src/main.rs:105 | a world time prints as a non-empty string of decimal digits with no leading zero |
| `Decimal.ParseNatToString` | src/main.rs:105 | reading the printed digits back gives the world time itself |
| `Decimal.NatToStringInjective` | src/main.rs:105 | distinct world times print differently |
| `Cli.TickLines` | src/main.rs:104-107 | exactly three lines: the world time in plain decimal (digits that read back as the value, no leading zero), then `settime ` and `st ` followed by that same number |
| `Cli.Run` | src/main.rs:85-108 | a parse failure prints help only; day 0 prints only the guidance message; a day that is not a multiple of 256 prints the three lines for `ToUtcTime(New(day, hour, minute))`; a nonzero multiple of 256 panics in a debug build, always with the subtraction overflow of `day - 1` (and nothing else panics), while a release build prints the lines for the wrapped value (2^32 − 24000 + hour × 1000 + minute ticks) modulo 2^32, with hour and minute narrowed |
| `Cli.Day256PassesTheGuard` | src/main.rs:96-103 | day 256 passes the day-0 guard; a debug build then panics on the subtraction, a release build prints 4294943296 |
| `Cli.RunValidated` | src/main.rs:96-103 | with the guard applied to the narrowed day, a run evaluated in `u32` arithmetic never panics in either build profile, every day whose 8-bit value is 0 gets the guidance message, and every other day prints the lines for `ToUtcTime` |
| `Cli.RunValidatedAgrees` | src/main.rs:96-108 | wherever the program as written does not panic in a debug build, the validated run behaves identically in both profiles |
| `Cli.ThirdDayAt1622Prints` | src/main.rs:15-20 | `7dtt 3 16 22` prints `64367`, `settime 64367`, `st 64367` |
| `Cli.SeventhDayPrints` | src/main.rs:103-107 | arguments (7, 0, 0), which is what `7dtt 7` parses to, print `144000`, `settime 144000`, `st 144000` |
| `Cli.DayZeroPrintsOnlyTheMessage` | src/main.rs:96-100 | `7dtt 0`, whatever hour and minute, prints only the guidance message and no world time |

## Left out

- Argument parsing and the help text (src/main.rs:28-44, 86-94) belong to the clap library: the model takes its result, an optional `Arguments` of parsed `usize` values, and prints help as the single outcome `PrintedHelp` without its text.
- The defaults of `hour` and `minute` (src/main.rs:38-43) are applied by clap: the parsed `Arguments` already hold 0 for a missing hour or minute, so the model has no step of its own for them.
- `println!` is modelled as the returned list of lines, not as output.
- The f32 evaluation of the minute term (src/main.rs:71) is replaced by the integer ceiling; their agreement for minute in 0..255 is assumed, as said above.
- `SevenDays.ToUtcTime` returns `Option` like the source; the `None` branch of `if let Some(utc)` (src/main.rs:104) is therefore never taken and has no outcome of its own.
- The `fmt::Display` implementation (src/main.rs:76-83) is debug formatting that nothing calls.
- `usize` is taken to be 64 bits wide. Cargo.toml is not part of this model; the default profiles (overflow checks on in debug, off in release) are assumed.
- src/test.rs is not compiled into the program (no `mod test`) and calls a method that does not exist; only its expected value 144000 is used.

## Findings

| source | as written | input that shows it | evidently intended | confidence | as-written member | corrected member |
|---|---|---|---|---|---|---|
| src/main.rs:96-103, 69 | the day-0 guard tests the `usize` argument before `new` narrows it to `u8` | `7dtt 256` (any nonzero multiple of 256): narrowed day is 0, so `0u32 - 1` panics in a debug build and a release build prints 4294943296 | reject every day whose stored 8-bit value is 0, so that `to_utctime` only sees day ≥ 1 | high, by proof; not executed | `Cli.Day256PassesTheGuard` | `Cli.RunValidated` |
