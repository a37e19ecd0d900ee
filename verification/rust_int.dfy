/**
 * The fixed-width unsigned integers of the program (u8, u32, usize) and the
 * two meanings Rust gives to overflowing u32 arithmetic: a panic in a debug
 * build, wrap-around modulo 2^32 in a release build (overflow checks off).
 */
module RustInt {
  import opened Wrappers

  const U8_LIMIT: nat := 0x100
  const U32_LIMIT: nat := 0x1_0000_0000
  /** usize on a 64-bit target. */
  const USIZE_LIMIT: nat := 0x1_0000_0000_0000_0000

  type U8 = x: nat | x < U8_LIMIT
  type U32 = x: nat | x < U32_LIMIT
  type Usize = x: nat | x < USIZE_LIMIT

  /** Which build of the program runs: overflow checks on (Debug) or off (Release). */
  datatype Profile = Debug | Release

  /** The panics that overflow checks raise. */
  datatype Panic = SubtractOverflow | MultiplyOverflow | AddOverflow

  /** `x as u8`: keeps the low 8 bits, i.e. the value congruent to x in 0..255. */
  function AsU8(x: Usize): (r: U8)
    ensures x < U8_LIMIT ==> r == x
    ensures (x - r) % U8_LIMIT == 0
  {
    x % U8_LIMIT
  }

  /** `a - b` on u32. */
  function Sub(p: Profile, a: U32, b: U32): (r: Result<U32, Panic>)
    ensures r.Failure? ==> r.error == SubtractOverflow
    ensures a >= b ==> r == Success(a - b)
    ensures r.Failure? <==> p == Debug && a < b
    ensures r.Success? ==> (r.value + b - a) % U32_LIMIT == 0
  {
    if a >= b then Success(a - b)
    else if p == Debug then Failure(SubtractOverflow)
    else Success(a - b + U32_LIMIT)
  }

  /** `a * b` on u32. */
  function Mul(p: Profile, a: U32, b: U32): (r: Result<U32, Panic>)
    ensures r.Failure? ==> r.error == MultiplyOverflow
    ensures a * b < U32_LIMIT ==> r == Success(a * b)
    ensures r.Failure? <==> p == Debug && a * b >= U32_LIMIT
    ensures r.Success? ==> (a * b - r.value) % U32_LIMIT == 0
  {
    var n := a * b;
    if n < U32_LIMIT then Success(n)
    else if p == Debug then Failure(MultiplyOverflow)
    else Success(n % U32_LIMIT)
  }

  /** `a + b` on u32. */
  function Add(p: Profile, a: U32, b: U32): (r: Result<U32, Panic>)
    ensures r.Failure? ==> r.error == AddOverflow
    ensures a + b < U32_LIMIT ==> r == Success(a + b)
    ensures r.Failure? <==> p == Debug && a + b >= U32_LIMIT
    ensures r.Success? ==> (a + b - r.value) % U32_LIMIT == 0
  {
    var n := a + b;
    if n < U32_LIMIT then Success(n)
    else if p == Debug then Failure(AddOverflow)
    else Success(n - U32_LIMIT)
  }
}
