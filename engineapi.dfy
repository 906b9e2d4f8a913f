/** The fixed test surface of the remote API (engineapi.go): calls that return
    constants or echo their arguments, used to exercise the client bindings.
    Go's `int` is taken to be 64 bits wide, so Sum wraps around at 2^63. */
module EngineApi {

  const Int64Modulus: int := 0x1_0000_0000_0000_0000

  newtype int64 = x: int | -0x8000_0000_0000_0000 <= x < 0x8000_0000_0000_0000

  /** The int64 value congruent to x modulo 2^64 (two's-complement wrap-around). */
  function Wrap(x: int): (r: int64)
    ensures (r as int - x) % Int64Modulus == 0
    ensures -0x8000_0000_0000_0000 <= x < 0x8000_0000_0000_0000 ==> r as int == x
  {
    (((x + 0x8000_0000_0000_0000) % Int64Modulus) - 0x8000_0000_0000_0000) as int64
  }

  function Version(): int64
  {
    2
  }

  function Echo(i: int64): int64
  {
    i
  }

  /** GetFloat: a float32 42, as a real number. */
  function GetFloat(): real
  {
    42.0
  }

  /** GetDouble: a float64 42, as a real number. */
  function GetDouble(): real
  {
    42.0
  }

  function GetString(): string
  {
    "hello"
  }

  function GetBool(): bool
  {
    true
  }

  /** Sum: i + j in Go's 64-bit int arithmetic. */
  function Sum(i: int64, j: int64): (r: int64)
    ensures (r as int - (i as int + j as int)) % Int64Modulus == 0
    ensures -0x8000_0000_0000_0000 <= i as int + j as int < 0x8000_0000_0000_0000 ==> r as int == i as int + j as int
  {
    Wrap(i as int + j as int)
  }

  /** The constant calls answer as the client tests expect, and Echo returns
      its argument. */
  lemma TestAnswers(i: int64)
    ensures Version() == 2 && Echo(i) == i
    ensures GetFloat() == 42.0 && GetDouble() == 42.0
    ensures GetString() == "hello" && GetBool()
  {
  }

  /** Sum is commutative and has 0 as its neutral element. */
  lemma SumCommutes(i: int64, j: int64)
    ensures Sum(i, j) == Sum(j, i)
    ensures Sum(i, 0) == i
  {
  }

  /** Past the largest int, Sum wraps to the smallest one. */
  lemma SumOverflows()
    ensures Sum(0x7fff_ffff_ffff_ffff, 1) == -0x8000_0000_0000_0000
    ensures Sum(-0x8000_0000_0000_0000, -1) == 0x7fff_ffff_ffff_ffff
  {
  }

  /** EngineAPI: holds the engine, which none of the test calls use. */
  class EngineAPI {
    /** Sink: takes one argument of each wire type and does nothing. */
    method Sink(b: bool, i: int64, f: real, d: real, s: string)
    {
    }
  }
}
