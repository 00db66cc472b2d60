/** Go-level building blocks shared by the model: optional values and
    results, the range of Go's 64-bit `int`, instants, bytes, and the two
    functions of Go's `strings` package the core relies on. */
module Base {

  datatype Option<+T> = None | Some(value: T)

  datatype Result<+T, +E> = Ok(value: T) | Err(error: E)

  const MinInt64: int := -0x8000_0000_0000_0000
  const MaxInt64: int := 0x7fff_ffff_ffff_ffff
  const TwoTo64: int := 0x1_0000_0000_0000_0000

  predicate IsInt64(x: int) {
    MinInt64 <= x <= MaxInt64
  }

  /** Go's `int` on the 64-bit targets the service is built for. */
  type Int64 = x: int | IsInt64(x)

  /** The two's-complement wrap Go applies when `+` or `-` on `int` overflows:
      the unique representable value congruent to the exact result. */
  function Wrap64(x: int): (r: Int64)
    ensures IsInt64(x) ==> r == x
    ensures (x - r) % TwoTo64 == 0
  {
    (x - MinInt64) % TwoTo64 + MinInt64
  }

  /** An instant (Go's `time.Time`), counted in ticks from a fixed origin;
      `ZeroTime` stands for Go's zero `time.Time{}`. */
  type Time = int

  const ZeroTime: Time := 0

  newtype Byte = x: int | 0 <= x < 256

  /** `strings.HasPrefix`. */
  predicate HasPrefix(s: string, prefix: string)
    ensures HasPrefix(s, prefix) <==>
              |prefix| <= |s| && forall i :: 0 <= i < |prefix| ==> s[i] == prefix[i]
  {
    |prefix| <= |s| && s[..|prefix|] == prefix
  }

  /** `strings.HasSuffix`. */
  predicate HasSuffix(s: string, suffix: string) {
    |suffix| <= |s| && s[|s| - |suffix|..] == suffix
  }

  /** `strings.TrimPrefix`: removes one leading `prefix` if present. */
  function TrimPrefix(s: string, prefix: string): (r: string)
    ensures HasPrefix(s, prefix) ==> prefix + r == s
    ensures !HasPrefix(s, prefix) ==> r == s
  {
    if HasPrefix(s, prefix) then s[|prefix|..] else s
  }
}
