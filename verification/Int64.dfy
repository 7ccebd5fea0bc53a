// Go's int64 arithmetic: the wrapping operators and the two checked helpers
// of utils.go.

module Int64 {
  import opened Wrappers

  const TWO64 := 0x1_0000_0000_0000_0000
  const MIN64 := -0x8000_0000_0000_0000
  const MAX64 := 0x7FFF_FFFF_FFFF_FFFF

  type Int64 = x: int | MIN64 <= x <= MAX64
  type Uint32 = x: int | 0 <= x < 0x1_0000_0000

  predicate InInt64(x: int) {
    MIN64 <= x <= MAX64
  }

  /** The value an unchecked int64 operation leaves behind. */
  function Wrap64(x: int): (r: Int64)
    ensures InInt64(x) <==> r == x
  {
    x - Wraps(x) * TWO64
  }

  /** How many times 2^64 is lost. */
  function Wraps(x: int): (k: int)
    ensures InInt64(x - k * TWO64)
  {
    (x + 0x8000_0000_0000_0000) / TWO64
  }

  /** Wrapping an intermediate sum changes nothing: only the final value counts. */
  lemma WrapSum(x: int, y: int)
    ensures Wrap64(Wrap64(x) + y) == Wrap64(x + y)
  {
    assert Wraps(x + y) == Wraps(x) + Wraps(Wrap64(x) + y);
  }

  /** Go's `/` on a positive divisor: truncation towards zero. */
  function GoDiv(a: int, b: int): (q: int)
    requires 0 < b
  {
    if 0 <= a then a / b else -((-a) / b)
  }

  /** Truncated division by 1 to 4 leaves a remainder below the divisor, of the dividend's sign. */
  lemma GoDivRemainder(a: int, b: int)
    requires 1 <= b <= 4
    ensures 0 <= a ==> 0 <= GoDiv(a, b) && 0 <= a - GoDiv(a, b) * b < b
    ensures a < 0 ==> GoDiv(a, b) <= 0 && -b < a - GoDiv(a, b) * b <= 0
  {
    if b == 1 {
    } else if b == 2 {
    } else if b == 3 {
    } else {
      assert b == 4;
    }
  }

  function SafeAdd64(a: Int64, b: Int64): (r: Result<Int64>)
    ensures r == if InInt64(a + b) then Ok(a + b) else Err(ErrArithmetic)
  {
    if a > 0 && b > MAX64 - a then Err(ErrArithmetic)
    else if a < 0 && b < MIN64 - a then Err(ErrArithmetic)
    else Ok(a + b)
  }

  function SafeSubtract64(a: Int64, b: Int64): (r: Result<Int64>)
    ensures r == if InInt64(a - b) then Ok(a - b) else Err(ErrArithmetic)
  {
    if b > 0 && a < MIN64 + b then Err(ErrArithmetic)
    else if b < 0 && a > MAX64 + b then Err(ErrArithmetic)
    else Ok(a - b)
  }
}
