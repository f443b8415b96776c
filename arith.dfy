/** The C# and Unity numeric operations the generator relies on, over int and real. */
module Arith {
  /** C# `/` on int: the quotient is truncated toward zero (Dafny's `/` is Euclidean). */
  function Div(a: int, b: int): int
    requires b != 0
  {
    var q := (if a < 0 then -a else a) / (if b < 0 then -b else b);
    if (a < 0) == (b < 0) then q else -q
  }

  /** Mathf.FloorToInt. */
  function FloorToInt(r: real): int {
    r.Floor
  }

  /** The C# cast `(int)r`: truncates toward zero. */
  function Truncate(r: real): int {
    if r >= 0.0 then r.Floor else -((-r).Floor)
  }

  /** Mathf.Min on two floats. */
  function Min(a: real, b: real): real {
    if a <= b then a else b
  }

  /** Mathf.Abs on a float. */
  function Abs(r: real): real {
    if r < 0.0 then -r else r
  }

  /** The number of integers in [lo, hi): zero when the range is empty. */
  function Span(lo: int, hi: int): nat {
    if hi > lo then hi - lo else 0
  }
}
