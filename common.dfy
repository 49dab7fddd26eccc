/** Shared vocabulary of the trading bot: the three-way trade decision, the
    optional values that stand for pandas' missing numbers (NaN) and Python's
    None, the error path of calls that raise, and the integer truncation that
    `astype(int)` and `ROUND_DOWN` perform. */
module Common {

  /** A trade decision, the strings 'buy', 'sell' and 'hold' of the source. */
  datatype Signal = Buy | Sell | Hold

  /** A decision that is never 'hold': the side of an order, or the output of
      the learned model, which only ever answers 'buy' or 'sell'. */
  type Direction = s: Signal | s != Hold witness Buy

  /** The other side of a direction. */
  function Opposite(d: Direction): (o: Direction)
    ensures o != d
  {
    if d == Buy then Sell else Buy
  }

  /** A value that may be missing: a NaN cell of a pandas column, or Python's
      None. Every comparison against a missing value is false. */
  datatype Option<T> = None | Some(value: T)

  /** The result of a call that may raise instead of returning. */
  datatype Result<T> = Ok(value: T) | Err(reason: string)

  /** `x > y`, false when `y` is missing (NaN compares false). */
  predicate Above(x: real, y: Option<real>)
  {
    y.Some? && x > y.value
  }

  /** `x < y`, false when `y` is missing. */
  predicate Below(x: real, y: Option<real>)
  {
    y.Some? && x < y.value
  }

  /** Absolute value. */
  function Abs(x: real): (a: real)
    ensures a >= 0.0 && (a == x || a == -x)
  {
    if x < 0.0 then -x else x
  }

  /** Truncation toward zero of a real to an integer, as numpy's `astype(int)`
      and decimal's ROUND_DOWN perform it. */
  function Trunc(x: real): (n: int)
    ensures x >= 0.0 ==> 0 <= n && n as real <= x < n as real + 1.0
    ensures x < 0.0 ==> n <= 0 && n as real - 1.0 < x <= n as real
  {
    if x >= 0.0 then x.Floor else -((-x).Floor)
  }
}
