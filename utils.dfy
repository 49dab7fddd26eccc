/** Small helpers of the bot: the balance gate and the quantity formatter used
    when an order is sent. */
module Utils {
  import opened Common

  /** One entry of the exchange's balance list: an asset and its free amount
      (the exchange's text amount, already converted to a number). */
  datatype Balance = Balance(asset: string, free: real)

  /** Some entry of `balances` is for `symbol` and has at least `required`
      free. */
  predicate HasFunds(symbol: string, required: real, balances: seq<Balance>)
  {
    exists i :: 0 <= i < |balances| && balances[i].asset == symbol && balances[i].free >= required
  }

  /** Scans the balance list in order and answers true at the first entry for
      `symbol` whose free amount covers `required`. An entry for `symbol` that
      falls short does not end the scan, so a later entry for the same asset
      can still answer true. */
  method CheckBalance(symbol: string, required: real, balances: seq<Balance>) returns (ok: bool)
    ensures ok <==> HasFunds(symbol, required, balances)
    ensures balances == [] ==> !ok
    ensures (forall i :: 0 <= i < |balances| ==> balances[i].asset != symbol) ==> !ok
  {
    for i := 0 to |balances|
      invariant forall j :: 0 <= j < i ==> !(balances[j].asset == symbol && balances[j].free >= required)
    {
      var item := balances[i];
      if item.asset == symbol {
        var freeBalance := item.free;
        if freeBalance >= required {
          return true;
        }
      }
    }
    return false;
  }

  /** 10 to the power `p`. */
  function Pow10(p: nat): (r: nat)
    ensures r >= 1
  {
    if p == 0 then 1 else 10 * Pow10(p - 1)
  }

  /** `x` written in units of 10^-precision. */
  function Scaled(x: real, precision: nat): real
  {
    x * Pow10(precision) as real
  }

  /** `n` units of 10^-precision, as a number. */
  function Unscaled(n: int, precision: nat): real
  {
    n as real / Pow10(precision) as real
  }

  /** `x` is a whole multiple of 10^-precision. */
  predicate OnGrid(x: real, precision: nat)
  {
    Scaled(x, precision).Floor as real == Scaled(x, precision)
  }

  /** The quantity cut to `precision` decimals with ROUND_DOWN, that is,
      toward zero: a multiple of 10^-precision, never larger in magnitude and
      never on the other side of zero, less than one step away from the
      input. */
  function FormatQuantity(quantity: real, precision: nat): (r: real)
    ensures OnGrid(r, precision)
    ensures quantity >= 0.0 ==> 0.0 <= r <= quantity
    ensures quantity < 0.0 ==> quantity <= r <= 0.0
    ensures Abs(r) <= Abs(quantity)
    ensures Abs(quantity - r) < 1.0 / Pow10(precision) as real
  {
    var r := Unscaled(Trunc(Scaled(quantity, precision)), precision);
    TruncatedFacts(quantity, precision, r);
    r
  }

  /** The facts behind FormatQuantity's contract. */
  lemma TruncatedFacts(quantity: real, precision: nat, r: real)
    requires r == Unscaled(Trunc(Scaled(quantity, precision)), precision)
    ensures OnGrid(r, precision)
    ensures quantity >= 0.0 ==> 0.0 <= r <= quantity
    ensures quantity < 0.0 ==> quantity <= r <= 0.0
    ensures Abs(r) <= Abs(quantity)
    ensures Abs(quantity - r) < 1.0 / Pow10(precision) as real
  {
    var n := Trunc(Scaled(quantity, precision));
    ScaledUnscaled(n, precision);
    ScaledOrder(r, quantity, precision);
    ScaledOrder(0.0, r, precision);
    ScaledOrder(quantity, r, precision);
    ScaledOrder(r, 0.0, precision);
    ScaledGap(quantity, r, precision);
    ScaledGap(r, quantity, precision);
  }

  /** Scaling preserves order both ways. */
  lemma ScaledOrder(x: real, y: real, precision: nat)
    ensures x <= y <==> Scaled(x, precision) <= Scaled(y, precision)
  {
  }

  /** Scaling undoes Unscaled. */
  lemma ScaledUnscaled(n: int, precision: nat)
    ensures Scaled(Unscaled(n, precision), precision) == n as real
  {
    Cancel(n as real, Pow10(precision) as real);
  }

  /** A gap of less than one scaled unit is less than 10^-precision. */
  lemma ScaledGap(x: real, y: real, precision: nat)
    requires Scaled(x, precision) - Scaled(y, precision) < 1.0
    ensures x - y < 1.0 / Pow10(precision) as real
  {
    var scale := Pow10(precision) as real;
    var d := x - y;
    assert d * scale == Scaled(x, precision) - Scaled(y, precision);
    DivStrict(d * scale, 1.0, scale);
    assert d * scale / scale == d;
  }

  /** Dividing by a positive number keeps a strict order. */
  lemma DivStrict(a: real, b: real, scale: real)
    requires scale > 0.0 && a < b
    ensures a / scale < b / scale
  {
  }

  /** Multiplying back cancels a division. */
  lemma Cancel(a: real, scale: real)
    requires scale > 0.0
    ensures (a / scale) * scale == a
  {
  }

  /** A value already on the grid is returned unchanged. */
  lemma FormatKeepsGridValues(x: real, precision: nat)
    requires OnGrid(x, precision)
    ensures FormatQuantity(x, precision) == x
  {
    var n := Scaled(x, precision).Floor;
    assert Trunc(Scaled(x, precision)) == n;
    assert Unscaled(n, precision) == x by {
      Cancel(x * Pow10(precision) as real, Pow10(precision) as real);
    }
  }

  /** Formatting an already formatted quantity changes nothing. */
  lemma FormatIdempotent(quantity: real, precision: nat)
    ensures FormatQuantity(FormatQuantity(quantity, precision), precision) == FormatQuantity(quantity, precision)
  {
    FormatKeepsGridValues(FormatQuantity(quantity, precision), precision);
  }

  /** A Python float: `exact` is the binary value the double holds, `text`
      the number its shortest decimal spelling (`str`) denotes. The two differ
      whenever the decimal constant has no exact binary form. */
  datatype Float = Float(exact: real, text: real)

  /** `Decimal(quantity)` on a float takes the exact binary value, so
      `format_quantity` cuts that value, not the number the caller wrote. */
  function FormatFloatAsWritten(quantity: Float, precision: nat): (r: real)
    ensures OnGrid(r, precision)
    ensures Abs(r) <= Abs(quantity.exact)
    ensures Abs(quantity.exact - r) < 1.0 / Pow10(precision) as real
  {
    FormatQuantity(quantity.exact, precision)
  }

  /** Building the decimal from the float's text cuts the number the caller
      wrote: a quantity written with at most `precision` decimals is sent as
      written. */
  function FormatFloat(quantity: Float, precision: nat): (r: real)
    ensures OnGrid(r, precision)
    ensures OnGrid(quantity.text, precision) ==> r == quantity.text
  {
    var r := FormatQuantity(quantity.text, precision);
    if OnGrid(quantity.text, precision) then
      FormatKeepsGridValues(quantity.text, precision);
      r
    else
      r
  }

  /** The double closest to 0.000047, the bot's order size. */
  const OrderSize: Float := Float(0.0000469999999999999972378865453759289039226132445037364959716796875, 0.000047)

  /** As written, the order size 0.000047 is sent as 0.00004699. */
  lemma OrderSizeCutAsWritten()
    ensures FormatFloatAsWritten(OrderSize, 8) == 0.00004699
    ensures FormatFloatAsWritten(OrderSize, 8) != OrderSize.text
  {
    assert Pow10(8) == 100000000;
    assert Trunc(Scaled(OrderSize.exact, 8)) == 4699;
  }

  /** Formatted from its text, the order size is sent as 0.000047. */
  lemma OrderSizeKept()
    ensures FormatFloat(OrderSize, 8) == 0.000047
  {
    assert Pow10(8) == 100000000;
    assert Scaled(0.000047, 8) == 4700.0;
  }
}
