/**
 * execution/order_executor.py: the share quantity for the configured capital
 * and the limit order prepared before the broker is called.
 */
module OrderExecutor {
  import opened Wrappers
  import opened Series
  import opened Labels
  import opened ExecutionConfig

  /** `x.Floor` lies within one below `x`. */
  lemma FloorBounds(x: real)
    ensures x.Floor as real <= x < x.Floor as real + 1.0
  {
  }

  lemma ProductBounds(q: real, x: real, price: real)
    requires price > 0.0 && q <= x < q + 1.0
    ensures q * price <= x * price < (q + 1.0) * price
  {
    assert x * price - q * price == (x - q) * price;
    assert (q + 1.0) * price - x * price == (q + 1.0 - x) * price;
  }

  /**
   * `calculate_quantity`: 0 for a non-positive price, otherwise the largest
   * whole number of shares the capital pays for.
   */
  function CalculateQuantity(price: real): (qty: int)
    ensures price <= 0.0 ==> qty == 0
    ensures price > 0.0 ==> qty >= 0
    ensures price > 0.0 ==>
      qty as real * price <= CAPITAL_PER_TRADE < (qty + 1) as real * price
  {
    if price <= 0.0 then 0
    else
      var x := CAPITAL_PER_TRADE / price;
      FloorBounds(x);
      assert x * price == CAPITAL_PER_TRADE;
      ProductBounds(x.Floor as real, x, price);
      x.Floor
  }

  /** At least one share is affordable exactly when the price is positive and within the capital. */
  lemma AffordableIffWithinCapital(price: real)
    ensures CalculateQuantity(price) >= 1 <==> 0.0 < price <= CAPITAL_PER_TRADE
  {
    if price > 0.0 {
      var q := CalculateQuantity(price);
      if q >= 1 {
        assert price <= q as real * price by {
          assert (q as real - 1.0) * price >= 0.0;
        }
      } else {
        assert q == 0;
      }
    }
  }

  /** The order the source builds before calling the broker. */
  datatype LimitOrder = LimitOrder(instrumentToken: string, transactionType: Side, quantity: int, limitPrice: real)

  /**
   * The checks and the price computation of `place_limit_order` before the
   * broker call: no order for less than one share, BUY priced above and SELL
   * below the reference price by LIMIT_BUFFER_PCT, and no order for any other
   * side string.
   */
  function PrepareLimitOrder(instKey: string, side: string, price: real): (r: Option<LimitOrder>)
    ensures r.None? <==> CalculateQuantity(price) < 1 || (side != "BUY" && side != "SELL")
    ensures r.Some? ==>
      && r.value.instrumentToken == instKey
      && r.value.quantity == CalculateQuantity(price) >= 1
      && r.value.transactionType.Name() == side
    ensures r.Some? && side == "BUY" ==> r.value.limitPrice == Times(price, 1.0 + LIMIT_BUFFER_PCT)
    ensures r.Some? && side == "SELL" ==> r.value.limitPrice == Times(price, 1.0 - LIMIT_BUFFER_PCT)
  {
    var qty := CalculateQuantity(price);
    if qty < 1 then None
    else if side == "BUY" then Some(LimitOrder(instKey, Buy, qty, Times(price, 1.0 + LIMIT_BUFFER_PCT)))
    else if side == "SELL" then Some(LimitOrder(instKey, Sell, qty, Times(price, 1.0 - LIMIT_BUFFER_PCT)))
    else None
  }

  /**
   * The buffer makes the order marketable: a BUY
   * limit lies above the price and a SELL limit below it, and the order never
   * commits more than the capital at the reference price.
   */
  lemma LimitOrderShape(instKey: string, side: string, price: real)
    requires PrepareLimitOrder(instKey, side, price).Some?
    ensures 0.0 < price <= CAPITAL_PER_TRADE
    ensures var o := PrepareLimitOrder(instKey, side, price).value;
      && (o.transactionType == Buy ==> o.limitPrice > price)
      && (o.transactionType == Sell ==> 0.0 < o.limitPrice < price)
      && o.quantity as real * price <= CAPITAL_PER_TRADE
  {
    AffordableIffWithinCapital(price);
  }

  /** What a successful broker call hands back: the order id and, when reported, the quantity. */
  datatype OrderResponse = OrderResponse(orderId: string, quantity: Option<int>)

  /**
   * `place_limit_order`: the broker is called only with a prepared order; the
   * broker itself is the parameter `broker`, whose answer is None on any
   * failure.
   */
  function PlaceLimitOrder(instKey: string, side: string, price: real,
                           broker: LimitOrder -> Option<OrderResponse>): (r: Option<OrderResponse>)
    ensures PrepareLimitOrder(instKey, side, price).None? ==> r.None?
    ensures PrepareLimitOrder(instKey, side, price).Some? ==> r == broker(PrepareLimitOrder(instKey, side, price).value)
  {
    match PrepareLimitOrder(instKey, side, price)
    case None => None
    case Some(order) => broker(order)
  }
}
