/** execution/trade_logger.py: the profit-and-loss figures written for each completed trade. */
module TradeLogger {

  /**
   * `pnl_pct`: the move from entry to exit as a percentage of the entry, in
   * the trade's favour for "BUY" and reversed for every other side string.
   * The source divides by the entry price.
   */
  function PnlPct(side: string, entryPrice: real, exitPrice: real): (r: real)
    requires entryPrice != 0.0
    ensures r * entryPrice == (if side == "BUY" then exitPrice - entryPrice else entryPrice - exitPrice) * 100.0
  {
    if side == "BUY" then (exitPrice - entryPrice) / entryPrice * 100.0
    else (entryPrice - exitPrice) / entryPrice * 100.0
  }

  /** `pnl_amount`: the same move times the quantity. */
  function PnlAmount(side: string, entryPrice: real, exitPrice: real, quantity: int): (r: real)
    ensures quantity == 0 || exitPrice == entryPrice ==> r == 0.0
    ensures quantity > 0 ==> (r > 0.0 <==> if side == "BUY" then exitPrice > entryPrice else exitPrice < entryPrice)
  {
    ProductSign(exitPrice - entryPrice, quantity as real);
    ProductSign(entryPrice - exitPrice, quantity as real);
    if side == "BUY" then (exitPrice - entryPrice) * quantity as real
    else (entryPrice - exitPrice) * quantity as real
  }

  lemma ProductSign(d: real, q: real)
    ensures q > 0.0 ==> (d * q > 0.0 <==> d > 0.0)
  {
    if q > 0.0 && d <= 0.0 {
      assert (-d) * q >= 0.0;
    }
  }

  /** Exiting at the entry price is neither a gain nor a loss. */
  lemma FlatTradeHasNoPnl(side: string, price: real, quantity: int)
    requires price != 0.0
    ensures PnlPct(side, price, price) == 0.0 && PnlAmount(side, price, price, quantity) == 0.0
  {
  }

  /** Switching a "BUY" to any other side negates both figures. */
  lemma SideFlipNegates(other: string, entryPrice: real, exitPrice: real, quantity: int)
    requires entryPrice != 0.0 && other != "BUY"
    ensures PnlPct(other, entryPrice, exitPrice) == -PnlPct("BUY", entryPrice, exitPrice)
    ensures PnlAmount(other, entryPrice, exitPrice, quantity) == -PnlAmount("BUY", entryPrice, exitPrice, quantity)
  {
    var d := exitPrice - entryPrice;
    assert (-d) / entryPrice == -(d / entryPrice);
  }

  /**
   * With a positive entry and a positive quantity the percentage and the
   * amount always agree in sign.
   */
  lemma PnlSignsAgree(side: string, entryPrice: real, exitPrice: real, quantity: int)
    requires entryPrice > 0.0 && quantity > 0
    ensures PnlPct(side, entryPrice, exitPrice) > 0.0 <==> PnlAmount(side, entryPrice, exitPrice, quantity) > 0.0
    ensures PnlPct(side, entryPrice, exitPrice) < 0.0 <==> PnlAmount(side, entryPrice, exitPrice, quantity) < 0.0
  {
    var d := if side == "BUY" then exitPrice - entryPrice else entryPrice - exitPrice;
    var p := PnlPct(side, entryPrice, exitPrice);
    assert p * entryPrice == d * 100.0;
    var q := quantity as real;
    if d > 0.0 {
      assert d * q > 0.0;
      assert p > 0.0;
    } else if d < 0.0 {
      assert (-d) * q > 0.0;
      assert p < 0.0;
    } else {
      assert p * entryPrice == 0.0;
    }
  }
}
