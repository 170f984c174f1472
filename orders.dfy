/** The two order flows, `sell_all_btc` and `buy_btc_with_usdt`.  Each is a
    chain of early-exit guards ending in at most one MARKET order; the
    orders a call submits are returned, in order, as `orders`, whether the
    exchange then accepts them or not. */
module OrderFlow {
  import opened Exchange
  import opened LotSizeRounding
  import opened Lookups

  /** The courtesy minimum-notional threshold of the buy flow, in USDT. */
  const MIN_NOTIONAL: real := 5.0

  /** The sell flow gets as far as rounding the balance: a client, a
      positive balance, a LOT_SIZE filter, and a balance not below minQty. */
  predicate ReachesRounding(client: Option<Client>) {
    var lot := LotSizeFilterOf(client, SYMBOL);
    client.Some? && BtcBalance(client) > 0.0 && lot.Some? && BtcBalance(client) >= lot.value.minQty
  }

  /** The flooring written out in sell_all_btc is adjust_quantity_to_lot_size
      whenever the balance is not below minQty. */
  lemma InlineFloorIsAdjust(balance: real, lot: LotSize)
    requires lot.stepSize != 0.0 && lot.minQty <= balance
    ensures TruncDiv(balance, lot.stepSize) as real * lot.stepSize
         == AdjustQuantityToLotSize(balance, lot)
  {
  }

  /** sell_all_btc (function_app.py:146-211).  `raised` is set when the
      filter's stepSize is zero: the Decimal division at line 185 then
      raises outside any handler and the call ends without an order. */
  method SellAllBtc(client: Option<Client>) returns (orders: seq<Order>, raised: bool)
    ensures |orders| <= 1 && !(raised && orders != [])
    ensures raised <==> ReachesRounding(client) && LotSizeFilterOf(client, SYMBOL).value.stepSize == 0.0
    ensures orders != [] <==>
      ReachesRounding(client) &&
      var lot := LotSizeFilterOf(client, SYMBOL).value;
      lot.stepSize != 0.0 &&
      var q := AdjustQuantityToLotSize(BtcBalance(client), lot);
      q >= lot.minQty && q > 0.0
    ensures orders != [] ==>
      var lot := LotSizeFilterOf(client, SYMBOL).value;
      var balance := BtcBalance(client);
      lot.stepSize != 0.0 &&
      var q := AdjustQuantityToLotSize(balance, lot);
      orders == [Order(SYMBOL, Sell, Market, Quantity(q))] &&
      lot.minQty <= q && 0.0 < q && q <= balance && balance < q + Abs(lot.stepSize) &&
      IsMultipleOf(q, lot.stepSize)
  {
    orders, raised := [], false;
    if client.None? {
      return;
    }
    var balance := GetBtcBalance(client);
    if balance <= 0.0 {
      return;
    }
    var lotSize := GetSymbolLotSizeFilter(client, SYMBOL);
    if lotSize.None? {
      return;
    }
    var minQty, stepSize := lotSize.value.minQty, lotSize.value.stepSize;
    if balance < minQty {
      return;
    }
    if stepSize == 0.0 {
      raised := true;
      return;
    }
    // The flooring formula, written out here rather than calling
    // AdjustQuantityToLotSize.
    var quantityToSell := TruncDiv(balance, stepSize) as real * stepSize;
    if quantityToSell < minQty {
      return;
    }
    if quantityToSell <= 0.0 {
      return;
    }
    InlineFloorIsAdjust(balance, lotSize.value);
    assert quantityToSell == AdjustQuantityToLotSize(balance, lotSize.value);
    AdjustIsOnGrid(balance, lotSize.value);
    orders := orders + [Order(SYMBOL, Sell, Market, Quantity(quantityToSell))];
  }

  /** buy_btc_with_usdt (function_app.py:214-253).  `notionalWarning` is the
      warning logged for an amount under MIN_NOTIONAL; it does not stop the
      order. */
  method BuyBtcWithUsdt(client: Option<Client>, usdtAmount: real) returns (orders: seq<Order>, notionalWarning: bool)
    ensures notionalWarning <==> client.Some? && usdtAmount < MIN_NOTIONAL
    ensures orders != [] <==> client.Some? && usdtAmount > 0.0
    ensures orders != [] ==> orders == [Order(SYMBOL, Buy, Market, QuoteOrderQty(usdtAmount))]
  {
    orders, notionalWarning := [], false;
    if client.None? {
      return;
    }
    if usdtAmount < MIN_NOTIONAL {
      notionalWarning := true;
    }
    if usdtAmount <= 0.0 {
      return;
    }
    orders := orders + [Order(SYMBOL, Buy, Market, QuoteOrderQty(usdtAmount))];
  }
}
