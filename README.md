# Binance lot-size rounding and order guards

This project models the trading logic of a serverless function that trades
on the Binance spot market. The function covers four things:

- It reads the free BTC balance.
- It fetches the `LOT_SIZE` filter of the `BTCUSDT` pair.
- It floors an order quantity to the filter's `stepSize`.
- It sends at most one MARKET order: a sell of the whole balance, or a buy
  for a given USDT amount.

The modules are:

- `Exchange` (exchange.dfy): the data the bot reads from the
  connector and the orders it submits.
  - The client is plain data: `None` when no client was built.
  - Each query reply is `Ok(...)` or `Err(kind)`.
  - `exchangeInfo` maps a symbol to the reply for that symbol.
  - A numeric field that is missing or does not parse is `None`.
- `LotSizeRounding` (lot_size.dfy): `adjust_quantity_to_lot_size`
  and Decimal's truncating `//`, on exact `real`s, with lemmas about the
  rounding.
- `Lookups` (lookups.dfy): the two first-match loops, as methods
  proved against reference functions built on `FirstIndex`.
- `OrderFlow` (orders.dfy): the sell and buy guard chains, as
  methods that return the orders they submit.

Decimal `//` truncates toward zero, so `TruncDiv` is truncation and not
floor. The functions require only a non-zero step, because dividing by zero
is the one case Python rejects. The lemmas state the preconditions they need.

The model follows the code where it differs from what a reader might
expect:

- `adjust_quantity_to_lot_size` does not check `minQty` again after
  flooring, and never returns the "ineligible" value for a floored result
  below `minQty`. `FlooredBelowMinQty` shows quantity 1.7 with minQty 1.5
  and step 1 giving 1.0.
- So "the result is 0 or at least minQty" and unconditional idempotence do
  not hold for that function. They hold only as `AdjustIdempotent` states
  them. The *sell flow* does re-check (function_app.py:188-195), and every
  quantity it sends is at least minQty.
- The buy flow logs its min-notional warning before it rejects a
  non-positive amount. So an amount of -5 is warned about and then gets no
  order.
- In the sell flow, a zero `stepSize` makes the Decimal division at line
  185 raise outside any handler. The model reports this as `raised`, with
  no order.

## Model

| member | source | states |
|---|---|---|
| Lookups.FirstIndex | function_app.py:73-77 | the index found is the first entry matching the predicate (none before it matches, it matches), or the length when no entry matches |
| Lookups.GetBtcBalance | function_app.py:63-83 | the loop returns exactly the reference balance: 0 without a client or on a failed call, else the free amount of the first BTC entry (0 if it does not parse, 0 if there is none) |
| Lookups.BtcBalanceIsFirstMatch | function_app.py:73-75 | when entry i is the first BTC entry, the balance is that entry's free amount (0 if unparseable), whatever comes after it |
| Lookups.BtcBalanceFallback | function_app.py:68-83 | with no client, a failed account call, or no BTC entry, the balance is 0 |
| Lookups.GetSymbolLotSizeFilter | function_app.py:86-115 | the loop returns exactly the reference filter: None without a client, on a failed or unknown-symbol call, or with no symbol in the reply; otherwise the parsed first LOT_SIZE filter of the first symbol, or None |
| Lookups.LotSizeIsFirstMatch | function_app.py:101-107 | the answer is the parse of the first LOT_SIZE entry, so a malformed first entry gives None even if a later entry is well formed |
| Lookups.LotSizeFallback | function_app.py:108-109 | a filter list with no LOT_SIZE entry gives None |
| LotSizeRounding.TruncDiv | function_app.py:141 | Decimal integer division: the result has the sign of x / y and its magnitude is the floor of abs(x / y) |
| LotSizeRounding.TruncStepBounds | function_app.py:141 | for x >= 0, (x // y) * y lies in (x - abs(y), x] and is not negative |
| LotSizeRounding.AdjustQuantityToLotSize | function_app.py:118-143 | 0 below minQty; otherwise (for a non-negative quantity) a value in [0, quantity] within one step of the quantity, so it never rounds up |
| LotSizeRounding.AdjustIsOnGrid | function_app.py:135-141 | once minQty is met, the result is a whole number of steps |
| LotSizeRounding.AdjustIsFloor | function_app.py:135-141 | with a positive step, the result is floor(quantity / stepSize) * stepSize |
| LotSizeRounding.AdjustIsGreatestMultiple | function_app.py:135-141 | every multiple of the step not above the quantity is at most the result, so the result is the largest grid quantity not above the input |
| LotSizeRounding.AdjustFixesAligned | function_app.py:132-141 | a quantity on the step grid and not below minQty is returned unchanged |
| LotSizeRounding.AdjustIdempotent | function_app.py:132-141 | adjusting twice equals adjusting once, provided the first result is not below minQty |
| LotSizeRounding.AdjustAgainBelowMin | function_app.py:132-143 | a first result below minQty becomes 0 on a second call |
| LotSizeRounding.AdjustMonotone | function_app.py:132-141 | q1 <= q2 implies adjust(q1) <= adjust(q2), for any non-zero step and non-negative minQty |
| LotSizeRounding.FlooredBelowMinQty | function_app.py:132-143 | minQty 1.5, step 1: 1.7 adjusts to 1.0, below minQty, and 1.0 adjusts to 0 |
| LotSizeRounding.WorkedExamples | function_app.py:118-143 | 0.123456 on a 0.00001 grid gives 0.12345; 0.0009 under minQty 0.001 gives 0; 0.0015 on a 0.001 grid gives 0.001 |
| OrderFlow.InlineFloorIsAdjust | function_app.py:185 | the flooring written out in sell_all_btc equals adjust_quantity_to_lot_size when the balance is not below minQty |
| OrderFlow.SellAllBtc | function_app.py:146-211 | at most one order. An order is sent if and only if all of these hold: there is a client, the balance is positive, a LOT_SIZE filter exists, the balance is at least minQty, the step is non-zero, and the adjusted quantity is at least minQty and positive. The order is a MARKET SELL of BTCUSDT whose quantity equals adjust(balance): at least minQty, positive, at most the balance, within one step of it, and on the step grid. A zero step raises, with no order |
| OrderFlow.BuyBtcWithUsdt | function_app.py:214-253 | exactly one MARKET BUY of BTCUSDT with quoteOrderQty equal to the amount if there is a client and the amount is positive, otherwise none. The min-notional warning is raised if and only if there is a client and the amount is below 5.0, and it never blocks the order |

## Left out

- The HTTP trigger `trigger_bot` (function_app.py:25-52) is routing, JSON
  output and the response object. It is I/O plumbing, and it also calls
  `account()` on a possibly absent client.
- `initialize_client` (function_app.py:55-60) compares placeholder strings
  and builds the foreign `Spot` client. The model takes the client as an
  `Option`.
- The connector calls `account`, `exchange_info` and `new_order` are
  foreign code. They appear as reply data, and a submitted order is
  recorded in `orders`. The response of `new_order` and its exceptions are
  only logged, so an order counts as sent whether the exchange accepts it
  or not.
- Logging has no effect beyond which guard returned. The single exception
  is the buy flow's min-notional warning, modelled as `notionalWarning`.
- Binary floats are modelled as exact reals:
  - `float(asset_balance['free'])` at line 75,
  - `Decimal(str(float))` at lines 160 and 226,
  - the float `quoteOrderQty` at line 243.
  Rounding in these conversions is not modelled.
- Decimal's 28-digit context precision and its `DivisionImpossible` error
  are not modelled.
- Decimal and float special values (NaN, Infinity) are not modelled.
- The text that `str(quantity_to_sell)` sends (for example exponent
  notation) is not modelled. The order carries the exact value.
- A reply entry missing its `asset` or `filterType` key would raise
  `KeyError`, which falls back to 0 or None. The model's entries always
  have these keys.
- The LOT_SIZE filter's `maxQty` is parsed and carried but, as in the
  source, never checked.
