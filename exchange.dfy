/** The data the trading function exchanges with the Binance spot API:
    the replies of the `account` and `exchange_info` endpoints, as far as
    the bot reads them, and the MARKET orders it submits.  The client is
    plain data here: an absent client is `None`, a failed call is `Err`. */
module Exchange {

  datatype Option<+T> = None | Some(value: T)

  /** How a call into the connector failed; the bot catches all three and
      treats them alike. */
  datatype ErrorKind = ClientError | ServerError | Unexpected

  datatype Reply<+T> = Ok(value: T) | Err(error: ErrorKind)

  /** One entry of `balances`.  `free` is `None` when the string the
      exchange sent does not parse as a number. */
  datatype AssetBalance = AssetBalance(asset: string, free: Option<real>)

  /** The `account` reply; a reply without a `balances` list reads as an
      empty one. */
  datatype AccountInfo = AccountInfo(balances: seq<AssetBalance>)

  /** One entry of a symbol's `filters`.  Each numeric field is `None` when
      it is missing or does not parse as a decimal. */
  datatype RawFilter = RawFilter(
    filterType: string,
    minQty: Option<real>,
    maxQty: Option<real>,
    stepSize: Option<real>)

  datatype SymbolInfo = SymbolInfo(filters: seq<RawFilter>)

  /** The `exchange_info` reply for one symbol. */
  datatype ExchangeInfo = ExchangeInfo(symbols: seq<SymbolInfo>)

  /** A connected Spot client, as the snapshot of what its two queries
      answer.  A symbol missing from `exchangeInfo` stands for a symbol the
      exchange rejects. */
  datatype Client = Client(
    account: Reply<AccountInfo>,
    exchangeInfo: map<string, Reply<ExchangeInfo>>)

  /** The LOT_SIZE filter as the bot keeps it, with exact decimals. */
  datatype LotSize = LotSize(minQty: real, maxQty: real, stepSize: real)

  datatype Side = Buy | Sell

  datatype OrderType = Market

  /** A market order is sized either in the base asset or, for a buy, by
      the amount of quote currency to spend. */
  datatype OrderSize = Quantity(quantity: real) | QuoteOrderQty(quote: real)

  datatype Order = Order(symbol: string, side: Side, orderType: OrderType, size: OrderSize)

  /** The one trading pair the bot is configured for. */
  const SYMBOL: string := "BTCUSDT"
}
