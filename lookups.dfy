/** The two queries the bot makes before ordering: the free BTC balance
    (`get_btc_balance`) and the LOT_SIZE filter of a symbol
    (`get_symbol_lot_size_filter`).  Both are first-match searches that
    fall back to a default when nothing matches or a call fails. */
module Lookups {
  import opened Exchange

  /** The position of the first element satisfying `p`, or `|s|` when
      there is none. */
  function FirstIndex<T>(s: seq<T>, p: T -> bool): (k: nat)
    ensures k <= |s|
    ensures forall j :: 0 <= j < k ==> !p(s[j])
    ensures k < |s| ==> p(s[k])
  {
    if s == [] then 0
    else if p(s[0]) then 0
    else 1 + FirstIndex(s[1..], p)
  }

  predicate IsBtcEntry(b: AssetBalance) {
    b.asset == "BTC"
  }

  predicate IsLotSizeFilter(f: RawFilter) {
    f.filterType == "LOT_SIZE"
  }

  /** The free amount of the first BTC entry; 0 when there is none or its
      amount does not parse. */
  function FreeBtc(balances: seq<AssetBalance>): real {
    var k := FirstIndex(balances, IsBtcEntry);
    if k == |balances| then 0.0
    else match balances[k].free
      case Some(v) => v
      case None => 0.0
  }

  /** What get_btc_balance answers for a client. */
  function BtcBalance(client: Option<Client>): real {
    match client
    case None => 0.0
    case Some(c) =>
      match c.account
      case Err(_) => 0.0
      case Ok(info) => FreeBtc(info.balances)
  }

  /** The three decimals of a LOT_SIZE entry, or None when one of them is
      missing or malformed (the Decimal conversion raises). */
  function ParseLotSize(f: RawFilter): Option<LotSize> {
    match (f.minQty, f.maxQty, f.stepSize)
    case (Some(minQty), Some(maxQty), Some(stepSize)) => Some(LotSize(minQty, maxQty, stepSize))
    case _ => None
  }

  /** The first LOT_SIZE entry of a filter list, parsed. */
  function FirstLotSize(filters: seq<RawFilter>): Option<LotSize> {
    var k := FirstIndex(filters, IsLotSizeFilter);
    if k == |filters| then None else ParseLotSize(filters[k])
  }

  /** What get_symbol_lot_size_filter answers for a client and a symbol:
      only the first symbol of the reply is looked at. */
  function LotSizeFilterOf(client: Option<Client>, symbol: string): Option<LotSize> {
    match client
    case None => None
    case Some(c) =>
      if symbol !in c.exchangeInfo then None
      else match c.exchangeInfo[symbol]
        case Err(_) => None
        case Ok(info) =>
          if info.symbols == [] then None
          else FirstLotSize(info.symbols[0].filters)
  }

  /** get_btc_balance (function_app.py:63-83). */
  method GetBtcBalance(client: Option<Client>) returns (balance: real)
    ensures balance == BtcBalance(client)
  {
    if client.None? {
      return 0.0;
    }
    var reply := client.value.account;
    if reply.Err? {
      return 0.0;
    }
    var balances := reply.value.balances;
    for i := 0 to |balances|
      invariant forall j :: 0 <= j < i ==> !IsBtcEntry(balances[j])
    {
      if balances[i].asset == "BTC" {
        assert FirstIndex(balances, IsBtcEntry) == i;
        match balances[i].free {
          case Some(v) => return v;
          case None => return 0.0;
        }
      }
    }
    assert FirstIndex(balances, IsBtcEntry) == |balances|;
    return 0.0;
  }

  /** get_symbol_lot_size_filter (function_app.py:86-115). */
  method GetSymbolLotSizeFilter(client: Option<Client>, symbol: string) returns (lot: Option<LotSize>)
    ensures lot == LotSizeFilterOf(client, symbol)
  {
    if client.None? || symbol !in client.value.exchangeInfo {
      return None;
    }
    var reply := client.value.exchangeInfo[symbol];
    if reply.Err? || reply.value.symbols == [] {
      return None;
    }
    var filters := reply.value.symbols[0].filters;
    for i := 0 to |filters|
      invariant forall j :: 0 <= j < i ==> !IsLotSizeFilter(filters[j])
    {
      if filters[i].filterType == "LOT_SIZE" {
        assert FirstIndex(filters, IsLotSizeFilter) == i;
        return ParseLotSize(filters[i]);
      }
    }
    assert FirstIndex(filters, IsLotSizeFilter) == |filters|;
    return None;
  }

  /** The balance is the free amount of the first BTC entry: entries before
      it are ignored, entries after it are never looked at. */
  lemma BtcBalanceIsFirstMatch(c: Client, i: nat)
    requires c.account.Ok? && i < |c.account.value.balances|
    requires c.account.value.balances[i].asset == "BTC"
    requires forall j :: 0 <= j < i ==> c.account.value.balances[j].asset != "BTC"
    ensures BtcBalance(Some(c)) == match c.account.value.balances[i].free
      case Some(v) => v
      case None => 0.0
  {
  }

  /** Without any BTC entry, or without a usable account reply, the balance
      is 0. */
  lemma BtcBalanceFallback(client: Option<Client>)
    requires client.Some? && client.value.account.Ok? ==>
      forall j :: 0 <= j < |client.value.account.value.balances| ==>
        client.value.account.value.balances[j].asset != "BTC"
    ensures BtcBalance(client) == 0.0
  {
  }

  /** The filter is the first LOT_SIZE entry of the first symbol, parsed;
      a malformed first LOT_SIZE entry gives None even if a later one is
      well formed. */
  lemma LotSizeIsFirstMatch(filters: seq<RawFilter>, i: nat)
    requires i < |filters| && filters[i].filterType == "LOT_SIZE"
    requires forall j :: 0 <= j < i ==> filters[j].filterType != "LOT_SIZE"
    ensures FirstLotSize(filters) == ParseLotSize(filters[i])
  {
  }

  /** A filter list without any LOT_SIZE entry gives None. */
  lemma LotSizeFallback(filters: seq<RawFilter>)
    requires forall j :: 0 <= j < |filters| ==> filters[j].filterType != "LOT_SIZE"
    ensures FirstLotSize(filters) == None
  {
  }
}
