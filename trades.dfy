/**
 * The response normalisation of `get_latest_trades`: one flat trade record per
 * upstream row, in upstream order, with `""` / `0` defaults and stringified amounts.
 */
module LatestTrades {
  import opened PyJson

  datatype TradeRecord = TradeRecord(
    transactionHash: Json,
    timestamp: Json,
    blockNumber: Json,
    buyer: Json,
    seller: Json,
    buyAmount: string,
    sellAmount: string,
    priceUsd: string,
    buyToken: Json,
    sellToken: Json)

  /**
   * `{"token_address", "trades", "total_trades"}` or
   * `{"token_address", "trades": [], "error"}`.
   */
  datatype TradesResult =
    | Trades(tokenAddress: string, trades: seq<TradeRecord>, totalTrades: int)
    | TradesFailed(tokenAddress: string, trades: seq<TradeRecord>, error: Json)

  const ParseFailurePrefix := "Failed to parse response: "

  const RowsPath := ["data", "EVM", "DEXTrades"]

  /**
   * The record for one row. The first `.get` on each value (the row, its `Trade`,
   * `Transaction`, `Block`, `Buy`, `Sell`, and the two `Currency` values) raises
   * unless it is a dict, in the order Python evaluates them; the other lookups are dict reads.
   * `price_usd` is read from `Buy.AmountInUSD`.
   */
  function TradeOf(row: Json, pyStr: Json -> string): (r: Result<TradeRecord>)
    ensures !row.Obj? ==> r == Raised(NoAttribute(TypeName(row), "get"))
    ensures row == EmptyObj ==> r == Ok(TradeRecord(EmptyStr, EmptyStr, Zero, EmptyStr, EmptyStr,
      pyStr(Zero), pyStr(Zero), pyStr(Zero), EmptyStr, EmptyStr))
  {
    var rowFields :- AsDict(row);
    var tradeInfo :- AsDict(LookupOr(rowFields, "Trade", EmptyObj));
    var buyInfo := LookupOr(tradeInfo, "Buy", EmptyObj);
    var sellInfo := LookupOr(tradeInfo, "Sell", EmptyObj);
    var transaction :- AsDict(LookupOr(rowFields, "Transaction", EmptyObj));
    var block :- AsDict(LookupOr(rowFields, "Block", EmptyObj));
    var buy :- AsDict(buyInfo);
    var sell :- AsDict(sellInfo);
    var buyCurrency :- AsDict(LookupOr(buy, "Currency", EmptyObj));
    var sellCurrency :- AsDict(LookupOr(sell, "Currency", EmptyObj));
    Ok(TradeRecord(
      LookupOr(transaction, "Hash", EmptyStr),
      LookupOr(block, "Time", EmptyStr),
      LookupOr(block, "Number", Zero),
      LookupOr(buy, "Buyer", EmptyStr),
      LookupOr(sell, "Seller", EmptyStr),
      pyStr(LookupOr(buy, "Amount", Zero)),
      pyStr(LookupOr(sell, "Amount", Zero)),
      pyStr(LookupOr(buy, "AmountInUSD", Zero)),
      LookupOr(buyCurrency, "Symbol", EmptyStr),
      LookupOr(sellCurrency, "Symbol", EmptyStr)))
  }

  function TradeRow(pyStr: Json -> string): (nat, Json) -> Result<TradeRecord>
  {
    (i: nat, row: Json) => TradeOf(row, pyStr)
  }

  /** Everything inside the `try` block: the lookups that find `trades_data`, then the loop. */
  function ParseTrades(payload: Dict, pyStr: Json -> string): Result<seq<TradeRecord>>
  {
    var tradesData :- GetPath(Obj(payload), RowsPath, EmptyList);
    var rows :- Iterate(tradesData);
    Fold(rows, [], AppendStep(TradeRow(pyStr)))
  }

  /**
   * The record `get_latest_trades` returns. `limit` only parameterises the upstream
   * query; the normalisation does not look at it.
   */
  function LatestTradesSpec(tokenAddress: string, limit: int, payload: Dict, pyStr: Json -> string): (r: TradesResult)
    ensures r.tokenAddress == tokenAddress
    ensures r.TradesFailed? ==> r.trades == []
    ensures r.Trades? ==> r.totalTrades == |r.trades|
    ensures HasKey(payload, "error") ==> r == TradesFailed(tokenAddress, [], Lookup(payload, "error").value)
  {
    match Lookup(payload, "error")
    case Some(e) => TradesFailed(tokenAddress, [], e)
    case None =>
      match ParseTrades(payload, pyStr)
      case Ok(trades) => Trades(tokenAddress, trades, |trades|)
      case Raised(x) => TradesFailed(tokenAddress, [], Str(ParseFailurePrefix + Message(x)))
  }

  /** The normalisation as `get_latest_trades` runs it: one `append` per row. */
  method GetLatestTrades(tokenAddress: string, limit: int, payload: Dict, pyStr: Json -> string) returns (r: TradesResult)
    ensures r == LatestTradesSpec(tokenAddress, limit, payload, pyStr)
  {
    var upstreamError := Lookup(payload, "error");
    if upstreamError.Some? {
      return TradesFailed(tokenAddress, [], upstreamError.value);
    }
    var tradesData := GetPath(Obj(payload), RowsPath, EmptyList);
    if tradesData.Raised? {
      return TradesFailed(tokenAddress, [], Str(ParseFailurePrefix + Message(tradesData.exc)));
    }
    var rows := Iterate(tradesData.value);
    if rows.Raised? {
      return TradesFailed(tokenAddress, [], Str(ParseFailurePrefix + Message(rows.exc)));
    }
    var tradeRows := rows.value;
    ghost var step := AppendStep(TradeRow(pyStr));
    var trades: seq<TradeRecord> := [];
    var i := 0;
    while i < |tradeRows|
      invariant i <= |tradeRows|
      invariant Fold(tradeRows[..i], [], step) == Ok(trades)
    {
      var trade := TradeOf(tradeRows[i], pyStr);
      if trade.Raised? {
        FoldStopsAt(tradeRows, i, [], step, trades, trade.exc);
        return TradesFailed(tokenAddress, [], Str(ParseFailurePrefix + Message(trade.exc)));
      }
      FoldExtend(tradeRows, i, [], step, trades);
      trades := trades + [trade.value];
      i := i + 1;
    }
    assert tradeRows[..i] == tradeRows;
    r := Trades(tokenAddress, trades, |trades|);
  }

  /**
   * Exactly one record per upstream row, in upstream order, no truncation by
   * `limit`, and `total_trades` is the count; the record fails to appear only
   * when some row raised.
   */
  lemma OneRecordPerRow(tokenAddress: string, limit: int, payload: Dict, pyStr: Json -> string, items: seq<Json>)
    requires Lookup(payload, "error").None?
    requires GetPath(Obj(payload), RowsPath, EmptyList) == Ok(Arr(items))
    requires forall i :: 0 <= i < |items| ==> TradeOf(items[i], pyStr).Ok?
    ensures LatestTradesSpec(tokenAddress, limit, payload, pyStr).Trades?
    ensures var r := LatestTradesSpec(tokenAddress, limit, payload, pyStr);
      r.totalTrades == |r.trades| == |items| &&
      forall i :: 0 <= i < |items| ==> TradeOf(items[i], pyStr) == Ok(r.trades[i])
  {
    AppendLoopSucceeds(items, TradeRow(pyStr));
    AppendLoopOk(items, TradeRow(pyStr));
  }

  /** The normalisation ignores `limit`: the upstream alone applies it. */
  lemma LimitNotApplied(tokenAddress: string, limit1: int, limit2: int, payload: Dict, pyStr: Json -> string)
    ensures LatestTradesSpec(tokenAddress, limit1, payload, pyStr) == LatestTradesSpec(tokenAddress, limit2, payload, pyStr)
  {
  }

  /**
   * Trade defaults: every leaf is the upstream value when present and `""` / `0`
   * when absent; the amounts and the USD price are `str` of the value or of `0`.
   */
  lemma TradeLeaves(
    rowFields: Dict, pyStr: Json -> string,
    tradeInfo: Dict, transaction: Dict, block: Dict, buy: Dict, sell: Dict, buyCurrency: Dict, sellCurrency: Dict)
    requires LookupOr(rowFields, "Trade", EmptyObj) == Obj(tradeInfo)
    requires LookupOr(rowFields, "Transaction", EmptyObj) == Obj(transaction)
    requires LookupOr(rowFields, "Block", EmptyObj) == Obj(block)
    requires LookupOr(tradeInfo, "Buy", EmptyObj) == Obj(buy)
    requires LookupOr(tradeInfo, "Sell", EmptyObj) == Obj(sell)
    requires LookupOr(buy, "Currency", EmptyObj) == Obj(buyCurrency)
    requires LookupOr(sell, "Currency", EmptyObj) == Obj(sellCurrency)
    ensures TradeOf(Obj(rowFields), pyStr) == Ok(TradeRecord(
      LookupOr(transaction, "Hash", EmptyStr),
      LookupOr(block, "Time", EmptyStr),
      LookupOr(block, "Number", Zero),
      LookupOr(buy, "Buyer", EmptyStr),
      LookupOr(sell, "Seller", EmptyStr),
      pyStr(LookupOr(buy, "Amount", Zero)),
      pyStr(LookupOr(sell, "Amount", Zero)),
      pyStr(LookupOr(buy, "AmountInUSD", Zero)),
      LookupOr(buyCurrency, "Symbol", EmptyStr),
      LookupOr(sellCurrency, "Symbol", EmptyStr)))
  {
  }

  /** A row with none of the expected keys yields the all-default record. */
  lemma EmptyRowDefaults(pyStr: Json -> string)
    ensures TradeOf(EmptyObj, pyStr) == Ok(TradeRecord(
      EmptyStr, EmptyStr, Zero, EmptyStr, EmptyStr, pyStr(Zero), pyStr(Zero), pyStr(Zero), EmptyStr, EmptyStr))
  {
  }

  /**
   * Shape failures: without an upstream error, the error variant arises exactly when
   * parsing raised, and carries "Failed to parse response: " and the exception's text.
   */
  lemma TradesParseFailure(tokenAddress: string, limit: int, payload: Dict, pyStr: Json -> string)
    requires Lookup(payload, "error").None?
    ensures LatestTradesSpec(tokenAddress, limit, payload, pyStr).TradesFailed? <==>
      ParseTrades(payload, pyStr).Raised?
    ensures ParseTrades(payload, pyStr).Raised? ==>
      LatestTradesSpec(tokenAddress, limit, payload, pyStr) ==
        TradesFailed(tokenAddress, [], Str(ParseFailurePrefix + Message(ParseTrades(payload, pyStr).exc)))
  {
  }

  /** A payload with neither `data` nor `error` gives no trades: the missing key defaults to `{}`. */
  lemma MissingDataIsEmpty(tokenAddress: string, limit: int, payload: Dict, pyStr: Json -> string)
    requires !HasKey(payload, "data") && !HasKey(payload, "error")
    ensures LatestTradesSpec(tokenAddress, limit, payload, pyStr) == Trades(tokenAddress, [], 0)
  {
  }
}
