/**
 * The response normalisation of `get_trending_tokens`: the upstream rows, cut to
 * `limit`, become ranked token summaries; an upstream error is passed through and
 * any exception while reading the rows becomes the error variant.
 */
module TrendingTokens {
  import opened PyJson

  datatype TokenSummary = TokenSummary(
    rank: int,
    tokenAddress: Json,
    symbol: Json,
    name: Json,
    tradeCount: Json,
    volume24hrUsd: string)

  /** `{"trending_tokens": ..., "total_found": ...}` or `{"trending_tokens": [], "error": ...}`. */
  datatype TrendingResult =
    | Trending(trendingTokens: seq<TokenSummary>, totalFound: int)
    | TrendingFailed(trendingTokens: seq<TokenSummary>, error: Json)

  const ParseFailurePrefix := "Failed to parse API response: "

  const RowsPath := ["data", "EVM", "DEXTradeByTokens"]

  /**
   * The summary of the row at position `index`. The lookups raise in the order Python evaluates them:
   * `.get` on the row, on its `Trade` value, then on the `Currency` value; every
   * later `.get` on one of those dicts is a plain read with its default.
   */
  function Summarize(row: Json, index: nat, pyStr: Json -> string): (r: Result<TokenSummary>)
    ensures !row.Obj? ==> r == Raised(NoAttribute(TypeName(row), "get"))
    ensures r.Ok? ==> r.value.rank == index + 1
  {
    var rowFields :- AsDict(row);
    var tradeFields :- AsDict(LookupOr(rowFields, "Trade", EmptyObj));
    var tokenInfo := LookupOr(tradeFields, "Currency", EmptyObj);
    var tradeCount := LookupOr(rowFields, "trades_24hr", Zero);
    var volume := LookupOr(rowFields, "volume_24hr", Zero);
    var currency :- AsDict(tokenInfo);
    Ok(TokenSummary(
      index + 1,
      LookupOr(currency, "SmartContract", EmptyStr),
      LookupOr(currency, "Symbol", EmptyStr),
      LookupOr(currency, "Name", EmptyStr),
      tradeCount,
      pyStr(volume)))
  }

  /** The loop body: append the summary of the current row. */
  function SummaryStep(pyStr: Json -> string): (seq<TokenSummary>, nat, Json) -> Result<seq<TokenSummary>>
  {
    AppendStep((i: nat, row: Json) => Summarize(row, i, pyStr))
  }

  /** `enumerate(trades_data[:limit])` after the chained lookups that find `trades_data`. */
  function TrendingRows(payload: Dict, limit: int): Result<seq<Json>>
  {
    var tradesData :- GetPath(Obj(payload), RowsPath, EmptyList);
    var kept :- Slice(tradesData, limit);
    Iterate(kept)
  }

  /** Everything inside the `try` block. */
  function ParseTrending(payload: Dict, limit: int, pyStr: Json -> string): Result<seq<TokenSummary>>
  {
    var rows :- TrendingRows(payload, limit);
    Fold(rows, [], SummaryStep(pyStr))
  }

  /** The record `get_trending_tokens` returns for the payload the query produced. */
  function TrendingTokensSpec(payload: Dict, limit: int, pyStr: Json -> string): (r: TrendingResult)
    ensures r.TrendingFailed? ==> r.trendingTokens == []
    ensures r.Trending? ==> r.totalFound == |r.trendingTokens|
    ensures HasKey(payload, "error") ==> r == TrendingFailed([], Lookup(payload, "error").value)
  {
    match Lookup(payload, "error")
    case Some(e) => TrendingFailed([], e)
    case None =>
      match ParseTrending(payload, limit, pyStr)
      case Ok(tokens) => Trending(tokens, |tokens|)
      case Raised(x) => TrendingFailed([], Str(ParseFailurePrefix + Message(x)))
  }

  /** The normalisation as `get_trending_tokens` runs it: one `append` per enumerated row. */
  method GetTrendingTokens(payload: Dict, limit: int, pyStr: Json -> string) returns (r: TrendingResult)
    ensures r == TrendingTokensSpec(payload, limit, pyStr)
  {
    var upstreamError := Lookup(payload, "error");
    if upstreamError.Some? {
      return TrendingFailed([], upstreamError.value);
    }
    var rows := TrendingRows(payload, limit);
    if rows.Raised? {
      return TrendingFailed([], Str(ParseFailurePrefix + Message(rows.exc)));
    }
    var tradeRows := rows.value;
    var trendingTokens: seq<TokenSummary> := [];
    var i := 0;
    while i < |tradeRows|
      invariant i <= |tradeRows|
      invariant Fold(tradeRows[..i], [], SummaryStep(pyStr)) == Ok(trendingTokens)
    {
      var summary := Summarize(tradeRows[i], i, pyStr);
      if summary.Raised? {
        FoldStopsAt(tradeRows, i, [], SummaryStep(pyStr), trendingTokens, summary.exc);
        return TrendingFailed([], Str(ParseFailurePrefix + Message(summary.exc)));
      }
      FoldExtend(tradeRows, i, [], SummaryStep(pyStr), trendingTokens);
      trendingTokens := trendingTokens + [summary.value];
      i := i + 1;
    }
    assert tradeRows[..i] == tradeRows;
    r := Trending(trendingTokens, |trendingTokens|);
  }

  /** A loop that did not raise kept one summary per row, in row order. */
  lemma SummariesFollowRows(rows: seq<Json>, pyStr: Json -> string)
    requires Fold(rows, [], SummaryStep(pyStr)).Ok?
    ensures var tokens := Fold(rows, [], SummaryStep(pyStr)).value;
      |tokens| == |rows| &&
      forall i :: 0 <= i < |rows| ==> Summarize(rows[i], i, pyStr) == Ok(tokens[i])
  {
    AppendLoopOk(rows, (i: nat, row: Json) => Summarize(row, i, pyStr));
  }

  /** The loop raises only when some row does. */
  lemma SummariesSucceed(rows: seq<Json>, pyStr: Json -> string)
    requires forall i :: 0 <= i < |rows| ==> Summarize(rows[i], i, pyStr).Ok?
    ensures Fold(rows, [], SummaryStep(pyStr)).Ok?
  {
    AppendLoopSucceeds(rows, (i: nat, row: Json) => Summarize(row, i, pyStr));
  }

  /** The number of rows `[:limit]` keeps: `min(limit, n)` for `limit >= 0`. */
  function Min(a: int, b: int): int
  {
    if a < b then a else b
  }

  /**
   * Trending length, order and rank: for `limit >= 0` the output keeps the first
   * `min(limit, #rows)` rows in order, entry `i` comes from row `i` with rank `i + 1`,
   * and `total_found` is the output length.
   */
  lemma TrendingLengthOrderRank(payload: Dict, limit: int, pyStr: Json -> string, items: seq<Json>)
    requires Lookup(payload, "error").None?
    requires GetPath(Obj(payload), RowsPath, EmptyList) == Ok(Arr(items))
    requires 0 <= limit
    requires forall i :: 0 <= i < |items| && i < limit ==> Summarize(items[i], i, pyStr).Ok?
    ensures TrendingTokensSpec(payload, limit, pyStr).Trending?
    ensures var r := TrendingTokensSpec(payload, limit, pyStr);
      r.totalFound == |r.trendingTokens| == Min(limit, |items|) &&
      forall i :: 0 <= i < |r.trendingTokens| ==>
        r.trendingTokens[i].rank == i + 1 && Summarize(items[i], i, pyStr) == Ok(r.trendingTokens[i])
  {
    var rows := items[..Min(limit, |items|)];
    KeptRows(payload, limit, items);
    SummariesSucceed(rows, pyStr);
    SummariesFollowRows(rows, pyStr);
    var tokens := Fold(rows, [], SummaryStep(pyStr)).value;
    forall i | 0 <= i < |tokens|
      ensures tokens[i].rank == i + 1
    {
      assert Summarize(rows[i], i, pyStr) == Ok(tokens[i]);
    }
  }

  /** For `limit >= 0`, `trades_data[:limit]` keeps the first `min(limit, #rows)` rows. */
  lemma KeptRows(payload: Dict, limit: int, items: seq<Json>)
    requires GetPath(Obj(payload), RowsPath, EmptyList) == Ok(Arr(items))
    requires 0 <= limit
    ensures Min(limit, |items|) <= |items|
    ensures TrendingRows(payload, limit) == Ok(items[..Min(limit, |items|)])
  {
  }

  /**
   * Trending defaults: a row whose `Trade.Currency` resolves to a dict succeeds;
   * each leaf is the upstream value when its key is present (even null) and
   * `""` / `0` when absent, and the volume is `str` of the value or of `0`.
   */
  lemma SummaryLeaves(rowFields: Dict, index: nat, pyStr: Json -> string, trade: Dict, currency: Dict)
    requires LookupOr(rowFields, "Trade", EmptyObj) == Obj(trade)
    requires LookupOr(trade, "Currency", EmptyObj) == Obj(currency)
    ensures Summarize(Obj(rowFields), index, pyStr) == Ok(TokenSummary(
      index + 1,
      LookupOr(currency, "SmartContract", EmptyStr),
      LookupOr(currency, "Symbol", EmptyStr),
      LookupOr(currency, "Name", EmptyStr),
      LookupOr(rowFields, "trades_24hr", Zero),
      pyStr(LookupOr(rowFields, "volume_24hr", Zero))))
  {
  }

  /** A row with none of the expected keys yields the all-default summary. */
  lemma EmptyRowDefaults(index: nat, pyStr: Json -> string)
    ensures Summarize(EmptyObj, index, pyStr) ==
      Ok(TokenSummary(index + 1, EmptyStr, EmptyStr, EmptyStr, Zero, pyStr(Zero)))
  {
  }

  /**
   * Shape failures: without an upstream error, the error variant arises exactly when
   * reading the rows raised, carries no tokens, and its message is the trending prefix
   * followed by the exception's text.
   */
  lemma TrendingParseFailure(payload: Dict, limit: int, pyStr: Json -> string)
    requires Lookup(payload, "error").None?
    ensures TrendingTokensSpec(payload, limit, pyStr).TrendingFailed? <==>
      ParseTrending(payload, limit, pyStr).Raised?
    ensures ParseTrending(payload, limit, pyStr).Raised? ==>
      TrendingTokensSpec(payload, limit, pyStr) ==
        TrendingFailed([], Str(ParseFailurePrefix + Message(ParseTrending(payload, limit, pyStr).exc)))
  {
  }

  /**
   * A present-but-null `data` key makes the next `.get` raise on None: the error is
   * "Failed to parse API response: 'NoneType' object has no attribute 'get'".
   */
  lemma NullDataMessage(limit: int, pyStr: Json -> string)
    ensures TrendingTokensSpec([("data", Null)], limit, pyStr) ==
      TrendingFailed([], Str(ParseFailurePrefix + Message(NoAttribute("NoneType", "get"))))
  {
    var payload := [("data", Null)];
    assert Lookup(payload, "error") == None;
    assert Get(Obj(payload), "data", EmptyObj) == Ok(Null);
    assert RowsPath[1..] == ["EVM", "DEXTradeByTokens"];
    assert GetPath(Null, RowsPath[1..], EmptyList) == Raised(NoAttribute("NoneType", "get"));
    assert TrendingRows(payload, limit) == Raised(NoAttribute("NoneType", "get"));
    assert ParseTrending(payload, limit, pyStr) == Raised(NoAttribute("NoneType", "get"));
  }

  /** With no `data` key at all every lookup defaults: no rows, no error. */
  lemma MissingDataIsEmpty(payload: Dict, limit: int, pyStr: Json -> string)
    requires !HasKey(payload, "data") && !HasKey(payload, "error")
    ensures TrendingTokensSpec(payload, limit, pyStr) == Trending([], 0)
  {
    assert GetPath(Obj(payload), RowsPath, EmptyList) == Ok(EmptyList);
  }

  /** A `data` dict without `EVM` gives no tokens either: the missing key defaults to `{}`. */
  lemma MissingEvmIsEmpty(payload: Dict, data: Dict, limit: int, pyStr: Json -> string)
    requires Lookup(payload, "data") == Some(Obj(data)) && !HasKey(data, "EVM") && !HasKey(payload, "error")
    ensures TrendingTokensSpec(payload, limit, pyStr) == Trending([], 0)
  {
    assert GetPath(Obj(payload), RowsPath, EmptyList) == Ok(EmptyList);
  }
}
