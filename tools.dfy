/**
 * The four tools end to end: the query's reply goes through `execute_query`
 * as written and the resulting payload through the tool's normaliser.
 */
module Tools {
  import opened PyJson
  import QueryClient
  import TrendingTokens
  import BondingCurve
  import LatestTrades
  import MigrationStatus

  function TrendingTool(
    apiKey: string, reply: QueryClient.HttpReply, limit: int, pyStr: Json -> string): (r: TrendingTokens.TrendingResult)
    ensures !QueryClient.Decoded(apiKey, reply) ==>
      r == TrendingTokens.TrendingFailed([], Lookup(QueryClient.ExecuteQuery(apiKey, reply), "error").value)
  {
    TrendingTokens.TrendingTokensSpec(QueryClient.ExecuteQuery(apiKey, reply), limit, pyStr)
  }

  function BondingTool(apiKey: string, reply: QueryClient.HttpReply, tokenAddress: string): (r: BondingCurve.BondingResult)
    ensures r.tokenAddress == tokenAddress
    ensures !QueryClient.Decoded(apiKey, reply) ==> r == BondingCurve.BondingFailed(
      tokenAddress, 0.0, BondingCurve.Unknown, Lookup(QueryClient.ExecuteQuery(apiKey, reply), "error").value)
  {
    BondingCurve.BondingCurveProgress(tokenAddress, QueryClient.ExecuteQuery(apiKey, reply))
  }

  function TradesTool(
    apiKey: string, reply: QueryClient.HttpReply, tokenAddress: string, limit: int, pyStr: Json -> string)
    : (r: LatestTrades.TradesResult)
    ensures r.tokenAddress == tokenAddress
    ensures !QueryClient.Decoded(apiKey, reply) ==>
      r == LatestTrades.TradesFailed(tokenAddress, [], Lookup(QueryClient.ExecuteQuery(apiKey, reply), "error").value)
  {
    LatestTrades.LatestTradesSpec(tokenAddress, limit, QueryClient.ExecuteQuery(apiKey, reply), pyStr)
  }

  function MigrationTool(
    apiKey: string, reply: QueryClient.HttpReply, tokenAddress: string): (r: MigrationStatus.MigrationResult)
    ensures r.tokenAddress == tokenAddress
    ensures !QueryClient.Decoded(apiKey, reply) ==> r == MigrationStatus.MigrationFailed(
      tokenAddress, false, [], Lookup(QueryClient.ExecuteQuery(apiKey, reply), "error").value)
  {
    MigrationStatus.MigrationStatusSpec(tokenAddress, QueryClient.ExecuteQuery(apiKey, reply))
  }

  /** Without an API key every tool returns its error record carrying the missing-key message. */
  lemma NoKeyReportedByEveryTool(reply: QueryClient.HttpReply, tokenAddress: string, limit: int, pyStr: Json -> string)
    ensures TrendingTool("", reply, limit, pyStr) ==
      TrendingTokens.TrendingFailed([], Str(QueryClient.MissingKeyError))
    ensures BondingTool("", reply, tokenAddress) ==
      BondingCurve.BondingFailed(tokenAddress, 0.0, BondingCurve.Unknown, Str(QueryClient.MissingKeyError))
    ensures TradesTool("", reply, tokenAddress, limit, pyStr) ==
      LatestTrades.TradesFailed(tokenAddress, [], Str(QueryClient.MissingKeyError))
    ensures MigrationTool("", reply, tokenAddress) ==
      MigrationStatus.MigrationFailed(tokenAddress, false, [], Str(QueryClient.MissingKeyError))
  {
  }

  /** A non-200 reply reaches every tool as its error record with the status code and body. */
  lemma HttpStatusReportedByEveryTool(
    apiKey: string, statusCode: int, text: string, decoded: Option<Dict>,
    tokenAddress: string, limit: int, pyStr: Json -> string)
    requires apiKey != "" && statusCode != 200
    ensures var reply := QueryClient.Reply(statusCode, text, decoded);
      var message := Str("HTTP " + IntToDecimal(statusCode) + ": " + text);
      TrendingTool(apiKey, reply, limit, pyStr) == TrendingTokens.TrendingFailed([], message) &&
      BondingTool(apiKey, reply, tokenAddress) ==
        BondingCurve.BondingFailed(tokenAddress, 0.0, BondingCurve.Unknown, message) &&
      TradesTool(apiKey, reply, tokenAddress, limit, pyStr) == LatestTrades.TradesFailed(tokenAddress, [], message) &&
      MigrationTool(apiKey, reply, tokenAddress) == MigrationStatus.MigrationFailed(tokenAddress, false, [], message)
  {
  }

  /**
   * A GraphQL error reply, `{"errors": [...]}` without `data`, is not recognised as an
   * error (the tools test for the key "error"): every lookup defaults, so the tools
   * report no tokens, no trades, an early curve and "bonding curve only".
   */
  lemma GraphQLErrorsLookLikeNoData(
    apiKey: string, text: string, errors: Json, tokenAddress: string, limit: int, pyStr: Json -> string)
    requires apiKey != "" && !QueryClient.IsBlank(text)
    ensures var reply := QueryClient.Reply(200, text, Some([("errors", errors)]));
      TrendingTool(apiKey, reply, limit, pyStr) == TrendingTokens.Trending([], 0) &&
      BondingTool(apiKey, reply, tokenAddress) ==
        BondingCurve.NoTransfers(tokenAddress, 0.0, BondingCurve.Early, BondingCurve.NoTransfersMessage) &&
      TradesTool(apiKey, reply, tokenAddress, limit, pyStr) == LatestTrades.Trades(tokenAddress, [], 0) &&
      MigrationTool(apiKey, reply, tokenAddress) == MigrationStatus.BondingCurveOnly(
        tokenAddress, false, MigrationStatus.BondingOnlyStatus, [], MigrationStatus.BondingOnlyMessage)
  {
    var payload := [("errors", errors)];
    assert Lookup(payload, "error") == None;
    assert GetPath(Obj(payload), TrendingTokens.RowsPath, EmptyList) == Ok(EmptyList);
    assert GetPath(Obj(payload), BondingCurve.TransfersPath, EmptyList) == Ok(EmptyList);
    assert GetPath(Obj(payload), LatestTrades.RowsPath, EmptyList) == Ok(EmptyList);
  }
}
