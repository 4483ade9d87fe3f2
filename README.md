# MCP4Meme response normalisers in Dafny

MCP4Meme is a FastMCP server with four tools for Four.meme tokens on BNB Smart Chain.
Each tool sends one GraphQL query to Bitquery and turns the JSON payload it gets back into a record of fixed shape:

- `get_trending_tokens`: ranked token summaries.
- `get_bonding_curve_progress`: a placeholder progress value and its graduation status.
- `get_latest_trades`: flat per-trade records.
- `get_token_migration_status`: the distinct DEX pairs a token trades on, and whether it has left the bonding curve.

This project models that normalisation and proves what it guarantees. The payload is an abstract decoded JSON value.

- `json.dfy` (module `PyJson`) is the JSON value and the Python operations the normalisers apply to it:
  - `dict.get` with its default, which raises `AttributeError` on a value that is not a dict;
  - truthiness; `x[:n]`; `x[0]`; iteration;
  - `str(int)`;
  - the exceptions these operations raise, with their `str(e)` text;
  - a generic model of a `for` loop whose body may raise (`Fold`).
- `trending.dfy`, `bonding.dfy`, `trades.dfy` and `migration.dfy` model the four normalisers. Each has:
  - a function giving the record for a payload (`TrendingTokensSpec`, `BondingCurveProgress`, `LatestTradesSpec`, `MigrationStatusSpec`);
  - for the three tools that loop, a method whose `while` loop does what the Python `for` loop does, proved to return what that function gives;
  - lemmas stating the properties of the record.
- `query_client.dfy` (module `QueryClient`) models the decision order of `BitqueryClient.execute_query` over an abstract reply: first the API key, then a transport exception, the status code, a blank body, and a body that does not decode. It models both the code as written and the behaviour its handler evidently intends (see Findings).
- `tools.dfy` composes `execute_query` as written with each normaliser. By `QueryClient.VariantsAgreeElsewhere`, the intended form would give the same records on every reply except an accepted body that does not decode.

Two details of the code's behaviour are easy to misread; the model follows the code:
- A key that is present with value `null` does not raise by itself. `d.get(k, {})` returns that `None`, and only the next `.get` applied to it raises `'NoneType' object has no attribute 'get'`. When nothing is applied to it (for example `trade_count` or `timestamp`), the `null` is carried into the record.
- The progress of the error record and of the "no transfers" record is the Python `int` 0. The model uses the exact real `0.0`.

## Model

| member | source | states |
|---|---|---|
| PyJson.Lookup | mcp_server.py:130 | `None` exactly when no entry has the key; otherwise the value of the first entry with that key (`"error" in result`, `result["error"]`) |
| PyJson.Get | mcp_server.py:145 | `.get` raises exactly on a non-dict, with `'T' object has no attribute 'get'`; it gives the default exactly when the key is absent, and the stored value (even null) when present |
| PyJson.GetPath | mcp_server.py:145 | a chain of `.get` calls can raise only `AttributeError` for `get`, and raises at the first call when the value is not a dict; on `{}`, or on a dict without the first key, it yields the final default |
| PyJson.AsDict | mcp_server.py:148 | the first `.get` on a value succeeds exactly when the value is a dict |
| PyJson.GetIsAsDictThenRead | mcp_server.py:148 | `.get` is that check followed by a plain dict read with the default |
| PyJson.SliceStop | mcp_server.py:147 | `x[:stop]` never keeps more elements than there are |
| PyJson.Slice | mcp_server.py:147 | `x[:n]` succeeds exactly on a list or a string; on a list with `n >= 0` it keeps a prefix of length `min(n, len)` |
| PyJson.First | mcp_server.py:250 | `x[0]` succeeds exactly on a non-empty list or string; on a list it is the first item |
| PyJson.FalsyValues | mcp_server.py:236 | `not x` (`Truthy`) holds exactly for `None`, `False`, `0`, `0.0`, `""`, `[]` and `{}`, as at mcp_server.py:458 and 475 too |
| PyJson.Iterate | mcp_server.py:354 | iteration raises `TypeError` exactly on `None`, a bool or a number; when it succeeds it yields nothing exactly on a falsy value; a list yields its items |
| PyJson.Fold | mcp_server.py:147-161 | a loop over no rows ends in its initial state and raises nothing; FoldExtend and FoldStopsAt state what each further iteration does |
| PyJson.FoldExtend | mcp_server.py:147-161 | a loop that has not raised takes one more iteration on the next row |
| PyJson.FoldStopsAt | mcp_server.py:163-169 | an exception in iteration `i` is the outcome of the whole loop, and later rows are never visited |
| PyJson.AppendLoopOk | mcp_server.py:142-161 | an appending loop that did not raise built one item per row, item `i` from row `i` |
| PyJson.AppendLoopSucceeds | mcp_server.py:142-161 | an appending loop raises only if the body raises on some row |
| PyJson.Message | mcp_server.py:168 | `str(e)` of every exception the normalisers meet is non-empty, so a parse-failure message always carries more than its prefix |
| PyJson.NatToDecimal | mcp_server.py:46 | `str` of a non-negative int is a non-empty string of decimal digits |
| PyJson.IntToDecimal | mcp_server.py:46 | `str` of an int is non-empty |
| PyJson.DecimalRoundTrip | mcp_server.py:46 | `int(str(n)) == n`: the status code is rendered without loss |
| TrendingTokens.GetTrendingTokens | mcp_server.py:130-174 | the loop returns exactly `TrendingTokensSpec`: error passthrough, the summaries of the kept rows, or the parse-failure record |
| TrendingTokens.TrendingTokensSpec | mcp_server.py:130-174 | an upstream `error` is passed through; the error variant has no tokens; `total_found` is the number of tokens. The other properties are the lemmas below |
| TrendingTokens.Summarize | mcp_server.py:148-160 | a row that is not a dict raises `'T' object has no attribute 'get'`; a summary carries rank `index + 1` |
| TrendingTokens.SummariesFollowRows | mcp_server.py:147-161 | a loop that did not raise kept one summary per row, in row order |
| TrendingTokens.SummariesSucceed | mcp_server.py:147-161 | the loop raises only when some row's summary does |
| TrendingTokens.KeptRows | mcp_server.py:147 | for `limit >= 0`, `[:limit]` keeps the first `min(limit, #rows)` rows |
| TrendingTokens.TrendingLengthOrderRank | mcp_server.py:147-173 | for `limit >= 0` the output has `min(limit, #rows)` entries; entry `i` comes from row `i` with `rank = i + 1`; `total_found` is the output length |
| TrendingTokens.SummaryLeaves | mcp_server.py:148-160 | each leaf is the upstream value when its key is present and `""` / `0` when absent; the volume is `str` of the value or of `0` |
| TrendingTokens.EmptyRowDefaults | mcp_server.py:148-160 | an empty row gives the all-default summary |
| TrendingTokens.TrendingParseFailure | mcp_server.py:163-169 | without an upstream error, the error variant arises exactly when parsing raised; it carries `Failed to parse API response: ` and the exception text |
| TrendingTokens.NullDataMessage | mcp_server.py:145 | `{"data": null}` gives `Failed to parse API response: 'NoneType' object has no attribute 'get'` |
| TrendingTokens.MissingDataIsEmpty | mcp_server.py:145-174 | every payload with neither `data` nor `error` gives no tokens and `total_found` 0: the missing `data` key defaults and does not raise |
| TrendingTokens.MissingEvmIsEmpty | mcp_server.py:145-174 | a `data` dict without `EVM` (and no `error`) also gives no tokens and `total_found` 0 |
| BondingCurve.StatusOf | mcp_server.py:248 | the status is early below 50, active below 90, approaching_graduation below 95, graduated from 95; never unknown |
| BondingCurve.StatusMonotone | mcp_server.py:248 | the status never moves back as progress grows |
| BondingCurve.BondingCurveProgress | mcp_server.py:225-271 | every record echoes the address; status unknown appears exactly on the error variant, whose progress is 0 |
| BondingCurve.ParseBonding | mcp_server.py:233-261 | a payload that parses never gives the error record or status unknown, and echoes the address |
| BondingCurve.ReadTransfer | mcp_server.py:250-261 | a first transfer that is not a dict raises `AttributeError`; an empty one gives the report at 75.5 with `""` symbol, name and last activity |
| BondingCurve.ReadTransferShape | mcp_server.py:250-261 | a readable transfer gives a report with the placeholder progress, the given status and threshold 95.0 |
| BondingCurve.ParseBondingShape | mcp_server.py:233-261 | a payload that parses gives either the no-transfer record (0, early) or a report (75.5, active, 95.0), echoing the address |
| BondingCurve.BondingErrorPassthrough | mcp_server.py:225-231 | an upstream `error` gives progress 0, status unknown and exactly that error |
| BondingCurve.FalsyTransfersAreEarly | mcp_server.py:236-242 | a falsy transfer list gives progress 0, status early and the no-transfers message |
| BondingCurve.MissingDataIsEarly | mcp_server.py:234-242 | a payload with neither `data` nor `error` gives the no-transfers record: progress 0, early, the message |
| BondingCurve.ProgressIsPlaceholder | mcp_server.py:246-259 | every progress report has progress 75.5, status active and threshold 95.0 |
| BondingCurve.FirstTransferRead | mcp_server.py:250-260 | a non-empty transfer list is read through its first entry only |
| BondingCurve.OnlyFirstTransferRead | mcp_server.py:250-260 | transfer lists that agree on their first entry give the same record |
| BondingCurve.ProgressLeaves | mcp_server.py:251-260 | symbol, name and last activity come from the first transfer, `""` when absent |
| BondingCurve.BondingParseFailure | mcp_server.py:263-271 | a raised exception gives progress 0, status unknown and `Failed to parse response: ` with the exception text |
| BondingCurve.DictTransfersRaiseKeyError | mcp_server.py:250 | a non-empty dict instead of the transfer list raises `KeyError(0)`, reported as `Failed to parse response: 0` |
| LatestTrades.GetLatestTrades | mcp_server.py:343-385 | the loop returns exactly `LatestTradesSpec` |
| LatestTrades.LatestTradesSpec | mcp_server.py:343-385 | every variant echoes the address; an upstream `error` is passed through; the error variant has no trades; `total_trades` is the number of trades |
| LatestTrades.TradeOf | mcp_server.py:355-370 | a row that is not a dict raises `'T' object has no attribute 'get'`; an empty row gives the all-default record |
| LatestTrades.OneRecordPerRow | mcp_server.py:351-376 | when no row raises, there is exactly one record per row, in row order, and `total_trades` is the count |
| LatestTrades.LimitNotApplied | mcp_server.py:350-376 | the record does not depend on `limit`: there is no client-side truncation |
| LatestTrades.TradeLeaves | mcp_server.py:355-369 | each field is the upstream leaf, defaulting to `""` / `0`; the amounts and the USD price (read from `Buy`) are `str` of the value or of `0` |
| LatestTrades.EmptyRowDefaults | mcp_server.py:355-369 | an empty row gives the all-default record, with `block_number` 0 |
| LatestTrades.TradesParseFailure | mcp_server.py:378-385 | the error variant arises exactly when parsing raised; it carries `Failed to parse response: ` and the exception text |
| LatestTrades.MissingDataIsEmpty | mcp_server.py:351-376 | a payload with neither `data` nor `error` gives no trades and `total_trades` 0 |
| MigrationStatus.GetTokenMigrationStatus | mcp_server.py:447-505 | the loop, with its membership test and conditional timestamp update, returns exactly `MigrationStatusSpec` |
| MigrationStatus.MigrationStatusSpec | mcp_server.py:447-505 | every variant echoes the address; `is_migrated` holds exactly on the migrated variant, whose `total_dex_pairs` is the number of pairs; the other variants have no pairs |
| MigrationStatus.PairOf | mcp_server.py:478-483 | building `pair_info` can raise only `AttributeError`; an empty `Trade` dict gives the all-`""` pair |
| MigrationStatus.NextTimestamp | mcp_server.py:475-476 | the `Block.Time` lookup, the one that may raise, is made only while the timestamp is falsy |
| MigrationStatus.AddIfNew | mcp_server.py:485-486 | the pair is in the result, the pairs already present keep their positions, at most one is added, and nothing is added when the pair is already present |
| MigrationStatus.ScanRow | mcp_server.py:471-486 | a row that is not a dict raises; a row the body got through has a pair, added to `dex_pairs` unless already present |
| MigrationStatus.Dedup | mcp_server.py:485-486 | the last pair seen is always kept; DedupNoDuplicates, DedupSameElements and DedupFirstSeenOrder state the rest |
| MigrationStatus.FirstIndex | mcp_server.py:485 | the position found holds the pair and no earlier position does |
| MigrationStatus.FirstIndexOfPrefix | mcp_server.py:485 | a first occurrence within a prefix is the first occurrence overall |
| MigrationStatus.DedupNoDuplicates | mcp_server.py:485-486 | first-seen deduplication never keeps two equal pairs |
| MigrationStatus.DedupSameElements | mcp_server.py:485-486 | it keeps every pair that occurs, and nothing else |
| MigrationStatus.DedupFirstSeenOrder | mcp_server.py:485-486 | it lists the pairs in the order of their first occurrence |
| MigrationStatus.DedupOrderLast | mcp_server.py:485-486 | one step of that order: two kept pairs keep their first-occurrence order when one more pair is seen |
| MigrationStatus.RepeatedPairKeptOnce | mcp_server.py:485-486 | two rows with the same pair contribute it once |
| MigrationStatus.RowPairs | mcp_server.py:478-483 | one pair per row, pair `i` from row `i` |
| MigrationStatus.DedupOneMoreRow | mcp_server.py:485-486 | one iteration keeps `dex_pairs` equal to the deduplication of the pairs seen so far |
| MigrationStatus.ScanIsDedup | mcp_server.py:468-486 | a loop that did not raise built `dex_pairs` as the first-seen deduplication of the rows' pairs |
| MigrationStatus.ScanRowTimestamp | mcp_server.py:475-476 | a truthy timestamp is kept; a falsy one is replaced by the row's `Block.Time` |
| MigrationStatus.TimestampWhenNoneTruthy | mcp_server.py:469-476 | when no row has a non-empty time, the timestamp is the last row's (falsy) time |
| MigrationStatus.TimestampIsFirstTruthy | mcp_server.py:469-476 | the timestamp is the time of the first row whose time is non-empty |
| MigrationStatus.MigrationErrorPassthrough | mcp_server.py:447-453 | an upstream `error` gives not migrated, no pairs and exactly that error |
| MigrationStatus.FalsyRowsBondingOnly | mcp_server.py:458-465 | a falsy row list gives "bonding curve only", not migrated and no pairs |
| MigrationStatus.MissingDataIsBondingOnly | mcp_server.py:456-465 | a payload with neither `data` nor `error` gives "bonding curve only", not migrated and no pairs |
| MigrationStatus.MigratedIffTruthyRows | mcp_server.py:458-494 | `is_migrated` holds exactly on the migrated record, which arises exactly when there is no error, the row list is truthy and parsing did not raise |
| MigrationStatus.MigrationPairs | mcp_server.py:468-494 | on a migrated record, `dex_pairs` is the first-seen deduplication of the rows' pairs: no duplicates, every row's pair and nothing else, first-seen order; `total_dex_pairs` is its length |
| MigrationStatus.MigrationTimestampFirst | mcp_server.py:469-476 | on a migrated record the timestamp is the first non-empty `Block.Time` |
| MigrationStatus.MigrationTimestampEmpty | mcp_server.py:469-476 | when every row lacks a time, the timestamp is `""` |
| MigrationStatus.MigrationParseFailure | mcp_server.py:497-505 | a raised exception gives not migrated, no pairs and `Failed to parse response: ` with the exception text |
| QueryClient.ErrorEnvelope | mcp_server.py:37 | the error payload has exactly one key, `error`, holding the message |
| QueryClient.ExecuteQuery | mcp_server.py:29-58 | as written: the decoded body is returned exactly when the key is set, the status is 200, the body is not blank and it decodes; otherwise a one-key `error` payload |
| QueryClient.ExecuteQueryIntended | mcp_server.py:29-58 | the same holds of the intended variant |
| QueryClient.LStrip | mcp_server.py:49 | stripping leading whitespace leaves a suffix of the text |
| QueryClient.BlankIffStripEmpty | mcp_server.py:49 | `not text.strip()` (`IsBlank`) holds exactly when stripping leaves nothing |
| QueryClient.NoKeyNoRequest | mcp_server.py:36-37 | without an API key the result is the missing-key error, whatever the reply would have been |
| QueryClient.BodyOrEnvelope | mcp_server.py:29-58 | the decoded body is returned exactly when the key is set, the status is 200, the body is not blank and it decodes; otherwise the result is a one-key error payload |
| QueryClient.NonOkStatusReported | mcp_server.py:45-46 | a status other than 200 is reported as `HTTP <code>: <body>` |
| QueryClient.TransportFailureReported | mcp_server.py:57-58 | an exception raised by the POST is reported as `Request failed: ` and its text |
| QueryClient.BlankBodyIsEmpty | mcp_server.py:49-50 | a whitespace-only 200 body is reported as empty |
| QueryClient.InvalidJsonMessageUnreachable | mcp_server.py:52-55 | as written, no error payload `execute_query` builds itself (every case but a decoded body) starts with `Invalid JSON response: ` |
| QueryClient.UndecodableBodyAsWritten | mcp_server.py:52-58 | as written, an undecodable body gives `Request failed: name 'json' is not defined` |
| QueryClient.UndecodableBodyExample | mcp_server.py:52-58 | for the body `x`, the code as written and the intended code give different messages |
| QueryClient.UndecodableBodyIntended | mcp_server.py:54-55 | as intended, the message is the prefix, then the first `min(200, len)` characters of the body, then `...` |
| QueryClient.VariantsAgreeElsewhere | mcp_server.py:29-58 | the code as written and the intended code differ only on an accepted body that does not decode |
| Tools.TrendingTool | mcp_server.py:122-136 | every reply `execute_query` does not pass through reaches the tool as its error record, with the payload's message |
| Tools.BondingTool | mcp_server.py:220-231 | the record echoes the address; every reply not passed through becomes the error record (progress 0, unknown) with the payload's message |
| Tools.TradesTool | mcp_server.py:335-348 | the record echoes the address; every reply not passed through becomes the error record with no trades and the payload's message |
| Tools.MigrationTool | mcp_server.py:442-453 | the record echoes the address; every reply not passed through becomes the error record (not migrated, no pairs) with the payload's message |
| Tools.NoKeyReportedByEveryTool | mcp_server.py:36-37 | without an API key every tool returns its error record carrying the missing-key message |
| Tools.HttpStatusReportedByEveryTool | mcp_server.py:45-46 | a non-200 reply reaches every tool's error record as `HTTP <code>: <body>` |
| Tools.GraphQLErrorsLookLikeNoData | mcp_server.py:130 | a GraphQL `{"errors": ...}` reply without `data` is not treated as an error: every tool reports empty results |

## Left out

- Network I/O in `execute_query`. The httpx POST, the headers, the 30-second timeout and the query variables are not modelled. The reply is an input: status code, body text, the decoded body or a decode failure, or the text of a transport exception.
- A body that decodes to JSON which is not an object is not modelled. The payload is always a dict, as `execute_query`'s return annotation says.
- `ctx.info` logging calls. They are awaited side effects with no influence on any result.
- The FastMCP decorators, the server's name and the transport selection (mcp_server.py:538-544).
- The 24-hour window computed from `datetime.utcnow()` (mcp_server.py:109). It depends on the wall clock and only feeds the query.
- The GraphQL query strings and the filters the upstream applies (protocol, ordering, counts). The model assumes nothing about the payload's contents.
- The static configuration resources (mcp_server.py:508-535). They are constants, and the formula string is never evaluated.
- `str` of JSON values. It is a parameter `pyStr`, because float formatting is not modelled; the model says only which value is stringified.
- Python `==` between dicts treats `1`, `1.0` and `True` as equal. `MigrationStatus.AddIfNew` compares pairs structurally, so pairs that differ only in that way count as distinct.
- Slicing a dict. Before Python 3.12 it raises `TypeError: unhashable type: 'slice'`, which the model uses. From 3.12 it raises `KeyError` with the slice's text, which is not modelled.
- Strings are sequences of Unicode scalar values. Lone surrogates, which a Python `str` can hold, are not modelled.
- A JSON object with a repeated key keeps its first value, although Python's decoder keeps the last. Payloads with repeated keys are outside what the model describes.
- JSON numbers that are not integers are exact reals, not binary64 floats. Decoder rounding and underflow are lost: `1e-400` decodes to `0.0` in Python, which is falsy, but is a non-zero, truthy real in the model. The non-standard literals `NaN`, `Infinity` and `-Infinity`, which Python's decoder accepts, are not modelled.
- Python `==` between dicts ignores key order. `MigrationStatus.AddIfNew` compares the leaves of a pair structurally, so two pairs whose leaves are dicts with the same entries in a different order are deduplicated by Python but kept apart by the model.
- Progress values are exact reals. `progress_percentage` is the int `0` on the error and no-transfer records and the float `75.5` otherwise; the model does not tell int from float.

## Findings

| source | as written | input that shows it | evidently intended | confidence | as-written member | corrected member |
|---|---|---|---|---|---|---|
| mcp_server.py:54 | `except json.JSONDecodeError` names the module `json`, which is never imported (mcp_server.py:1-6). A decode failure therefore raises `NameError` while the handler is matched, and the outer handler reports `Request failed: name 'json' is not defined` | a 200 reply whose body is `x` | `Invalid JSON response: ` followed by the first 200 characters of the body and `...` | not executed | QueryClient.UndecodableBodyAsWritten | QueryClient.UndecodableBodyIntended |
