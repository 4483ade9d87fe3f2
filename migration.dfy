/**
 * The response normalisation of `get_token_migration_status`: any DEX trade
 * outside the bonding curve means "migrated"; the distinct DEX pairs are kept in
 * order of first occurrence, and the migration timestamp is the first non-empty
 * block time.
 */
module MigrationStatus {
  import opened PyJson

  /** The four-field `pair_info` dict; two are equal when all four fields are. */
  datatype DexPair = DexPair(dexName: Json, dexContract: Json, buyToken: Json, sellToken: Json)

  /** The three shapes of the record: the error variant, "bonding curve only" and "migrated". */
  datatype MigrationResult =
    | MigrationFailed(tokenAddress: string, isMigrated: bool, dexPairs: seq<DexPair>, error: Json)
    | BondingCurveOnly(tokenAddress: string, isMigrated: bool, status: string, dexPairs: seq<DexPair>, message: string)
    | MigratedToDex(
        tokenAddress: string,
        isMigrated: bool,
        status: string,
        migrationTimestamp: Json,
        dexPairs: seq<DexPair>,
        totalDexPairs: int)

  const BondingOnlyStatus := "bonding_curve_only"
  const MigratedStatus := "migrated_to_dex"
  const BondingOnlyMessage := "Token still trading only on Four.meme bonding curve"
  const ParseFailurePrefix := "Failed to parse response: "
  const RowsPath := ["data", "EVM", "DEXTrades"]

  /** `trade.get("Block", {}).get("Time", "")` on a row already known to be a dict. */
  function RowTime(rowFields: Dict): Result<Json>
  {
    var block :- AsDict(LookupOr(rowFields, "Block", EmptyObj));
    Ok(LookupOr(block, "Time", EmptyStr))
  }

  /** The `pair_info` dict, built from a row's `Trade` dict in the order Python evaluates the lookups. */
  function PairOf(tradeInfo: Dict): (r: Result<DexPair>)
    ensures r.Raised? ==> r.exc.NoAttribute?
    ensures tradeInfo == [] ==> r == Ok(DexPair(EmptyStr, EmptyStr, EmptyStr, EmptyStr))
  {
    var dex :- AsDict(LookupOr(tradeInfo, "Dex", EmptyObj));
    var buy :- AsDict(LookupOr(tradeInfo, "Buy", EmptyObj));
    var buyCurrency :- AsDict(LookupOr(buy, "Currency", EmptyObj));
    var sell :- AsDict(LookupOr(tradeInfo, "Sell", EmptyObj));
    var sellCurrency :- AsDict(LookupOr(sell, "Currency", EmptyObj));
    Ok(DexPair(
      LookupOr(dex, "ProtocolName", EmptyStr),
      LookupOr(dex, "SmartContract", EmptyStr),
      LookupOr(buyCurrency, "Symbol", EmptyStr),
      LookupOr(sellCurrency, "Symbol", EmptyStr)))
  }

  /** The pair a row contributes, when it has one. */
  function RowPair(row: Json): Result<DexPair>
  {
    var rowFields :- AsDict(row);
    var tradeInfo :- AsDict(LookupOr(rowFields, "Trade", EmptyObj));
    PairOf(tradeInfo)
  }

  /** The block time a row offers, when it has one. */
  function RowTimeOf(row: Json): Result<Json>
  {
    var rowFields :- AsDict(row);
    RowTime(rowFields)
  }

  /** The loop state: `dex_pairs` and `migration_timestamp` (None at first). */
  datatype Scan = Scan(pairs: seq<DexPair>, timestamp: Json)

  const InitialScan := Scan([], Null)

  /** `if not migration_timestamp:` the row's time is looked up only while the timestamp is falsy. */
  function NextTimestamp(current: Json, rowFields: Dict): (r: Result<Json>)
    ensures r.Raised? ==> !Truthy(current)
  {
    if Truthy(current) then Ok(current) else RowTime(rowFields)
  }

  /** `if pair_info not in dex_pairs: dex_pairs.append(pair_info)` */
  function AddIfNew(pairs: seq<DexPair>, pair: DexPair): (r: seq<DexPair>)
    ensures pair in r
    ensures pairs <= r && |r| <= |pairs| + 1
    ensures pair in pairs ==> r == pairs
  {
    if pair in pairs then pairs else pairs + [pair]
  }

  /** One iteration of the loop body. */
  function ScanRow(scan: Scan, row: Json): (r: Result<Scan>)
    ensures !row.Obj? ==> r == Raised(NoAttribute(TypeName(row), "get"))
    ensures r.Ok? ==> RowPair(row).Ok? && r.value.pairs == AddIfNew(scan.pairs, RowPair(row).value)
  {
    var rowFields :- AsDict(row);
    var tradeInfo :- AsDict(LookupOr(rowFields, "Trade", EmptyObj));
    var timestamp :- NextTimestamp(scan.timestamp, rowFields);
    var pair :- PairOf(tradeInfo);
    Ok(Scan(AddIfNew(scan.pairs, pair), timestamp))
  }

  function ScanStep(): (Scan, nat, Json) -> Result<Scan>
  {
    (scan: Scan, i: nat, row: Json) => ScanRow(scan, row)
  }

  /** Everything inside the `try` block. */
  function ParseMigration(tokenAddress: string, payload: Dict): Result<MigrationResult>
  {
    var tradesData :- GetPath(Obj(payload), RowsPath, EmptyList);
    if !Truthy(tradesData) then
      Ok(BondingCurveOnly(tokenAddress, false, BondingOnlyStatus, [], BondingOnlyMessage))
    else
      var rows :- Iterate(tradesData);
      var scan :- Fold(rows, InitialScan, ScanStep());
      Ok(MigratedToDex(tokenAddress, true, MigratedStatus, scan.timestamp, scan.pairs, |scan.pairs|))
  }

  /** The record `get_token_migration_status` returns for the payload the query produced. */
  function MigrationStatusSpec(tokenAddress: string, payload: Dict): (r: MigrationResult)
    ensures r.tokenAddress == tokenAddress
    ensures r.isMigrated <==> r.MigratedToDex?
    ensures r.MigratedToDex? ==> r.totalDexPairs == |r.dexPairs|
    ensures !r.MigratedToDex? ==> r.dexPairs == []
  {
    match Lookup(payload, "error")
    case Some(e) => MigrationFailed(tokenAddress, false, [], e)
    case None =>
      match ParseMigration(tokenAddress, payload)
      case Ok(r) => r
      case Raised(x) => MigrationFailed(tokenAddress, false, [], Str(ParseFailurePrefix + Message(x)))
  }

  /** The normalisation as `get_token_migration_status` runs it: the membership test, `append` and timestamp update in a loop. */
  method GetTokenMigrationStatus(tokenAddress: string, payload: Dict) returns (r: MigrationResult)
    ensures r == MigrationStatusSpec(tokenAddress, payload)
  {
    var upstreamError := Lookup(payload, "error");
    if upstreamError.Some? {
      return MigrationFailed(tokenAddress, false, [], upstreamError.value);
    }
    var tradesData := GetPath(Obj(payload), RowsPath, EmptyList);
    if tradesData.Raised? {
      return MigrationFailed(tokenAddress, false, [], Str(ParseFailurePrefix + Message(tradesData.exc)));
    }
    if !Truthy(tradesData.value) {
      return BondingCurveOnly(tokenAddress, false, BondingOnlyStatus, [], BondingOnlyMessage);
    }
    var rows := Iterate(tradesData.value);
    if rows.Raised? {
      return MigrationFailed(tokenAddress, false, [], Str(ParseFailurePrefix + Message(rows.exc)));
    }
    var tradeRows := rows.value;
    var dexPairs: seq<DexPair> := [];
    var migrationTimestamp: Json := Null;
    var i := 0;
    while i < |tradeRows|
      invariant i <= |tradeRows|
      invariant Fold(tradeRows[..i], InitialScan, ScanStep()) == Ok(Scan(dexPairs, migrationTimestamp))
    {
      ghost var before := Scan(dexPairs, migrationTimestamp);
      var trade := tradeRows[i];
      var rowFields := AsDict(trade);
      if rowFields.Raised? {
        FoldStopsAt(tradeRows, i, InitialScan, ScanStep(), before, rowFields.exc);
        return MigrationFailed(tokenAddress, false, [], Str(ParseFailurePrefix + Message(rowFields.exc)));
      }
      var tradeInfo := AsDict(LookupOr(rowFields.value, "Trade", EmptyObj));
      if tradeInfo.Raised? {
        FoldStopsAt(tradeRows, i, InitialScan, ScanStep(), before, tradeInfo.exc);
        return MigrationFailed(tokenAddress, false, [], Str(ParseFailurePrefix + Message(tradeInfo.exc)));
      }
      if !Truthy(migrationTimestamp) {
        var time := RowTime(rowFields.value);
        if time.Raised? {
          FoldStopsAt(tradeRows, i, InitialScan, ScanStep(), before, time.exc);
          return MigrationFailed(tokenAddress, false, [], Str(ParseFailurePrefix + Message(time.exc)));
        }
        migrationTimestamp := time.value;
      }
      var pairInfo := PairOf(tradeInfo.value);
      if pairInfo.Raised? {
        FoldStopsAt(tradeRows, i, InitialScan, ScanStep(), before, pairInfo.exc);
        return MigrationFailed(tokenAddress, false, [], Str(ParseFailurePrefix + Message(pairInfo.exc)));
      }
      if pairInfo.value !in dexPairs {
        dexPairs := dexPairs + [pairInfo.value];
      }
      FoldExtend(tradeRows, i, InitialScan, ScanStep(), before);
      i := i + 1;
    }
    assert tradeRows[..i] == tradeRows;
    r := MigratedToDex(tokenAddress, true, MigratedStatus, migrationTimestamp, dexPairs, |dexPairs|);
  }

  // ---------------------------------------------------------------------------
  // First-seen deduplication, stated on plain sequences of pairs.

  /** The pairs of `ps` with every repetition after the first occurrence dropped. */
  function Dedup(ps: seq<DexPair>): (r: seq<DexPair>)
    ensures ps != [] ==> ps[|ps| - 1] in r
  {
    if ps == [] then [] else AddIfNew(Dedup(ps[..|ps| - 1]), ps[|ps| - 1])
  }

  predicate NoDuplicates(s: seq<DexPair>)
  {
    forall i, j :: 0 <= i < j < |s| ==> s[i] != s[j]
  }

  /** The position where `x` first occurs in `ps`. */
  function FirstIndex(ps: seq<DexPair>, x: DexPair): (k: nat)
    requires x in ps
    ensures k < |ps| && ps[k] == x && x !in ps[..k]
  {
    if ps[0] == x then 0
    else
      var k := 1 + FirstIndex(ps[1..], x);
      assert ps[..k] == [ps[0]] + ps[1..][..k - 1];
      k
  }

  /** The first occurrence in a prefix is the first occurrence in the whole sequence. */
  lemma FirstIndexOfPrefix(ps: seq<DexPair>, n: nat, x: DexPair)
    requires n <= |ps| && x in ps[..n]
    ensures FirstIndex(ps, x) == FirstIndex(ps[..n], x)
  {
    var k := FirstIndex(ps[..n], x);
    assert ps[..n][..k] == ps[..k];
  }

  /** `dex_pairs` never holds two equal pairs. */
  lemma {:induction false} DedupNoDuplicates(ps: seq<DexPair>)
    ensures NoDuplicates(Dedup(ps))
  {
    if ps != [] {
      DedupNoDuplicates(ps[..|ps| - 1]);
    }
  }

  /** Every pair of `ps` occurs in the result and nothing else does. */
  lemma {:induction false} DedupSameElements(ps: seq<DexPair>)
    ensures forall x :: x in Dedup(ps) <==> x in ps
  {
    if ps != [] {
      var init := ps[..|ps| - 1];
      DedupSameElements(init);
      assert ps == init + [ps[|ps| - 1]];
    }
  }

  /** The pairs appear in the order of their first occurrence in `ps`. */
  lemma {:induction false} DedupFirstSeenOrder(ps: seq<DexPair>)
    ensures forall x :: x in Dedup(ps) ==> x in ps
    ensures forall i, j :: 0 <= i < j < |Dedup(ps)| ==>
      FirstIndex(ps, Dedup(ps)[i]) < FirstIndex(ps, Dedup(ps)[j])
  {
    DedupSameElements(ps);
    if ps != [] {
      var n := |ps| - 1;
      var init := ps[..n];
      var d := Dedup(init);
      var r := Dedup(ps);
      DedupFirstSeenOrder(init);
      DedupSameElements(init);
      forall i, j | 0 <= i < j < |r|
        ensures FirstIndex(ps, r[i]) < FirstIndex(ps, r[j])
      {
        DedupOrderLast(ps, init, i, j);
      }
    }
  }

  /** One step of DedupFirstSeenOrder: two kept pairs, given the order of the pairs kept from `init`. */
  lemma DedupOrderLast(ps: seq<DexPair>, init: seq<DexPair>, i: nat, j: nat)
    requires ps != [] && init == ps[..|ps| - 1]
    requires forall x :: x in Dedup(init) <==> x in init
    requires forall a, b :: 0 <= a < b < |Dedup(init)| ==>
      FirstIndex(init, Dedup(init)[a]) < FirstIndex(init, Dedup(init)[b])
    requires forall x :: x in Dedup(ps) <==> x in ps
    requires i < j < |Dedup(ps)|
    ensures FirstIndex(ps, Dedup(ps)[i]) < FirstIndex(ps, Dedup(ps)[j])
  {
    var n := |ps| - 1;
    var d := Dedup(init);
    assert Dedup(ps) == AddIfNew(d, ps[n]);
    if ps[n] in d {
      assert d[i] in d && d[j] in d;
      FirstIndexOfPrefix(ps, n, d[i]);
      FirstIndexOfPrefix(ps, n, d[j]);
    } else {
      assert Dedup(ps) == d + [ps[n]];
      assert Dedup(ps)[i] == d[i] && d[i] in d;
      FirstIndexOfPrefix(ps, n, d[i]);
      if j < |d| {
        assert Dedup(ps)[j] == d[j] && d[j] in d;
        FirstIndexOfPrefix(ps, n, d[j]);
      } else {
        assert Dedup(ps)[j] == ps[n] && ps[n] !in init;
        assert FirstIndex(ps, ps[n]) == n;
      }
    }
  }

  // ---------------------------------------------------------------------------
  // What the loop computes.

  /** What `pairOf` gives each row, when it gives something for every row. */
  function PairsBy(rows: seq<Json>, pairOf: Json -> Result<DexPair>): (ps: seq<DexPair>)
    requires forall i :: 0 <= i < |rows| ==> pairOf(rows[i]).Ok?
    ensures |ps| == |rows|
  {
    seq(|rows|, i requires 0 <= i < |rows| => pairOf(rows[i]).value)
  }

  /** Every row's pair, when each row has one. */
  function RowPairs(rows: seq<Json>): (ps: seq<DexPair>)
    requires forall i :: 0 <= i < |rows| ==> RowPair(rows[i]).Ok?
    ensures |ps| == |rows| && forall i :: 0 <= i < |rows| ==> RowPair(rows[i]) == Ok(ps[i])
  {
    PairsBy(rows, RowPair)
  }

  /** A loop that did not raise built `dex_pairs` as the first-seen deduplication of the rows' pairs. */
  lemma {:induction false} ScanIsDedup(rows: seq<Json>)
    requires Fold(rows, InitialScan, ScanStep()).Ok?
    ensures forall i :: 0 <= i < |rows| ==> RowPair(rows[i]).Ok?
    ensures Fold(rows, InitialScan, ScanStep()).value.pairs == Dedup(RowPairs(rows))
  {
    if rows != [] {
      var n := |rows| - 1;
      ScanLast(rows);
      var before := Fold(rows[..n], InitialScan, ScanStep()).value;
      var after := Fold(rows, InitialScan, ScanStep()).value;
      assert after.pairs == AddIfNew(before.pairs, RowPair(rows[n]).value);
      ScanIsDedup(rows[..n]);
      SplitLast(rows);
      DedupOneMoreRow(rows[..n], rows[n], before.pairs, RowPair);
      assert after.pairs == Dedup(PairsBy(rows, RowPair));
    }
  }

  lemma SplitLast(rows: seq<Json>)
    requires rows != []
    ensures rows[..|rows| - 1] + [rows[|rows| - 1]] == rows
  {
  }

  /** One loop iteration keeps `dex_pairs` equal to the deduplication of the rows' pairs seen so far. */
  lemma DedupOneMoreRow(init: seq<Json>, last: Json, pairs: seq<DexPair>, pairOf: Json -> Result<DexPair>)
    requires forall i :: 0 <= i < |init| ==> pairOf(init[i]).Ok?
    requires pairs == Dedup(PairsBy(init, pairOf))
    requires pairOf(last).Ok?
    ensures forall i :: 0 <= i < |init + [last]| ==> pairOf((init + [last])[i]).Ok?
    ensures AddIfNew(pairs, pairOf(last).value) == Dedup(PairsBy(init + [last], pairOf))
  {
    var rows := init + [last];
    forall i | 0 <= i < |rows|
      ensures pairOf(rows[i]).Ok?
    {
      if i < |init| {
        assert rows[i] == init[i];
      }
    }
    assert rows[..|init|] == init;
    assert PairsBy(rows, pairOf)[..|init|] == PairsBy(init, pairOf);
  }

  /** The scan state just before the last row. */
  lemma ScanLast(rows: seq<Json>)
    requires rows != []
    requires Fold(rows, InitialScan, ScanStep()).Ok?
    ensures var before := Fold(rows[..|rows| - 1], InitialScan, ScanStep());
      before.Ok? && ScanRow(before.value, rows[|rows| - 1]) == Fold(rows, InitialScan, ScanStep())
  {
  }

  /** What the timestamp becomes after a row the loop got through. */
  lemma ScanRowTimestamp(scan: Scan, row: Json)
    requires ScanRow(scan, row).Ok?
    ensures Truthy(scan.timestamp) ==> ScanRow(scan, row).value.timestamp == scan.timestamp
    ensures !Truthy(scan.timestamp) ==>
      RowTimeOf(row).Ok? && ScanRow(scan, row).value.timestamp == RowTimeOf(row).value
  {
  }

  /** When no row offers a non-empty time, the timestamp is the (empty) time of the last row. */
  lemma {:induction false} TimestampWhenNoneTruthy(rows: seq<Json>)
    requires rows != []
    requires Fold(rows, InitialScan, ScanStep()).Ok?
    requires forall j :: 0 <= j < |rows| ==> !(RowTimeOf(rows[j]).Ok? && Truthy(RowTimeOf(rows[j]).value))
    ensures RowTimeOf(rows[|rows| - 1]).Ok?
    ensures Fold(rows, InitialScan, ScanStep()).value.timestamp == RowTimeOf(rows[|rows| - 1]).value
    ensures !Truthy(Fold(rows, InitialScan, ScanStep()).value.timestamp)
  {
    var n := |rows| - 1;
    var init := rows[..n];
    ScanLast(rows);
    var before := Fold(init, InitialScan, ScanStep()).value;
    if n > 0 {
      assert forall j :: 0 <= j < n ==> init[j] == rows[j];
      TimestampWhenNoneTruthy(init);
    }
    ScanRowTimestamp(before, rows[n]);
  }

  /** The timestamp is the time of the first row whose time is non-empty; later rows never change it. */
  lemma {:induction false} TimestampIsFirstTruthy(rows: seq<Json>, k: nat)
    requires k < |rows|
    requires Fold(rows, InitialScan, ScanStep()).Ok?
    requires RowTimeOf(rows[k]).Ok? && Truthy(RowTimeOf(rows[k]).value)
    requires forall j :: 0 <= j < k ==> !(RowTimeOf(rows[j]).Ok? && Truthy(RowTimeOf(rows[j]).value))
    ensures Fold(rows, InitialScan, ScanStep()).value.timestamp == RowTimeOf(rows[k]).value
  {
    var n := |rows| - 1;
    var init := rows[..n];
    ScanLast(rows);
    var before := Fold(init, InitialScan, ScanStep()).value;
    assert forall j :: 0 <= j < n ==> init[j] == rows[j];
    if n == k {
      if k > 0 {
        TimestampWhenNoneTruthy(init);
      }
      ScanRowTimestamp(before, rows[n]);
    } else {
      TimestampIsFirstTruthy(init, k);
      ScanRowTimestamp(before, rows[n]);
    }
  }

  // ---------------------------------------------------------------------------
  // Properties of the record.

  /** Error passthrough: not migrated, no pairs and exactly the upstream error, nothing parsed. */
  lemma MigrationErrorPassthrough(tokenAddress: string, payload: Dict)
    requires HasKey(payload, "error")
    ensures MigrationStatusSpec(tokenAddress, payload) ==
      MigrationFailed(tokenAddress, false, [], Lookup(payload, "error").value)
  {
  }

  /** A falsy row list (empty, null, "" or {}) means "bonding curve only", with no pairs. */
  lemma FalsyRowsBondingOnly(tokenAddress: string, payload: Dict, tradesData: Json)
    requires Lookup(payload, "error").None?
    requires GetPath(Obj(payload), RowsPath, EmptyList) == Ok(tradesData)
    requires !Truthy(tradesData)
    ensures MigrationStatusSpec(tokenAddress, payload) ==
      BondingCurveOnly(tokenAddress, false, BondingOnlyStatus, [], BondingOnlyMessage)
  {
  }

  /**
   * `is_migrated` is True exactly on the migrated record, which arises exactly when
   * there is no upstream error, the row list is truthy and parsing it did not raise.
   */
  lemma MigratedIffTruthyRows(tokenAddress: string, payload: Dict)
    ensures var r := MigrationStatusSpec(tokenAddress, payload);
      (r.isMigrated <==> r.MigratedToDex?) &&
      (r.MigratedToDex? <==>
        Lookup(payload, "error").None? &&
        GetPath(Obj(payload), RowsPath, EmptyList).Ok? &&
        Truthy(GetPath(Obj(payload), RowsPath, EmptyList).value) &&
        ParseMigration(tokenAddress, payload).Ok?)
  {
  }

  /**
   * Migration pairs: on a migrated record, every row has a pair, `dex_pairs` is their
   * first-seen deduplication, holds no two equal pairs, contains each row's pair and
   * nothing else, lists them in order of first occurrence, and `total_dex_pairs` is its length.
   */
  lemma MigrationPairs(tokenAddress: string, payload: Dict, items: seq<Json>)
    requires Lookup(payload, "error").None?
    requires GetPath(Obj(payload), RowsPath, EmptyList) == Ok(Arr(items))
    requires MigrationStatusSpec(tokenAddress, payload).MigratedToDex?
    ensures forall i :: 0 <= i < |items| ==> RowPair(items[i]).Ok?
    ensures var r := MigrationStatusSpec(tokenAddress, payload);
      var ps := RowPairs(items);
      r.dexPairs == Dedup(ps) &&
      r.totalDexPairs == |r.dexPairs| &&
      NoDuplicates(r.dexPairs) &&
      (forall x :: x in r.dexPairs <==> x in ps) &&
      (forall i, j :: 0 <= i < j < |r.dexPairs| ==> FirstIndex(ps, r.dexPairs[i]) < FirstIndex(ps, r.dexPairs[j]))
  {
    ScanIsDedup(items);
    var ps := RowPairs(items);
    DedupNoDuplicates(ps);
    DedupSameElements(ps);
    DedupFirstSeenOrder(ps);
  }

  /** Migration timestamp: the first non-empty `Block.Time` among the rows. */
  lemma MigrationTimestampFirst(tokenAddress: string, payload: Dict, items: seq<Json>, k: nat)
    requires Lookup(payload, "error").None?
    requires GetPath(Obj(payload), RowsPath, EmptyList) == Ok(Arr(items))
    requires MigrationStatusSpec(tokenAddress, payload).MigratedToDex?
    requires k < |items| && RowTimeOf(items[k]).Ok? && Truthy(RowTimeOf(items[k]).value)
    requires forall j :: 0 <= j < k ==> !(RowTimeOf(items[j]).Ok? && Truthy(RowTimeOf(items[j]).value))
    ensures MigrationStatusSpec(tokenAddress, payload).migrationTimestamp == RowTimeOf(items[k]).value
  {
    assert Iterate(Arr(items)) == Ok(items);
    assert Fold(items, InitialScan, ScanStep()).Ok?;
    TimestampIsFirstTruthy(items, k);
  }

  /** When no row has a time, the timestamp is "". */
  lemma MigrationTimestampEmpty(tokenAddress: string, payload: Dict, items: seq<Json>)
    requires Lookup(payload, "error").None?
    requires GetPath(Obj(payload), RowsPath, EmptyList) == Ok(Arr(items))
    requires MigrationStatusSpec(tokenAddress, payload).MigratedToDex?
    requires forall j :: 0 <= j < |items| ==> RowTimeOf(items[j]) == Ok(EmptyStr)
    ensures MigrationStatusSpec(tokenAddress, payload).migrationTimestamp == EmptyStr
  {
    TimestampWhenNoneTruthy(items);
  }

  /**
   * Shape failures: without an upstream error, a raised exception gives the
   * not-migrated record with "Failed to parse response: " and the exception's text.
   */
  lemma MigrationParseFailure(tokenAddress: string, payload: Dict)
    requires Lookup(payload, "error").None?
    requires ParseMigration(tokenAddress, payload).Raised?
    ensures MigrationStatusSpec(tokenAddress, payload) == MigrationFailed(
      tokenAddress, false, [], Str(ParseFailurePrefix + Message(ParseMigration(tokenAddress, payload).exc)))
  {
  }

  /** Two rows with the same four fields give one pair: the deduplication at work. */
  lemma RepeatedPairKeptOnce(p: DexPair)
    ensures Dedup([p, p]) == [p]
  {
    assert [p, p][..1] == [p];
    assert [p][..0] == [];
    assert Dedup([p]) == [p];
  }

  /** A payload with neither `data` nor `error` reads as "bonding curve only": the missing key defaults to `{}`. */
  lemma MissingDataIsBondingOnly(tokenAddress: string, payload: Dict)
    requires !HasKey(payload, "data") && !HasKey(payload, "error")
    ensures MigrationStatusSpec(tokenAddress, payload) ==
      BondingCurveOnly(tokenAddress, false, BondingOnlyStatus, [], BondingOnlyMessage)
  {
  }
}
