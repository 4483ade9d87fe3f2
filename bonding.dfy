/**
 * The response normalisation of `get_bonding_curve_progress`: no transfer means
 * "early"; otherwise only the first transfer is read and the progress is the
 * fixed placeholder 75.5, mapped to a status by the breakpoints 50 / 90 / 95.
 */
module BondingCurve {
  import opened PyJson

  datatype GraduationStatus = Early | Active | ApproachingGraduation | Graduated | Unknown
  {
    /** The status string the record carries. */
    function Name(): string
    {
      match this
      case Early => "early"
      case Active => "active"
      case ApproachingGraduation => "approaching_graduation"
      case Graduated => "graduated"
      case Unknown => "unknown"
    }

    /** How far along the curve a status is; `Unknown` is not on the curve. */
    function Severity(): nat
    {
      match this
      case Early => 0
      case Active => 1
      case ApproachingGraduation => 2
      case Graduated => 3
      case Unknown => 0
    }
  }

  /** The placeholder progress: the real value would need supply data the query does not fetch. */
  const MockProgress: real := 75.5

  const GraduationThreshold: real := 95.0

  const NoTransfersMessage := "No transfers to Four.meme contract found"

  const ParseFailurePrefix := "Failed to parse response: "

  const TransfersPath := ["data", "EVM", "Transfers"]

  /**
   * The three shapes of the record: the error variant (progress 0, status unknown),
   * the no-transfer variant (progress 0, status early, a message) and the progress report.
   */
  datatype BondingResult =
    | BondingFailed(tokenAddress: string, progressPercentage: real, status: GraduationStatus, error: Json)
    | NoTransfers(tokenAddress: string, progressPercentage: real, status: GraduationStatus, message: string)
    | BondingProgress(
        tokenAddress: string,
        symbol: Json,
        name: Json,
        progressPercentage: real,
        status: GraduationStatus,
        graduationThreshold: real,
        lastActivity: Json)

  /** The conditional expression mapping a progress percentage to a status. */
  function StatusOf(progress: real): (s: GraduationStatus)
    ensures s != Unknown
    ensures s == Early <==> progress < 50.0
    ensures s == Active <==> 50.0 <= progress < 90.0
    ensures s == ApproachingGraduation <==> 90.0 <= progress < 95.0
    ensures s == Graduated <==> 95.0 <= progress
  {
    if progress < 50.0 then Early
    else if progress < 90.0 then Active
    else if progress < 95.0 then ApproachingGraduation
    else Graduated
  }

  /** The status never moves back as progress grows. */
  lemma StatusMonotone(p: real, q: real)
    requires p <= q
    ensures StatusOf(p).Severity() <= StatusOf(q).Severity()
  {
  }

  /** The report read from `transfer_info`, the first transfer, after the status is fixed. */
  function ReadTransfer(tokenAddress: string, status: GraduationStatus, transferInfo: Json): (r: Result<BondingResult>)
    ensures !transferInfo.Obj? ==> r == Raised(NoAttribute(TypeName(transferInfo), "get"))
    ensures transferInfo == EmptyObj ==>
      r == Ok(BondingProgress(tokenAddress, EmptyStr, EmptyStr, MockProgress, status, GraduationThreshold, EmptyStr))
  {
    var info :- AsDict(transferInfo);
    var transfer :- AsDict(LookupOr(info, "Transfer", EmptyObj));
    var currency :- AsDict(LookupOr(transfer, "Currency", EmptyObj));
    var block :- AsDict(LookupOr(info, "Block", EmptyObj));
    Ok(BondingProgress(
      tokenAddress,
      LookupOr(currency, "Symbol", EmptyStr),
      LookupOr(currency, "Name", EmptyStr),
      MockProgress,
      status,
      GraduationThreshold,
      LookupOr(block, "Time", EmptyStr)))
  }

  /** Everything inside the `try` block. */
  function ParseBonding(tokenAddress: string, payload: Dict): (r: Result<BondingResult>)
    ensures r.Ok? ==> r.value.tokenAddress == tokenAddress && !r.value.BondingFailed? && r.value.status != Unknown
  {
    var transfersData :- GetPath(Obj(payload), TransfersPath, EmptyList);
    if !Truthy(transfersData) then
      Ok(NoTransfers(tokenAddress, 0.0, Early, NoTransfersMessage))
    else
      var status := StatusOf(MockProgress);
      var transferInfo :- First(transfersData);
      ReadTransferShape(tokenAddress, status, transferInfo);
      ReadTransfer(tokenAddress, status, transferInfo)
  }

  /** A transfer that could be read gives a progress report at the placeholder, with the given status. */
  lemma ReadTransferShape(tokenAddress: string, status: GraduationStatus, transferInfo: Json)
    ensures var r := ReadTransfer(tokenAddress, status, transferInfo);
      r.Ok? ==>
        (r.value.BondingProgress? && r.value.tokenAddress == tokenAddress &&
         r.value.progressPercentage == MockProgress && r.value.status == status &&
         r.value.graduationThreshold == GraduationThreshold)
  {
  }

  /**
   * A payload that parses gives either the no-transfer record (progress 0, early) or a
   * progress report (placeholder progress, active, threshold 95.0), and echoes the address.
   */
  lemma ParseBondingShape(tokenAddress: string, payload: Dict)
    ensures var p := ParseBonding(tokenAddress, payload);
      p.Ok? ==>
        (p.value.tokenAddress == tokenAddress &&
         ((p.value.NoTransfers? && p.value.progressPercentage == 0.0 && p.value.status == Early) ||
          (p.value.BondingProgress? && p.value.progressPercentage == MockProgress && p.value.status == Active &&
           p.value.graduationThreshold == GraduationThreshold)))
  {
    var transfersData := GetPath(Obj(payload), TransfersPath, EmptyList);
    if transfersData.Ok? && Truthy(transfersData.value) {
      var transferInfo := First(transfersData.value);
      if transferInfo.Ok? {
        ReadTransferShape(tokenAddress, StatusOf(MockProgress), transferInfo.value);
      }
    }
  }

  /** The record `get_bonding_curve_progress` returns for the payload the query produced. */
  function BondingCurveProgress(tokenAddress: string, payload: Dict): (r: BondingResult)
    ensures r.tokenAddress == tokenAddress
    ensures r.status == Unknown <==> r.BondingFailed?
    ensures r.BondingFailed? ==> r.progressPercentage == 0.0
  {
    match Lookup(payload, "error")
    case Some(e) => BondingFailed(tokenAddress, 0.0, Unknown, e)
    case None =>
      match ParseBonding(tokenAddress, payload)
      case Ok(r) => r
      case Raised(x) => BondingFailed(tokenAddress, 0.0, Unknown, Str(ParseFailurePrefix + Message(x)))
  }

  /** Error passthrough: progress 0, status unknown and exactly the upstream error. */
  lemma BondingErrorPassthrough(tokenAddress: string, payload: Dict)
    requires HasKey(payload, "error")
    ensures BondingCurveProgress(tokenAddress, payload) ==
      BondingFailed(tokenAddress, 0.0, Unknown, Lookup(payload, "error").value)
  {
  }

  /** An empty or otherwise falsy transfer list means "early", with a message and no error. */
  lemma FalsyTransfersAreEarly(tokenAddress: string, payload: Dict, transfers: Json)
    requires Lookup(payload, "error").None?
    requires GetPath(Obj(payload), TransfersPath, EmptyList) == Ok(transfers)
    requires !Truthy(transfers)
    ensures BondingCurveProgress(tokenAddress, payload) ==
      NoTransfers(tokenAddress, 0.0, Early, NoTransfersMessage)
  {
  }

  /**
   * A progress report always carries the placeholder 75.5, hence status "active",
   * and the graduation threshold 95.0.
   */
  lemma ProgressIsPlaceholder(tokenAddress: string, payload: Dict)
    requires BondingCurveProgress(tokenAddress, payload).BondingProgress?
    ensures var r := BondingCurveProgress(tokenAddress, payload);
      r.progressPercentage == 75.5 && r.status == Active && r.status.Name() == "active" &&
      r.graduationThreshold == 95.0
  {
    ParseBondingShape(tokenAddress, payload);
  }

  /** Only `transfers_data[0]` is read: transfer lists that agree on their first entry give the same record. */
  lemma OnlyFirstTransferRead(tokenAddress: string, payload1: Dict, payload2: Dict, items1: seq<Json>, items2: seq<Json>)
    requires Lookup(payload1, "error").None? && Lookup(payload2, "error").None?
    requires GetPath(Obj(payload1), TransfersPath, EmptyList) == Ok(Arr(items1))
    requires GetPath(Obj(payload2), TransfersPath, EmptyList) == Ok(Arr(items2))
    requires items1 != [] && items2 != [] && items1[0] == items2[0]
    ensures BondingCurveProgress(tokenAddress, payload1) == BondingCurveProgress(tokenAddress, payload2)
  {
    FirstTransferRead(tokenAddress, payload1, items1);
    FirstTransferRead(tokenAddress, payload2, items2);
  }

  /** A non-empty transfer list is read through its first entry only. */
  lemma FirstTransferRead(tokenAddress: string, payload: Dict, items: seq<Json>)
    requires GetPath(Obj(payload), TransfersPath, EmptyList) == Ok(Arr(items))
    requires items != []
    ensures ParseBonding(tokenAddress, payload) == ReadTransfer(tokenAddress, Active, items[0])
  {
    assert Truthy(Arr(items));
    assert First(Arr(items)) == Ok(items[0]);
  }

  /**
   * The fields of a progress report: symbol and name of the first transfer's
   * currency and its block time, each `""` when absent.
   */
  lemma ProgressLeaves(
    tokenAddress: string, payload: Dict, items: seq<Json>, info: Dict, transfer: Dict, currency: Dict, block: Dict)
    requires Lookup(payload, "error").None?
    requires GetPath(Obj(payload), TransfersPath, EmptyList) == Ok(Arr(items))
    requires items != [] && items[0] == Obj(info)
    requires LookupOr(info, "Transfer", EmptyObj) == Obj(transfer)
    requires LookupOr(transfer, "Currency", EmptyObj) == Obj(currency)
    requires LookupOr(info, "Block", EmptyObj) == Obj(block)
    ensures BondingCurveProgress(tokenAddress, payload) == BondingProgress(
      tokenAddress,
      LookupOr(currency, "Symbol", EmptyStr),
      LookupOr(currency, "Name", EmptyStr),
      75.5,
      Active,
      95.0,
      LookupOr(block, "Time", EmptyStr))
  {
    FirstTransferRead(tokenAddress, payload, items);
  }

  /**
   * Shape failures: without an upstream error, a raised exception gives progress 0,
   * status unknown and "Failed to parse response: " followed by the exception's text.
   */
  lemma BondingParseFailure(tokenAddress: string, payload: Dict)
    requires Lookup(payload, "error").None?
    requires ParseBonding(tokenAddress, payload).Raised?
    ensures BondingCurveProgress(tokenAddress, payload) == BondingFailed(
      tokenAddress, 0.0, Unknown, Str(ParseFailurePrefix + Message(ParseBonding(tokenAddress, payload).exc)))
  {
  }

  /** A non-empty dict in place of the transfer list raises KeyError(0) when indexed. */
  lemma DictTransfersRaiseKeyError(tokenAddress: string, payload: Dict, fields: Dict)
    requires Lookup(payload, "error").None?
    requires GetPath(Obj(payload), TransfersPath, EmptyList) == Ok(Obj(fields))
    requires fields != []
    ensures BondingCurveProgress(tokenAddress, payload) ==
      BondingFailed(tokenAddress, 0.0, Unknown, Str(ParseFailurePrefix + "0"))
  {
    assert ParseBonding(tokenAddress, payload) == Raised(MissingKey(0));
    assert Message(MissingKey(0)) == "0";
  }

  /** A payload with neither `data` nor `error` reads as "no transfers": the missing key defaults to `{}`. */
  lemma MissingDataIsEarly(tokenAddress: string, payload: Dict)
    requires !HasKey(payload, "data") && !HasKey(payload, "error")
    ensures BondingCurveProgress(tokenAddress, payload) == NoTransfers(tokenAddress, 0.0, Early, NoTransfersMessage)
  {
  }
}
