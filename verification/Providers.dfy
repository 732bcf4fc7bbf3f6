/** What each provider client makes of the result of `call` (services/credit_bureau.py, bank_analyzer.py,
    gst_verifier.py). */
module Providers {
  import opened Common
  import opened Host
  import opened Json
  import opened ServiceResults

  datatype Source = CREDIT_BUREAU | BANK_ANALYZER | GST_VERIFIER

  const SIXTY_DAYS := 60 * 24 * 3600
  const FALLBACK_CREDIT: Dict := map["credit_score" := Num(600.0)]
  const NOT_COMPLIANT: Dict := map["gst_compliant" := Bool(false)]

  /** The results `BaseExternalService.call` can return. */
  predicate CallShape(r: ResultValue) {
    if r.success then r.failure.None? && r.data == r.raw && !r.fallbackUsed
    else
      && r.data.None?
      && (Retryable(r.failure) || r.failure == Some(NO_RECORD) || r.failure == Some(FORMAT_ERROR))
      && r.fallbackUsed == Retryable(r.failure)
  }

  /** `_is_stale`; raises when the timestamp is text but not a date. */
  function IsStale(h: Host, data: Dict, now: int): Result<bool> {
    if "last_updated" !in data || !data["last_updated"].Str? then Ok(false)
    else match h.parseTime(data["last_updated"].s)
      case Some(parsed) => Ok(parsed < now - SIXTY_DAYS)
      case None => Raised
  }

  function AfterFetch(h: Host, r: ResultValue, now: int): Result<ResultValue> {
    var stale := if r.success && Present(r.data) then IsStale(h, r.data.value, now) else Ok(false);
    if stale.Raised? then Raised
    else if stale.value then Ok(r.(success := false, failure := Some(STALE_DATA), data := r.raw))
    else if !r.success && Retryable(r.failure) then Ok(r.(data := Some(FALLBACK_CREDIT), fallbackUsed := true))
    else Ok(r)
  }

  function AfterAnalyze(r: ResultValue): ResultValue {
    if r.success && Present(r.data) && "income_stability" !in r.data.value then
      r.(success := false, failure := Some(PARTIAL_DATA), data := r.raw, fallbackUsed := false)
    else if r.failure == Some(FORMAT_ERROR) then r.(data := None, fallbackUsed := true)
    else r
  }

  function AfterVerify(r: ResultValue): ResultValue {
    if r.success && Present(r.data) && "match" in r.data.value && r.data.value["match"] == Bool(false) then
      r.(success := false, failure := Some(PAN_MISMATCH), data := Some(NOT_COMPLIANT), fallbackUsed := true)
    else if r.failure == Some(PAN_MISMATCH) || r.failure == Some(NO_RECORD) then
      r.(data := Some(NOT_COMPLIANT), fallbackUsed := true)
    else r
  }

  function AfterCall(h: Host, s: Source, r: ResultValue, now: int): Result<ResultValue> {
    match s
    case CREDIT_BUREAU => AfterFetch(h, r, now)
    case BANK_ANALYZER => Ok(AfterAnalyze(r))
    case GST_VERIFIER => Ok(AfterVerify(r))
  }

  method FinishFetch(h: Host, result: ServiceResult, now: int) returns (raised: bool)
    modifies result
    ensures raised <==> AfterFetch(h, old(result.Value()), now).Raised?
    ensures raised ==> result.Value() == old(result.Value())
    ensures !raised ==> Ok(result.Value()) == AfterFetch(h, old(result.Value()), now)
  {
    if result.success && Present(result.data) {
      var stale := IsStale(h, result.data.value, now);
      if stale.Raised? { return true; }
      if stale.value {
        result.success := false;
        result.failure := Some(STALE_DATA);
        result.data := result.raw;
        return false;
      }
    }
    if result.success { return false; }
    if Retryable(result.failure) {
      result.data := Some(FALLBACK_CREDIT);
      result.fallbackUsed := true;
    }
    return false;
  }

  method FinishAnalyze(result: ServiceResult)
    modifies result
    ensures result.Value() == AfterAnalyze(old(result.Value()))
  {
    if result.success && Present(result.data) && "income_stability" !in result.data.value {
      result.success := false;
      result.failure := Some(PARTIAL_DATA);
      result.data := result.raw;
      result.fallbackUsed := false;
      return;
    }
    if result.failure == Some(FORMAT_ERROR) {
      result.data := None;
      result.fallbackUsed := true;
    }
  }

  method FinishVerify(result: ServiceResult)
    modifies result
    ensures result.Value() == AfterVerify(old(result.Value()))
  {
    if result.success && Present(result.data) && "match" in result.data.value
       && result.data.value["match"] == Bool(false) {
      result.success := false;
      result.failure := Some(PAN_MISMATCH);
      result.data := Some(NOT_COMPLIANT);
      result.fallbackUsed := true;
      return;
    }
    if result.failure == Some(PAN_MISMATCH) || result.failure == Some(NO_RECORD) {
      result.data := Some(NOT_COMPLIANT);
      result.fallbackUsed := true;
    }
  }

  // ----- what the clients promise -----

  /** A dated answer is kept for sixty days, to the second, and unchanged; after that it is stale data. */
  lemma CreditIsFreshForSixtyDays(h: Host, r: ResultValue, now: int, date: string, dated: int)
    requires r.success && r.failure.None? && Has(r.data, "last_updated") && r.data.value["last_updated"] == Str(date)
    requires h.parseTime(date) == Some(dated)
    ensures AfterFetch(h, r, now).Ok?
    ensures AfterFetch(h, r, now).value.failure == Some(STALE_DATA) <==> now - dated > 5184000
    ensures now - dated <= 5184000 ==> AfterFetch(h, r, now) == Ok(r)
    ensures now - dated > 5184000 ==> !AfterFetch(h, r, now).value.success && AfterFetch(h, r, now).value.data == r.raw
  {
    assert r.data.value != map[];
  }

  predicate Unreadable(h: Host, date: Json) {
    date.Str? && h.parseTime(date.s).None?
  }

  /** A verified answer without a date is kept; a date that cannot be read raises. */
  lemma UndatedCreditIsKept(h: Host, r: ResultValue, now: int)
    requires r.success
    ensures !Has(r.data, "last_updated") || !r.data.value["last_updated"].Str? ==> AfterFetch(h, r, now) == Ok(r)
    ensures Has(r.data, "last_updated") && Unreadable(h, r.data.value["last_updated"]) ==>
              AfterFetch(h, r, now).Raised?
  {
    if Has(r.data, "last_updated") { assert r.data.value != map[]; }
  }

  /** What stands in for an answer that did not come: a score of 600, no bank data, no GST compliance. */
  lemma FallbacksAreConservative(h: Host, r: ResultValue, now: int)
    requires !r.success && CallShape(r)
    ensures r.failure == Some(TIMEOUT) || r.failure == Some(SERVICE_DOWN) ==>
              AfterFetch(h, r, now) == Ok(r.(data := Some(map["credit_score" := Num(600.0)])))
    ensures r.failure == Some(NO_RECORD) || r.failure == Some(FORMAT_ERROR) ==> AfterFetch(h, r, now) == Ok(r)
    ensures AfterAnalyze(r) == r.(fallbackUsed := r.failure != Some(NO_RECORD))
    ensures AfterVerify(r) == if r.failure == Some(NO_RECORD)
                              then r.(data := Some(map["gst_compliant" := Bool(false)]), fallbackUsed := true) else r
  {
  }
}
