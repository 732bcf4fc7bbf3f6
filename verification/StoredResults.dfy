/**
 Storing a provider result as a redacted row and rebuilding it (worker/tasks/process_application.py).
 A worker that reclaims an application decides from rebuilt results.
 */
module StoredResults {
  import opened Common
  import opened Decisions
  import opened Host
  import opened Json
  import opened Providers
  import opened Redaction
  import opened RuleSets
  import opened ServiceResults

  /** An external_data row; (application, source) is its key. */
  datatype Row = Row(response: Dict, failure: Option<FailureType>)

  function StoredRow(r: ResultValue): Row {
    Row(Redact(if Present(r.raw) then r.raw else r.data), r.failure)
  }

  function FallbackWhenRebuilt(failure: Option<FailureType>): bool {
    || failure == Some(TIMEOUT) || failure == Some(SERVICE_DOWN) || failure == Some(FORMAT_ERROR)
    || failure == Some(PAN_MISMATCH) || failure == Some(NO_RECORD)
  }

  function Rebuilt(row: Row): ResultValue {
    var data := if row.response == map[] then None else Some(row.response);
    ResultValue(row.failure.None?, data, row.failure, data, FallbackWhenRebuilt(row.failure), 0,
                if "request_id" in row.response then Some(row.response["request_id"]) else None)
  }

  // ----- what the decision sees of a result -----

  datatype View =
    | CreditView(credit: Result<Option<int>>, failure: Option<FailureType>, fallbackCredit: bool)
    | BankView(stability: Result<Option<real>>, failure: Option<FailureType>)
    | GstView(gst: Option<bool>, failure: Option<FailureType>)

  function Seen(h: Host, s: Source, r: ResultValue): View {
    match s
    case CREDIT_BUREAU => CreditView(ExtractCreditScore(h, r), r.failure, UsedFallbackCredit(r))
    case BANK_ANALYZER => BankView(ExtractIncomeStability(h, r), r.failure)
    case GST_VERIFIER => GstView(ExtractGstCompliance(r), r.failure)
  }

  /** Results that look alike to the decision lead to the same decision. */
  lemma DecisionSeesOnlyViews(h: Host, c: ResultValue, b: ResultValue, g: ResultValue,
                              c': ResultValue, b': ResultValue, g': ResultValue,
                              user: Dict, threshold: real, rs: RuleSet)
    requires Seen(h, CREDIT_BUREAU, c) == Seen(h, CREDIT_BUREAU, c')
    requires Seen(h, BANK_ANALYZER, b) == Seen(h, BANK_ANALYZER, b')
    requires Seen(h, GST_VERIFIER, g) == Seen(h, GST_VERIFIER, g')
    ensures ComputeDecision(h, c, b, g, user, threshold, rs) == ComputeDecision(h, c', b', g', user, threshold, rs)
  {
    assert CollectFailureTypes(c, b, g) == CollectFailureTypes(c', b', g');
    assert ExtractFeatures(h, c, b, g, user) == ExtractFeatures(h, c', b', g', user);
  }

  // ----- reuse preserves the decision exactly when failing payloads are honest -----

  /** A failing provider answer does not smuggle in the value the decision would otherwise score. */
  predicate HonestPayload(s: Source, r: ResultValue) {
    match s
    case CREDIT_BUREAU =>
      r.failure == Some(NO_RECORD) || r.failure == Some(FORMAT_ERROR) ==> !Has(r.raw, "credit_score")
    case BANK_ANALYZER =>
      r.failure.Some? && r.failure != Some(PARTIAL_DATA) ==> !Has(r.raw, "income_stability")
    case GST_VERIFIER =>
      r.failure.Some? && Has(r.raw, "gst_compliant") ==>
        && (r.failure == Some(PAN_MISMATCH) || r.failure == Some(NO_RECORD))
        && !Truthy(r.raw.value["gst_compliant"])
  }

  lemma RedactionKeepsScores(h: Host, d: Dict, k: string)
    requires k == "credit_score" || k == "income_stability" || k == "gst_compliant"
    ensures k in Redact(Some(d)) <==> k in d
    ensures k in d ==>
      var v := Redact(Some(d))[k];
      ToInt(h, v) == ToInt(h, d[k]) && ToFloat(h, v) == ToFloat(h, d[k]) && Truthy(v) == Truthy(d[k])
    ensures Redact(Some(d)) == map[] <==> d == map[]
  {
    assert !IsPii(k);
    if d != map[] {
      assert d.Keys != {};
      assert Redact(Some(d)).Keys != {};
    }
    if k in d {
      var v := Redact(Some(d))[k];
      assert v == RedactField(k, d[k]);
      match d[k]
      case Obj(f) =>
        assert v == RedactItem(d[k]) && v.Obj? && v.fields.Keys == f.Keys;
        if f != map[] { assert f.Keys != {}; }
      case Arr(items) => assert |v.items| == |items|;
      case _ =>
    }
  }

  /**
   Storing, redacting and rebuilding a result leaves what the decision sees of it unchanged
   if and only if the payload is honest.
   */
  lemma ReuseIffHonest(h: Host, s: Source, call: ResultValue, now: int)
    requires CallShape(call) && AfterCall(h, s, call, now).Ok?
    ensures var r := AfterCall(h, s, call, now).value;
            Seen(h, s, Rebuilt(StoredRow(r))) == Seen(h, s, r) <==> HonestPayload(s, r)
  {
    var r := AfterCall(h, s, call, now).value;
    match s
    case CREDIT_BUREAU => CreditReuse(h, call, r, now);
    case BANK_ANALYZER => BankReuse(h, call, r);
    case GST_VERIFIER => GstReuse(h, call, r);
  }

  /** A rebuilt result has the failure of the original, succeeds exactly without one, and forgets the retries. */
  lemma RebuiltKeepsFailure(r: ResultValue)
    ensures var r' := Rebuilt(StoredRow(r));
            && r'.failure == r.failure && (r'.success <==> r.failure.None?) && r'.retryCount == 0 && r'.data == r'.raw
            && (Present(r.raw) ==> r'.raw.Some? && r'.raw.value.Keys == r.raw.value.Keys)
            && (!Present(r.raw) && Present(r.data) ==> r'.raw.Some? && r'.raw.value.Keys == r.data.value.Keys)
            && (!Present(r.raw) && !Present(r.data) ==> r'.raw.None?)
  {
    if Present(r.raw) { RedactedIsPresent(r.raw.value); } else if Present(r.data) { RedactedIsPresent(r.data.value); }
  }

  lemma RedactedIsPresent(d: Dict)
    requires d != map[]
    ensures Redact(Some(d)) != map[]
  {
    assert d.Keys != {};
    assert Redact(Some(d)).Keys != {};
  }

  /** Key by key: personal data come back as the mark, any other scalar as it was, the request id among them. */
  lemma RebuiltPayload(r: ResultValue, k: string)
    requires Has(r.raw, k)
    ensures var r' := Rebuilt(StoredRow(r));
            && Has(r'.raw, k)
            && (k in PERSONAL_KEYS ==> r'.raw.value[k] == Str("***REDACTED***"))
            && (k !in PERSONAL_KEYS && !r.raw.value[k].Obj? && !r.raw.value[k].Arr? ==>
                  r'.raw.value[k] == r.raw.value[k]
                  && (k == "request_id" ==> r'.requestId == Some(r.raw.value[k])))
  {
    assert r.raw.value != map[];
    RedactedIsPresent(r.raw.value);
    assert Redact(r.raw)[k] == RedactField(k, r.raw.value[k]);
    if k in PERSONAL_KEYS { assert IsPii(k); } else { assert !IsPii(k); }
  }

  /**
   The fallback flag comes back as it was except in two cases: a FORMAT_ERROR, for which only the bank analyzer sets it,
   and a NO_RECORD, for which only the GST verifier does. The decision does not look at it there.
   */
  lemma FallbackFlagSurvivesIff(h: Host, s: Source, call: ResultValue, now: int)
    requires CallShape(call) && AfterCall(h, s, call, now).Ok?
    ensures var r := AfterCall(h, s, call, now).value;
            Rebuilt(StoredRow(r)).fallbackUsed == r.fallbackUsed <==>
              !(r.failure == Some(FORMAT_ERROR) && s != BANK_ANALYZER)
              && !(r.failure == Some(NO_RECORD) && s != GST_VERIFIER)
  {
  }

  lemma CreditReuse(h: Host, call: ResultValue, r: ResultValue, now: int)
    requires CallShape(call) && AfterFetch(h, call, now) == Ok(r)
    ensures Seen(h, CREDIT_BUREAU, Rebuilt(StoredRow(r))) == Seen(h, CREDIT_BUREAU, r) <==>
            HonestPayload(CREDIT_BUREAU, r)
  {
    if Present(r.raw) { RedactionKeepsScores(h, r.raw.value, "credit_score"); }
    else if r.data.Some? { RedactionKeepsScores(h, r.data.value, "credit_score"); }
  }

  lemma BankReuse(h: Host, call: ResultValue, r: ResultValue)
    requires CallShape(call) && AfterAnalyze(call) == r
    ensures Seen(h, BANK_ANALYZER, Rebuilt(StoredRow(r))) == Seen(h, BANK_ANALYZER, r) <==>
            HonestPayload(BANK_ANALYZER, r)
  {
    if Present(r.raw) { RedactionKeepsScores(h, r.raw.value, "income_stability"); }
    else if r.data.Some? { RedactionKeepsScores(h, r.data.value, "income_stability"); }
  }

  lemma GstReuse(h: Host, call: ResultValue, r: ResultValue)
    requires CallShape(call) && AfterVerify(call) == r
    ensures Seen(h, GST_VERIFIER, Rebuilt(StoredRow(r))) == Seen(h, GST_VERIFIER, r) <==> HonestPayload(GST_VERIFIER, r)
  {
    if Present(r.raw) { RedactionKeepsScores(h, r.raw.value, "gst_compliant"); }
    else if r.data.Some? { RedactionKeepsScores(h, r.data.value, "gst_compliant"); }
  }

  /** A GST answer that denies the PAN but claims compliance is scored as failing live and as compliant when rebuilt. */
  lemma DishonestGstPayloadFlips(h: Host)
    ensures var raw := map["match" := Bool(false), "gst_compliant" := Bool(true)];
            var call := ResultValue(true, Some(raw), None, Some(raw), false, 0, None);
            var r := AfterVerify(call);
            && CallShape(call) && r.failure == Some(PAN_MISMATCH)
            && ExtractGstCompliance(r) == Some(false)
            && ExtractGstCompliance(Rebuilt(StoredRow(r))) == Some(true)
  {
    var raw := map["match" := Bool(false), "gst_compliant" := Bool(true)];
    assert "match" in raw;
    RedactionKeepsScores(h, raw, "gst_compliant");
  }
}
