/** From the body of an HTTP answer to what the decision extracts: the live path through call, client and extraction. */
module LiveAnswers {
  import opened BaseService
  import opened Breaker
  import opened Common
  import opened DeclaredModes
  import opened Decisions
  import opened Host
  import opened Json
  import opened Providers
  import opened RawInputs
  import opened RuleSets
  import opened Rules
  import opened ServiceResults

  /** The body carries the payload, either as it is or under `detail`. */
  predicate Carries(body: Option<Json>, payload: Dict) {
    && body.Some? && body.value.Obj?
    && var d := body.value.fields;
       || (d == payload && ("detail" !in d || !d["detail"].Obj?))
       || ("detail" in d && d["detail"] == Obj(payload))
  }

  /** A closed breaker, and a first answer that is no error and carries the payload. */
  predicate AnswersAtOnce(p: ProviderCall, payload: Dict) {
    && ReadState(p.keys, p.cfg, p.start).1 == CLOSED && p.cfg.maxRetries >= 0
    && p.provider(0).outcome.Response? && p.provider(0).outcome.status < 400
    && Carries(p.provider(0).outcome.body, payload)
  }

  /** The call hands the payload on as it came, with its request id, after one attempt, and leaves the breaker clean. */
  lemma PayloadArrives(p: ProviderCall, payload: Dict)
    requires AnswersAtOnce(p, payload)
    ensures var id := if "request_id" in payload then Some(payload["request_id"]) else None;
            CallFrom(p.cfg, p.keys, p.provider, p.start)
            == CallOutcome(NO_KEYS.(state := Some(CLOSED)),
                           ResultValue(true, Some(payload), None, Some(payload), false, 0, id), 1)
  {
    assert JsonResponse(p.provider(0).outcome.body) == Some(payload);
  }

  predicate Undated(payload: Dict) {
    "last_updated" !in payload || !payload["last_updated"].Str?
  }

  predicate DatedWithin(h: Host, payload: Dict, now: int, seconds: int) {
    && "last_updated" in payload && payload["last_updated"].Str?
    && h.parseTime(payload["last_updated"].s).Some? && now - h.parseTime(payload["last_updated"].s).value <= seconds
  }

  /** A fresh credit answer is scored by its own number. */
  lemma LiveCreditIsScored(h: Host, p: ProviderCall, payload: Dict)
    requires AnswersAtOnce(p, payload) && "credit_score" in payload
    requires Undated(payload) || DatedWithin(h, payload, p.now, 60 * 86400)
    ensures var r := Outcome(h, CREDIT_BUREAU, p);
            && r.Ok? && r.value.success && r.value.failure.None? && !UsedFallbackCredit(r.value)
            && match payload["credit_score"]
               case Num(n) => ExtractCreditScore(h, r.value) == Ok(Some(if n >= 0.0 then n.Floor else -((-n).Floor)))
               case Bool(b) => ExtractCreditScore(h, r.value) == Ok(Some(if b then 1 else 0))
               case Str(s) => if h.parseInt(s).Some? then ExtractCreditScore(h, r.value) == Ok(h.parseInt(s))
                              else ExtractCreditScore(h, r.value).Raised?
               case _ => ExtractCreditScore(h, r.value).Raised?
  {
    PayloadArrives(p, payload);
    assert payload != map[];
  }

  /** A credit score that is there is left unread exactly when it is the fallback of a TIMEOUT or SERVICE_DOWN. */
  lemma FallbackScoreIsIgnoredIff(h: Host, r: ResultValue, score: int)
    requires Has(r.data, "credit_score") && r.data.value["credit_score"] == Num(score as real) && score >= 0
    ensures ExtractCreditScore(h, r)
            == if r.fallbackUsed && (r.failure == Some(TIMEOUT) || r.failure == Some(SERVICE_DOWN)) then Ok(None)
               else Ok(Some(score))
    ensures UsedFallbackCredit(r) <==> ExtractCreditScore(h, r) == Ok(None)
  {
    assert r.data.value != map[];
  }

  /** A bank answer that has a stability is scored by it. */
  lemma LiveStabilityIsScored(h: Host, p: ProviderCall, payload: Dict)
    requires AnswersAtOnce(p, payload) && "income_stability" in payload
    ensures var r := Outcome(h, BANK_ANALYZER, p);
            && r.Ok? && r.value.success && r.value.failure.None?
            && match payload["income_stability"]
               case Num(x) => ExtractIncomeStability(h, r.value) == Ok(Some(x))
               case Bool(b) => ExtractIncomeStability(h, r.value) == Ok(Some(if b then 1.0 else 0.0))
               case Str(s) => if h.parseFloat(s).Some? then ExtractIncomeStability(h, r.value) == Ok(h.parseFloat(s))
                              else ExtractIncomeStability(h, r.value).Raised?
               case _ => ExtractIncomeStability(h, r.value).Raised?
  {
    PayloadArrives(p, payload);
    assert payload != map[];
  }

  /** A GST answer that does not deny the PAN is scored by its compliance flag, read as Python reads truth. */
  lemma LiveGstIsScored(h: Host, p: ProviderCall, payload: Dict)
    requires AnswersAtOnce(p, payload) && "gst_compliant" in payload
    requires "match" !in payload || payload["match"] != Bool(false)
    ensures var r := Outcome(h, GST_VERIFIER, p);
            && r.Ok? && r.value.success && r.value.failure.None?
            && ExtractGstCompliance(r.value).Some?
            && (ExtractGstCompliance(r.value).value <==>
                  match payload["gst_compliant"]
                  case Null => false
                  case Bool(b) => b
                  case Num(n) => n != 0.0
                  case Str(s) => |s| > 0
                  case Arr(items) => |items| > 0
                  case Obj(fields) => |fields| > 0)
  {
    PayloadArrives(p, payload);
    assert payload != map[];
    if payload["gst_compliant"].Obj? { NonEmpty(payload["gst_compliant"].fields); }
  }

  lemma NonEmpty(d: Dict)
    ensures |d| > 0 <==> d != map[]
  {
    if d == map[] { assert |d| == 0; }
  }

  /** Answers without the key they are asked for, and bodies that carry no dictionary, give the decision nothing. */
  lemma EmptyAnswersShowNothing(h: Host, p: ProviderCall, s: Source)
    requires ReadState(p.keys, p.cfg, p.start).1 == CLOSED && p.cfg.maxRetries >= 0
    requires p.provider(0).outcome.Response? && p.provider(0).outcome.status < 400
    requires p.provider(0).outcome.body.None? || !p.provider(0).outcome.body.value.Obj?
    ensures var r := Outcome(h, s, p);
            && r.Ok? && r.value.success && r.value.failure.None? && r.value.data.None? && r.value.requestId.None?
            && ExtractCreditScore(h, r.value) == Ok(None) && ExtractIncomeStability(h, r.value) == Ok(None)
            && ExtractGstCompliance(r.value).None?
  {
  }

  lemma PlainCredit(h: Host, p: ProviderCall, score: int)
    requires score >= 0 && AnswersAtOnce(p, map["credit_score" := Num(score as real)])
    ensures var r := Outcome(h, CREDIT_BUREAU, p);
            && r.Ok? && ExtractCreditScore(h, r.value) == Ok(Some(score))
            && r.value.failure.None? && !UsedFallbackCredit(r.value)
  {
    var payload: Dict := map["credit_score" := Num(score as real)];
    assert "credit_score" in payload && payload["credit_score"] == Num(score as real);
    LiveCreditIsScored(h, p, payload);
  }

  lemma PlainStability(h: Host, p: ProviderCall, stability: real)
    requires AnswersAtOnce(p, map["income_stability" := Num(stability)])
    ensures var r := Outcome(h, BANK_ANALYZER, p);
            r.Ok? && ExtractIncomeStability(h, r.value) == Ok(Some(stability)) && r.value.failure.None?
  {
    var payload: Dict := map["income_stability" := Num(stability)];
    assert "income_stability" in payload && payload["income_stability"] == Num(stability);
    LiveStabilityIsScored(h, p, payload);
  }

  lemma PlainGst(h: Host, p: ProviderCall, compliant: bool)
    requires AnswersAtOnce(p, map["gst_compliant" := Bool(compliant)])
    ensures var r := Outcome(h, GST_VERIFIER, p);
            r.Ok? && ExtractGstCompliance(r.value) == Some(compliant) && r.value.failure.None?
  {
    var payload: Dict := map["gst_compliant" := Bool(compliant)];
    assert "gst_compliant" in payload && payload["gst_compliant"] == Bool(compliant);
    LiveGstIsScored(h, p, payload);
  }

  lemma FeaturesOf(h: Host, c: ResultValue, b: ResultValue, g: ResultValue, user: Dict, score: int, stability: real,
                   dti: real, compliant: bool)
    requires c.failure.None? && b.failure.None? && g.failure.None? && !UsedFallbackCredit(c)
    requires ExtractCreditScore(h, c) == Ok(Some(score)) && ExtractIncomeStability(h, b) == Ok(Some(stability))
    requires ExtractGstCompliance(g) == Some(compliant) && DebtToIncome(h, user) == Ok(dti)
    ensures ExtractFeatures(h, c, b, g, user)
            == Ok(Features(Some(score), Some(stability), dti, Some(compliant), [], false))
  {
    assert CollectFailureTypes(c, b, g) == [];
  }

  lemma DebtRatio(h: Host, user: Dict, income: real, emis: real)
    requires "monthly_income" in user && user["monthly_income"] == Num(income) && income != 0.0
    requires "existing_emis" in user && user["existing_emis"] == Num(emis)
    ensures DebtToIncome(h, user) == Ok(emis / income)
  {
  }

  /**
   Three plain live answers: the decision sees exactly their three values, the applicant's debt ratio, no failure and no
   fallback.
   */
  lemma LiveAnswersAreTheFeatures(h: Host, credit: ProviderCall, bank: ProviderCall, gst: ProviderCall,
                                  score: int, stability: real, compliant: bool, income: real, emis: real)
    requires score >= 0 && income != 0.0
    requires AnswersAtOnce(credit, map["credit_score" := Num(score as real)])
    requires AnswersAtOnce(bank, map["income_stability" := Num(stability)])
    requires AnswersAtOnce(gst, map["gst_compliant" := Bool(compliant)])
    ensures var c, b := Outcome(h, CREDIT_BUREAU, credit), Outcome(h, BANK_ANALYZER, bank);
            var g := Outcome(h, GST_VERIFIER, gst);
            && c.Ok? && b.Ok? && g.Ok?
            && ExtractFeatures(h, c.value, b.value, g.value,
                               map["monthly_income" := Num(income), "existing_emis" := Num(emis)])
               == Ok(Features(Some(score), Some(stability), emis / income, Some(compliant), [], false))
  {
    PlainCredit(h, credit, score);
    PlainStability(h, bank, stability);
    PlainGst(h, gst, compliant);
    DebtRatio(h, map["monthly_income" := Num(income), "existing_emis" := Num(emis)], income, emis);
    FeaturesOf(h, Outcome(h, CREDIT_BUREAU, credit).value, Outcome(h, BANK_ANALYZER, bank).value,
               Outcome(h, GST_VERIFIER, gst).value,
               map["monthly_income" := Num(income), "existing_emis" := Num(emis)],
               score, stability, emis / income, compliant);
  }

  /**
   From four numbers to the decision: three plain live answers and a readable income, within the ranges the providers
   and the API promise, are decided by one weighted sum.
   */
  lemma LiveApplicantDecided(h: Host, credit: ProviderCall, bank: ProviderCall, gst: ProviderCall,
                             score: int, stability: real, compliant: bool, income: real, emis: real)
    requires RoundsToHundredths(h)
    requires 0 <= score <= 900 && 0.0 <= stability <= 1.0 && income > 0.0 && 0.0 <= emis / income <= 1.0
    requires AnswersAtOnce(credit, map["credit_score" := Num(score as real)])
    requires AnswersAtOnce(bank, map["income_stability" := Num(stability)])
    requires AnswersAtOnce(gst, map["gst_compliant" := Bool(compliant)])
    ensures var c, b := Outcome(h, CREDIT_BUREAU, credit), Outcome(h, BANK_ANALYZER, bank);
            var g := Outcome(h, GST_VERIFIER, gst);
            && c.Ok? && b.Ok? && g.Ok?
            && var user := map["monthly_income" := Num(income), "existing_emis" := Num(emis)];
               var out := ComputeDecision(h, c.value, b.value, g.value, user, 0.6, RULE_SET_V1);
               && out.Ok?
               && var d, dti := out.value.decision, emis / income;
                  var sum := score as real * 40.0 / 900.0 + stability * 20.0 + (1.0 - dti) * 25.0
                             + if compliant then 15.0 else 0.0;
                  && (compliant && (sum >= 70.0 || (sum >= 55.0 && dti < 0.5)) ==> d == APPROVE)
                  && (!compliant || sum <= 54.99 || (sum <= 69.99 && dti >= 0.5) ==> d != APPROVE)
                  && (sum <= 34.99 || (dti > 0.6 && (sum <= 69.99 || !compliant)) ==> d == DECLINE)
                  && (sum >= 35.0 && dti <= 0.6 ==> d != DECLINE)
  {
    LiveAnswersAreTheFeatures(h, credit, bank, gst, score, stability, compliant, income, emis);
    VerifiedApplicantDecided(h, score, stability, emis / income, compliant);
  }

  // ----- every other answer -----

  /** What the last answer of a call says, read literally; `payload` is what its body carries, if anything. */
  predicate Reported(outcome: HttpOutcome, r: ResultValue, payload: Dict) {
    match outcome
    case TimedOut => r.failure == Some(TIMEOUT) && r.raw.None? && r.requestId.None?
    case TransportError => r.failure == Some(SERVICE_DOWN) && r.raw.None? && r.requestId.None?
    case Response(status, body) =>
      && (r.failure.None? <==> status < 400)
      && (status == 408 ==> r.failure == Some(TIMEOUT))
      && (status == 404 ==> r.failure == Some(NO_RECORD))
      && (status == 400 ==> r.failure == Some(FORMAT_ERROR))
      && (status > 400 && status != 404 && status != 408 ==> r.failure == Some(SERVICE_DOWN))
      && (Carries(body, payload) ==> r.raw == Some(payload))
      && (Carries(body, payload) ==>
            r.requestId == if "request_id" in payload then Some(payload["request_id"]) else None)
      && (body.None? || !body.value.Obj? ==> r.raw.None? && r.requestId.None?)
  }

  lemma AttemptReports(outcome: HttpOutcome, payload: Dict)
    ensures Reported(outcome, AttemptResult(outcome), payload)
  {
  }

  lemma {:induction false} LoopReports(cfg: Config, k: Keys, provider: nat -> Exchange, i: nat, max: nat, probe: bool,
                                       payload: Dict)
    requires i <= max
    ensures var out := LoopFrom(cfg, k, provider, i, max, probe);
            out.attempts > 0 && Reported(provider(out.attempts - 1).outcome, out.result, payload)
    decreases max - i
  {
    AttemptReports(provider(i).outcome, payload);
    var r := AttemptResult(provider(i).outcome);
    if !r.success && !probe && Retryable(r.failure) && i < max {
      var k' := if r.failure == Some(SERVICE_DOWN) then RecordServiceDown(k, cfg, provider(i).at) else k;
      LoopReports(cfg, k', provider, i + 1, max, probe, payload);
    }
  }

  /**
   Whatever the breaker and the provider do: a call that asked reports its last answer, failure, payload and request
   id; one that did not ask reports the source down, with nothing to show.
   */
  lemma CallReportsLastAnswer(cfg: Config, k: Keys, provider: nat -> Exchange, start: int, payload: Dict)
    ensures var out := CallFrom(cfg, k, provider, start);
            if out.attempts > 0 then Reported(provider(out.attempts - 1).outcome, out.result, payload)
            else out.result == ResultValue(false, None, Some(SERVICE_DOWN), None, true, 0, None)
  {
    var (k1, state) := ReadState(k, cfg, start);
    if cfg.maxRetries >= 0 { LoopReports(cfg, k1, provider, 0, cfg.maxRetries, false, payload); }
    LoopReports(cfg, AcquireProbe(k1, cfg, start).0, provider, 0, 0, true, payload);
  }
}
