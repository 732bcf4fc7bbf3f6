/** From a declared failure mode to the decision: through the provider's answers, the retry loop and the client. */
module DeclaredModes {
  import opened BaseService
  import opened Breaker
  import opened Common
  import opened DecisionProperties
  import opened Decisions
  import opened Host
  import opened Json
  import opened Providers
  import opened RuleSets
  import opened Rules
  import opened ServiceResults

  /** The failure modes an application may declare (api/schemas/application.py). */
  predicate MayDeclare(s: Source, mode: FailureType) {
    match s
    case CREDIT_BUREAU => mode == TIMEOUT || mode == STALE_DATA || mode == SERVICE_DOWN
    case BANK_ANALYZER => mode == PARTIAL_DATA || mode == FORMAT_ERROR
    case GST_VERIFIER => mode == PAN_MISMATCH || mode == NO_RECORD
  }

  /** An answer that is no error, with a payload. */
  predicate Delivers(outcome: HttpOutcome) {
    outcome.Response? && outcome.status < 400 && Present(JsonResponse(outcome.body))
  }

  /** Server errors, and client errors without a meaning of their own. */
  predicate SaysDown(status: int) {
    status >= 400 && status != 400 && status != 404 && status != 408
  }

  /** How a provider told to fail in `mode` answers (mock_apis). */
  predicate AnswersIn(h: Host, mode: FailureType, outcome: HttpOutcome, now: int) {
    match mode
    case TIMEOUT => outcome.TimedOut? || (outcome.Response? && outcome.status == 408)
    case SERVICE_DOWN => outcome.TransportError? || (outcome.Response? && SaysDown(outcome.status))
    case FORMAT_ERROR => outcome.Response? && outcome.status == 400
    case NO_RECORD => outcome.Response? && outcome.status == 404
    case STALE_DATA => Delivers(outcome) && IsStale(h, JsonResponse(outcome.body).value, now) == Ok(true)
    case PARTIAL_DATA => Delivers(outcome) && "income_stability" !in JsonResponse(outcome.body).value
    case PAN_MISMATCH =>
      Delivers(outcome) && "match" in JsonResponse(outcome.body).value
      && JsonResponse(outcome.body).value["match"] == Bool(false)
    case SUCCESS => false
  }

  /** One provider call in whatever state its breaker is; `now` is the clock of the staleness test. */
  datatype ProviderCall = ProviderCall(cfg: Config, keys: Keys, provider: nat -> Exchange, start: int, now: int)

  function Outcome(h: Host, s: Source, p: ProviderCall): Result<ResultValue> {
    AfterCall(h, s, CallFrom(p.cfg, p.keys, p.provider, p.start).result, p.now)
  }

  ghost predicate FailsIn(h: Host, mode: FailureType, p: ProviderCall) {
    forall i: nat :: AnswersIn(h, mode, p.provider(i).outcome, p.now)
  }

  /** An attempt as the client sees it before its post-processing: the failure of the status, or a delivered payload. */
  predicate AttemptShows(h: Host, mode: FailureType, r: ResultValue, now: int) {
    match mode
    case STALE_DATA => r.success && r.failure.None? && Present(r.data) && IsStale(h, r.data.value, now) == Ok(true)
    case PARTIAL_DATA => r.success && r.failure.None? && Present(r.data) && "income_stability" !in r.data.value
    case PAN_MISMATCH =>
      r.success && r.failure.None? && Present(r.data) && "match" in r.data.value && r.data.value["match"] == Bool(false)
    case _ => !r.success && r.failure == Some(mode)
  }

  lemma {:induction false} LoopShows(h: Host, mode: FailureType, p: ProviderCall, k: Keys, i: nat, max: nat,
                                     probe: bool)
    requires FailsIn(h, mode, p) && i <= max
    ensures AttemptShows(h, mode, LoopFrom(p.cfg, k, p.provider, i, max, probe).result, p.now)
    decreases max - i
  {
    assert AnswersIn(h, mode, p.provider(i).outcome, p.now);
    var r := AttemptResult(p.provider(i).outcome);
    assert AttemptShows(h, mode, r, p.now);
    if !r.success && !probe && Retryable(r.failure) && i < max {
      var k' := if r.failure == Some(SERVICE_DOWN) then RecordServiceDown(k, p.cfg, p.provider(i).at) else k;
      LoopShows(h, mode, p, k', i + 1, max, probe);
    }
  }

  /** The declared mode shows in the result, unless the breaker let nobody through; then the source counts as down. */
  lemma DeclaredModeShows(h: Host, s: Source, mode: FailureType, p: ProviderCall)
    requires MayDeclare(s, mode) && FailsIn(h, mode, p)
    ensures Outcome(h, s, p).Ok?
    ensures var attempts := CallFrom(p.cfg, p.keys, p.provider, p.start).attempts;
            Outcome(h, s, p).value.failure == Some(if attempts > 0 then mode else SERVICE_DOWN)
  {
    var (k1, state) := ReadState(p.keys, p.cfg, p.start);
    if p.cfg.maxRetries >= 0 {
      LoopShows(h, mode, p, k1, 0, p.cfg.maxRetries, false);
      LoopBounds(p.cfg, k1, p.provider, 0, p.cfg.maxRetries, false);
    }
    var k2 := AcquireProbe(k1, p.cfg, p.start).0;
    LoopShows(h, mode, p, k2, 0, 0, true);
    LoopBounds(p.cfg, k2, p.provider, 0, 0, true);
  }

  /**
   An application that declares a failure mode for each of the three sources goes to review: for every applicant, rule
   set and threshold above one half, and whatever state the three breakers are in.
   */
  lemma DeclaredOutageAlwaysReviews(h: Host, creditMode: FailureType, bankMode: FailureType, gstMode: FailureType,
                                    credit: ProviderCall, bank: ProviderCall, gst: ProviderCall, user: Dict,
                                    threshold: real, rs: RuleSet)
    requires RoundsToHundredths(h) && threshold > 0.5
    requires MayDeclare(CREDIT_BUREAU, creditMode) && FailsIn(h, creditMode, credit)
    requires MayDeclare(BANK_ANALYZER, bankMode) && FailsIn(h, bankMode, bank)
    requires MayDeclare(GST_VERIFIER, gstMode) && FailsIn(h, gstMode, gst)
    ensures var c, b := Outcome(h, CREDIT_BUREAU, credit), Outcome(h, BANK_ANALYZER, bank);
            var g := Outcome(h, GST_VERIFIER, gst);
            && c.Ok? && b.Ok? && g.Ok?
            && var d := ComputeDecision(h, c.value, b.value, g.value, user, threshold, rs);
               d.Ok? ==> d.value.decision == NEEDS_REVIEW && d.value.requiresManualReview
  {
    DeclaredModeShows(h, CREDIT_BUREAU, creditMode, credit);
    DeclaredModeShows(h, BANK_ANALYZER, bankMode, bank);
    DeclaredModeShows(h, GST_VERIFIER, gstMode, gst);
    var c, b := Outcome(h, CREDIT_BUREAU, credit).value, Outcome(h, BANK_ANALYZER, bank).value;
    var g := Outcome(h, GST_VERIFIER, gst).value;
    if ComputeDecision(h, c, b, g, user, threshold, rs).Ok? {
      TotalOutageAlwaysReviews(h, c, b, g, user, threshold, rs);
    }
  }
}
