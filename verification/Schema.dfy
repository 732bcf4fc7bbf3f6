/** The database rows of the pipeline, and what the audit log says about an application. */
module Schema {
  import opened Common
  import opened Decisions
  import opened Host
  import opened Json
  import opened Providers
  import opened Redaction
  import opened Rules
  import opened ServiceResults
  import opened StoredResults

  type AppId = int

  datatype Status = PENDING | PROCESSING | COMPLETED | MANUAL_REVIEW

  /** `sealed` is the encrypted user data: what decryption yields, or None when it raises. */
  datatype Application = Application(
    key: string,
    sealed: Option<Dict>,
    status: Status,
    decision: Option<Decision>,
    confidence: Option<real>,
    updatedAt: int)

  /** An idempotency record: the application created for the key, and the hash of the payload. */
  datatype Record = Record(app: AppId, hash: string)

  datatype DeliveryStatus = QUEUED | PROCESSED | FAILED

  /** An outbox row; its position is its id. QUEUED is the source's PENDING. */
  datatype Message = Message(app: AppId, status: DeliveryStatus)

  datatype ErrorKind = PIPELINE_TIMEOUT | SYSTEM_ERROR

  datatype AuditStep =
    | PROCESSING_STARTED
    | FETCH(source: Source)
    | DECISION_CALCULATION
    | MANUAL_REVIEW_OVERRIDE
    | MANUAL_REVIEW_ROUTING
    | ERROR(kind: ErrorKind)

  datatype Entry = Entry(app: AppId, step: AuditStep, output: Json, failure: Option<FailureType>, fallbackUsed: bool)

  datatype Tables = Tables(
    records: map<string, Record>,
    apps: map<AppId, Application>,
    outbox: seq<Message>,
    external: map<(AppId, Source), Row>,
    audit: seq<Entry>)

  predicate Terminal(s: Status) {
    s == COMPLETED || s == MANUAL_REVIEW
  }

  function StatusFor(d: Decision): Status {
    if d == NEEDS_REVIEW then MANUAL_REVIEW else COMPLETED
  }

  // ----- audit entries -----

  /** `write_audit_entry`: the snapshot is sanitized before it is kept. */
  function AuditEntry(h: Host, app: AppId, step: AuditStep, output: Json,
                      failure: Option<FailureType>, fallbackUsed: bool): Entry
  {
    Entry(app, step, Sanitize(h, output), failure, fallbackUsed)
  }

  function DecisionName(d: Decision): string {
    match d
    case APPROVE => "APPROVE"
    case DECLINE => "DECLINE"
    case NEEDS_REVIEW => "NEEDS_REVIEW"
  }

  function DecisionNamed(s: string): Option<Decision> {
    if s == "APPROVE" then Some(APPROVE)
    else if s == "DECLINE" then Some(DECLINE)
    else if s == "NEEDS_REVIEW" then Some(NEEDS_REVIEW)
    else None
  }

  /** `DecisionOutput.to_dict`, its two lists of texts left out. */
  function OutputDict(out: DecisionOutput): Dict {
    map["decision" := Str(DecisionName(out.decision)),
        "confidence" := Num(out.confidence),
        "data_reliability" := Num(out.reliability),
        "risk_score" := Num(out.riskScore),
        "rule_version" := Str(out.ruleVersion),
        "requires_manual_review" := Bool(out.requiresManualReview)]
  }

  function StartedEntry(h: Host, app: AppId): Entry {
    AuditEntry(h, app, PROCESSING_STARTED, Obj(map["status" := Str("PROCESSING")]), None, false)
  }

  function FetchEntry(h: Host, app: AppId, s: Source, r: ResultValue): Entry {
    var output := map["success" := Bool(r.success),
                      "data" := Obj(Redact(r.data)),
                      "raw_response" := Obj(Redact(r.raw)),
                      "retry_count" := Num(r.retryCount as real),
                      "request_id" := if r.requestId.Some? then r.requestId.value else Null];
    AuditEntry(h, app, FETCH(s), Obj(output), r.failure, r.fallbackUsed)
  }

  function DecisionEntry(h: Host, app: AppId, out: DecisionOutput): Entry {
    AuditEntry(h, app, DECISION_CALCULATION, Obj(OutputDict(out)), None, false)
  }

  function ReviewEntry(h: Host, app: AppId, out: DecisionOutput): Entry {
    AuditEntry(h, app, if out.requiresManualReview then MANUAL_REVIEW_OVERRIDE else MANUAL_REVIEW_ROUTING,
               ReviewOutput(), None, out.requiresManualReview)
  }

  function ErrorEntry(h: Host, app: AppId, kind: ErrorKind): Entry {
    AuditEntry(h, app, ERROR(kind), ReviewOutput(), None, true)
  }

  function ReviewOutput(): Json {
    Obj(map["decision" := Str(DecisionName(NEEDS_REVIEW)), "status" := Str("MANUAL_REVIEW")])
  }

  // ----- replaying the audit log -----

  /** The columns the log determines. */
  datatype Standing = Standing(status: Status, decision: Option<Decision>, confidence: Option<real>)

  const NEW_STANDING := Standing(PENDING, None, None)

  function StandingOf(a: Application): Standing {
    Standing(a.status, a.decision, a.confidence)
  }

  /** The effect of one stored entry, read back from its step and its sanitized output. */
  function ReplayEntry(v: Standing, e: Entry): Standing {
    match e.step
    case PROCESSING_STARTED => v.(status := PROCESSING)
    case DECISION_CALCULATION => DecidedStanding(v, e.output)
    case ERROR(_) => Standing(MANUAL_REVIEW, Some(NEEDS_REVIEW), v.confidence)
    case _ => v
  }

  function DecidedStanding(v: Standing, output: Json): Standing {
    if output.Obj? && "decision" in output.fields && "confidence" in output.fields
       && output.fields["decision"].Str? && output.fields["confidence"].Num?
       && DecisionNamed(output.fields["decision"].s).Some?
    then
      var d := DecisionNamed(output.fields["decision"].s).value;
      Standing(StatusFor(d), Some(d), Some(output.fields["confidence"].n))
    else v
  }

  function Replay(log: seq<Entry>, app: AppId): Standing {
    if log == [] then NEW_STANDING
    else
      var before := Replay(log[..|log| - 1], app);
      var e := log[|log| - 1];
      if e.app == app then ReplayEntry(before, e) else before
  }

  /** The sanitized decision entry still tells decision and confidence. */
  lemma DecisionEntryReplays(h: Host, v: Standing, app: AppId, out: DecisionOutput)
    ensures ReplayEntry(v, DecisionEntry(h, app, out))
            == Standing(StatusFor(out.decision), Some(out.decision), Some(out.confidence))
  {
    var d := OutputDict(out);
    assert d["decision"] == Str(DecisionName(out.decision)) && d["confidence"] == Num(out.confidence);
    assert !IsPii("decision") && !IsPii("confidence");
    assert DecisionNamed(DecisionName(out.decision)) == Some(out.decision);
    var kept := DecisionEntry(h, app, out).output.fields;
    assert kept.Keys == d.Keys;
    assert kept["decision"] == Sanitize(h, d["decision"]);
    assert kept["confidence"] == Sanitize(h, d["confidence"]);
  }

  lemma ReplayAppend(log: seq<Entry>, e: Entry, app: AppId)
    ensures Replay(log + [e], app) == if e.app == app then ReplayEntry(Replay(log, app), e) else Replay(log, app)
  {
    assert (log + [e])[..|log|] == log;
  }

  // ----- the grammar of the log -----

  function Count(log: seq<Entry>, app: AppId, step: AuditStep): nat {
    if log == [] then 0
    else
      var e := log[|log| - 1];
      Count(log[..|log| - 1], app, step) + if e.app == app && e.step == step then 1 else 0
  }

  predicate IsTerminalStep(step: AuditStep) {
    step == DECISION_CALCULATION || step.ERROR?
  }

  /** The log holds a decision or an error for the application. */
  predicate Terminated(log: seq<Entry>, app: AppId) {
    log != [] &&
    (Terminated(log[..|log| - 1], app) || (log[|log| - 1].app == app && IsTerminalStep(log[|log| - 1].step)))
  }

  predicate FetchedOnce(log: seq<Entry>, app: AppId) {
    && Count(log, app, FETCH(CREDIT_BUREAU)) == 1
    && Count(log, app, FETCH(BANK_ANALYZER)) == 1
    && Count(log, app, FETCH(GST_VERIFIER)) == 1
  }

  /** May `e` come next? */
  predicate Allowed(log: seq<Entry>, e: Entry) {
    match e.step
    case PROCESSING_STARTED => !Terminated(log, e.app)
    case FETCH(s) => Count(log, e.app, FETCH(s)) == 0
    case DECISION_CALCULATION =>
      !Terminated(log, e.app) && Count(log, e.app, PROCESSING_STARTED) >= 1 && FetchedOnce(log, e.app)
    case ERROR(_) => true
    case _ => log != [] && log[|log| - 1].app == e.app && log[|log| - 1].step == DECISION_CALCULATION
  }

  predicate Grammatical(log: seq<Entry>) {
    log == [] || (Grammatical(log[..|log| - 1]) && Allowed(log[..|log| - 1], log[|log| - 1]))
  }

  lemma CountAppend(log: seq<Entry>, e: Entry, app: AppId, step: AuditStep)
    ensures Count(log + [e], app, step) == Count(log, app, step) + if e.app == app && e.step == step then 1 else 0
    ensures Terminated(log + [e], app) <==> Terminated(log, app) || (e.app == app && IsTerminalStep(e.step))
  {
    assert (log + [e])[..|log|] == log;
  }

  lemma GrammarAppend(log: seq<Entry>, e: Entry)
    requires Grammatical(log) && Allowed(log, e)
    ensures Grammatical(log + [e])
  {
    assert (log + [e])[..|log|] == log;
  }

  /** Read as a statement about positions: each entry is allowed after everything before it. */
  lemma {:induction false} GrammaticalAt(log: seq<Entry>, i: nat)
    requires Grammatical(log) && i < |log|
    ensures Allowed(log[..i], log[i])
  {
    if i < |log| - 1 {
      GrammaticalAt(log[..|log| - 1], i);
      assert log[..|log| - 1][..i] == log[..i];
    }
  }
}
