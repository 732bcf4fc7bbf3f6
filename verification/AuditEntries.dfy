/** What the entries of the log say, in the words in which they are stored, and how they go with rows and decisions. */
module AuditEntries {
  import opened Common
  import opened Decisions
  import opened Host
  import opened Json
  import opened Machine
  import opened Providers
  import opened Redaction
  import opened Rules
  import opened Schema
  import opened ServiceResults
  import opened State
  import opened StoredResults
  import AgreementTheorems
  import AuditTheorems
  import Tx = Worker
  import Processing

  // ----- the words -----

  predicate Scalar(j: Json) {
    !j.Obj? && !j.Arr?
  }

  lemma ImpersonalScalarsAreKept(h: Host, d: Dict)
    requires forall k | k in d :: k !in PERSONAL_KEYS && Scalar(d[k])
    ensures Sanitize(h, Obj(d)) == Obj(d)
  {
    forall k | k in d ensures Sanitize(h, Obj(d)).fields[k] == d[k] { OtherKeysAreKept(h, d, k); }
  }

  const TO_REVIEW := Obj(map["decision" := Str("NEEDS_REVIEW"), "status" := Str("MANUAL_REVIEW")])

  /** Start, review and error entries. */
  lemma ShortEntriesRead(h: Host, app: AppId, out: DecisionOutput, kind: ErrorKind)
    ensures StartedEntry(h, app) == Entry(app, PROCESSING_STARTED, Obj(map["status" := Str("PROCESSING")]), None, false)
    ensures ErrorEntry(h, app, kind) == Entry(app, ERROR(kind), TO_REVIEW, None, true)
    ensures ReviewEntry(h, app, out)
            == if out.requiresManualReview then Entry(app, MANUAL_REVIEW_OVERRIDE, TO_REVIEW, None, true)
               else Entry(app, MANUAL_REVIEW_ROUTING, TO_REVIEW, None, false)
  {
    ShortOutputsAreKept(h);
  }

  lemma ShortOutputsAreKept(h: Host)
    ensures Sanitize(h, Obj(map["status" := Str("PROCESSING")])) == Obj(map["status" := Str("PROCESSING")])
    ensures Sanitize(h, ReviewOutput()) == TO_REVIEW
  {
    ImpersonalScalarsAreKept(h, map["status" := Str("PROCESSING")]);
    ImpersonalScalarsAreKept(h, TO_REVIEW.fields);
  }

  /** A decision entry holds the whole output, nothing of it banded or marked. */
  lemma DecisionEntryReads(h: Host, app: AppId, out: DecisionOutput)
    ensures DecisionEntry(h, app, out)
            == Entry(app, DECISION_CALCULATION,
                     Obj(map["decision" := Str(match out.decision
                                               case APPROVE => "APPROVE"
                                               case DECLINE => "DECLINE"
                                               case NEEDS_REVIEW => "NEEDS_REVIEW"),
                             "confidence" := Num(out.confidence),
                             "data_reliability" := Num(out.reliability),
                             "risk_score" := Num(out.riskScore),
                             "rule_version" := Str(out.ruleVersion),
                             "requires_manual_review" := Bool(out.requiresManualReview)]),
                     None, false)
  {
    OutputIsImpersonal(out);
    ImpersonalScalarsAreKept(h, OutputDict(out));
  }

  lemma OutputIsImpersonal(out: DecisionOutput)
    ensures forall k | k in OutputDict(out) :: k !in PERSONAL_KEYS && Scalar(OutputDict(out)[k])
  {
  }

  /** A fetch entry holds the result, its payloads redacted and then sanitized. */
  lemma FetchEntryReads(h: Host, app: AppId, s: Source, r: ResultValue)
    ensures var e := FetchEntry(h, app, s, r);
            && e.app == app && e.step == FETCH(s) && e.failure == r.failure && e.fallbackUsed == r.fallbackUsed
            && e.output.Obj?
            && e.output.fields.Keys == {"success", "data", "raw_response", "retry_count", "request_id"}
            && e.output.fields["success"] == Bool(r.success)
            && e.output.fields["data"] == Sanitize(h, Obj(Redact(r.data)))
            && e.output.fields["raw_response"] == Sanitize(h, Obj(Redact(r.raw)))
            && e.output.fields["retry_count"] == Num(r.retryCount as real)
            && e.output.fields["request_id"] == match r.requestId
                                                case Some(id) => Sanitize(h, id)
                                                case None => Null
  {
    var output: Dict := map["success" := Bool(r.success),
                            "data" := Obj(Redact(r.data)),
                            "raw_response" := Obj(Redact(r.raw)),
                            "retry_count" := Num(r.retryCount as real),
                            "request_id" := if r.requestId.Some? then r.requestId.value else Null];
    FieldsAreSanitized(h, output, FetchEntry(h, app, s, r).output);
  }

  const FETCH_FIELDS := {"success", "data", "raw_response", "retry_count", "request_id"}

  lemma FieldsAreSanitized(h: Host, d: Dict, output: Json)
    requires output == Sanitize(h, Obj(d)) && d.Keys == FETCH_FIELDS
    ensures output.Obj? && output.fields.Keys == FETCH_FIELDS
    ensures output.fields["success"] == Sanitize(h, d["success"]) && output.fields["data"] == Sanitize(h, d["data"])
    ensures output.fields["raw_response"] == Sanitize(h, d["raw_response"])
    ensures output.fields["retry_count"] == Sanitize(h, d["retry_count"])
    ensures output.fields["request_id"] == Sanitize(h, d["request_id"])
  {
    ImpersonalIsSanitized(h, d, "success");
    ImpersonalIsSanitized(h, d, "data");
    ImpersonalIsSanitized(h, d, "raw_response");
    ImpersonalIsSanitized(h, d, "retry_count");
    ImpersonalIsSanitized(h, d, "request_id");
  }

  lemma ImpersonalIsSanitized(h: Host, d: Dict, k: string)
    requires k in d && k !in PERSONAL_KEYS
    ensures Sanitize(h, Obj(d)).Obj? && Sanitize(h, Obj(d)).fields.Keys == d.Keys
    ensures Sanitize(h, Obj(d)).fields[k] == Sanitize(h, d[k])
  {
  }

  // ----- what stands behind each entry -----

  predicate Truthful(r: ResultValue) {
    r.success <==> r.failure.None?
  }

  predicate FetchTold(h: Host, t: Tables, e: Entry, s: Source, r: ResultValue) {
    && Truthful(r) && e == FetchEntry(h, e.app, s, r)
    && (e.app, s) in t.external && t.external[(e.app, s)] == StoredRow(r)
  }

  predicate DecisionTold(h: Host, log: seq<Entry>, i: nat, out: DecisionOutput)
    requires i < |log|
  {
    && log[i] == DecisionEntry(h, log[i].app, out)
    && (out.decision == NEEDS_REVIEW ==> i + 1 < |log| && log[i + 1] == ReviewEntry(h, log[i].app, out))
  }

  predicate ReviewTold(h: Host, log: seq<Entry>, i: nat, out: DecisionOutput)
    requires 0 < i < |log|
  {
    && out.decision == NEEDS_REVIEW
    && log[i - 1] == DecisionEntry(h, log[i].app, out) && log[i] == ReviewEntry(h, log[i].app, out)
  }

  ghost predicate Told(h: Host, t: Tables, i: nat)
    requires i < |t.audit|
  {
    var e := t.audit[i];
    match e.step
    case PROCESSING_STARTED => e == StartedEntry(h, e.app)
    case FETCH(s) => exists r: ResultValue :: FetchTold(h, t, e, s, r)
    case DECISION_CALCULATION => exists out: DecisionOutput :: DecisionTold(h, t.audit, i, out)
    case ERROR(kind) => e == ErrorEntry(h, e.app, kind)
    case _ => i > 0 && exists out: DecisionOutput :: ReviewTold(h, t.audit, i, out)
  }

  ghost predicate AllTold(h: Host, t: Tables) {
    forall i: nat | i < |t.audit| :: Told(h, t, i)
  }

  predicate SlotTruthful(slot: Slot) {
    match slot
    case Checking(r) => Truthful(r)
    case Unstored(r) => Truthful(r)
    case _ => true
  }

  predicate WorkerTruthful(wk: Worker) {
    SlotTruthful(wk.credit) && SlotTruthful(wk.bank) && SlotTruthful(wk.gst)
  }

  ghost predicate EntryInv(cfg: Settings, w: World) {
    && AllTold(cfg.h, w.tables)
    && forall id | id in w.workers :: WorkerTruthful(w.workers[id])
  }

  lemma ToldStays(h: Host, t: Tables, t': Tables, i: nat)
    requires i < |t.audit| && Told(h, t, i) && t.audit <= t'.audit
    requires forall k | k in t.external :: k in t'.external && t'.external[k] == t.external[k]
    ensures Told(h, t', i)
  {
    match t.audit[i].step
    case FETCH(s) =>
      var r: ResultValue :| FetchTold(h, t, t.audit[i], s, r);
      assert FetchTold(h, t', t'.audit[i], s, r);
    case DECISION_CALCULATION =>
      var out: DecisionOutput :| DecisionTold(h, t.audit, i, out);
      assert DecisionTold(h, t'.audit, i, out);
    case MANUAL_REVIEW_OVERRIDE =>
      var out: DecisionOutput :| ReviewTold(h, t.audit, i, out);
      assert ReviewTold(h, t'.audit, i, out);
    case MANUAL_REVIEW_ROUTING =>
      var out: DecisionOutput :| ReviewTold(h, t.audit, i, out);
      assert ReviewTold(h, t'.audit, i, out);
    case _ =>
  }

  lemma AllStayTold(h: Host, t: Tables, t': Tables)
    requires AllTold(h, t) && AuditTheorems.Grows(t, t')
    requires forall i: nat | |t.audit| <= i < |t'.audit| :: Told(h, t', i)
    ensures AllTold(h, t')
  {
    forall i: nat | i < |t'.audit| ensures Told(h, t', i) {
      if i < |t.audit| { ToldStays(h, t, t', i); }
    }
  }

  // ----- the writers -----

  lemma ClaimTells(h: Host, t: Tables, app: AppId, now: int, lockTimeout: int)
    requires AllTold(h, t)
    ensures AllTold(h, Tx.ClaimApp(h, t, app, now, lockTimeout).0)
  {
    AuditTheorems.ClaimGrows(h, t, app, now, lockTimeout);
    AllStayTold(h, t, Tx.ClaimApp(h, t, app, now, lockTimeout).0);
  }

  lemma InsertTells(h: Host, t: Tables, t': Tables, app: AppId, s: Source, r: ResultValue)
    requires AllTold(h, t) && Truthful(r) && Tx.InsertExternal(h, t, app, s, r) == Some(t')
    ensures AllTold(h, t')
  {
    assert AuditTheorems.Grows(t, t');
    assert FetchTold(h, t', t'.audit[|t.audit|], s, r);
    AllStayTold(h, t, t');
  }

  lemma StoreTells(h: Host, t: Tables, app: AppId, out: DecisionOutput, now: int)
    requires AllTold(h, t)
    ensures AllTold(h, Tx.StoreDecision(h, t, app, out, now))
  {
    var t' := Tx.StoreDecision(h, t, app, out, now);
    AuditTheorems.StoreGrows(h, t, app, out, now);
    if t' != t {
      var n := |t.audit|;
      assert DecisionTold(h, t'.audit, n, out);
      if out.decision == NEEDS_REVIEW { assert ReviewTold(h, t'.audit, n + 1, out); }
    }
    AllStayTold(h, t, t');
  }

  lemma MarkTells(h: Host, t: Tables, app: AppId, kind: ErrorKind, now: int)
    requires AllTold(h, t)
    ensures AllTold(h, Tx.MarkManualReview(h, t, app, kind, now))
  {
    AuditTheorems.MarkGrows(h, t, app, kind, now);
    AllStayTold(h, t, Tx.MarkManualReview(h, t, app, kind, now));
  }

  lemma AnswersAreTruthful(h: Host, s: Source, call: ResultValue, now: int)
    requires CallShape(call) && AfterCall(h, s, call, now).Ok?
    ensures Truthful(AfterCall(h, s, call, now).value)
  {
  }

  lemma TablesTell(cfg: Settings, w: World, id: int, a: WorkAction)
    requires EntryInv(cfg, w)
    ensures AllTold(cfg.h, WorkStep(cfg, w, id, a).tables)
  {
    match a
    case ClaimApplication =>
      if id in w.workers { ClaimTells(cfg.h, w.tables, w.workers[id].app, w.clock, cfg.lockTimeout); }
    case InsertChecked(s) => if Processing.Fetching(w, id) { InsertStepTells(cfg, w, id, s); }
    case StoreResults =>
      if id in w.workers && w.workers[id].stage.Decided? {
        StoreTells(cfg.h, w.tables, w.workers[id].app, w.workers[id].stage.out, w.clock);
      }
    case MarkError =>
      if id in w.workers && w.workers[id].stage.Failed? {
        MarkTells(cfg.h, w.tables, w.workers[id].app, w.workers[id].stage.kind, w.clock);
      }
    case _ => AuditTheorems.ReadersLeaveTables(cfg, w, id, a);
  }

  lemma InsertStepTells(cfg: Settings, w: World, id: int, s: Source)
    requires EntryInv(cfg, w) && Processing.Fetching(w, id)
    ensures AllTold(cfg.h, Processing.InsertChecked(cfg, w, id, s).tables)
  {
    var wk := w.workers[id];
    assert WorkerTruthful(wk);
    if SlotOf(wk, s).Unstored? {
      match Tx.InsertExternal(cfg.h, w.tables, wk.app, s, SlotOf(wk, s).answer)
      case Some(t) => InsertTells(cfg.h, w.tables, t, wk.app, s, SlotOf(wk, s).answer);
      case None =>
    }
  }

  lemma WorkersStayTruthful(cfg: Settings, w: World, id: int, a: WorkAction)
    requires forall x | x in w.workers :: WorkerTruthful(w.workers[x])
    ensures forall x | x in WorkStep(cfg, w, id, a).workers :: WorkerTruthful(WorkStep(cfg, w, id, a).workers[x])
  {
    match a
    case Answer(s, call) => AnswerStaysTruthful(cfg, w, id, s, call);
    case ClaimApplication => ClaimantIsTruthful(cfg, w, id);
    case LoadExternal(s) => ReaderIsTruthful(w, id, s);
    case CheckExternal(s) => ReaderIsTruthful(w, id, s);
    case InsertChecked(s) => InserterIsTruthful(cfg, w, id, s);
    case DecideApplication => DeciderIsTruthful(cfg, w, id);
    case _ =>
  }

  lemma DeciderIsTruthful(cfg: Settings, w: World, id: int)
    requires forall x | x in w.workers :: WorkerTruthful(w.workers[x])
    ensures var w' := Processing.DecideApplication(cfg, w, id);
            forall x | x in w'.workers :: WorkerTruthful(w'.workers[x])
  {
  }

  lemma AnswerStaysTruthful(cfg: Settings, w: World, id: int, s: Source, call: ResultValue)
    requires forall x | x in w.workers :: WorkerTruthful(w.workers[x])
    ensures var w' := Processing.Answer(cfg, w, id, s, call);
            forall x | x in w'.workers :: WorkerTruthful(w'.workers[x])
  {
    if CallShape(call) && AfterCall(cfg.h, s, call, w.clock).Ok? { AnswersAreTruthful(cfg.h, s, call, w.clock); }
  }

  lemma ClaimantIsTruthful(cfg: Settings, w: World, id: int)
    requires forall x | x in w.workers :: WorkerTruthful(w.workers[x])
    ensures var w' := Processing.ClaimApplication(cfg, w, id);
            forall x | x in w'.workers :: WorkerTruthful(w'.workers[x])
  {
  }

  lemma ReaderIsTruthful(w: World, id: int, s: Source)
    requires forall x | x in w.workers :: WorkerTruthful(w.workers[x])
    ensures var w' := Processing.LoadExternal(w, id, s);
            forall x | x in w'.workers :: WorkerTruthful(w'.workers[x])
    ensures var w' := Processing.CheckExternal(w, id, s);
            forall x | x in w'.workers :: WorkerTruthful(w'.workers[x])
  {
  }

  lemma InserterIsTruthful(cfg: Settings, w: World, id: int, s: Source)
    requires forall x | x in w.workers :: WorkerTruthful(w.workers[x])
    ensures var w' := Processing.InsertChecked(cfg, w, id, s);
            forall x | x in w'.workers :: WorkerTruthful(w'.workers[x])
  {
  }

  lemma EntryInvKept(cfg: Settings, actions: seq<Action>, a: Action)
    requires EntryInv(cfg, Run(cfg, actions))
    ensures EntryInv(cfg, Step(cfg, Run(cfg, actions), a))
  {
    var w := Run(cfg, actions);
    match a
    case Work(id, work) =>
      TablesTell(cfg, w, id, work);
      WorkersStayTruthful(cfg, w, id, work);
    case _ =>
      AgreementTheorems.StepGrows(cfg, actions, a);
      AgreementTheorems.OthersLeaveLog(cfg, w, a);
      AllStayTold(cfg.h, w.tables, Step(cfg, w, a).tables);
  }

  lemma {:induction false} EntryInvHolds(cfg: Settings, actions: seq<Action>)
    ensures EntryInv(cfg, Run(cfg, actions))
  {
    if actions != [] {
      EntryInvHolds(cfg, actions[..|actions| - 1]);
      EntryInvKept(cfg, actions[..|actions| - 1], actions[|actions| - 1]);
    }
  }

  // ----- the theorems -----

  /**
   In every run a decision of NEEDS_REVIEW, and no other, is followed at once by its review entry: an override when the
   confidence forced it, a routing when the rules did.
   */
  lemma {:induction false} ReviewFollowsDecision(cfg: Settings, actions: seq<Action>, i: nat)
    requires i < |Run(cfg, actions).tables.audit| && Run(cfg, actions).tables.audit[i].step == DECISION_CALCULATION
    ensures var log := Run(cfg, actions).tables.audit;
            && log[i].output.Obj?
            && var output := log[i].output.fields;
               && "decision" in output && "requires_manual_review" in output
               && (output["decision"] == Str("NEEDS_REVIEW") <==>
                     && i + 1 < |log|
                     && (log[i + 1].step == MANUAL_REVIEW_OVERRIDE || log[i + 1].step == MANUAL_REVIEW_ROUTING))
               && (output["decision"] == Str("NEEDS_REVIEW") ==>
                     log[i + 1] == if output["requires_manual_review"] == Bool(true)
                                   then Entry(log[i].app, MANUAL_REVIEW_OVERRIDE, TO_REVIEW, None, true)
                                   else Entry(log[i].app, MANUAL_REVIEW_ROUTING, TO_REVIEW, None, false))
  {
    EntryInvHolds(cfg, actions);
    var t := Run(cfg, actions).tables;
    assert Told(cfg.h, t, i);
    var out: DecisionOutput :| DecisionTold(cfg.h, t.audit, i, out);
    DecisionSays(cfg.h, t.audit[i].app, out);
    ShortEntriesRead(cfg.h, t.audit[i].app, out, SYSTEM_ERROR);
    if i + 1 < |t.audit| && out.decision != NEEDS_REVIEW { NoReviewAfter(cfg.h, t, i, out); }
  }

  lemma DecisionSays(h: Host, app: AppId, out: DecisionOutput)
    ensures var output := DecisionEntry(h, app, out).output;
            && output.Obj? && "decision" in output.fields && "requires_manual_review" in output.fields
            && (output.fields["decision"] == Str("NEEDS_REVIEW") <==> out.decision == NEEDS_REVIEW)
            && output.fields["requires_manual_review"] == Bool(out.requiresManualReview)
  {
    DecisionEntryReads(h, app, out);
  }

  lemma NoReviewAfter(h: Host, t: Tables, i: nat, out: DecisionOutput)
    requires AllTold(h, t) && i + 1 < |t.audit|
    requires t.audit[i] == DecisionEntry(h, t.audit[i].app, out) && out.decision != NEEDS_REVIEW
    ensures t.audit[i + 1].step != MANUAL_REVIEW_OVERRIDE && t.audit[i + 1].step != MANUAL_REVIEW_ROUTING
  {
    assert Told(h, t, i + 1);
    DecisionEntryReplays(h, NEW_STANDING, t.audit[i].app, out);
    if t.audit[i + 1].step == MANUAL_REVIEW_OVERRIDE || t.audit[i + 1].step == MANUAL_REVIEW_ROUTING {
      var out': DecisionOutput :| ReviewTold(h, t.audit, i + 1, out');
      DecisionEntryReplays(h, NEW_STANDING, t.audit[i + 1].app, out');
    }
  }

  /**
   In every run a fetch entry tells what its row holds: the same failure, success exactly without one, and as payload
   the row's own, which is the raw answer unless there is none.
   */
  lemma {:induction false} FetchTellsRow(cfg: Settings, actions: seq<Action>, i: nat)
    requires i < |Run(cfg, actions).tables.audit| && Run(cfg, actions).tables.audit[i].step.FETCH?
    ensures var t := Run(cfg, actions).tables;
            var e := t.audit[i];
            && (e.app, e.step.source) in t.external && e.output.Obj?
            && {"success", "data", "raw_response"} <= e.output.fields.Keys
            && var row, output := t.external[(e.app, e.step.source)], e.output.fields;
               && e.failure == row.failure && output["success"] == Bool(row.failure.None?)
               && Sanitize(cfg.h, Obj(row.response))
                  == if output["raw_response"] == Obj(map[]) then output["data"] else output["raw_response"]
  {
    EntryInvHolds(cfg, actions);
    var t := Run(cfg, actions).tables;
    var e := t.audit[i];
    assert Told(cfg.h, t, i);
    var r: ResultValue :| FetchTold(cfg.h, t, e, e.step.source, r);
    FetchEntryReads(cfg.h, e.app, e.step.source, r);
    EmptyStaysEmpty(cfg.h, r.raw);
  }

  lemma EmptyStaysEmpty(h: Host, d: Option<Dict>)
    ensures Sanitize(h, Obj(Redact(d))) == Obj(map[]) <==> !Present(d)
  {
    if Present(d) {
      var k :| k in d.value;
      assert k in Redact(d) && k in Sanitize(h, Obj(Redact(d))).fields;
    }
  }

  /** In every run the other entries say no more than what they are. */
  lemma {:induction false} StartsAndErrorsRead(cfg: Settings, actions: seq<Action>, i: nat)
    requires i < |Run(cfg, actions).tables.audit|
    ensures var e := Run(cfg, actions).tables.audit[i];
            match e.step
            case PROCESSING_STARTED =>
              e == Entry(e.app, PROCESSING_STARTED, Obj(map["status" := Str("PROCESSING")]), None, false)
            case ERROR(kind) => e == Entry(e.app, ERROR(kind), TO_REVIEW, None, true)
            case _ => true
  {
    EntryInvHolds(cfg, actions);
    var t := Run(cfg, actions).tables;
    assert Told(cfg.h, t, i);
    if t.audit[i].step == PROCESSING_STARTED || t.audit[i].step.ERROR? { ShortTold(cfg.h, t, i); }
  }

  lemma ShortTold(h: Host, t: Tables, i: nat)
    requires i < |t.audit| && Told(h, t, i)
    ensures var e := t.audit[i];
            match e.step
            case PROCESSING_STARTED =>
              e == Entry(e.app, PROCESSING_STARTED, Obj(map["status" := Str("PROCESSING")]), None, false)
            case ERROR(kind) => e == Entry(e.app, ERROR(kind), TO_REVIEW, None, true)
            case _ => true
  {
    ShortOutputsAreKept(h);
  }
}
