/** The audit log replays to the application row and obeys its grammar, in every run. */
module AuditTheorems {
  import opened Common
  import opened Decisions
  import opened Frames
  import opened Host
  import opened Json
  import opened Machine
  import opened Providers
  import opened Redaction
  import opened Rules
  import opened Schema
  import opened ServiceResults
  import opened State
  import opened StoredResults
  import IntakeTheorems
  import Tx = Worker
  import Processing

  // ----- what the log says about one application -----

  datatype Profile = Profile(standing: Standing, terminated: bool, started: nat, decisions: nat,
                             credit: nat, bank: nat, gst: nat)

  function ProfileOf(log: seq<Entry>, app: AppId): Profile {
    Profile(Replay(log, app), Terminated(log, app),
            Count(log, app, PROCESSING_STARTED), Count(log, app, DECISION_CALCULATION),
            Count(log, app, FETCH(CREDIT_BUREAU)), Count(log, app, FETCH(BANK_ANALYZER)),
            Count(log, app, FETCH(GST_VERIFIER)))
  }

  const BLANK := Profile(NEW_STANDING, false, 0, 0, 0, 0, 0)

  function Fetches(p: Profile, s: Source): nat {
    match s
    case CREDIT_BUREAU => p.credit
    case BANK_ANALYZER => p.bank
    case GST_VERIFIER => p.gst
  }

  function Advance(p: Profile, e: Entry): Profile {
    var p' := p.(standing := ReplayEntry(p.standing, e), terminated := p.terminated || IsTerminalStep(e.step));
    match e.step
    case PROCESSING_STARTED => p'.(started := p.started + 1)
    case DECISION_CALCULATION => p'.(decisions := p.decisions + 1)
    case FETCH(CREDIT_BUREAU) => p'.(credit := p.credit + 1)
    case FETCH(BANK_ANALYZER) => p'.(bank := p.bank + 1)
    case FETCH(GST_VERIFIER) => p'.(gst := p.gst + 1)
    case _ => p'
  }

  lemma ProfileAppend(log: seq<Entry>, e: Entry, app: AppId)
    ensures ProfileOf(log + [e], app) == if e.app == app then Advance(ProfileOf(log, app), e) else ProfileOf(log, app)
  {
    ReplayAppend(log, e, app);
    CountAppend(log, e, app, PROCESSING_STARTED);
    CountAppend(log, e, app, DECISION_CALCULATION);
    CountAppend(log, e, app, FETCH(CREDIT_BUREAU));
    CountAppend(log, e, app, FETCH(BANK_ANALYZER));
    CountAppend(log, e, app, FETCH(GST_VERIFIER));
  }

  lemma {:induction false} UnmentionedIsBlank(log: seq<Entry>, app: AppId)
    requires forall i | 0 <= i < |log| :: log[i].app != app
    ensures ProfileOf(log, app) == BLANK
  {
    if log != [] {
      UnmentionedIsBlank(log[..|log| - 1], app);
      assert log == log[..|log| - 1] + [log[|log| - 1]];
      ProfileAppend(log[..|log| - 1], log[|log| - 1], app);
    }
  }

  // ----- the invariant of the tables -----

  /** COMPLETED goes with APPROVE or DECLINE, MANUAL_REVIEW with NEEDS_REVIEW, anything else with no decision. */
  predicate Coupled(v: Standing) {
    match v.status
    case COMPLETED => v.decision == Some(APPROVE) || v.decision == Some(DECLINE)
    case MANUAL_REVIEW => v.decision == Some(NEEDS_REVIEW)
    case _ => v.decision == None
  }

  /** The row against its profile; `stored` tells which external rows exist. */
  ghost predicate RowMatches(a: Application, p: Profile, app: AppId, external: map<(AppId, Source), Row>) {
    && StandingOf(a) == p.standing
    && Coupled(p.standing)
    && (p.terminated <==> Terminal(a.status))
    && p.decisions <= 1 && (p.decisions == 1 ==> p.terminated)
    && forall s :: Fetches(p, s) == if (app, s) in external then 1 else 0
  }

  ghost predicate TablesOk(t: Tables) {
    && (forall app | app in t.apps :: RowMatches(t.apps[app], ProfileOf(t.audit, app), app, t.external))
    && (forall i | 0 <= i < |t.audit| :: t.audit[i].app in t.apps && PiiFree(t.audit[i].output))
    && (forall k | k in t.external :: k.0 in t.apps)
    && Grammatical(t.audit)
  }

  /** Appending one entry about `app`, whose row and external rows may change with it. */
  lemma EntryKeeps(t: Tables, t': Tables, app: AppId, e: Entry)
    requires TablesOk(t) && app in t.apps && e.app == app && PiiFree(e.output) && Allowed(t.audit, e)
    requires t'.audit == t.audit + [e] && t'.apps.Keys == t.apps.Keys
    requires forall x | x in t.apps && x != app :: t'.apps[x] == t.apps[x]
    requires forall x, s | x != app :: (x, s) in t'.external <==> (x, s) in t.external
    requires forall k | k in t'.external :: k.0 in t.apps
    requires RowMatches(t'.apps[app], Advance(ProfileOf(t.audit, app), e), app, t'.external)
    ensures TablesOk(t')
  {
    forall x | x in t'.apps
      ensures RowMatches(t'.apps[x], ProfileOf(t'.audit, x), x, t'.external)
    {
      ProfileAppend(t.audit, e, x);
      assert RowMatches(t.apps[x], ProfileOf(t.audit, x), x, t.external);
    }
    GrammarAppend(t.audit, e);
  }

  lemma EntriesArePiiFree(h: Host, app: AppId, step: AuditStep, output: Json, failure: Option<FailureType>,
                          fallback: bool)
    ensures PiiFree(AuditEntry(h, app, step, output, failure, fallback).output)
  {
    SanitizedIsPiiFree(h, output);
  }

  lemma ClaimKeeps(h: Host, t: Tables, app: AppId, now: int, lockTimeout: int)
    requires TablesOk(t)
    ensures TablesOk(Tx.ClaimApp(h, t, app, now, lockTimeout).0)
  {
    var (t', outcome) := Tx.ClaimApp(h, t, app, now, lockTimeout);
    if outcome.Claimed? {
      var e := StartedEntry(h, app);
      EntriesArePiiFree(h, app, PROCESSING_STARTED, Obj(map["status" := Str("PROCESSING")]), None, false);
      assert RowMatches(t.apps[app], ProfileOf(t.audit, app), app, t.external);
      EntryKeeps(t, t', app, e);
    }
  }

  lemma InsertKeepsTables(h: Host, t: Tables, app: AppId, s: Source, r: ResultValue)
    requires TablesOk(t) && app in t.apps && (app, s) !in t.external
    ensures TablesOk(Tx.InsertExternal(h, t, app, s, r).value)
  {
    var e := FetchEntry(h, app, s, r);
    FetchEntryIsPiiFree(h, app, s, r);
    var p := ProfileOf(t.audit, app);
    assert RowMatches(t.apps[app], p, app, t.external);
    FetchMatches(t.apps[app], p, app, t.external, s, e, StoredRow(r));
    assert Fetches(p, s) == Count(t.audit, app, FETCH(s));
    EntryKeeps(t, Tx.InsertExternal(h, t, app, s, r).value, app, e);
  }

  lemma FetchEntryIsPiiFree(h: Host, app: AppId, s: Source, r: ResultValue)
    ensures PiiFree(FetchEntry(h, app, s, r).output)
  {
    SanitizedIsPiiFree(h, Obj(map["success" := Bool(r.success),
                                  "data" := Obj(Redact(r.data)),
                                  "raw_response" := Obj(Redact(r.raw)),
                                  "retry_count" := Num(r.retryCount as real),
                                  "request_id" := if r.requestId.Some? then r.requestId.value else Null]));
  }

  lemma FetchMatches(a: Application, p: Profile, app: AppId, external: map<(AppId, Source), Row>, s: Source,
                     e: Entry, row: Row)
    requires RowMatches(a, p, app, external) && (app, s) !in external && e.step == FETCH(s)
    ensures Fetches(p, s) == 0
    ensures RowMatches(a, Advance(p, e), app, external[(app, s) := row])
  {
  }

  lemma DecisionKeeps(h: Host, t: Tables, t': Tables, app: AppId, out: DecisionOutput)
    requires TablesOk(t) && app in t.apps && !Terminal(t.apps[app].status)
    requires ProfileOf(t.audit, app).started >= 1
    requires forall s :: (app, s) in t.external
    requires t'.apps.Keys == t.apps.Keys && t'.external == t.external
             && t'.audit == t.audit + [DecisionEntry(h, app, out)]
    requires forall x | x in t.apps && x != app :: t'.apps[x] == t.apps[x]
    requires StandingOf(t'.apps[app]) == Standing(StatusFor(out.decision), Some(out.decision), Some(out.confidence))
    ensures TablesOk(t')
  {
    var e := DecisionEntry(h, app, out);
    var p := ProfileOf(t.audit, app);
    assert RowMatches(t.apps[app], p, app, t.external);
    assert Fetches(p, CREDIT_BUREAU) == 1 && Fetches(p, BANK_ANALYZER) == 1 && Fetches(p, GST_VERIFIER) == 1;
    DecisionEntryReplays(h, p.standing, app, out);
    SanitizedIsPiiFree(h, Obj(OutputDict(out)));
    forall s ensures Fetches(Advance(p, e), s) == Fetches(p, s) {}
    assert RowMatches(t'.apps[app], Advance(p, e), app, t'.external);
    EntryKeeps(t, t', app, e);
  }

  lemma ReviewKeeps(h: Host, t: Tables, app: AppId, out: DecisionOutput)
    requires TablesOk(t) && app in t.apps && t.audit != []
    requires t.audit[|t.audit| - 1].app == app && t.audit[|t.audit| - 1].step == DECISION_CALCULATION
    ensures TablesOk(t.(audit := t.audit + [ReviewEntry(h, app, out)]))
  {
    var e := ReviewEntry(h, app, out);
    var p := ProfileOf(t.audit, app);
    assert RowMatches(t.apps[app], p, app, t.external);
    SanitizedIsPiiFree(h, ReviewOutput());
    assert Advance(p, e) == p;
    EntryKeeps(t, t.(audit := t.audit + [e]), app, e);
  }

  lemma StoreKeeps(h: Host, t: Tables, app: AppId, out: DecisionOutput, now: int)
    requires TablesOk(t) && app in t.apps
    requires ProfileOf(t.audit, app).started >= 1
    requires forall s :: (app, s) in t.external
    ensures TablesOk(Tx.StoreDecision(h, t, app, out, now))
  {
    if !Terminal(t.apps[app].status) {
      var t' := Tx.StoreDecision(h, t, app, out, now);
      var t1 := t'.(audit := t.audit + [DecisionEntry(h, app, out)]);
      DecisionKeeps(h, t, t1, app, out);
      if out.decision == NEEDS_REVIEW {
        ReviewKeeps(h, t1, app, out);
        assert t'.audit == t1.audit + [ReviewEntry(h, app, out)];
      } else {
        assert t'.audit == t1.audit;
      }
    }
  }

  lemma MarkKeeps(h: Host, t: Tables, app: AppId, kind: ErrorKind, now: int)
    requires TablesOk(t)
    ensures TablesOk(Tx.MarkManualReview(h, t, app, kind, now))
  {
    if app in t.apps {
      SanitizedIsPiiFree(h, ReviewOutput());
      assert RowMatches(t.apps[app], ProfileOf(t.audit, app), app, t.external);
      EntryKeeps(t, Tx.MarkManualReview(h, t, app, kind, now), app, ErrorEntry(h, app, kind));
    }
  }

  // ----- the invariant of the workers -----

  ghost predicate WorkerOk(t: Tables, wk: Worker) {
    && (wk.claim.Some? ==> wk.app in t.apps && Count(t.audit, wk.app, PROCESSING_STARTED) >= 1
                           && t.apps[wk.app].sealed == Some(wk.user))
    && (wk.claim.None? ==> wk.credit.Loading? && wk.bank.Loading? && wk.gst.Loading?)
    && (forall s :: SlotOf(wk, s).Have? ==> (wk.app, s) in t.external)
    && (wk.stage.Gathering? || wk.stage.Decided? ==> wk.claim.Some?)
    && (wk.stage.Delivered? ==> wk.claim.None?)
    && (wk.stage.Decided? ==> wk.credit.Have? && wk.bank.Have? && wk.gst.Have?)
  }

  ghost predicate AuditInv(w: World) {
    && TablesOk(w.tables)
    && forall id | id in w.workers :: WorkerOk(w.tables, w.workers[id])
  }

  /** Rows and log only grow; sealed data never changes. */
  ghost predicate Grows(t: Tables, t': Tables) {
    && (forall app | app in t.apps :: app in t'.apps && t'.apps[app].sealed == t.apps[app].sealed)
    && (forall k | k in t.external :: k in t'.external && t'.external[k] == t.external[k])
    && t.audit <= t'.audit
  }

  lemma {:induction false} CountGrows(log: seq<Entry>, log': seq<Entry>, app: AppId, step: AuditStep)
    requires log <= log'
    ensures Count(log, app, step) <= Count(log', app, step)
    decreases |log'|
  {
    if |log| < |log'| {
      CountGrows(log, log'[..|log'| - 1], app, step);
    } else {
      assert log == log';
    }
  }

  lemma WorkerStaysOk(t: Tables, t': Tables, wk: Worker)
    requires WorkerOk(t, wk) && Grows(t, t')
    ensures WorkerOk(t', wk)
  {
    CountGrows(t.audit, t'.audit, wk.app, PROCESSING_STARTED);
  }

  lemma StoreGrows(h: Host, t: Tables, app: AppId, out: DecisionOutput, now: int)
    ensures Grows(t, Tx.StoreDecision(h, t, app, out, now))
  {
  }

  lemma MarkGrows(h: Host, t: Tables, app: AppId, kind: ErrorKind, now: int)
    ensures Grows(t, Tx.MarkManualReview(h, t, app, kind, now))
  {
  }

  lemma InsertGrows(cfg: Settings, w: World, id: int, s: Source)
    ensures Grows(w.tables, Processing.InsertChecked(cfg, w, id, s).tables)
  {
  }

  lemma ClaimStepGrows(cfg: Settings, w: World, id: int)
    ensures Grows(w.tables, Processing.ClaimApplication(cfg, w, id).tables)
  {
    if id in w.workers { ClaimGrows(cfg.h, w.tables, w.workers[id].app, w.clock, cfg.lockTimeout); }
  }

  lemma StoreStepGrows(cfg: Settings, w: World, id: int)
    ensures Grows(w.tables, Processing.StoreResults(cfg, w, id).tables)
  {
    if id in w.workers && w.workers[id].stage.Decided? {
      StoreGrows(cfg.h, w.tables, w.workers[id].app, w.workers[id].stage.out, w.clock);
    }
  }

  lemma MarkStepGrows(cfg: Settings, w: World, id: int)
    ensures Grows(w.tables, Processing.MarkError(cfg, w, id).tables)
  {
    if id in w.workers && w.workers[id].stage.Failed? {
      MarkGrows(cfg.h, w.tables, w.workers[id].app, w.workers[id].stage.kind, w.clock);
    }
  }

  /** The other steps write no table. */
  lemma ReadersLeaveTables(cfg: Settings, w: World, id: int, a: WorkAction)
    requires !a.ClaimApplication? && !a.InsertChecked? && !a.StoreResults? && !a.MarkError?
    ensures WorkStep(cfg, w, id, a).tables == w.tables
  {
    match a
    case Answer(s, call) =>
    case DecideApplication =>
    case _ =>
  }

  lemma WorkGrows(cfg: Settings, w: World, id: int, a: WorkAction)
    ensures Grows(w.tables, WorkStep(cfg, w, id, a).tables)
  {
    match a
    case InsertChecked(s) => InsertGrows(cfg, w, id, s);
    case ClaimApplication => ClaimStepGrows(cfg, w, id);
    case StoreResults => StoreStepGrows(cfg, w, id);
    case MarkError => MarkStepGrows(cfg, w, id);
    case _ => ReadersLeaveTables(cfg, w, id, a);
  }

  /** Worker `id` becomes `wk` on tables that are in order; the others are not disturbed. */
  lemma WorkerChanges(w: World, w': World, id: int)
    requires AuditInv(w) && TablesOk(w'.tables) && Grows(w.tables, w'.tables)
    requires forall x | x in w'.workers && x != id :: x in w.workers && w'.workers[x] == w.workers[x]
    requires id in w'.workers ==> WorkerOk(w'.tables, w'.workers[id])
    ensures AuditInv(w')
  {
    forall x | x in w'.workers && x != id ensures WorkerOk(w'.tables, w'.workers[x]) {
      WorkerStaysOk(w.tables, w'.tables, w.workers[x]);
    }
  }

  lemma PutKeeps(w: World, id: int, wk: Worker)
    requires AuditInv(w) && WorkerOk(w.tables, wk)
    ensures AuditInv(Processing.Put(w, id, wk))
  {
    WorkerChanges(w, Processing.Put(w, id, wk), id);
  }

  lemma FailedStaysOk(t: Tables, wk: Worker, kind: ErrorKind)
    requires WorkerOk(t, wk)
    ensures WorkerOk(t, Processing.Fail(wk, kind))
  {
    forall s ensures SlotOf(Processing.Fail(wk, kind), s) == SlotOf(wk, s) {}
  }

  lemma SlotStaysOk(t: Tables, wk: Worker, s: Source, slot: Slot)
    requires WorkerOk(t, wk) && wk.claim.Some? && !wk.stage.Decided?
    requires slot.Have? ==> (wk.app, s) in t.external
    ensures WorkerOk(t, WithSlot(wk, s, slot))
  {
    forall x ensures SlotOf(WithSlot(wk, s, slot), x) == if x == s then slot else SlotOf(wk, x) {}
  }

  lemma ClaimedKeeps(cfg: Settings, w: World, w': World, id: int)
    requires AuditInv(w) && id in w.workers && w.workers[id].stage.Delivered?
    requires var (t, outcome) := Tx.ClaimApp(cfg.h, w.tables, w.workers[id].app, w.clock, cfg.lockTimeout);
             && outcome.Claimed? && w'.tables == t && id in w'.workers && w'.workers == w.workers[id := w'.workers[id]]
             && w'.workers[id] == w.workers[id].(stage := w'.workers[id].stage, claim := w'.workers[id].claim,
                                                 user := outcome.user)
    requires w'.workers[id].claim.Some? && !w'.workers[id].stage.Decided? && !w'.workers[id].stage.Delivered?
    ensures AuditInv(w')
  {
    var wk := w.workers[id];
    assert WorkerOk(w.tables, wk);
    ClaimKeeps(cfg.h, w.tables, wk.app, w.clock, cfg.lockTimeout);
    ClaimGrows(cfg.h, w.tables, wk.app, w.clock, cfg.lockTimeout);
    ClaimantIsOk(cfg.h, w.tables, wk, w.clock, cfg.lockTimeout, w'.workers[id]);
    WorkerChanges(w, w', id);
  }

  lemma LeaveKeeps(w: World, id: int)
    requires AuditInv(w)
    ensures AuditInv(Processing.Leave(w, id))
  {
    WorkerChanges(w, Processing.Leave(w, id), id);
  }

  lemma ClaimStepKeeps(cfg: Settings, w: World, id: int)
    requires AuditInv(w) && id in w.workers && w.workers[id].stage.Delivered?
    ensures AuditInv(Processing.ClaimApplication(cfg, w, id))
  {
    match Tx.ClaimApp(cfg.h, w.tables, w.workers[id].app, w.clock, cfg.lockTimeout).1
    case NotClaimed(_) => LeaveKeeps(w, id);
    case Claimed(_) => ClaimedKeeps(cfg, w, Processing.ClaimApplication(cfg, w, id), id);
    case _ => FailKeeps(w, id, SYSTEM_ERROR);
  }

  lemma ClaimantIsOk(h: Host, t: Tables, wk: Worker, now: int, lockTimeout: int, wk': Worker)
    requires WorkerOk(t, wk) && wk.claim.None? && Tx.ClaimApp(h, t, wk.app, now, lockTimeout).1.Claimed?
    requires wk' == wk.(stage := wk'.stage, claim := wk'.claim,
                        user := Tx.ClaimApp(h, t, wk.app, now, lockTimeout).1.user)
    requires wk'.claim.Some? && !wk'.stage.Decided? && !wk'.stage.Delivered?
    ensures WorkerOk(Tx.ClaimApp(h, t, wk.app, now, lockTimeout).0, wk')
  {
    CountAppend(t.audit, StartedEntry(h, wk.app), wk.app, PROCESSING_STARTED);
    forall s ensures !SlotOf(wk', s).Have? {}
  }

  lemma ClaimGrows(h: Host, t: Tables, app: AppId, now: int, lockTimeout: int)
    ensures Grows(t, Tx.ClaimApp(h, t, app, now, lockTimeout).0)
  {
  }

  lemma InsertedIsOk(h: Host, t: Tables, t': Tables, wk: Worker, s: Source, r: ResultValue)
    requires TablesOk(t) && WorkerOk(t, wk) && wk.claim.Some? && !wk.stage.Decided?
    requires Tx.InsertExternal(h, t, wk.app, s, r) == Some(t') && Grows(t, t')
    ensures TablesOk(t') && WorkerOk(t', WithSlot(wk, s, Have(r)))
  {
    InsertKeepsTables(h, t, wk.app, s, r);
    WorkerStaysOk(t, t', wk);
    SlotStaysOk(t', wk, s, Have(r));
  }

  lemma InsertStepKeeps(cfg: Settings, w: World, id: int, s: Source)
    requires AuditInv(w) && Processing.Fetching(w, id) && SlotOf(w.workers[id], s).Unstored?
    ensures AuditInv(Processing.InsertChecked(cfg, w, id, s))
  {
    var wk := w.workers[id];
    assert WorkerOk(w.tables, wk);
    match Tx.InsertExternal(cfg.h, w.tables, wk.app, s, SlotOf(wk, s).answer)
    case None => FailKeeps(w, id, SYSTEM_ERROR);
    case Some(t) =>
      InsertGrows(cfg, w, id, s);
      InsertedIsOk(cfg.h, w.tables, t, wk, s, SlotOf(wk, s).answer);
      WorkerChanges(w, Processing.InsertChecked(cfg, w, id, s), id);
  }

  lemma DecidedCanStore(h: Host, t: Tables, wk: Worker, now: int)
    requires TablesOk(t) && WorkerOk(t, wk) && wk.stage.Decided?
    ensures TablesOk(Tx.StoreDecision(h, t, wk.app, wk.stage.out, now))
  {
    forall s ensures (wk.app, s) in t.external { assert SlotOf(wk, s).Have?; }
    StoreKeeps(h, t, wk.app, wk.stage.out, now);
  }

  lemma StoreStepKeeps(cfg: Settings, w: World, id: int)
    requires AuditInv(w)
    ensures AuditInv(Processing.StoreResults(cfg, w, id))
  {
    if id in w.workers && w.workers[id].stage.Decided? {
      var wk := w.workers[id];
      assert WorkerOk(w.tables, wk);
      DecidedCanStore(cfg.h, w.tables, wk, w.clock);
      StoreStepGrows(cfg, w, id);
      WorkerChanges(w, Processing.StoreResults(cfg, w, id), id);
    }
  }

  lemma MarkStepKeeps(cfg: Settings, w: World, id: int)
    requires AuditInv(w)
    ensures AuditInv(Processing.MarkError(cfg, w, id))
  {
    if id in w.workers && w.workers[id].stage.Failed? {
      MarkKeeps(cfg.h, w.tables, w.workers[id].app, w.workers[id].stage.kind, w.clock);
      MarkStepGrows(cfg, w, id);
      WorkerChanges(w, Processing.MarkError(cfg, w, id), id);
    }
  }

  lemma FillKeeps(w: World, id: int, s: Source, slot: Slot)
    requires AuditInv(w) && Processing.Fetching(w, id)
    requires slot.Have? ==> (w.workers[id].app, s) in w.tables.external
    ensures AuditInv(Processing.Put(w, id, WithSlot(w.workers[id], s, slot)))
  {
    SlotStaysOk(w.tables, w.workers[id], s, slot);
    PutKeeps(w, id, WithSlot(w.workers[id], s, slot));
  }

  lemma FailKeeps(w: World, id: int, kind: ErrorKind)
    requires AuditInv(w) && id in w.workers
    ensures AuditInv(Processing.Put(w, id, Processing.Fail(w.workers[id], kind)))
  {
    FailedStaysOk(w.tables, w.workers[id], kind);
    PutKeeps(w, id, Processing.Fail(w.workers[id], kind));
  }

  lemma ReuseStepKeeps(cfg: Settings, w: World, id: int, a: WorkAction)
    requires AuditInv(w) && Processing.Fetching(w, id) && (a.LoadExternal? || a.CheckExternal?)
    ensures AuditInv(WorkStep(cfg, w, id, a))
  {
    if WorkStep(cfg, w, id, a) != w {
      FillKeeps(w, id, a.s, SlotOf(WorkStep(cfg, w, id, a).workers[id], a.s));
    }
  }

  lemma AnswerStepKeeps(cfg: Settings, w: World, id: int, s: Source, call: ResultValue)
    requires AuditInv(w) && Processing.Fetching(w, id)
    ensures AuditInv(Processing.Answer(cfg, w, id, s, call))
  {
    if SlotOf(w.workers[id], s).Calling? && CallShape(call) {
      match AfterCall(cfg.h, s, call, w.clock)
      case Ok(r) => FillKeeps(w, id, s, Checking(r));
      case Raised => FailKeeps(w, id, SYSTEM_ERROR);
    }
  }

  lemma DecideStepKeeps(cfg: Settings, w: World, id: int)
    requires AuditInv(w) && id in w.workers && Processing.ReadyToDecide(w.workers[id])
    ensures AuditInv(Processing.DecideApplication(cfg, w, id))
  {
    var wk := w.workers[id];
    assert WorkerOk(w.tables, wk);
    match ComputeDecision(cfg.h, wk.credit.result, wk.bank.result, wk.gst.result, Tx.DecisionUserData(wk.user),
                          cfg.threshold, cfg.rs)
    case Ok(out) =>
      DecidedIsOk(w.tables, wk, out);
      PutKeeps(w, id, wk.(stage := Decided(out)));
    case Raised => FailKeeps(w, id, SYSTEM_ERROR);
  }

  lemma DecidedIsOk(t: Tables, wk: Worker, out: DecisionOutput)
    requires WorkerOk(t, wk) && Processing.ReadyToDecide(wk)
    ensures WorkerOk(t, wk.(stage := Decided(out)))
  {
    forall s ensures SlotOf(wk.(stage := Decided(out)), s) == SlotOf(wk, s) {}
  }

  /** Steps that change nothing but the worker itself. */
  lemma LocalStepKeeps(cfg: Settings, w: World, id: int, a: WorkAction)
    requires AuditInv(w)
    requires !a.ClaimApplication? && !a.InsertChecked? && !a.StoreResults? && !a.MarkError?
    ensures AuditInv(WorkStep(cfg, w, id, a))
  {
    match a
    case Deliver(app) =>
      if id !in w.workers && app in w.sent {
        PutKeeps(w, id, Worker(app, Delivered, None, map[], Loading, Loading, Loading));
      }
    case DecideApplication =>
      if id in w.workers && Processing.ReadyToDecide(w.workers[id]) { DecideStepKeeps(cfg, w, id); }
    case Abort(kind) =>
      if id in w.workers { FailKeeps(w, id, kind); }
    case Crash => LeaveKeeps(w, id);
    case Answer(s, call) => if Processing.Fetching(w, id) { AnswerStepKeeps(cfg, w, id, s, call); }
    case _ => if Processing.Fetching(w, id) { ReuseStepKeeps(cfg, w, id, a); }
  }

  lemma CommitKeepsAudit(w: World, w': World, app: AppId)
    requires AuditInv(w) && app !in w.tables.apps
    requires w'.workers == w.workers && w'.tables.audit == w.tables.audit && w'.tables.external == w.tables.external
    requires app in w'.tables.apps && w'.tables.apps == w.tables.apps[app := w'.tables.apps[app]]
    requires StandingOf(w'.tables.apps[app]) == NEW_STANDING
    ensures AuditInv(w')
  {
    UnmentionedIsBlank(w.tables.audit, app);
    var t, t' := w.tables, w'.tables;
    forall x | x in t'.apps ensures RowMatches(t'.apps[x], ProfileOf(t'.audit, x), x, t'.external) {
      if x == app {
        forall s ensures (app, s) !in t.external {}
      } else {
        assert RowMatches(t.apps[x], ProfileOf(t.audit, x), x, t.external);
      }
    }
    forall id | id in w'.workers ensures WorkerOk(t', w'.workers[id]) {
      assert WorkerOk(t, w.workers[id]);
      WorkerStaysOk(t, t', w.workers[id]);
    }
  }

  /** Changes to delivery statuses and other actors' state do not matter here. */
  lemma ElsewhereKeepsAudit(w: World, w': World)
    requires AuditInv(w) && w'.workers == w.workers
    requires w'.tables.apps == w.tables.apps && w'.tables.audit == w.tables.audit
    requires w'.tables.external == w.tables.external
    ensures AuditInv(w')
  {
    forall id | id in w'.workers ensures WorkerOk(w'.tables, w'.workers[id]) {
      assert WorkerOk(w.tables, w.workers[id]);
    }
  }

  lemma IntakeKeepsAudit(cfg: Settings, w: World, a: IntakeAction)
    requires AuditInv(w) && IntakeTheorems.IntakeInv(w)
    ensures AuditInv(IntakeStep(cfg, w, a))
  {
    var w' := IntakeStep(cfg, w, a);
    IntakeFrame(cfg, w, a);
    if w'.tables == w.tables {
      ElsewhereKeepsAudit(w, w');
    } else {
      assert IntakeTheorems.RequestOk(w, a.r);
      CommitKeepsAudit(w, w', w.requests[a.r].phase.app);
    }
  }

  lemma PollKeepsAudit(w: World, a: PollAction)
    requires AuditInv(w)
    ensures AuditInv(PollStep(w, a))
  {
    PollFrame(w, a);
    ElsewhereKeepsAudit(w, PollStep(w, a));
  }

  lemma WorkKeepsAudit(cfg: Settings, w: World, id: int, a: WorkAction)
    requires AuditInv(w)
    ensures AuditInv(WorkStep(cfg, w, id, a))
  {
    match a
    case ClaimApplication => if id in w.workers && w.workers[id].stage.Delivered? { ClaimStepKeeps(cfg, w, id); }
    case InsertChecked(s) =>
      if Processing.Fetching(w, id) && SlotOf(w.workers[id], s).Unstored? { InsertStepKeeps(cfg, w, id, s); }
    case StoreResults => StoreStepKeeps(cfg, w, id);
    case MarkError => MarkStepKeeps(cfg, w, id);
    case _ => LocalStepKeeps(cfg, w, id, a);
  }

  lemma AuditInvKept(cfg: Settings, w: World, a: Action)
    requires AuditInv(w) && IntakeTheorems.IntakeInv(w)
    ensures AuditInv(Step(cfg, w, a))
  {
    match a
    case Tick(_) => ElsewhereKeepsAudit(w, Step(cfg, w, a));
    case Poll(poll) => PollKeepsAudit(w, poll);
    case Api(intake) => IntakeKeepsAudit(cfg, w, intake);
    case Work(id, work) => WorkKeepsAudit(cfg, w, id, work);
  }

  lemma {:induction false} AuditInvHolds(cfg: Settings, actions: seq<Action>)
    ensures AuditInv(Run(cfg, actions))
  {
    if actions != [] {
      var before := actions[..|actions| - 1];
      AuditInvHolds(cfg, before);
      IntakeTheorems.IntakeInvHolds(cfg, before);
      AuditInvKept(cfg, Run(cfg, before), actions[|actions| - 1]);
    }
  }

  // ----- the theorems -----

  /** In every run an application's status, decision and confidence are the left fold of its audit entries. */
  lemma {:induction false} AuditLogReplays(cfg: Settings, actions: seq<Action>, app: AppId)
    requires app in Run(cfg, actions).tables.apps
    ensures var t := Run(cfg, actions).tables; StandingOf(t.apps[app]) == Replay(t.audit, app)
    ensures Coupled(StandingOf(Run(cfg, actions).tables.apps[app]))
  {
    AuditInvHolds(cfg, actions);
    var t := Run(cfg, actions).tables;
    assert RowMatches(t.apps[app], ProfileOf(t.audit, app), app, t.external);
  }

  /**
   Grammar of the log: a decision comes after a start and after exactly one fetch from each source; nothing starts
   and nothing is decided after the first terminal entry; fetch entries and external rows match one to one.
   */
  lemma {:induction false} AuditLogIsGrammatical(cfg: Settings, actions: seq<Action>, i: nat)
    requires i < |Run(cfg, actions).tables.audit|
    ensures var t := Run(cfg, actions).tables;
            && Allowed(t.audit[..i], t.audit[i])
            && t.audit[i].app in t.apps
            && PiiFree(t.audit[i].output)
  {
    AuditInvHolds(cfg, actions);
    GrammaticalAt(Run(cfg, actions).tables.audit, i);
  }

  lemma {:induction false} FetchEntriesMatchRows(cfg: Settings, actions: seq<Action>, app: AppId, s: Source)
    requires app in Run(cfg, actions).tables.apps
    ensures var t := Run(cfg, actions).tables; Count(t.audit, app, FETCH(s)) == if (app, s) in t.external then 1 else 0
  {
    AuditInvHolds(cfg, actions);
    var t := Run(cfg, actions).tables;
    var p := ProfileOf(t.audit, app);
    assert RowMatches(t.apps[app], p, app, t.external);
    assert Fetches(p, s) == Count(t.audit, app, FETCH(s));
  }

  /** However often its task is sent and redelivered, an application is decided at most once. */
  lemma {:induction false} DecidedAtMostOnce(cfg: Settings, actions: seq<Action>, app: AppId)
    requires app in Run(cfg, actions).tables.apps
    ensures Count(Run(cfg, actions).tables.audit, app, DECISION_CALCULATION) <= 1
  {
    AuditInvHolds(cfg, actions);
    var t := Run(cfg, actions).tables;
    assert RowMatches(t.apps[app], ProfileOf(t.audit, app), app, t.external);
  }

  function StatusRank(s: Status): nat {
    match s
    case PENDING => 0
    case PROCESSING => 1
    case COMPLETED => 2
    case MANUAL_REVIEW => 3
  }

  lemma WorkNeverGoesBack(cfg: Settings, w: World, id: int, a: WorkAction, app: AppId)
    requires app in w.tables.apps
    ensures var t := WorkStep(cfg, w, id, a).tables;
            app in t.apps && StatusRank(w.tables.apps[app].status) <= StatusRank(t.apps[app].status)
  {
    match a
    case ClaimApplication =>
    case StoreResults =>
    case MarkError =>
    case InsertChecked(s) =>
    case _ => ReadersLeaveTables(cfg, w, id, a);
  }

  /** No step of any actor moves a status backwards, removes a row or rewrites the log. */
  lemma {:induction false} StatusNeverGoesBack(cfg: Settings, actions: seq<Action>, a: Action, app: AppId)
    requires app in Run(cfg, actions).tables.apps
    ensures var t, t' := Run(cfg, actions).tables, Step(cfg, Run(cfg, actions), a).tables;
            && app in t'.apps && StatusRank(t.apps[app].status) <= StatusRank(t'.apps[app].status)
            && t.audit <= t'.audit
  {
    var w := Run(cfg, actions);
    match a
    case Tick(_) =>
    case Poll(poll) => PollFrame(w, poll);
    case Api(intake) =>
      IntakeFrame(cfg, w, intake);
      IntakeTheorems.IntakeInvHolds(cfg, actions);
      if Step(cfg, w, a).tables != w.tables { assert IntakeTheorems.RequestOk(w, intake.r); }
    case Work(id, work) =>
      WorkGrows(cfg, w, id, work);
      WorkNeverGoesBack(cfg, w, id, work, app);
  }
}
