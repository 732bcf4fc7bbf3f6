/** Any two workers that decide one application decide the same, whichever of them fetched the data. */
module AgreementTheorems {
  import opened Common
  import opened Decisions
  import opened Frames
  import opened Machine
  import opened Providers
  import opened Schema
  import opened ServiceResults
  import opened State
  import opened StoredResults
  import AuditTheorems
  import IntakeTheorems
  import Tx = Worker
  import Processing

  // ----- the decision the stored rows call for -----

  predicate HasVerdict(t: Tables, app: AppId) {
    && (app, CREDIT_BUREAU) in t.external && (app, BANK_ANALYZER) in t.external && (app, GST_VERIFIER) in t.external
    && app in t.apps && t.apps[app].sealed.Some? && "monthly_income" in t.apps[app].sealed.value
  }

  /** The decision from the rebuilt rows and the sealed user data, taken whole. */
  function Verdict(cfg: Settings, t: Tables, app: AppId): Result<DecisionOutput>
    requires HasVerdict(t, app)
  {
    ComputeDecision(cfg.h, Rebuilt(t.external[(app, CREDIT_BUREAU)]), Rebuilt(t.external[(app, BANK_ANALYZER)]),
                    Rebuilt(t.external[(app, GST_VERIFIER)]), t.apps[app].sealed.value, cfg.threshold, cfg.rs)
  }

  // ----- the invariant -----

  predicate KeptByStorage(cfg: Settings, s: Source, r: ResultValue) {
    Seen(cfg.h, s, Rebuilt(StoredRow(r))) == Seen(cfg.h, s, r)
  }

  ghost predicate SlotAgrees(cfg: Settings, t: Tables, app: AppId, s: Source, slot: Slot) {
    match slot
    case Checking(r) => KeptByStorage(cfg, s, r)
    case Unstored(r) => KeptByStorage(cfg, s, r)
    case Have(r) => (app, s) in t.external && Seen(cfg.h, s, r) == Seen(cfg.h, s, Rebuilt(t.external[(app, s)]))
    case _ => true
  }

  ghost predicate WorkerAgrees(cfg: Settings, t: Tables, wk: Worker) {
    && SlotAgrees(cfg, t, wk.app, CREDIT_BUREAU, wk.credit)
    && SlotAgrees(cfg, t, wk.app, BANK_ANALYZER, wk.bank)
    && SlotAgrees(cfg, t, wk.app, GST_VERIFIER, wk.gst)
    && (wk.stage.Decided? ==> HasVerdict(t, wk.app) && Verdict(cfg, t, wk.app) == Ok(wk.stage.out))
  }

  ghost predicate EntryAgrees(cfg: Settings, t: Tables, e: Entry) {
    e.step == DECISION_CALCULATION ==>
      && HasVerdict(t, e.app) && Verdict(cfg, t, e.app).Ok?
      && e == DecisionEntry(cfg.h, e.app, Verdict(cfg, t, e.app).value)
  }

  ghost predicate AgreeInv(cfg: Settings, w: World) {
    && (forall id | id in w.workers :: WorkerAgrees(cfg, w.tables, w.workers[id]))
    && (forall i | 0 <= i < |w.tables.audit| :: EntryAgrees(cfg, w.tables, w.tables.audit[i]))
  }

  /** A failing provider answer carries no score; the condition under which reuse preserves what is seen. */
  predicate HonestStep(cfg: Settings, w: World, a: Action) {
    a.Work? && a.work.Answer? && CallShape(a.work.call) && AfterCall(cfg.h, a.work.s, a.work.call, w.clock).Ok? ==>
      HonestPayload(a.work.s, AfterCall(cfg.h, a.work.s, a.work.call, w.clock).value)
  }

  predicate HonestRun(cfg: Settings, actions: seq<Action>) {
    actions == [] ||
    var before, a := actions[..|actions| - 1], actions[|actions| - 1];
    HonestRun(cfg, before) && HonestStep(cfg, Run(cfg, before), a)
  }

  // ----- it is kept -----

  lemma VerdictStays(cfg: Settings, t: Tables, t': Tables, app: AppId)
    requires HasVerdict(t, app) && AuditTheorems.Grows(t, t')
    ensures HasVerdict(t', app) && Verdict(cfg, t', app) == Verdict(cfg, t, app)
  {
  }

  lemma WorkerStillAgrees(cfg: Settings, t: Tables, t': Tables, wk: Worker)
    requires WorkerAgrees(cfg, t, wk) && AuditTheorems.Grows(t, t')
    ensures WorkerAgrees(cfg, t', wk)
  {
    if wk.stage.Decided? { VerdictStays(cfg, t, t', wk.app); }
  }

  /** Worker `id` changes, the tables grow; entries that are new agree. */
  lemma ChangeKeeps(cfg: Settings, w: World, w': World, id: int)
    requires AgreeInv(cfg, w) && AuditTheorems.Grows(w.tables, w'.tables)
    requires forall x | x in w'.workers && x != id :: x in w.workers && w'.workers[x] == w.workers[x]
    requires id in w'.workers ==> WorkerAgrees(cfg, w'.tables, w'.workers[id])
    requires forall i | |w.tables.audit| <= i < |w'.tables.audit| :: EntryAgrees(cfg, w'.tables, w'.tables.audit[i])
    ensures AgreeInv(cfg, w')
  {
    forall x | x in w'.workers && x != id ensures WorkerAgrees(cfg, w'.tables, w'.workers[x]) {
      WorkerStillAgrees(cfg, w.tables, w'.tables, w.workers[x]);
    }
    forall i | 0 <= i < |w.tables.audit| ensures EntryAgrees(cfg, w'.tables, w'.tables.audit[i]) {
      var e := w.tables.audit[i];
      assert EntryAgrees(cfg, w.tables, e) && w'.tables.audit[i] == e;
      if e.step == DECISION_CALCULATION { VerdictStays(cfg, w.tables, w'.tables, e.app); }
    }
  }

  lemma FillAgrees(cfg: Settings, t: Tables, wk: Worker, s: Source, slot: Slot)
    requires WorkerAgrees(cfg, t, wk) && SlotAgrees(cfg, t, wk.app, s, slot) && !wk.stage.Decided?
    ensures WorkerAgrees(cfg, t, WithSlot(wk, s, slot))
  {
  }

  lemma AnswerAgrees(cfg: Settings, w: World, id: int, s: Source, call: ResultValue)
    requires AgreeInv(cfg, w) && HonestStep(cfg, w, Work(id, WorkAction.Answer(s, call)))
    ensures AgreeInv(cfg, Processing.Answer(cfg, w, id, s, call))
  {
    if Processing.Fetching(w, id) && SlotOf(w.workers[id], s).Calling? && CallShape(call) {
      var w' := Processing.Answer(cfg, w, id, s, call);
      assert WorkerAgrees(cfg, w.tables, w.workers[id]);
      if AfterCall(cfg.h, s, call, w.clock).Ok? {
        ReuseIffHonest(cfg.h, s, call, w.clock);
        FillAgrees(cfg, w.tables, w.workers[id], s, Checking(AfterCall(cfg.h, s, call, w.clock).value));
      }
      ChangeKeeps(cfg, w, w', id);
    }
  }

  lemma InsertAgrees(cfg: Settings, w: World, id: int, s: Source)
    requires AgreeInv(cfg, w) && Processing.Fetching(w, id) && SlotOf(w.workers[id], s).Unstored?
    ensures AgreeInv(cfg, Processing.InsertChecked(cfg, w, id, s))
  {
    var wk := w.workers[id];
    assert WorkerAgrees(cfg, w.tables, wk) && SlotAgrees(cfg, w.tables, wk.app, s, SlotOf(wk, s));
    match Tx.InsertExternal(cfg.h, w.tables, wk.app, s, SlotOf(wk, s).answer)
    case None => PutAgrees(cfg, w, id, Processing.Fail(wk, SYSTEM_ERROR));
    case Some(t) =>
      var w' := Processing.InsertChecked(cfg, w, id, s);
      AuditTheorems.InsertGrows(cfg, w, id, s);
      WorkerStillAgrees(cfg, w.tables, t, wk);
      InsertedAgrees(cfg, w.tables, t, wk, s, SlotOf(wk, s).answer);
      ChangeKeeps(cfg, w, w', id);
  }

  lemma InsertedAgrees(cfg: Settings, t: Tables, t': Tables, wk: Worker, s: Source, r: ResultValue)
    requires KeptByStorage(cfg, s, r) && WorkerAgrees(cfg, t', wk) && !wk.stage.Decided?
    requires t'.external == t.external[(wk.app, s) := StoredRow(r)]
    ensures WorkerAgrees(cfg, t', WithSlot(wk, s, Have(r)))
  {
    FillAgrees(cfg, t', wk, s, Have(r));
  }

  lemma ReuseAgrees(cfg: Settings, w: World, id: int, a: WorkAction)
    requires AgreeInv(cfg, w) && Processing.Fetching(w, id) && (a.LoadExternal? || a.CheckExternal?)
    ensures AgreeInv(cfg, WorkStep(cfg, w, id, a))
  {
    var wk := w.workers[id];
    assert WorkerAgrees(cfg, w.tables, wk) && SlotAgrees(cfg, w.tables, wk.app, a.s, SlotOf(wk, a.s));
    if (a.LoadExternal? && SlotOf(wk, a.s).Loading?) || (a.CheckExternal? && SlotOf(wk, a.s).Checking?) {
      var slot := if (wk.app, a.s) in w.tables.external then Have(Rebuilt(w.tables.external[(wk.app, a.s)]))
                  else if a.LoadExternal? then Calling else Unstored(SlotOf(wk, a.s).answer);
      FillAgrees(cfg, w.tables, wk, a.s, slot);
      PutAgrees(cfg, w, id, WithSlot(wk, a.s, slot));
      assert WorkStep(cfg, w, id, a) == Processing.Put(w, id, WithSlot(wk, a.s, slot));
    }
  }

  /** The heart of the matter: a worker's own results are seen like the rebuilt rows, so it reaches their verdict. */
  lemma DeciderReachesVerdict(cfg: Settings, t: Tables, wk: Worker)
    requires WorkerAgrees(cfg, t, wk) && AuditTheorems.WorkerOk(t, wk) && Processing.ReadyToDecide(wk)
    ensures HasVerdict(t, wk.app)
    ensures ComputeDecision(cfg.h, wk.credit.result, wk.bank.result, wk.gst.result, Tx.DecisionUserData(wk.user),
                            cfg.threshold, cfg.rs) == Verdict(cfg, t, wk.app)
  {
    DecisionSeesOnlyViews(cfg.h, wk.credit.result, wk.bank.result, wk.gst.result,
                          Rebuilt(t.external[(wk.app, CREDIT_BUREAU)]), Rebuilt(t.external[(wk.app, BANK_ANALYZER)]),
                          Rebuilt(t.external[(wk.app, GST_VERIFIER)]), wk.user, cfg.threshold, cfg.rs);
    Tx.SealedDataDecides(cfg.h, wk.credit.result, wk.bank.result, wk.gst.result, wk.user, cfg.threshold, cfg.rs);
  }

  lemma DecideAgrees(cfg: Settings, w: World, id: int)
    requires AgreeInv(cfg, w) && AuditTheorems.AuditInv(w)
    requires id in w.workers && Processing.ReadyToDecide(w.workers[id])
    ensures AgreeInv(cfg, Processing.DecideApplication(cfg, w, id))
  {
    var wk := w.workers[id];
    assert WorkerAgrees(cfg, w.tables, wk);
    DeciderReachesVerdict(cfg, w.tables, wk);
    var verdict := Verdict(cfg, w.tables, wk.app);
    var wk' := if verdict.Ok? then wk.(stage := Decided(verdict.value)) else Processing.Fail(wk, SYSTEM_ERROR);
    PutAgrees(cfg, w, id, wk');
  }

  lemma PutAgrees(cfg: Settings, w: World, id: int, wk: Worker)
    requires AgreeInv(cfg, w) && WorkerAgrees(cfg, w.tables, wk)
    ensures AgreeInv(cfg, Processing.Put(w, id, wk))
  {
    ChangeKeeps(cfg, w, Processing.Put(w, id, wk), id);
  }

  lemma StoredEntriesAgree(cfg: Settings, t: Tables, app: AppId, out: DecisionOutput, now: int)
    requires HasVerdict(t, app) && Verdict(cfg, t, app) == Ok(out)
    ensures var t' := Tx.StoreDecision(cfg.h, t, app, out, now);
            && AuditTheorems.Grows(t, t')
            && forall i | |t.audit| <= i < |t'.audit| :: EntryAgrees(cfg, t', t'.audit[i])
  {
    var t' := Tx.StoreDecision(cfg.h, t, app, out, now);
    AuditTheorems.StoreGrows(cfg.h, t, app, out, now);
    VerdictStays(cfg, t, t', app);
    forall i | |t.audit| <= i < |t'.audit| ensures EntryAgrees(cfg, t', t'.audit[i]) {
      assert t'.audit[i] == DecisionEntry(cfg.h, app, out) || t'.audit[i] == ReviewEntry(cfg.h, app, out);
    }
  }

  lemma StoreAgrees(cfg: Settings, w: World, id: int)
    requires AgreeInv(cfg, w) && id in w.workers && w.workers[id].stage.Decided?
    ensures AgreeInv(cfg, Processing.StoreResults(cfg, w, id))
  {
    var wk := w.workers[id];
    assert WorkerAgrees(cfg, w.tables, wk);
    StoredEntriesAgree(cfg, w.tables, wk.app, wk.stage.out, w.clock);
    ChangeKeeps(cfg, w, Processing.StoreResults(cfg, w, id), id);
  }

  lemma ClaimAgrees(cfg: Settings, w: World, id: int)
    requires AgreeInv(cfg, w) && id in w.workers && w.workers[id].stage.Delivered?
    ensures AgreeInv(cfg, Processing.ClaimApplication(cfg, w, id))
  {
    var wk := w.workers[id];
    var (t', outcome) := Tx.ClaimApp(cfg.h, w.tables, wk.app, w.clock, cfg.lockTimeout);
    assert WorkerAgrees(cfg, w.tables, wk);
    match outcome
    case NotClaimed(_) => ChangeKeeps(cfg, w, Processing.Leave(w, id), id);
    case Claimed(_) =>
      AuditTheorems.ClaimGrows(cfg.h, w.tables, wk.app, w.clock, cfg.lockTimeout);
      ClaimantAgrees(cfg, w, Processing.ClaimApplication(cfg, w, id), id);
    case _ => PutAgrees(cfg, w, id, Processing.Fail(wk, SYSTEM_ERROR));
  }

  lemma ClaimantAgrees(cfg: Settings, w: World, w': World, id: int)
    requires AgreeInv(cfg, w) && id in w.workers && AuditTheorems.Grows(w.tables, w'.tables)
    requires w'.tables.audit == w.tables.audit + [StartedEntry(cfg.h, w.workers[id].app)]
    requires id in w'.workers && w'.workers == w.workers[id := w'.workers[id]]
    requires var wk' := w'.workers[id];
             !wk'.stage.Decided? && wk' == w.workers[id].(stage := wk'.stage, claim := wk'.claim, user := wk'.user)
    ensures AgreeInv(cfg, w')
  {
    assert WorkerAgrees(cfg, w.tables, w.workers[id]);
    var wk := w.workers[id].(stage := w'.workers[id].stage);
    WorkerStillAgrees(cfg, w.tables, w'.tables, wk);
    ChangeKeeps(cfg, w, w', id);
  }

  lemma MarkAgrees(cfg: Settings, w: World, id: int)
    requires AgreeInv(cfg, w) && id in w.workers && w.workers[id].stage.Failed?
    ensures AgreeInv(cfg, Processing.MarkError(cfg, w, id))
  {
    AuditTheorems.WorkGrows(cfg, w, id, WorkAction.MarkError);
    ChangeKeeps(cfg, w, Processing.MarkError(cfg, w, id), id);
  }

  lemma WorkAgrees(cfg: Settings, w: World, id: int, a: WorkAction)
    requires AgreeInv(cfg, w) && AuditTheorems.AuditInv(w) && HonestStep(cfg, w, Work(id, a))
    ensures AgreeInv(cfg, WorkStep(cfg, w, id, a))
  {
    match a
    case Deliver(app) => DeliverAgrees(cfg, w, id, app);
    case ClaimApplication => if id in w.workers && w.workers[id].stage.Delivered? { ClaimAgrees(cfg, w, id); }
    case Answer(s, call) => AnswerAgrees(cfg, w, id, s, call);
    case InsertChecked(s) =>
      if Processing.Fetching(w, id) && SlotOf(w.workers[id], s).Unstored? { InsertAgrees(cfg, w, id, s); }
    case DecideApplication =>
      if id in w.workers && Processing.ReadyToDecide(w.workers[id]) { DecideAgrees(cfg, w, id); }
    case StoreResults => if id in w.workers && w.workers[id].stage.Decided? { StoreAgrees(cfg, w, id); }
    case Abort(kind) => AbortAgrees(cfg, w, id, kind);
    case MarkError => if id in w.workers && w.workers[id].stage.Failed? { MarkAgrees(cfg, w, id); }
    case Crash => ChangeKeeps(cfg, w, Processing.Leave(w, id), id);
    case _ => if Processing.Fetching(w, id) { ReuseAgrees(cfg, w, id, a); }
  }

  lemma DeliverAgrees(cfg: Settings, w: World, id: int, app: AppId)
    requires AgreeInv(cfg, w)
    ensures AgreeInv(cfg, Processing.Deliver(w, id, app))
  {
    if id !in w.workers && app in w.sent {
      PutAgrees(cfg, w, id, Worker(app, Delivered, None, map[], Loading, Loading, Loading));
    }
  }

  lemma AbortAgrees(cfg: Settings, w: World, id: int, kind: ErrorKind)
    requires AgreeInv(cfg, w)
    ensures AgreeInv(cfg, Processing.Abort(w, id, kind))
  {
    if id in w.workers {
      assert WorkerAgrees(cfg, w.tables, w.workers[id]);
      PutAgrees(cfg, w, id, Processing.Fail(w.workers[id], kind));
    }
  }

  /** Everybody's steps only add to the rows and the log. */
  lemma {:induction false} StepGrows(cfg: Settings, actions: seq<Action>, a: Action)
    ensures AuditTheorems.Grows(Run(cfg, actions).tables, Step(cfg, Run(cfg, actions), a).tables)
  {
    var w := Run(cfg, actions);
    match a
    case Tick(_) =>
    case Poll(poll) => PollFrame(w, poll);
    case Work(id, work) => AuditTheorems.WorkGrows(cfg, w, id, work);
    case Api(intake) =>
      IntakeFrame(cfg, w, intake);
      IntakeTheorems.IntakeInvHolds(cfg, actions);
      if Step(cfg, w, a).tables != w.tables { assert IntakeTheorems.RequestOk(w, intake.r); }
  }

  lemma {:induction false} AgreeInvHolds(cfg: Settings, actions: seq<Action>)
    requires HonestRun(cfg, actions)
    ensures AgreeInv(cfg, Run(cfg, actions))
  {
    if actions != [] {
      var before, a := actions[..|actions| - 1], actions[|actions| - 1];
      var w := Run(cfg, before);
      AgreeInvHolds(cfg, before);
      AuditTheorems.AuditInvHolds(cfg, before);
      match a
      case Work(id, work) => WorkAgrees(cfg, w, id, work);
      case _ =>
        StepGrows(cfg, before, a);
        OthersLeaveLog(cfg, w, a);
        ElsewhereAgrees(cfg, w, Step(cfg, w, a));
    }
  }

  lemma OthersLeaveLog(cfg: Settings, w: World, a: Action)
    requires !a.Work?
    ensures Step(cfg, w, a).workers == w.workers && Step(cfg, w, a).tables.audit == w.tables.audit
  {
    match a
    case Tick(_) =>
    case Poll(poll) => PollFrame(w, poll);
    case Api(intake) => IntakeFrame(cfg, w, intake);
  }

  lemma ElsewhereAgrees(cfg: Settings, w: World, w': World)
    requires AgreeInv(cfg, w) && AuditTheorems.Grows(w.tables, w'.tables)
    requires w'.workers == w.workers && w'.tables.audit == w.tables.audit
    ensures AgreeInv(cfg, w')
  {
    forall id | id in w'.workers ensures WorkerAgrees(cfg, w'.tables, w'.workers[id]) {
      WorkerStillAgrees(cfg, w.tables, w'.tables, w.workers[id]);
    }
    forall i | 0 <= i < |w'.tables.audit| ensures EntryAgrees(cfg, w'.tables, w'.tables.audit[i]) {
      var e := w.tables.audit[i];
      assert EntryAgrees(cfg, w.tables, e);
      if e.step == DECISION_CALCULATION { VerdictStays(cfg, w.tables, w'.tables, e.app); }
    }
  }

  // ----- the theorems -----

  lemma {:induction false} RunGrows(cfg: Settings, actions: seq<Action>, more: seq<Action>)
    ensures AuditTheorems.Grows(Run(cfg, actions).tables, Run(cfg, actions + more).tables)
  {
    if more == [] {
      assert actions + more == actions;
    } else {
      var n := |more| - 1;
      RunGrows(cfg, actions, more[..n]);
      StepGrows(cfg, actions + more[..n], more[n]);
      assert (actions + more)[..|actions + more| - 1] == actions + more[..n];
    }
  }

  lemma {:induction false} HonestPrefix(cfg: Settings, actions: seq<Action>, more: seq<Action>)
    requires HonestRun(cfg, actions + more)
    ensures HonestRun(cfg, actions)
  {
    if more == [] {
      assert actions + more == actions;
    } else {
      assert (actions + more)[..|actions + more| - 1] == actions + more[..|more| - 1];
      HonestPrefix(cfg, actions, more[..|more| - 1]);
    }
  }

  /**
   Agreement: in every interleaving of claims, stale reclaims, crashes and redeliveries, a worker that has decided
   an application at one point of the run and a worker that has decided it at any later point hold equal outputs.
   */
  lemma {:induction false} DecidersAgree(cfg: Settings, actions: seq<Action>, more: seq<Action>, id: int, id': int)
    requires HonestRun(cfg, actions + more)
    requires id in Run(cfg, actions).workers && Run(cfg, actions).workers[id].stage.Decided?
    requires id' in Run(cfg, actions + more).workers && Run(cfg, actions + more).workers[id'].stage.Decided?
    requires Run(cfg, actions).workers[id].app == Run(cfg, actions + more).workers[id'].app
    ensures Run(cfg, actions).workers[id].stage.out == Run(cfg, actions + more).workers[id'].stage.out
  {
    HonestPrefix(cfg, actions, more);
    AgreeInvHolds(cfg, actions);
    AgreeInvHolds(cfg, actions + more);
    var w, w' := Run(cfg, actions), Run(cfg, actions + more);
    assert WorkerAgrees(cfg, w.tables, w.workers[id]) && WorkerAgrees(cfg, w'.tables, w'.workers[id']);
    RunGrows(cfg, actions, more);
    VerdictStays(cfg, w.tables, w'.tables, w.workers[id].app);
  }

  /** The decision on record is the one any worker would compute from the stored rows, then or later. */
  lemma {:induction false} RecordedDecisionIsVerdict(cfg: Settings, actions: seq<Action>, i: nat)
    requires HonestRun(cfg, actions)
    requires i < |Run(cfg, actions).tables.audit| && Run(cfg, actions).tables.audit[i].step == DECISION_CALCULATION
    ensures var t := Run(cfg, actions).tables;
            var app := t.audit[i].app;
            && HasVerdict(t, app) && Verdict(cfg, t, app).Ok?
            && t.audit[i] == DecisionEntry(cfg.h, app, Verdict(cfg, t, app).value)
  {
    AgreeInvHolds(cfg, actions);
    assert EntryAgrees(cfg, Run(cfg, actions).tables, Run(cfg, actions).tables.audit[i]);
  }
}
