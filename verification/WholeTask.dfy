/**
 `process_application` as the procedure it is: claim, fetch or reuse each source, decide, store; whatever raises ends in
 error-marking (worker/tasks/process_application.py). Undisturbed, it does what the steps of Processing do.
 */
module WholeTask {
  import opened Common
  import opened Decisions
  import opened Host
  import opened Json
  import opened Providers
  import opened Rules
  import opened Schema
  import opened ServiceResults
  import opened State
  import opened StoredResults
  import AgreementTheorems
  import Tx = Worker
  import Processing

  predicate Readable(user: Dict) {
    Processing.Readable(user)
  }

  /** What `call` of each provider would return. */
  datatype Calls = Calls(credit: ResultValue, bank: ResultValue, gst: ResultValue)

  predicate CallShapes(calls: Calls) {
    CallShape(calls.credit) && CallShape(calls.bank) && CallShape(calls.gst)
  }

  // ----- the whole task -----

  /** The tables after one fetch and its result; None when it raises. */
  function Fetched(cfg: Settings, t: Tables, app: AppId, s: Source, call: ResultValue, now: int)
    : (Tables, Option<ResultValue>)
  {
    if (app, s) in t.external then (t, Some(Rebuilt(t.external[(app, s)])))
    else match AfterCall(cfg.h, s, call, now)
      case Raised => (t, None)
      case Ok(r) => (Tx.InsertExternal(cfg.h, t, app, s, r).value, Some(r))
  }

  function Concluded(cfg: Settings, t: Tables, app: AppId, user: Dict, c: Option<ResultValue>, b: Option<ResultValue>,
                     g: Option<ResultValue>, now: int): Tables
  {
    if c.None? || b.None? || g.None? then Tx.MarkManualReview(cfg.h, t, app, SYSTEM_ERROR, now)
    else match ComputeDecision(cfg.h, c.value, b.value, g.value, user, cfg.threshold, cfg.rs)
      case Ok(out) => Tx.StoreDecision(cfg.h, t, app, out, now)
      case Raised => Tx.MarkManualReview(cfg.h, t, app, SYSTEM_ERROR, now)
  }

  function Gathered(cfg: Settings, t: Tables, app: AppId, user: Dict, calls: Calls, now: int): Tables {
    var (t1, c) := Fetched(cfg, t, app, CREDIT_BUREAU, calls.credit, now);
    var (t2, b) := Fetched(cfg, t1, app, BANK_ANALYZER, calls.bank, now);
    var (t3, g) := Fetched(cfg, t2, app, GST_VERIFIER, calls.gst, now);
    Concluded(cfg, t3, app, user, c, b, g, now)
  }

  function Continued(cfg: Settings, claim: (Tables, Tx.ClaimOutcome), app: AppId, calls: Calls, now: int): Tables {
    match claim.1
    case NotClaimed(_) => claim.0
    case Claimed(user) =>
      if Readable(user) then Gathered(cfg, claim.0, app, user, calls, now)
      else Tx.MarkManualReview(cfg.h, claim.0, app, SYSTEM_ERROR, now)
    case _ => Tx.MarkManualReview(cfg.h, claim.0, app, SYSTEM_ERROR, now)
  }

  function Processed(cfg: Settings, t: Tables, app: AppId, calls: Calls, now: int): Tables {
    Continued(cfg, Tx.ClaimApp(cfg.h, t, app, now, cfg.lockTimeout), app, calls, now)
  }

  // ----- the procedure -----

  method FetchOrReuse(cfg: Settings, db: Tx.Database, app: AppId, s: Source, call: ResultValue, now: int)
    returns (result: Option<ResultValue>)
    modifies db
    ensures (db.Rows(), result) == Fetched(cfg, old(db.Rows()), app, s, call, now)
  {
    if (app, s) in db.external { return Some(Rebuilt(db.external[(app, s)])); }
    var answer := AfterCall(cfg.h, s, call, now);
    if answer.Raised? { return None; }
    var raised := db.StoreExternalResult(cfg.h, app, s, answer.value);
    return Some(answer.value);
  }

  /** The body of the task; `failed` means it raised. */
  method RunTask(cfg: Settings, db: Tx.Database, app: AppId, calls: Calls, now: int) returns (failed: bool)
    modifies db
    ensures Processed(cfg, old(db.Rows()), app, calls, now)
            == if failed then Tx.MarkManualReview(cfg.h, db.Rows(), app, SYSTEM_ERROR, now) else db.Rows()
  {
    var outcome := db.ClaimApplication(cfg.h, app, now, cfg.lockTimeout);
    if outcome.NotClaimed? { return false; }
    if !outcome.Claimed? { return true; }
    var user := outcome.user;
    if "monthly_income" !in user || "pan" !in user { return true; }
    var credit := FetchOrReuse(cfg, db, app, CREDIT_BUREAU, calls.credit, now);
    var bank := FetchOrReuse(cfg, db, app, BANK_ANALYZER, calls.bank, now);
    var gst := FetchOrReuse(cfg, db, app, GST_VERIFIER, calls.gst, now);
    if credit.None? || bank.None? || gst.None? { return true; }
    var decision := ComputeDecision(cfg.h, credit.value, bank.value, gst.value, Tx.DecisionUserData(user),
                                    cfg.threshold, cfg.rs);
    Tx.SealedDataDecides(cfg.h, credit.value, bank.value, gst.value, user, cfg.threshold, cfg.rs);
    if decision.Raised? { return true; }
    failed := db.StoreProcessingResults(cfg.h, app, decision.value, now);
  }

  method ProcessApplication(cfg: Settings, db: Tx.Database, app: AppId, calls: Calls, now: int)
    modifies db
    ensures db.Rows() == Processed(cfg, old(db.Rows()), app, calls, now)
  {
    var failed := RunTask(cfg, db, app, calls, now);
    if failed { db.MarkManualReviewAfterSystemError(cfg.h, app, SYSTEM_ERROR, now); }
  }

  // ----- the same task, step by step -----

  function CallSteps(cfg: Settings, w: World, id: int, s: Source, call: ResultValue): World {
    Processing.InsertChecked(cfg, Processing.CheckExternal(Processing.Answer(cfg, w, id, s, call), id, s), id, s)
  }

  /** Worker `id` taken through one fetch; a step that is not its next one does nothing. */
  function FetchSteps(cfg: Settings, w: World, id: int, s: Source, call: ResultValue): World {
    CallSteps(cfg, Processing.LoadExternal(w, id, s), id, s, call)
  }

  function StoreSteps(cfg: Settings, w: World, id: int): World {
    Processing.MarkError(cfg, Processing.StoreResults(cfg, w, id), id)
  }

  function FinalSteps(cfg: Settings, w: World, id: int): World {
    StoreSteps(cfg, Processing.DecideApplication(cfg, w, id), id)
  }

  function GatherSteps(cfg: Settings, w: World, id: int, calls: Calls): World {
    var w1 := FetchSteps(cfg, w, id, CREDIT_BUREAU, calls.credit);
    var w2 := FetchSteps(cfg, w1, id, BANK_ANALYZER, calls.bank);
    var w3 := FetchSteps(cfg, w2, id, GST_VERIFIER, calls.gst);
    FinalSteps(cfg, w3, id)
  }

  function ClaimSteps(cfg: Settings, w: World, id: int, app: AppId): World {
    Processing.ClaimApplication(cfg, Processing.Deliver(w, id, app), id)
  }

  function TaskSteps(cfg: Settings, w: World, id: int, app: AppId, calls: Calls): World {
    GatherSteps(cfg, ClaimSteps(cfg, w, id, app), id, calls)
  }

  /** Worker `id` as `wk`, its slot for `s` filled with `slot`. */
  function With(w: World, id: int, wk: Worker, s: Source, slot: Slot): World {
    Processing.Put(w, id, WithSlot(wk, s, slot))
  }

  predicate Active(wk: Worker) {
    wk.claim.Some? && Readable(wk.user) && (wk.stage.Gathering? || wk.stage.Failed?)
  }

  predicate MayFetch(wk: Worker, s: Source) {
    Active(wk) && SlotOf(wk, s).Loading?
  }

  predicate Waiting(wk: Worker) {
    MayFetch(wk, CREDIT_BUREAU) && MayFetch(wk, BANK_ANALYZER) && MayFetch(wk, GST_VERIFIER)
  }

  function AfterOne(wk: Worker, s: Source, r: Option<ResultValue>): Worker {
    match r
    case Some(v) => WithSlot(wk, s, Have(v))
    case None => Processing.Fail(WithSlot(wk, s, Calling), SYSTEM_ERROR)
  }

  lemma CheckedStep(w: World, id: int, wk: Worker, s: Source, r: ResultValue)
    requires Active(wk) && (wk.app, s) !in w.tables.external
    ensures Processing.CheckExternal(With(w, id, wk, s, Checking(r)), id, s) == With(w, id, wk, s, Unstored(r))
  {
    assert WithSlot(WithSlot(wk, s, Checking(r)), s, Unstored(r)) == WithSlot(wk, s, Unstored(r));
    assert w.workers[id := WithSlot(wk, s, Checking(r))][id := WithSlot(wk, s, Unstored(r))]
           == w.workers[id := WithSlot(wk, s, Unstored(r))];
  }

  lemma InsertedStep(cfg: Settings, w: World, id: int, wk: Worker, s: Source, r: ResultValue)
    requires Active(wk) && (wk.app, s) !in w.tables.external
    ensures Processing.InsertChecked(cfg, With(w, id, wk, s, Unstored(r)), id, s)
            == With(w, id, wk, s, Have(r)).(tables := Tx.InsertExternal(cfg.h, w.tables, wk.app, s, r).value)
  {
    assert WithSlot(WithSlot(wk, s, Unstored(r)), s, Have(r)) == WithSlot(wk, s, Have(r));
    assert w.workers[id := WithSlot(wk, s, Unstored(r))][id := WithSlot(wk, s, Have(r))]
           == w.workers[id := WithSlot(wk, s, Have(r))];
  }

  lemma AnsweredStep(cfg: Settings, w: World, id: int, s: Source, call: ResultValue, r: ResultValue)
    requires id in w.workers && Active(w.workers[id]) && SlotOf(w.workers[id], s).Calling? && CallShape(call)
    requires AfterCall(cfg.h, s, call, w.clock) == Ok(r)
    ensures Processing.Answer(cfg, w, id, s, call) == With(w, id, w.workers[id], s, Checking(r))
  {
  }

  lemma RaisedSteps(cfg: Settings, w: World, id: int, s: Source, call: ResultValue)
    requires id in w.workers && Active(w.workers[id]) && SlotOf(w.workers[id], s).Calling? && CallShape(call)
    requires AfterCall(cfg.h, s, call, w.clock).Raised?
    ensures CallSteps(cfg, w, id, s, call)
            == w.(workers := w.workers[id := Processing.Fail(w.workers[id], SYSTEM_ERROR)])
  {
  }

  lemma CalledSteps(cfg: Settings, w: World, id: int, s: Source, call: ResultValue)
    requires id in w.workers && Active(w.workers[id]) && SlotOf(w.workers[id], s).Calling? && CallShape(call)
    requires (w.workers[id].app, s) !in w.tables.external
    ensures var wk := w.workers[id];
            var (t, r) := Fetched(cfg, w.tables, wk.app, s, call, w.clock);
            CallSteps(cfg, w, id, s, call) == w.(tables := t, workers := w.workers[id := AfterOne(wk, s, r)])
  {
    var wk := w.workers[id];
    match AfterCall(cfg.h, s, call, w.clock)
    case Ok(r) =>
      AnsweredStep(cfg, w, id, s, call, r);
      CheckedStep(w, id, wk, s, r);
      InsertedStep(cfg, w, id, wk, s, r);
    case Raised =>
      RaisedSteps(cfg, w, id, s, call);
      assert WithSlot(wk, s, Calling) == wk;
  }

  lemma SettledStays(cfg: Settings, w: World, id: int, s: Source, call: ResultValue)
    requires id in w.workers && SlotOf(w.workers[id], s).Have?
    ensures CallSteps(cfg, w, id, s, call) == w
  {
  }

  lemma FetchStepsReuse(cfg: Settings, w: World, id: int, s: Source, call: ResultValue)
    requires id in w.workers && MayFetch(w.workers[id], s) && (w.workers[id].app, s) in w.tables.external
    ensures var wk := w.workers[id];
            FetchSteps(cfg, w, id, s, call)
            == w.(workers := w.workers[id := WithSlot(wk, s, Have(Rebuilt(w.tables.external[(wk.app, s)])))])
  {
    var loaded := Processing.LoadExternal(w, id, s);
    SettledStays(cfg, loaded, id, s, call);
  }

  lemma FetchStepsCall(cfg: Settings, w: World, id: int, s: Source, call: ResultValue)
    requires id in w.workers && CallShape(call) && MayFetch(w.workers[id], s)
    requires (w.workers[id].app, s) !in w.tables.external
    ensures var wk := w.workers[id];
            var (t, r) := Fetched(cfg, w.tables, wk.app, s, call, w.clock);
            FetchSteps(cfg, w, id, s, call) == w.(tables := t, workers := w.workers[id := AfterOne(wk, s, r)])
  {
    var wk := w.workers[id];
    var (t, r) := Fetched(cfg, w.tables, wk.app, s, call, w.clock);
    LoadedIsCalling(w, id, s);
    CalledSteps(cfg, Processing.LoadExternal(w, id, s), id, s, call);
    SlotOverwritten(w, id, wk, s, r);
  }

  lemma LoadedIsCalling(w: World, id: int, s: Source)
    requires id in w.workers && MayFetch(w.workers[id], s) && (w.workers[id].app, s) !in w.tables.external
    ensures var calling := WithSlot(w.workers[id], s, Calling);
            && Processing.LoadExternal(w, id, s) == Processing.Put(w, id, calling)
            && SlotOf(calling, s).Calling? && calling.claim == w.workers[id].claim
            && calling.stage == w.workers[id].stage && calling.app == w.workers[id].app
  {
  }

  lemma SlotOverwritten(w: World, id: int, wk: Worker, s: Source, r: Option<ResultValue>)
    ensures AfterOne(WithSlot(wk, s, Calling), s, r) == AfterOne(wk, s, r)
    ensures w.workers[id := WithSlot(wk, s, Calling)][id := AfterOne(wk, s, r)] == w.workers[id := AfterOne(wk, s, r)]
  {
  }

  lemma FetchStepsFetch(cfg: Settings, w: World, id: int, s: Source, call: ResultValue)
    requires id in w.workers && CallShape(call) && MayFetch(w.workers[id], s)
    ensures var wk := w.workers[id];
            var (t, r) := Fetched(cfg, w.tables, wk.app, s, call, w.clock);
            FetchSteps(cfg, w, id, s, call) == w.(tables := t, workers := w.workers[id := AfterOne(wk, s, r)])
  {
    if (w.workers[id].app, s) in w.tables.external {
      FetchStepsReuse(cfg, w, id, s, call);
    } else {
      FetchStepsCall(cfg, w, id, s, call);
    }
  }

  lemma FinalStepsConclude(cfg: Settings, w: World, id: int, c: Option<ResultValue>, b: Option<ResultValue>,
                           g: Option<ResultValue>)
    requires id in w.workers && "monthly_income" in w.workers[id].user
    requires var wk := w.workers[id];
             if c.Some? && b.Some? && g.Some?
             then wk.stage.Gathering? && wk.credit == Have(c.value) && wk.bank == Have(b.value)
                  && wk.gst == Have(g.value)
             else wk.stage == Failed(SYSTEM_ERROR)
    ensures var wk := w.workers[id];
            FinalSteps(cfg, w, id)
            == w.(tables := Concluded(cfg, w.tables, wk.app, wk.user, c, b, g, w.clock), workers := w.workers - {id})
  {
    if c.Some? && b.Some? && g.Some? { DecidingEnds(cfg, w, id, c.value, b.value, g.value); }
  }

  lemma DecidingEnds(cfg: Settings, w: World, id: int, c: ResultValue, b: ResultValue, g: ResultValue)
    requires id in w.workers && "monthly_income" in w.workers[id].user && w.workers[id].stage.Gathering?
    requires w.workers[id].credit == Have(c) && w.workers[id].bank == Have(b) && w.workers[id].gst == Have(g)
    ensures var wk := w.workers[id];
            FinalSteps(cfg, w, id)
            == w.(tables := Concluded(cfg, w.tables, wk.app, wk.user, Some(c), Some(b), Some(g), w.clock),
                  workers := w.workers - {id})
  {
    var wk := w.workers[id];
    Tx.SealedDataDecides(cfg.h, c, b, g, wk.user, cfg.threshold, cfg.rs);
    match ComputeDecision(cfg.h, c, b, g, wk.user, cfg.threshold, cfg.rs)
    case Ok(out) =>
      DecidedEnds(cfg, w, id, wk, out);
      assert Processing.DecideApplication(cfg, w, id) == Processing.Put(w, id, wk.(stage := Decided(out)));
    case Raised =>
      FailedEnds(cfg, w, id, wk);
      assert Processing.DecideApplication(cfg, w, id) == Processing.Put(w, id, wk.(stage := Failed(SYSTEM_ERROR)));
  }

  lemma DecidedEnds(cfg: Settings, w: World, id: int, wk: Worker, out: DecisionOutput)
    ensures StoreSteps(cfg, Processing.Put(w, id, wk.(stage := Decided(out))), id)
            == w.(tables := Tx.StoreDecision(cfg.h, w.tables, wk.app, out, w.clock), workers := w.workers - {id})
  {
    assert w.workers[id := wk.(stage := Decided(out))] - {id} == w.workers - {id};
  }

  lemma FailedEnds(cfg: Settings, w: World, id: int, wk: Worker)
    ensures StoreSteps(cfg, Processing.Put(w, id, wk.(stage := Failed(SYSTEM_ERROR))), id)
            == w.(tables := Tx.MarkManualReview(cfg.h, w.tables, wk.app, SYSTEM_ERROR, w.clock),
                  workers := w.workers - {id})
  {
    assert w.workers[id := wk.(stage := Failed(SYSTEM_ERROR))] - {id} == w.workers - {id};
  }

  function AfterAll(wk: Worker, c: Option<ResultValue>, b: Option<ResultValue>, g: Option<ResultValue>): Worker {
    AfterOne(AfterOne(AfterOne(wk, CREDIT_BUREAU, c), BANK_ANALYZER, b), GST_VERIFIER, g)
  }

  lemma OtherSlotsWait(wk: Worker, s: Source, s': Source, r: Option<ResultValue>)
    requires s != s' && MayFetch(wk, s) && MayFetch(wk, s')
    ensures MayFetch(AfterOne(wk, s, r), s')
    ensures AfterOne(wk, s, r).app == wk.app && AfterOne(wk, s, r).user == wk.user
  {
  }

  function Placed(w: World, t: Tables, id: int, wk: Worker): World {
    w.(tables := t, workers := w.workers[id := wk])
  }

  lemma PlacedFetch(cfg: Settings, w: World, t: Tables, id: int, wk: Worker, s: Source, call: ResultValue)
    requires CallShape(call) && MayFetch(wk, s)
    ensures var (t', r) := Fetched(cfg, t, wk.app, s, call, w.clock);
            FetchSteps(cfg, Placed(w, t, id, wk), id, s, call) == Placed(w, t', id, AfterOne(wk, s, r))
  {
    var r := Fetched(cfg, t, wk.app, s, call, w.clock).1;
    PlacedTwice(w, id, wk, AfterOne(wk, s, r));
    FetchStepsFetch(cfg, Placed(w, t, id, wk), id, s, call);
  }

  lemma PlacedTwice(w: World, id: int, wk: Worker, wk': Worker)
    ensures w.workers[id := wk][id := wk'] == w.workers[id := wk']
  {
  }

  lemma PlacedEnd(cfg: Settings, w: World, t: Tables, id: int, wk: Worker, c: Option<ResultValue>,
                  b: Option<ResultValue>, g: Option<ResultValue>)
    requires wk.stage.Gathering? && Readable(wk.user)
    ensures var wk' := AfterAll(wk, c, b, g);
            FinalSteps(cfg, Placed(w, t, id, wk'), id)
            == w.(tables := Concluded(cfg, t, wk.app, wk.user, c, b, g, w.clock), workers := w.workers - {id})
  {
    var wk' := AfterAll(wk, c, b, g);
    AllSlots(wk, c, b, g);
    FinalStepsConclude(cfg, Placed(w, t, id, wk'), id, c, b, g);
    assert w.workers[id := wk'] - {id} == w.workers - {id};
  }

  lemma AllSlots(wk: Worker, c: Option<ResultValue>, b: Option<ResultValue>, g: Option<ResultValue>)
    requires wk.stage.Gathering?
    ensures var wk' := AfterAll(wk, c, b, g);
            && wk'.app == wk.app && wk'.user == wk.user
            && if c.Some? && b.Some? && g.Some?
               then wk'.stage.Gathering? && wk'.credit == Have(c.value) && wk'.bank == Have(b.value)
                    && wk'.gst == Have(g.value)
               else wk'.stage == Failed(SYSTEM_ERROR)
  {
  }

  lemma GatherStepsGather(cfg: Settings, w: World, t: Tables, id: int, wk: Worker, calls: Calls)
    requires CallShapes(calls) && wk.stage.Gathering? && Waiting(wk)
    ensures GatherSteps(cfg, Placed(w, t, id, wk), id, calls)
            == w.(tables := Gathered(cfg, t, wk.app, wk.user, calls, w.clock), workers := w.workers - {id})
  {
    var (t1, c) := Fetched(cfg, t, wk.app, CREDIT_BUREAU, calls.credit, w.clock);
    var (t2, b) := Fetched(cfg, t1, wk.app, BANK_ANALYZER, calls.bank, w.clock);
    var (t3, g) := Fetched(cfg, t2, wk.app, GST_VERIFIER, calls.gst, w.clock);
    var wk1 := AfterOne(wk, CREDIT_BUREAU, c);
    OtherSlotsWait(wk, CREDIT_BUREAU, BANK_ANALYZER, c);
    OtherSlotsWait(wk, CREDIT_BUREAU, GST_VERIFIER, c);
    OtherSlotsWait(wk1, BANK_ANALYZER, GST_VERIFIER, b);
    PlacedFetch(cfg, w, t, id, wk, CREDIT_BUREAU, calls.credit);
    PlacedFetch(cfg, w, t1, id, wk1, BANK_ANALYZER, calls.bank);
    PlacedFetch(cfg, w, t2, id, AfterOne(wk1, BANK_ANALYZER, b), GST_VERIFIER, calls.gst);
    PlacedEnd(cfg, w, t3, id, wk, c, b, g);
  }

  /** A task that has not got as far as fetching goes straight to its end. */
  lemma GatherStepsEnd(cfg: Settings, w: World, id: int, calls: Calls)
    requires !Processing.Fetching(w, id) && (id in w.workers ==> w.workers[id].stage == Failed(SYSTEM_ERROR))
    ensures GatherSteps(cfg, w, id, calls) == Processing.MarkError(cfg, w, id)
  {
  }

  function HandedOut(app: AppId): Worker {
    Worker(app, Delivered, None, map[], Loading, Loading, Loading)
  }

  lemma TurnedAway(cfg: Settings, w: World, id: int, app: AppId)
    requires id !in w.workers && app in w.sent
    requires Tx.ClaimApp(cfg.h, w.tables, app, w.clock, cfg.lockTimeout).1.NotClaimed?
    ensures ClaimSteps(cfg, w, id, app) == w
  {
    assert w.workers[id := HandedOut(app)] - {id} == w.workers;
  }

  lemma TakenOn(cfg: Settings, w: World, id: int, app: AppId, user: Dict)
    requires id !in w.workers && app in w.sent
    requires Tx.ClaimApp(cfg.h, w.tables, app, w.clock, cfg.lockTimeout).1 == Tx.Claimed(user)
    ensures var t := Tx.ClaimApp(cfg.h, w.tables, app, w.clock, cfg.lockTimeout).0;
            ClaimSteps(cfg, w, id, app)
            == Placed(w.(claims := w.claims + [Claim(app, w.clock)]), t, id, Claimant(w, app, user))
  {
    PlacedTwice(w, id, HandedOut(app), Claimant(w, app, user));
  }

  lemma FailsAtOnce(cfg: Settings, w: World, id: int, app: AppId)
    requires id !in w.workers && app in w.sent
    requires var outcome := Tx.ClaimApp(cfg.h, w.tables, app, w.clock, cfg.lockTimeout).1;
             outcome.NoSuchApplication? || outcome.Undecipherable?
    ensures ClaimSteps(cfg, w, id, app) == Placed(w, w.tables, id, HandedOut(app).(stage := Failed(SYSTEM_ERROR)))
  {
    PlacedTwice(w, id, HandedOut(app), HandedOut(app).(stage := Failed(SYSTEM_ERROR)));
  }

  function Claimant(w: World, app: AppId, user: Dict): Worker {
    Worker(app, if Readable(user) then Gathering else Failed(SYSTEM_ERROR), Some(|w.claims|), user,
           Loading, Loading, Loading)
  }

  lemma PlacedMark(cfg: Settings, w: World, t: Tables, id: int, wk: Worker)
    requires wk.stage == Failed(SYSTEM_ERROR) && id !in w.workers
    ensures Processing.MarkError(cfg, Placed(w, t, id, wk), id)
            == w.(tables := Tx.MarkManualReview(cfg.h, t, wk.app, SYSTEM_ERROR, w.clock))
  {
    assert w.workers[id := wk] - {id} == w.workers;
  }

  lemma ClaimantSteps(cfg: Settings, w: World, id: int, app: AppId, user: Dict, calls: Calls)
    requires id !in w.workers && app in w.sent && CallShapes(calls)
    requires Tx.ClaimApp(cfg.h, w.tables, app, w.clock, cfg.lockTimeout).1 == Tx.Claimed(user)
    ensures TaskSteps(cfg, w, id, app, calls)
            == w.(tables := Processed(cfg, w.tables, app, calls, w.clock), claims := w.claims + [Claim(app, w.clock)])
  {
    TakenOn(cfg, w, id, app, user);
    var t := Tx.ClaimApp(cfg.h, w.tables, app, w.clock, cfg.lockTimeout).0;
    var w1, wk := w.(claims := w.claims + [Claim(app, w.clock)]), Claimant(w, app, user);
    if Readable(user) { ReadableSteps(cfg, w1, t, id, wk, calls); } else { UnreadableSteps(cfg, w1, t, id, wk, calls); }
  }

  lemma FailedSteps(cfg: Settings, w: World, id: int, app: AppId, calls: Calls)
    requires id !in w.workers && app in w.sent
    requires var outcome := Tx.ClaimApp(cfg.h, w.tables, app, w.clock, cfg.lockTimeout).1;
             outcome.NoSuchApplication? || outcome.Undecipherable?
    ensures TaskSteps(cfg, w, id, app, calls) == w.(tables := Processed(cfg, w.tables, app, calls, w.clock))
  {
    FailsAtOnce(cfg, w, id, app);
    var wk := HandedOut(app).(stage := Failed(SYSTEM_ERROR));
    GatherStepsEnd(cfg, Placed(w, w.tables, id, wk), id, calls);
    PlacedMark(cfg, w, w.tables, id, wk);
  }

  lemma ReadableSteps(cfg: Settings, w: World, t: Tables, id: int, wk: Worker, calls: Calls)
    requires id !in w.workers && CallShapes(calls) && wk.stage.Gathering? && Waiting(wk)
    ensures GatherSteps(cfg, Placed(w, t, id, wk), id, calls)
            == w.(tables := Gathered(cfg, t, wk.app, wk.user, calls, w.clock))
  {
    Absent(w, id);
    GatherStepsGather(cfg, w, t, id, wk, calls);
  }

  lemma Absent(w: World, id: int)
    requires id !in w.workers
    ensures w.workers - {id} == w.workers
  {
  }

  lemma UnreadableSteps(cfg: Settings, w: World, t: Tables, id: int, wk: Worker, calls: Calls)
    requires id !in w.workers && wk.stage == Failed(SYSTEM_ERROR) && !Readable(wk.user)
    ensures GatherSteps(cfg, Placed(w, t, id, wk), id, calls)
            == w.(tables := Tx.MarkManualReview(cfg.h, t, wk.app, SYSTEM_ERROR, w.clock))
  {
    GatherStepsEnd(cfg, Placed(w, t, id, wk), id, calls);
    PlacedMark(cfg, w, t, id, wk);
  }

  /** The steps of a worker that nobody disturbs, taken one after the other, do what the whole task does. */
  lemma {:induction false} StepsMakeTheTask(cfg: Settings, w: World, id: int, app: AppId, calls: Calls)
    requires id !in w.workers && app in w.sent && CallShapes(calls)
    ensures var w' := TaskSteps(cfg, w, id, app, calls);
            w'.tables == Processed(cfg, w.tables, app, calls, w.clock) && w'.workers == w.workers
  {
    match Tx.ClaimApp(cfg.h, w.tables, app, w.clock, cfg.lockTimeout).1
    case NotClaimed(_) =>
      TurnedAway(cfg, w, id, app);
      GatherStepsEnd(cfg, w, id, calls);
    case Claimed(user) => ClaimantSteps(cfg, w, id, app, user, calls);
    case _ => FailedSteps(cfg, w, id, app, calls);
  }

  // ----- what the task amounts to -----

  predicate Unfetched(t: Tables, app: AppId) {
    (app, CREDIT_BUREAU) !in t.external && (app, BANK_ANALYZER) !in t.external && (app, GST_VERIFIER) !in t.external
  }

  predicate Ready(cfg: Settings, t: Tables, app: AppId, now: int) {
    && app in t.apps && t.apps[app].sealed.Some? && Readable(t.apps[app].sealed.value)
    && (t.apps[app].status == PENDING
        || (t.apps[app].status == PROCESSING && t.apps[app].updatedAt < now - cfg.lockTimeout))
  }

  /** The decided row of the application. */
  function DecidedRow(a: Application, out: DecisionOutput, now: int): Application {
    Application(a.key, a.sealed, if out.decision == NEEDS_REVIEW then MANUAL_REVIEW else COMPLETED,
                Some(out.decision), Some(out.confidence), now)
  }

  function DecidedEntries(h: Host, app: AppId, out: DecisionOutput): seq<Entry> {
    if out.decision == NEEDS_REVIEW then [DecisionEntry(h, app, out), ReviewEntry(h, app, out)]
    else [DecisionEntry(h, app, out)]
  }

  /**
   An application nobody has fetched for: its three results are stored, the decision is the one on these results and the
   sealed data, and the log tells the start, the fetches, the decision and the review in that order.
   */
  lemma FreshApplicationProcessed(cfg: Settings, t: Tables, app: AppId, calls: Calls, now: int, c: ResultValue,
                                  b: ResultValue, g: ResultValue, out: DecisionOutput)
    requires Ready(cfg, t, app, now) && Unfetched(t, app)
    requires AfterCall(cfg.h, CREDIT_BUREAU, calls.credit, now) == Ok(c)
    requires AfterCall(cfg.h, BANK_ANALYZER, calls.bank, now) == Ok(b)
    requires AfterCall(cfg.h, GST_VERIFIER, calls.gst, now) == Ok(g)
    requires ComputeDecision(cfg.h, c, b, g, t.apps[app].sealed.value, cfg.threshold, cfg.rs) == Ok(out)
    ensures Processed(cfg, t, app, calls, now)
            == Tables(t.records, t.apps[app := DecidedRow(t.apps[app], out, now)], t.outbox,
                      t.external[(app, CREDIT_BUREAU) := StoredRow(c)][(app, BANK_ANALYZER) := StoredRow(b)]
                                [(app, GST_VERIFIER) := StoredRow(g)],
                      t.audit + [StartedEntry(cfg.h, app), FetchEntry(cfg.h, app, CREDIT_BUREAU, c),
                                 FetchEntry(cfg.h, app, BANK_ANALYZER, b), FetchEntry(cfg.h, app, GST_VERIFIER, g)]
                      + DecidedEntries(cfg.h, app, out))
  {
    var t1, user := Claimed(cfg, t, app, now), t.apps[app].sealed.value;
    ClaimedToGather(cfg, t, app, calls, now);
    GatheredFresh(cfg, t1, app, user, calls, now, c, b, g);
    FreshRows(cfg, t, app, c, b, g, out, now);
  }

  lemma FreshRows(cfg: Settings, t: Tables, app: AppId, c: ResultValue, b: ResultValue, g: ResultValue,
                  out: DecisionOutput, now: int)
    requires app in t.apps && Unfetched(t, app)
    ensures Tx.StoreDecision(cfg.h, AllFetched(cfg, Claimed(cfg, t, app, now), app, c, b, g), app, out, now)
            == Tables(t.records, t.apps[app := DecidedRow(t.apps[app], out, now)], t.outbox,
                      t.external[(app, CREDIT_BUREAU) := StoredRow(c)][(app, BANK_ANALYZER) := StoredRow(b)]
                                [(app, GST_VERIFIER) := StoredRow(g)],
                      t.audit + [StartedEntry(cfg.h, app), FetchEntry(cfg.h, app, CREDIT_BUREAU, c),
                                 FetchEntry(cfg.h, app, BANK_ANALYZER, b), FetchEntry(cfg.h, app, GST_VERIFIER, g)]
                      + DecidedEntries(cfg.h, app, out))
  {
    var t1 := Claimed(cfg, t, app, now);
    var t4 := AllFetched(cfg, t1, app, c, b, g);
    AllFetchedRows(cfg, t1, app, c, b, g);
    ConcludedRow(cfg, t4, app, t.apps[app], out, now);
    assert t4.apps[app := DecidedRow(t.apps[app], out, now)] == t.apps[app := DecidedRow(t.apps[app], out, now)];
    LogGrows(t.audit, StartedEntry(cfg.h, app), FetchEntry(cfg.h, app, CREDIT_BUREAU, c),
             FetchEntry(cfg.h, app, BANK_ANALYZER, b), FetchEntry(cfg.h, app, GST_VERIFIER, g));
  }

  lemma LogGrows(log: seq<Entry>, w: Entry, x: Entry, y: Entry, z: Entry)
    ensures log + [w] + [x, y, z] == log + [w, x, y, z]
  {
  }

  /** The tables after a claim that succeeds. */
  function Claimed(cfg: Settings, t: Tables, app: AppId, now: int): Tables
    requires app in t.apps
  {
    t.(apps := t.apps[app := t.apps[app].(status := PROCESSING, updatedAt := now)],
       audit := t.audit + [StartedEntry(cfg.h, app)])
  }

  lemma ClaimedToGather(cfg: Settings, t: Tables, app: AppId, calls: Calls, now: int)
    requires Ready(cfg, t, app, now)
    ensures Processed(cfg, t, app, calls, now)
            == Gathered(cfg, Claimed(cfg, t, app, now), app, t.apps[app].sealed.value, calls, now)
  {
    ClaimSucceeds(cfg, t, app, now);
  }

  lemma ClaimSucceeds(cfg: Settings, t: Tables, app: AppId, now: int)
    requires Ready(cfg, t, app, now)
    ensures Tx.ClaimApp(cfg.h, t, app, now, cfg.lockTimeout)
            == (Claimed(cfg, t, app, now), Tx.Claimed(t.apps[app].sealed.value))
  {
  }

  function AllFetched(cfg: Settings, t: Tables, app: AppId, c: ResultValue, b: ResultValue, g: ResultValue): Tables
    requires Unfetched(t, app)
  {
    var t1 := Tx.InsertExternal(cfg.h, t, app, CREDIT_BUREAU, c).value;
    var t2 := Tx.InsertExternal(cfg.h, t1, app, BANK_ANALYZER, b).value;
    Tx.InsertExternal(cfg.h, t2, app, GST_VERIFIER, g).value
  }

  lemma AllFetchedRows(cfg: Settings, t: Tables, app: AppId, c: ResultValue, b: ResultValue, g: ResultValue)
    requires Unfetched(t, app)
    ensures AllFetched(cfg, t, app, c, b, g)
            == t.(external := t.external[(app, CREDIT_BUREAU) := StoredRow(c)][(app, BANK_ANALYZER) := StoredRow(b)]
                                        [(app, GST_VERIFIER) := StoredRow(g)],
                  audit := t.audit + [FetchEntry(cfg.h, app, CREDIT_BUREAU, c),
                                      FetchEntry(cfg.h, app, BANK_ANALYZER, b),
                                      FetchEntry(cfg.h, app, GST_VERIFIER, g)])
  {
  }

  lemma GatheredFresh(cfg: Settings, t: Tables, app: AppId, user: Dict, calls: Calls, now: int, c: ResultValue,
                      b: ResultValue, g: ResultValue)
    requires Unfetched(t, app)
    requires AfterCall(cfg.h, CREDIT_BUREAU, calls.credit, now) == Ok(c)
    requires AfterCall(cfg.h, BANK_ANALYZER, calls.bank, now) == Ok(b)
    requires AfterCall(cfg.h, GST_VERIFIER, calls.gst, now) == Ok(g)
    ensures Gathered(cfg, t, app, user, calls, now)
            == Concluded(cfg, AllFetched(cfg, t, app, c, b, g), app, user, Some(c), Some(b), Some(g), now)
  {
  }

  lemma ConcludedRow(cfg: Settings, t: Tables, app: AppId, a: Application, out: DecisionOutput, now: int)
    requires app in t.apps && t.apps[app] == a.(status := PROCESSING, updatedAt := now)
    ensures Tx.StoreDecision(cfg.h, t, app, out, now)
            == t.(apps := t.apps[app := DecidedRow(a, out, now)], audit := t.audit + DecidedEntries(cfg.h, app, out))
  {
    assert [DecisionEntry(cfg.h, app, out)] + [] == [DecisionEntry(cfg.h, app, out)];
    assert [DecisionEntry(cfg.h, app, out)] + [ReviewEntry(cfg.h, app, out)]
           == [DecisionEntry(cfg.h, app, out), ReviewEntry(cfg.h, app, out)];
  }

  /** An application whose three rows are there already: no provider is asked, and the rows alone decide. */
  lemma StoredRowsDecide(cfg: Settings, t: Tables, app: AppId, calls: Calls, now: int, out: DecisionOutput)
    requires Ready(cfg, t, app, now) && AgreementTheorems.HasVerdict(t, app)
    requires AgreementTheorems.Verdict(cfg, t, app) == Ok(out)
    ensures Processed(cfg, t, app, calls, now)
            == t.(apps := t.apps[app := DecidedRow(t.apps[app], out, now)],
                  audit := t.audit + [StartedEntry(cfg.h, app)] + DecidedEntries(cfg.h, app, out))
  {
    var t1 := Claimed(cfg, t, app, now);
    ClaimedToGather(cfg, t, app, calls, now);
    GatheredFromRows(cfg, t1, app, t.apps[app].sealed.value, calls, now);
    ConcludedRow(cfg, t1, app, t.apps[app], out, now);
    assert t1.apps[app := DecidedRow(t.apps[app], out, now)] == t.apps[app := DecidedRow(t.apps[app], out, now)];
  }

  lemma GatheredFromRows(cfg: Settings, t: Tables, app: AppId, user: Dict, calls: Calls, now: int)
    requires (app, CREDIT_BUREAU) in t.external && (app, BANK_ANALYZER) in t.external
    requires (app, GST_VERIFIER) in t.external
    ensures Gathered(cfg, t, app, user, calls, now)
            == Concluded(cfg, t, app, user, Some(Rebuilt(t.external[(app, CREDIT_BUREAU)])),
                         Some(Rebuilt(t.external[(app, BANK_ANALYZER)])),
                         Some(Rebuilt(t.external[(app, GST_VERIFIER)])), now)
  {
  }

  /** Whatever raises after the claim, the application ends in review with its error on record. */
  lemma FailedTaskIsMarked(cfg: Settings, t: Tables, app: AppId, calls: Calls, now: int)
    requires Ready(cfg, t, app, now) && Unfetched(t, app)
    requires AfterCall(cfg.h, CREDIT_BUREAU, calls.credit, now).Raised?
             || AfterCall(cfg.h, BANK_ANALYZER, calls.bank, now).Raised?
             || AfterCall(cfg.h, GST_VERIFIER, calls.gst, now).Raised?
    ensures var t' := Processed(cfg, t, app, calls, now);
            && t'.apps == t.apps[app := t.apps[app].(status := MANUAL_REVIEW, decision := Some(NEEDS_REVIEW),
                                                     updatedAt := now)]
            && t'.audit != [] && t'.audit[|t'.audit| - 1] == ErrorEntry(cfg.h, app, SYSTEM_ERROR)
  {
    ClaimedToGather(cfg, t, app, calls, now);
    var t1 := Claimed(cfg, t, app, now);
    var (t2, c) := Fetched(cfg, t1, app, CREDIT_BUREAU, calls.credit, now);
    var (t3, b) := Fetched(cfg, t2, app, BANK_ANALYZER, calls.bank, now);
    var (t4, g) := Fetched(cfg, t3, app, GST_VERIFIER, calls.gst, now);
    FetchKeepsApps(cfg, t1, app, CREDIT_BUREAU, calls.credit, now);
    FetchKeepsApps(cfg, t2, app, BANK_ANALYZER, calls.bank, now);
    FetchKeepsApps(cfg, t3, app, GST_VERIFIER, calls.gst, now);
    assert c.None? || b.None? || g.None?;
  }

  /** A fetch adds at most its own row. */
  lemma FetchKeepsApps(cfg: Settings, t: Tables, app: AppId, s: Source, call: ResultValue, now: int)
    ensures var t' := Fetched(cfg, t, app, s, call, now).0;
            && t'.apps == t.apps && forall s' | s' != s :: (app, s') in t'.external <==> (app, s') in t.external
  {
  }

  lemma ConcludedIsTerminal(cfg: Settings, t: Tables, app: AppId, user: Dict, c: Option<ResultValue>,
                            b: Option<ResultValue>, g: Option<ResultValue>, now: int)
    requires app in t.apps
    ensures var t' := Concluded(cfg, t, app, user, c, b, g, now); app in t'.apps && Terminal(t'.apps[app].status)
  {
    if c.Some? && b.Some? && g.Some? {
      match ComputeDecision(cfg.h, c.value, b.value, g.value, user, cfg.threshold, cfg.rs)
      case Ok(out) => StoredIsTerminal(cfg, t, app, out, now);
      case Raised =>
    }
  }

  lemma StoredIsTerminal(cfg: Settings, t: Tables, app: AppId, out: DecisionOutput, now: int)
    requires app in t.apps
    ensures var t' := Tx.StoreDecision(cfg.h, t, app, out, now); app in t'.apps && Terminal(t'.apps[app].status)
  {
  }

  lemma GatheredIsTerminal(cfg: Settings, t: Tables, app: AppId, user: Dict, calls: Calls, now: int)
    requires app in t.apps
    ensures var t' := Gathered(cfg, t, app, user, calls, now); app in t'.apps && Terminal(t'.apps[app].status)
  {
    var (t1, c) := Fetched(cfg, t, app, CREDIT_BUREAU, calls.credit, now);
    var (t2, b) := Fetched(cfg, t1, app, BANK_ANALYZER, calls.bank, now);
    var (t3, g) := Fetched(cfg, t2, app, GST_VERIFIER, calls.gst, now);
    FetchKeepsApps(cfg, t, app, CREDIT_BUREAU, calls.credit, now);
    FetchKeepsApps(cfg, t1, app, BANK_ANALYZER, calls.bank, now);
    FetchKeepsApps(cfg, t2, app, GST_VERIFIER, calls.gst, now);
    ConcludedIsTerminal(cfg, t3, app, user, c, b, g, now);
  }

  /** Claimed, an application does not stay open. */
  lemma ProcessedIsTerminal(cfg: Settings, t: Tables, app: AppId, calls: Calls, now: int)
    requires app in t.apps && Tx.Claimable(t.apps[app], now, cfg.lockTimeout)
    ensures var t' := Processed(cfg, t, app, calls, now); app in t'.apps && Terminal(t'.apps[app].status)
  {
    if Ready(cfg, t, app, now) {
      ClaimedToGather(cfg, t, app, calls, now);
      GatheredIsTerminal(cfg, Claimed(cfg, t, app, now), app, t.apps[app].sealed.value, calls, now);
    }
  }

  /**
   The task is idempotent, as its description promises: once it has run to its end, running it again, at any time and
   whatever the providers say by then, changes nothing. An application that is locked is left as it is too.
   */
  lemma TaskIsIdempotent(cfg: Settings, t: Tables, app: AppId, calls: Calls, now: int, calls': Calls, now': int)
    requires app in t.apps
    ensures Tx.Claimable(t.apps[app], now, cfg.lockTimeout) || Terminal(t.apps[app].status) ==>
              var t' := Processed(cfg, t, app, calls, now); Processed(cfg, t', app, calls', now') == t'
    ensures !Tx.Claimable(t.apps[app], now, cfg.lockTimeout) ==> Processed(cfg, t, app, calls, now) == t
  {
    if Tx.Claimable(t.apps[app], now, cfg.lockTimeout) { ProcessedIsTerminal(cfg, t, app, calls, now); }
  }

  // ----- a task that is disturbed -----

  /** A row that another worker has committed meanwhile is adopted; after the check it makes the insert raise. */
  lemma RowOfAnother(cfg: Settings, w: World, id: int, s: Source, r: ResultValue)
    requires id in w.workers && Active(w.workers[id]) && (w.workers[id].app, s) in w.tables.external
    ensures var wk := w.workers[id];
            var row := w.tables.external[(wk.app, s)];
            && (SlotOf(wk, s) == Checking(r) ==>
                  Processing.CheckExternal(w, id, s) == With(w, id, wk, s, Have(Rebuilt(row))))
            && (SlotOf(wk, s) == Unstored(r) ==>
                  Processing.InsertChecked(cfg, w, id, s) == Processing.Put(w, id, Processing.Fail(wk, SYSTEM_ERROR)))
  {
  }

  /** A task cut short, by the timeout or an exception and wherever it stands, marks its application so. */
  lemma AbortedIsMarked(cfg: Settings, w: World, id: int, kind: ErrorKind)
    requires id in w.workers && !w.workers[id].stage.Failed? && w.workers[id].app in w.tables.apps
    ensures var app, w' := w.workers[id].app, Processing.MarkError(cfg, Processing.Abort(w, id, kind), id);
            var a := w.tables.apps[app];
            && w'.tables == w.tables.(
                 apps := w.tables.apps[app := Application(a.key, a.sealed, MANUAL_REVIEW, Some(NEEDS_REVIEW),
                                                          a.confidence, w.clock)],
                 audit := w.tables.audit + [ErrorEntry(cfg.h, app, kind)])
            && w'.workers == w.workers - {id}
  {
    assert w.workers[id := w.workers[id].(stage := Failed(kind))] - {id} == w.workers - {id};
  }
}
