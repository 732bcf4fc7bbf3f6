/**
 Concrete runs from the empty world. In two of them an approved, COMPLETED application becomes MANUAL_REVIEW: by a
 worker that lost its claim, and by a redelivered one that never claimed. In the third a dishonest payload splits two
 workers.
 */
module Witness {
  import opened Common
  import opened Confidence
  import opened DecisionProperties
  import opened Decisions
  import opened Frames
  import opened Host
  import opened Json
  import opened Machine
  import opened Providers
  import opened Redaction
  import opened RuleSets
  import opened Rules
  import opened Schema
  import opened ServiceResults
  import opened State
  import opened StoredResults
  import opened TimingTheorems
  import Outbox
  import Processing
  import Tx = Worker

  const EXACT := Host(x => x, s => None, s => None, s => None)
  const CFG := Settings(EXACT, 300, 0.6, RULE_SET_V1, 86400)
  const APPLICANT: Dict := map["monthly_income" := Num(100.0), "existing_emis" := Num(0.0), "pan" := Str("ABCDE1234F")]
  const APP: AppId := 7

  function Steps(cfg: Settings, w: World, script: seq<Action>): World
    decreases |script|
  {
    if script == [] then w else Steps(cfg, Step(cfg, w, script[0]), script[1..])
  }

  lemma {:induction false} StepsExtendRun(cfg: Settings, actions: seq<Action>, script: seq<Action>)
    ensures Run(cfg, actions + script) == Steps(cfg, Run(cfg, actions), script)
    decreases |script|
  {
    if script == [] {
      assert actions + script == actions;
    } else {
      assert (actions + [script[0]])[..|actions|] == actions;
      StepsExtendRun(cfg, actions + [script[0]], script[1..]);
      assert actions + [script[0]] + script[1..] == actions + script;
    }
  }

  lemma FourSteps(cfg: Settings, w: World, a: Action, b: Action, c: Action, d: Action)
    ensures Steps(cfg, w, [a, b, c, d]) == Step(cfg, Step(cfg, Step(cfg, Step(cfg, w, a), b), c), d)
  {
    assert [a, b, c, d][1..] == [b, c, d] && [b, c, d][1..] == [c, d] && [c, d][1..] == [d] && [d][1..] == [];
    assert Steps(cfg, w, [a, b, c, d]) == Steps(cfg, Step(cfg, w, a), [b, c, d]);
    assert Steps(cfg, Step(cfg, w, a), [b, c, d]) == Steps(cfg, Step(cfg, Step(cfg, w, a), b), [c, d]);
    var w2 := Step(cfg, Step(cfg, w, a), b);
    assert Steps(cfg, w2, [c, d]) == Steps(cfg, Step(cfg, w2, c), [d]);
  }

  // ----- intake and delivery -----

  const INTAKE := [Api(Arrive(0, "key", "hash", Some(APPLICANT))), Api(ReadCache(0, true)), Api(ReadRecord(0)),
                   Api(InsertRecord(0, APP))]

  lemma IntakeHolds() returns (w: World)
    ensures w == Steps(CFG, EMPTY, INTAKE)
    ensures w == EMPTY.(requests := map[0 := Request("key", "hash", Some(APPLICANT), Holding(APP))])
  {
    FourSteps(CFG, EMPTY, INTAKE[0], INTAKE[1], INTAKE[2], INTAKE[3]);
    var w1 := Step(CFG, EMPTY, INTAKE[0]);
    assert w1.requests == map[0 := Request("key", "hash", Some(APPLICANT), CacheLookup)];
    var w2 := Step(CFG, w1, INTAKE[1]);
    var w3 := Step(CFG, w2, INTAKE[2]);
    assert w3.requests == map[0 := Request("key", "hash", Some(APPLICANT), Inserting)];
    w := Step(CFG, w3, INTAKE[3]);
  }

  const DELIVERY := [Api(CommitRequest(0)), Poll(SelectBatch(0, 10)), Poll(SendNext(0, true)),
                     Work(1, WorkAction.Deliver(APP))]

  lemma DeliveryReaches(w: World) returns (w': World)
    requires w == EMPTY.(requests := map[0 := Request("key", "hash", Some(APPLICANT), Holding(APP))])
    ensures w' == Steps(CFG, w, DELIVERY)
    ensures w'.tables.apps == QUEUED_APPS
    ensures w'.tables.external == map[] && w'.clock == 0 && w'.sent == [APP] && w'.claims == []
    ensures w'.workers == map[1 := Worker(APP, Delivered, None, map[], Loading, Loading, Loading)]
  {
    FourSteps(CFG, w, DELIVERY[0], DELIVERY[1], DELIVERY[2], DELIVERY[3]);
    var w1 := Step(CFG, w, DELIVERY[0]);
    assert Queued(w1);
    QueuedIsSent(w1);
    w' := Step(CFG, Step(CFG, Step(CFG, w1, DELIVERY[1]), DELIVERY[2]), DELIVERY[3]);
  }

  const QUEUED_APPS := map[APP := Application("key", Some(APPLICANT), PENDING, None, None, 0)]

  predicate Queued(w: World) {
    && w.tables.apps == QUEUED_APPS && w.tables.outbox == [Message(APP, QUEUED)] && w.tables.external == map[]
    && w.pollers == map[] && w.workers == map[] && w.sent == [] && w.clock == 0 && w.claims == []
  }

  lemma QueuedIsSent(w: World)
    requires Queued(w)
    ensures var w' := Step(CFG, Step(CFG, w, DELIVERY[1]), DELIVERY[2]);
            && w'.tables == w.tables && w'.workers == map[] && w'.sent == [APP] && w'.clock == 0 && w'.claims == []
  {
    assert Outbox.LockedRows(w) == {};
    assert Outbox.Oldest(w.tables.outbox, {}, 10, 0) == [];
    var w1 := Step(CFG, w, DELIVERY[1]);
    assert w1.pollers[0].batch == [0];
  }

  // ----- two claims -----

  const CLAIMS := [Work(1, ClaimApplication), Tick(301), Work(2, WorkAction.Deliver(APP)), Work(2, ClaimApplication)]

  const CLAIMANT := Worker(APP, Gathering, Some(0), APPLICANT, Loading, Loading, Loading)

  lemma ClaimsReach(w: World) returns (w': World)
    requires w.tables.apps == QUEUED_APPS
    requires w.tables.external == map[] && w.clock == 0 && w.sent == [APP] && w.claims == []
    requires w.workers == map[1 := Worker(APP, Delivered, None, map[], Loading, Loading, Loading)]
    ensures w' == Steps(CFG, w, CLAIMS)
    ensures w'.tables.apps == map[APP := Application("key", Some(APPLICANT), PROCESSING, None, None, 301)]
    ensures w'.tables.external == map[] && w'.clock == 301
    ensures w'.workers == map[1 := CLAIMANT, 2 := CLAIMANT.(claim := Some(1))]
  {
    FourSteps(CFG, w, CLAIMS[0], CLAIMS[1], CLAIMS[2], CLAIMS[3]);
    ClaimIsGranted(w, 1);
    var w1 := Step(CFG, w, CLAIMS[0]);
    DeliveredAgain(w1);
    var w3 := Step(CFG, Step(CFG, w1, CLAIMS[1]), CLAIMS[2]);
    ClaimIsGranted(w3, 2);
    w' := Step(CFG, w3, CLAIMS[3]);
  }

  lemma DeliveredAgain(w: World)
    requires w.workers == map[1 := CLAIMANT] && w.sent == [APP] && w.clock == 0
    ensures var w' := Step(CFG, Step(CFG, w, CLAIMS[1]), CLAIMS[2]);
            && w'.workers == map[1 := CLAIMANT, 2 := Worker(APP, Delivered, None, map[], Loading, Loading, Loading)]
            && w'.tables == w.tables && w'.sent == w.sent && w'.clock == 301 && w'.claims == w.claims
  {
  }

  lemma ClaimIsGranted(w: World, id: int)
    requires id in w.workers && w.workers[id] == Worker(APP, Delivered, None, map[], Loading, Loading, Loading)
    requires APP in w.tables.apps && w.tables.apps[APP].sealed == Some(APPLICANT)
    requires Tx.Claimable(w.tables.apps[APP], w.clock, CFG.lockTimeout)
    ensures var w' := Step(CFG, w, Work(id, ClaimApplication));
            && w'.workers == w.workers[id := CLAIMANT.(claim := Some(|w.claims|))]
            && w'.tables.apps == w.tables.apps[APP := w.tables.apps[APP].(status := PROCESSING, updatedAt := w.clock)]
            && w'.tables.external == w.tables.external && w'.clock == w.clock && w'.sent == w.sent
            && |w'.claims| == |w.claims| + 1
  {
    assert "monthly_income" in APPLICANT && "pan" in APPLICANT;
    assert Step(CFG, w, Work(id, ClaimApplication)) == Processing.ClaimApplication(CFG, w, id);
  }

  // ----- fetching and deciding -----

  function Success(d: Dict): ResultValue {
    ResultValue(true, Some(d), None, Some(d), false, 0, None)
  }

  const SCORE: Dict := map["credit_score" := Num(900.0)]
  const STABILITY: Dict := map["income_stability" := Num(1.0)]
  const COMPLIANT: Dict := map["gst_compliant" := Bool(true)]

  /** Denies the PAN and claims compliance all the same. */
  const DISHONEST: Dict := map["match" := Bool(false), "gst_compliant" := Bool(true)]

  const MISMATCH := Success(DISHONEST).(success := false, failure := Some(PAN_MISMATCH), data := Some(NOT_COMPLIANT),
                                        fallbackUsed := true)

  function Fill(w: World, id: int, s: Source, slot: Slot): World
    requires id in w.workers
  {
    Processing.Put(w, id, WithSlot(w.workers[id], s, slot))
  }

  /** Filling a slot leaves the worker fetching, and the last filling wins. */
  lemma Filled(w: World, id: int, s: Source, slot: Slot, next: Slot)
    requires Processing.Fetching(w, id)
    ensures var w' := Fill(w, id, s, slot);
            && Processing.Fetching(w', id) && w'.workers[id].app == w.workers[id].app
            && SlotOf(w'.workers[id], s) == slot
            && w'.tables == w.tables && w'.clock == w.clock
            && Fill(w', id, s, next) == Fill(w, id, s, next)
  {
    var wk := w.workers[id];
    assert WithSlot(WithSlot(wk, s, slot), s, next) == WithSlot(wk, s, next);
    assert w.workers[id := WithSlot(wk, s, slot)][id := WithSlot(wk, s, next)]
           == w.workers[id := WithSlot(wk, s, next)];
  }

  lemma LoadFindsNothing(w: World, id: int, s: Source)
    requires Processing.Fetching(w, id) && SlotOf(w.workers[id], s).Loading?
    requires (w.workers[id].app, s) !in w.tables.external
    ensures Step(CFG, w, Work(id, LoadExternal(s))) == Fill(w, id, s, Calling)
  {
    assert Step(CFG, w, Work(id, LoadExternal(s))) == Processing.LoadExternal(w, id, s);
  }

  lemma LoadFindsRow(w: World, id: int, s: Source, row: Row)
    requires Processing.Fetching(w, id) && SlotOf(w.workers[id], s).Loading?
    requires (w.workers[id].app, s) in w.tables.external && w.tables.external[(w.workers[id].app, s)] == row
    ensures Step(CFG, w, Work(id, LoadExternal(s))) == Fill(w, id, s, Have(Rebuilt(row)))
  {
    assert Step(CFG, w, Work(id, LoadExternal(s))) == Processing.LoadExternal(w, id, s);
  }

  lemma AnswerComes(w: World, id: int, s: Source, call: ResultValue, r: ResultValue)
    requires Processing.Fetching(w, id) && SlotOf(w.workers[id], s).Calling? && CallShape(call)
    requires AfterCall(EXACT, s, call, w.clock) == Ok(r)
    ensures Step(CFG, w, Work(id, WorkAction.Answer(s, call))) == Fill(w, id, s, Checking(r))
  {
    assert Step(CFG, w, Work(id, WorkAction.Answer(s, call))) == Processing.Answer(CFG, w, id, s, call);
  }

  lemma CheckFindsNothing(w: World, id: int, s: Source, r: ResultValue)
    requires Processing.Fetching(w, id) && SlotOf(w.workers[id], s) == Checking(r)
    requires (w.workers[id].app, s) !in w.tables.external
    ensures Step(CFG, w, Work(id, CheckExternal(s))) == Fill(w, id, s, Unstored(r))
  {
    assert Step(CFG, w, Work(id, CheckExternal(s))) == Processing.CheckExternal(w, id, s);
  }

  lemma InsertStores(w: World, id: int, s: Source, r: ResultValue)
    requires Processing.Fetching(w, id) && SlotOf(w.workers[id], s) == Unstored(r)
    requires (w.workers[id].app, s) !in w.tables.external
    ensures var w' := Step(CFG, w, Work(id, InsertChecked(s)));
            && w'.workers == Fill(w, id, s, Have(r)).workers && w'.tables.apps == w.tables.apps && w'.clock == w.clock
            && w'.tables.external == w.tables.external[(w.workers[id].app, s) := StoredRow(r)] && w'.sent == w.sent
  {
    assert Step(CFG, w, Work(id, InsertChecked(s))) == Processing.InsertChecked(CFG, w, id, s);
  }

  function FetchScript(id: int, s: Source, call: ResultValue): seq<Action> {
    [Work(id, LoadExternal(s)), Work(id, WorkAction.Answer(s, call)), Work(id, CheckExternal(s)),
     Work(id, InsertChecked(s))]
  }

  /** A provider call, its answer post-processed and stored. */
  lemma FetchReaches(w: World, id: int, s: Source, call: ResultValue, r: ResultValue) returns (w': World)
    requires Processing.Fetching(w, id) && SlotOf(w.workers[id], s).Loading?
    requires (w.workers[id].app, s) !in w.tables.external
    requires CallShape(call) && AfterCall(EXACT, s, call, w.clock) == Ok(r)
    ensures w' == Steps(CFG, w, FetchScript(id, s, call))
    ensures w'.workers == w.workers[id := WithSlot(w.workers[id], s, Have(r))]
    ensures w'.tables.apps == w.tables.apps && w'.clock == w.clock && w'.sent == w.sent
    ensures w'.tables.external == w.tables.external[(w.workers[id].app, s) := StoredRow(r)]
  {
    var script := FetchScript(id, s, call);
    FourSteps(CFG, w, script[0], script[1], script[2], script[3]);
    LoadFindsNothing(w, id, s);
    Filled(w, id, s, Calling, Checking(r));
    AnswerComes(Fill(w, id, s, Calling), id, s, call, r);
    Filled(w, id, s, Checking(r), Unstored(r));
    CheckFindsNothing(Fill(w, id, s, Checking(r)), id, s, r);
    Filled(w, id, s, Unstored(r), Have(r));
    InsertStores(Fill(w, id, s, Unstored(r)), id, s, r);
    w' := Step(CFG, Fill(w, id, s, Unstored(r)), script[3]);
  }

  lemma AnswersStand(now: int)
    ensures AfterCall(EXACT, CREDIT_BUREAU, Success(SCORE), now) == Ok(Success(SCORE))
    ensures AfterCall(EXACT, BANK_ANALYZER, Success(STABILITY), now) == Ok(Success(STABILITY))
    ensures AfterCall(EXACT, GST_VERIFIER, Success(COMPLIANT), now) == Ok(Success(COMPLIANT))
    ensures AfterCall(EXACT, GST_VERIFIER, Success(DISHONEST), now) == Ok(MISMATCH)
  {
    assert "last_updated" !in SCORE && "income_stability" in STABILITY && "match" !in COMPLIANT && "match" in DISHONEST;
  }

  lemma Advance(actions: seq<Action>, script: seq<Action>, w: World, w': World)
    requires Run(CFG, actions) == w && w' == Steps(CFG, w, script)
    ensures Run(CFG, actions + script) == w'
  {
    StepsExtendRun(CFG, actions, script);
  }

  lemma {:induction false} RunAppend(actions: seq<Action>, a: Action)
    ensures Run(CFG, actions + [a]) == Step(CFG, Run(CFG, actions), a)
  {
    assert (actions + [a])[..|actions|] == actions;
  }

  function Ready(wk: Worker, credit: ResultValue, bank: ResultValue, gst: ResultValue): Worker {
    wk.(credit := Have(credit), bank := Have(bank), gst := Have(gst))
  }

  lemma ReadyIsReady(wk: Worker, credit: ResultValue, bank: ResultValue, gst: ResultValue)
    requires Fetcher(wk)
    ensures var ready := Ready(wk, credit, bank, gst);
            && Processing.ReadyToDecide(ready) && ready.app == APP && ready.user == APPLICANT
            && ready.credit.result == credit && ready.bank.result == bank && ready.gst.result == gst
  {
    assert "monthly_income" in APPLICANT;
  }

  predicate Fetcher(wk: Worker) {
    wk.app == APP && wk.stage.Gathering? && wk.claim.Some? && wk.user == APPLICANT
    && wk.credit.Loading? && wk.bank.Loading? && wk.gst.Loading?
  }

  lemma FetchAdvances(before: seq<Action>, id: int, s: Source, call: ResultValue, r: ResultValue)
    requires var w := Run(CFG, before);
             && Processing.Fetching(w, id) && SlotOf(w.workers[id], s).Loading? && w.workers[id].app == APP
             && (APP, s) !in w.tables.external && CallShape(call) && AfterCall(EXACT, s, call, w.clock) == Ok(r)
    ensures var w, w' := Run(CFG, before), Run(CFG, before + FetchScript(id, s, call));
            && w'.workers == w.workers[id := WithSlot(w.workers[id], s, Have(r))]
            && w'.tables.apps == w.tables.apps && w'.clock == w.clock && w'.sent == w.sent
            && w'.tables.external == w.tables.external[(APP, s) := StoredRow(r)]
  {
    var w := Run(CFG, before);
    var w' := FetchReaches(w, id, s, call, r);
    Advance(before, FetchScript(id, s, call), w, w');
  }

  function TwoRows(): map<(AppId, Source), Row> {
    map[][(APP, CREDIT_BUREAU) := StoredRow(Success(SCORE))][(APP, BANK_ANALYZER) := StoredRow(Success(STABILITY))]
  }

  function Rows(gst: ResultValue): map<(AppId, Source), Row> {
    TwoRows()[(APP, GST_VERIFIER) := StoredRow(gst)]
  }

  function Fetches(id: int, call: ResultValue): seq<Action> {
    FetchScript(id, CREDIT_BUREAU, Success(SCORE)) + FetchScript(id, BANK_ANALYZER, Success(STABILITY))
    + FetchScript(id, GST_VERIFIER, call)
  }

  /** The first two calls. */
  lemma ScoreAndStabilityReach(before: seq<Action>, id: int, wk: Worker)
    requires var w := Run(CFG, before);
             w.tables.external == map[] && id in w.workers && w.workers[id] == wk && Fetcher(wk)
    ensures var score := FetchScript(id, CREDIT_BUREAU, Success(SCORE));
            var steady := FetchScript(id, BANK_ANALYZER, Success(STABILITY));
            var w, w' := Run(CFG, before), Run(CFG, before + score + steady);
            && w'.workers == w.workers[id := wk.(credit := Have(Success(SCORE)), bank := Have(Success(STABILITY)))]
            && w'.tables.apps == w.tables.apps && w'.sent == w.sent && w'.clock == w.clock
            && w'.tables.external == TwoRows()
  {
    AnswersStand(Run(CFG, before).clock);
    FetchAdvances(before, id, CREDIT_BUREAU, Success(SCORE), Success(SCORE));
    var scored := before + FetchScript(id, CREDIT_BUREAU, Success(SCORE));
    FetchAdvances(scored, id, BANK_ANALYZER, Success(STABILITY), Success(STABILITY));
    var workers := Run(CFG, before).workers;
    PutTwice(workers, id, wk.(credit := Have(Success(SCORE))),
             wk.(credit := Have(Success(SCORE)), bank := Have(Success(STABILITY))));
  }

  lemma PutTwice(workers: map<int, Worker>, id: int, first: Worker, second: Worker)
    ensures workers[id := first][id := second] == workers[id := second]
  {
  }

  /** Worker `id` makes all three calls; only the GST answer differs between the runs. */
  lemma FetchesReach(before: seq<Action>, id: int, wk: Worker, call: ResultValue, r: ResultValue)
    requires var w := Run(CFG, before);
             && w.tables.external == map[] && id in w.workers && w.workers[id] == wk && Fetcher(wk)
             && CallShape(call) && AfterCall(EXACT, GST_VERIFIER, call, w.clock) == Ok(r)
    ensures var w, w' := Run(CFG, before), Run(CFG, before + Fetches(id, call));
            && w'.workers == w.workers[id := Ready(wk, Success(SCORE), Success(STABILITY), r)]
            && w'.tables.apps == w.tables.apps && w'.sent == w.sent && w'.tables.external == Rows(r)
  {
    ScoreAndStabilityReach(before, id, wk);
    var score := FetchScript(id, CREDIT_BUREAU, Success(SCORE));
    var steady := FetchScript(id, BANK_ANALYZER, Success(STABILITY));
    ComplianceReaches(before + score + steady, id, wk, call, r);
    var first := wk.(credit := Have(Success(SCORE)), bank := Have(Success(STABILITY)));
    PutTwice(Run(CFG, before).workers, id, first, Ready(wk, Success(SCORE), Success(STABILITY), r));
    assert before + score + steady + FetchScript(id, GST_VERIFIER, call) == before + Fetches(id, call);
  }

  /** The third call. */
  lemma ComplianceReaches(before: seq<Action>, id: int, wk: Worker, call: ResultValue, r: ResultValue)
    requires var w := Run(CFG, before);
             && w.tables.external == TwoRows() && id in w.workers && Fetcher(wk)
             && w.workers[id] == wk.(credit := Have(Success(SCORE)), bank := Have(Success(STABILITY)))
             && CallShape(call) && AfterCall(EXACT, GST_VERIFIER, call, w.clock) == Ok(r)
    ensures var w, w' := Run(CFG, before), Run(CFG, before + FetchScript(id, GST_VERIFIER, call));
            && w'.workers == w.workers[id := Ready(wk, Success(SCORE), Success(STABILITY), r)]
            && w'.tables.apps == w.tables.apps && w'.sent == w.sent && w'.tables.external == Rows(r)
  {
    FetchAdvances(before, id, GST_VERIFIER, call, r);
  }

  predicate NoTick(script: seq<Action>) {
    forall a | a in script :: !a.Tick?
  }

  lemma NoTickAppend(a: seq<Action>, b: seq<Action>)
    requires NoTick(a) && NoTick(b)
    ensures NoTick(a + b)
  {
  }

  lemma FetchesTakeNoTime(id: int, call: ResultValue)
    ensures NoTick(Fetches(id, call))
  {
    NoTickAppend(FetchScript(id, CREDIT_BUREAU, Success(SCORE)), FetchScript(id, BANK_ANALYZER, Success(STABILITY)));
    NoTickAppend(FetchScript(id, CREDIT_BUREAU, Success(SCORE)) + FetchScript(id, BANK_ANALYZER, Success(STABILITY)),
                 FetchScript(id, GST_VERIFIER, call));
  }

  lemma ApplicantFeatures()
    ensures DebtToIncome(EXACT, Tx.DecisionUserData(APPLICANT)) == Ok(0.0)
  {
    var user := Tx.DecisionUserData(APPLICANT);
    assert APPLICANT["monthly_income"] == Num(100.0) && APPLICANT["existing_emis"] == Num(0.0);
    assert user["monthly_income"] == Num(100.0) && user["existing_emis"] == Num(0.0);
  }

  lemma CleanApplicantIsApproved()
    ensures var out := ComputeDecision(EXACT, Success(SCORE), Success(STABILITY), Success(COMPLIANT),
                                       Tx.DecisionUserData(APPLICANT), 0.6, RULE_SET_V1);
            out.Ok? && out.value.decision == APPROVE
  {
    var user := Tx.DecisionUserData(APPLICANT);
    ApplicantFeatures();
    assert "credit_score" in SCORE && "income_stability" in STABILITY && "gst_compliant" in COMPLIANT;
    var f := Features(Some(900), Some(1.0), 0.0, Some(true), [], false);
    assert CollectFailureTypes(Success(SCORE), Success(STABILITY), Success(COMPLIANT)) == [];
    assert ToInt(EXACT, SCORE["credit_score"]) == Ok(900);
    assert ExtractFeatures(EXACT, Success(SCORE), Success(STABILITY), Success(COMPLIANT), user) == Ok(f);
    assert RiskScoreOf(EXACT, f, RULE_SET_V1) == 100.0;
    assert Reliability(EXACT, [], false) == 1.0;
  }

  lemma RunAppendTwo(actions: seq<Action>, a: Action, b: Action)
    ensures Run(CFG, actions + [a, b]) == Step(CFG, Step(CFG, Run(CFG, actions), a), b)
  {
    RunAppend(actions, a);
    RunAppend(actions + [a], b);
    assert actions + [a, b] == actions + [a] + [b];
  }

  lemma DecisionIsHeld(w: World, id: int, out: DecisionOutput)
    requires id in w.workers && Processing.ReadyToDecide(w.workers[id])
    requires var wk := w.workers[id];
             ComputeDecision(EXACT, wk.credit.result, wk.bank.result, wk.gst.result, Tx.DecisionUserData(wk.user), 0.6,
                             RULE_SET_V1) == Ok(out)
    ensures Step(CFG, w, Work(id, DecideApplication)) == Processing.Put(w, id, w.workers[id].(stage := Decided(out)))
  {
    assert Step(CFG, w, Work(id, DecideApplication)) == Processing.DecideApplication(CFG, w, id);
  }

  // ----- COMPLETED becomes MANUAL_REVIEW -----

  predicate Approved(w: World) {
    && w.tables.apps.Keys == {APP}
    && w.tables.apps[APP].status == COMPLETED && w.tables.apps[APP].decision == Some(APPROVE)
  }

  predicate InReview(w: World) {
    && w.tables.apps.Keys == {APP}
    && w.tables.apps[APP].status == MANUAL_REVIEW && w.tables.apps[APP].decision == Some(NEEDS_REVIEW)
  }

  lemma ApprovalIsStored(w: World, id: int, out: DecisionOutput)
    requires id in w.workers && w.workers[id].stage == Decided(out) && w.workers[id].app == APP
    requires out.decision == APPROVE
    requires w.tables.apps.Keys == {APP} && !Terminal(w.tables.apps[APP].status)
    ensures var w' := Step(CFG, w, Work(id, StoreResults));
            Approved(w') && w'.workers == w.workers - {id} && w'.sent == w.sent
  {
    assert Step(CFG, w, Work(id, StoreResults)) == Processing.StoreResults(CFG, w, id);
  }

  lemma PutThenLeave(workers: map<int, Worker>, id: int, wk: Worker)
    ensures workers[id := wk] - {id} == workers - {id}
  {
  }

  lemma CleanDecision(w: World, id: int, wk: Worker) returns (out: DecisionOutput)
    requires id in w.workers && Fetcher(wk)
    requires w.workers[id] == Ready(wk, Success(SCORE), Success(STABILITY), Success(COMPLIANT))
    ensures out.decision == APPROVE
    ensures Step(CFG, w, Work(id, DecideApplication)) == Processing.Put(w, id, w.workers[id].(stage := Decided(out)))
  {
    CleanApplicantIsApproved();
    ReadyIsReady(wk, Success(SCORE), Success(STABILITY), Success(COMPLIANT));
    out := ComputeDecision(EXACT, Success(SCORE), Success(STABILITY), Success(COMPLIANT),
                           Tx.DecisionUserData(APPLICANT), 0.6, RULE_SET_V1).value;
    DecisionIsHeld(w, id, out);
  }

  /** A worker holding clean results decides and stores. */
  lemma ApprovalSteps(w: World, id: int, wk: Worker)
    requires id in w.workers && Fetcher(wk)
    requires w.workers[id] == Ready(wk, Success(SCORE), Success(STABILITY), Success(COMPLIANT))
    requires w.tables.apps.Keys == {APP} && !Terminal(w.tables.apps[APP].status)
    ensures var w' := Step(CFG, Step(CFG, w, Work(id, DecideApplication)), Work(id, StoreResults));
            Approved(w') && w'.workers == w.workers - {id} && w'.sent == w.sent
  {
    var out := CleanDecision(w, id, wk);
    var decided := w.workers[id].(stage := Decided(out));
    ApprovalIsStored(Processing.Put(w, id, decided), id, out);
    PutThenLeave(w.workers, id, decided);
  }

  lemma ApprovalReaches(before: seq<Action>, id: int, wk: Worker) returns (actions: seq<Action>)
    requires var w := Run(CFG, before);
             && id in w.workers && Fetcher(wk)
             && w.workers[id] == Ready(wk, Success(SCORE), Success(STABILITY), Success(COMPLIANT))
             && w.tables.apps.Keys == {APP} && !Terminal(w.tables.apps[APP].status)
    ensures actions == before + [Work(id, DecideApplication), Work(id, StoreResults)]
    ensures var w, w' := Run(CFG, before), Run(CFG, actions);
            Approved(w') && w'.workers == w.workers - {id} && w'.sent == w.sent
  {
    ApprovalSteps(Run(CFG, before), id, wk);
    RunAppendTwo(before, Work(id, DecideApplication), Work(id, StoreResults));
    actions := before + [Work(id, DecideApplication), Work(id, StoreResults)];
  }

  /** A worker fails, whether or not it ever claimed, and marks the error. */
  lemma FailureSteps(w: World, id: int, kind: ErrorKind)
    requires Approved(w) && id in w.workers && w.workers[id].app == APP && !w.workers[id].stage.Failed?
    ensures InReview(Step(CFG, Step(CFG, w, Work(id, WorkAction.Abort(kind))), Work(id, MarkError)))
  {
    var failed := Processing.Put(w, id, w.workers[id].(stage := Failed(kind)));
    assert Step(CFG, w, Work(id, WorkAction.Abort(kind))) == failed;
    assert Step(CFG, failed, Work(id, MarkError)) == Processing.MarkError(CFG, failed, id);
  }

  lemma FailureMarks(before: seq<Action>, id: int, kind: ErrorKind)
    requires var w := Run(CFG, before);
             Approved(w) && id in w.workers && w.workers[id].app == APP && !w.workers[id].stage.Failed?
    ensures InReview(Run(CFG, before + [Work(id, WorkAction.Abort(kind)), Work(id, MarkError)]))
  {
    FailureSteps(Run(CFG, before), id, kind);
    RunAppendTwo(before, Work(id, WorkAction.Abort(kind)), Work(id, MarkError));
  }

  /** The task is delivered, worker 1 claims, and the lock times out before worker 2 claims again. */
  lemma TwoClaim() returns (actions: seq<Action>)
    ensures var w := Run(CFG, actions);
            && w.workers == map[1 := CLAIMANT, 2 := CLAIMANT.(claim := Some(1))] && w.tables.external == map[]
            && w.tables.apps == map[APP := Application("key", Some(APPLICANT), PROCESSING, None, None, 301)]
  {
    var w1 := IntakeHolds();
    Advance([], INTAKE, EMPTY, w1);
    var w2 := DeliveryReaches(w1);
    Advance([] + INTAKE, DELIVERY, w1, w2);
    var w3 := ClaimsReach(w2);
    Advance([] + INTAKE + DELIVERY, CLAIMS, w2, w3);
    actions := [] + INTAKE + DELIVERY + CLAIMS;
  }

  /** From the claim of worker `id` to its approval. */
  lemma ClaimantApproves(claimed: seq<Action>, id: int, wk: Worker) returns (actions: seq<Action>)
    requires var w := Run(CFG, claimed);
             && w.tables.external == map[] && id in w.workers && w.workers[id] == wk && Fetcher(wk)
             && w.tables.apps.Keys == {APP} && !Terminal(w.tables.apps[APP].status)
    ensures actions == claimed + Fetches(id, Success(COMPLIANT)) + [Work(id, DecideApplication), Work(id, StoreResults)]
    ensures var w, w' := Run(CFG, claimed), Run(CFG, actions);
            Approved(w') && w'.workers == w.workers - {id} && w'.sent == w.sent
  {
    AnswersStand(Run(CFG, claimed).clock);
    FetchesReach(claimed, id, wk, Success(COMPLIANT), Success(COMPLIANT));
    actions := ApprovalReaches(claimed + Fetches(id, Success(COMPLIANT)), id, wk);
    var workers := Run(CFG, claimed).workers;
    PutThenLeave(workers, id, Ready(wk, Success(SCORE), Success(STABILITY), Success(COMPLIANT)));
  }

  /** The worker that lost its claim times out after the other one's approval. */
  lemma {:induction false} CompletedCanBecomeManualReview() returns (actions: seq<Action>, more: seq<Action>)
    ensures Approved(Run(CFG, actions)) && InReview(Run(CFG, actions + more))
  {
    var claimed := TwoClaim();
    actions := ClaimantApproves(claimed, 2, CLAIMANT.(claim := Some(1)));
    more := [Work(1, WorkAction.Abort(PIPELINE_TIMEOUT)), Work(1, MarkError)];
    FailureMarks(actions, 1, PIPELINE_TIMEOUT);
  }

  // ----- the same under the default timeouts -----

  lemma {:induction false} NoTimePasses(actions: seq<Action>)
    requires NoTick(actions)
    ensures var w := Run(CFG, actions); w.clock == 0 && forall i | 0 <= i < |w.claims| :: w.claims[i].at == 0
  {
    if actions != [] {
      var before, a := actions[..|actions| - 1], actions[|actions| - 1];
      NoTimePasses(before);
      assert a in actions;
      ClaimsCarryTheClock(Run(CFG, before), a);
    }
  }

  /** A step other than a tick leaves the clock alone, and a new claim carries its time. */
  lemma ClaimsCarryTheClock(w: World, a: Action)
    requires !a.Tick?
    ensures var w' := Step(CFG, w, a);
            && w'.clock == w.clock && |w.claims| <= |w'.claims|
            && (forall i | 0 <= i < |w.claims| :: w'.claims[i] == w.claims[i])
            && (forall i | |w.claims| <= i < |w'.claims| :: w'.claims[i].at == w.clock)
  {
    match a
    case Api(intake) => IntakeFrame(CFG, w, intake);
    case Poll(poll) => PollFrame(w, poll);
    case Work(id, work) =>
      WorkFrame(CFG, w, id, work);
      if !work.ClaimApplication? { QuietSteps(CFG, w, id, work); }
  }

  lemma OnTimeThroughout(actions: seq<Action>, deadline: nat)
    requires NoTick(actions)
    ensures forall n | 0 <= n <= |actions| :: OnTime(Run(CFG, actions[..n]), deadline)
  {
    forall n | 0 <= n <= |actions| ensures OnTime(Run(CFG, actions[..n]), deadline) { NoTimePasses(actions[..n]); }
  }

  lemma OneClaims() returns (actions: seq<Action>)
    ensures NoTick(actions)
    ensures var w := Run(CFG, actions);
            && w.workers == map[1 := CLAIMANT] && w.tables.external == map[] && w.sent == [APP]
            && w.tables.apps == map[APP := Application("key", Some(APPLICANT), PROCESSING, None, None, 0)]
  {
    var before, w := OneDelivered();
    ClaimIsGranted(w, 1);
    RunAppend(before, Work(1, ClaimApplication));
    actions := before + [Work(1, ClaimApplication)];
    NoTickAppend(before, [Work(1, ClaimApplication)]);
  }

  lemma OneDelivered() returns (actions: seq<Action>, w: World)
    ensures NoTick(actions) && w == Run(CFG, actions)
    ensures w.tables.apps == QUEUED_APPS && w.tables.external == map[] && w.clock == 0 && w.sent == [APP]
            && w.claims == []
    ensures w.workers == map[1 := Worker(APP, Delivered, None, map[], Loading, Loading, Loading)]
  {
    var w1 := IntakeHolds();
    Advance([], INTAKE, EMPTY, w1);
    w := DeliveryReaches(w1);
    Advance([] + INTAKE, DELIVERY, w1, w);
    actions := [] + INTAKE + DELIVERY;
  }

  lemma ApprovedInTime() returns (actions: seq<Action>)
    ensures NoTick(actions)
    ensures var w := Run(CFG, actions); Approved(w) && w.sent == [APP] && w.workers == map[]
  {
    var claimed := OneClaims();
    actions := ClaimantApproves(claimed, 1, CLAIMANT);
    ApprovalTakesNoTime(claimed);
  }

  lemma ApprovalTakesNoTime(claimed: seq<Action>)
    requires NoTick(claimed)
    ensures NoTick(claimed + Fetches(1, Success(COMPLIANT)) + [Work(1, DecideApplication), Work(1, StoreResults)])
  {
    FetchesTakeNoTime(1, Success(COMPLIANT));
    NoTickAppend(claimed, Fetches(1, Success(COMPLIANT)));
    NoTickAppend(claimed + Fetches(1, Success(COMPLIANT)), [Work(1, DecideApplication), Work(1, StoreResults)]);
  }

  const REDELIVERY := [Work(2, WorkAction.Deliver(APP)), Work(2, WorkAction.Abort(SYSTEM_ERROR)), Work(2, MarkError)]

  lemma RedeliveredFails(before: seq<Action>)
    requires var w := Run(CFG, before); Approved(w) && APP in w.sent && w.workers == map[]
    ensures InReview(Run(CFG, before + REDELIVERY))
  {
    RunAppend(before, REDELIVERY[0]);
    FailureMarks(before + [REDELIVERY[0]], 2, SYSTEM_ERROR);
    assert before + REDELIVERY == before + [REDELIVERY[0]] + [REDELIVERY[1], REDELIVERY[2]];
  }

  /**
   The only claimant is on time under the default task timeout of 60 s, and the lock is never stale: a redelivered
   worker that fails before it claims still overturns the approval.
   */
  lemma {:induction false} RedeliveryOverturnsApproval() returns (actions: seq<Action>, more: seq<Action>)
    ensures Approved(Run(CFG, actions)) && InReview(Run(CFG, actions + more))
    ensures 60 <= CFG.lockTimeout
    ensures forall n | 0 <= n <= |actions + more| :: OnTime(Run(CFG, (actions + more)[..n]), 60)
  {
    actions := ApprovedInTime();
    more := REDELIVERY;
    RedeliveredFails(actions);
    OnTimeThroughout(actions + more, 60);
  }

  // ----- a dishonest payload splits two workers -----

  lemma ExactRounds()
    ensures RoundsToHundredths(EXACT)
  {
  }

  const MISMATCHED := Features(Some(900), Some(1.0), 0.0, Some(false), [PAN_MISMATCH], false)

  /** With the PAN mismatch on record compliance decides between review and approval. */
  lemma ComplianceTips(compliant: bool)
    ensures Decide(EXACT, MISMATCHED.(gst := Some(compliant)), 0.6, RULE_SET_V1).decision
            == if compliant then APPROVE else NEEDS_REVIEW
  {
    var f := MISMATCHED.(gst := Some(compliant));
    ExactRounds();
    assert RiskScoreOf(EXACT, f, RULE_SET_V1) == if compliant then 95.0 else 80.0;
    assert Lost(f) == 2 by { assert [PAN_MISMATCH][..0] == []; }
    DegradedDataTable(EXACT, f);
  }

  lemma MismatchedFeatures(gst: ResultValue, compliant: bool)
    requires gst.failure == Some(PAN_MISMATCH) && ExtractGstCompliance(gst) == Some(compliant)
    ensures ExtractFeatures(EXACT, Success(SCORE), Success(STABILITY), gst, Tx.DecisionUserData(APPLICANT))
            == Ok(MISMATCHED.(gst := Some(compliant)))
  {
    ApplicantFeatures();
    assert "credit_score" in SCORE && "income_stability" in STABILITY;
    assert ToInt(EXACT, SCORE["credit_score"]) == Ok(900);
    assert CollectFailureTypes(Success(SCORE), Success(STABILITY), gst) == [PAN_MISMATCH];
  }

  lemma FetcherReviews()
    ensures var out := ComputeDecision(EXACT, Success(SCORE), Success(STABILITY), MISMATCH,
                                       Tx.DecisionUserData(APPLICANT), 0.6, RULE_SET_V1);
            out.Ok? && out.value.decision == NEEDS_REVIEW
  {
    assert "gst_compliant" in NOT_COMPLIANT;
    MismatchedFeatures(MISMATCH, false);
    ComplianceTips(false);
  }

  function Reread(r: ResultValue): ResultValue {
    Rebuilt(StoredRow(r))
  }

  lemma RowsRead()
    ensures Reread(Success(SCORE)) == Success(SCORE) && Reread(Success(STABILITY)) == Success(STABILITY)
    ensures Reread(MISMATCH) == MISMATCH.(data := Some(DISHONEST))
  {
    KeepsDict(SCORE);
    KeepsDict(STABILITY);
    KeepsDict(DISHONEST);
  }

  /** Nothing in these payloads is personal. */
  lemma KeepsDict(d: Dict)
    requires d == SCORE || d == STABILITY || d == DISHONEST
    ensures Redact(Some(d)) == d && d != map[] && "request_id" !in d
  {
    assert "credit_score" in SCORE && "income_stability" in STABILITY && "match" in DISHONEST;
    forall k | k in d ensures Redact(Some(d))[k] == d[k] {
      assert !IsPii(k) && Redact(Some(d))[k] == RedactField(k, d[k]);
    }
  }

  lemma RereaderApproves()
    ensures var out := ComputeDecision(EXACT, Reread(Success(SCORE)), Reread(Success(STABILITY)), Reread(MISMATCH),
                                       Tx.DecisionUserData(APPLICANT), 0.6, RULE_SET_V1);
            out.Ok? && out.value.decision == APPROVE
  {
    RowsRead();
    assert "gst_compliant" in DISHONEST;
    MismatchedFeatures(MISMATCH.(data := Some(DISHONEST)), true);
    ComplianceTips(true);
  }

  /** Worker `id` reads all three rows back. */
  lemma RereadSteps(w: World, id: int, wk: Worker, r: ResultValue) returns (w': World)
    requires id in w.workers && w.workers[id] == wk && Fetcher(wk) && w.tables.external == Rows(r)
    ensures w' == Step(CFG, Step(CFG, Step(CFG, w, Work(id, LoadExternal(CREDIT_BUREAU))),
                                 Work(id, LoadExternal(BANK_ANALYZER))), Work(id, LoadExternal(GST_VERIFIER)))
    ensures w' == Processing.Put(w, id, Ready(wk, Reread(Success(SCORE)), Reread(Success(STABILITY)), Reread(r)))
  {
    var first := wk.(credit := Have(Reread(Success(SCORE))));
    var second := first.(bank := Have(Reread(Success(STABILITY))));
    LoadFindsRow(w, id, CREDIT_BUREAU, StoredRow(Success(SCORE)));
    var w1 := Processing.Put(w, id, first);
    LoadFindsRow(w1, id, BANK_ANALYZER, StoredRow(Success(STABILITY)));
    PutTwice(w.workers, id, first, second);
    var w2 := Processing.Put(w, id, second);
    LoadFindsRow(w2, id, GST_VERIFIER, StoredRow(r));
    PutTwice(w.workers, id, second, second.(gst := Have(Reread(r))));
    w' := Processing.Put(w, id, second.(gst := Have(Reread(r))));
  }

  lemma RereaderDecides(w: World, wk: Worker) returns (out: DecisionOutput)
    requires 1 in w.workers && Fetcher(wk)
    requires w.workers[1] == Ready(wk, Reread(Success(SCORE)), Reread(Success(STABILITY)), Reread(MISMATCH))
    ensures out.decision == APPROVE
    ensures Step(CFG, w, Work(1, DecideApplication)) == Processing.Put(w, 1, w.workers[1].(stage := Decided(out)))
  {
    RereaderApproves();
    ReadyIsReady(wk, Reread(Success(SCORE)), Reread(Success(STABILITY)), Reread(MISMATCH));
    out := ComputeDecision(EXACT, Reread(Success(SCORE)), Reread(Success(STABILITY)), Reread(MISMATCH),
                           Tx.DecisionUserData(APPLICANT), 0.6, RULE_SET_V1).value;
    DecisionIsHeld(w, 1, out);
  }

  lemma FetcherDecides(w: World, wk: Worker) returns (out: DecisionOutput)
    requires 2 in w.workers && Fetcher(wk)
    requires w.workers[2] == Ready(wk, Success(SCORE), Success(STABILITY), MISMATCH)
    ensures out.decision == NEEDS_REVIEW
    ensures Step(CFG, w, Work(2, DecideApplication)) == Processing.Put(w, 2, w.workers[2].(stage := Decided(out)))
  {
    FetcherReviews();
    ReadyIsReady(wk, Success(SCORE), Success(STABILITY), MISMATCH);
    out := ComputeDecision(EXACT, Success(SCORE), Success(STABILITY), MISMATCH, Tx.DecisionUserData(APPLICANT), 0.6,
                           RULE_SET_V1).value;
    DecisionIsHeld(w, 2, out);
  }

  predicate ReviewHeld(w: World) {
    && w.tables.external == Rows(MISMATCH) && 1 in w.workers && 2 in w.workers && w.workers[1] == CLAIMANT
    && w.workers[2].app == APP && w.workers[2].stage.Decided? && w.workers[2].stage.out.decision == NEEDS_REVIEW
  }

  lemma FetcherHoldsReview() returns (actions: seq<Action>)
    ensures ReviewHeld(Run(CFG, actions))
  {
    var claimed := TwoClaim();
    var reclaimer := CLAIMANT.(claim := Some(1));
    AnswersStand(Run(CFG, claimed).clock);
    FetchesReach(claimed, 2, reclaimer, Success(DISHONEST), MISMATCH);
    var fetched := claimed + Fetches(2, Success(DISHONEST));
    var out := FetcherDecides(Run(CFG, fetched), reclaimer);
    RunAppend(fetched, Work(2, DecideApplication));
    actions := fetched + [Work(2, DecideApplication)];
  }

  predicate Split(w: World) {
    && 1 in w.workers && 2 in w.workers && w.workers[1].app == w.workers[2].app
    && w.workers[1].stage.Decided? && w.workers[1].stage.out.decision == APPROVE
    && w.workers[2].stage.Decided? && w.workers[2].stage.out.decision == NEEDS_REVIEW
  }

  const REREAD := [Work(1, LoadExternal(CREDIT_BUREAU)), Work(1, LoadExternal(BANK_ANALYZER)),
                   Work(1, LoadExternal(GST_VERIFIER)), Work(1, DecideApplication)]

  lemma RereaderSplits(w: World)
    requires ReviewHeld(w)
    ensures Split(Steps(CFG, w, REREAD))
  {
    FourSteps(CFG, w, REREAD[0], REREAD[1], REREAD[2], REREAD[3]);
    var reread := RereadSteps(w, 1, CLAIMANT, MISMATCH);
    var out := RereaderDecides(reread, CLAIMANT);
  }

  /**
   Without honest payloads agreement fails: two workers hold different decisions of one application at the same moment,
   the one that fetched NEEDS_REVIEW and the one that read the rows back APPROVE.
   */
  lemma {:induction false} DishonestPayloadSplitsWorkers() returns (actions: seq<Action>)
    ensures Split(Run(CFG, actions))
  {
    var held := FetcherHoldsReview();
    RereaderSplits(Run(CFG, held));
    StepsExtendRun(CFG, held, REREAD);
    actions := held + REREAD;
  }
}
