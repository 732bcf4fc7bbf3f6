/** The processing lock is a timeout: what holds when workers keep to it. */
module TimingTheorems {
  import opened Common
  import opened Frames
  import opened Machine
  import opened Providers
  import opened Schema
  import opened ServiceResults
  import opened State
  import AuditTheorems
  import IntakeTheorems
  import Tx = Worker
  import Processing

  // ----- the invariant -----

  /** Any two claims of one application are more than the lock timeout apart. */
  ghost predicate ClaimsApart(claims: seq<Claim>, lockTimeout: int) {
    forall i, j | 0 <= i < j < |claims| && claims[i].app == claims[j].app :: claims[j].at > claims[i].at + lockTimeout
  }

  ghost predicate ClaimsFit(claims: seq<Claim>, apps: map<AppId, Application>, now: int) {
    forall i | 0 <= i < |claims| ::
      && claims[i].at <= now && claims[i].app in apps
      && apps[claims[i].app].status != PENDING
      && (apps[claims[i].app].status == PROCESSING ==> claims[i].at <= apps[claims[i].app].updatedAt)
  }

  ghost predicate ClaimantsOk(workers: map<int, Worker>, claims: seq<Claim>) {
    && (forall id | id in workers && workers[id].claim.Some? ::
          workers[id].claim.value < |claims| && claims[workers[id].claim.value].app == workers[id].app)
    && forall x, y | x in workers && y in workers && x != y && workers[x].claim.Some? && workers[y].claim.Some? ::
         workers[x].claim.value != workers[y].claim.value
  }

  ghost predicate ClaimInv(cfg: Settings, w: World) {
    && ClaimsApart(w.claims, cfg.lockTimeout)
    && ClaimsFit(w.claims, w.tables.apps, w.clock)
    && ClaimantsOk(w.workers, w.claims)
  }

  lemma ClaimKeepsInv(cfg: Settings, w: World, id: int)
    requires ClaimInv(cfg, w) && id in w.workers && w.workers[id].stage.Delivered?
    requires w.workers[id].claim.None?
    ensures ClaimInv(cfg, Processing.ClaimApplication(cfg, w, id))
  {
    var w' := Processing.ClaimApplication(cfg, w, id);
    var (t', outcome) := Tx.ClaimApp(cfg.h, w.tables, w.workers[id].app, w.clock, cfg.lockTimeout);
    match outcome
    case Claimed(_) =>
      assert Tx.Claimable(w.tables.apps[w.workers[id].app], w.clock, cfg.lockTimeout);
      NewClaimFits(cfg, w.claims, w.tables.apps, t'.apps, w.workers[id].app, w.clock);
      NewClaimant(w.workers, w.claims, id, w'.workers[id], Claim(w.workers[id].app, w.clock));
    case NotClaimed(_) =>
    case _ => assert ClaimantsOk(w'.workers, w'.claims);
  }

  lemma NewClaimFits(cfg: Settings, claims: seq<Claim>, apps: map<AppId, Application>, apps': map<AppId, Application>,
                     app: AppId, now: int)
    requires ClaimsApart(claims, cfg.lockTimeout) && ClaimsFit(claims, apps, now)
    requires app in apps && Tx.Claimable(apps[app], now, cfg.lockTimeout)
    requires apps' == apps[app := apps[app].(status := PROCESSING, updatedAt := now)]
    ensures ClaimsApart(claims + [Claim(app, now)], cfg.lockTimeout)
    ensures ClaimsFit(claims + [Claim(app, now)], apps', now)
  {
  }

  lemma NewClaimant(workers: map<int, Worker>, claims: seq<Claim>, id: int, wk: Worker, claim: Claim)
    requires ClaimantsOk(workers, claims) && id in workers
    requires wk.claim == Some(|claims|) && wk.app == claim.app
    ensures ClaimantsOk(workers[id := wk], claims + [claim])
  {
  }

  /** Workers come and go or change stage, but take no claim. */
  lemma SameClaimants(workers: map<int, Worker>, workers': map<int, Worker>, claims: seq<Claim>)
    requires ClaimantsOk(workers, claims)
    requires forall x | x in workers' && workers'[x].claim.Some? ::
               x in workers && workers'[x].claim == workers[x].claim && workers'[x].app == workers[x].app
    ensures ClaimantsOk(workers', claims)
  {
  }

  /** Rows that become terminal or are new do not disturb the claims. */
  lemma AppsChange(claims: seq<Claim>, apps: map<AppId, Application>, apps': map<AppId, Application>, now: int,
                   now': int)
    requires ClaimsFit(claims, apps, now) && now <= now'
    requires forall app | app in apps :: app in apps' && (apps'[app] == apps[app] || Terminal(apps'[app].status))
    ensures ClaimsFit(claims, apps', now')
  {
  }

  ghost predicate NoClaimTaken(w: World, w': World) {
    && w'.claims == w.claims && w.clock <= w'.clock
    && (forall x | x in w'.workers && w'.workers[x].claim.Some? ::
          x in w.workers && w'.workers[x].claim == w.workers[x].claim && w'.workers[x].app == w.workers[x].app)
    && (forall app | app in w.tables.apps :: app in w'.tables.apps
          && (w'.tables.apps[app] == w.tables.apps[app] || Terminal(w'.tables.apps[app].status)))
  }

  /** Putting back a worker with the same claim takes none. */
  lemma QuietPut(w: World, id: int, wk: Worker)
    requires id in w.workers && wk.claim == w.workers[id].claim && wk.app == w.workers[id].app
    ensures NoClaimTaken(w, Processing.Put(w, id, wk))
  {
  }

  lemma QuietRead(w: World, id: int, s: Source)
    ensures NoClaimTaken(w, Processing.LoadExternal(w, id, s))
    ensures NoClaimTaken(w, Processing.CheckExternal(w, id, s))
  {
    if Processing.Fetching(w, id) {
      var wk := w.workers[id];
      QuietPut(w, id, Processing.LoadExternal(w, id, s).workers[id]);
      QuietPut(w, id, Processing.CheckExternal(w, id, s).workers[id]);
    }
  }

  lemma QuietAnswer(cfg: Settings, w: World, id: int, s: Source, call: ResultValue)
    ensures NoClaimTaken(w, Processing.Answer(cfg, w, id, s, call))
  {
    if Processing.Fetching(w, id) { QuietPut(w, id, Processing.Answer(cfg, w, id, s, call).workers[id]); }
  }

  lemma QuietInsert(cfg: Settings, w: World, id: int, s: Source)
    ensures NoClaimTaken(w, Processing.InsertChecked(cfg, w, id, s))
  {
  }

  lemma QuietDecision(cfg: Settings, w: World, id: int)
    ensures NoClaimTaken(w, Processing.DecideApplication(cfg, w, id))
  {
  }

  lemma QuietStore(cfg: Settings, w: World, id: int)
    ensures NoClaimTaken(w, Processing.StoreResults(cfg, w, id))
  {
  }

  lemma QuietMark(cfg: Settings, w: World, id: int)
    ensures NoClaimTaken(w, Processing.MarkError(cfg, w, id))
  {
  }

  lemma QuietSteps(cfg: Settings, w: World, id: int, a: WorkAction)
    requires !a.ClaimApplication?
    ensures NoClaimTaken(w, WorkStep(cfg, w, id, a))
  {
    match a
    case LoadExternal(s) => QuietRead(w, id, s);
    case CheckExternal(s) => QuietRead(w, id, s);
    case Answer(s, call) => QuietAnswer(cfg, w, id, s, call);
    case InsertChecked(s) => QuietInsert(cfg, w, id, s);
    case DecideApplication => QuietDecision(cfg, w, id);
    case StoreResults => QuietStore(cfg, w, id);
    case MarkError => QuietMark(cfg, w, id);
    case _ =>
  }

  lemma QuietKeepsInv(cfg: Settings, w: World, w': World)
    requires ClaimInv(cfg, w) && NoClaimTaken(w, w')
    ensures ClaimInv(cfg, w')
  {
    SameClaimants(w.workers, w'.workers, w.claims);
    AppsChange(w.claims, w.tables.apps, w'.tables.apps, w.clock, w'.clock);
  }

  lemma OthersTakeNoClaim(cfg: Settings, w: World, a: Action)
    requires !a.Work? && IntakeTheorems.IntakeInv(w)
    ensures NoClaimTaken(w, Step(cfg, w, a))
  {
    match a
    case Tick(_) =>
    case Poll(poll) => PollFrame(w, poll);
    case Api(intake) =>
      IntakeFrame(cfg, w, intake);
      if Step(cfg, w, a).tables != w.tables { assert IntakeTheorems.RequestOk(w, intake.r); }
  }

  lemma {:induction false} ClaimInvHolds(cfg: Settings, actions: seq<Action>)
    ensures ClaimInv(cfg, Run(cfg, actions))
  {
    if actions != [] {
      var before := actions[..|actions| - 1];
      ClaimInvHolds(cfg, before);
      IntakeTheorems.IntakeInvHolds(cfg, before);
      AuditTheorems.AuditInvHolds(cfg, before);
      DeliveredHasNoClaim(Run(cfg, before));
      ClaimInvKept(cfg, Run(cfg, before), actions[|actions| - 1]);
    }
  }

  ghost predicate DeliveredUnclaimed(w: World) {
    forall id | id in w.workers && w.workers[id].stage.Delivered? :: w.workers[id].claim.None?
  }

  lemma DeliveredHasNoClaim(w: World)
    requires AuditTheorems.AuditInv(w)
    ensures DeliveredUnclaimed(w)
  {
    forall id | id in w.workers && w.workers[id].stage.Delivered? ensures w.workers[id].claim.None? {
      assert AuditTheorems.WorkerOk(w.tables, w.workers[id]);
    }
  }

  lemma WorkKeepsClaims(cfg: Settings, w: World, id: int, a: WorkAction)
    requires ClaimInv(cfg, w) && DeliveredUnclaimed(w)
    ensures ClaimInv(cfg, WorkStep(cfg, w, id, a))
  {
    if a.ClaimApplication? {
      if id in w.workers && w.workers[id].stage.Delivered? { ClaimKeepsInv(cfg, w, id); }
    } else {
      QuietSteps(cfg, w, id, a);
      QuietKeepsInv(cfg, w, WorkStep(cfg, w, id, a));
    }
  }

  lemma ClaimInvKept(cfg: Settings, w: World, a: Action)
    requires ClaimInv(cfg, w) && DeliveredUnclaimed(w) && IntakeTheorems.IntakeInv(w)
    ensures ClaimInv(cfg, Step(cfg, w, a))
  {
    match a
    case Work(id, work) => WorkKeepsClaims(cfg, w, id, work);
    case _ =>
      OthersTakeNoClaim(cfg, w, a);
      QuietKeepsInv(cfg, w, Step(cfg, w, a));
  }

  // ----- the theorems -----

  /** The worker has claimed the application and has not left the pipeline. */
  predicate Inside(w: World, id: int, app: AppId) {
    id in w.workers && w.workers[id].claim.Some? && w.workers[id].app == app
  }

  /** Every claimant still inside claimed at most `deadline` ticks ago. */
  ghost predicate OnTime(w: World, deadline: int) {
    forall id | id in w.workers && w.workers[id].claim.Some? && w.workers[id].claim.value < |w.claims| ::
      w.clock - w.claims[w.workers[id].claim.value].at <= deadline
  }

  /** Successive claims of an application are more than the lock timeout apart. */
  lemma {:induction false} ClaimsAreSpaced(cfg: Settings, actions: seq<Action>, i: nat, j: nat)
    requires i < j < |Run(cfg, actions).claims| && Run(cfg, actions).claims[i].app == Run(cfg, actions).claims[j].app
    ensures Run(cfg, actions).claims[j].at > Run(cfg, actions).claims[i].at + cfg.lockTimeout
  {
    ClaimInvHolds(cfg, actions);
  }

  /** So if every claimant leaves within a deadline below the lock timeout, at most one is ever inside. */
  lemma {:induction false} MutualExclusion(cfg: Settings, actions: seq<Action>, deadline: int, x: int, y: int,
                                           app: AppId)
    requires deadline <= cfg.lockTimeout && OnTime(Run(cfg, actions), deadline)
    requires Inside(Run(cfg, actions), x, app) && Inside(Run(cfg, actions), y, app)
    ensures x == y
  {
    ClaimInvHolds(cfg, actions);
  }

  /** The error-marking of a failed worker that holds the application. */
  predicate Marks(w: World, a: Action, app: AppId) {
    a.Work? && a.work.MarkError? && a.id in w.workers && w.workers[a.id].stage.Failed? && w.workers[a.id].app == app
  }

  /** A step changes a COMPLETED row exactly when a failed worker that holds the application marks its error. */
  lemma {:induction false} CompletedChangesIffMarked(cfg: Settings, actions: seq<Action>, a: Action, app: AppId)
    requires app in Run(cfg, actions).tables.apps && Run(cfg, actions).tables.apps[app].status == COMPLETED
    ensures var w := Run(cfg, actions);
            var t := Step(cfg, w, a).tables;
            && app in t.apps
            && (t.apps[app] != w.tables.apps[app] <==> Marks(w, a, app))
            && (Marks(w, a, app) ==> t.apps[app].status == MANUAL_REVIEW)
  {
    IntakeTheorems.IntakeInvHolds(cfg, actions);
    match a
    case Work(id, work) => WorkOnCompleted(cfg, Run(cfg, actions), id, work, app);
    case _ => OthersKeepRows(cfg, Run(cfg, actions), a);
  }

  lemma WorkOnCompleted(cfg: Settings, w: World, id: int, a: WorkAction, app: AppId)
    requires app in w.tables.apps && w.tables.apps[app].status == COMPLETED
    ensures var t := WorkStep(cfg, w, id, a).tables;
            && app in t.apps
            && (t.apps[app] != w.tables.apps[app] <==> Marks(w, Work(id, a), app))
            && (Marks(w, Work(id, a), app) ==> t.apps[app].status == MANUAL_REVIEW)
  {
    match a
    case ClaimApplication => CompletedIsNotClaimed(cfg, w, id, app);
    case StoreResults => CompletedIsNotStored(cfg, w, id, app);
    case MarkError => CompletedIsMarked(cfg, w, id, app);
    case _ => RowsUntouched(cfg, w, id, a);
  }

  lemma CompletedIsNotStored(cfg: Settings, w: World, id: int, app: AppId)
    requires app in w.tables.apps && w.tables.apps[app].status == COMPLETED
    ensures var t := Processing.StoreResults(cfg, w, id).tables; app in t.apps && t.apps[app] == w.tables.apps[app]
  {
  }

  lemma CompletedIsMarked(cfg: Settings, w: World, id: int, app: AppId)
    requires app in w.tables.apps && w.tables.apps[app].status == COMPLETED
    ensures var t := Processing.MarkError(cfg, w, id).tables;
            && app in t.apps
            && (t.apps[app] != w.tables.apps[app] <==> Marks(w, Work(id, WorkAction.MarkError), app))
            && (Marks(w, Work(id, WorkAction.MarkError), app) ==> t.apps[app].status == MANUAL_REVIEW)
  {
  }

  lemma CompletedIsNotClaimed(cfg: Settings, w: World, id: int, app: AppId)
    requires app in w.tables.apps && w.tables.apps[app].status == COMPLETED
    ensures var t := Processing.ClaimApplication(cfg, w, id).tables; app in t.apps && t.apps[app] == w.tables.apps[app]
  {
  }

  /** All along the run claimants are on time, and only claimants mark errors. */
  ghost predicate Orderly(cfg: Settings, actions: seq<Action>, deadline: int) {
    && OnTime(Run(cfg, actions), deadline)
    && (actions != [] ==>
          var before, a := actions[..|actions| - 1], actions[|actions| - 1];
          && Orderly(cfg, before, deadline)
          && (a.Work? && a.work.MarkError? && a.id in Run(cfg, before).workers ==>
              Run(cfg, before).workers[a.id].claim.Some?))
  }

  ghost predicate CompletedIsEmpty(w: World) {
    forall id, app | Inside(w, id, app) :: app in w.tables.apps && w.tables.apps[app].status != COMPLETED
  }

  /** One orderly step keeps every COMPLETED row, and nobody is inside a COMPLETED application. */
  lemma {:induction false} OrderlyStep(cfg: Settings, actions: seq<Action>, a: Action, deadline: int)
    requires deadline <= cfg.lockTimeout && OnTime(Run(cfg, actions), deadline) && CompletedIsEmpty(Run(cfg, actions))
    requires a.Work? && a.work.MarkError? && a.id in Run(cfg, actions).workers ==>
             Run(cfg, actions).workers[a.id].claim.Some?
    ensures CompletedIsEmpty(Step(cfg, Run(cfg, actions), a))
    ensures var t, t' := Run(cfg, actions).tables, Step(cfg, Run(cfg, actions), a).tables;
            forall app | app in t.apps && t.apps[app].status == COMPLETED ::
              app in t'.apps && t'.apps[app] == t.apps[app]
  {
    match a
    case Work(id, work) =>
      WorkersAreOk(cfg, actions, id);
      AtMostOneInside(cfg, actions, deadline);
      OrderlyWork(cfg, Run(cfg, actions), id, work);
    case _ =>
      IntakeTheorems.IntakeInvHolds(cfg, actions);
      OthersKeepOrder(cfg, Run(cfg, actions), a);
  }

  lemma {:induction false} WorkersAreOk(cfg: Settings, actions: seq<Action>, id: int)
    ensures var w := Run(cfg, actions); id in w.workers ==> AuditTheorems.WorkerOk(w.tables, w.workers[id])
  {
    AuditTheorems.AuditInvHolds(cfg, actions);
  }

  lemma {:induction false} AtMostOneInside(cfg: Settings, actions: seq<Action>, deadline: int)
    requires deadline <= cfg.lockTimeout && OnTime(Run(cfg, actions), deadline)
    ensures var w := Run(cfg, actions); forall x, y, app | Inside(w, x, app) && Inside(w, y, app) :: x == y
  {
    var w := Run(cfg, actions);
    forall x, y, app | Inside(w, x, app) && Inside(w, y, app) ensures x == y {
      MutualExclusion(cfg, actions, deadline, x, y, app);
    }
  }

  lemma OthersKeepOrder(cfg: Settings, w: World, a: Action)
    requires !a.Work? && IntakeTheorems.IntakeInv(w) && CompletedIsEmpty(w)
    ensures CompletedIsEmpty(Step(cfg, w, a))
    ensures forall app | app in w.tables.apps :: app in Step(cfg, w, a).tables.apps
                                                 && Step(cfg, w, a).tables.apps[app] == w.tables.apps[app]
  {
    OthersTakeNoClaim(cfg, w, a);
    OthersKeepRows(cfg, w, a);
    var w' := Step(cfg, w, a);
    forall id, app | Inside(w', id, app) ensures app in w'.tables.apps && w'.tables.apps[app].status != COMPLETED {
      assert Inside(w, id, app);
    }
  }

  lemma OthersKeepRows(cfg: Settings, w: World, a: Action)
    requires !a.Work? && IntakeTheorems.IntakeInv(w)
    ensures forall app | app in w.tables.apps :: app in Step(cfg, w, a).tables.apps
                                                 && Step(cfg, w, a).tables.apps[app] == w.tables.apps[app]
  {
    match a
    case Tick(_) =>
    case Poll(poll) => PollFrame(w, poll);
    case Api(intake) =>
      IntakeFrame(cfg, w, intake);
      if Step(cfg, w, a).tables != w.tables { assert IntakeTheorems.RequestOk(w, intake.r); }
  }

  lemma OrderlyWork(cfg: Settings, w: World, id: int, a: WorkAction)
    requires CompletedIsEmpty(w)
    requires forall x, y, app | Inside(w, x, app) && Inside(w, y, app) :: x == y
    requires id in w.workers ==> AuditTheorems.WorkerOk(w.tables, w.workers[id])
    requires a.MarkError? && id in w.workers ==> w.workers[id].claim.Some?
    ensures CompletedIsEmpty(WorkStep(cfg, w, id, a))
    ensures var t, t' := w.tables, WorkStep(cfg, w, id, a).tables;
            forall app | app in t.apps && t.apps[app].status == COMPLETED ::
              app in t'.apps && t'.apps[app] == t.apps[app]
  {
    var w' := WorkStep(cfg, w, id, a);
    match a
    case ClaimApplication => OrderlyClaim(cfg, w, id);
    case StoreResults => if id in w.workers && w.workers[id].stage.Decided? { OrderlyLeave(w, w', id); }
    case MarkError => if id in w.workers && w.workers[id].stage.Failed? { OrderlyLeave(w, w', id); }
    case _ =>
      QuietSteps(cfg, w, id, a);
      RowsUntouched(cfg, w, id, a);
      forall x, app | Inside(w', x, app) ensures app in w'.tables.apps && w'.tables.apps[app].status != COMPLETED {
        assert Inside(w, x, app);
      }
  }

  lemma RowsUntouched(cfg: Settings, w: World, id: int, a: WorkAction)
    requires !a.ClaimApplication? && !a.StoreResults? && !a.MarkError?
    ensures WorkStep(cfg, w, id, a).tables.apps == w.tables.apps
  {
    match a
    case InsertChecked(s) =>
    case Answer(s, call) =>
    case _ =>
  }

  /** Nobody new inside, rows as before. */
  lemma FewerInside(w: World, w': World)
    requires CompletedIsEmpty(w) && w'.tables.apps == w.tables.apps
    requires forall x | x in w'.workers && w'.workers[x].claim.Some? ::
               x in w.workers && w'.workers[x].claim == w.workers[x].claim && w'.workers[x].app == w.workers[x].app
    ensures CompletedIsEmpty(w')
  {
    forall x, app | Inside(w', x, app) ensures app in w'.tables.apps && w'.tables.apps[app].status != COMPLETED {
      assert Inside(w, x, app);
    }
  }

  /** A claim takes an application that is not COMPLETED. */
  lemma OneMoreInside(w: World, w': World, id: int, app: AppId)
    requires CompletedIsEmpty(w) && app in w.tables.apps && w.tables.apps[app].status != COMPLETED
    requires app in w'.tables.apps && w'.tables.apps == w.tables.apps[app := w'.tables.apps[app]]
    requires w'.tables.apps[app].status == PROCESSING
    requires id in w'.workers && w'.workers == w.workers[id := w'.workers[id]] && w'.workers[id].app == app
    ensures CompletedIsEmpty(w')
  {
    forall x, y | Inside(w', x, y) ensures y in w'.tables.apps && w'.tables.apps[y].status != COMPLETED {
      assert x != id ==> Inside(w, x, y);
    }
  }

  lemma OrderlyClaim(cfg: Settings, w: World, id: int)
    requires CompletedIsEmpty(w)
    ensures var w' := Processing.ClaimApplication(cfg, w, id);
            && CompletedIsEmpty(w')
            && forall app | app in w.tables.apps && w.tables.apps[app].status == COMPLETED ::
                 app in w'.tables.apps && w'.tables.apps[app] == w.tables.apps[app]
  {
    if id in w.workers && w.workers[id].stage.Delivered? {
      var wk := w.workers[id];
      match Tx.ClaimApp(cfg.h, w.tables, wk.app, w.clock, cfg.lockTimeout).1
      case Claimed(_) => OneMoreInside(w, Processing.ClaimApplication(cfg, w, id), id, wk.app);
      case NotClaimed(_) => FewerInside(w, Processing.Leave(w, id));
      case _ => FewerInside(w, Processing.Put(w, id, Processing.Fail(wk, SYSTEM_ERROR)));
    }
  }

  /** The only worker inside an application writes its row and leaves. */
  lemma OrderlyLeave(w: World, w': World, id: int)
    requires CompletedIsEmpty(w) && id in w.workers && w.workers[id].claim.Some?
    requires forall x, y, app | Inside(w, x, app) && Inside(w, y, app) :: x == y
    requires w'.workers == w.workers - {id} && w'.tables.apps.Keys == w.tables.apps.Keys
    requires forall app | app in w.tables.apps && app != w.workers[id].app :: w'.tables.apps[app] == w.tables.apps[app]
    ensures CompletedIsEmpty(w')
    ensures forall app | app in w.tables.apps && w.tables.apps[app].status == COMPLETED ::
              app in w'.tables.apps && w'.tables.apps[app] == w.tables.apps[app]
  {
    assert Inside(w, id, w.workers[id].app);
    forall x, app | Inside(w', x, app) ensures app in w'.tables.apps && w'.tables.apps[app].status != COMPLETED {
      assert Inside(w, x, app);
      assert app != w.workers[id].app;
    }
  }

  /** Somewhere in `more`, run after `actions`, the application is marked. */
  predicate MarkedIn(cfg: Settings, actions: seq<Action>, more: seq<Action>, app: AppId)
    decreases |more|
  {
    more != [] &&
    var n := |more| - 1;
    MarkedIn(cfg, actions, more[..n], app) || Marks(Run(cfg, actions + more[..n]), more[n], app)
  }

  /** Over whole runs: a COMPLETED row stays as it is if and only if its application is never marked. */
  lemma {:induction false} CompletedStaysIffNeverMarked(cfg: Settings, actions: seq<Action>, more: seq<Action>,
                                                        app: AppId)
    requires app in Run(cfg, actions).tables.apps && Run(cfg, actions).tables.apps[app].status == COMPLETED
    ensures app in Run(cfg, actions + more).tables.apps
    ensures Run(cfg, actions + more).tables.apps[app] == Run(cfg, actions).tables.apps[app] <==>
            !MarkedIn(cfg, actions, more, app)
    ensures MarkedIn(cfg, actions, more, app) ==> Run(cfg, actions + more).tables.apps[app].status == MANUAL_REVIEW
    decreases |more|
  {
    if more == [] {
      assert actions + more == actions;
    } else {
      var n := |more| - 1;
      assert (actions + more)[..|actions + more| - 1] == actions + more[..n];
      CompletedStaysIffNeverMarked(cfg, actions, more[..n], app);
      if MarkedIn(cfg, actions, more[..n], app) {
        AuditTheorems.StatusNeverGoesBack(cfg, actions + more[..n], more[n], app);
      } else {
        CompletedChangesIffMarked(cfg, actions + more[..n], more[n], app);
      }
    }
  }

  lemma {:induction false} OrderlyRunIsEmpty(cfg: Settings, actions: seq<Action>, deadline: int)
    requires deadline <= cfg.lockTimeout && Orderly(cfg, actions, deadline)
    ensures CompletedIsEmpty(Run(cfg, actions))
  {
    if actions != [] {
      var before := actions[..|actions| - 1];
      OrderlyRunIsEmpty(cfg, before, deadline);
      OrderlyStep(cfg, before, actions[|actions| - 1], deadline);
    }
  }

  /** In an orderly run a COMPLETED row never changes again. */
  lemma {:induction false} CompletedIsFinal(cfg: Settings, actions: seq<Action>, more: seq<Action>, deadline: int,
                                            app: AppId)
    requires deadline <= cfg.lockTimeout && Orderly(cfg, actions + more, deadline)
    requires app in Run(cfg, actions).tables.apps && Run(cfg, actions).tables.apps[app].status == COMPLETED
    ensures app in Run(cfg, actions + more).tables.apps
    ensures Run(cfg, actions + more).tables.apps[app] == Run(cfg, actions).tables.apps[app]
    decreases |more|
  {
    if more == [] {
      assert actions + more == actions;
    } else {
      var n := |more| - 1;
      assert (actions + more)[..|actions + more| - 1] == actions + more[..n];
      CompletedIsFinal(cfg, actions, more[..n], deadline, app);
      OrderlyRunIsEmpty(cfg, actions + more[..n], deadline);
      OrderlyStep(cfg, actions + more[..n], more[n], deadline);
    }
  }
}
