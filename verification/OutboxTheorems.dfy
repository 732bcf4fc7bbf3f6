/** Concurrent pollers hold disjoint batches of the oldest rows, and what they mark PROCESSED was sent. */
module OutboxTheorems {
  import opened Frames
  import opened IntakeTheorems
  import opened Machine
  import opened Providers
  import opened Schema
  import opened ServiceResults
  import opened State
  import Outbox
  import Processing

  predicate Ascending(batch: seq<nat>) {
    forall i, j | 0 <= i < j < |batch| :: batch[i] < batch[j]
  }

  /** Every index of the batch is a row that can still be delivered. */
  predicate Deliverable(outbox: seq<Message>, batch: seq<nat>) {
    forall j | 0 <= j < |batch| :: batch[j] < |outbox| && Outbox.Eligible(outbox[batch[j]])
  }

  // ----- one batch -----

  /**
   A batch is at most `limit` rows, in order, eligible and not locked by anybody; a row of that kind is passed over
   only when the batch is full of older ones.
   */
  lemma {:induction false} OldestIsOldest(outbox: seq<Message>, locked: set<nat>, limit: nat, n: nat)
    requires n <= |outbox|
    ensures var b := Outbox.Oldest(outbox, locked, limit, n);
            && |b| <= limit && Ascending(b) && Deliverable(outbox, b)
            && (forall j | 0 <= j < |b| :: b[j] < n && b[j] !in locked)
            && forall i: nat | i < n && Outbox.Eligible(outbox[i]) && i !in locked && i !in b ::
                 |b| == limit && forall j | j in b :: j < i
  {
    if n > 0 { OldestIsOldest(outbox, locked, limit, n - 1); }
  }

  /** Rows of the batch get their outcome, the others keep their status. */
  lemma {:induction false} SettleAt(outbox: seq<Message>, batch: seq<nat>, delivered: seq<bool>)
    requires |batch| == |delivered| && Ascending(batch) && forall j | 0 <= j < |batch| :: batch[j] < |outbox|
    ensures var o := Outbox.Settle(outbox, batch, delivered);
            && |o| == |outbox|
            && (forall j | 0 <= j < |batch| :: o[batch[j]] == Outbox.Settled(outbox[batch[j]], delivered[j]))
            && forall i | 0 <= i < |outbox| && i !in batch :: o[i] == outbox[i]
  {
    if batch != [] {
      var n := |batch| - 1;
      assert batch == batch[..n] + [batch[n]];
      SettleAt(outbox, batch[..n], delivered[..n]);
      assert batch[n] !in batch[..n];
    }
  }

  function EligibleCount(outbox: seq<Message>): nat {
    if outbox == [] then 0
    else EligibleCount(outbox[..|outbox| - 1]) + if Outbox.Eligible(outbox[|outbox| - 1]) then 1 else 0
  }

  function Accepted(delivered: seq<bool>): nat {
    if delivered == [] then 0 else Accepted(delivered[..|delivered| - 1]) + if delivered[|delivered| - 1] then 1 else 0
  }

  lemma {:induction false} EligibleCountUpdate(outbox: seq<Message>, i: nat, m: Message)
    requires i < |outbox| && Outbox.Eligible(outbox[i])
    ensures EligibleCount(outbox[i := m]) == EligibleCount(outbox) - if Outbox.Eligible(m) then 0 else 1
  {
    var n := |outbox| - 1;
    if i < n {
      EligibleCountUpdate(outbox[..n], i, m);
      assert outbox[i := m][..n] == outbox[..n][i := m];
    } else {
      assert outbox[i := m][..n] == outbox[..n];
    }
  }

  /** Settling a batch takes exactly the accepted messages out of the eligible rows. */
  lemma {:induction false} SettleCounts(outbox: seq<Message>, batch: seq<nat>, delivered: seq<bool>)
    requires |batch| == |delivered| && Ascending(batch) && Deliverable(outbox, batch)
    ensures EligibleCount(Outbox.Settle(outbox, batch, delivered)) == EligibleCount(outbox) - Accepted(delivered)
  {
    if batch != [] {
      var n := |batch| - 1;
      assert batch == batch[..n] + [batch[n]];
      SettleCounts(outbox, batch[..n], delivered[..n]);
      SettleAt(outbox, batch[..n], delivered[..n]);
      var earlier := Outbox.Settle(outbox, batch[..n], delivered[..n]);
      assert batch[n] in batch && batch[n] !in batch[..n];
      EligibleCountUpdate(earlier, batch[n], Outbox.Settled(earlier[batch[n]], delivered[n]));
    }
  }

  // ----- the invariant -----

  ghost predicate PollerOk(outbox: seq<Message>, sent: seq<AppId>, p: Poller) {
    && Ascending(p.batch)
    && Deliverable(outbox, p.batch)
    && |p.delivered| <= |p.batch|
    && forall j | 0 <= j < |p.delivered| && p.delivered[j] :: outbox[p.batch[j]].app in sent
  }

  ghost predicate BatchesApart(pollers: map<int, Poller>) {
    forall p, q, i | p in pollers && q in pollers && p != q && i in pollers[p].batch :: i !in pollers[q].batch
  }

  ghost predicate ProcessedWasSent(outbox: seq<Message>, sent: seq<AppId>) {
    forall i | 0 <= i < |outbox| && outbox[i].status == PROCESSED :: outbox[i].app in sent
  }

  ghost predicate OutboxInv(w: World) {
    && (forall p | p in w.pollers :: PollerOk(w.tables.outbox, w.sent, w.pollers[p]))
    && BatchesApart(w.pollers)
    && ProcessedWasSent(w.tables.outbox, w.sent)
  }

  lemma SelectKeeps(w: World, p: int, limit: nat)
    requires OutboxInv(w)
    ensures OutboxInv(Outbox.SelectBatch(w, p, limit))
  {
    if p !in w.pollers {
      OldestIsOldest(w.tables.outbox, Outbox.LockedRows(w), limit, |w.tables.outbox|);
      var batch := Outbox.SelectBatch(w, p, limit).pollers[p].batch;
      forall q, i | q in w.pollers && i in w.pollers[q].batch ensures i !in batch { assert i in Outbox.LockedRows(w); }
    }
  }

  lemma SendKeeps(w: World, p: int, accepted: bool)
    requires OutboxInv(w)
    ensures OutboxInv(Outbox.SendNext(w, p, accepted))
  {
    var w' := Outbox.SendNext(w, p, accepted);
    forall q | q in w'.pollers ensures PollerOk(w'.tables.outbox, w'.sent, w'.pollers[q]) {
      assert PollerOk(w.tables.outbox, w.sent, w.pollers[q]);
    }
  }

  lemma CommitKeepsOutbox(w: World, p: int)
    requires OutboxInv(w)
    ensures OutboxInv(Outbox.CommitBatch(w, p))
  {
    if p in w.pollers && |w.pollers[p].delivered| == |w.pollers[p].batch| {
      var w' := Outbox.CommitBatch(w, p);
      var poller := w.pollers[p];
      SettleAt(w.tables.outbox, poller.batch, poller.delivered);
      SettleKeepsApps(w.tables.outbox, poller.batch, poller.delivered);
      forall q | q in w'.pollers ensures PollerOk(w'.tables.outbox, w'.sent, w'.pollers[q]) {
        assert PollerOk(w.tables.outbox, w.sent, w.pollers[q]);
        forall i | i in w.pollers[q].batch ensures i !in poller.batch {}
      }
      forall i | 0 <= i < |w'.tables.outbox| && w'.tables.outbox[i].status == PROCESSED
        ensures w'.tables.outbox[i].app in w'.sent
      {
        if i in poller.batch {
          var j :| 0 <= j < |poller.batch| && poller.batch[j] == i;
          assert w'.tables.outbox[poller.batch[j]] == Outbox.Settled(w.tables.outbox[i], poller.delivered[j]);
        }
      }
    }
  }

  lemma NewRowKeepsOutbox(w: World, w': World, app: AppId)
    requires OutboxInv(w)
    requires w'.pollers == w.pollers && w'.sent == w.sent
    requires w'.tables.outbox == w.tables.outbox || w'.tables.outbox == w.tables.outbox + [Message(app, QUEUED)]
    ensures OutboxInv(w')
  {
    forall p | p in w'.pollers ensures PollerOk(w'.tables.outbox, w'.sent, w'.pollers[p]) {
      assert PollerOk(w.tables.outbox, w.sent, w.pollers[p]);
    }
  }

  lemma OutboxInvKept(cfg: Settings, w: World, a: Action)
    requires OutboxInv(w)
    ensures OutboxInv(Step(cfg, w, a))
  {
    match a
    case Poll(SelectBatch(p, limit)) => SelectKeeps(w, p, limit);
    case Poll(SendNext(p, accepted)) => SendKeeps(w, p, accepted);
    case Poll(CommitBatch(p)) => CommitKeepsOutbox(w, p);
    case Poll(CrashPoller(_)) =>
    case Tick(_) =>
    case Work(id, work) => WorkFrame(cfg, w, id, work);
    case Api(intake) =>
      IntakeFrame(cfg, w, intake);
      NewRowKeepsOutbox(w, Step(cfg, w, a),
                        if intake.CommitRequest? && intake.r in w.requests && w.requests[intake.r].phase.Holding?
                        then w.requests[intake.r].phase.app else 0);
  }

  lemma {:induction false} OutboxInvHolds(cfg: Settings, actions: seq<Action>)
    ensures OutboxInv(Run(cfg, actions))
  {
    if actions != [] {
      OutboxInvHolds(cfg, actions[..|actions| - 1]);
      OutboxInvKept(cfg, Run(cfg, actions[..|actions| - 1]), actions[|actions| - 1]);
    }
  }

  // ----- the theorems -----

  ghost predicate AllSentCommitted(w: World) {
    forall app | app in w.sent :: app in w.tables.apps
  }

  /** Only committed applications are ever sent. */
  lemma {:induction false} SentIsCommitted(cfg: Settings, actions: seq<Action>)
    ensures AllSentCommitted(Run(cfg, actions))
  {
    if actions != [] {
      var before, a := actions[..|actions| - 1], actions[|actions| - 1];
      SentIsCommitted(cfg, before);
      CommittedTogether(cfg, before);
      SentStaysCommitted(cfg, Run(cfg, before), a);
    }
  }

  lemma SentStaysCommitted(cfg: Settings, w: World, a: Action)
    requires AllSentCommitted(w) && OutboxLinked(w.tables)
    ensures AllSentCommitted(Step(cfg, w, a))
  {
    match a
    case Tick(_) =>
    case Poll(poll) => PollSendsCommitted(w, poll);
    case Work(id, work) => WorkFrame(cfg, w, id, work);
    case Api(intake) => IntakeFrame(cfg, w, intake);
  }

  lemma PollSendsCommitted(w: World, a: PollAction)
    requires AllSentCommitted(w) && OutboxLinked(w.tables)
    ensures AllSentCommitted(PollStep(w, a))
  {
  }

  ghost predicate AllWorkSent(w: World) {
    forall id | id in w.workers :: w.workers[id].app in w.sent
  }

  /** No worker ever has a task that was not sent. */
  lemma {:induction false} WorkIsSent(cfg: Settings, actions: seq<Action>)
    ensures AllWorkSent(Run(cfg, actions))
  {
    if actions != [] {
      var before, a := actions[..|actions| - 1], actions[|actions| - 1];
      WorkIsSent(cfg, before);
      match a
      case Tick(_) =>
      case Poll(poll) => PollFrame(Run(cfg, before), poll);
      case Work(id, work) => WorkersKeepApps(cfg, Run(cfg, before), id, work);
      case Api(intake) => IntakeFrame(cfg, Run(cfg, before), intake);
    }
  }

  lemma WorkersKeepApps(cfg: Settings, w: World, id: int, a: WorkAction)
    requires AllWorkSent(w)
    ensures AllWorkSent(WorkStep(cfg, w, id, a))
  {
    WorkFrame(cfg, w, id, a);
    if !a.Deliver? && !a.Crash? { WorkerKeepsApp(cfg, w, id, a); }
  }

  ghost predicate SameApps(w: World, w': World) {
    forall x | x in w'.workers :: x in w.workers && w'.workers[x].app == w.workers[x].app
  }

  lemma WorkerKeepsApp(cfg: Settings, w: World, id: int, a: WorkAction)
    requires !a.Deliver? && !a.Crash?
    ensures SameApps(w, WorkStep(cfg, w, id, a))
  {
    match a
    case ClaimApplication => ClaimantKeepsApp(cfg, w, id);
    case InsertChecked(s) => InserterKeepsApp(cfg, w, id, s);
    case Answer(s, call) => AnswererKeepsApp(cfg, w, id, s, call);
    case DecideApplication => DeciderKeepsApp(cfg, w, id);
    case StoreResults =>
    case MarkError =>
    case Abort(kind) =>
    case LoadExternal(s) => ReaderKeepsApp(w, id, s);
    case CheckExternal(s) => ReaderKeepsApp(w, id, s);
  }

  lemma ClaimantKeepsApp(cfg: Settings, w: World, id: int)
    ensures SameApps(w, Processing.ClaimApplication(cfg, w, id))
  {
  }

  lemma InserterKeepsApp(cfg: Settings, w: World, id: int, s: Source)
    ensures SameApps(w, Processing.InsertChecked(cfg, w, id, s))
  {
  }

  lemma AnswererKeepsApp(cfg: Settings, w: World, id: int, s: Source, call: ResultValue)
    ensures SameApps(w, Processing.Answer(cfg, w, id, s, call))
  {
  }

  lemma DeciderKeepsApp(cfg: Settings, w: World, id: int)
    ensures SameApps(w, Processing.DecideApplication(cfg, w, id))
  {
  }

  lemma ReaderKeepsApp(w: World, id: int, s: Source)
    ensures SameApps(w, Processing.LoadExternal(w, id, s)) && SameApps(w, Processing.CheckExternal(w, id, s))
  {
  }

  /** In every run batches are disjoint and every PROCESSED message was sent. */
  lemma {:induction false} PollersCoordinate(cfg: Settings, actions: seq<Action>)
    ensures var w := Run(cfg, actions);
            BatchesApart(w.pollers) && ProcessedWasSent(w.tables.outbox, w.sent)
  {
    OutboxInvHolds(cfg, actions);
  }

  /** A commit lowers the number of eligible rows by exactly the number of accepted messages. */
  lemma {:induction false} CommitLowersEligible(cfg: Settings, actions: seq<Action>, p: int)
    requires p in Run(cfg, actions).pollers
    requires |Run(cfg, actions).pollers[p].delivered| == |Run(cfg, actions).pollers[p].batch|
    ensures var w := Run(cfg, actions);
            EligibleCount(Outbox.CommitBatch(w, p).tables.outbox)
                == EligibleCount(w.tables.outbox) - Accepted(w.pollers[p].delivered)
  {
    OutboxInvHolds(cfg, actions);
    var w := Run(cfg, actions);
    assert PollerOk(w.tables.outbox, w.sent, w.pollers[p]);
    SettleCounts(w.tables.outbox, w.pollers[p].batch, w.pollers[p].delivered);
  }

  /** A commit marks what the broker took PROCESSED and what it refused FAILED, and touches no other row. */
  lemma {:induction false} CommitMarksOutcomes(cfg: Settings, actions: seq<Action>, p: int, i: nat)
    requires p in Run(cfg, actions).pollers && i < |Run(cfg, actions).tables.outbox|
    requires |Run(cfg, actions).pollers[p].delivered| == |Run(cfg, actions).pollers[p].batch|
    ensures var w := Run(cfg, actions);
            var poller, rows, rows' := w.pollers[p], w.tables.outbox, Outbox.CommitBatch(w, p).tables.outbox;
            && |rows'| == |rows| && rows'[i].app == rows[i].app
            && (i !in poller.batch ==> rows'[i].status == rows[i].status)
            && (forall j | 0 <= j < |poller.batch| && poller.batch[j] == i ::
                  rows'[i].status == if poller.delivered[j] then PROCESSED else FAILED)
  {
    OutboxInvHolds(cfg, actions);
    var w := Run(cfg, actions);
    assert PollerOk(w.tables.outbox, w.sent, w.pollers[p]);
    SettleAt(w.tables.outbox, w.pollers[p].batch, w.pollers[p].delivered);
  }

  /** A PROCESSED row stays PROCESSED, and no batch ever holds one. */
  lemma {:induction false} ProcessedIsFinal(cfg: Settings, actions: seq<Action>, a: Action, i: nat)
    requires i < |Run(cfg, actions).tables.outbox| && Run(cfg, actions).tables.outbox[i].status == PROCESSED
    ensures var w := Step(cfg, Run(cfg, actions), a);
            && i < |w.tables.outbox| && w.tables.outbox[i].status == PROCESSED
            && forall p | p in w.pollers :: i !in w.pollers[p].batch
  {
    OutboxInvHolds(cfg, actions);
    var w := Run(cfg, actions);
    OutboxInvKept(cfg, w, a);
    match a
    case Work(id, work) => WorkFrame(cfg, w, id, work);
    case Api(intake) => IntakeFrame(cfg, w, intake);
    case Poll(poll) => PollKeepsProcessed(w, poll, i);
    case Tick(_) =>
    ProcessedIsInNoBatch(Step(cfg, w, a), i);
  }

  lemma PollKeepsProcessed(w: World, a: PollAction, i: nat)
    requires OutboxInv(w) && i < |w.tables.outbox| && w.tables.outbox[i].status == PROCESSED
    ensures var w' := PollStep(w, a); i < |w'.tables.outbox| && w'.tables.outbox[i].status == PROCESSED
  {
    if a.CommitBatch? && a.p in w.pollers && |w.pollers[a.p].delivered| == |w.pollers[a.p].batch| {
      assert PollerOk(w.tables.outbox, w.sent, w.pollers[a.p]);
      SettleAt(w.tables.outbox, w.pollers[a.p].batch, w.pollers[a.p].delivered);
    }
  }

  lemma ProcessedIsInNoBatch(w: World, i: nat)
    requires OutboxInv(w) && i < |w.tables.outbox| && w.tables.outbox[i].status == PROCESSED
    ensures forall p | p in w.pollers :: i !in w.pollers[p].batch
  {
    forall p | p in w.pollers ensures i !in w.pollers[p].batch {
      assert PollerOk(w.tables.outbox, w.sent, w.pollers[p]);
    }
  }

  // ----- the poller's loop -----

  /** One more message of the batch. */
  lemma BatchStep(outbox: seq<Message>, batch: seq<nat>, delivered: seq<bool>, n: nat)
    requires |batch| == |delivered| && Ascending(batch) && Deliverable(outbox, batch) && n < |batch|
    ensures var earlier := Outbox.Settle(outbox, batch[..n], delivered[..n]);
            && batch[n] < |earlier| && earlier[batch[n]] == outbox[batch[n]]
            && Outbox.Settle(outbox, batch[..n + 1], delivered[..n + 1])
               == earlier[batch[n] := Outbox.Settled(outbox[batch[n]], delivered[n])]
    ensures SentBy(outbox, batch[..n + 1], delivered[..n + 1])
            == SentBy(outbox, batch[..n], delivered[..n]) + if delivered[n] then [outbox[batch[n]].app] else []
    ensures Accepted(delivered[..n + 1]) == Accepted(delivered[..n]) + if delivered[n] then 1 else 0
  {
    assert batch[..n + 1][..n] == batch[..n] && delivered[..n + 1][..n] == delivered[..n];
    SettleAt(outbox, batch[..n], delivered[..n]);
    assert batch[n] !in batch[..n];
  }

  /** Rows, sent applications and the counter after `n` messages of the batch. */
  function Progress(rows: seq<Message>, sent: seq<AppId>, batch: seq<nat>, delivered: seq<bool>, n: nat)
    : (seq<Message>, seq<AppId>, nat)
    requires n <= |batch| == |delivered|
  {
    (Outbox.Settle(rows, batch[..n], delivered[..n]), sent + SentBy(rows, batch[..n], delivered[..n]),
     Accepted(delivered[..n]))
  }

  lemma ProgressStep(rows: seq<Message>, sent: seq<AppId>, batch: seq<nat>, delivered: seq<bool>, n: nat)
    requires |batch| == |delivered| && Ascending(batch) && Deliverable(rows, batch) && n < |batch|
    ensures var (rows', sent', count) := Progress(rows, sent, batch, delivered, n);
            && batch[n] < |rows'|
            && Progress(rows, sent, batch, delivered, n + 1)
               == (rows'[batch[n] := Outbox.Settled(rows'[batch[n]], delivered[n])],
                   if delivered[n] then sent' + [rows'[batch[n]].app] else sent',
                   if delivered[n] then count + 1 else count)
  {
    BatchStep(rows, batch, delivered, n);
    var before := SentBy(rows, batch[..n], delivered[..n]);
    assert before + [] == before && sent + (before + [rows[batch[n]].app]) == sent + before + [rows[batch[n]].app];
  }

  class OutboxStore {
    var rows: seq<Message>
    var sent: seq<AppId>

    constructor (rows: seq<Message>)
      ensures this.rows == rows && sent == []
    {
      this.rows, this.sent := rows, [];
    }

    /** `broker` tells which sends succeed; `locked` rows belong to other pollers. Returns the number delivered. */
    method PollOnce(limit: nat, locked: set<nat>, broker: nat -> bool) returns (delivered: nat)
      modifies this
      ensures var batch := Outbox.Oldest(old(rows), locked, limit, |old(rows)|);
              var outcomes := Outcomes(broker, |batch|);
              && rows == Outbox.Settle(old(rows), batch, outcomes)
              && sent == old(sent) + SentBy(old(rows), batch, outcomes)
              && delivered == Accepted(outcomes)
              && EligibleCount(rows) == EligibleCount(old(rows)) - delivered
    {
      var batch := Outbox.Oldest(rows, locked, limit, |rows|);
      OldestIsOldest(rows, locked, limit, |rows|);
      ghost var outcomes := Outcomes(broker, |batch|);
      SettleCounts(rows, batch, outcomes);
      assert batch[..|batch|] == batch && outcomes[..|batch|] == outcomes;
      delivered := SendBatch(batch, broker);
    }

    method SendBatch(batch: seq<nat>, broker: nat -> bool) returns (delivered: nat)
      requires Ascending(batch) && Deliverable(rows, batch)
      modifies this
      ensures (rows, sent, delivered) == Progress(old(rows), old(sent), batch, Outcomes(broker, |batch|), |batch|)
    {
      delivered := 0;
      ghost var outcomes := Outcomes(broker, |batch|);
      ghost var start, sentBefore := rows, sent;
      assert sent + [] == sent;
      for n := 0 to |batch|
        invariant (rows, sent, delivered) == Progress(start, sentBefore, batch, outcomes, n)
      {
        ProgressStep(start, sentBefore, batch, outcomes, n);
        var i := batch[n];
        if broker(n) {
          sent := sent + [rows[i].app];
          rows := rows[i := rows[i].(status := PROCESSED)];
          delivered := delivered + 1;
        } else {
          rows := rows[i := rows[i].(status := FAILED)];
        }
      }
    }
  }

  function Outcomes(broker: nat -> bool, n: nat): seq<bool> {
    seq(n, j requires 0 <= j < n => broker(j))
  }

  /** The applications of the accepted messages, in order. */
  function SentBy(outbox: seq<Message>, batch: seq<nat>, delivered: seq<bool>): seq<AppId>
    requires |batch| == |delivered|
  {
    if batch == [] then []
    else
      var n := |batch| - 1;
      SentBy(outbox, batch[..n], delivered[..n])
      + if delivered[n] && batch[n] < |outbox| then [outbox[batch[n]].app] else []
  }

  // ----- the loop against the steps -----

  /** Poller `p` after its next `n` sends. */
  function Sending(w: World, p: int, broker: nat -> bool, n: nat): World {
    if n == 0 then w else Outbox.SendNext(Sending(w, p, broker, n - 1), p, broker(n - 1))
  }

  /** Poller `p` holds `batch` and has these outcomes so far. */
  function MidBatch(w: World, p: int, batch: seq<nat>, delivered: seq<bool>): World
    requires |delivered| <= |batch|
  {
    w.(pollers := w.pollers[p := Poller(batch, delivered)],
       sent := w.sent + SentBy(w.tables.outbox, batch[..|delivered|], delivered))
  }

  lemma SendMovesOn(w: World, p: int, batch: seq<nat>, delivered: seq<bool>, accepted: bool)
    requires |delivered| < |batch| && batch[|delivered|] < |w.tables.outbox|
    ensures Outbox.SendNext(MidBatch(w, p, batch, delivered), p, accepted)
            == MidBatch(w, p, batch, delivered + [accepted])
  {
    SentByOneMore(w.tables.outbox, batch, delivered, accepted);
    var next := Poller(batch, delivered + [accepted]);
    assert w.pollers[p := Poller(batch, delivered)][p := next] == w.pollers[p := next];
  }

  lemma SentByOneMore(outbox: seq<Message>, batch: seq<nat>, delivered: seq<bool>, accepted: bool)
    requires |delivered| < |batch| && batch[|delivered|] < |outbox|
    ensures var n := |delivered|;
            SentBy(outbox, batch[..n + 1], delivered + [accepted])
            == SentBy(outbox, batch[..n], delivered) + if accepted then [outbox[batch[n]].app] else []
  {
    var n := |delivered|;
    assert batch[..n + 1][..n] == batch[..n] && (delivered + [accepted])[..n] == delivered;
  }

  lemma SelectionStarts(w: World, p: int, limit: nat)
    requires p !in w.pollers
    ensures Outbox.SelectBatch(w, p, limit)
            == MidBatch(w, p, Outbox.Oldest(w.tables.outbox, Outbox.LockedRows(w), limit, |w.tables.outbox|), [])
  {
    assert w.sent + [] == w.sent;
  }

  lemma OutcomesGrow(broker: nat -> bool, n: nat)
    ensures Outcomes(broker, n + 1) == Outcomes(broker, n) + [broker(n)]
  {
  }

  lemma {:induction false} SendingReaches(w: World, p: int, broker: nat -> bool, n: nat, batch: seq<nat>)
    requires n <= |batch| && forall j | 0 <= j < |batch| :: batch[j] < |w.tables.outbox|
    ensures Sending(MidBatch(w, p, batch, []), p, broker, n) == MidBatch(w, p, batch, Outcomes(broker, n))
  {
    if n == 0 {
      assert Outcomes(broker, 0) == [];
    } else {
      SendingReaches(w, p, broker, n - 1, batch);
      OutcomesGrow(broker, n - 1);
      SendMovesOn(w, p, batch, Outcomes(broker, n - 1), broker(n - 1));
    }
  }

  lemma CommitEnds(w: World, p: int, batch: seq<nat>, delivered: seq<bool>)
    requires p !in w.pollers && |delivered| == |batch|
    ensures var w' := Outbox.CommitBatch(MidBatch(w, p, batch, delivered), p);
            && w'.tables.outbox == Outbox.Settle(w.tables.outbox, batch, delivered)
            && w'.sent == w.sent + SentBy(w.tables.outbox, batch, delivered)
            && w'.pollers == w.pollers
  {
    assert batch[..|batch|] == batch;
    assert w.pollers[p := Poller(batch, delivered)] - {p} == w.pollers;
  }

  /** `PollOnce` in the midst of other pollers: their locks are what it skips, and it leaves exactly what its steps
      leave. */
  lemma PollOnceIsRun(w: World, p: int, limit: nat, broker: nat -> bool)
    requires p !in w.pollers
    ensures var batch := Outbox.Oldest(w.tables.outbox, Outbox.LockedRows(w), limit, |w.tables.outbox|);
            var w' := Outbox.CommitBatch(Sending(Outbox.SelectBatch(w, p, limit), p, broker, |batch|), p);
            && w'.tables.outbox == Outbox.Settle(w.tables.outbox, batch, Outcomes(broker, |batch|))
            && w'.sent == w.sent + SentBy(w.tables.outbox, batch, Outcomes(broker, |batch|))
            && w'.pollers == w.pollers
  {
    var batch := Outbox.Oldest(w.tables.outbox, Outbox.LockedRows(w), limit, |w.tables.outbox|);
    OldestIsOldest(w.tables.outbox, Outbox.LockedRows(w), limit, |w.tables.outbox|);
    SelectionStarts(w, p, limit);
    SendingReaches(w, p, broker, |batch|, batch);
    CommitEnds(w, p, batch, Outcomes(broker, |batch|));
  }
}
