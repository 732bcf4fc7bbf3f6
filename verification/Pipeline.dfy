/** The whole pipeline as a value: tables, cache, broker, clock, and every actor's local state. */
module State {
  import opened Common
  import opened Decisions
  import opened Host
  import opened Json
  import opened Providers
  import opened RuleSets
  import opened Schema
  import opened ServiceResults

  datatype Settings = Settings(h: Host, lockTimeout: int, threshold: real, rs: RuleSet, cacheTtl: int)

  // ----- API requests -----

  datatype Reply = Created(app: AppId) | Replayed(app: AppId) | Mismatch | Unresolved

  /** Where an `apply_loan` run stands; `at` is its place in `served`. */
  datatype Phase =
    | CacheLookup
    | RecordLookup
    | Inserting
    | Holding(app: AppId)
    | Conflicted
    | CacheWrite(reply: Reply, record: Record, at: nat)
    | Answered(reply: Reply, at: nat)
    | Abandoned(served: Option<nat>)

  datatype Request = Request(key: string, hash: string, sealed: Option<Dict>, phase: Phase)

  datatype Cached = Cached(record: Record, expires: int)

  /** One request taking effect on the idempotency ledger. */
  datatype Served = Served(request: int, key: string, hash: string, newApp: AppId, reply: Reply)

  // ----- outbox pollers -----

  /** The rows a poller holds locked, and the outcome of each send so far. */
  datatype Poller = Poller(batch: seq<nat>, delivered: seq<bool>)

  // ----- workers -----

  datatype Slot =
    | Loading
    | Calling
    | Checking(answer: ResultValue)
    | Unstored(answer: ResultValue)
    | Have(result: ResultValue)

  datatype Stage = Delivered | Gathering | Decided(out: DecisionOutput) | Failed(kind: ErrorKind)

  /** `claim` is the worker's place in `claims` once it has claimed. */
  datatype Worker = Worker(
    app: AppId, stage: Stage, claim: Option<nat>, user: Dict, credit: Slot, bank: Slot, gst: Slot)

  datatype Claim = Claim(app: AppId, at: int)

  /** `served` and `claims` record history; no step reads them. */
  datatype World = World(
    tables: Tables,
    cache: map<string, Cached>,
    sent: seq<AppId>,
    clock: int,
    requests: map<int, Request>,
    pollers: map<int, Poller>,
    workers: map<int, Worker>,
    served: seq<Served>,
    claims: seq<Claim>)

  const EMPTY := World(Tables(map[], map[], [], map[], []), map[], [], 0, map[], map[], map[], [], [])

  function SlotOf(wk: Worker, s: Source): Slot {
    match s
    case CREDIT_BUREAU => wk.credit
    case BANK_ANALYZER => wk.bank
    case GST_VERIFIER => wk.gst
  }

  function WithSlot(wk: Worker, s: Source, slot: Slot): Worker {
    match s
    case CREDIT_BUREAU => wk.(credit := slot)
    case BANK_ANALYZER => wk.(bank := slot)
    case GST_VERIFIER => wk.(gst := slot)
  }
}

/** `apply_loan`, one database or cache round trip a step (api/routes/applications.py). */
module Intake {
  import opened Common
  import opened Json
  import opened Schema
  import opened State

  function MoveTo(w: World, r: int, phase: Phase): World
    requires r in w.requests
  {
    w.(requests := w.requests[r := w.requests[r].(phase := phase)])
  }

  predicate InPhase(w: World, r: int, phase: Phase) {
    r in w.requests && w.requests[r].phase == phase
  }

  /** The request takes effect with `reply` and moves on. */
  function Serve(w: World, r: int, newApp: AppId, reply: Reply, phase: Phase): World
    requires r in w.requests
  {
    var q := w.requests[r];
    MoveTo(w, r, phase).(served := w.served + [Served(r, q.key, q.hash, newApp, reply)])
  }

  function ReplyTo(record: Record, hash: string): Reply {
    if record.hash == hash then Replayed(record.app) else Mismatch
  }

  function Arrive(w: World, r: int, key: string, hash: string, sealed: Option<Dict>): World {
    if r in w.requests then w
    else w.(requests := w.requests[r := Request(key, hash, sealed, CacheLookup)])
  }

  /** A cache that is down answers like an empty one. */
  function ReadCache(w: World, r: int, up: bool): World {
    if !InPhase(w, r, CacheLookup) then w else
    var q := w.requests[r];
    if up && q.key in w.cache && w.clock < w.cache[q.key].expires then
      var reply := ReplyTo(w.cache[q.key].record, q.hash);
      Serve(w, r, 0, reply, Answered(reply, |w.served|))
    else MoveTo(w, r, RecordLookup)
  }

  /** Answer from the durable record; a replay also refreshes the cache. */
  function ServeRecord(w: World, r: int): World
    requires r in w.requests && w.requests[r].key in w.tables.records
  {
    var record := w.tables.records[w.requests[r].key];
    var reply := ReplyTo(record, w.requests[r].hash);
    Serve(w, r, 0, reply,
          if reply.Mismatch? then Answered(reply, |w.served|) else CacheWrite(reply, record, |w.served|))
  }

  function ReadRecord(w: World, r: int): World {
    if !InPhase(w, r, RecordLookup) then w
    else if w.requests[r].key in w.tables.records then ServeRecord(w, r)
    else MoveTo(w, r, Inserting)
  }

  predicate HoldsKey(w: World, q: int, key: string) {
    q in w.requests && w.requests[q].phase.Holding? && w.requests[q].key == key
  }

  predicate HoldsApp(w: World, q: int, app: AppId) {
    q in w.requests && w.requests[q].phase == Holding(app)
  }

  /**
   The insert with ON CONFLICT DO NOTHING: it waits for an uncommitted insert of the same key, and finds a conflict
   with a committed one. `newApp` is the new application's uuid.
   */
  function InsertRecord(w: World, r: int, newApp: AppId): World {
    if !InPhase(w, r, Inserting) then w
    else if newApp in w.tables.apps || exists q | q in w.requests :: HoldsApp(w, q, newApp) then w
    else if exists q | q in w.requests :: HoldsKey(w, q, w.requests[r].key) then w
    else if w.requests[r].key in w.tables.records then MoveTo(w, r, Conflicted)
    else MoveTo(w, r, Holding(newApp))
  }

  /** Application, outbox message and record are committed together. */
  function CommitRequest(w: World, r: int): World {
    if r !in w.requests || !w.requests[r].phase.Holding? then w else
    var q := w.requests[r];
    var app := q.phase.app;
    var record := Record(app, q.hash);
    var t := w.tables.(
      records := w.tables.records[q.key := record],
      apps := w.tables.apps[app := Application(q.key, q.sealed, PENDING, None, None, w.clock)],
      outbox := w.tables.outbox + [Message(app, QUEUED)]);
    Serve(w, r, app, Created(app), CacheWrite(Created(app), record, |w.served|)).(tables := t)
  }

  /** After a conflict and a rollback the winner's record is read. */
  function ReadWinner(w: World, r: int): World {
    if !InPhase(w, r, Conflicted) then w
    else if w.requests[r].key !in w.tables.records then Serve(w, r, 0, Unresolved, Answered(Unresolved, |w.served|))
    else ServeRecord(w, r)
  }

  function WriteCache(cfg: Settings, w: World, r: int, up: bool): World {
    if r !in w.requests || !w.requests[r].phase.CacheWrite? then w else
    var p := w.requests[r].phase;
    var w' := MoveTo(w, r, Answered(p.reply, p.at));
    if up then w'.(cache := w.cache[w.requests[r].key := Cached(p.record, w.clock + cfg.cacheTtl)]) else w'
  }

  /** A crash or exception; an open transaction is rolled back. */
  function Abandon(w: World, r: int): World {
    if r !in w.requests then w
    else match w.requests[r].phase
      case Answered(_, _) => w
      case Abandoned(_) => w
      case CacheWrite(_, _, at) => MoveTo(w, r, Abandoned(Some(at)))
      case _ => MoveTo(w, r, Abandoned(None))
  }
}

/** `poll_outbox_once`: lock a batch, send each message, commit (worker/outbox_poller.py). */
module Outbox {
  import opened Schema
  import opened State

  predicate Eligible(m: Message) {
    m.status != PROCESSED
  }

  function LockedRows(w: World): set<nat> {
    set p, i | p in w.pollers && i in w.pollers[p].batch :: i
  }

  /** The oldest `limit` rows among the first `n` that are eligible and not locked. */
  function Oldest(outbox: seq<Message>, locked: set<nat>, limit: nat, n: nat): seq<nat>
    requires n <= |outbox|
  {
    if n == 0 then []
    else
      var older := Oldest(outbox, locked, limit, n - 1);
      if |older| < limit && Eligible(outbox[n - 1]) && n - 1 !in locked then older + [n - 1] else older
  }

  function Settled(m: Message, delivered: bool): Message {
    m.(status := if delivered then PROCESSED else FAILED)
  }

  /** Each row of the batch gets the status its send earned. */
  function Settle(outbox: seq<Message>, batch: seq<nat>, delivered: seq<bool>): seq<Message>
    requires |batch| == |delivered|
    decreases |batch|
  {
    if batch == [] then outbox
    else
      var n := |batch| - 1;
      var earlier := Settle(outbox, batch[..n], delivered[..n]);
      if batch[n] < |earlier| then earlier[batch[n] := Settled(earlier[batch[n]], delivered[n])] else earlier
  }

  function SelectBatch(w: World, p: int, limit: nat): World {
    if p in w.pollers then w
    else w.(pollers := w.pollers[p := Poller(Oldest(w.tables.outbox, LockedRows(w), limit, |w.tables.outbox|), [])])
  }

  /** One `send_task`; `accepted` tells whether the broker took it. */
  function SendNext(w: World, p: int, accepted: bool): World {
    if p !in w.pollers || |w.pollers[p].delivered| >= |w.pollers[p].batch| then w else
    var poller := w.pollers[p];
    var i := poller.batch[|poller.delivered|];
    if i >= |w.tables.outbox| then w else
    w.(pollers := w.pollers[p := poller.(delivered := poller.delivered + [accepted])],
       sent := if accepted then w.sent + [w.tables.outbox[i].app] else w.sent)
  }

  function CommitBatch(w: World, p: int): World {
    if p !in w.pollers || |w.pollers[p].delivered| != |w.pollers[p].batch| then w
    else w.(tables := w.tables.(outbox := Settle(w.tables.outbox, w.pollers[p].batch, w.pollers[p].delivered)),
            pollers := w.pollers - {p})
  }

  /** The locks go, the statuses stay as they were, what was sent stays sent. */
  function CrashPoller(w: World, p: int): World {
    w.(pollers := w.pollers - {p})
  }
}

/** `process_application` between its transactions (worker/tasks/process_application.py). */
module Processing {
  import opened Common
  import opened Decisions
  import opened Json
  import opened Providers
  import opened Schema
  import opened ServiceResults
  import opened StoredResults
  import Tx = Worker
  import opened State

  function Put(w: World, id: int, wk: Worker): World {
    w.(workers := w.workers[id := wk])
  }

  function Leave(w: World, id: int): World {
    w.(workers := w.workers - {id})
  }

  function Fail(wk: Worker, kind: ErrorKind): Worker {
    if wk.stage.Failed? then wk else wk.(stage := Failed(kind))
  }

  /** Any sent task can be handed to a worker, and handed out again. */
  function Deliver(w: World, id: int, app: AppId): World {
    if id in w.workers || app !in w.sent then w
    else Put(w, id, Worker(app, Delivered, None, map[], Loading, Loading, Loading))
  }

  /** The keys looked up before anything is fetched. */
  predicate Readable(user: Dict) {
    "monthly_income" in user && "pan" in user
  }

  function ClaimApplication(cfg: Settings, w: World, id: int): World {
    if id !in w.workers || !w.workers[id].stage.Delivered? then w else
    var wk := w.workers[id];
    var (t, outcome) := Tx.ClaimApp(cfg.h, w.tables, wk.app, w.clock, cfg.lockTimeout);
    match outcome
    case NoSuchApplication => Put(w, id, Fail(wk, SYSTEM_ERROR))
    case Undecipherable => Put(w, id, Fail(wk, SYSTEM_ERROR))
    case NotClaimed(_) => Leave(w, id)
    case Claimed(user) =>
      Put(w, id, wk.(stage := if Readable(user) then Gathering else Failed(SYSTEM_ERROR), claim := Some(|w.claims|),
                     user := user))
        .(tables := t, claims := w.claims + [Claim(wk.app, w.clock)])
  }

  /** The three fetches run side by side; one that fails does not stop the others before the error is marked. */
  predicate Fetching(w: World, id: int) {
    && id in w.workers && w.workers[id].claim.Some? && Readable(w.workers[id].user)
    && (w.workers[id].stage.Gathering? || w.workers[id].stage.Failed?)
  }

  function LoadExternal(w: World, id: int, s: Source): World {
    if !Fetching(w, id) || !SlotOf(w.workers[id], s).Loading? then w else
    var wk := w.workers[id];
    Put(w, id, WithSlot(wk, s, if (wk.app, s) in w.tables.external then Have(Rebuilt(w.tables.external[(wk.app, s)]))
                               else Calling))
  }

  /** The provider call comes back; post-processing may raise. */
  function Answer(cfg: Settings, w: World, id: int, s: Source, call: ResultValue): World {
    if !Fetching(w, id) || !SlotOf(w.workers[id], s).Calling? || !CallShape(call) then w else
    var wk := w.workers[id];
    match AfterCall(cfg.h, s, call, w.clock)
    case Ok(r) => Put(w, id, WithSlot(wk, s, Checking(r)))
    case Raised => Put(w, id, Fail(wk, SYSTEM_ERROR))
  }

  function CheckExternal(w: World, id: int, s: Source): World {
    if !Fetching(w, id) || !SlotOf(w.workers[id], s).Checking? then w else
    var wk := w.workers[id];
    Put(w, id, WithSlot(wk, s, if (wk.app, s) in w.tables.external then Have(Rebuilt(w.tables.external[(wk.app, s)]))
                               else Unstored(SlotOf(wk, s).answer)))
  }

  /** Another worker may have committed the row since the check: then the insert raises. */
  function InsertChecked(cfg: Settings, w: World, id: int, s: Source): World {
    if !Fetching(w, id) || !SlotOf(w.workers[id], s).Unstored? then w else
    var wk := w.workers[id];
    var r := SlotOf(wk, s).answer;
    match Tx.InsertExternal(cfg.h, w.tables, wk.app, s, r)
    case Some(t) => Put(w, id, WithSlot(wk, s, Have(r))).(tables := t)
    case None => Put(w, id, Fail(wk, SYSTEM_ERROR))
  }

  predicate ReadyToDecide(wk: Worker) {
    wk.stage.Gathering? && "monthly_income" in wk.user && wk.credit.Have? && wk.bank.Have? && wk.gst.Have?
  }

  function DecideApplication(cfg: Settings, w: World, id: int): World {
    if id !in w.workers || !ReadyToDecide(w.workers[id]) then w else
    var wk := w.workers[id];
    match ComputeDecision(cfg.h, wk.credit.result, wk.bank.result, wk.gst.result, Tx.DecisionUserData(wk.user),
                          cfg.threshold, cfg.rs)
    case Ok(out) => Put(w, id, wk.(stage := Decided(out)))
    case Raised => Put(w, id, Fail(wk, SYSTEM_ERROR))
  }

  function StoreResults(cfg: Settings, w: World, id: int): World {
    if id !in w.workers || !w.workers[id].stage.Decided? then w
    else Leave(w, id).(tables :=
      Tx.StoreDecision(cfg.h, w.tables, w.workers[id].app, w.workers[id].stage.out, w.clock))
  }

  /** The pipeline timeout, or an exception anywhere. */
  function Abort(w: World, id: int, kind: ErrorKind): World {
    if id !in w.workers then w else Put(w, id, Fail(w.workers[id], kind))
  }

  function MarkError(cfg: Settings, w: World, id: int): World {
    if id !in w.workers || !w.workers[id].stage.Failed? then w
    else Leave(w, id).(tables :=
      Tx.MarkManualReview(cfg.h, w.tables, w.workers[id].app, w.workers[id].stage.kind, w.clock))
  }
}

/** All actors together, one step at a time, in any order. */
module Machine {
  import opened Common
  import opened Json
  import opened Providers
  import opened Schema
  import opened ServiceResults
  import opened State
  import Intake
  import Outbox
  import Processing

  datatype Action =
    | Tick(ticks: nat)
    | Api(intake: IntakeAction)
    | Poll(poll: PollAction)
    | Work(id: int, work: WorkAction)

  datatype IntakeAction =
    | Arrive(r: int, key: string, hash: string, sealed: Option<Dict>)
    | ReadCache(r: int, up: bool)
    | ReadRecord(r: int)
    | InsertRecord(r: int, newApp: AppId)
    | CommitRequest(r: int)
    | ReadWinner(r: int)
    | WriteCache(r: int, up: bool)
    | Abandon(r: int)

  datatype PollAction =
    | SelectBatch(p: int, limit: nat)
    | SendNext(p: int, accepted: bool)
    | CommitBatch(p: int)
    | CrashPoller(p: int)

  datatype WorkAction =
    | Deliver(app: AppId)
    | ClaimApplication
    | LoadExternal(s: Source)
    | Answer(s: Source, call: ResultValue)
    | CheckExternal(s: Source)
    | InsertChecked(s: Source)
    | DecideApplication
    | StoreResults
    | Abort(kind: ErrorKind)
    | MarkError
    | Crash

  function IntakeStep(cfg: Settings, w: World, a: IntakeAction): World {
    match a
    case Arrive(r, key, hash, sealed) => Intake.Arrive(w, r, key, hash, sealed)
    case ReadCache(r, up) => Intake.ReadCache(w, r, up)
    case ReadRecord(r) => Intake.ReadRecord(w, r)
    case InsertRecord(r, newApp) => Intake.InsertRecord(w, r, newApp)
    case CommitRequest(r) => Intake.CommitRequest(w, r)
    case ReadWinner(r) => Intake.ReadWinner(w, r)
    case WriteCache(r, up) => Intake.WriteCache(cfg, w, r, up)
    case Abandon(r) => Intake.Abandon(w, r)
  }

  function PollStep(w: World, a: PollAction): World {
    match a
    case SelectBatch(p, limit) => Outbox.SelectBatch(w, p, limit)
    case SendNext(p, accepted) => Outbox.SendNext(w, p, accepted)
    case CommitBatch(p) => Outbox.CommitBatch(w, p)
    case CrashPoller(p) => Outbox.CrashPoller(w, p)
  }

  function WorkStep(cfg: Settings, w: World, id: int, a: WorkAction): World {
    match a
    case Deliver(app) => Processing.Deliver(w, id, app)
    case ClaimApplication => Processing.ClaimApplication(cfg, w, id)
    case LoadExternal(s) => Processing.LoadExternal(w, id, s)
    case Answer(s, call) => Processing.Answer(cfg, w, id, s, call)
    case CheckExternal(s) => Processing.CheckExternal(w, id, s)
    case InsertChecked(s) => Processing.InsertChecked(cfg, w, id, s)
    case DecideApplication => Processing.DecideApplication(cfg, w, id)
    case StoreResults => Processing.StoreResults(cfg, w, id)
    case Abort(kind) => Processing.Abort(w, id, kind)
    case MarkError => Processing.MarkError(cfg, w, id)
    case Crash => Processing.Leave(w, id)
  }

  /** One step; an action that is not enabled changes nothing. */
  function Step(cfg: Settings, w: World, a: Action): World {
    match a
    case Tick(ticks) => w.(clock := w.clock + ticks)
    case Api(intake) => IntakeStep(cfg, w, intake)
    case Poll(poll) => PollStep(w, poll)
    case Work(id, work) => WorkStep(cfg, w, id, work)
  }

  /** The world after a run; every sequence of actions is a run. */
  function Run(cfg: Settings, actions: seq<Action>): World {
    if actions == [] then EMPTY else Step(cfg, Run(cfg, actions[..|actions| - 1]), actions[|actions| - 1])
  }
}
