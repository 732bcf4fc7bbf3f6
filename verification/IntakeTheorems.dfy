/** What each kind of actor leaves alone. */
module Frames {
  import opened Machine
  import opened Providers
  import opened Schema
  import opened ServiceResults
  import opened State
  import Outbox
  import Processing

  /** Same applications, keys and sealed data. */
  ghost predicate SameIdentity(apps: map<AppId, Application>, apps': map<AppId, Application>) {
    && apps'.Keys == apps.Keys
    && forall app | app in apps :: apps'[app].key == apps[app].key && apps'[app].sealed == apps[app].sealed
  }

  ghost predicate WorkOnly(w: World, w': World) {
    && w' == w.(workers := w'.workers, claims := w'.claims,
                tables := w.tables.(apps := w'.tables.apps, external := w'.tables.external, audit := w'.tables.audit))
    && SameIdentity(w.tables.apps, w'.tables.apps)
  }

  lemma ClaimFrame(cfg: Settings, w: World, id: int)
    ensures WorkOnly(w, Processing.ClaimApplication(cfg, w, id))
  {
  }

  lemma ReadFrame(w: World, id: int, s: Source)
    ensures WorkOnly(w, Processing.LoadExternal(w, id, s))
    ensures WorkOnly(w, Processing.CheckExternal(w, id, s))
  {
  }

  lemma AnswerFrame(cfg: Settings, w: World, id: int, s: Source, call: ResultValue)
    ensures WorkOnly(w, Processing.Answer(cfg, w, id, s, call))
  {
  }

  lemma InsertFrame(cfg: Settings, w: World, id: int, s: Source)
    ensures WorkOnly(w, Processing.InsertChecked(cfg, w, id, s))
  {
  }

  lemma DecideFrame(cfg: Settings, w: World, id: int)
    ensures WorkOnly(w, Processing.DecideApplication(cfg, w, id))
  {
  }

  lemma StoreFrame(cfg: Settings, w: World, id: int)
    ensures WorkOnly(w, Processing.StoreResults(cfg, w, id))
  {
  }

  lemma MarkFrame(cfg: Settings, w: World, id: int)
    ensures WorkOnly(w, Processing.MarkError(cfg, w, id))
  {
  }

  /** Workers touch neither requests, pollers nor the identity of applications. */
  lemma WorkFrame(cfg: Settings, w: World, id: int, a: WorkAction)
    ensures WorkOnly(w, WorkStep(cfg, w, id, a))
  {
    match a
    case ClaimApplication => ClaimFrame(cfg, w, id);
    case DecideApplication => DecideFrame(cfg, w, id);
    case StoreResults => StoreFrame(cfg, w, id);
    case MarkError => MarkFrame(cfg, w, id);
    case Deliver(app) => assert WorkOnly(w, Processing.Deliver(w, id, app));
    case Abort(kind) => assert WorkOnly(w, Processing.Abort(w, id, kind));
    case Crash => assert WorkOnly(w, Processing.Leave(w, id));
    case LoadExternal(s) => ReadFrame(w, id, s);
    case CheckExternal(s) => ReadFrame(w, id, s);
    case Answer(s, call) => AnswerFrame(cfg, w, id, s, call);
    case InsertChecked(s) => InsertFrame(cfg, w, id, s);
  }

  lemma {:induction false} SettleKeepsApps(outbox: seq<Message>, batch: seq<nat>, delivered: seq<bool>)
    requires |batch| == |delivered|
    ensures var o := Outbox.Settle(outbox, batch, delivered);
            |o| == |outbox| && forall i | 0 <= i < |o| :: o[i].app == outbox[i].app
  {
    if batch != [] { SettleKeepsApps(outbox, batch[..|batch| - 1], delivered[..|batch| - 1]); }
  }

  /** Pollers change delivery statuses and the broker, nothing else. */
  lemma PollFrame(w: World, a: PollAction)
    ensures var w' := PollStep(w, a);
            && w' == w.(tables := w.tables.(outbox := w'.tables.outbox), sent := w'.sent, pollers := w'.pollers)
            && |w'.tables.outbox| == |w.tables.outbox|
            && forall i | 0 <= i < |w.tables.outbox| :: w'.tables.outbox[i].app == w.tables.outbox[i].app
  {
    if a.CommitBatch? && a.p in w.pollers && |w.pollers[a.p].delivered| == |w.pollers[a.p].batch| {
      SettleKeepsApps(w.tables.outbox, w.pollers[a.p].batch, w.pollers[a.p].delivered);
    }
  }

  /** Nobody but the requests is touched. */
  predicate RequestsOnly(w: World, w': World) {
    && w'.workers == w.workers && w'.pollers == w.pollers && w'.sent == w.sent && w'.claims == w.claims
    && w'.clock == w.clock && w'.tables.external == w.tables.external && w'.tables.audit == w.tables.audit
  }

  lemma SearchFrame(cfg: Settings, w: World, a: IntakeAction)
    requires a.Arrive? || a.ReadCache? || a.ReadRecord? || a.ReadWinner?
    ensures RequestsOnly(w, IntakeStep(cfg, w, a)) && IntakeStep(cfg, w, a).tables == w.tables
  {
  }

  lemma WriteFrame(cfg: Settings, w: World, a: IntakeAction)
    requires a.InsertRecord? || a.WriteCache? || a.Abandon?
    ensures RequestsOnly(w, IntakeStep(cfg, w, a)) && IntakeStep(cfg, w, a).tables == w.tables
  {
  }

  /** Requests add at most one application, PENDING and queued, and change no existing row. */
  lemma IntakeFrame(cfg: Settings, w: World, a: IntakeAction)
    ensures var w' := IntakeStep(cfg, w, a);
            && RequestsOnly(w, w')
            && (w'.tables == w.tables ||
                  (a.CommitRequest? && a.r in w.requests && w.requests[a.r].phase.Holding? &&
                   var app := w.requests[a.r].phase.app;
                   && w'.tables.apps == w.tables.apps[app := w'.tables.apps[app]]
                   && StandingOf(w'.tables.apps[app]) == NEW_STANDING
                   && w'.tables.outbox == w.tables.outbox + [Message(app, QUEUED)]))
  {
    if a.Arrive? || a.ReadCache? || a.ReadRecord? || a.ReadWinner? { SearchFrame(cfg, w, a); }
    else if !a.CommitRequest? { WriteFrame(cfg, w, a); }
  }
}

/** `apply_loan` under any interleaving refines an atomic map from keys to applications. */
module IntakeTheorems {
  import opened Common
  import opened Frames
  import opened Json
  import opened Machine
  import opened Schema
  import opened State
  import Intake

  // ----- the atomic specification -----

  type Ledger = map<string, Record>

  /** Absent key: insert. Same hash: replay the stored answer. Other hash: refuse. */
  function Admit(m: Ledger, key: string, hash: string, newApp: AppId): (Ledger, Reply) {
    if key !in m then (m[key := Record(newApp, hash)], Created(newApp))
    else if m[key].hash == hash then (m, Replayed(m[key].app))
    else (m, Mismatch)
  }

  function LedgerAfter(served: seq<Served>): Ledger {
    if served == [] then map[]
    else
      var s := served[|served| - 1];
      Admit(LedgerAfter(served[..|served| - 1]), s.key, s.hash, s.newApp).0
  }

  /** Every reply is the one the specification gives at that point. */
  predicate Legal(served: seq<Served>) {
    served == [] ||
    var s := served[|served| - 1];
    && Legal(served[..|served| - 1])
    && s.reply == Admit(LedgerAfter(served[..|served| - 1]), s.key, s.hash, s.newApp).1
  }

  function ServedAt(p: Phase): Option<nat> {
    match p
    case CacheWrite(_, _, at) => Some(at)
    case Answered(_, at) => Some(at)
    case Abandoned(at) => at
    case _ => None
  }

  // ----- the invariant -----

  ghost predicate RecordsLinked(t: Tables) {
    && (forall k | k in t.records :: t.records[k].app in t.apps && t.apps[t.records[k].app].key == k)
    && (forall app | app in t.apps :: t.apps[app].key in t.records && t.records[t.apps[app].key].app == app)
  }

  ghost predicate IsQueued(outbox: seq<Message>, app: AppId) {
    exists i :: 0 <= i < |outbox| && outbox[i].app == app
  }

  ghost predicate OutboxLinked(t: Tables) {
    && (forall i | 0 <= i < |t.outbox| :: t.outbox[i].app in t.apps)
    && (forall i, j | 0 <= i < j < |t.outbox| :: t.outbox[i].app != t.outbox[j].app)
    && (forall app | app in t.apps :: IsQueued(t.outbox, app))
  }

  ghost predicate CacheDurable(w: World) {
    forall k | k in w.cache :: k in w.tables.records && w.cache[k].record == w.tables.records[k]
  }

  ghost predicate RequestOk(w: World, r: int)
    requires r in w.requests
  {
    var q := w.requests[r];
    && (q.phase.Holding? ==> q.phase.app !in w.tables.apps && q.key !in w.tables.records)
    && (q.phase.Conflicted? ==> q.key in w.tables.records)
    && (q.phase.CacheWrite? ==> q.key in w.tables.records && w.tables.records[q.key] == q.phase.record)
    && (ServedAt(q.phase).Some? ==>
          var at := ServedAt(q.phase).value;
          && at < |w.served| && w.served[at].request == r && w.served[at].key == q.key && w.served[at].hash == q.hash
          && (q.phase.CacheWrite? || q.phase.Answered? ==> w.served[at].reply == q.phase.reply))
  }

  ghost predicate RequestsOk(w: World) {
    forall r | r in w.requests :: RequestOk(w, r)
  }

  ghost predicate HoldersApart(requests: map<int, Request>) {
    forall q, r | q in requests && r in requests && q != r
                  && requests[q].phase.Holding? && requests[r].phase.Holding? ::
      requests[q].key != requests[r].key && requests[q].phase.app != requests[r].phase.app
  }

  ghost predicate HistoryOk(w: World) {
    && Legal(w.served)
    && LedgerAfter(w.served) == w.tables.records
    && forall i | 0 <= i < |w.served| ::
         w.served[i].request in w.requests && ServedAt(w.requests[w.served[i].request].phase) == Some(i)
  }

  ghost predicate IntakeInv(w: World) {
    && RecordsLinked(w.tables)
    && OutboxLinked(w.tables)
    && CacheDurable(w)
    && RequestsOk(w)
    && HoldersApart(w.requests)
    && HistoryOk(w)
  }

  // ----- it is kept -----

  lemma LegalAppend(served: seq<Served>, s: Served)
    ensures LedgerAfter(served + [s]) == Admit(LedgerAfter(served), s.key, s.hash, s.newApp).0
    ensures Legal(served + [s]) <==> Legal(served) && s.reply == Admit(LedgerAfter(served), s.key, s.hash, s.newApp).1
  {
    assert (served + [s])[..|served|] == served;
  }

  /** A request that takes effect now. */
  lemma ServeKeepsHistory(w: World, w': World, r: int, newApp: AppId, reply: Reply, phase: Phase)
    requires r in w.requests && ServedAt(w.requests[r].phase).None? && ServedAt(phase) == Some(|w.served|)
    requires HistoryOk(w)
    requires Admit(w.tables.records, w.requests[r].key, w.requests[r].hash, newApp) == (w'.tables.records, reply)
    requires w'.served == w.served + [Served(r, w.requests[r].key, w.requests[r].hash, newApp, reply)]
    requires w'.requests == w.requests[r := w.requests[r].(phase := phase)]
    ensures HistoryOk(w')
  {
    LegalAppend(w.served, w'.served[|w.served|]);
    forall i | 0 <= i < |w'.served|
      ensures w'.served[i].request in w'.requests && ServedAt(w'.requests[w'.served[i].request].phase) == Some(i)
    {
      if i < |w.served| { assert w'.served[i] == w.served[i]; }
    }
  }

  /** A request that moves without taking effect, or one that arrives. */
  lemma MoveKeepsHistory(w: World, w': World, r: int, q: Request)
    requires HistoryOk(w)
    requires w'.tables.records == w.tables.records && w'.served == w.served && w'.requests == w.requests[r := q]
    requires if r in w.requests then ServedAt(q.phase) == ServedAt(w.requests[r].phase) else ServedAt(q.phase).None?
    ensures HistoryOk(w')
  {
  }

  /** What the other requests know stays true when records and history only grow. */
  lemma OthersStayOk(w: World, w': World, r: int)
    requires RequestsOk(w)
    requires forall q | q in w'.requests && q != r :: q in w.requests && w'.requests[q] == w.requests[q]
    requires forall k | k in w.tables.records :: k in w'.tables.records && w'.tables.records[k] == w.tables.records[k]
    requires |w.served| <= |w'.served| && forall i | 0 <= i < |w.served| :: w'.served[i] == w.served[i]
    requires forall q | q in w'.requests && q != r && w'.requests[q].phase.Holding? ::
               w'.requests[q].phase.app !in w'.tables.apps && w'.requests[q].key !in w'.tables.records
    requires r in w'.requests ==> RequestOk(w', r)
    ensures RequestsOk(w')
  {
    forall q | q in w'.requests && q != r
      ensures RequestOk(w', q)
    {
      assert RequestOk(w, q);
    }
  }

  lemma HoldersStayFree(w: World, r: int)
    requires RequestsOk(w)
    ensures forall q | q in w.requests && q != r && w.requests[q].phase.Holding? ::
              w.requests[q].phase.app !in w.tables.apps && w.requests[q].key !in w.tables.records
  {
    forall q | q in w.requests && q != r && w.requests[q].phase.Holding?
      ensures w.requests[q].phase.app !in w.tables.apps && w.requests[q].key !in w.tables.records
    {
      assert RequestOk(w, q);
    }
  }

  /** Request `r` changes to `q`, tables and cache stay, the history may gain its entry. */
  lemma RequestChanges(w: World, w': World, r: int, q: Request)
    requires IntakeInv(w)
    requires w'.tables == w.tables && w'.requests == w.requests[r := q] && CacheDurable(w')
    requires |w.served| <= |w'.served| && forall i | 0 <= i < |w.served| :: w'.served[i] == w.served[i]
    requires RequestOk(w', r) && HistoryOk(w') && HoldersApart(w'.requests)
    ensures IntakeInv(w')
  {
    HoldersStayFree(w, r);
    OthersStayOk(w, w', r);
  }

  lemma NoHolder(requests: map<int, Request>, r: int, q: Request)
    requires HoldersApart(requests) && !q.phase.Holding?
    ensures HoldersApart(requests[r := q])
  {
  }

  lemma ReadKeeps(w: World, r: int)
    requires IntakeInv(w) && r in w.requests && ServedAt(w.requests[r].phase).None?
    requires w.requests[r].key in w.tables.records
    ensures IntakeInv(Intake.ServeRecord(w, r))
  {
    var w' := Intake.ServeRecord(w, r);
    var reply := Intake.ReplyTo(w.tables.records[w.requests[r].key], w.requests[r].hash);
    ServeKeepsHistory(w, w', r, 0, reply, w'.requests[r].phase);
    NoHolder(w.requests, r, w'.requests[r]);
    RequestChanges(w, w', r, w'.requests[r]);
  }

  /** A step that only moves request `r` to a phase in which it holds nothing. */
  lemma MoveKeeps(w: World, w': World, r: int, q: Request)
    requires IntakeInv(w) && w' == w.(requests := w.requests[r := q])
    requires if r in w.requests then ServedAt(q.phase) == ServedAt(w.requests[r].phase) else ServedAt(q.phase).None?
    requires !q.phase.Holding? && RequestOk(w', r)
    ensures IntakeInv(w')
  {
    MoveKeepsHistory(w, w', r, q);
    NoHolder(w.requests, r, q);
    RequestChanges(w, w', r, q);
  }

  lemma CacheHitKeeps(w: World, r: int)
    requires IntakeInv(w) && Intake.InPhase(w, r, CacheLookup) && w.requests[r].key in w.cache
    requires w.clock < w.cache[w.requests[r].key].expires
    ensures IntakeInv(Intake.ReadCache(w, r, true))
  {
    var w' := Intake.ReadCache(w, r, true);
    var q := w.requests[r];
    var q' := w'.requests[r];
    assert w.cache[q.key].record == w.tables.records[q.key];
    ServeKeepsHistory(w, w', r, 0, Intake.ReplyTo(w.cache[q.key].record, q.hash), q'.phase);
    NoHolder(w.requests, r, q');
    assert RequestOk(w', r);
    RequestChanges(w, w', r, q');
  }

  /** The insert takes the key and the uuid only if no open transaction has them. */
  lemma HolderIsAlone(w: World, r: int, newApp: AppId)
    requires HoldersApart(w.requests) && Intake.InPhase(w, r, Inserting)
    requires InPhaseHolding(Intake.InsertRecord(w, r, newApp), r)
    ensures HoldersApart(Intake.InsertRecord(w, r, newApp).requests)
  {
    forall q | q in w.requests && q != r && w.requests[q].phase.Holding?
      ensures w.requests[q].key != w.requests[r].key && w.requests[q].phase.app != newApp
    {
      assert !Intake.HoldsKey(w, q, w.requests[r].key) && !Intake.HoldsApp(w, q, newApp);
    }
  }

  predicate InPhaseHolding(w: World, r: int) {
    r in w.requests && w.requests[r].phase.Holding?
  }

  lemma InsertKeeps(w: World, r: int, newApp: AppId)
    requires IntakeInv(w) && Intake.InPhase(w, r, Inserting)
    ensures IntakeInv(Intake.InsertRecord(w, r, newApp))
  {
    var w' := Intake.InsertRecord(w, r, newApp);
    if InPhaseHolding(w', r) {
      HolderIsAlone(w, r, newApp);
      HoldKeeps(w, r, newApp);
    } else if w'.requests[r].phase.Conflicted? {
      MoveKeeps(w, w', r, w'.requests[r]);
    }
  }

  lemma HoldKeeps(w: World, r: int, newApp: AppId)
    requires IntakeInv(w) && Intake.InPhase(w, r, Inserting)
    requires newApp !in w.tables.apps && w.requests[r].key !in w.tables.records
    requires HoldersApart(w.requests[r := w.requests[r].(phase := Holding(newApp))])
    ensures IntakeInv(Intake.MoveTo(w, r, Holding(newApp)))
  {
    var w' := Intake.MoveTo(w, r, Holding(newApp));
    MoveKeepsHistory(w, w', r, w'.requests[r]);
    assert RequestOk(w', r);
    RequestChanges(w, w', r, w'.requests[r]);
  }

  lemma CommitLinks(t: Tables, t': Tables, key: string, record: Record, a: Application)
    requires RecordsLinked(t) && OutboxLinked(t) && record.app !in t.apps && key !in t.records && a.key == key
    requires t' == t.(records := t.records[key := record], apps := t.apps[record.app := a],
                      outbox := t.outbox + [Message(record.app, QUEUED)])
    ensures RecordsLinked(t') && OutboxLinked(t')
  {
    forall app | app in t'.apps
      ensures IsQueued(t'.outbox, app)
    {
      if app == record.app {
        assert t'.outbox[|t.outbox|].app == app;
      } else {
        assert IsQueued(t.outbox, app);
        var i :| 0 <= i < |t.outbox| && t.outbox[i].app == app;
        assert t'.outbox[i].app == app;
      }
    }
  }

  lemma CommitKeeps(w: World, r: int)
    requires IntakeInv(w) && r in w.requests && w.requests[r].phase.Holding?
    ensures IntakeInv(Intake.CommitRequest(w, r))
  {
    var w' := Intake.CommitRequest(w, r);
    var q := w.requests[r];
    var app := q.phase.app;
    assert RequestOk(w, r);
    CommitLinks(w.tables, w'.tables, q.key, Record(app, q.hash), w'.tables.apps[app]);
    ServeKeepsHistory(w, w', r, app, Created(app), w'.requests[r].phase);
    NoHolder(w.requests, r, w'.requests[r]);
    HoldersStayFree(w, r);
    OthersStayOk(w, w', r);
  }

  lemma WriteKeeps(cfg: Settings, w: World, r: int, up: bool)
    requires IntakeInv(w) && r in w.requests && w.requests[r].phase.CacheWrite?
    ensures IntakeInv(Intake.WriteCache(cfg, w, r, up))
  {
    var w' := Intake.WriteCache(cfg, w, r, up);
    assert RequestOk(w, r);
    MoveKeepsHistory(w, w', r, w'.requests[r]);
    NoHolder(w.requests, r, w'.requests[r]);
    RequestChanges(w, w', r, w'.requests[r]);
  }

  lemma AbandonKeeps(w: World, r: int)
    requires IntakeInv(w) && r in w.requests && !w.requests[r].phase.Answered? && !w.requests[r].phase.Abandoned?
    ensures IntakeInv(Intake.Abandon(w, r))
  {
    assert RequestOk(w, r);
    var w' := Intake.Abandon(w, r);
    MoveKeeps(w, w', r, w'.requests[r]);
  }

  lemma LookupKeeps(w: World, r: int, up: bool)
    requires IntakeInv(w) && Intake.InPhase(w, r, CacheLookup)
    ensures IntakeInv(Intake.ReadCache(w, r, up))
  {
    var w', key := Intake.ReadCache(w, r, up), w.requests[r].key;
    if up && key in w.cache && w.clock < w.cache[key].expires { CacheHitKeeps(w, r); }
    else { MoveKeeps(w, w', r, w'.requests[r]); }
  }

  lemma RecordLookupKeeps(w: World, r: int)
    requires IntakeInv(w) && Intake.InPhase(w, r, RecordLookup)
    ensures IntakeInv(Intake.ReadRecord(w, r))
  {
    var w' := Intake.ReadRecord(w, r);
    if w.requests[r].key in w.tables.records { ReadKeeps(w, r); } else { MoveKeeps(w, w', r, w'.requests[r]); }
  }

  lemma WinnerKeeps(w: World, r: int)
    requires IntakeInv(w) && Intake.InPhase(w, r, Conflicted)
    ensures IntakeInv(Intake.ReadWinner(w, r))
  {
    assert RequestOk(w, r);
    ReadKeeps(w, r);
  }

  lemma ArriveKeeps(w: World, r: int, key: string, hash: string, sealed: Option<Dict>)
    requires IntakeInv(w) && r !in w.requests
    ensures IntakeInv(Intake.Arrive(w, r, key, hash, sealed))
  {
    var w' := Intake.Arrive(w, r, key, hash, sealed);
    MoveKeeps(w, w', r, w'.requests[r]);
  }

  lemma SearchKeeps(cfg: Settings, w: World, a: IntakeAction)
    requires IntakeInv(w) && (a.Arrive? || a.ReadCache? || a.ReadRecord? || a.ReadWinner?)
    ensures IntakeInv(IntakeStep(cfg, w, a))
  {
    match a
    case Arrive(r, key, hash, sealed) => if r !in w.requests { ArriveKeeps(w, r, key, hash, sealed); }
    case ReadCache(r, up) => if Intake.InPhase(w, r, CacheLookup) { LookupKeeps(w, r, up); }
    case ReadRecord(r) => if Intake.InPhase(w, r, RecordLookup) { RecordLookupKeeps(w, r); }
    case ReadWinner(r) => if Intake.InPhase(w, r, Conflicted) { WinnerKeeps(w, r); }
  }

  lemma IntakeStepKeeps(cfg: Settings, w: World, a: IntakeAction)
    requires IntakeInv(w)
    ensures IntakeInv(IntakeStep(cfg, w, a))
  {
    match a
    case InsertRecord(r, newApp) => if Intake.InPhase(w, r, Inserting) { InsertKeeps(w, r, newApp); }
    case CommitRequest(r) => if r in w.requests && w.requests[r].phase.Holding? { CommitKeeps(w, r); }
    case WriteCache(r, up) => if r in w.requests && w.requests[r].phase.CacheWrite? { WriteKeeps(cfg, w, r, up); }
    case Abandon(r) =>
      if r in w.requests && !w.requests[r].phase.Answered? && !w.requests[r].phase.Abandoned? { AbandonKeeps(w, r); }
    case _ => SearchKeeps(cfg, w, a);
  }

  /** Steps that leave requests, cache and the identity of rows alone keep the invariant. */
  lemma FramedKeeps(w: World, w': World)
    requires IntakeInv(w)
    requires w'.requests == w.requests && w'.served == w.served && w'.cache == w.cache
    requires w'.tables.records == w.tables.records && SameIdentity(w.tables.apps, w'.tables.apps)
    requires |w'.tables.outbox| == |w.tables.outbox|
    requires forall i | 0 <= i < |w.tables.outbox| :: w'.tables.outbox[i].app == w.tables.outbox[i].app
    ensures IntakeInv(w')
  {
    LinksFramed(w.tables, w'.tables);
    forall r | r in w'.requests ensures RequestOk(w', r) { assert RequestOk(w, r); }
  }

  lemma LinksFramed(t: Tables, t': Tables)
    requires RecordsLinked(t) && OutboxLinked(t)
    requires t'.records == t.records && SameIdentity(t.apps, t'.apps) && |t'.outbox| == |t.outbox|
    requires forall i | 0 <= i < |t.outbox| :: t'.outbox[i].app == t.outbox[i].app
    ensures RecordsLinked(t') && OutboxLinked(t')
  {
    forall app | app in t'.apps
      ensures IsQueued(t'.outbox, app)
    {
      assert IsQueued(t.outbox, app);
      var i :| 0 <= i < |t.outbox| && t.outbox[i].app == app;
      assert t'.outbox[i].app == app;
    }
  }

  lemma IntakeInvKept(cfg: Settings, w: World, a: Action)
    requires IntakeInv(w)
    ensures IntakeInv(Step(cfg, w, a))
  {
    match a
    case Tick(_) => FramedKeeps(w, Step(cfg, w, a));
    case Api(intake) => IntakeStepKeeps(cfg, w, intake);
    case Poll(poll) =>
      PollFrame(w, poll);
      FramedKeeps(w, Step(cfg, w, a));
    case Work(id, work) =>
      WorkFrame(cfg, w, id, work);
      FramedKeeps(w, Step(cfg, w, a));
  }

  lemma {:induction false} IntakeInvHolds(cfg: Settings, actions: seq<Action>)
    ensures IntakeInv(Run(cfg, actions))
  {
    if actions != [] {
      IntakeInvHolds(cfg, actions[..|actions| - 1]);
      IntakeInvKept(cfg, Run(cfg, actions[..|actions| - 1]), actions[|actions| - 1]);
    }
  }

  // ----- the theorems -----

  /**
   Every run is linearizable: `served` is a legal sequential history of the specification, it leaves exactly the
   committed records, and every answer given is the answer its request got in that history, once.
   */
  lemma {:induction false} IntakeLinearizes(cfg: Settings, actions: seq<Action>)
    ensures var w := Run(cfg, actions);
            && Legal(w.served)
            && LedgerAfter(w.served) == w.tables.records
            && (forall i, j | 0 <= i < j < |w.served| :: w.served[i].request != w.served[j].request)
            && forall r | r in w.requests && w.requests[r].phase.Answered? ::
                 var at := w.requests[r].phase.at;
                 at < |w.served| && w.served[at].request == r && w.served[at].key == w.requests[r].key
                 && w.served[at].hash == w.requests[r].hash && w.served[at].reply == w.requests[r].phase.reply
  {
    IntakeInvHolds(cfg, actions);
    var w := Run(cfg, actions);
    forall r | r in w.requests && w.requests[r].phase.Answered?
      ensures var at := w.requests[r].phase.at;
              at < |w.served| && w.served[at].request == r && w.served[at].key == w.requests[r].key
              && w.served[at].hash == w.requests[r].hash && w.served[at].reply == w.requests[r].phase.reply
    {
      assert RequestOk(w, r);
    }
  }

  /** Request `r`, which had not taken effect, takes effect between `w` and `w'`. */
  ghost predicate TakesEffect(w: World, w': World, r: int) {
    && |w'.served| == |w.served| + 1 && w'.served[..|w.served|] == w.served && w'.served[|w.served|].request == r
    && r in w.requests && ServedAt(w.requests[r].phase).None?
    && r in w'.requests && ServedAt(w'.requests[r].phase) == Some(|w.served|)
  }

  lemma ServingTakesEffect(w: World, r: int, newApp: AppId, reply: Reply, phase: Phase)
    requires r in w.requests && ServedAt(w.requests[r].phase).None? && ServedAt(phase) == Some(|w.served|)
    ensures TakesEffect(w, Intake.Serve(w, r, newApp, reply, phase), r)
  {
  }

  lemma ReadingTakesEffect(w: World, r: int)
    requires r in w.requests && ServedAt(w.requests[r].phase).None? && w.requests[r].key in w.tables.records
    ensures TakesEffect(w, Intake.ServeRecord(w, r), r)
  {
    var record := w.tables.records[w.requests[r].key];
    var reply := Intake.ReplyTo(record, w.requests[r].hash);
    ServingTakesEffect(w, r, 0, reply, Intake.ServeRecord(w, r).requests[r].phase);
  }

  lemma IntakeStepTakesEffect(cfg: Settings, w: World, a: IntakeAction)
    requires IntakeStep(cfg, w, a).served != w.served
    ensures TakesEffect(w, IntakeStep(cfg, w, a), a.r)
  {
    match a
    case ReadRecord(r) => ReadingTakesEffect(w, r);
    case ReadWinner(r) => if w.requests[r].key in w.tables.records { ReadingTakesEffect(w, r); }
    case CommitRequest(r) =>
      var app := w.requests[r].phase.app;
      ServingTakesEffect(w, r, app, Created(app), Intake.CommitRequest(w, r).requests[r].phase);
    case _ =>
  }

  predicate OthersStand(w: World, w': World, r: int) {
    forall q | q in w.requests && q != r :: q in w'.requests && w'.requests[q] == w.requests[q]
  }

  lemma SearchLeavesOthers(cfg: Settings, w: World, a: IntakeAction)
    requires a.Arrive? || a.ReadCache? || a.ReadRecord? || a.ReadWinner?
    ensures OthersStand(w, IntakeStep(cfg, w, a), a.r)
  {
  }

  lemma WriteLeavesOthers(cfg: Settings, w: World, a: IntakeAction)
    requires a.InsertRecord? || a.CommitRequest? || a.WriteCache? || a.Abandon?
    ensures OthersStand(w, IntakeStep(cfg, w, a), a.r)
  {
  }

  lemma IntakeStepServes(cfg: Settings, w: World, a: IntakeAction)
    ensures var w' := IntakeStep(cfg, w, a);
            (w'.served != w.served ==> TakesEffect(w, w', a.r)) && OthersStand(w, w', a.r)
  {
    if IntakeStep(cfg, w, a).served != w.served { IntakeStepTakesEffect(cfg, w, a); }
    if a.Arrive? || a.ReadCache? || a.ReadRecord? || a.ReadWinner? { SearchLeavesOthers(cfg, w, a); }
    else { WriteLeavesOthers(cfg, w, a); }
  }

  /**
   Whoever takes whatever step, history grows only when a request takes effect, by a step of its own, once, after it
   arrived and before it is answered; and a request changes only by its own steps.
   */
  lemma LinearizationPoint(cfg: Settings, w: World, a: Action)
    ensures var w' := Step(cfg, w, a);
            if a.Api? then (w'.served != w.served ==> TakesEffect(w, w', a.intake.r)) && OthersStand(w, w', a.intake.r)
            else w'.served == w.served && w'.requests == w.requests
  {
    match a
    case Work(id, work) => WorkFrame(cfg, w, id, work);
    case Poll(poll) => PollFrame(w, poll);
    case Tick(_) =>
    case Api(intake) => IntakeStepServes(cfg, w, intake);
  }

  lemma {:induction false} RecordsStay(served: seq<Served>, i: nat)
    requires Legal(served) && i < |served|
    ensures served[i].reply.Created? || served[i].reply.Replayed? ==>
              served[i].key in LedgerAfter(served)
              && LedgerAfter(served)[served[i].key] == Record(served[i].reply.app, served[i].hash)
    ensures served[i].reply.Created? ==> served[i].key !in LedgerAfter(served[..i])
    ensures served[i].reply != Unresolved
    ensures forall k | k in LedgerAfter(served[..i]) ::
              k in LedgerAfter(served) && LedgerAfter(served)[k] == LedgerAfter(served[..i])[k]
  {
    var n := |served| - 1;
    if i < n {
      RecordsStay(served[..n], i);
      assert served[..n][..i] == served[..i];
    }
  }

  /**
   A key is created at most once, all its successful answers name one application and belong to one payload hash,
   and the branch for an unresolved conflict is never taken.
   */
  lemma {:induction false} OneApplicationPerKey(cfg: Settings, actions: seq<Action>, i: nat, j: nat)
    requires i < j < |Run(cfg, actions).served|
    requires Run(cfg, actions).served[i].key == Run(cfg, actions).served[j].key
    ensures var s := Run(cfg, actions).served;
            && !s[j].reply.Created?
            && s[i].reply != Unresolved && s[j].reply != Unresolved
            && (s[i].reply != Mismatch && s[j].reply != Mismatch ==>
                  s[i].reply.app == s[j].reply.app && s[i].hash == s[j].hash)
  {
    IntakeInvHolds(cfg, actions);
    var s := Run(cfg, actions).served;
    RecordsStay(s, i);
    RecordsStay(s, j);
    KeyStaysPresent(s, i, j);
  }

  lemma KeyStaysPresent(served: seq<Served>, i: nat, j: nat)
    requires i < j <= |served|
    ensures served[i].key in LedgerAfter(served[..j])
  {
    KeyPresentAfter(served[..i + 1]);
    assert served[..i + 1][i] == served[i];
    LedgerGrows(served, i + 1, j);
  }

  lemma KeyPresentAfter(served: seq<Served>)
    requires served != []
    ensures served[|served| - 1].key in LedgerAfter(served)
  {
  }

  lemma {:induction false} LedgerGrows(served: seq<Served>, m: nat, n: nat)
    requires m <= n <= |served|
    ensures LedgerAfter(served[..m]).Keys <= LedgerAfter(served[..n]).Keys
    decreases n - m
  {
    if m < n {
      LedgerGrows(served, m, n - 1);
      assert served[..n][..n - 1] == served[..n - 1];
    }
  }

  /** Committed records, applications and outbox rows are in bijection, and every cached value is the durable record. */
  lemma {:induction false} CommittedTogether(cfg: Settings, actions: seq<Action>)
    ensures var w := Run(cfg, actions); RecordsLinked(w.tables) && OutboxLinked(w.tables) && CacheDurable(w)
  {
    IntakeInvHolds(cfg, actions);
  }
}
