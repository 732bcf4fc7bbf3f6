/**
 `apply_loan` as the procedure it is: rows are added to the open transaction, then committed together or rolled back
 (api/routes/applications.py). One call, overtaken by another request or not, does what the steps of Intake do and
 refines the atomic map of IntakeTheorems.
 */
module ApplyLoan {
  import opened Common
  import opened IntakeTheorems
  import opened Json
  import opened Schema
  import opened State
  import Intake

  /** Another request for the same key, which commits after this one has looked and before it inserts. */
  datatype Rival = Rival(app: AppId, hash: string, sealed: Option<Dict>)

  /** `newApp` is the uuid drawn for the application; the cache may be down for the read and for the write. */
  datatype Call = Call(key: string, hash: string, sealed: Option<Dict>, newApp: AppId,
                       rival: Option<Rival>, readUp: bool, writeUp: bool)

  datatype Outcome = Outcome(tables: Tables, cache: map<string, Cached>, reply: Reply)

  // ----- the whole call -----

  predicate CacheHit(w: World, c: Call) {
    c.readUp && c.key in w.cache && w.clock < w.cache[c.key].expires
  }

  function RowsAdded(t: Tables, key: string, app: AppId, hash: string, sealed: Option<Dict>, now: int): Tables {
    t.(records := t.records[key := Record(app, hash)],
       apps := t.apps[app := Application(key, sealed, PENDING, None, None, now)],
       outbox := t.outbox + [Message(app, QUEUED)])
  }

  function CacheAfter(cfg: Settings, w: World, c: Call, record: Record): map<string, Cached> {
    if c.writeUp then w.cache[c.key := Cached(record, w.clock + cfg.cacheTtl)] else w.cache
  }

  function FromRecord(cfg: Settings, w: World, c: Call, t: Tables): Outcome
    requires c.key in t.records
  {
    var record := t.records[c.key];
    var reply := Intake.ReplyTo(record, c.hash);
    Outcome(t, if reply.Mismatch? then w.cache else CacheAfter(cfg, w, c, record), reply)
  }

  function Called(cfg: Settings, w: World, c: Call): Outcome {
    if CacheHit(w, c) then Outcome(w.tables, w.cache, Intake.ReplyTo(w.cache[c.key].record, c.hash))
    else if c.key in w.tables.records then FromRecord(cfg, w, c, w.tables)
    else match c.rival
      case Some(rival) =>
        FromRecord(cfg, w, c, RowsAdded(w.tables, c.key, rival.app, rival.hash, rival.sealed, w.clock))
      case None =>
        Outcome(RowsAdded(w.tables, c.key, c.newApp, c.hash, c.sealed, w.clock),
                CacheAfter(cfg, w, c, Record(c.newApp, c.hash)), Created(c.newApp))
  }

  ghost predicate Sound(w: World) {
    RecordsLinked(w.tables) && OutboxLinked(w.tables) && CacheDurable(w)
  }

  /** A uuid is new. */
  predicate FreshIds(t: Tables, c: Call) {
    c.newApp !in t.apps && (c.rival.Some? ==> c.rival.value.app !in t.apps && c.rival.value.app != c.newApp)
  }

  lemma RowsStayLinked(t: Tables, key: string, app: AppId, hash: string, sealed: Option<Dict>, now: int)
    requires RecordsLinked(t) && OutboxLinked(t) && app !in t.apps && key !in t.records
    ensures var t' := RowsAdded(t, key, app, hash, sealed, now); RecordsLinked(t') && OutboxLinked(t')
  {
    CommitLinks(t, RowsAdded(t, key, app, hash, sealed, now), key, Record(app, hash),
                Application(key, sealed, PENDING, None, None, now));
  }

  lemma CacheStaysTrue(cfg: Settings, w: World, c: Call, t: Tables)
    requires CacheDurable(w) && c.key in t.records
    requires forall k | k in w.tables.records :: k in t.records && t.records[k] == w.tables.records[k]
    ensures CacheDurable(w.(tables := t))
    ensures CacheDurable(w.(tables := t, cache := CacheAfter(cfg, w, c, t.records[c.key])))
  {
  }

  /** The records as the call finds them when it comes to insert. */
  function Overtaking(m: Ledger, c: Call): Ledger {
    if c.rival.Some? && c.key !in m then m[c.key := Record(c.rival.value.app, c.rival.value.hash)] else m
  }

  /** The call answers as the atomic map does, at the moment after the rival if there was one. */
  lemma CallRefinesMap(cfg: Settings, w: World, c: Call)
    requires CacheDurable(w)
    ensures var o := Called(cfg, w, c);
            (o.tables.records, o.reply) == Admit(Overtaking(w.tables.records, c), c.key, c.hash, c.newApp)
  {
  }

  /** The call keeps records, applications and messages in bijection and the cache true to the records. */
  lemma CallStaysSound(cfg: Settings, w: World, c: Call)
    requires Sound(w) && FreshIds(w.tables, c)
    ensures var o := Called(cfg, w, c); Sound(w.(tables := o.tables, cache := o.cache))
  {
    TablesStayLinked(cfg, w, c);
    CacheAfterCall(cfg, w, c);
  }

  lemma TablesStayLinked(cfg: Settings, w: World, c: Call)
    requires RecordsLinked(w.tables) && OutboxLinked(w.tables) && CacheDurable(w) && FreshIds(w.tables, c)
    ensures var t := Called(cfg, w, c).tables; RecordsLinked(t) && OutboxLinked(t)
  {
    if c.key !in w.tables.records {
      match c.rival
      case Some(rival) => RowsStayLinked(w.tables, c.key, rival.app, rival.hash, rival.sealed, w.clock);
      case None => RowsStayLinked(w.tables, c.key, c.newApp, c.hash, c.sealed, w.clock);
    }
  }

  lemma CacheAfterCall(cfg: Settings, w: World, c: Call)
    requires CacheDurable(w)
    ensures var o := Called(cfg, w, c); CacheDurable(w.(tables := o.tables, cache := o.cache))
  {
    CacheStaysTrue(cfg, w, c, Called(cfg, w, c).tables);
  }

  // ----- the same call, step by step -----

  function Asking(w: World, c: Call, phase: Phase): World {
    w.(requests := map[0 := Request(c.key, c.hash, c.sealed, phase)])
  }

  function Overtaken(w: World, c: Call): World {
    if c.rival.None? || !Intake.InPhase(w, 0, Inserting) then w
    else w.(tables := RowsAdded(w.tables, c.key, c.rival.value.app, c.rival.value.hash, c.rival.value.sealed, w.clock))
  }

  /** Request 0 taken through the steps of Intake; a step that is not its next one does nothing. */
  function Looked(w: World, c: Call): World {
    Intake.ReadRecord(Intake.ReadCache(Intake.Arrive(w, 0, c.key, c.hash, c.sealed), 0, c.readUp), 0)
  }

  function Inserted(w: World, c: Call): World {
    Intake.ReadWinner(Intake.CommitRequest(Intake.InsertRecord(Overtaken(w, c), 0, c.newApp), 0), 0)
  }

  function Stepped(cfg: Settings, w: World, c: Call): World {
    Intake.WriteCache(cfg, Inserted(Looked(w, c), c), 0, c.writeUp)
  }

  predicate AnsweredWith(w: World, o: Outcome) {
    && w.tables == o.tables && w.cache == o.cache
    && 0 in w.requests && w.requests[0].phase.Answered? && w.requests[0].phase.reply == o.reply
  }

  lemma HitIsServed(cfg: Settings, w: World, c: Call)
    requires w.requests == map[] && CacheHit(w, c)
    ensures AnsweredWith(Stepped(cfg, w, c), Called(cfg, w, c))
  {
    var reply := Intake.ReplyTo(w.cache[c.key].record, c.hash);
    assert Intake.ReadCache(Intake.Arrive(w, 0, c.key, c.hash, c.sealed), 0, c.readUp).requests[0].phase
           == Answered(reply, |w.served|);
  }

  lemma MissLooksUp(w: World, c: Call)
    requires w.requests == map[] && !CacheHit(w, c)
    ensures Intake.ReadCache(Intake.Arrive(w, 0, c.key, c.hash, c.sealed), 0, c.readUp) == Asking(w, c, RecordLookup)
  {
    assert Intake.Arrive(w, 0, c.key, c.hash, c.sealed) == Asking(w, c, CacheLookup);
    Moved(w, c, CacheLookup, RecordLookup);
  }

  lemma Moved(w: World, c: Call, p: Phase, q: Phase)
    ensures Intake.MoveTo(Asking(w, c, p), 0, q) == Asking(w, c, q)
  {
    assert Asking(w, c, p).requests[0 := Request(c.key, c.hash, c.sealed, q)] == Asking(w, c, q).requests;
  }

  /** An existing record, found by the lookup or after a conflict, answers the request. */
  lemma RecordAnswers(cfg: Settings, w: World, c: Call, phase: Phase)
    requires c.key in w.tables.records
    ensures var served := Intake.ServeRecord(Asking(w, c, phase), 0);
            && (served.requests[0].phase.Answered? || served.requests[0].phase.CacheWrite?)
            && AnsweredWith(Intake.WriteCache(cfg, served, 0, c.writeUp), FromRecord(cfg, w, c, w.tables))
  {
  }

  lemma RecordIsServed(cfg: Settings, w: World, c: Call)
    requires w.requests == map[] && !CacheHit(w, c) && c.key in w.tables.records
    ensures AnsweredWith(Stepped(cfg, w, c), Called(cfg, w, c))
  {
    MissLooksUp(w, c);
    RecordAnswers(cfg, w, c, RecordLookup);
    var served := Intake.ServeRecord(Asking(w, c, RecordLookup), 0);
    assert Looked(w, c) == served && Inserted(served, c) == served;
  }

  lemma NothingFound(w: World, c: Call)
    requires w.requests == map[] && !CacheHit(w, c) && c.key !in w.tables.records
    ensures Looked(w, c) == Asking(w, c, Inserting)
  {
    MissLooksUp(w, c);
    Moved(w, c, RecordLookup, Inserting);
  }

  lemma ConflictIsServed(cfg: Settings, w: World, c: Call, w': World)
    requires c.rival.Some? && c.key !in w.tables.records && FreshIds(w.tables, c)
    requires w' == w.(tables := RowsAdded(w.tables, c.key, c.rival.value.app, c.rival.value.hash,
                                          c.rival.value.sealed, w.clock))
    ensures Inserted(Asking(w, c, Inserting), c) == Intake.ServeRecord(Asking(w', c, Conflicted), 0)
  {
    var asking := Asking(w', c, Inserting);
    assert Overtaken(Asking(w, c, Inserting), c) == asking;
    Moved(w', c, Inserting, Conflicted);
    assert Intake.InsertRecord(asking, 0, c.newApp) == Asking(w', c, Conflicted);
  }

  lemma NewKeyIsInserted(w: World, c: Call)
    requires c.rival.None? && c.key !in w.tables.records && FreshIds(w.tables, c)
    ensures Inserted(Asking(w, c, Inserting), c) == Intake.CommitRequest(Asking(w, c, Holding(c.newApp)), 0)
  {
    Moved(w, c, Inserting, Holding(c.newApp));
    assert Intake.InsertRecord(Asking(w, c, Inserting), 0, c.newApp) == Asking(w, c, Holding(c.newApp));
  }

  lemma CommitAnswers(cfg: Settings, w: World, c: Call)
    ensures AnsweredWith(Intake.WriteCache(cfg, Intake.CommitRequest(Asking(w, c, Holding(c.newApp)), 0), 0, c.writeUp),
                         Outcome(RowsAdded(w.tables, c.key, c.newApp, c.hash, c.sealed, w.clock),
                                 CacheAfter(cfg, w, c, Record(c.newApp, c.hash)), Created(c.newApp)))
  {
  }

  lemma NewKeyIsServed(cfg: Settings, w: World, c: Call)
    requires w.requests == map[] && !CacheHit(w, c) && c.key !in w.tables.records && FreshIds(w.tables, c)
    ensures AnsweredWith(Stepped(cfg, w, c), Called(cfg, w, c))
  {
    NothingFound(w, c);
    if c.rival.Some? { OvertakenIsServed(cfg, w, c); } else { FirstIsServed(cfg, w, c); }
  }

  lemma OvertakenIsServed(cfg: Settings, w: World, c: Call)
    requires !CacheHit(w, c) && c.key !in w.tables.records && FreshIds(w.tables, c) && c.rival.Some?
    ensures AnsweredWith(Intake.WriteCache(cfg, Inserted(Asking(w, c, Inserting), c), 0, c.writeUp), Called(cfg, w, c))
  {
    var rival := c.rival.value;
    var w' := w.(tables := RowsAdded(w.tables, c.key, rival.app, rival.hash, rival.sealed, w.clock));
    ConflictIsServed(cfg, w, c, w');
    RecordAnswers(cfg, w', c, Conflicted);
  }

  lemma FirstIsServed(cfg: Settings, w: World, c: Call)
    requires !CacheHit(w, c) && c.key !in w.tables.records && FreshIds(w.tables, c) && c.rival.None?
    ensures AnsweredWith(Intake.WriteCache(cfg, Inserted(Asking(w, c, Inserting), c), 0, c.writeUp), Called(cfg, w, c))
  {
    NewKeyIsInserted(w, c);
    CommitAnswers(cfg, w, c);
  }

  /** The steps of Intake, taken one after the other, do what the whole call does. */
  lemma {:induction false} StepsMakeTheCall(cfg: Settings, w: World, c: Call)
    requires w.requests == map[] && FreshIds(w.tables, c)
    ensures AnsweredWith(Stepped(cfg, w, c), Called(cfg, w, c))
  {
    if CacheHit(w, c) {
      HitIsServed(cfg, w, c);
    } else if c.key in w.tables.records {
      RecordIsServed(cfg, w, c);
    } else {
      NewKeyIsServed(cfg, w, c);
    }
  }

  // ----- the procedure -----

  class LoanDesk {
    var records: map<string, Record>
    var apps: map<AppId, Application>
    var outbox: seq<Message>
    var cache: map<string, Cached>

    function Seen(now: int): World
      reads this
    {
      EMPTY.(tables := Tables(records, apps, outbox, map[], []), cache := cache, clock := now)
    }

    constructor ()
      ensures Seen(0) == EMPTY
    {
      records, apps, outbox, cache := map[], map[], [], map[];
    }

    method CacheGet(key: string, now: int, up: bool) returns (cached: Option<Record>)
      ensures cached == if up && key in cache && now < cache[key].expires then Some(cache[key].record) else None
    {
      if !up || key !in cache || cache[key].expires <= now { return None; }
      return Some(cache[key].record);
    }

    method CacheSet(key: string, record: Record, expires: int, up: bool)
      modifies `cache
      ensures cache == if up then old(cache)[key := Cached(record, expires)] else old(cache)
    {
      if up { cache := cache[key := Cached(record, expires)]; }
    }

    method AddRows(key: string, app: AppId, sealed: Option<Dict>, now: int)
      modifies `apps, `outbox
      ensures apps == old(apps)[app := Application(key, sealed, PENDING, None, None, now)]
      ensures outbox == old(outbox) + [Message(app, QUEUED)]
    {
      apps := apps[app := Application(key, sealed, PENDING, None, None, now)];
      outbox := outbox + [Message(app, QUEUED)];
    }

    method ApplyLoan(cfg: Settings, c: Call, now: int) returns (reply: Reply)
      modifies this
      ensures Outcome(Seen(now).tables, cache, reply) == Called(cfg, old(Seen(now)), c)
    {
      var cached := CacheGet(c.key, now, c.readUp);
      if cached.Some? {
        if cached.value.hash != c.hash { return Mismatch; }
        return Replayed(cached.value.app);
      }
      if c.key in records {
        if records[c.key].hash != c.hash { return Mismatch; }
        CacheSet(c.key, records[c.key], now + cfg.cacheTtl, c.writeUp);
        return Replayed(records[c.key].app);
      }
      if c.rival.Some? {
        AddRows(c.key, c.rival.value.app, c.rival.value.sealed, now);
        records := records[c.key := Record(c.rival.value.app, c.rival.value.hash)];
      }
      var savedApps, savedOutbox := apps, outbox;
      AddRows(c.key, c.newApp, c.sealed, now);
      if c.key in records {
        apps, outbox := savedApps, savedOutbox;
        if records[c.key].hash != c.hash { return Mismatch; }
        CacheSet(c.key, records[c.key], now + cfg.cacheTtl, c.writeUp);
        return Replayed(records[c.key].app);
      }
      records := records[c.key := Record(c.newApp, c.hash)];
      CacheSet(c.key, records[c.key], now + cfg.cacheTtl, c.writeUp);
      return Created(c.newApp);
    }
  }
}
