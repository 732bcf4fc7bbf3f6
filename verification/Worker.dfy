/** The worker's database transactions (worker/tasks/process_application.py), each atomic: commit, or roll back on an
    exception. */
module Worker {
  import opened Common
  import opened Decisions
  import opened Host
  import opened Json
  import opened Providers
  import opened RuleSets
  import opened Rules
  import opened ServiceResults
  import opened StoredResults
  import opened Schema

  datatype ClaimOutcome = NoSuchApplication | NotClaimed(status: Status) | Undecipherable | Claimed(user: Dict)

  predicate Claimable(a: Application, now: int, lockTimeout: int) {
    a.status == PENDING || (a.status == PROCESSING && a.updatedAt < now - lockTimeout)
  }

  /** The claim: an atomic conditional update; a failing decryption rolls it back. */
  function ClaimApp(h: Host, t: Tables, id: AppId, now: int, lockTimeout: int): (Tables, ClaimOutcome) {
    if id !in t.apps then (t, NoSuchApplication)
    else if !Claimable(t.apps[id], now, lockTimeout) then (t, NotClaimed(t.apps[id].status))
    else if t.apps[id].sealed.None? then (t, Undecipherable)
    else
      (t.(apps := t.apps[id := t.apps[id].(status := PROCESSING, updatedAt := now)],
          audit := t.audit + [StartedEntry(h, id)]),
       Claimed(t.apps[id].sealed.value))
  }

  /** Insert the row and its FETCH entry; None when the unique key (application, source) is taken. */
  function InsertExternal(h: Host, t: Tables, id: AppId, s: Source, r: ResultValue): Option<Tables> {
    if (id, s) in t.external then None
    else Some(t.(external := t.external[(id, s) := StoredRow(r)], audit := t.audit + [FetchEntry(h, id, s, r)]))
  }

  /** The final write; a terminal application is left alone. */
  function StoreDecision(h: Host, t: Tables, id: AppId, out: DecisionOutput, now: int): Tables {
    if id !in t.apps || Terminal(t.apps[id].status) then t
    else
      var a := t.apps[id].(status := StatusFor(out.decision), decision := Some(out.decision),
                           confidence := Some(out.confidence), updatedAt := now);
      t.(apps := t.apps[id := a],
         audit := t.audit + [DecisionEntry(h, id, out)]
                  + if out.decision == NEEDS_REVIEW then [ReviewEntry(h, id, out)] else [])
  }

  /** Error-marking looks at no status: a COMPLETED application becomes MANUAL_REVIEW too. */
  function MarkManualReview(h: Host, t: Tables, id: AppId, kind: ErrorKind, now: int): Tables {
    if id !in t.apps then t
    else
      t.(apps := t.apps[id := t.apps[id].(status := MANUAL_REVIEW, decision := Some(NEEDS_REVIEW), updatedAt := now)],
         audit := t.audit + [ErrorEntry(h, id, kind)])
  }

  /** `_decision_user_data`; the PAN hash plays no part in the decision. */
  function DecisionUserData(user: Dict): Dict
    requires "monthly_income" in user
  {
    map["monthly_income" := user["monthly_income"],
        "existing_emis" := if "existing_emis" in user then user["existing_emis"] else Num(0.0)]
  }

  /** The decision is the one on the whole sealed dictionary: nothing it depends on is lost on the way. */
  lemma SealedDataDecides(h: Host, c: ResultValue, b: ResultValue, g: ResultValue, user: Dict, threshold: real,
                          rs: RuleSet)
    requires "monthly_income" in user
    ensures DebtToIncome(h, DecisionUserData(user)) == DebtToIncome(h, user)
    ensures ComputeDecision(h, c, b, g, DecisionUserData(user), threshold, rs)
            == ComputeDecision(h, c, b, g, user, threshold, rs)
  {
    assert DebtToIncome(h, DecisionUserData(user)) == DebtToIncome(h, user);
  }

  class Database {
    var records: map<string, Record>
    var apps: map<AppId, Application>
    var outbox: seq<Message>
    var external: map<(AppId, Source), Row>
    var audit: seq<Entry>

    function Rows(): Tables
      reads this
    {
      Tables(records, apps, outbox, external, audit)
    }

    constructor ()
      ensures Rows() == Tables(map[], map[], [], map[], [])
    {
      records, apps, outbox, external, audit := map[], map[], [], map[], [];
    }

    method ClaimApplication(h: Host, id: AppId, now: int, lockTimeout: int) returns (outcome: ClaimOutcome)
      modifies this
      ensures (Rows(), outcome) == ClaimApp(h, old(Rows()), id, now, lockTimeout)
    {
      if id !in apps { return NoSuchApplication; }
      var saved, savedAudit := apps, audit;
      var claimed := false;
      if apps[id].status == PENDING || (apps[id].status == PROCESSING && apps[id].updatedAt < now - lockTimeout) {
        apps := apps[id := apps[id].(status := PROCESSING, updatedAt := now)];
        claimed := true;
      }
      if !claimed { return NotClaimed(apps[id].status); }
      audit := audit + [StartedEntry(h, id)];
      match apps[id].sealed
      case Some(user) => return Claimed(user);
      case None =>
        apps, audit := saved, savedAudit;
        return Undecipherable;
    }

    /** `raised` is the unique violation. */
    method StoreExternalResult(h: Host, id: AppId, s: Source, r: ResultValue) returns (raised: bool)
      modifies this
      ensures raised <==> InsertExternal(h, old(Rows()), id, s, r).None?
      ensures raised ==> Rows() == old(Rows())
      ensures !raised ==> Some(Rows()) == InsertExternal(h, old(Rows()), id, s, r)
    {
      if (id, s) in external { return true; }
      external := external[(id, s) := StoredRow(r)];
      audit := audit + [FetchEntry(h, id, s, r)];
      return false;
    }

    /** `raised` is the missing row. */
    method StoreProcessingResults(h: Host, id: AppId, out: DecisionOutput, now: int) returns (raised: bool)
      modifies this
      ensures raised <==> id !in old(apps)
      ensures Rows() == StoreDecision(h, old(Rows()), id, out, now)
    {
      raised := id !in apps;
      if raised || apps[id].status == COMPLETED || apps[id].status == MANUAL_REVIEW { return; }
      var a := apps[id];
      a := a.(status := StatusFor(out.decision));
      a := a.(decision := Some(out.decision));
      a := a.(confidence := Some(out.confidence), updatedAt := now);
      apps := apps[id := a];
      audit := audit + [DecisionEntry(h, id, out)];
      if out.decision == NEEDS_REVIEW {
        audit := audit + [ReviewEntry(h, id, out)];
      }
    }

    method MarkManualReviewAfterSystemError(h: Host, id: AppId, kind: ErrorKind, now: int)
      modifies this
      ensures Rows() == MarkManualReview(h, old(Rows()), id, kind, now)
    {
      if id !in apps { return; }
      apps := apps[id := apps[id].(status := MANUAL_REVIEW, decision := Some(NEEDS_REVIEW), updatedAt := now)];
      audit := audit + [ErrorEntry(h, id, kind)];
    }
  }
}
