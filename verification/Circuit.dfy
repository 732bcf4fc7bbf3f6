/** Any number of callers sharing one breaker, interleaved operation by operation. */
module Circuit {
  import opened Breaker
  import opened Common

  /** What the counter should remember of the past. */
  datatype Record = Down(at: int) | Up

  datatype Phase = Wanting | Probing(since: int) | Ordinary(left: nat)

  datatype Outcome = Succeeds | ServiceDown | TimesOut | FailsForGood

  /** `history` is not part of the program; it remembers every success and SERVICE_DOWN record. */
  datatype System = System(keys: Keys, now: int, history: seq<Record>, calls: map<int, Phase>)

  datatype Action =
    | Tick(ticks: nat)
    | Enter(id: int)
    | Acquire(id: int)
    | Attempt(id: int, outcome: Outcome)
    | Crash(id: int)

  const INITIAL := System(NO_KEYS, 0, [], map[])

  function EnterStep(cfg: Config, s: System, id: int): System {
    if id in s.calls then s else
    var (keys, state) := ReadState(s.keys, cfg, s.now);
    match state
    case OPEN => s.(keys := keys)
    case HALF_OPEN => s.(keys := keys, calls := s.calls[id := Wanting])
    case CLOSED => if cfg.maxRetries < 0 then s else s.(keys := keys, calls := s.calls[id := Ordinary(cfg.maxRetries)])
  }

  function AcquireStep(cfg: Config, s: System, id: int): System {
    if id !in s.calls || !s.calls[id].Wanting? then s else
    var (keys, acquired) := AcquireProbe(s.keys, cfg, s.now);
    s.(keys := keys, calls := if acquired then s.calls[id := Probing(s.now)] else s.calls - {id})
  }

  function AttemptStep(cfg: Config, s: System, id: int, outcome: Outcome): System {
    if id !in s.calls || s.calls[id].Wanting? then s
    else if outcome == Succeeds then
      s.(keys := RecordSuccess(s.keys), history := s.history + [Up], calls := s.calls - {id})
    else if s.calls[id].Probing? then
      s.(keys := RecordHalfOpenFailure(s.keys, s.now), calls := s.calls - {id})
    else
      var calls := if outcome == FailsForGood || s.calls[id].left == 0 then s.calls - {id}
                   else s.calls[id := Ordinary(s.calls[id].left - 1)];
      if outcome == ServiceDown then
        s.(keys := RecordServiceDown(s.keys, cfg, s.now), history := s.history + [Down(s.now)], calls := calls)
      else s.(calls := calls)
  }

  /** One step; an action that is not enabled changes nothing. */
  function Step(cfg: Config, s: System, a: Action): System {
    match a
    case Tick(ticks) => s.(now := s.now + ticks)
    case Enter(id) => EnterStep(cfg, s, id)
    case Acquire(id) => AcquireStep(cfg, s, id)
    case Attempt(id, outcome) => AttemptStep(cfg, s, id, outcome)
    case Crash(id) => s.(calls := s.calls - {id})
  }

  function Run(cfg: Config, actions: seq<Action>): System {
    if actions == [] then INITIAL else Step(cfg, Run(cfg, actions[..|actions| - 1]), actions[|actions| - 1])
  }

  // ----- the counter refines the history -----

  /** Length of the latest run of SERVICE_DOWN records with no success and no gap reaching the window, up to `until`. */
  function RunLength(history: seq<Record>, window: int, until: int): nat {
    if history == [] then 0
    else match history[|history| - 1]
      case Up => 0
      case Down(at) => if until - at >= window then 0 else RunLength(history[..|history| - 1], window, at) + 1
  }

  predicate CounterInv(cfg: Config, s: System) {
    var n := |s.history|;
    match s.keys.failures
    case None => n == 0 || s.history[n - 1].Up?
    case Some(c) =>
      && n > 0 && s.history[n - 1].Down?
      && c.expires == Some(s.history[n - 1].at + cfg.window)
      && c.count == RunLength(s.history[..n - 1], cfg.window, s.history[n - 1].at) + 1
  }

  lemma CounterInvGivesCount(cfg: Config, s: System)
    requires CounterInv(cfg, s)
    ensures LiveCount(s.keys, s.now) == RunLength(s.history, cfg.window, s.now)
  {
  }

  lemma CounterInvKept(cfg: Config, s: System, a: Action)
    requires CounterInv(cfg, s)
    ensures CounterInv(cfg, Step(cfg, s, a))
  {
    if a.Attempt? {
      CounterInvGivesCount(cfg, s);
      assert (s.history + [Up])[..|s.history|] == s.history;
      assert (s.history + [Down(s.now)])[..|s.history|] == s.history;
    }
  }

  predicate StateInv(cfg: Config, s: System) {
    && (s.keys.state == Some(OPEN) || s.keys.state == Some(HALF_OPEN) ==> s.keys.lastFailure.Some?)
    && (s.keys.state.None? || s.keys.state == Some(CLOSED) ==>
          s.keys.failures.None? || s.keys.failures.value.count < cfg.threshold)
    && (s.keys.lastFailure.Some? ==> s.keys.lastFailure.value <= s.now)
    && (s.keys.probeLock.Some? ==> s.keys.probeLock.value <= s.now + cfg.probeTtl)
  }

  lemma StateInvKept(cfg: Config, s: System, a: Action)
    requires StateInv(cfg, s)
    ensures StateInv(cfg, Step(cfg, s, a))
  {
  }

  lemma {:induction false} BreakerInvariants(cfg: Config, actions: seq<Action>)
    ensures CounterInv(cfg, Run(cfg, actions)) && StateInv(cfg, Run(cfg, actions))
  {
    if actions != [] {
      var before := actions[..|actions| - 1];
      BreakerInvariants(cfg, before);
      CounterInvKept(cfg, Run(cfg, before), actions[|actions| - 1]);
      StateInvKept(cfg, Run(cfg, before), actions[|actions| - 1]);
    }
  }

  /** In every interleaving the live `failure_count` is the length of the latest run of failures. */
  lemma {:induction false} CounterRefinesHistory(cfg: Config, actions: seq<Action>)
    ensures var s := Run(cfg, actions); LiveCount(s.keys, s.now) == RunLength(s.history, cfg.window, s.now)
  {
    BreakerInvariants(cfg, actions);
    CounterInvGivesCount(cfg, Run(cfg, actions));
  }

  /** A closed breaker has seen fewer failures in a row than the threshold. */
  lemma {:induction false} ClosedMeansBelowThreshold(cfg: Config, actions: seq<Action>)
    requires cfg.threshold >= 1
    ensures var s := Run(cfg, actions);
            s.keys.state.None? || s.keys.state == Some(CLOSED) ==>
                RunLength(s.history, cfg.window, s.now) < cfg.threshold
  {
    BreakerInvariants(cfg, actions);
    CounterRefinesHistory(cfg, actions);
  }

  /**
   What an attempt of an ordinary call does to the breaker's state: a success closes it, a SERVICE_DOWN opens it exactly
   when it makes the run of failures reach the threshold, and nothing else touches any key.
   */
  lemma {:induction false} OpensAtThreshold(cfg: Config, actions: seq<Action>, id: int, outcome: Outcome)
    requires id in Run(cfg, actions).calls && Run(cfg, actions).calls[id].Ordinary?
    ensures var s := Run(cfg, actions);
            var s' := Step(cfg, s, Attempt(id, outcome));
            match outcome
            case Succeeds => s'.keys.state == Some(CLOSED)
            case ServiceDown =>
              && s'.keys.lastFailure == Some(s.now)
              && s'.keys.state == if RunLength(s.history, cfg.window, s.now) + 1 >= cfg.threshold then Some(OPEN)
                                  else s.keys.state
            case _ => s'.keys == s.keys
  {
    CounterRefinesHistory(cfg, actions);
  }

  /** An open breaker always half-opens once the timeout has passed. */
  lemma {:induction false} OpenBreakerCanRecover(cfg: Config, actions: seq<Action>, wait: nat)
    requires wait >= cfg.timeout && Run(cfg, actions).keys.state == Some(OPEN)
    ensures var s := Run(cfg, actions); ReadState(s.keys, cfg, s.now + wait).1 == HALF_OPEN
  {
    BreakerInvariants(cfg, actions);
  }

  // ----- a stranded breaker -----

  function After(cfg: Config, s: System, actions: seq<Action>): System
    decreases |actions|
  {
    if actions == [] then s else After(cfg, Step(cfg, s, actions[0]), actions[1..])
  }

  lemma AfterCons(cfg: Config, s: System, a: Action, rest: seq<Action>)
    ensures After(cfg, s, [a] + rest) == After(cfg, Step(cfg, s, a), rest)
  {
    assert ([a] + rest)[1..] == rest;
  }

  /** With nobody in flight nothing ever changes, and nobody is let in. */
  lemma {:induction false} StrandedStays(cfg: Config, s: System, actions: seq<Action>)
    requires Stranded(s.keys) && s.calls == map[]
    ensures After(cfg, s, actions).keys == s.keys && After(cfg, s, actions).calls == map[]
    decreases |actions|
  {
    if actions != [] { StrandedStays(cfg, Step(cfg, s, actions[0]), actions[1..]); }
  }

  /** Any call still in flight can close the breaker; one that waits for the probe lock first waits for it to lapse. */
  lemma InFlightCallRevives(cfg: Config, s: System, id: int) returns (actions: seq<Action>)
    requires id in s.calls
    ensures After(cfg, s, actions).keys.state == Some(CLOSED)
  {
    var attempt := Attempt(id, Succeeds);
    if s.calls[id].Wanting? {
      var lock := s.keys.probeLock;
      var wait := Tick(if lock.Some? && lock.value > s.now then lock.value - s.now else 0);
      AfterCons(cfg, Step(cfg, Step(cfg, s, wait), Acquire(id)), attempt, []);
      AfterCons(cfg, Step(cfg, s, wait), Acquire(id), [attempt] + []);
      AfterCons(cfg, s, wait, [Acquire(id)] + ([attempt] + []));
      actions := [wait] + ([Acquire(id)] + ([attempt] + []));
    } else {
      AfterCons(cfg, s, attempt, []);
      actions := [attempt] + [];
    }
  }

  /** A stranded breaker stays stranded in every continuation exactly when no call is in flight. */
  lemma StrandedForGoodIffNobodyInFlight(cfg: Config, s: System)
    requires Stranded(s.keys)
    ensures (forall actions: seq<Action> :: Stranded(After(cfg, s, actions).keys)) <==> s.calls == map[]
  {
    if forall id :: id !in s.calls {
      assert s.calls == map[];
      forall actions: seq<Action> ensures Stranded(After(cfg, s, actions).keys) { StrandedStays(cfg, s, actions); }
    } else {
      var id :| id in s.calls;
      var actions := InFlightCallRevives(cfg, s, id);
      assert !Stranded(After(cfg, s, actions).keys);
    }
  }

  /**
   The steps that free a stranded breaker: a success, a probe's failure or a SERVICE_DOWN of a call still in flight.
   Once the timeout has passed since, it reads CLOSED or HALF_OPEN.
   */
  lemma StrandedLeftIff(cfg: Config, s: System, a: Action, wait: nat)
    requires Stranded(s.keys)
    ensures var s' := Step(cfg, s, a);
            && (!Stranded(s'.keys) <==>
                  a.Attempt? && a.id in s.calls && !s.calls[a.id].Wanting?
                  && (a.outcome == Succeeds || s.calls[a.id].Probing? || a.outcome == ServiceDown))
            && (!Stranded(s'.keys) && wait >= cfg.timeout ==> ReadState(s'.keys, cfg, s'.now + wait).1 != OPEN)
  {
  }

  // ----- one probe at a time -----

  predicate ProbeInFlight(s: System, id: int) {
    id in s.calls && s.calls[id].Probing?
  }

  ghost predicate OneProbe(s: System) {
    forall p, q | ProbeInFlight(s, p) && ProbeInFlight(s, q) :: p == q
  }

  predicate OrdinarySuccess(s: System, a: Action) {
    a.Attempt? && a.outcome == Succeeds && a.id in s.calls && s.calls[a.id].Ordinary?
  }

  /** Every probe in flight is still within the lock's TTL. */
  ghost predicate ProbesInTime(cfg: Config, s: System) {
    forall id | ProbeInFlight(s, id) :: s.now < s.calls[id].since + cfg.probeTtl
  }

  /** `a` is not an ordinary call succeeding while a probe is in flight. */
  predicate NoOrdinarySuccess(s: System, a: Action) {
    OrdinarySuccess(s, a) ==>
      forall id | id in s.calls :: !s.calls[id].Probing?
  }

  /** At every point of the run probes are in time and no ordinary call succeeds beside one. */
  ghost predicate Disciplined(cfg: Config, actions: seq<Action>) {
    && ProbesInTime(cfg, Run(cfg, actions))
    && (actions != [] ==>
      && Disciplined(cfg, actions[..|actions| - 1])
      && NoOrdinarySuccess(Run(cfg, actions[..|actions| - 1]), actions[|actions| - 1]))
  }

  ghost predicate ProbeInv(cfg: Config, s: System) {
    && (forall id | ProbeInFlight(s, id) :: s.keys.probeLock == Some(s.calls[id].since + cfg.probeTtl))
    && OneProbe(s)
  }

  lemma ProbeInvKept(cfg: Config, s: System, a: Action)
    requires ProbeInv(cfg, s) && ProbesInTime(cfg, s) && NoOrdinarySuccess(s, a)
    ensures ProbeInv(cfg, Step(cfg, s, a))
  {
    var s' := Step(cfg, s, a);
    forall id | ProbeInFlight(s', id)
      ensures ProbeInFlight(s, id) || a == Acquire(id)
      ensures ProbeInFlight(s, id) ==> s'.calls[id] == s.calls[id]
    {
    }
    if a.Acquire? && s'.keys != s.keys {
      assert forall id :: !ProbeInFlight(s, id);
    }
    if a.Attempt? && s'.keys.probeLock != s.keys.probeLock {
      forall id | ProbeInFlight(s, id) ensures id == a.id {
        if s.calls[a.id].Probing? { assert ProbeInFlight(s, a.id); }
      }
    }
  }

  lemma {:induction false} ProbeInvHolds(cfg: Config, actions: seq<Action>)
    requires Disciplined(cfg, actions)
    ensures ProbeInv(cfg, Run(cfg, actions))
  {
    if actions != [] {
      var before := actions[..|actions| - 1];
      ProbeInvHolds(cfg, before);
      ProbeInvKept(cfg, Run(cfg, before), actions[|actions| - 1]);
    }
  }

  /** While probes keep to the TTL and no ordinary call succeeds beside one, at most one probe is in flight. */
  lemma {:induction false} AtMostOneProbe(cfg: Config, actions: seq<Action>)
    requires Disciplined(cfg, actions)
    ensures OneProbe(Run(cfg, actions))
  {
    ProbeInvHolds(cfg, actions);
  }

  // ----- exactly when a second probe gets in -----

  /** An ordinary call has succeeded since `p` took the lock. */
  predicate FreedSince(cfg: Config, actions: seq<Action>, p: int) {
    actions != [] &&
    var before, a := actions[..|actions| - 1], actions[|actions| - 1];
    ProbeInFlight(Run(cfg, before), p) && (FreedSince(cfg, before, p) || OrdinarySuccess(Run(cfg, before), a))
  }

  /** At every point of the run at most one probe was in flight. */
  ghost predicate OneProbeSoFar(cfg: Config, actions: seq<Action>) {
    OneProbe(Run(cfg, actions)) && (actions != [] ==> OneProbeSoFar(cfg, actions[..|actions| - 1]))
  }

  ghost predicate LockTold(cfg: Config, actions: seq<Action>) {
    var s := Run(cfg, actions);
    forall p | ProbeInFlight(s, p) ::
      s.keys.probeLock == if FreedSince(cfg, actions, p) then None else Some(s.calls[p].since + cfg.probeTtl)
  }

  /** What happens to a probe that stays in flight. */
  lemma ProbeUnderStep(cfg: Config, s: System, a: Action, p: int)
    requires OneProbe(s) && OneProbe(Step(cfg, s, a)) && ProbeInFlight(Step(cfg, s, a), p)
    ensures var s' := Step(cfg, s, a);
            if ProbeInFlight(s, p)
            then s'.calls[p] == s.calls[p]
                 && s'.keys.probeLock == if OrdinarySuccess(s, a) then None else s.keys.probeLock
            else s'.keys.probeLock == Some(s'.calls[p].since + cfg.probeTtl)
  {
    var s' := Step(cfg, s, a);
    if ProbeInFlight(s, p) {
      if a.Acquire? && a.id in s'.calls && s'.calls[a.id].Probing? { assert ProbeInFlight(s', a.id); }
      if a.Attempt? && a.id in s.calls && s.calls[a.id].Probing? { assert ProbeInFlight(s, a.id); }
    }
  }

  /** While one probe is in flight the lock key tells when it was taken, unless an ordinary success has deleted it. */
  lemma {:induction false} LockTellsProbe(cfg: Config, actions: seq<Action>)
    requires OneProbeSoFar(cfg, actions)
    ensures LockTold(cfg, actions)
  {
    if actions != [] {
      var before, a := actions[..|actions| - 1], actions[|actions| - 1];
      LockTellsProbe(cfg, before);
      var s := Run(cfg, before);
      forall p | ProbeInFlight(Run(cfg, actions), p)
        ensures Run(cfg, actions).keys.probeLock
                == if FreedSince(cfg, actions, p) then None else Some(Run(cfg, actions).calls[p].since + cfg.probeTtl)
      {
        ProbeUnderStep(cfg, s, a, p);
      }
    }
  }

  /** Beside a probe in flight a waiting caller gets in exactly when the lock has lapsed or a success freed it. */
  lemma {:induction false} SecondProbeIff(cfg: Config, actions: seq<Action>, p: int, id: int)
    requires OneProbeSoFar(cfg, actions) && ProbeInFlight(Run(cfg, actions), p)
    requires id in Run(cfg, actions).calls && Run(cfg, actions).calls[id].Wanting?
    ensures var s := Run(cfg, actions);
            ProbeInFlight(Step(cfg, s, Acquire(id)), id) <==>
              s.now >= s.calls[p].since + cfg.probeTtl || FreedSince(cfg, actions, p)
  {
    LockTellsProbe(cfg, actions);
  }

  /** A caller takes the lock beside a probe that outlived it or lost it to an ordinary success. */
  ghost predicate Trespass(cfg: Config, actions: seq<Action>, a: Action) {
    var s := Run(cfg, actions);
    && a.Acquire? && a.id in s.calls && s.calls[a.id].Wanting?
    && exists p :: ProbeInFlight(s, p) && (s.now >= s.calls[p].since + cfg.probeTtl || FreedSince(cfg, actions, p))
  }

  ghost predicate NoTrespass(cfg: Config, actions: seq<Action>) {
    actions != [] ==>
      NoTrespass(cfg, actions[..|actions| - 1]) && !Trespass(cfg, actions[..|actions| - 1], actions[|actions| - 1])
  }

  lemma {:induction false} OneMoreProbeIff(cfg: Config, actions: seq<Action>, a: Action)
    requires OneProbeSoFar(cfg, actions)
    ensures OneProbe(Step(cfg, Run(cfg, actions), a)) <==> !Trespass(cfg, actions, a)
  {
    var s := Run(cfg, actions);
    var s' := Step(cfg, s, a);
    forall q | ProbeInFlight(s', q) ensures ProbeInFlight(s, q) || a == Acquire(q) {}
    if a.Acquire? && a.id in s.calls && s.calls[a.id].Wanting? {
      forall p | ProbeInFlight(s, p) ensures p != a.id && ProbeInFlight(s', p) {
        SecondProbeIff(cfg, actions, p, a.id);
      }
      forall p | ProbeInFlight(s, p)
        ensures ProbeInFlight(s', a.id) <==> s.now >= s.calls[p].since + cfg.probeTtl || FreedSince(cfg, actions, p)
      {
        SecondProbeIff(cfg, actions, p, a.id);
      }
    }
  }

  /** Over whole runs: at most one probe was ever in flight if and only if nobody ever trespassed. */
  lemma {:induction false} OneProbeIffNoTrespass(cfg: Config, actions: seq<Action>)
    ensures OneProbeSoFar(cfg, actions) <==> NoTrespass(cfg, actions)
  {
    if actions != [] {
      var before := actions[..|actions| - 1];
      OneProbeIffNoTrespass(cfg, before);
      if OneProbeSoFar(cfg, before) { OneMoreProbeIff(cfg, before, actions[|actions| - 1]); }
    }
  }

  /**
   In any run a probe makes one attempt and leaves. Success closes the breaker and ends the run of failures; failure,
   which does not count as one, shuts it for exactly the timeout, whatever the counter says.
   */
  lemma {:induction false} ProbeResolves(cfg: Config, actions: seq<Action>, id: int, outcome: Outcome, wait: nat)
    requires ProbeInFlight(Run(cfg, actions), id)
    ensures var s, s' := Run(cfg, actions), Run(cfg, actions + [Attempt(id, outcome)]);
            && id !in s'.calls && !Locked(s'.keys, s'.now)
            && (outcome == Succeeds ==>
                  && ReadState(s'.keys, cfg, s'.now + wait).1 == CLOSED
                  && RunLength(s'.history, cfg.window, s'.now) == 0 == LiveCount(s'.keys, s'.now))
            && (outcome != Succeeds ==>
                  && ReadState(s'.keys, cfg, s'.now + wait).1 == (if wait >= cfg.timeout then HALF_OPEN else OPEN)
                  && LiveCount(s'.keys, s'.now) == RunLength(s.history, cfg.window, s.now))
  {
    RunAppend(cfg, actions, Attempt(id, outcome));
    CounterRefinesHistory(cfg, actions + [Attempt(id, outcome)]);
    CounterRefinesHistory(cfg, actions);
  }

  /** Whoever holds the probe lock, crashed or not, blocks the others for at most its TTL. */
  lemma {:induction false} ProbeLockLapses(cfg: Config, actions: seq<Action>, id: int, wait: nat)
    requires wait >= cfg.probeTtl
    requires id in Run(cfg, actions).calls && Run(cfg, actions).calls[id].Wanting?
    ensures ProbeInFlight(Step(cfg, Step(cfg, Run(cfg, actions), Tick(wait)), Acquire(id)), id)
  {
    BreakerInvariants(cfg, actions);
  }

  const TRIGGER_HAPPY := Config(1, 60, 120, 10, 0)

  lemma {:induction false} RunAppend(cfg: Config, actions: seq<Action>, a: Action)
    ensures Run(cfg, actions + [a]) == Step(cfg, Run(cfg, actions), a)
  {
    assert (actions + [a])[..|actions|] == actions;
  }

  /** The breaker is half-open at tick 120; calls 1 and 2 want to probe while the ordinary call 3 is still out. */
  lemma TwoWaitBesideOne() returns (actions: seq<Action>)
    ensures var s := Run(TRIGGER_HAPPY, actions);
            && s.calls == map[1 := Wanting, 2 := Wanting, 3 := Ordinary(0)] && s.now == 120
            && s.keys == Keys(Some(HALF_OPEN), Some(Counter(1, Some(60))), Some(0), None)
  {
    var cfg := TRIGGER_HAPPY;
    actions := [Enter(0), Enter(3)];
    assert actions == [] + [Enter(0)] + [Enter(3)];
    RunAppend(cfg, [], Enter(0));
    RunAppend(cfg, [] + [Enter(0)], Enter(3));
    assert Run(cfg, actions).calls == map[0 := Ordinary(0), 3 := Ordinary(0)];
    RunAppend(cfg, actions, Attempt(0, ServiceDown));
    RunAppend(cfg, actions + [Attempt(0, ServiceDown)], Tick(120));
    actions := actions + [Attempt(0, ServiceDown)] + [Tick(120)];
    assert Run(cfg, actions).calls == map[3 := Ordinary(0)] && Run(cfg, actions).now == 120;
    assert Run(cfg, actions).keys == Keys(Some(OPEN), Some(Counter(1, Some(60))), Some(0), None);
    RunAppend(cfg, actions, Enter(1));
    RunAppend(cfg, actions + [Enter(1)], Enter(2));
    actions := actions + [Enter(1)] + [Enter(2)];
  }

  /** Both conditions are needed: a probe that outlives its lock is joined by a second one ... */
  lemma SlowProbeIsJoined() returns (actions: seq<Action>)
    ensures var s := Run(TRIGGER_HAPPY, actions); ProbeInFlight(s, 1) && ProbeInFlight(s, 2)
  {
    var cfg := TRIGGER_HAPPY;
    actions := TwoWaitBesideOne();
    RunAppend(cfg, actions, Acquire(1));
    RunAppend(cfg, actions + [Acquire(1)], Tick(10));
    actions := actions + [Acquire(1)] + [Tick(10)];
    assert Run(cfg, actions).calls == map[1 := Probing(120), 2 := Wanting, 3 := Ordinary(0)];
    RunAppend(cfg, actions, Acquire(2));
    actions := actions + [Acquire(2)];
  }

  /** ... and an ordinary call's success deletes the lock under a probe that is still in time. */
  lemma OrdinarySuccessFreesTheLock() returns (actions: seq<Action>)
    ensures var s := Run(TRIGGER_HAPPY, actions);
            ProbeInFlight(s, 1) && ProbeInFlight(s, 2) && ProbesInTime(TRIGGER_HAPPY, s)
  {
    var cfg := TRIGGER_HAPPY;
    actions := TwoWaitBesideOne();
    RunAppend(cfg, actions, Acquire(1));
    RunAppend(cfg, actions + [Acquire(1)], Attempt(3, Succeeds));
    actions := actions + [Acquire(1)] + [Attempt(3, Succeeds)];
    assert Run(cfg, actions).calls == map[1 := Probing(120), 2 := Wanting];
    RunAppend(cfg, actions, Acquire(2));
    actions := actions + [Acquire(2)];
  }

  /**
   A cut-off strands the breaker without any crossing: after an ordinary success has closed it, a probe still in flight
   fails and is cancelled between its first two commands. Nobody is left to revive it.
   */
  lemma CutOffProbeStrands() returns (actions: seq<Action>)
    ensures var s := Run(TRIGGER_HAPPY, actions);
            var record, trace := [ProbeFailed(s.now)], [Sent(0, SetState(OPEN))];
            && s.calls.Keys == {1} && ProbeInFlight(s, 1) && s.keys == Keys(Some(CLOSED), None, None, None)
            && Merges(TRIGGER_HAPPY, record, trace) && CutOff(record, trace, 0)
            && Stranded(ExecAll(Commands(trace), s.keys, s.now))
            && var left := s.(keys := ExecAll(Commands(trace), s.keys, s.now), calls := map[]);
               forall more: seq<Action> :: Stranded(After(TRIGGER_HAPPY, left, more).keys)
  {
    var cfg := TRIGGER_HAPPY;
    actions := TwoWaitBesideOne();
    RunAppend(cfg, actions, Acquire(1));
    RunAppend(cfg, actions + [Acquire(1)], Attempt(3, Succeeds));
    RunAppend(cfg, actions + [Acquire(1)] + [Attempt(3, Succeeds)], Crash(2));
    actions := actions + [Acquire(1)] + [Attempt(3, Succeeds)] + [Crash(2)];
    var s := Run(cfg, actions);
    assert s.calls == map[1 := Probing(120)];
    CutOffTrace(cfg, s.keys, s.now);
    var cut := s.(keys := ExecAll(Commands([Sent(0, SetState(OPEN))]), s.keys, s.now), calls := map[]);
    StrandedForGoodIffNobodyInFlight(cfg, cut);
  }

  lemma CutOffTrace(cfg: Config, k: Keys, t: int)
    requires k.lastFailure.None?
    ensures var record, trace := [ProbeFailed(t)], [Sent(0, SetState(OPEN))];
            Merges(cfg, record, trace) && CutOff(record, trace, 0) && Stranded(ExecAll(Commands(trace), k, t))
  {
    var trace := [Sent(0, SetState(OPEN))];
    assert trace[1..] == [] && SentBy(trace, 0) == [SetState(OPEN)];
    assert ProbeFailureCommands(t)[..1] == [SetState(OPEN)];
    assert Commands(trace) == [SetState(OPEN)] + [];
    ExecAllCons(SetState(OPEN), [], k, t);
  }
}
