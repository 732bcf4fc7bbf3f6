/** One call of BaseService, taken apart, is a run of Circuit: the theorems about interleaved callers are about these
    calls. */
module CallInCircuit {
  import opened BaseService
  import opened Breaker
  import opened Circuit
  import opened Common
  import opened ServiceResults

  /** What an attempt means to the breaker. */
  function OutcomeOf(outcome: HttpOutcome): Outcome {
    var r := AttemptResult(outcome);
    if r.success then Succeeds
    else if r.failure == Some(SERVICE_DOWN) then ServiceDown
    else if r.failure == Some(TIMEOUT) then TimesOut
    else FailsForGood
  }

  /** Time does not run backwards between attempts. */
  ghost predicate InOrder(provider: nat -> Exchange) {
    forall m: nat, n: nat | m <= n :: provider(m).at <= provider(n).at
  }

  /** The caller is about to make attempt `i` of at most `max`. */
  predicate AtAttempt(s: System, id: int, i: nat, max: nat, probe: bool) {
    i <= max && id in s.calls && if probe then i == max && s.calls[id].Probing? else s.calls[id] == Ordinary(max - i)
  }

  /** One attempt: the caller either leaves with the keys of the loop, or stands before the next attempt. */
  lemma AttemptIsStep(cfg: Config, s: System, id: int, provider: nat -> Exchange, i: nat, max: nat, probe: bool)
    requires AtAttempt(s, id, i, max, probe) && s.now == provider(i).at
    ensures var s' := Step(cfg, s, Attempt(id, OutcomeOf(provider(i).outcome)));
            var out := LoopFrom(cfg, s.keys, provider, i, max, probe);
            && s'.now == s.now && s'.calls - {id} == s.calls - {id}
            && if id in s'.calls
               then i < max && AtAttempt(s', id, i + 1, max, probe)
                    && out == LoopFrom(cfg, s'.keys, provider, i + 1, max, probe)
               else out.keys == s'.keys && out.attempts == i + 1
  {
  }

  lemma {:induction false} LoopIsRun(cfg: Config, s: System, id: int, provider: nat -> Exchange, i: nat, max: nat,
                                     probe: bool)
    returns (actions: seq<Action>)
    requires AtAttempt(s, id, i, max, probe) && InOrder(provider) && s.now <= provider(i).at
    ensures var s' := After(cfg, s, actions);
            var out := LoopFrom(cfg, s.keys, provider, i, max, probe);
            s'.keys == out.keys && s'.calls == s.calls - {id} && |actions| == 2 * (out.attempts - i)
    decreases max - i
  {
    var wait, attempt := Tick(provider(i).at - s.now), Attempt(id, OutcomeOf(provider(i).outcome));
    var ready := Step(cfg, s, wait);
    var next := Step(cfg, ready, attempt);
    AttemptIsStep(cfg, ready, id, provider, i, max, probe);
    var rest := [];
    if id in next.calls {
      rest := LoopIsRun(cfg, next, id, provider, i + 1, max, probe);
    } else {
      assert next.calls == next.calls - {id};
    }
    AfterCons(cfg, ready, attempt, rest);
    AfterCons(cfg, s, wait, [attempt] + rest);
    actions := [wait] + ([attempt] + rest);
  }

  /** A whole call, nobody else moving, is a run that leaves the breaker's keys as the call does. */
  lemma CallIsRun(cfg: Config, s: System, id: int, provider: nat -> Exchange) returns (actions: seq<Action>)
    requires id !in s.calls && InOrder(provider) && s.now <= provider(0).at
    ensures var s' := After(cfg, s, actions);
            s'.keys == CallFrom(cfg, s.keys, provider, s.now).keys && s'.calls == s.calls
  {
    var entered := Step(cfg, s, Enter(id));
    match ReadState(s.keys, cfg, s.now).1
    case OPEN =>
      actions := [Enter(id)] + [];
      AfterCons(cfg, s, Enter(id), []);
    case HALF_OPEN =>
      var acquired := Step(cfg, entered, Acquire(id));
      var rest := [];
      if id in acquired.calls {
        rest := LoopIsRun(cfg, acquired, id, provider, 0, 0, true);
      }
      assert s.calls[id := Wanting] - {id} == s.calls;
      assert acquired.calls - {id} == s.calls;
      AfterCons(cfg, entered, Acquire(id), rest);
      AfterCons(cfg, s, Enter(id), [Acquire(id)] + rest);
      actions := [Enter(id)] + ([Acquire(id)] + rest);
    case CLOSED =>
      var rest := [];
      if cfg.maxRetries >= 0 {
        rest := LoopIsRun(cfg, entered, id, provider, 0, cfg.maxRetries, false);
        assert entered.calls - {id} == s.calls;
      }
      AfterCons(cfg, s, Enter(id), rest);
      actions := [Enter(id)] + rest;
  }
}
