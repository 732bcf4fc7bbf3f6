/** The circuit breaker kept in Redis keys with expiry (services/base.py). Times are clock ticks. */
module Breaker {
  import opened Common

  datatype CircuitState = CLOSED | OPEN | HALF_OPEN

  /** `failure_count`: a number and the tick at which the key expires, if it has a TTL. */
  datatype Counter = Counter(count: nat, expires: Option<int>)

  datatype Keys = Keys(
    state: Option<CircuitState>,
    failures: Option<Counter>,
    lastFailure: Option<int>,
    probeLock: Option<int>)

  datatype Config = Config(threshold: int, window: int, timeout: int, probeTtl: int, maxRetries: int)

  const NO_KEYS := Keys(None, None, None, None)

  predicate Expired(expires: Option<int>, t: int) {
    expires.Some? && t >= expires.value
  }

  function LiveCount(k: Keys, t: int): nat {
    if k.failures.None? || Expired(k.failures.value.expires, t) then 0 else k.failures.value.count
  }

  predicate Locked(k: Keys, t: int) {
    k.probeLock.Some? && t < k.probeLock.value
  }

  // ----- the five operations, each taken as one step -----

  predicate CanHalfOpen(k: Keys, cfg: Config, t: int) {
    k.state == Some(OPEN) && k.lastFailure.Some? && t - k.lastFailure.value >= cfg.timeout
  }

  function ReadState(k: Keys, cfg: Config, t: int): (Keys, CircuitState) {
    if k.state.None? then (k, CLOSED)
    else if CanHalfOpen(k, cfg, t) then (k.(state := Some(HALF_OPEN)), HALF_OPEN)
    else (k, k.state.value)
  }

  function RecordSuccess(k: Keys): Keys {
    Keys(Some(CLOSED), None, None, None)
  }

  function RecordServiceDown(k: Keys, cfg: Config, t: int): Keys {
    var count := LiveCount(k, t) + 1;
    Keys(if count >= cfg.threshold then Some(OPEN) else k.state,
         Some(Counter(count, Some(t + cfg.window))), Some(t), k.probeLock)
  }

  function AcquireProbe(k: Keys, cfg: Config, t: int): (Keys, bool) {
    if Locked(k, t) then (k, false) else (k.(probeLock := Some(t + cfg.probeTtl)), true)
  }

  function RecordHalfOpenFailure(k: Keys, t: int): Keys {
    k.(state := Some(OPEN), lastFailure := Some(t), probeLock := None)
  }

  // ----- the same operations command by command -----

  datatype Command =
    | SetState(s: CircuitState) | SetLastFailure(at: int)
    | Incr | Expire(window: int)
    | DelCount | DelLastFailure | DelProbeLock

  function Exec(c: Command, k: Keys, t: int): Keys {
    match c
    case SetState(s) => k.(state := Some(s))
    case SetLastFailure(at) => k.(lastFailure := Some(at))
    case Incr =>
      var expires := if k.failures.None? || Expired(k.failures.value.expires, t) then None
          else k.failures.value.expires;
      k.(failures := Some(Counter(LiveCount(k, t) + 1, expires)))
    case Expire(window) =>
      if k.failures.None? || Expired(k.failures.value.expires, t) then k
      else k.(failures := Some(k.failures.value.(expires := Some(t + window))))
    case DelCount => k.(failures := None)
    case DelLastFailure => k.(lastFailure := None)
    case DelProbeLock => k.(probeLock := None)
  }

  function ExecAll(cs: seq<Command>, k: Keys, t: int): Keys {
    if cs == [] then k else ExecAll(cs[1..], Exec(cs[0], k, t), t)
  }

  const SUCCESS_COMMANDS := [SetState(CLOSED), DelCount, DelLastFailure, DelProbeLock]

  /** `count` is what INCR answered. */
  function ServiceDownCommands(cfg: Config, count: nat, t: int): seq<Command> {
    [Incr, Expire(cfg.window), SetLastFailure(t)] + if count >= cfg.threshold then [SetState(OPEN)] else []
  }

  function ProbeFailureCommands(t: int): seq<Command> {
    [SetState(OPEN), SetLastFailure(t), DelProbeLock]
  }

  lemma DeletionsKeepState(k: Keys, t: int)
    ensures ExecAll([DelCount, DelLastFailure, DelProbeLock], k, t) == Keys(k.state, None, None, None)
  {
    ExecAllCons(DelCount, [DelLastFailure] + [DelProbeLock], k, t);
    ExecAllCons(DelLastFailure, [DelProbeLock], Exec(DelCount, k, t), t);
    assert [DelCount] + ([DelLastFailure] + [DelProbeLock]) == [DelCount, DelLastFailure, DelProbeLock];
  }

  lemma ExecAllCons(c: Command, cs: seq<Command>, k: Keys, t: int)
    ensures ExecAll([c] + cs, k, t) == ExecAll(cs, Exec(c, k, t), t)
  {
    assert ([c] + cs)[1..] == cs;
  }

  /** Run without interruption, the commands are the operations. */
  lemma CommandsComposeToOperations(k: Keys, cfg: Config, t: int)
    ensures ExecAll(SUCCESS_COMMANDS, k, t) == RecordSuccess(k)
    ensures ExecAll(ServiceDownCommands(cfg, LiveCount(k, t) + 1, t), k, t) == RecordServiceDown(k, cfg, t)
    ensures ExecAll(ProbeFailureCommands(t), k, t) == RecordHalfOpenFailure(k, t)
  {
    ExecAllCons(SetState(OPEN), [SetLastFailure(t)] + [DelProbeLock], k, t);
    ExecAllCons(SetLastFailure(t), [DelProbeLock], Exec(SetState(OPEN), k, t), t);
    assert [SetState(OPEN)] + ([SetLastFailure(t)] + [DelProbeLock]) == ProbeFailureCommands(t);
    assert SUCCESS_COMMANDS == [SetState(CLOSED)] + [DelCount, DelLastFailure, DelProbeLock];
    ExecAllCons(SetState(CLOSED), [DelCount, DelLastFailure, DelProbeLock], k, t);
    DeletionsKeepState(Exec(SetState(CLOSED), k, t), t);
    var count := LiveCount(k, t) + 1;
    var tail := if count >= cfg.threshold then [SetState(OPEN)] else [];
    var k1 := Exec(Incr, k, t);
    var k2 := Exec(Expire(cfg.window), k1, t);
    var k3 := Exec(SetLastFailure(t), k2, t);
    assert ServiceDownCommands(cfg, count, t) == [Incr] + ([Expire(cfg.window)] + ([SetLastFailure(t)] + tail));
    ExecAllCons(Incr, [Expire(cfg.window)] + ([SetLastFailure(t)] + tail), k, t);
    ExecAllCons(Expire(cfg.window), [SetLastFailure(t)] + tail, k1, t);
    ExecAllCons(SetLastFailure(t), tail, k2, t);
    assert k3 == k.(failures := Some(Counter(count, Some(t + cfg.window))), lastFailure := Some(t));
  }

  /** `merged` runs `a` and `b` side by side, each in its own order. */
  predicate Interleaves(a: seq<Command>, b: seq<Command>, merged: seq<Command>)
    decreases |merged|
  {
    if merged == [] then a == [] && b == []
    else
      || (a != [] && a[0] == merged[0] && Interleaves(a[1..], b, merged[1..]))
      || (b != [] && b[0] == merged[0] && Interleaves(a, b[1..], merged[1..]))
  }

  /** OPEN with no `last_failure`: reading the state does not lead to HALF_OPEN any more. */
  predicate Stranded(k: Keys) {
    k.state == Some(OPEN) && k.lastFailure.None?
  }

  /** What the commands leave in `state`, given what was there. */
  function FinalState(cs: seq<Command>, before: Option<CircuitState>): Option<CircuitState> {
    if cs == [] then before
    else FinalState(cs[1..], if cs[0].SetState? then Some(cs[0].s) else before)
  }

  function FinalLastFailure(cs: seq<Command>, before: Option<int>): Option<int> {
    if cs == [] then before
    else
      FinalLastFailure(cs[1..], match cs[0]
                                case SetLastFailure(at) => Some(at)
                                case DelLastFailure => None
                                case _ => before)
  }

  lemma {:induction false} ExecAllLeaves(cs: seq<Command>, k: Keys, t: int)
    ensures ExecAll(cs, k, t).state == FinalState(cs, k.state)
    ensures ExecAll(cs, k, t).lastFailure == FinalLastFailure(cs, k.lastFailure)
  {
    if cs != [] { ExecAllLeaves(cs[1..], Exec(cs[0], k, t), t); }
  }

  lemma {:induction false} LastStateStands(cs: seq<Command>, before: Option<CircuitState>, j: nat)
    requires j < |cs| && cs[j].SetState? && forall i | j < i < |cs| :: !cs[i].SetState?
    ensures FinalState(cs, before) == Some(cs[j].s)
  {
    var next := if cs[0].SetState? then Some(cs[0].s) else before;
    if j > 0 { LastStateStands(cs[1..], next, j - 1); } else { NoStateCommand(cs[1..], next); }
  }

  lemma {:induction false} NoStateCommand(cs: seq<Command>, before: Option<CircuitState>)
    requires forall i | 0 <= i < |cs| :: !cs[i].SetState?
    ensures FinalState(cs, before) == before
  {
    if cs != [] { NoStateCommand(cs[1..], before); }
  }

  predicate WritesLastFailure(c: Command) {
    c.SetLastFailure? || c.DelLastFailure?
  }

  lemma {:induction false} LastFailureStands(cs: seq<Command>, before: Option<int>, j: nat)
    requires j < |cs| && WritesLastFailure(cs[j]) && forall i | j < i < |cs| :: !WritesLastFailure(cs[i])
    ensures FinalLastFailure(cs, before) == if cs[j].SetLastFailure? then Some(cs[j].at) else None
  {
    var next := if cs[0].SetLastFailure? then Some(cs[0].at) else if cs[0].DelLastFailure? then None else before;
    if j > 0 { LastFailureStands(cs[1..], next, j - 1); } else { NoFailureCommand(cs[1..], next); }
  }

  lemma {:induction false} NoFailureCommand(cs: seq<Command>, before: Option<int>)
    requires forall i | 0 <= i < |cs| :: !WritesLastFailure(cs[i])
    ensures FinalLastFailure(cs, before) == before
  {
    if cs != [] { NoFailureCommand(cs[1..], before); }
  }

  // ----- when two calls strand the breaker -----

  predicate Precedes(cs: seq<Command>, a: Command, b: Command) {
    exists i, j :: 0 <= i < j < |cs| && cs[i] == a && cs[j] == b
  }

  lemma {:induction false} InterleavingKeepsCommands(a: seq<Command>, b: seq<Command>, merged: seq<Command>)
    requires Interleaves(a, b, merged)
    ensures multiset(merged) == multiset(a) + multiset(b)
    decreases |merged|
  {
    if merged != [] {
      assert merged == [merged[0]] + merged[1..];
      if a != [] && a[0] == merged[0] && Interleaves(a[1..], b, merged[1..]) {
        assert a == [a[0]] + a[1..];
        InterleavingKeepsCommands(a[1..], b, merged[1..]);
      } else {
        assert b == [b[0]] + b[1..];
        InterleavingKeepsCommands(a, b[1..], merged[1..]);
      }
    }
  }

  /** A command that occurs once has one place. */
  lemma OnlyPlace(cs: seq<Command>, c: Command) returns (i: nat)
    requires multiset(cs)[c] == 1
    ensures i < |cs| && cs[i] == c && forall x | 0 <= x < |cs| && cs[x] == c :: x == i
  {
    assert c in cs;
    i :| i < |cs| && cs[i] == c;
    var before, after := cs[..i], cs[i + 1..];
    assert cs == before + [c] + after;
    assert c !in multiset(before) && c !in multiset(after);
    forall x | 0 <= x < i ensures cs[x] != c { assert cs[x] == before[x] && before[x] in multiset(before); }
    forall x | i < x < |cs| ensures cs[x] != c {
      assert cs[x] == after[x - i - 1] && after[x - i - 1] in multiset(after);
    }
  }

  /** The commands of a failing call: it may open the breaker, and notes the failure once. */
  ghost predicate NotesFailure(cs: seq<Command>, at: int) {
    && (forall c | c in cs :: c.SetState? ==> c == SetState(OPEN))
    && (forall c | c in cs :: WritesLastFailure(c) ==> c == SetLastFailure(at))
    && multiset(cs)[SetState(OPEN)] <= 1
    && multiset(cs)[SetLastFailure(at)] == 1
  }

  lemma SuccessCommandsOnce()
    ensures multiset(SUCCESS_COMMANDS)[SetState(CLOSED)] == 1 && multiset(SUCCESS_COMMANDS)[DelLastFailure] == 1
    ensures forall c | c in SUCCESS_COMMANDS :: c.SetState? ==> c == SetState(CLOSED)
    ensures forall c | c in SUCCESS_COMMANDS :: WritesLastFailure(c) ==> c == DelLastFailure
  {
  }

  lemma FailingCallsNote(cfg: Config, count: nat, t: int)
    ensures NotesFailure(ServiceDownCommands(cfg, count, t), t)
    ensures NotesFailure(ProbeFailureCommands(t), t)
  {
    var noting := [Incr, Expire(cfg.window), SetLastFailure(t)];
    assert ServiceDownCommands(cfg, count, t)
           == if count >= cfg.threshold then noting + [SetState(OPEN)] else noting + [];
  }

  lemma MergedState(failing: seq<Command>, merged: seq<Command>, at: int, before: Option<CircuitState>)
    requires NotesFailure(failing, at) && multiset(merged) == multiset(SUCCESS_COMMANDS) + multiset(failing)
    ensures FinalState(merged, before) == Some(OPEN) <==> Precedes(merged, SetState(CLOSED), SetState(OPEN))
  {
    SuccessCommandsOnce();
    assert SetState(CLOSED) !in failing && SetState(OPEN) !in SUCCESS_COMMANDS;
    var closed := OnlyPlace(merged, SetState(CLOSED));
    forall c | c in merged && c.SetState? ensures c == SetState(CLOSED) || c == SetState(OPEN) {
      assert c in multiset(merged);
      assert c in SUCCESS_COMMANDS || c in failing;
    }
    if multiset(failing)[SetState(OPEN)] == 1 {
      var tripped := OnlyPlace(merged, SetState(OPEN));
      LastStateStands(merged, before, if tripped < closed then closed else tripped);
    } else {
      forall i | 0 <= i < |merged| ensures merged[i] != SetState(OPEN) { assert merged[i] in multiset(merged); }
      LastStateStands(merged, before, closed);
    }
  }

  lemma MergedLastFailure(failing: seq<Command>, merged: seq<Command>, at: int, before: Option<int>)
    requires NotesFailure(failing, at) && multiset(merged) == multiset(SUCCESS_COMMANDS) + multiset(failing)
    ensures FinalLastFailure(merged, before).None? <==> Precedes(merged, SetLastFailure(at), DelLastFailure)
  {
    SuccessCommandsOnce();
    assert DelLastFailure !in failing && SetLastFailure(at) !in SUCCESS_COMMANDS;
    var noted := OnlyPlace(merged, SetLastFailure(at));
    var deleted := OnlyPlace(merged, DelLastFailure);
    forall c | c in merged && WritesLastFailure(c) ensures c == SetLastFailure(at) || c == DelLastFailure {
      assert c in multiset(merged);
      assert c in SUCCESS_COMMANDS || c in failing;
    }
    LastFailureStands(merged, before, if noted < deleted then deleted else noted);
  }

  /**
   A success and a failure, their Redis commands merged in any way, strand the breaker exactly when the calls cross:
   CLOSED is written before OPEN, and the failure is noted before it is deleted. `failing` is either a SERVICE_DOWN
   record, `count` being what its INCR answered, or the record of a failed probe.
   */
  lemma CrossingCallsStrandIff(failing: seq<Command>, merged: seq<Command>, k: Keys, cfg: Config, count: nat, t: int)
    requires failing == ServiceDownCommands(cfg, count, t) || failing == ProbeFailureCommands(t)
    requires Interleaves(SUCCESS_COMMANDS, failing, merged)
    ensures Stranded(ExecAll(merged, k, t)) <==>
              Precedes(merged, SetState(CLOSED), SetState(OPEN)) && Precedes(merged, SetLastFailure(t), DelLastFailure)
  {
    InterleavingKeepsCommands(SUCCESS_COMMANDS, failing, merged);
    ExecAllLeaves(merged, k, t);
    FailingCallsNote(cfg, count, t);
    MergedState(failing, merged, t, k.state);
    MergedLastFailure(failing, merged, t, k.lastFailure);
  }

  // ----- any number of calls -----

  /** What a caller writes: a record at the end of its call, `count` being what its INCR answered, or a half-opening. */
  datatype Ending = Succeeded | FoundDown(count: nat, at: int) | ProbeFailed(at: int) | HalfOpened

  predicate Fails(e: Ending) {
    e.FoundDown? || e.ProbeFailed?
  }

  function CommandsOf(cfg: Config, e: Ending): seq<Command> {
    match e
    case Succeeded => SUCCESS_COMMANDS
    case FoundDown(count, at) => ServiceDownCommands(cfg, count, at)
    case ProbeFailed(at) => ProbeFailureCommands(at)
    case HalfOpened => [SetState(HALF_OPEN)]
  }

  /** A command and the call that sends it. */
  datatype Sent = Sent(call: nat, c: Command)

  function Commands(trace: seq<Sent>): seq<Command> {
    seq(|trace|, i requires 0 <= i < |trace| => trace[i].c)
  }

  function SentBy(trace: seq<Sent>, call: nat): seq<Command> {
    if trace == [] then []
    else (if trace[0].call == call then [trace[0].c] else []) + SentBy(trace[1..], call)
  }

  /** The trace merges the calls, each in its own order; a cancelled or crashed one may be cut off anywhere. */
  predicate Merges(cfg: Config, calls: seq<Ending>, trace: seq<Sent>) {
    && (forall i | 0 <= i < |trace| :: trace[i].call < |calls|)
    && (forall n | 0 <= n < |calls| :: SentBy(trace, n) <= CommandsOf(cfg, calls[n]))
  }

  function SentAlone(cs: seq<Command>, call: nat): seq<Sent> {
    if cs == [] then [] else [Sent(call, cs[0])] + SentAlone(cs[1..], call)
  }

  lemma {:induction false} AloneInOrder(cs: seq<Command>, call: nat)
    ensures SentBy(SentAlone(cs, call), call) == cs
    ensures forall i | 0 <= i < |SentAlone(cs, call)| :: SentAlone(cs, call)[i].call == call
  {
    if cs != [] { AloneInOrder(cs[1..], call); }
  }

  /** A single call merges with nothing: whole, or cut off after any number of commands. */
  lemma CutOffAnywhereMerges(cfg: Config, e: Ending, m: nat)
    requires m <= |CommandsOf(cfg, e)|
    ensures Merges(cfg, [e], SentAlone(CommandsOf(cfg, e)[..m], 0))
  {
    AloneInOrder(CommandsOf(cfg, e)[..m], 0);
  }

  lemma {:induction false} SentByHasCommand(trace: seq<Sent>, x: Sent)
    ensures x in trace <==> x.c in SentBy(trace, x.call)
  {
    if trace != [] {
      SentByHasCommand(trace[1..], x);
      assert trace == [trace[0]] + trace[1..];
    }
  }

  predicate Before(trace: seq<Sent>, x: Sent, y: Sent) {
    exists i, j :: 0 <= i < j < |trace| && trace[i] == x && trace[j] == y
  }

  /** The success `s` closes the breaker before the failure `f` opens it, and deletes the failure after `f` noted it. */
  predicate Cross(calls: seq<Ending>, trace: seq<Sent>, s: nat, f: nat) {
    && s < |calls| && calls[s].Succeeded? && f < |calls| && Fails(calls[f])
    && Before(trace, Sent(s, SetState(CLOSED)), Sent(f, SetState(OPEN)))
    && Before(trace, Sent(f, SetLastFailure(calls[f].at)), Sent(s, DelLastFailure))
  }

  lemma {:induction false} LastStateCommand(cs: seq<Command>, before: Option<CircuitState>) returns (j: int)
    ensures -1 <= j < |cs| && (j >= 0 ==> cs[j].SetState?) && forall i | j < i < |cs| :: !cs[i].SetState?
    ensures FinalState(cs, before) == if j >= 0 then Some(cs[j].s) else before
  {
    j := |cs| - 1;
    while j >= 0 && !cs[j].SetState?
      invariant -1 <= j < |cs| && forall i | j < i < |cs| :: !cs[i].SetState?
    {
      j := j - 1;
    }
    if j >= 0 { LastStateStands(cs, before, j); } else { NoStateCommand(cs, before); }
  }

  lemma {:induction false} LastFailureCommand(cs: seq<Command>, before: Option<int>) returns (j: int)
    ensures -1 <= j < |cs| && (j >= 0 ==> WritesLastFailure(cs[j]))
    ensures forall i | j < i < |cs| :: !WritesLastFailure(cs[i])
    ensures FinalLastFailure(cs, before)
            == if j < 0 then before else if cs[j].SetLastFailure? then Some(cs[j].at) else None
  {
    j := |cs| - 1;
    while j >= 0 && !WritesLastFailure(cs[j])
      invariant -1 <= j < |cs| && forall i | j < i < |cs| :: !WritesLastFailure(cs[i])
    {
      j := j - 1;
    }
    if j >= 0 { LastFailureStands(cs, before, j); } else { NoFailureCommand(cs, before); }
  }

  lemma EndingSends(cfg: Config, e: Ending)
    ensures SetState(OPEN) in CommandsOf(cfg, e) ==> Fails(e)
    ensures DelLastFailure in CommandsOf(cfg, e) ==> e.Succeeded?
  {
    match e
    case Succeeded => SuccessNeverOpens();
    case FoundDown(count, at) =>
      FailingCallsNote(cfg, count, at);
      FailureNeverDeletes(ServiceDownCommands(cfg, count, at), at);
    case ProbeFailed(at) =>
      FailingCallsNote(cfg, 0, at);
      FailureNeverDeletes(ProbeFailureCommands(at), at);
    case HalfOpened =>
  }

  lemma SuccessNeverOpens()
    ensures SetState(OPEN) !in SUCCESS_COMMANDS
  {
  }

  lemma FailureNeverDeletes(cs: seq<Command>, at: int)
    requires NotesFailure(cs, at)
    ensures DelLastFailure !in cs
  {
    assert DelLastFailure != SetLastFailure(at) && WritesLastFailure(DelLastFailure);
  }

  /** Who may send what. */
  lemma Senders(cfg: Config, calls: seq<Ending>, trace: seq<Sent>, i: nat)
    requires Merges(cfg, calls, trace) && i < |trace|
    ensures var x := trace[i];
            && x.call < |calls|
            && x.c in SentBy(trace, x.call)
            && (x.c == SetState(OPEN) ==> Fails(calls[x.call]))
            && (x.c == DelLastFailure ==> calls[x.call].Succeeded?)
  {
    SentByHasCommand(trace, trace[i]);
    EndingSends(cfg, calls[trace[i].call]);
  }

  /** A success that has deleted the failure has closed the breaker before. */
  lemma SuccessSends(cfg: Config, calls: seq<Ending>, trace: seq<Sent>, s: nat) returns (i: nat)
    requires Merges(cfg, calls, trace) && s < |calls| && calls[s].Succeeded? && SentBy(trace, s) != []
    ensures i < |trace| && trace[i] == Sent(s, SetState(CLOSED))
  {
    SentByHasCommand(trace, Sent(s, SetState(CLOSED)));
    assert SentBy(trace, s)[0] == SUCCESS_COMMANDS[0];
    i :| i < |trace| && trace[i] == Sent(s, SetState(CLOSED));
  }

  /** The probe failure `f` was cut off right after it wrote OPEN. */
  predicate CutOff(calls: seq<Ending>, trace: seq<Sent>, f: nat) {
    f < |calls| && calls[f].ProbeFailed? && SentBy(trace, f) == [SetState(OPEN)]
  }

  /** A failure that has opened the breaker has noted itself, unless it is a probe's and was cut off. */
  lemma OpeningIsNoted(cfg: Config, e: Ending, sent: seq<Command>)
    requires Fails(e) && sent <= CommandsOf(cfg, e) && SetState(OPEN) in sent
    ensures SetLastFailure(e.at) in sent || (e.ProbeFailed? && sent == [SetState(OPEN)])
  {
    var cs := CommandsOf(cfg, e);
    if e.FoundDown? {
      assert cs[0] == Incr && cs[1] == Expire(cfg.window) && cs[2] == SetLastFailure(e.at);
      var i :| 0 <= i < |sent| && sent[i] == SetState(OPEN);
      assert cs[i] == SetState(OPEN);
      assert sent[2] == cs[2];
    } else {
      assert cs[0] == SetState(OPEN) && cs[1] == SetLastFailure(e.at);
      if |sent| > 1 { assert sent[1] == cs[1]; } else { assert sent == [cs[0]]; }
    }
  }

  lemma FailureSends(cfg: Config, calls: seq<Ending>, trace: seq<Sent>, f: nat) returns (i: nat)
    requires Merges(cfg, calls, trace) && f < |calls| && Fails(calls[f]) && SetState(OPEN) in SentBy(trace, f)
    requires !CutOff(calls, trace, f)
    ensures i < |trace| && trace[i] == Sent(f, SetLastFailure(calls[f].at))
  {
    OpeningIsNoted(cfg, calls[f], SentBy(trace, f));
    SentByHasCommand(trace, Sent(f, SetLastFailure(calls[f].at)));
    i :| i < |trace| && trace[i] == Sent(f, SetLastFailure(calls[f].at));
  }

  /** A merge that leaves OPEN behind: the call that wrote it, and whether a success deleted the failure after it. */
  lemma StrandedWriters(cfg: Config, calls: seq<Ending>, trace: seq<Sent>, k: Keys, t: int)
    returns (opener: nat, deleter: int)
    requires Merges(cfg, calls, trace) && !Stranded(k) && Stranded(ExecAll(Commands(trace), k, t))
    ensures opener < |trace| && trace[opener].c == SetState(OPEN)
    ensures forall i | opener < i < |trace| :: !trace[i].c.SetState?
    ensures deleter < |trace| && forall i | 0 <= i < |trace| && deleter < i :: !WritesLastFailure(trace[i].c)
    ensures deleter >= 0 ==> trace[deleter].c == DelLastFailure
  {
    var cs := Commands(trace);
    ExecAllLeaves(cs, k, t);
    var lastState := LastStateCommand(cs, k.state);
    deleter := LastFailureCommand(cs, k.lastFailure);
    if deleter >= 0 {
      assert trace[deleter].c == DelLastFailure;
      Senders(cfg, calls, trace, deleter);
      var closed := SuccessSends(cfg, calls, trace, trace[deleter].call);
      assert cs[closed].SetState?;
    }
    assert lastState >= 0 && cs[lastState] == SetState(OPEN);
    opener := lastState;
    forall i | opener < i < |trace| ensures !trace[i].c.SetState? { assert cs[i] == trace[i].c; }
    forall i | 0 <= i < |trace| && deleter < i ensures !WritesLastFailure(trace[i].c) { assert cs[i] == trace[i].c; }
  }

  /**
   However many calls write at once, their commands merged in any way and any of them cut off: the breaker is stranded
   only if some success crosses some failure, or if a probe's failure was cut off right after it wrote OPEN.
   */
  lemma StrandedNeedsCrossing(cfg: Config, calls: seq<Ending>, trace: seq<Sent>, k: Keys, t: int)
    returns (s: nat, f: nat)
    requires Merges(cfg, calls, trace) && !Stranded(k) && Stranded(ExecAll(Commands(trace), k, t))
    ensures Cross(calls, trace, s, f) || CutOff(calls, trace, f)
  {
    var opener, deleter := StrandedWriters(cfg, calls, trace, k, t);
    Senders(cfg, calls, trace, opener);
    s, f := 0, trace[opener].call;
    if !CutOff(calls, trace, f) {
      var noted := FailureSends(cfg, calls, trace, f);
      assert WritesLastFailure(trace[noted].c);
      Senders(cfg, calls, trace, deleter);
      s := trace[deleter].call;
      var closed := SuccessSends(cfg, calls, trace, s);
      assert trace[closed].c.SetState? && closed != opener && noted != deleter;
      assert trace[opener] == Sent(f, SetState(OPEN)) && trace[deleter] == Sent(s, DelLastFailure);
    }
  }

  /**
   Taken one Redis command at a time the breaker can be stranded: a success whose commands are interleaved
   with the failure that reaches the threshold leaves OPEN behind and deletes `last_failure`.
   */
  lemma InterleavedCommandsStrandTheBreaker(k: Keys, cfg: Config, t: int) returns (merged: seq<Command>)
    requires LiveCount(k, t) + 1 >= cfg.threshold
    ensures Interleaves(SUCCESS_COMMANDS, ServiceDownCommands(cfg, LiveCount(k, t) + 1, t), merged)
    ensures Stranded(ExecAll(merged, k, t))
  {
    // The success closes the breaker between the failure's bookkeeping and its OPEN; its deletions come last.
    var deletions := [DelCount, DelLastFailure, DelProbeLock];
    var trip := [SetState(OPEN)];
    var closing := [SetState(CLOSED)] + (trip + deletions);
    var down := [Incr] + ([Expire(cfg.window)] + ([SetLastFailure(t)] + trip));
    merged := [Incr] + ([Expire(cfg.window)] + ([SetLastFailure(t)] + closing));
    assert down == ServiceDownCommands(cfg, LiveCount(k, t) + 1, t);
    assert SUCCESS_COMMANDS == [SetState(CLOSED)] + deletions;

    InterleavesAlone(deletions);
    InterleavesCons(SetState(OPEN), deletions, [], deletions);
    InterleavesCons(SetState(CLOSED), deletions, trip, trip + deletions);
    InterleavesCons(SetLastFailure(t), SUCCESS_COMMANDS, trip, closing);
    InterleavesCons(Expire(cfg.window), SUCCESS_COMMANDS, [SetLastFailure(t)] + trip, [SetLastFailure(t)] + closing);
    InterleavesCons(Incr, SUCCESS_COMMANDS, down[1..], merged[1..]);

    var k3 := Exec(SetLastFailure(t), Exec(Expire(cfg.window), Exec(Incr, k, t), t), t);
    ExecAllCons(Incr, merged[1..], k, t);
    ExecAllCons(Expire(cfg.window), [SetLastFailure(t)] + closing, Exec(Incr, k, t), t);
    ExecAllCons(SetLastFailure(t), closing, Exec(Expire(cfg.window), Exec(Incr, k, t), t), t);
    ExecAllCons(SetState(CLOSED), trip + deletions, k3, t);
    ExecAllCons(SetState(OPEN), deletions, Exec(SetState(CLOSED), k3, t), t);
    DeletionsKeepState(Exec(SetState(OPEN), Exec(SetState(CLOSED), k3, t), t), t);
  }

  lemma InterleavesCons(c: Command, a: seq<Command>, b: seq<Command>, merged: seq<Command>)
    requires Interleaves(a, b, merged)
    ensures Interleaves([c] + a, b, [c] + merged) && Interleaves(a, [c] + b, [c] + merged)
  {
    assert ([c] + merged)[1..] == merged && ([c] + a)[1..] == a && ([c] + b)[1..] == b;
  }

  lemma {:induction false} InterleavesAlone(a: seq<Command>)
    ensures Interleaves(a, [], a)
  {
    if a != [] { InterleavesAlone(a[1..]); }
  }
}
