/** `BaseExternalService.call`: the retry loop around one provider (services/base.py). */
module BaseService {
  import opened Breaker
  import opened Common
  import opened Json
  import opened Providers
  import opened ServiceResults

  datatype HttpOutcome = TimedOut | TransportError | Response(status: int, body: Option<Json>)

  /** The provider's answer to one attempt and the tick at which it is recorded. */
  datatype Exchange = Exchange(outcome: HttpOutcome, at: int)

  /** `_json_response`: the body when it is a dictionary, or the dictionary under its `detail` key. */
  function JsonResponse(body: Option<Json>): Option<Dict> {
    if body.None? || !body.value.Obj? then None
    else
      var payload := body.value.fields;
      if "detail" in payload && payload["detail"].Obj? then Some(payload["detail"].fields) else Some(payload)
  }

  function ClassifyResponse(status: int): Option<FailureType> {
    if status == 408 then Some(TIMEOUT)
    else if status >= 500 then Some(SERVICE_DOWN)
    else if status == 404 then Some(NO_RECORD)
    else if status == 400 then Some(FORMAT_ERROR)
    else if status >= 400 then Some(SERVICE_DOWN)
    else None
  }

  function Failed(f: FailureType, fallback: bool): ResultValue {
    ResultValue(false, None, Some(f), None, fallback, 0, None)
  }

  function AttemptResult(outcome: HttpOutcome): ResultValue {
    match outcome
    case TimedOut => Failed(TIMEOUT, false)
    case TransportError => Failed(SERVICE_DOWN, false)
    case Response(status, body) =>
      var raw := JsonResponse(body);
      var failure := ClassifyResponse(status);
      ResultValue(failure.None?, if failure.None? then raw else None, failure, raw, false, 0,
                  if Has(raw, "request_id") then Some(raw.value["request_id"]) else None)
  }

  /** `base * 2**attempt` plus the deterministic jitter. */
  function RetryDelay(base: real, attempt: nat): real {
    base * Pow2(attempt) as real + Jitter(attempt)
  }

  function Jitter(attempt: nat): real {
    ((attempt + 1) * 137 % 500) as real / 1000.0
  }

  function Pow2(n: nat): nat {
    if n == 0 then 1 else 2 * Pow2(n - 1)
  }

  // ----- what a call amounts to -----

  /** Keys afterwards, the result, and how many attempts were made. */
  datatype CallOutcome = CallOutcome(keys: Keys, result: ResultValue, attempts: nat)

  /** The loop from attempt `i`, `max` being the last attempt allowed. */
  function LoopFrom(cfg: Config, k: Keys, provider: nat -> Exchange, i: nat, max: nat, probe: bool): CallOutcome
    requires i <= max
    decreases max - i
  {
    var r := AttemptResult(provider(i).outcome).(retryCount := i);
    var at := provider(i).at;
    if r.success then CallOutcome(RecordSuccess(k), r, i + 1)
    else
      var final := r.(fallbackUsed := Retryable(r.failure));
      if probe then CallOutcome(RecordHalfOpenFailure(k, at), final, i + 1)
      else
        var k' := if r.failure == Some(SERVICE_DOWN) then RecordServiceDown(k, cfg, at) else k;
        if !Retryable(r.failure) || i == max then CallOutcome(k', final, i + 1)
        else LoopFrom(cfg, k', provider, i + 1, max, probe)
  }

  /** The whole call when nobody else touches the keys meanwhile. */
  function CallFrom(cfg: Config, k: Keys, provider: nat -> Exchange, start: int): CallOutcome {
    var (k1, state) := ReadState(k, cfg, start);
    match state
    case OPEN => CallOutcome(k1, Failed(SERVICE_DOWN, true), 0)
    case HALF_OPEN =>
      var (k2, acquired) := AcquireProbe(k1, cfg, start);
      if acquired then LoopFrom(cfg, k2, provider, 0, 0, true) else CallOutcome(k2, Failed(SERVICE_DOWN, true), 0)
    case CLOSED =>
      if cfg.maxRetries < 0 then CallOutcome(k1, Failed(SERVICE_DOWN, true), 0)
      else LoopFrom(cfg, k1, provider, 0, cfg.maxRetries, false)
  }

  class BaseExternalService {
    const cfg: Config
    const backoffBase: real
    var state: Option<CircuitState>
    var failureCount: Option<Counter>
    var lastFailure: Option<int>
    var probeLock: Option<int>

    function Keys(): Keys
      reads this
    {
      Breaker.Keys(state, failureCount, lastFailure, probeLock)
    }

    constructor (cfg: Config, backoffBase: real)
      ensures this.cfg == cfg && this.backoffBase == backoffBase && Keys() == NO_KEYS
    {
      this.cfg, this.backoffBase := cfg, backoffBase;
      state, failureCount, lastFailure, probeLock := None, None, None, None;
    }

    method ReadCircuitState(t: int) returns (s: CircuitState)
      modifies this
      ensures (Keys(), s) == ReadState(old(Keys()), cfg, t)
    {
      if state.None? { return CLOSED; }
      if state == Some(OPEN) && lastFailure.Some? {
        var elapsed := t - lastFailure.value;
        if elapsed >= cfg.timeout {
          state := Some(HALF_OPEN);
          return HALF_OPEN;
        }
      }
      return state.value;
    }

    method NoteSuccess()
      modifies this
      ensures Keys() == RecordSuccess(old(Keys()))
    {
      state := Some(CLOSED);
      failureCount := None;
      lastFailure := None;
      probeLock := None;
    }

    method NoteServiceDown(t: int)
      modifies this
      ensures Keys() == RecordServiceDown(old(Keys()), cfg, t)
    {
      var count := LiveCount(Keys(), t) + 1;
      failureCount := Some(Counter(count, Some(t + cfg.window)));
      lastFailure := Some(t);
      if count >= cfg.threshold { state := Some(OPEN); }
    }

    method AcquireHalfOpenProbe(t: int) returns (acquired: bool)
      modifies this
      ensures (Keys(), acquired) == AcquireProbe(old(Keys()), cfg, t)
    {
      if probeLock.Some? && t < probeLock.value { return false; }
      probeLock := Some(t + cfg.probeTtl);
      return true;
    }

    method NoteHalfOpenFailure(t: int)
      modifies this
      ensures Keys() == RecordHalfOpenFailure(old(Keys()), t)
    {
      state := Some(OPEN);
      lastFailure := Some(t);
      probeLock := None;
    }

    /** `delays` are the sleeps between attempts. */
    method Call(provider: nat -> Exchange, start: int) returns (result: ServiceResult, attempts: nat, delays: seq<real>)
      modifies this
      ensures fresh(result)
      ensures CallOutcome(Keys(), result.Value(), attempts) == CallFrom(cfg, old(Keys()), provider, start)
      ensures |delays| == if attempts == 0 then 0 else attempts - 1
      ensures forall i | 0 <= i < |delays| :: delays[i] == RetryDelay(backoffBase, i)
    {
      attempts, delays := 0, [];
      var circuit := ReadCircuitState(start);
      var probe := false;
      if circuit == OPEN {
        result := new ServiceResult(Failed(SERVICE_DOWN, true));
        return;
      }
      if circuit == HALF_OPEN {
        probe := AcquireHalfOpenProbe(start);
        if !probe {
          result := new ServiceResult(Failed(SERVICE_DOWN, true));
          return;
        }
      }
      var maxRetries := if probe then 0 else cfg.maxRetries;
      if maxRetries < 0 {
        result := new ServiceResult(Failed(SERVICE_DOWN, true));
        return;
      }
      result, attempts, delays := Retry(provider, maxRetries, probe);
    }

    /** The loop of `Call`. */
    method Retry(provider: nat -> Exchange, maxRetries: nat, probe: bool)
      returns (result: ServiceResult, attempts: nat, delays: seq<real>)
      requires probe ==> maxRetries == 0
      modifies this
      ensures fresh(result)
      ensures CallOutcome(Keys(), result.Value(), attempts)
              == LoopFrom(cfg, old(Keys()), provider, 0, maxRetries, probe)
      ensures attempts > 0 && |delays| == attempts - 1
      ensures forall i | 0 <= i < |delays| :: delays[i] == RetryDelay(backoffBase, i)
    {
      attempts, delays := 0, [];
      result := new ServiceResult(Failed(SERVICE_DOWN, true));
      ghost var k := Keys();
      while attempts <= maxRetries
        invariant attempts <= maxRetries
        invariant |delays| == attempts && forall i | 0 <= i < |delays| :: delays[i] == RetryDelay(backoffBase, i)
        invariant LoopFrom(cfg, Keys(), provider, attempts, maxRetries, probe)
                  == LoopFrom(cfg, k, provider, 0, maxRetries, probe)
        invariant probe ==> attempts == 0
        decreases maxRetries - attempts
      {
        var attempt := attempts;
        attempts := attempts + 1;
        var exchange := provider(attempt);
        result := new ServiceResult(AttemptResult(exchange.outcome));
        result.retryCount := attempt;
        if result.success {
          NoteSuccess();
          return;
        }
        if probe {
          NoteHalfOpenFailure(exchange.at);
          result.fallbackUsed := Retryable(result.failure);
          return;
        }
        if result.failure == Some(SERVICE_DOWN) { NoteServiceDown(exchange.at); }
        if !Retryable(result.failure) || attempt == maxRetries {
          result.fallbackUsed := Retryable(result.failure);
          return;
        }
        delays := delays + [RetryDelay(backoffBase, attempt)];
      }
    }
  }

  /** `CreditBureauService.fetch`, `BankAnalyzerService.analyze` and `GstVerifierService.verify` on top of `call`. */
  method CallProvider(h: Host.Host, s: Source, service: BaseExternalService, provider: nat -> Exchange, start: int,
                      now: int)
    returns (result: Option<ServiceResult>)
    modifies service
    ensures var call := CallFrom(service.cfg, old(service.Keys()), provider, start);
            && service.Keys() == call.keys
            && (result.None? <==> AfterCall(h, s, call.result, now).Raised?)
            && (result.Some? ==> fresh(result.value) && Ok(result.value.Value()) == AfterCall(h, s, call.result, now))
  {
    var r, attempts, delays := service.Call(provider, start);
    match s {
      case CREDIT_BUREAU =>
        var raised := FinishFetch(h, r, now);
        if raised { return None; }
      case BANK_ANALYZER => FinishAnalyze(r);
      case GST_VERIFIER => FinishVerify(r);
    }
    return Some(r);
  }

  // ----- what the loop guarantees -----

  predicate AttemptFailsRetryably(provider: nat -> Exchange, i: nat) {
    var r := AttemptResult(provider(i).outcome); !r.success && Retryable(r.failure)
  }

  lemma {:induction false} LoopBounds(cfg: Config, k: Keys, provider: nat -> Exchange, i: nat, max: nat, probe: bool)
    requires i <= max
    ensures var out := LoopFrom(cfg, k, provider, i, max, probe);
            && i < out.attempts <= max + 1
            && out.result.retryCount == out.attempts - 1
            && CallShape(out.result)
            && (forall n | i <= n < out.attempts - 1 :: AttemptFailsRetryably(provider, n))
            && (out.attempts <= max && !probe ==> !AttemptFailsRetryably(provider, out.attempts - 1))
            && (probe ==> out.attempts == i + 1)
    decreases max - i
  {
    var r := AttemptResult(provider(i).outcome);
    if !r.success && !probe && Retryable(r.failure) && i < max {
      var k' := if r.failure == Some(SERVICE_DOWN) then RecordServiceDown(k, cfg, provider(i).at) else k;
      LoopBounds(cfg, k', provider, i + 1, max, probe);
    }
  }

  /**
   A call makes at most MAX_RETRIES + 1 attempts, goes on only after TIMEOUT or SERVICE_DOWN, stops early only on
   another answer, reports its retries, and returns one of the shapes the provider clients expect.
   */
  lemma CallGuarantees(cfg: Config, k: Keys, provider: nat -> Exchange, start: int)
    requires cfg.maxRetries >= 0
    ensures var out := CallFrom(cfg, k, provider, start);
            && out.attempts <= cfg.maxRetries + 1
            && CallShape(out.result)
            && (out.attempts > 0 ==> out.result.retryCount == out.attempts - 1)
            && (out.attempts == 0 ==> out.result == Failed(SERVICE_DOWN, true))
            && (forall n | 0 <= n < out.attempts - 1 :: AttemptFailsRetryably(provider, n))
            && (ReadState(k, cfg, start).1 == CLOSED ==> out.attempts > 0)
            && (0 < out.attempts <= cfg.maxRetries && ReadState(k, cfg, start).1 == CLOSED ==>
                  !AttemptFailsRetryably(provider, out.attempts - 1))
    ensures ReadState(k, cfg, start).1 == OPEN ==> CallFrom(cfg, k, provider, start).attempts == 0
    ensures ReadState(k, cfg, start).1 == HALF_OPEN ==> CallFrom(cfg, k, provider, start).attempts <= 1
  {
    var (k1, state) := ReadState(k, cfg, start);
    LoopBounds(cfg, k1, provider, 0, cfg.maxRetries, false);
    LoopBounds(cfg, AcquireProbe(k1, cfg, start).0, provider, 0, 0, true);
  }

  // ----- retry delays -----

  function TotalDelay(base: real, n: nat): real {
    if n == 0 then 0.0 else TotalDelay(base, n - 1) + RetryDelay(base, n - 1)
  }

  lemma JitterBelowHalf(attempt: nat)
    ensures 0.0 <= Jitter(attempt) < 0.5
  {
    assert 0 <= (attempt + 1) * 137 % 500 <= 499;
  }

  lemma DelayStep(base: real, attempt: nat)
    ensures base * (Pow2(attempt + 1) - 1) as real == base * (Pow2(attempt) - 1) as real + base * Pow2(attempt) as real
    ensures base * Pow2(attempt + 1) as real == base * Pow2(attempt) as real + base * Pow2(attempt) as real
  {
    var p := Pow2(attempt) as real;
    assert Pow2(attempt + 1) as real == p + p;
    assert base * (p + p) == base * p + base * p;
    assert (Pow2(attempt + 1) - 1) as real == (p - 1.0) + p;
    assert base * ((p - 1.0) + p) == base * (p - 1.0) + base * p;
  }

  function TotalBackoff(base: real, n: nat): real {
    if n == 0 then 0.0 else TotalBackoff(base, n - 1) + base * Pow2(n - 1) as real
  }

  function TotalJitter(n: nat): real {
    if n == 0 then 0.0 else TotalJitter(n - 1) + Jitter(n - 1)
  }

  lemma {:induction false} DelaysSplit(base: real, n: nat)
    ensures TotalDelay(base, n) == TotalBackoff(base, n) + TotalJitter(n)
  {
    if n > 0 { DelaysSplit(base, n - 1); }
  }

  lemma {:induction false} BackoffIsGeometric(base: real, n: nat)
    ensures TotalBackoff(base, n) == base * (Pow2(n) - 1) as real
  {
    if n > 0 {
      BackoffIsGeometric(base, n - 1);
      DelayStep(base, n - 1);
    } else {
      assert base * 0.0 == 0.0;
    }
  }

  lemma {:induction false} JitterIsSmall(n: nat)
    ensures 0.0 <= TotalJitter(n) <= n as real / 2.0
  {
    if n > 0 {
      JitterIsSmall(n - 1);
      JitterBelowHalf(n - 1);
    }
  }

  /** n delays add up to the geometric sum plus less than half a second each. */
  lemma {:induction false} TotalDelayBounds(base: real, n: nat)
    ensures base * (Pow2(n) - 1) as real <= TotalDelay(base, n) <= base * (Pow2(n) - 1) as real + n as real / 2.0
  {
    DelaysSplit(base, n);
    BackoffIsGeometric(base, n);
    JitterIsSmall(n);
  }

  lemma BackoffAtLeastHalf(base: real, attempt: nat)
    requires base >= 0.5
    ensures base * Pow2(attempt) as real >= 0.5
  {
    PowerPositive(attempt);
    var p := Pow2(attempt) as real;
    assert (base - 0.5) * p >= 0.0;
    assert base * p == (base - 0.5) * p + 0.5 * p;
  }

  /** With a base of half a second or more each delay exceeds the last. */
  lemma DelaysIncrease(base: real, attempt: nat)
    requires base >= 0.5
    ensures RetryDelay(base, attempt) < RetryDelay(base, attempt + 1)
  {
    JitterBelowHalf(attempt);
    JitterBelowHalf(attempt + 1);
    DelayStep(base, attempt);
    BackoffAtLeastHalf(base, attempt);
    DoublingWins(base * Pow2(attempt) as real, Jitter(attempt), Jitter(attempt + 1));
  }

  lemma DoublingWins(backoff: real, jitter: real, jitter': real)
    requires backoff >= 0.5 && jitter < 0.5 && jitter' >= 0.0
    ensures backoff + jitter < (backoff + backoff) + jitter'
  {
  }

  lemma {:induction false} PowerPositive(n: nat)
    ensures Pow2(n) >= 1
  {
    if n > 0 { PowerPositive(n - 1); }
  }

  /** The delays of the default base of two seconds, to the millisecond. */
  lemma DefaultDelays()
    ensures RetryDelay(2.0, 0) == 2.137 && RetryDelay(2.0, 1) == 4.274 && RetryDelay(2.0, 2) == 8.411
    ensures RetryDelay(2.0, 3) == 16.048 && RetryDelay(2.0, 4) == 32.185
  {
    assert Pow2(1) == 2 && Pow2(2) == 4 && Pow2(3) == 8 && Pow2(4) == 16;
  }

  /** Equal jitter means 500 or more attempts apart: no two of 500 consecutive attempts share theirs. */
  lemma {:induction false} JitterInjective(a: nat, b: nat)
    requires a < b && Jitter(a) == Jitter(b)
    ensures b - a >= 500
  {
    var x, y := (a + 1) * 137, (b + 1) * 137;
    SameResidue(x, y);
    InverseApart(b - a, y / 500 - x / 500);
  }

  lemma SameResidue(x: nat, y: nat)
    requires (x % 500) as real / 1000.0 == (y % 500) as real / 1000.0
    ensures y - x == 500 * (y / 500 - x / 500)
  {
    var r, s := x % 500, y % 500;
    assert r as real == s as real;
    assert r == s;
    assert x == 500 * (x / 500) + r && y == 500 * (y / 500) + s;
  }

  lemma InverseApart(d: int, q: int)
    requires d > 0 && d * 137 == 500 * q
    ensures d >= 500
  {
    // 73 inverts 137 modulo 500: 137 * 73 == 20 * 500 + 1.
    var m := q * 73 - 20 * d;
    assert d == 500 * m;
  }
}
