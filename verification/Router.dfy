/** The chain loop around the retry loop. Both the plain and the streaming path run it;
    they differ in what one attempt is. The environment answers the k-th attempt of a
    request with `env(k)`; times only ever advance, by the durations it names. */
module Router {
  import opened Basics
  import opened Provider
  import opened Backoff

  /** How one attempt ended. `Refused` is the breaker's gate; `Blocked` an attempt that has
      not ended yet. */
  datatype Outcome = Success | Refused | Failed(err: Error) | Blocked

  /** `took`: gate and call. `sleep`: how much longer than asked the sleep before the next
      attempt lasts, or None if the context is cancelled during it. `idle`: time until the
      chain loop looks at the clock. */
  datatype Attempt = Attempt(outcome: Outcome, took: nat, random: real, sleep: Option<nat>, idle: nat)

  type Env = nat -> Attempt

  /** The retry policy, with its delay rule as a value: attempt number, hint, random factor. */
  datatype RetryPolicy = RetryPolicy(maxRetries: int, maxTotal: int, delay: (int, int, real) -> int)

  /** The policy the gateway runs with. */
  function Standard(p: Policy): RetryPolicy {
    RetryPolicy(p.maxRetries, p.maxTotal, (attempt, hint, r) => Delay(p, attempt, hint, r))
  }

  function RetryAfterOf(e: Error): int {
    if e.UpstreamError? then e.retryAfter else 0
  }

  /** The clock reading's budget test, on wrapping 64-bit durations. */
  predicate OverBudget(p: RetryPolicy, elapsed: int, delay: int) {
    p.maxTotal > 0 && Wrap64(elapsed + delay) > p.maxTotal
  }

  // ---- The retry loop on one provider ----

  datatype Verdict = Answered | Rejected | Fatal(err: Error) | GaveUp(err: Error) | Interrupted | Waiting

  /** A sleep that was started: how old the request was when it was decided on, and its length. */
  datatype Sleep = Sleep(elapsed: int, delay: int)

  /** The request's attempts so far are 0 .. next-1. */
  datatype Trial = Trial(verdict: Verdict, next: nat, now: int, sleeps: seq<Sleep>)

  /** What happens after attempt `a`, the `attempt`-th retry on its provider, `elapsed` into the request. */
  datatype Step = Stop(verdict: Verdict) | Retry(delay: int)

  function Decide(p: RetryPolicy, a: Attempt, attempt: nat, elapsed: int): Step {
    match a.outcome
    case Success => Stop(Answered)
    case Refused => Stop(Rejected)
    case Blocked => Stop(Waiting)
    case Failed(e) =>
      if !IsRetryable(e) then
        Stop(Fatal(e))
      else if attempt >= p.maxRetries then
        Stop(GaveUp(e))
      else
        var delay := p.delay(attempt + 1, RetryAfterOf(e), a.random);
        if OverBudget(p, elapsed, delay) then Stop(GaveUp(e)) else Retry(delay)
  }

  function Try(p: RetryPolicy, env: Env, start: int, k: nat, attempt: nat, now: int, sleeps: seq<Sleep>): Trial
    decreases p.maxRetries - attempt
  {
    var a := env(k);
    var t := now + a.took;
    match Decide(p, a, attempt, t - start)
    case Stop(verdict) => Trial(verdict, k + 1, t, sleeps)
    case Retry(delay) =>
      var sleeps' := sleeps + [Sleep(t - start, delay)];
      if a.sleep.None? then Trial(Interrupted, k + 1, t, sleeps')
      else Try(p, env, start, k + 1, attempt + 1, t + Max(delay, 0) + a.sleep.value, sleeps')
  }

  // ---- The chain loop ----

  datatype RouterError = NoProvider | GateError | ProviderError(err: Error)

  datatype Result = Reply | Err(error: RouterError) | Unfinished

  /** `visits[j]` is the chain position the j-th attempt went to. */
  datatype Run = Run(visits: seq<nat>, sleeps: seq<Sleep>, result: Result, end: int)

  function Repeat(x: nat, n: int): (s: seq<nat>)
    ensures |s| == Max(n, 0) && forall i :: 0 <= i < |s| ==> s[i] == x
  {
    seq(Max(n, 0), _ => x)
  }

  function VerdictResult(v: Verdict): Result {
    match v
    case Answered => Reply
    case Rejected => Err(GateError)
    case Fatal(e) => Err(ProviderError(e))
    case GaveUp(e) => Err(ProviderError(e))
    case Interrupted => Err(ProviderError(ContextError))
    case Waiting => Unfinished
  }

  /** The errors after which the next provider is tried. */
  predicate FailsOver(v: Verdict) {
    v.Rejected? || v.GaveUp?
  }

  predicate ChainSpent(p: RetryPolicy, elapsed: int) {
    p.maxTotal > 0 && elapsed >= p.maxTotal
  }

  /** The clock when the chain loop looks at it after a trial. */
  function After(env: Env, trial: Trial): int {
    trial.now + (if trial.next == 0 then 0 else env(trial.next - 1).idle)
  }

  function Chain(p: RetryPolicy, env: Env, start: int, n: nat, idx: nat, now: int, visits: seq<nat>, sleeps: seq<Sleep>): Run
    requires idx < n
    decreases n - idx
  {
    var trial := Try(p, env, start, |visits|, 0, now, sleeps);
    var end := After(env, trial);
    var visits' := visits + Repeat(idx, trial.next - |visits|);
    if !FailsOver(trial.verdict) || ChainSpent(p, end - start) || idx + 1 == n then
      Run(visits', trial.sleeps, VerdictResult(trial.verdict), end)
    else
      Chain(p, env, start, n, idx + 1, end, visits', trial.sleeps)
  }

  function Route(p: RetryPolicy, env: Env, n: nat, start: int): Run {
    if n == 0 then Run([], [], Err(NoProvider), start) else Chain(p, env, start, n, 0, start, [], [])
  }

  // ---- The loops themselves ----

  /** A permit given back: for which attempt, and what the breaker was told. */
  datatype Release = Release(attempt: nat, obs: Option<Error>)

  /** The breaker's books for the first `hi` attempts: one release per granted permit. */
  function Ledger(env: Env, hi: nat): seq<Release> {
    if hi == 0 then [] else Ledger(env, hi - 1) + Released(hi - 1, env(hi - 1).outcome)
  }

  function Released(k: nat, outcome: Outcome): seq<Release> {
    match outcome
    case Success => [Release(k, None)]
    case Failed(e) => [Release(k, BreakerObservation(Some(e)))]
    case _ => []
  }

  /** The breaker's side of a request: the permits it got back, in order. */
  class Breaker {
    var released: seq<Release>

    constructor ()
      ensures released == []
    {
      released := [];
    }

    /** A granted call has returned: call `done` with the breaker's view of it. A refused
        attempt never got a permit, an unfinished one still holds it. */
    method Settle(k: nat, outcome: Outcome)
      modifies this
      ensures released == old(released) + Released(k, outcome)
    {
      if outcome.Success? || outcome.Failed? {
        var callErr := if outcome.Failed? then Some(outcome.err) else None;
        released := released + [Release(k, BreakerObservation(callErr))];
      }
    }
  }

  lemma LedgerStart(env: Env)
    ensures Ledger(env, 0) == []
  {
  }

  lemma LedgerNext(env: Env, k: nat)
    ensures Ledger(env, k + 1) == Ledger(env, k) + Released(k, env(k).outcome)
  {
  }

  /** The retry loop's branches: what ends it with which verdict, what lets it go on. */
  method AfterAttempt(p: RetryPolicy, a: Attempt, attempt: nat, elapsed: int) returns (step: Step)
    ensures step == Decide(p, a, attempt, elapsed)
  {
    match a.outcome {
      case Success => return Stop(Answered);
      case Refused => return Stop(Rejected);
      case Blocked => return Stop(Waiting);
      case Failed(callErr) =>
        if !IsRetryable(callErr) {
          return Stop(Fatal(callErr));
        }
        if attempt >= p.maxRetries {
          return Stop(GaveUp(callErr));
        }
        var delay := p.delay(attempt + 1, RetryAfterOf(callErr), a.random);
        if p.maxTotal > 0 {
          if Wrap64(elapsed + delay) > p.maxTotal {
            return Stop(GaveUp(callErr));
          }
        }
        return Retry(delay);
    }
  }

  /** tryProvider: the gate and the call of attempt k are answered by env(k); the permit is
      released as soon as the call returns. */
  method TryProvider(p: RetryPolicy, env: Env, start: int, k: nat, now: int, slept: seq<Sleep>, breaker: Breaker)
    returns (trial: Trial)
    requires breaker.released == Ledger(env, k)
    modifies breaker
    ensures trial == Try(p, env, start, k, 0, now, slept)
    ensures breaker.released == Ledger(env, trial.next)
  {
    hide Decide, Ledger, Released;
    var attempt, t, sleeps := 0, now, slept;
    while true
      invariant Try(p, env, start, k, 0, now, slept) == Try(p, env, start, k + attempt, attempt, t, sleeps)
      invariant breaker.released == Ledger(env, k + attempt)
      decreases Max(p.maxRetries, 0) - attempt
    {
      var a := env(k + attempt);
      t := t + a.took;
      breaker.Settle(k + attempt, a.outcome);
      LedgerNext(env, k + attempt);
      var step := AfterAttempt(p, a, attempt, t - start);
      if step.Stop? {
        return Trial(step.verdict, k + attempt + 1, t, sleeps);
      }
      RetriesLeft(p, a, attempt, t - start);
      sleeps := sleeps + [Sleep(t - start, step.delay)];
      if a.sleep.None? {
        return Trial(Interrupted, k + attempt + 1, t, sleeps);
      }
      t := t + Max(step.delay, 0) + a.sleep.value;
      attempt := attempt + 1;
    }
  }

  lemma RetriesLeft(p: RetryPolicy, a: Attempt, attempt: nat, elapsed: int)
    requires Decide(p, a, attempt, elapsed).Retry?
    ensures attempt < p.maxRetries
  {
  }

  /** ChatCompletion for a chain of n providers. */
  method ChatCompletion(p: RetryPolicy, env: Env, n: nat, start: int, breaker: Breaker) returns (run: Run)
    requires breaker.released == []
    modifies breaker
    ensures run == Route(p, env, n, start)
    ensures breaker.released == Ledger(env, |run.visits|)
  {
    hide Try, Ledger, FailsOver, ChainSpent, VerdictResult, After;
    LedgerStart(env);
    if n == 0 {
      return Run([], [], Err(NoProvider), start);
    }
    var visits, sleeps, now, idx := [], [], start, 0;
    while true
      invariant idx < n
      invariant Route(p, env, n, start) == Chain(p, env, start, n, idx, now, visits, sleeps)
      invariant breaker.released == Ledger(env, |visits|)
      decreases n - idx
    {
      TryAdvances(p, env, start, |visits|, 0, now, sleeps);
      var trial := TryProvider(p, env, start, |visits|, now, sleeps, breaker);
      now := After(env, trial);
      visits := visits + Repeat(idx, trial.next - |visits|);
      sleeps := trial.sleeps;
      if !FailsOver(trial.verdict) || ChainSpent(p, now - start) || idx + 1 == n {
        return Run(visits, sleeps, VerdictResult(trial.verdict), now);
      }
      idx := idx + 1;
    }
  }

  // ---- What every run keeps ----

  lemma {:induction false} TryAdvances(
    p: RetryPolicy, env: Env, start: int, k: nat, attempt: nat, now: int, sleeps: seq<Sleep>)
    ensures var trial := Try(p, env, start, k, attempt, now, sleeps);
            k < trial.next <= k + Max(p.maxRetries - attempt, 0) + 1 && now <= trial.now
    decreases p.maxRetries - attempt
  {
    hide OverBudget;
    var a := env(k);
    var step := Decide(p, a, attempt, now + a.took - start);
    if step.Retry? && a.sleep.Some? {
      TryAdvances(p, env, start, k + 1, attempt + 1, now + a.took + Max(step.delay, 0) + a.sleep.value,
        sleeps + [Sleep(now + a.took - start, step.delay)]);
    }
  }

  predicate Transient(o: Outcome) {
    o.Failed? && IsRetryable(o.err)
  }

  /** A verdict is its last attempt's. */
  predicate VerdictOf(v: Verdict, a: Attempt) {
    match v
    case Answered => a.outcome == Success
    case Rejected => a.outcome == Refused
    case Waiting => a.outcome == Blocked
    case Fatal(e) => a.outcome == Failed(e) && !IsRetryable(e)
    case GaveUp(e) => a.outcome == Failed(e) && IsRetryable(e)
    case Interrupted => Transient(a.outcome) && a.sleep.None?
  }

  lemma {:induction false} TryShape(
    p: RetryPolicy, env: Env, start: int, k: nat, attempt: nat, now: int, sleeps: seq<Sleep>)
    ensures var trial := Try(p, env, start, k, attempt, now, sleeps);
            && k < trial.next
            && VerdictOf(trial.verdict, env(trial.next - 1))
            && (forall j :: k <= j < trial.next - 1 ==> Transient(env(j).outcome) && env(j).sleep.Some?)
            && (trial.verdict.GaveUp? && p.maxTotal <= 0 ==> trial.next == k + Max(p.maxRetries - attempt, 0) + 1)
    decreases p.maxRetries - attempt
  {
    hide Wrap64, IsRetryable;
    var a := env(k);
    var step := Decide(p, a, attempt, now + a.took - start);
    if step.Retry? && a.sleep.Some? {
      TryShape(p, env, start, k + 1, attempt + 1, now + a.took + Max(step.delay, 0) + a.sleep.value,
        sleeps + [Sleep(now + a.took - start, step.delay)]);
    }
  }

  /** The delays the policy asks for after n attempts in a row, from attempt k on, which was
      the `attempt`-th retry: by the next retry's number, Retry-After and random factor. */
  function Asked(p: RetryPolicy, env: Env, k: nat, attempt: nat, n: nat): seq<int>
    decreases n
  {
    if n == 0 then []
    else
      var hint := if env(k).outcome.Failed? then RetryAfterOf(env(k).outcome.err) else 0;
      [p.delay(attempt + 1, hint, env(k).random)] + Asked(p, env, k + 1, attempt + 1, n - 1)
  }

  function Delays(sleeps: seq<Sleep>): seq<int> {
    if sleeps == [] then [] else Delays(sleeps[..|sleeps| - 1]) + [sleeps[|sleeps| - 1].delay]
  }

  lemma DelaysSnoc(sleeps: seq<Sleep>, s: Sleep)
    ensures Delays(sleeps + [s]) == Delays(sleeps) + [s.delay]
  {
    assert (sleeps + [s])[..|sleeps|] == sleeps;
  }

  /** Between any two attempts on a provider lies exactly one sleep, as long as the policy asks
      for; after the last one there is a sleep only if it was cancelled. */
  lemma {:induction false} SleepsAreBackoffs(
    p: RetryPolicy, env: Env, start: int, k: nat, attempt: nat, now: int, sleeps: seq<Sleep>)
    ensures var trial := Try(p, env, start, k, attempt, now, sleeps);
            && k < trial.next
            && Delays(trial.sleeps) ==
               Delays(sleeps) + Asked(p, env, k, attempt, trial.next - k - if trial.verdict.Interrupted? then 0 else 1)
    decreases p.maxRetries - attempt
  {
    hide OverBudget, IsRetryable, Delays;
    var a := env(k);
    var step := Decide(p, a, attempt, now + a.took - start);
    if step.Retry? {
      var sleep := Sleep(now + a.took - start, step.delay);
      DelaysSnoc(sleeps, sleep);
      if a.sleep.Some? {
        var t := now + a.took + Max(step.delay, 0) + a.sleep.value;
        SleepsAreBackoffs(p, env, start, k + 1, attempt + 1, t, sleeps + [sleep]);
      } else {
        assert Asked(p, env, k, attempt, 1) == [step.delay] + Asked(p, env, k + 1, attempt + 1, 0);
      }
    }
  }

  /** What allows attempt j + 1 after attempt j: a retry needs a transient error and a
      completed sleep, the next provider a refusal or a transient error. */
  predicate LegalMove(env: Env, visits: seq<nat>, j: nat)
    requires j + 1 < |visits|
  {
    if visits[j + 1] == visits[j] then Transient(env(j).outcome) && env(j).sleep.Some?
    else visits[j + 1] == visits[j] + 1 && (env(j).outcome == Refused || Transient(env(j).outcome))
  }

  ghost predicate LegalVisits(env: Env, visits: seq<nat>) {
    forall j: nat :: j + 1 < |visits| ==> LegalMove(env, visits, j)
  }

  /** The visits of a chain loop about to try provider `idx`. */
  ghost predicate Arrived(p: RetryPolicy, env: Env, idx: nat, visits: seq<nat>) {
    && LegalVisits(env, visits)
    && |visits| <= idx * (Max(p.maxRetries, 0) + 1)
    && (idx == 0 <==> visits == [])
    && (visits != [] ==>
          && visits[0] == 0 && visits[|visits| - 1] == idx - 1
          && (env(|visits| - 1).outcome == Refused || Transient(env(|visits| - 1).outcome)))
  }

  /** The result of a run is that of its last attempt, and giving up on a transient error or
      a refusal before the end of the chain means that the time budget is spent. */
  ghost predicate LastDecides(p: RetryPolicy, env: Env, start: int, n: nat, run: Run)
    requires run.visits != []
  {
    var last, at := env(|run.visits| - 1), run.visits[|run.visits| - 1];
    match run.result
    case Reply => last.outcome == Success
    case Unfinished => last.outcome == Blocked
    case Err(NoProvider) => false
    case Err(GateError) => last.outcome == Refused && (at == n - 1 || 0 < p.maxTotal <= run.end - start)
    case Err(ProviderError(e)) =>
      || (last.outcome == Failed(e) && (!IsRetryable(e) || at == n - 1 || 0 < p.maxTotal <= run.end - start))
      || (e == ContextError && Transient(last.outcome) && last.sleep.None?)
  }

  lemma AddTrial(p: RetryPolicy, env: Env, idx: nat, visits: seq<nat>, m: nat)
    requires Arrived(p, env, idx, visits) && 0 < m <= Max(p.maxRetries, 0) + 1
    requires forall j :: |visits| <= j < |visits| + m - 1 ==> Transient(env(j).outcome) && env(j).sleep.Some?
    ensures var all := visits + Repeat(idx, m);
            && LegalVisits(env, all) && all[0] == 0 && all[|all| - 1] == idx
            && |all| <= (idx + 1) * (Max(p.maxRetries, 0) + 1)
  {
    var all := visits + Repeat(idx, m);
    forall j: nat | j + 1 < |all|
      ensures LegalMove(env, all, j)
    {
      if j + 1 < |visits| {
        assert LegalMove(env, visits, j);
      }
    }
    assert (idx + 1) * (Max(p.maxRetries, 0) + 1) == idx * (Max(p.maxRetries, 0) + 1) + Max(p.maxRetries, 0) + 1;
  }

  lemma TrialDecides(p: RetryPolicy, env: Env, start: int, n: nat, idx: nat, visits: seq<nat>, trial: Trial)
    requires visits != [] && visits[|visits| - 1] == idx && |visits| == trial.next
    requires VerdictOf(trial.verdict, env(trial.next - 1))
    requires !FailsOver(trial.verdict) || ChainSpent(p, After(env, trial) - start) || idx + 1 == n
    ensures LastDecides(p, env, start, n, Run(visits, trial.sleeps, VerdictResult(trial.verdict), After(env, trial)))
  {
  }

  lemma {:induction false} ChainShape(
    p: RetryPolicy, env: Env, start: int, n: nat, idx: nat, now: int, visits: seq<nat>, sleeps: seq<Sleep>)
    requires idx < n && Arrived(p, env, idx, visits)
    ensures var run := Chain(p, env, start, n, idx, now, visits, sleeps);
            && run.visits != [] && run.visits[0] == 0 && run.visits[|run.visits| - 1] < n
            && |run.visits| <= n * (Max(p.maxRetries, 0) + 1)
            && LegalVisits(env, run.visits)
            && LastDecides(p, env, start, n, run)
    decreases n - idx
  {
    hide Try, LegalVisits, LastDecides, After, VerdictResult;
    var trial := Try(p, env, start, |visits|, 0, now, sleeps);
    TryAdvances(p, env, start, |visits|, 0, now, sleeps);
    TryShape(p, env, start, |visits|, 0, now, sleeps);
    AddTrial(p, env, idx, visits, trial.next - |visits|);
    var visits' := visits + Repeat(idx, trial.next - |visits|);
    var end := After(env, trial);
    if FailsOver(trial.verdict) && !ChainSpent(p, end - start) && idx + 1 < n {
      ChainShape(p, env, start, n, idx + 1, end, visits', trial.sleeps);
    } else {
      TrialDecides(p, env, start, n, idx, visits', trial);
      ProductMonotone(idx + 1, n, Max(p.maxRetries, 0) + 1);
    }
  }

  lemma ProductMonotone(a: int, b: int, c: int)
    requires a <= b && 0 <= c
    ensures a * c <= b * c
  {
  }

  /** Every run visits a prefix of the chain in order, makes at most n * (MaxRetries + 1)
      attempts, none after a success, a non-retryable error or a cancelled sleep, leaves a
      provider only after a refusal or a transient error, and reports its last attempt. */
  lemma RunShape(p: RetryPolicy, env: Env, n: nat, start: int)
    ensures var run := Route(p, env, n, start);
            if n == 0 then
              run.visits == [] && run.result == Err(NoProvider)
            else
              && run.visits != [] && run.visits[0] == 0 && run.visits[|run.visits| - 1] < n
              && |run.visits| <= n * (Max(p.maxRetries, 0) + 1)
              && LegalVisits(env, run.visits)
              && LastDecides(p, env, start, n, run)
  {
    if n > 0 {
      ChainShape(p, env, start, n, 0, start, [], []);
    }
  }

  // ---- The clock of a run, and what the time budget decides ----

  /** The Retry-After of a failed attempt. */
  function HintOf(o: Outcome): int {
    if o.Failed? && o.err.UpstreamError? then o.err.retryAfter else 0
  }

  /** How many attempts the provider of attempt j had before it. */
  function RetryNo(visits: seq<nat>, j: nat): nat
    requires j < |visits|
  {
    if j == 0 || visits[j - 1] != visits[j] then 0 else RetryNo(visits, j - 1) + 1
  }

  /** The time between attempts j and j + 1: the sleep of a retry, or what failing over takes. */
  function Pause(p: RetryPolicy, env: Env, visits: seq<nat>, j: nat): int
    requires j + 1 < |visits|
  {
    var a := env(j);
    if visits[j + 1] != visits[j] then a.idle
    else
      Max(p.delay(RetryNo(visits, j) + 1, HintOf(a.outcome), a.random), 0) + if a.sleep.Some? then a.sleep.value else 0
  }

  /** How old the request is when attempt j has returned. */
  function Spent(p: RetryPolicy, env: Env, visits: seq<nat>, j: nat): int
    requires j < |visits|
  {
    env(j).took + if j == 0 then 0 else Spent(p, env, visits, j - 1) + Pause(p, env, visits, j - 1)
  }

  lemma {:induction false} RetryNoPrefix(v: seq<nat>, w: seq<nat>, j: nat)
    requires j < |v| && j < |w| && v[..j + 1] == w[..j + 1]
    ensures RetryNo(v, j) == RetryNo(w, j)
  {
    assert v[j] == v[..j + 1][j] == w[j];
    if j == 0 {
    } else {
      assert v[j - 1] == v[..j + 1][j - 1] == w[j - 1];
      assert v[..j] == v[..j + 1][..j] == w[..j];
      RetryNoPrefix(v, w, j - 1);
    }
  }

  lemma {:induction false} SpentPrefix(p: RetryPolicy, env: Env, v: seq<nat>, w: seq<nat>, j: nat)
    requires j < |v| && j < |w| && v[..j + 1] == w[..j + 1]
    ensures Spent(p, env, v, j) == Spent(p, env, w, j)
  {
    if j == 0 {
    } else {
      assert v[..j] == v[..j + 1][..j] == w[..j];
      assert v[j] == v[..j + 1][j] == w[j] && v[j - 1] == v[..j + 1][j - 1] == w[j - 1];
      SpentPrefix(p, env, v, w, j - 1);
      RetryNoPrefix(v, w, j - 1);
    }
  }

  lemma HintAgrees(e: Error)
    ensures RetryAfterOf(e) == HintOf(Failed(e))
  {
  }

  lemma {:induction false} TryClock(
    p: RetryPolicy, env: Env, start: int, k: nat, attempt: nat, now: int, sleeps: seq<Sleep>, visits: seq<nat>)
    requires Try(p, env, start, k, attempt, now, sleeps).next <= |visits|
    requires forall j :: k <= j < Try(p, env, start, k, attempt, now, sleeps).next ==> visits[j] == visits[k]
    requires k < |visits| && RetryNo(visits, k) == attempt && Spent(p, env, visits, k) == now - start + env(k).took
    ensures var trial := Try(p, env, start, k, attempt, now, sleeps);
            0 < trial.next <= |visits| && trial.now - start == Spent(p, env, visits, trial.next - 1)
    decreases p.maxRetries - attempt
  {
    hide OverBudget, IsRetryable, HintOf, RetryAfterOf;
    TryAdvances(p, env, start, k, attempt, now, sleeps);
    var a := env(k);
    var step := Decide(p, a, attempt, now + a.took - start);
    if step.Retry? && a.sleep.Some? {
      var t := now + a.took + Max(step.delay, 0) + a.sleep.value;
      var sleeps' := sleeps + [Sleep(now + a.took - start, step.delay)];
      TryAdvances(p, env, start, k + 1, attempt + 1, t, sleeps');
      HintAgrees(a.outcome.err);
      assert visits[k + 1] == visits[k];
      TryClock(p, env, start, k + 1, attempt + 1, t, sleeps', visits);
    }
  }

  /** The clock agrees with the attempts so far. */
  predicate OnTime(p: RetryPolicy, env: Env, start: int, now: int, visits: seq<nat>) {
    if visits == [] then now == start
    else now - start == Spent(p, env, visits, |visits| - 1) + env(|visits| - 1).idle
  }

  /** No provider was left for the next one after the budget was spent. */
  ghost predicate LeftInTime(p: RetryPolicy, env: Env, visits: seq<nat>) {
    forall j: nat :: j + 1 < |visits| && visits[j + 1] != visits[j] ==>
      p.maxTotal <= 0 || Spent(p, env, visits, j) + env(j).idle < p.maxTotal
  }

  /** One trial more: its attempts take the clock to its end. */
  lemma TrialOnTime(
    p: RetryPolicy, env: Env, start: int, idx: nat, now: int, visits: seq<nat>, sleeps: seq<Sleep>)
    requires OnTime(p, env, start, now, visits) && (visits != [] ==> visits[|visits| - 1] != idx)
    ensures var trial := Try(p, env, start, |visits|, 0, now, sleeps);
            && |visits| < trial.next
            && OnTime(p, env, start, After(env, trial), visits + Repeat(idx, trial.next - |visits|))
  {
    hide Try, Spent, RetryNo;
    var k := |visits|;
    var trial := Try(p, env, start, k, 0, now, sleeps);
    TryAdvances(p, env, start, k, 0, now, sleeps);
    var all := visits + Repeat(idx, trial.next - k);
    FirstOfTrial(p, env, start, idx, now, visits, all);
    TryClock(p, env, start, k, 0, now, sleeps, all);
  }

  lemma FirstOfTrial(p: RetryPolicy, env: Env, start: int, idx: nat, now: int, visits: seq<nat>, all: seq<nat>)
    requires OnTime(p, env, start, now, visits) && (visits != [] ==> visits[|visits| - 1] != idx)
    requires |visits| < |all| && all[..|visits|] == visits && all[|visits|] == idx
    ensures RetryNo(all, |visits|) == 0
    ensures Spent(p, env, all, |visits|) == now - start + env(|visits|).took
  {
    var k := |visits|;
    if k > 0 {
      assert visits[..k] == visits && all[k - 1] == all[..k][k - 1];
      SpentPrefix(p, env, all, visits, k - 1);
    }
  }

  lemma LeftInTimeMore(p: RetryPolicy, env: Env, start: int, now: int, visits: seq<nat>, idx: nat, m: nat)
    requires LeftInTime(p, env, visits) && OnTime(p, env, start, now, visits) && m > 0
    requires visits != [] ==> p.maxTotal <= 0 || now - start < p.maxTotal
    ensures LeftInTime(p, env, visits + Repeat(idx, m))
  {
    hide Spent;
    var all, k := visits + Repeat(idx, m), |visits|;
    forall j: nat | j + 1 < |all| && all[j + 1] != all[j]
      ensures p.maxTotal <= 0 || Spent(p, env, all, j) + env(j).idle < p.maxTotal
    {
      assert j < k;
      assert all[..j + 1] == visits[..j + 1];
      SpentPrefix(p, env, all, visits, j);
      if j + 1 < k {
        assert visits[j + 1] != visits[j];
      }
    }
  }

  lemma {:induction false} ChainClock(
    p: RetryPolicy, env: Env, start: int, n: nat, idx: nat, now: int, visits: seq<nat>, sleeps: seq<Sleep>)
    requires idx < n && OnTime(p, env, start, now, visits) && LeftInTime(p, env, visits)
    requires visits != [] ==> visits[|visits| - 1] + 1 == idx && (p.maxTotal <= 0 || now - start < p.maxTotal)
    ensures var run := Chain(p, env, start, n, idx, now, visits, sleeps);
            && run.visits != [] && OnTime(p, env, start, run.end, run.visits) && LeftInTime(p, env, run.visits)
    decreases n - idx
  {
    hide Try, OnTime, LeftInTime, After, VerdictResult, FailsOver;
    var trial := Try(p, env, start, |visits|, 0, now, sleeps);
    TrialOnTime(p, env, start, idx, now, visits, sleeps);
    LeftInTimeMore(p, env, start, now, visits, idx, trial.next - |visits|);
    var visits' := visits + Repeat(idx, trial.next - |visits|);
    var end := After(env, trial);
    if !FailsOver(trial.verdict) || ChainSpent(p, end - start) || idx + 1 == n {
    } else {
      assert visits'[|visits'| - 1] == idx;
      ChainClock(p, env, start, n, idx + 1, end, visits', trial.sleeps);
    }
  }

  /** In every run the clock at the end is the start plus all calls, all sleeps and all failovers;
      a provider is left for the next one only while less than MaxTotal has passed; and, by
      RunShape, a run that ends on a refusal or a transient error before the last provider has
      used up MaxTotal. */
  lemma BudgetDecides(p: RetryPolicy, env: Env, n: nat, start: int)
    requires n > 0
    ensures var run := Route(p, env, n, start);
            var last := |run.visits| - 1;
            && last >= 0
            && run.end - start == Spent(p, env, run.visits, last) + env(last).idle
            && (forall j: nat :: j < last && run.visits[j + 1] != run.visits[j] ==>
                  p.maxTotal <= 0 || Spent(p, env, run.visits, j) + env(j).idle < p.maxTotal)
            && (run.visits[last] < n - 1 && (env(last).outcome == Refused || Transient(env(last).outcome))
                && run.result != Err(ProviderError(ContextError)) ==>
                  0 < p.maxTotal <= run.end - start)
  {
    hide Chain, LegalVisits, Spent;
    RunShape(p, env, n, start);
    EmptyClock(p, env, start);
    ChainClock(p, env, start, n, 0, start, [], []);
  }

  lemma EmptyClock(p: RetryPolicy, env: Env, start: int)
    ensures OnTime(p, env, start, start, []) && LeftInTime(p, env, [])
  {
  }

  /** A trial gives up on a transient error only when its retries are used up, or when the delay
      the next one asks for would take the request past MaxTotal (as far as 64 bits tell). */
  lemma {:induction false} GivesUpOnlyWhenSpent(
    p: RetryPolicy, env: Env, start: int, k: nat, attempt: nat, now: int, sleeps: seq<Sleep>)
    ensures var trial := Try(p, env, start, k, attempt, now, sleeps);
            trial.verdict.GaveUp? ==>
              && k < trial.next
              && (|| attempt + (trial.next - 1 - k) >= p.maxRetries
                  || var last := env(trial.next - 1);
                     0 < p.maxTotal < Wrap64(trial.now - start
                       + p.delay(attempt + trial.next - k, HintOf(last.outcome), last.random)))
    decreases p.maxRetries - attempt
  {
    hide Wrap64, IsRetryable, HintOf, RetryAfterOf;
    var a := env(k);
    var step := Decide(p, a, attempt, now + a.took - start);
    if a.outcome.Failed? {
      HintAgrees(a.outcome.err);
    }
    if step.Retry? && a.sleep.Some? {
      GivesUpOnlyWhenSpent(p, env, start, k + 1, attempt + 1, now + a.took + Max(step.delay, 0) + a.sleep.value,
        sleeps + [Sleep(now + a.took - start, step.delay)]);
    }
  }

  /** Which upstream errors are retried at all, by their kind: with retries and time left, exactly
      these four; and a Retry-After of the upstream is then obeyed to the letter. */
  lemma WhatIsRetried(p: Policy, a: Attempt, attempt: nat, elapsed: int, kind: Sentinel, hint: int)
    requires a.outcome == Failed(UpstreamError(kind, hint)) && attempt < p.maxRetries && p.maxTotal <= 0
    ensures var step := Decide(Standard(p), a, attempt, elapsed);
            && (step.Retry? <==> kind == ErrRateLimited || kind == ErrUpstream || kind == ErrUnavailable || kind == ErrTimeout)
            && (step.Retry? && hint > 0 ==> step.delay == hint)
            && (!step.Retry? ==> kind == ErrAuth || kind == ErrContextLength || kind == ErrInvalidRequest)
  {
  }

  /** Entry i of the books: after the ones before it, and with its attempt's own observation. */
  predicate Booked(env: Env, hi: nat, l: seq<Release>, i: nat)
    requires i < |l|
  {
    l[i].attempt < hi && (i > 0 ==> l[i - 1].attempt < l[i].attempt) && Released(l[i].attempt, env(l[i].attempt).outcome) == [l[i]]
  }

  lemma {:induction false} LedgerSound(env: Env, hi: nat)
    ensures forall i: nat :: i < |Ledger(env, hi)| ==> Booked(env, hi, Ledger(env, hi), i)
  {
    if hi > 0 {
      LedgerSound(env, hi - 1);
      var before, l := Ledger(env, hi - 1), Ledger(env, hi);
      assert l == before + Released(hi - 1, env(hi - 1).outcome);
      forall i: nat | i < |l|
        ensures Booked(env, hi, l, i)
      {
        if i < |before| {
          assert Booked(env, hi - 1, before, i);
        } else if i > 0 {
          assert Booked(env, hi - 1, before, i - 1);
        }
      }
    }
  }

  lemma {:induction false} LedgerBooks(env: Env, hi: nat, k: nat)
    requires k < hi && (env(k).outcome.Success? || env(k).outcome.Failed?)
    ensures Released(k, env(k).outcome)[0] in Ledger(env, hi)
  {
    if k == hi - 1 {
    } else {
      LedgerBooks(env, hi - 1, k);
    }
  }

  /** Every permit the breaker granted is released, and only those: once, in order, and as a
      failure if and only if the call ended in a retryable error. */
  lemma PermitsBalanced(env: Env, hi: nat, k: nat)
    requires k < hi
    ensures var l := Ledger(env, hi);
            && (forall i: nat :: i < |l| ==> Booked(env, hi, l, i))
            && ((exists obs :: Release(k, obs) in l) <==> env(k).outcome.Success? || env(k).outcome.Failed?)
            && (forall obs :: Release(k, obs) in l ==> (obs.Some? <==> Transient(env(k).outcome)))
  {
    LedgerSound(env, hi);
    var l := Ledger(env, hi);
    forall obs | Release(k, obs) in l
      ensures Released(k, env(k).outcome) == [Release(k, obs)]
    {
      var i: nat :| i < |l| && l[i] == Release(k, obs);
      assert Booked(env, hi, l, i);
    }
    if env(k).outcome.Success? || env(k).outcome.Failed? {
      LedgerBooks(env, hi, k);
      assert Release(k, Released(k, env(k).outcome)[0].obs) in l;
    }
  }

  // ---- The shared time budget ----

  /** The total time asked to sleep. */
  function Sum(sleeps: seq<Sleep>): int {
    if sleeps == [] then 0 else Sum(sleeps[..|sleeps| - 1]) + sleeps[|sleeps| - 1].delay
  }

  lemma SumSnoc(sleeps: seq<Sleep>, s: Sleep)
    ensures Sum(sleeps + [s]) == Sum(sleeps) + s.delay
  {
    assert (sleeps + [s])[..|sleeps|] == sleeps;
  }

  /** The code's test agrees with unbounded arithmetic exactly when the sum fits 64 bits. */
  lemma BudgetTestExact(p: RetryPolicy, elapsed: int, delay: int)
    requires 0 < p.maxTotal <= MAX_INT64 && 0 <= elapsed <= MAX_INT64 && 0 <= delay <= MAX_INT64
    ensures OverBudget(p, elapsed, delay) <==> p.maxTotal < elapsed + delay <= MAX_INT64
  {
  }

  /** The budget test of this sleep did not wrap. */
  predicate Fits(s: Sleep) {
    s.elapsed + s.delay <= MAX_INT64
  }

  predicate AllFit(sleeps: seq<Sleep>) {
    forall i :: 0 <= i < |sleeps| ==> Fits(sleeps[i])
  }

  /** Sleep i was decided on after all earlier ones, and within the budget unless its test wrapped. */
  ghost predicate Decided(p: RetryPolicy, sleeps: seq<Sleep>, i: nat)
    requires i < |sleeps|
  {
    && sleeps[i].delay >= 0
    && 0 <= Sum(sleeps[..i]) <= sleeps[i].elapsed
    && (Fits(sleeps[i]) ==> sleeps[i].elapsed + sleeps[i].delay <= p.maxTotal)
  }

  ghost predicate Booking(p: RetryPolicy, sleeps: seq<Sleep>) {
    forall i: nat :: i < |sleeps| ==> Decided(p, sleeps, i)
  }

  ghost predicate NoNegativeDelay(p: RetryPolicy) {
    forall attempt: int, hint: int, r: real :: p.delay(attempt, hint, r) >= 0
  }

  lemma BookingSnoc(p: RetryPolicy, sleeps: seq<Sleep>, s: Sleep)
    requires Booking(p, sleeps) && s.delay >= 0 && 0 <= Sum(sleeps) <= s.elapsed
    requires Fits(s) ==> s.elapsed + s.delay <= p.maxTotal
    ensures Booking(p, sleeps + [s])
  {
    var all := sleeps + [s];
    forall i: nat | i < |all|
      ensures Decided(p, all, i)
    {
      if i < |sleeps| {
        assert Decided(p, sleeps, i) && all[..i] == sleeps[..i];
      } else {
        assert all[..i] == sleeps;
      }
    }
  }

  lemma RetryFits(p: RetryPolicy, a: Attempt, attempt: nat, elapsed: int)
    requires p.maxTotal > 0 && NoNegativeDelay(p) && elapsed >= 0
    ensures var step := Decide(p, a, attempt, elapsed);
            step.Retry? ==>
              step.delay >= 0 && (Fits(Sleep(elapsed, step.delay)) ==> elapsed + step.delay <= p.maxTotal)
  {
    hide IsRetryable;
  }

  lemma {:induction false} TryBooking(
    p: RetryPolicy, env: Env, start: int, k: nat, attempt: nat, now: int, sleeps: seq<Sleep>)
    requires p.maxTotal > 0 && NoNegativeDelay(p)
    requires Booking(p, sleeps) && 0 <= Sum(sleeps) <= now - start
    ensures var trial := Try(p, env, start, k, attempt, now, sleeps);
            && Booking(p, trial.sleeps)
            && (!trial.verdict.Interrupted? ==> 0 <= Sum(trial.sleeps) <= trial.now - start)
    decreases p.maxRetries - attempt
  {
    hide Decide, Booking, Sum, Fits, NoNegativeDelay;
    var a := env(k);
    var t := now + a.took;
    var step := Decide(p, a, attempt, t - start);
    RetryFits(p, a, attempt, t - start);
    if step.Retry? {
      var s := Sleep(t - start, step.delay);
      BookingSnoc(p, sleeps, s);
      SumSnoc(sleeps, s);
      if a.sleep.Some? {
        RetriesLeft(p, a, attempt, t - start);
        TryBooking(p, env, start, k + 1, attempt + 1, t + Max(step.delay, 0) + a.sleep.value, sleeps + [s]);
      }
    }
  }

  lemma {:induction false} ChainBooking(
    p: RetryPolicy, env: Env, start: int, n: nat, idx: nat, now: int, visits: seq<nat>, sleeps: seq<Sleep>)
    requires idx < n && p.maxTotal > 0 && NoNegativeDelay(p)
    requires Booking(p, sleeps) && 0 <= Sum(sleeps) <= now - start
    ensures Booking(p, Chain(p, env, start, n, idx, now, visits, sleeps).sleeps)
    decreases n - idx
  {
    hide Try, Booking, Sum, NoNegativeDelay;
    var trial := Try(p, env, start, |visits|, 0, now, sleeps);
    TryBooking(p, env, start, |visits|, 0, now, sleeps);
    var end := After(env, trial);
    if !FailsOver(trial.verdict) || ChainSpent(p, end - start) || idx + 1 == n {
    } else {
      ChainBooking(p, env, start, n, idx + 1, end, visits + Repeat(idx, trial.next - |visits|), trial.sleeps);
    }
  }

  lemma {:induction false} SumGrows(p: RetryPolicy, sleeps: seq<Sleep>, i: nat)
    requires Booking(p, sleeps) && i < |sleeps|
    ensures Sum(sleeps) >= sleeps[i].delay
    decreases |sleeps|
  {
    var n := |sleeps| - 1;
    assert Decided(p, sleeps, n);
    if i == n {
    } else {
      BookingPrefix(p, sleeps, n);
      SumGrows(p, sleeps[..n], i);
    }
  }

  lemma BookingPrefix(p: RetryPolicy, sleeps: seq<Sleep>, n: nat)
    requires Booking(p, sleeps) && n <= |sleeps|
    ensures Booking(p, sleeps[..n])
  {
    forall i: nat | i < n
      ensures Decided(p, sleeps[..n], i)
    {
      assert Decided(p, sleeps, i) && sleeps[..n][..i] == sleeps[..i];
    }
  }

  /** Up to the first wrapping test, the request is young enough to leave MaxTotal room in 64
      bits of nanoseconds, which are 292 years. */
  ghost predicate Young(p: RetryPolicy, sleeps: seq<Sleep>) {
    forall i: nat :: i < |sleeps| && AllFit(sleeps[..i]) ==> sleeps[i].elapsed + p.maxTotal <= MAX_INT64
  }

  lemma FirstMisfit(sleeps: seq<Sleep>) returns (i: nat)
    requires !AllFit(sleeps)
    ensures i < |sleeps| && AllFit(sleeps[..i]) && !Fits(sleeps[i])
  {
    i := 0;
    while Fits(sleeps[i])
      invariant i < |sleeps| && AllFit(sleeps[..i])
      decreases |sleeps| - i
    {
      assert i + 1 == |sleeps| ==> AllFit(sleeps);
      i := i + 1;
    }
  }

  lemma BookingBudget(p: RetryPolicy, sleeps: seq<Sleep>)
    requires p.maxTotal > 0 && Booking(p, sleeps)
    ensures AllFit(sleeps) ==> Sum(sleeps) <= p.maxTotal
    ensures Young(p, sleeps) ==> (Sum(sleeps) <= p.maxTotal <==> AllFit(sleeps))
  {
    if AllFit(sleeps) {
      if sleeps != [] {
        assert Decided(p, sleeps, |sleeps| - 1);
      }
    } else if Young(p, sleeps) {
      var i := FirstMisfit(sleeps);
      SumGrows(p, sleeps, i);
    }
  }

  /** All sleeps of a run, over all providers, together stay within MaxTotal exactly when no
      retry was taken whose budget test wrapped. That this suffices needs no assumption; that
      it is needed, that the request was not centuries old before. */
  lemma SleepBudget(p: Policy, env: Env, n: nat, start: int)
    requires p.maxTotal > 0 && p.baseBackoff >= 0 && p.maxBackoff >= 0
    ensures var sleeps := Route(Standard(p), env, n, start).sleeps;
            && (AllFit(sleeps) ==> Sum(sleeps) <= p.maxTotal)
            && (Young(Standard(p), sleeps) ==> (Sum(sleeps) <= p.maxTotal <==> AllFit(sleeps)))
  {
    hide Chain, Booking, AllFit, Young;
    var q := Standard(p);
    forall attempt: int, hint: int, r: real
      ensures q.delay(attempt, hint, r) >= 0
    {
      DelayBounds(p, attempt, hint, r);
    }
    EmptyBooking(q);
    if n > 0 {
      ChainBooking(q, env, start, n, 0, start, [], []);
    }
    BookingBudget(q, Route(q, env, n, start).sleeps);
  }

  lemma EmptyBooking(p: RetryPolicy)
    ensures Booking(p, []) && Sum([]) == 0
  {
  }

  /** A Retry-After of 9223372036 seconds after a one-second call wraps the sum, and a 30-second
      budget sleeps for centuries. */
  lemma WrappedBudget() returns (p: Policy, env: Env)
    ensures p.maxTotal == 30_000_000_000
    ensures Sum(Route(Standard(p), env, 1, 0).sleeps) == 9_223_372_036_000_000_000
  {
    p := Policy(2, 30_000_000_000, 100_000_000, 5_000_000_000);
    var hint := 9_223_372_036_000_000_000;
    env := _ => Attempt(Failed(UpstreamError(ErrRateLimited, hint)), 1_000_000_000, 0.5, None, 0);
    assert !OverBudget(Standard(p), 1_000_000_000, hint);
    var s := Sleep(1_000_000_000, hint);
    assert Try(Standard(p), env, 0, 0, 0, 0, []) == Trial(Interrupted, 1, 1_000_000_000, [s]);
    assert Sum([s]) == Sum([]) + hint;
  }
}
