/** The retry decorators `retry` and `async_retry` and the environment check
    `ensure_env_vars` of the utility module. */
module Utils {
  import opened Common
  import opened Text

  // ---------------------------------------------------------------------------
  // Retry with exponential backoff
  // ---------------------------------------------------------------------------

  /** The decorator's arguments: `max_attempts`, `delay`, `backoff` and the
      `exceptions` tuple (as the set of classes an `except` of it catches). */
  datatype RetryPolicy = RetryPolicy(maxAttempts: int, delay: real, backoff: real, exceptions: set<ExcClass>)

  /** The decorator's defaults: three attempts, one second, doubling, any Exception. */
  const DefaultPolicy := RetryPolicy(3, 1.0, 2.0, ExceptionClasses)

  /** `time.sleep` in `retry`, `await asyncio.sleep` in `async_retry`. */
  datatype SleepKind = TimeSleep | AsyncioSleep

  /** What the wrapper does, in order: call the wrapped function (attempt index
      from 0), log a warning "Attempt n/max failed ... Retrying in d s", sleep. */
  datatype RetryEvent =
    | Call(attempt: nat)
    | Warn(attemptNo: nat, maxAttempts: int, error: Exc, delay: real)
    | Sleep(kind: SleepKind, seconds: real)

  /** The wrapper's result (a return or a raise) and everything it did. */
  datatype RetryRun<T> = RetryRun(outcome: Attempt<T>, trace: seq<RetryEvent>)

  /** An attempt that ends the loop: it returned, or raised an exception the
      `except` clause does not catch. */
  predicate Stops<T>(p: RetryPolicy, a: Attempt<T>) {
    a.Returned? || a.error.cls !in p.exceptions
  }

  function Pow(b: real, n: nat): real {
    if n == 0 then 1.0 else b * Pow(b, n - 1)
  }

  /** The delay slept after the failure of attempt `j`. */
  function Delay(p: RetryPolicy, j: nat): real {
    p.delay * Pow(p.backoff, j)
  }

  /** The first `n` delays: `delay, delay * backoff, delay * backoff^2, ...`. */
  function Delays(p: RetryPolicy, n: nat): (r: seq<real>)
    ensures |r| == n && forall j :: 0 <= j < n ==> r[j] == Delay(p, j)
  {
    seq(n, j requires 0 <= j < n => Delay(p, j))
  }

  /** The first attempt from `k` on that ends the loop, or `maxAttempts` when
      every remaining attempt raises a caught exception. */
  function FirstStop<T>(p: RetryPolicy, call: nat -> Attempt<T>, k: nat): (n: nat)
    requires k <= p.maxAttempts
    ensures k <= n <= p.maxAttempts
    ensures n < p.maxAttempts ==> Stops(p, call(n))
    ensures forall j :: k <= j < n ==> !Stops(p, call(j))
    decreases p.maxAttempts - k
  {
    if k == p.maxAttempts then k
    else if Stops(p, call(k)) then k
    else FirstStop(p, call, k + 1)
  }

  /** The index of the last attempt the wrapper makes. */
  function LastAttempt<T>(p: RetryPolicy, call: nat -> Attempt<T>): (n: nat)
    requires p.maxAttempts >= 1
    ensures n < p.maxAttempts
  {
    var k := FirstStop(p, call, 0);
    if k < p.maxAttempts then k else p.maxAttempts - 1
  }

  /** The events of the attempts `0 .. n-1`, each of which raised a caught
      exception and was followed by a warning and a sleep. */
  function FailedRounds<T>(p: RetryPolicy, call: nat -> Attempt<T>, kind: SleepKind, n: nat): (t: seq<RetryEvent>)
    requires forall j :: 0 <= j < n ==> call(j).Raised?
    ensures |t| == 3 * n
  {
    if n == 0 then []
    else
      FailedRounds(p, call, kind, n - 1)
      + [Call(n - 1), Warn(n, p.maxAttempts, call(n - 1).error, Delay(p, n - 1)), Sleep(kind, Delay(p, n - 1))]
  }

  /** What the wrapper does, stated without its loop: it makes the attempts up to
      the last one, the outcome is that of the last attempt, and each earlier
      attempt is followed by one warning and one sleep. */
  function RetrySpec<T>(p: RetryPolicy, call: nat -> Attempt<T>, kind: SleepKind): (r: RetryRun<T>)
    requires p.maxAttempts >= 1
    ensures r.outcome == call(LastAttempt(p, call))
    ensures |r.trace| % 3 == 1 && |r.trace| <= 3 * p.maxAttempts - 2
  {
    var last := LastAttempt(p, call);
    RetryRun(call(last), FailedRounds(p, call, kind, last) + [Call(last)])
  }

  lemma {:induction false} FirstStopIs<T>(p: RetryPolicy, call: nat -> Attempt<T>, i: nat, k: nat)
    requires i <= k <= p.maxAttempts
    requires forall j :: i <= j < k ==> !Stops(p, call(j))
    requires k < p.maxAttempts ==> Stops(p, call(k))
    ensures FirstStop(p, call, i) == k
    decreases k - i
  {
    if i < k {
      FirstStopIs(p, call, i + 1, k);
    }
  }

  /** One more failed round: the call of attempt `n`, its warning and its sleep;
      the next delay is the current one times `backoff`. */
  lemma NextRound<T>(p: RetryPolicy, call: nat -> Attempt<T>, kind: SleepKind, n: nat, trace: seq<RetryEvent>)
    requires forall j :: 0 <= j <= n ==> call(j).Raised?
    requires trace == FailedRounds(p, call, kind, n)
    ensures trace + [Call(n)] + [Warn(n + 1, p.maxAttempts, call(n).error, Delay(p, n)), Sleep(kind, Delay(p, n))]
      == FailedRounds(p, call, kind, n + 1)
    ensures Delay(p, n + 1) == Delay(p, n) * p.backoff
  {
    assert Pow(p.backoff, n + 1) == p.backoff * Pow(p.backoff, n);
  }

  /** `retry`: the synchronous attempt loop of `wrapper`. */
  method Retry<T>(p: RetryPolicy, call: nat -> Attempt<T>) returns (run: RetryRun<T>)
    requires p.maxAttempts >= 1
    ensures run == RetrySpec(p, call, TimeSleep)
  {
    var currentDelay := p.delay;
    var lastException: Option<Exc> := None;
    var trace: seq<RetryEvent> := [];
    var attempt: nat := 0;
    while attempt < p.maxAttempts
      invariant attempt <= p.maxAttempts
      invariant forall j :: 0 <= j < attempt ==> !Stops(p, call(j))
      invariant attempt < p.maxAttempts ==> trace == FailedRounds(p, call, TimeSleep, attempt) && currentDelay == Delay(p, attempt)
      invariant attempt == p.maxAttempts ==>
        trace == FailedRounds(p, call, TimeSleep, attempt - 1) + [Call(attempt - 1)]
        && lastException == Some(call(attempt - 1).error)
    {
      ghost var before := trace;
      trace := trace + [Call(attempt)];
      var a := call(attempt);
      if Stops(p, a) {
        FirstStopIs(p, call, 0, attempt);
        return RetryRun(a, trace);
      }
      lastException := Some(a.error);
      if attempt < p.maxAttempts - 1 {
        NextRound(p, call, TimeSleep, attempt, before);
        trace := trace + [Warn(attempt + 1, p.maxAttempts, a.error, currentDelay), Sleep(TimeSleep, currentDelay)];
        currentDelay := currentDelay * p.backoff;
      }
      attempt := attempt + 1;
    }
    FirstStopIs(p, call, 0, p.maxAttempts);
    run := RetryRun(Raised(lastException.value), trace);
  }

  /** `async_retry`: the same loop, awaiting `asyncio.sleep` between attempts. */
  method AsyncRetry<T>(p: RetryPolicy, call: nat -> Attempt<T>) returns (run: RetryRun<T>)
    requires p.maxAttempts >= 1
    ensures run == RetrySpec(p, call, AsyncioSleep)
  {
    var currentDelay := p.delay;
    var lastException: Option<Exc> := None;
    var trace: seq<RetryEvent> := [];
    var attempt: nat := 0;
    while attempt < p.maxAttempts
      invariant attempt <= p.maxAttempts
      invariant forall j :: 0 <= j < attempt ==> !Stops(p, call(j))
      invariant attempt < p.maxAttempts ==> trace == FailedRounds(p, call, AsyncioSleep, attempt) && currentDelay == Delay(p, attempt)
      invariant attempt == p.maxAttempts ==>
        trace == FailedRounds(p, call, AsyncioSleep, attempt - 1) + [Call(attempt - 1)]
        && lastException == Some(call(attempt - 1).error)
    {
      ghost var before := trace;
      trace := trace + [Call(attempt)];
      var a := call(attempt);
      if Stops(p, a) {
        FirstStopIs(p, call, 0, attempt);
        return RetryRun(a, trace);
      }
      lastException := Some(a.error);
      if attempt < p.maxAttempts - 1 {
        NextRound(p, call, AsyncioSleep, attempt, before);
        trace := trace + [Warn(attempt + 1, p.maxAttempts, a.error, currentDelay), Sleep(AsyncioSleep, currentDelay)];
        currentDelay := currentDelay * p.backoff;
      }
      attempt := attempt + 1;
    }
    FirstStopIs(p, call, 0, p.maxAttempts);
    run := RetryRun(Raised(lastException.value), trace);
  }

  // ---------------------------------------------------------------------------
  // What the trace of one wrapper call tells
  // ---------------------------------------------------------------------------

  /** The attempt indices called, in order. */
  function Calls(t: seq<RetryEvent>): seq<nat> {
    if |t| == 0 then [] else Calls(t[..|t| - 1]) + (if t[|t| - 1].Call? then [t[|t| - 1].attempt] else [])
  }

  /** The durations slept, in order. */
  function Sleeps(t: seq<RetryEvent>): seq<real> {
    if |t| == 0 then [] else Sleeps(t[..|t| - 1]) + (if t[|t| - 1].Sleep? then [t[|t| - 1].seconds] else [])
  }

  /** The attempt numbers of the warnings, in order. */
  function Warnings(t: seq<RetryEvent>): seq<nat> {
    if |t| == 0 then [] else Warnings(t[..|t| - 1]) + (if t[|t| - 1].Warn? then [t[|t| - 1].attemptNo] else [])
  }

  lemma {:induction false} TraceAppend(a: seq<RetryEvent>, b: seq<RetryEvent>)
    ensures Calls(a + b) == Calls(a) + Calls(b)
    ensures Sleeps(a + b) == Sleeps(a) + Sleeps(b)
    ensures Warnings(a + b) == Warnings(a) + Warnings(b)
    decreases |b|
  {
    if |b| > 0 {
      var b' := b[..|b| - 1];
      assert (a + b)[..|a + b| - 1] == a + b';
      TraceAppend(a, b');
    } else {
      assert a + b == a;
    }
  }

  /** The last round of `FailedRounds(n)` adds one call, one warning and one
      sleep. */
  lemma LastRound<T>(p: RetryPolicy, call: nat -> Attempt<T>, kind: SleepKind, n: nat)
    requires n > 0
    requires forall j :: 0 <= j < n ==> call(j).Raised?
    ensures Calls(FailedRounds(p, call, kind, n)) == Calls(FailedRounds(p, call, kind, n - 1)) + [n - 1]
    ensures Sleeps(FailedRounds(p, call, kind, n)) == Sleeps(FailedRounds(p, call, kind, n - 1)) + [Delay(p, n - 1)]
    ensures Warnings(FailedRounds(p, call, kind, n)) == Warnings(FailedRounds(p, call, kind, n - 1)) + [n]
  {
    var c, w, z := Call(n - 1), Warn(n, p.maxAttempts, call(n - 1).error, Delay(p, n - 1)), Sleep(kind, Delay(p, n - 1));
    var prev := FailedRounds(p, call, kind, n - 1);
    assert FailedRounds(p, call, kind, n) == prev + [c, w, z];
    TraceAppend(prev, [c, w, z]);
    assert [c, w, z][..2] == [c, w] && [c, w][..1] == [c] && [c][..0] == [];
    assert Calls([c]) == [n - 1] && Sleeps([c]) == [] && Warnings([c]) == [];
    assert Calls([c, w]) == [n - 1] && Sleeps([c, w]) == [] && Warnings([c, w]) == [n];
    assert Calls([c, w, z]) == [n - 1] && Sleeps([c, w, z]) == [Delay(p, n - 1)] && Warnings([c, w, z]) == [n];
  }

  lemma {:induction false} FailedRoundsContent<T>(p: RetryPolicy, call: nat -> Attempt<T>, kind: SleepKind, n: nat)
    requires forall j :: 0 <= j < n ==> call(j).Raised?
    ensures Calls(FailedRounds(p, call, kind, n)) == seq(n, j => j)
    ensures Sleeps(FailedRounds(p, call, kind, n)) == Delays(p, n)
    ensures Warnings(FailedRounds(p, call, kind, n)) == seq(n, j => j + 1)
  {
    if n > 0 {
      FailedRoundsContent(p, call, kind, n - 1);
      LastRound(p, call, kind, n);
      assert seq(n - 1, j => j) + [n - 1] == seq(n, j => j);
      assert Delays(p, n - 1) + [Delay(p, n - 1)] == Delays(p, n);
      assert seq(n - 1, j => j + 1) + [n] == seq(n, j => j + 1);
    }
  }

  /** Everything one wrapper call does. It calls attempts 0, 1, ..., last in
      order, never more than `maxAttempts`. Every attempt before the last raised
      a caught exception. The last one returned, raised an uncaught exception,
      or was attempt `maxAttempts - 1`, and its outcome (the value, or the very
      exception it raised) is the wrapper's. The k-th sleep lasts
      `delay * backoff^k`, each follows warning number k + 1, and the trace ends
      with the last call: there is no sleep after the final attempt. */
  lemma RetryShape<T>(p: RetryPolicy, call: nat -> Attempt<T>, kind: SleepKind)
    requires p.maxAttempts >= 1
    ensures var run, last := RetrySpec(p, call, kind), LastAttempt(p, call);
      && run.outcome == call(last)
      && (forall j :: 0 <= j < last ==> call(j).Raised? && call(j).error.cls in p.exceptions)
      && (last < p.maxAttempts - 1 ==> Stops(p, call(last)))
      && Calls(run.trace) == seq(last + 1, j => j)
      && |Calls(run.trace)| <= p.maxAttempts
      && Sleeps(run.trace) == Delays(p, last)
      && Warnings(run.trace) == seq(last, j => j + 1)
      && run.trace[|run.trace| - 1] == Call(last)
  {
    var last := LastAttempt(p, call);
    FailedRoundsContent(p, call, kind, last);
    TraceAppend(FailedRounds(p, call, kind, last), [Call(last)]);
    assert Calls([Call(last)]) == [last] && Sleeps([Call(last)]) == [] && Warnings([Call(last)]) == [];
    assert seq(last, j => j) + [last] == seq(last + 1, j => j);
  }

  /** The wrapper returns the value of the first call that does not raise, after
      exactly n + 1 calls and n sleeps, when every earlier call raised a caught
      exception. */
  lemma RetryReturnsFirstSuccess<T>(p: RetryPolicy, call: nat -> Attempt<T>, kind: SleepKind, n: nat)
    requires 0 <= n < p.maxAttempts
    requires call(n).Returned?
    requires forall j :: 0 <= j < n ==> call(j).Raised? && call(j).error.cls in p.exceptions
    ensures RetrySpec(p, call, kind).outcome == call(n)
    ensures |Calls(RetrySpec(p, call, kind).trace)| == n + 1
    ensures |Sleeps(RetrySpec(p, call, kind).trace)| == n
  {
    FirstStopIs(p, call, 0, n);
    RetryShape(p, call, kind);
  }

  /** An exception the decorator does not list propagates from the attempt that
      raised it: no further call, and no warning or sleep after it. */
  lemma RetryUnlistedPropagates<T>(p: RetryPolicy, call: nat -> Attempt<T>, kind: SleepKind, n: nat)
    requires 0 <= n < p.maxAttempts
    requires call(n).Raised? && call(n).error.cls !in p.exceptions
    requires forall j :: 0 <= j < n ==> call(j).Raised? && call(j).error.cls in p.exceptions
    ensures RetrySpec(p, call, kind).outcome == Raised(call(n).error)
    ensures Calls(RetrySpec(p, call, kind).trace) == seq(n + 1, j => j)
    ensures |Sleeps(RetrySpec(p, call, kind).trace)| == n
    ensures |Warnings(RetrySpec(p, call, kind).trace)| == n
  {
    FirstStopIs(p, call, 0, n);
    RetryShape(p, call, kind);
  }

  /** When every attempt raises a listed exception, the wrapper makes exactly
      `maxAttempts` calls, sleeps `maxAttempts - 1` times with growing delays,
      logs warnings 1 .. maxAttempts - 1, and re-raises the exception of the last
      attempt unchanged. */
  lemma RetryExhausted<T>(p: RetryPolicy, call: nat -> Attempt<T>, kind: SleepKind)
    requires p.maxAttempts >= 1
    requires forall j :: 0 <= j < p.maxAttempts ==> call(j).Raised? && call(j).error.cls in p.exceptions
    ensures RetrySpec(p, call, kind).outcome == Raised(call(p.maxAttempts - 1).error)
    ensures |Calls(RetrySpec(p, call, kind).trace)| == p.maxAttempts
    ensures Sleeps(RetrySpec(p, call, kind).trace) == Delays(p, p.maxAttempts - 1)
    ensures Warnings(RetrySpec(p, call, kind).trace) == seq(p.maxAttempts - 1, j => j + 1)
  {
    FirstStopIs(p, call, 0, p.maxAttempts);
    RetryShape(p, call, kind);
  }

  function Sum(s: seq<real>): real {
    if |s| == 0 then 0.0 else Sum(s[..|s| - 1]) + s[|s| - 1]
  }

  /** `1 + b + ... + b^(n-1)`. */
  function GeomSum(b: real, n: nat): real {
    if n == 0 then 0.0 else GeomSum(b, n - 1) + Pow(b, n - 1)
  }

  lemma {:induction false} SumOfDelays(p: RetryPolicy, n: nat)
    ensures Sum(Delays(p, n)) == p.delay * GeomSum(p.backoff, n)
  {
    if n > 0 {
      var s := Delays(p, n);
      assert s[..n - 1] == Delays(p, n - 1);
      SumOfDelays(p, n - 1);
    }
  }

  /** The total time slept is `delay * (1 + backoff + ... + backoff^(k-1))` for
      k sleeps; when all attempts fail, k is `maxAttempts - 1`. */
  lemma RetryTotalWait<T>(p: RetryPolicy, call: nat -> Attempt<T>, kind: SleepKind)
    requires p.maxAttempts >= 1
    ensures Sum(Sleeps(RetrySpec(p, call, kind).trace)) == p.delay * GeomSum(p.backoff, LastAttempt(p, call))
    ensures (forall j :: 0 <= j < p.maxAttempts ==> call(j).Raised? && call(j).error.cls in p.exceptions) ==>
      Sum(Sleeps(RetrySpec(p, call, kind).trace)) == p.delay * GeomSum(p.backoff, p.maxAttempts - 1)
  {
    RetryShape(p, call, kind);
    SumOfDelays(p, LastAttempt(p, call));
    if forall j :: 0 <= j < p.maxAttempts ==> call(j).Raised? && call(j).error.cls in p.exceptions {
      FirstStopIs(p, call, 0, p.maxAttempts);
    }
  }

  /** `async_retry` makes the same calls, logs the same warnings, sleeps the same
      durations and ends with the same outcome as `retry`; only the kind of sleep
      differs. */
  lemma AsyncRetryAgreesWithRetry<T>(p: RetryPolicy, call: nat -> Attempt<T>)
    requires p.maxAttempts >= 1
    ensures RetrySpec(p, call, AsyncioSleep).outcome == RetrySpec(p, call, TimeSleep).outcome
    ensures Calls(RetrySpec(p, call, AsyncioSleep).trace) == Calls(RetrySpec(p, call, TimeSleep).trace)
    ensures Sleeps(RetrySpec(p, call, AsyncioSleep).trace) == Sleeps(RetrySpec(p, call, TimeSleep).trace)
    ensures Warnings(RetrySpec(p, call, AsyncioSleep).trace) == Warnings(RetrySpec(p, call, TimeSleep).trace)
  {
    RetryShape(p, call, AsyncioSleep);
    RetryShape(p, call, TimeSleep);
  }

  // ---------------------------------------------------------------------------
  // ensure_env_vars
  // ---------------------------------------------------------------------------

  /** `os.getenv(name)` is truthy: the variable is set and not empty. */
  predicate IsSet(env: map<string, string>, name: string) {
    name in env && env[name] != ""
  }

  /** The requested names that are unset or empty, in argument order (a name
      requested twice is listed twice). */
  function MissingOf(env: map<string, string>, names: seq<string>): (m: seq<string>)
    ensures |m| <= |names|
    ensures forall x :: x in m <==> x in names && !IsSet(env, x)
  {
    if |names| == 0 then []
    else
      var last := names[|names| - 1];
      MissingOf(env, names[..|names| - 1]) + (if IsSet(env, last) then [] else [last])
  }

  lemma MissingEmptyIffAllSet(env: map<string, string>, names: seq<string>)
    ensures |MissingOf(env, names)| == 0 <==> forall i :: 0 <= i < |names| ==> IsSet(env, names[i])
  {
    if |MissingOf(env, names)| > 0 {
      var x := MissingOf(env, names)[0];
      assert x in names && !IsSet(env, x);
    } else {
      forall i | 0 <= i < |names| ensures IsSet(env, names[i]) {
        assert names[i] in names;
      }
    }
  }

  /** The message of the EnvironmentError. */
  function MissingMessage(missing: seq<string>): string {
    "Missing required environment variables: " + Join(missing, ", ") + ". Please set them in config/.env"
  }

  /** `ensure_env_vars(*names)`: raises EnvironmentError exactly when some name is
      unset or empty, listing the missing names in argument order; otherwise
      returns a dict whose keys are exactly the requested names, each mapped to
      its value in the environment. */
  method EnsureEnvVars(env: map<string, string>, names: seq<string>) returns (r: Attempt<map<string, string>>)
    ensures r.Raised? <==> exists i :: 0 <= i < |names| && !IsSet(env, names[i])
    ensures r.Raised? ==> r.error == Exc(EnvironmentError, MissingMessage(MissingOf(env, names)))
    ensures r.Returned? ==> forall k :: k in r.value <==> k in names
    ensures r.Returned? ==> forall k :: k in r.value ==> IsSet(env, k) && r.value[k] == env[k]
  {
    var missing: seq<string> := [];
    var values: map<string, string> := map[];
    for i := 0 to |names|
      invariant missing == MissingOf(env, names[..i])
      invariant forall k :: k in values <==> k in names[..i] && IsSet(env, k)
      invariant forall k :: k in values ==> IsSet(env, k) && values[k] == env[k]
    {
      assert names[..i + 1][..i] == names[..i];
      var name := names[i];
      assert names[..i + 1] == names[..i] + [name];
      assert forall k :: k in names[..i + 1] <==> k in names[..i] || k == name;
      if !IsSet(env, name) {
        missing := missing + [name];
      } else {
        values := values[name := env[name]];
      }
    }
    assert names[..|names|] == names;
    MissingEmptyIffAllSet(env, names);
    if |missing| > 0 {
      return Raised(Exc(EnvironmentError, MissingMessage(missing)));
    }
    AllNamesKept(env, names, values);
    return Returned(values);
  }

  /** When every name is set, the dict of the set names holds every name. */
  lemma AllNamesKept(env: map<string, string>, names: seq<string>, values: map<string, string>)
    requires forall i :: 0 <= i < |names| ==> IsSet(env, names[i])
    requires forall k :: k in values <==> k in names && IsSet(env, k)
    ensures forall k :: k in values <==> k in names
  {
  }
}
