/**
 * The retry-with-backoff loop that the scripts write out three times
 * (query_llm_with_retries, geminiClassify, gptClassify): up to a fixed number
 * of attempts, the first success is returned at once, a failure the handlers
 * catch sleeps 2**attempt seconds and tries again unless it was the last
 * attempt, in which case None is returned; an exception no handler catches
 * (or one a handler raises itself) leaves the loop.
 */
module Retry {
  import opened Wrappers
  import opened Oracles

  /** What the except clauses of one loop do with an exception of a given kind. */
  datatype Handling =
    | Retry                    // caught: sleep and try again, or return None after the last attempt
    | Reraise(error: ErrorKind) // not caught, or the handler itself raises this

  /** How the loop ends: by returning (a value or None) or by an exception. */
  datatype Outcome<T> = Returned(answer: Option<T>) | Raised(error: ErrorKind)

  /** The outcome, the number of attempts made, and the sleeps between them, in seconds. */
  datatype Run<T> = Run(outcome: Outcome<T>, attempts: nat, sleeps: seq<nat>)

  function Pow2(k: nat): (p: nat)
    ensures p >= 1
  {
    if k == 0 then 1 else 2 * Pow2(k - 1)
  }

  /** The sleep after failed attempt k: (2 ** k) * 1 seconds. */
  function Backoff(k: nat): nat {
    Pow2(k) * 1
  }

  /** The sleeps after attempts k, k+1, ..., k+m-1. */
  function BackoffsFrom(k: nat, m: nat): seq<nat> {
    seq<nat>(m, j requires 0 <= j < m => Backoff(k + j))
  }

  /** len(range(max_retries)) */
  function AttemptLimit(maxRetries: int): nat {
    if maxRetries < 0 then 0 else maxRetries
  }

  predicate Retried(handle: ErrorKind -> Handling, r: Reply) {
    r.Err? && handle(r.error) == Retry
  }

  function Prefixed<T>(sleeps: seq<nat>, run: Run<T>): Run<T> {
    Run(run.outcome, run.attempts, sleeps + run.sleeps)
  }

  /** The loop from attempt k on, out of n; reply(k) is what attempt k gets. */
  function RunFrom<T>(k: nat, n: nat, handle: ErrorKind -> Handling, reply: nat -> Reply<T>): Run<T>
    requires k <= n
    decreases n - k
  {
    if k == n then Run(Returned(None), k, [])
    else
      match reply(k)
      case Ok(v) => Run(Returned(Some(v)), k + 1, [])
      case Err(e) =>
        match handle(e)
        case Reraise(raised) => Run(Raised(raised), k + 1, [])
        case Retry =>
          if k < n - 1 then Prefixed([Backoff(k)], RunFrom(k + 1, n, handle, reply))
          else Run(Returned(None), k + 1, [])
  }

  /** The whole loop: `for attempt in range(maxRetries)`. */
  function RetryRun<T>(maxRetries: int, handle: ErrorKind -> Handling, reply: nat -> Reply<T>): Run<T> {
    RunFrom(0, AttemptLimit(maxRetries), handle, reply)
  }

  method RetryWithBackoff<T>(maxRetries: int, handle: ErrorKind -> Handling, reply: nat -> Reply<T>)
    returns (run: Run<T>, queried: seq<nat>)
    ensures run == RetryRun(maxRetries, handle, reply)
    ensures |queried| == run.attempts && forall k :: 0 <= k < |queried| ==> queried[k] == k
  {
    var n := AttemptLimit(maxRetries);
    var sleeps: seq<nat> := [];
    var attempt: nat := 0;
    queried := [];
    while attempt < n
      invariant attempt <= n
      invariant RetryRun(maxRetries, handle, reply) == Prefixed(sleeps, RunFrom(attempt, n, handle, reply))
      invariant |queried| == attempt && forall k :: 0 <= k < attempt ==> queried[k] == k
    {
      var r := reply(attempt);
      queried := queried + [attempt];
      if r.Ok? {
        assert RunFrom(attempt, n, handle, reply) == Run(Returned(Some(r.value)), attempt + 1, []);
        return Run(Returned(Some(r.value)), attempt + 1, sleeps), queried;
      }
      var h := handle(r.error);
      if h.Reraise? {
        assert RunFrom(attempt, n, handle, reply) == Run(Raised(h.error), attempt + 1, []);
        return Run(Raised(h.error), attempt + 1, sleeps), queried;
      }
      if attempt < n - 1 {
        var rest := RunFrom(attempt + 1, n, handle, reply);
        assert RunFrom(attempt, n, handle, reply) == Prefixed([Backoff(attempt)], rest);
        assert sleeps + ([Backoff(attempt)] + rest.sleeps) == (sleeps + [Backoff(attempt)]) + rest.sleeps;
        sleeps := sleeps + [Backoff(attempt)];
      } else {
        assert RunFrom(attempt, n, handle, reply) == Run(Returned(None), attempt + 1, []);
        return Run(Returned(None), attempt + 1, sleeps), queried;
      }
      attempt := attempt + 1;
    }
    return Run(Returned(None), attempt, sleeps), queried;
  }

  /** From attempt k (< n) the loop makes between 1 and n - k attempts and sleeps between consecutive ones. */
  lemma {:induction false} RunFromShape<T>(k: nat, n: nat, handle: ErrorKind -> Handling, reply: nat -> Reply<T>)
    requires k < n
    ensures var r := RunFrom(k, n, handle, reply);
      && k < r.attempts <= n
      && r.sleeps == BackoffsFrom(k, r.attempts - k - 1)
      && (forall j :: k <= j < r.attempts - 1 ==> Retried(handle, reply(j)))
      && var last := reply(r.attempts - 1);
         match r.outcome
         case Returned(Some(v)) => last == Ok(v)
         case Raised(e) => last.Err? && handle(last.error) == Reraise(e)
         case Returned(None) => r.attempts == n && Retried(handle, last)
    decreases n - k
  {
    var r := RunFrom(k, n, handle, reply);
    if reply(k).Err? && handle(reply(k).error) == Retry && k < n - 1 {
      RunFromShape(k + 1, n, handle, reply);
      var r' := RunFrom(k + 1, n, handle, reply);
      assert r.sleeps == [Backoff(k)] + r'.sleeps;
      assert r.sleeps == BackoffsFrom(k, r.attempts - k - 1);
    }
  }

  /** At most max(maxRetries, 0) attempts are made, and none exactly when maxRetries <= 0. */
  lemma RetryAttemptsBounded<T>(maxRetries: int, handle: ErrorKind -> Handling, reply: nat -> Reply<T>)
    ensures var r := RetryRun(maxRetries, handle, reply);
      && r.attempts <= AttemptLimit(maxRetries)
      && (r.attempts == 0 <==> maxRetries <= 0)
      && (maxRetries <= 0 ==> r == Run(Returned(None), 0, []))
  {
    if maxRetries > 0 {
      RunFromShape(0, AttemptLimit(maxRetries), handle, reply);
    }
  }

  /**
   * The sleeps are 1, 2, 4, ... seconds, one after every attempt but the last
   * one made; every attempt before the last one made failed with a caught exception.
   */
  lemma RetrySleepSchedule<T>(maxRetries: int, handle: ErrorKind -> Handling, reply: nat -> Reply<T>)
    requires maxRetries > 0
    ensures var r := RetryRun(maxRetries, handle, reply);
      && |r.sleeps| == r.attempts - 1
      && (forall j :: 0 <= j < |r.sleeps| ==> r.sleeps[j] == Pow2(j))
      && (forall j :: 0 <= j < r.attempts - 1 ==> Retried(handle, reply(j)))
  {
    RunFromShape(0, AttemptLimit(maxRetries), handle, reply);
    var r := RetryRun(maxRetries, handle, reply);
    forall j | 0 <= j < |r.sleeps| ensures r.sleeps[j] == Pow2(j) {
      assert r.sleeps[j] == Backoff(0 + j);
    }
  }

  /** The outcome is decided by the last attempt made: its value, the exception it lets out, or None after all attempts failed. */
  lemma RetryOutcomeOfLastAttempt<T>(maxRetries: int, handle: ErrorKind -> Handling, reply: nat -> Reply<T>)
    requires maxRetries > 0
    ensures var r := RetryRun(maxRetries, handle, reply);
      r.attempts >= 1 &&
      var last := reply(r.attempts - 1);
      match r.outcome
      case Returned(Some(v)) => last == Ok(v)
      case Raised(e) => last.Err? && handle(last.error) == Reraise(e)
      case Returned(None) => r.attempts == maxRetries && Retried(handle, last)
  {
    RunFromShape(0, AttemptLimit(maxRetries), handle, reply);
  }

  /** The first success after caught failures is returned at once: no further attempt, no further sleep. */
  lemma {:induction false} FirstSuccessFrom<T>(k: nat, n: nat, handle: ErrorKind -> Handling, reply: nat -> Reply<T>, s: nat)
    requires k <= s < n
    requires reply(s).Ok?
    requires forall j :: k <= j < s ==> Retried(handle, reply(j))
    ensures RunFrom(k, n, handle, reply) == Run(Returned(Some(reply(s).value)), s + 1, BackoffsFrom(k, s - k))
    decreases s - k
  {
    if k < s {
      FirstSuccessFrom(k + 1, n, handle, reply, s);
      assert [Backoff(k)] + BackoffsFrom(k + 1, s - k - 1) == BackoffsFrom(k, s - k);
    }
  }

  lemma FirstSuccessReturned<T>(maxRetries: int, handle: ErrorKind -> Handling, reply: nat -> Reply<T>, s: nat)
    requires s < maxRetries
    requires reply(s).Ok?
    requires forall j :: 0 <= j < s ==> Retried(handle, reply(j))
    ensures RetryRun(maxRetries, handle, reply) == Run(Returned(Some(reply(s).value)), s + 1, BackoffsFrom(0, s))
  {
    FirstSuccessFrom(0, AttemptLimit(maxRetries), handle, reply, s);
  }

  lemma {:induction false} FirstUncaughtFrom<T>(k: nat, n: nat, handle: ErrorKind -> Handling, reply: nat -> Reply<T>, s: nat)
    requires k <= s < n
    requires reply(s).Err? && handle(reply(s).error).Reraise?
    requires forall j :: k <= j < s ==> Retried(handle, reply(j))
    ensures RunFrom(k, n, handle, reply) == Run(Raised(handle(reply(s).error).error), s + 1, BackoffsFrom(k, s - k))
    decreases s - k
  {
    if k < s {
      FirstUncaughtFrom(k + 1, n, handle, reply, s);
      assert [Backoff(k)] + BackoffsFrom(k + 1, s - k - 1) == BackoffsFrom(k, s - k);
    }
  }

  /**
   * The first exception no handler catches, after caught failures, leaves the
   * loop at once as the exception the handlers turn it into.
   */
  lemma FirstUncaughtRaised<T>(maxRetries: int, handle: ErrorKind -> Handling, reply: nat -> Reply<T>, s: nat)
    requires s < maxRetries
    requires reply(s).Err? && handle(reply(s).error).Reraise?
    requires forall j :: 0 <= j < s ==> Retried(handle, reply(j))
    ensures RetryRun(maxRetries, handle, reply) == Run(Raised(handle(reply(s).error).error), s + 1, BackoffsFrom(0, s))
  {
    FirstUncaughtFrom(0, AttemptLimit(maxRetries), handle, reply, s);
  }

  lemma {:induction false} ExhaustedFrom<T>(k: nat, n: nat, handle: ErrorKind -> Handling, reply: nat -> Reply<T>)
    requires k < n
    requires forall j :: k <= j < n ==> Retried(handle, reply(j))
    ensures RunFrom(k, n, handle, reply) == Run(Returned(None), n, BackoffsFrom(k, n - k - 1))
    decreases n - k
  {
    if k < n - 1 {
      ExhaustedFrom(k + 1, n, handle, reply);
      assert [Backoff(k)] + BackoffsFrom(k + 1, n - k - 2) == BackoffsFrom(k, n - k - 1);
    }
  }

  /** When every attempt fails with a caught exception, all attempts are made, with n - 1 sleeps, and None is returned. */
  lemma ExhaustedReturnsNone<T>(maxRetries: int, handle: ErrorKind -> Handling, reply: nat -> Reply<T>)
    requires maxRetries > 0
    requires forall j :: 0 <= j < maxRetries ==> Retried(handle, reply(j))
    ensures RetryRun(maxRetries, handle, reply) == Run(Returned(None), maxRetries, BackoffsFrom(0, maxRetries - 1))
  {
    ExhaustedFrom(0, AttemptLimit(maxRetries), handle, reply);
  }

  /** A loop whose handlers catch everything never lets an exception out. */
  lemma {:induction false} CatchAllNeverRaisesFrom<T>(k: nat, n: nat, handle: ErrorKind -> Handling, reply: nat -> Reply<T>)
    requires k <= n
    requires forall e :: handle(e) == Retry
    ensures RunFrom(k, n, handle, reply).outcome.Returned?
    decreases n - k
  {
    if k < n - 1 {
      CatchAllNeverRaisesFrom(k + 1, n, handle, reply);
    }
  }
}
