/** The fault-tolerant call wrapper `ftcall` of mf.py as a retry state machine.

    The wrapped remote call is not run: each time the wrapper invokes it, the
    model reads what that attempt did from a finite script of attempt
    outcomes. The wrapper's blocking sleeps are recorded as durations instead
    of being slept. The real loop has no retry cap; a script that runs out
    while every attempt so far asked for a retry ends in `Pending`, meaning
    the wrapper is still retrying when the script ends. */
module Retry {

  /** A duration in seconds, as handed to the sleep call. */
  type Seconds = r: real | r >= 0.0

  /** What one invocation of the wrapped remote call did. */
  datatype Attempt =
    | Success                           // the call returned normally
    | RateLimited(retryAfter: Seconds)  // client error whose response carries Retry-After
    | ClientError                       // client error without a Retry-After header
    | ServerError                       // server error, whatever its headers
    | Unhandled                         // any other exception (redirection, connection failure, ...)

  /** How a run of the wrapper ends. */
  datatype Status = Returned | Raised | Pending

  /** How a run of the wrapper ended, and how many attempts it made. */
  datatype Run = Run(status: Status, used: nat)

  /** The fixed pause after a server error. */
  const ServerErrorPause: Seconds := 5.0

  /** Attempts after which the wrapper sleeps and invokes the same call again. */
  predicate Retryable(a: Attempt) {
    a.RateLimited? || a.ServerError?
  }

  /** Attempts whose exception leaves the wrapper. */
  predicate Fatal(a: Attempt) {
    a.ClientError? || a.Unhandled?
  }

  /** The pause after a retryable attempt: twice the server's Retry-After for
      a rate limit, the fixed pause for a server error. */
  function Delay(a: Attempt): Seconds
    requires Retryable(a)
  {
    if a.RateLimited? then 2.0 * a.retryAfter else ServerErrorPause
  }

  /** The pause one attempt calls for, if any. */
  function Pause(a: Attempt): seq<Seconds> {
    if Retryable(a) then [Delay(a)] else []
  }

  /** The pauses a sequence of attempts calls for, one per retryable attempt, in order. */
  function RetryDelays(s: seq<Attempt>): seq<Seconds> {
    if s == [] then [] else Pause(s[0]) + RetryDelays(s[1..])
  }

  lemma {:induction false} RetryDelaysAppend(a: seq<Attempt>, b: seq<Attempt>)
    ensures RetryDelays(a + b) == RetryDelays(a) + RetryDelays(b)
  {
    if a == [] {
      assert a + b == b;
    } else {
      assert (a + b)[0] == a[0];
      assert (a + b)[1..] == a[1..] + b;
      RetryDelaysAppend(a[1..], b);
      assert RetryDelays(a + b) == Pause(a[0]) + (RetryDelays(a[1..]) + RetryDelays(b));
    }
  }

  /** The pauses of the attempts up to `pos + n` are those up to `pos`
      followed by those of the next `n`. */
  lemma RetryDelaysSplit(net: seq<Attempt>, pos: nat, n: nat)
    requires pos + n <= |net|
    ensures RetryDelays(net[..pos + n]) == RetryDelays(net[..pos]) + RetryDelays(net[pos..][..n])
  {
    RetryDelaysAppend(net[..pos], net[pos..][..n]);
    assert net[..pos] + net[pos..][..n] == net[..pos + n];
  }

  /** The pauses recorded up to `pos`, followed by those of the next `n`
      attempts, are the pauses of the attempts up to `pos + n`. */
  lemma RetryDelaysExtend(net: seq<Attempt>, pos: nat, n: nat, before: seq<Seconds>, more: seq<Seconds>)
    requires pos + n <= |net|
    requires before == RetryDelays(net[..pos]) && more == RetryDelays(net[pos..][..n])
    ensures before + more == RetryDelays(net[..pos + n])
  {
    RetryDelaysSplit(net, pos, n);
  }

  /** One more attempt adds its own pause, if any. */
  lemma RetryDelaysStep(s: seq<Attempt>, k: nat)
    requires k < |s|
    ensures RetryDelays(s[..k + 1]) == RetryDelays(s[..k]) + Pause(s[k])
  {
    RetryDelaysAppend(s[..k], [s[k]]);
    assert s[..k] + [s[k]] == s[..k + 1];
    assert [s[k]][1..] == [];
  }

  /** A run of retryable attempts calls for one pause each. */
  lemma {:induction false} RetriedPauseOnce(s: seq<Attempt>)
    requires forall i | 0 <= i < |s| :: Retryable(s[i])
    ensures |RetryDelays(s)| == |s|
  {
    if s != [] {
      assert Retryable(s[0]);
      RetriedPauseOnce(s[1..]);
    }
  }

  /** The wrapper as a state machine over the script: a success returns, a
      fatal error propagates, a retryable error tries again on the rest of
      the script. The pauses it asks for are those of the attempts it made
      (`RetryDelays`), as `FtCall` establishes. */
  function Ft(script: seq<Attempt>): (run: Run)
    ensures run.used <= |script|
  {
    if script == [] then Run(Pending, 0)
    else if Retryable(script[0]) then
      var rest := Ft(script[1..]);
      Run(rest.status, rest.used + 1)
    else
      Run(if script[0] == Success then Returned else Raised, 1)
  }

  /** What a run of the wrapper does, pinned down completely: every attempt
      before the last one was retryable, the last one decides the status (a
      success returns, a fatal error is raised, and a script of retryable
      attempts only leaves the wrapper still retrying). */
  lemma {:induction false} FtCharacterised(script: seq<Attempt>)
    ensures var run := Ft(script);
      && run.used <= |script|
      && (run.status == Pending ==>
            run.used == |script| && forall i | 0 <= i < |script| :: Retryable(script[i]))
      && (run.status != Pending ==>
            0 < run.used && forall i | 0 <= i < run.used - 1 :: Retryable(script[i]))
      && (run.status == Returned ==> script[run.used - 1] == Success)
      && (run.status == Raised ==> Fatal(script[run.used - 1]))
  {
    if script != [] && Retryable(script[0]) {
      var rest := Ft(script[1..]);
      FtCharacterised(script[1..]);
      forall i | 1 <= i < |script| && (rest.status == Pending || i < rest.used)
        ensures Retryable(script[i])
      {
        assert script[i] == script[1..][i - 1];
      }
      if rest.status != Pending {
        assert script[rest.used] == script[1..][rest.used - 1];
      }
    }
  }

  /** A finished run paused exactly once per failed attempt, and a run still
      retrying once per attempt. */
  lemma FtPausesPerFailure(script: seq<Attempt>)
    ensures var run := Ft(script);
            |RetryDelays(script[..run.used])| == if run.status == Pending then run.used else run.used - 1
  {
    FtCharacterised(script);
    var run := Ft(script);
    if run.status == Pending {
      assert script[..run.used] == script;
      RetriedPauseOnce(script);
    } else {
      var k := run.used - 1;
      RetryDelaysStep(script, k);
      RetriedPauseOnce(script[..k]);
    }
  }

  /** A run uses no more attempts than there are; a finished run uses at
      least one, and a run still retrying uses them all. */
  lemma {:induction false} FtUsed(s: seq<Attempt>)
    ensures Ft(s).used <= |s|
    ensures Ft(s).status != Pending ==> 0 < Ft(s).used
    ensures Ft(s).status == Pending ==> Ft(s).used == |s|
  {
    if s != [] && Retryable(s[0]) {
      FtUsed(s[1..]);
    }
  }

  /** One step of the state machine on the suffix of a script that starts at `k`. */
  lemma FtStep(script: seq<Attempt>, k: nat)
    requires k < |script|
    ensures var here := Ft(script[k..]);
            var next := Ft(script[k + 1..]);
            if Retryable(script[k]) then
              here == Run(next.status, next.used + 1)
            else
              here == Run(if script[k] == Success then Returned else Raised, 1)
  {
    assert script[k..][0] == script[k];
    assert script[k..][1..] == script[k + 1..];
  }

  /** `ftcall`: invoke the call until it returns or raises a non-retryable
      error, pausing between attempts as the failure asks. */
  method FtCall(script: seq<Attempt>) returns (status: Status, sleeps: seq<Seconds>, used: nat)
    ensures Run(status, used) == Ft(script)
    ensures sleeps == RetryDelays(script[..used])
  {
    sleeps, used := [], 0;
    assert script[used..] == script;
    while used < |script|
      invariant used <= |script|
      invariant Ft(script) == Run(Ft(script[used..]).status, used + Ft(script[used..]).used)
      invariant sleeps == RetryDelays(script[..used])
      decreases |script| - used
    {
      FtStep(script, used);
      RetryDelaysStep(script, used);
      match script[used] {
        case Success =>
          return Returned, sleeps, used + 1;
        case ClientError =>
          return Raised, sleeps, used + 1;
        case Unhandled =>
          return Raised, sleeps, used + 1;
        case RateLimited(r) =>
          sleeps := sleeps + [2.0 * r];
        case ServerError =>
          sleeps := sleeps + [ServerErrorPause];
      }
      used := used + 1;
    }
    assert script[used..] == [];
    status := Pending;
  }

  /** A call that first succeeds after some retryable failures returns, having
      paused once per failure, and nothing after the success is attempted. */
  lemma {:induction false} FirstSuccessReturns(failures: seq<Attempt>, later: seq<Attempt>)
    requires forall i | 0 <= i < |failures| :: Retryable(failures[i])
    ensures Ft(failures + [Success] + later) == Run(Returned, |failures| + 1)
    ensures RetryDelays((failures + [Success] + later)[..|failures| + 1]) == RetryDelays(failures)
    ensures |RetryDelays(failures)| == |failures|
  {
    var script := failures + [Success] + later;
    if failures == [] {
      assert script[0] == Success;
    } else {
      assert script[1..] == failures[1..] + [Success] + later;
      FirstSuccessReturns(failures[1..], later);
    }
    RetryDelaysStep(script, |failures|);
    assert script[..|failures|] == failures;
    RetriedPauseOnce(failures);
  }

  /** A client error without Retry-After propagates on the first attempt:
      no pause and no second attempt. */
  lemma ClientErrorPropagatesAtOnce(later: seq<Attempt>)
    ensures Ft([ClientError] + later) == Run(Raised, 1)
    ensures RetryDelays(([ClientError] + later)[..1]) == []
  {
    assert ([ClientError] + later)[..1] == [ClientError];
  }

  /** A rate-limited attempt pauses for twice Retry-After, then the same call
      runs again on the rest of the script. */
  lemma RateLimitPausesTwiceRetryAfter(r: Seconds, later: seq<Attempt>)
    ensures var run := Ft([RateLimited(r)] + later);
            && run == Run(Ft(later).status, Ft(later).used + 1)
            && RetryDelays(([RateLimited(r)] + later)[..run.used]) ==
                 [2.0 * r] + RetryDelays(later[..Ft(later).used])
  {
    var script := [RateLimited(r)] + later;
    assert script[1..] == later;
    FtUsed(later);
    assert script[..Ft(later).used + 1][1..] == later[..Ft(later).used];
  }

  /** A server error pauses for the fixed five seconds, then the same call runs
      again on the rest of the script. */
  lemma ServerErrorPausesFiveSeconds(later: seq<Attempt>)
    ensures var run := Ft([ServerError] + later);
            && run == Run(Ft(later).status, Ft(later).used + 1)
            && RetryDelays(([ServerError] + later)[..run.used]) ==
                 [5.0] + RetryDelays(later[..Ft(later).used])
  {
    var script := [ServerError] + later;
    assert script[1..] == later;
    FtUsed(later);
    assert script[..Ft(later).used + 1][1..] == later[..Ft(later).used];
  }

  // ---------------------------------------------------------------------
  // Several wrapped calls, one after another

  /** How a batch of wrapped calls ended, how many attempts it made in all,
      and how many of its calls were issued: all of them when every call
      returned, otherwise those up to and including the call that raised or
      is still retrying. */
  datatype Batch = Batch(status: Status, used: nat, issued: nat)

  /** `k` wrapped calls made one after another on the stream `s`, read as
      one state machine: a retryable attempt keeps the current call going, a
      success ends it and starts the next, a fatal attempt raises, and the
      batch is still retrying when the stream runs out. No call is issued
      after one that raised or is still retrying. */
  ghost function RunCalls(s: seq<Attempt>, k: nat): (b: Batch)
    ensures b.used <= |s|
    decreases |s|
  {
    if k == 0 then Batch(Returned, 0, 0)
    else if s == [] then Batch(Pending, 0, 1)
    else if Retryable(s[0]) then
      var rest := RunCalls(s[1..], k);
      Batch(rest.status, rest.used + 1, rest.issued)
    else if s[0] == Success then
      var rest := RunCalls(s[1..], k - 1);
      Batch(rest.status, rest.used + 1, rest.issued + 1)
    else
      Batch(Raised, 1, 1)
  }

  /** A single call is one run of the wrapper. */
  lemma {:induction false} RunCallsOne(s: seq<Attempt>)
    ensures RunCalls(s, 1) == Batch(Ft(s).status, Ft(s).used, 1)
  {
    if s != [] && Retryable(s[0]) {
      RunCallsOne(s[1..]);
    }
  }

  /** Each call of a batch is one run of the wrapper on the attempts the
      calls before it left: the first call runs, and when it returns the
      other calls run on what follows; otherwise it is the only call issued. */
  lemma {:induction false} RunCallsFirst(s: seq<Attempt>, k: nat)
    requires 0 < k
    ensures var first := Ft(s);
            var rest := RunCalls(s[first.used..], k - 1);
            RunCalls(s, k) ==
              if first.status != Returned then Batch(first.status, first.used, 1)
              else Batch(rest.status, first.used + rest.used, 1 + rest.issued)
  {
    if s != [] {
      if Retryable(s[0]) {
        RunCallsFirst(s[1..], k);
        assert s[1..][Ft(s[1..]).used..] == s[Ft(s).used..];
      } else if s[0] == Success {
        assert s[1..] == s[Ft(s).used..];
      }
    }
  }

  /** A batch of calls that all returned, followed by more calls on the
      attempts left over, is one longer batch. */
  lemma {:induction false} RunCallsAppend(s: seq<Attempt>, m: nat, n: nat)
    requires RunCalls(s, m).status == Returned
    ensures var u := RunCalls(s, m).used;
            var rest := RunCalls(s[u..], n);
            RunCalls(s, m + n) == Batch(rest.status, u + rest.used, m + rest.issued)
  {
    if m == 0 {
      assert s[0..] == s;
    } else if Retryable(s[0]) {
      RunCallsAppend(s[1..], m, n);
      assert s[1..][RunCalls(s[1..], m).used..] == s[RunCalls(s, m).used..];
    } else {
      RunCallsAppend(s[1..], m - 1, n);
      assert s[1..][RunCalls(s[1..], m - 1).used..] == s[RunCalls(s, m).used..];
    }
  }

  /** The same, with the stream read from absolute positions: `k` calls that
      returned using the attempts from `pos` to `mid`, then `n` calls, all
      issued, using those from `mid` to `end`. */
  lemma RunCallsThen(net: seq<Attempt>, pos: nat, k: nat, mid: nat, n: nat, end: nat, status: Status)
    requires pos <= mid <= end <= |net|
    requires RunCalls(net[pos..], k) == Batch(Returned, mid - pos, k)
    requires RunCalls(net[mid..], n) == Batch(status, end - mid, n)
    ensures RunCalls(net[pos..], k + n) == Batch(status, end - pos, k + n)
  {
    RunCallsAppend(net[pos..], k, n);
    assert net[pos..][mid - pos..] == net[mid..];
  }

  /** Once a call of a batch raised or is still retrying, asking for more
      calls changes nothing: the longer batch ends the same way, with the
      same calls issued. */
  lemma {:induction false} RunCallsStuck(s: seq<Attempt>, k: nat, m: nat)
    requires k <= m && RunCalls(s, k).status != Returned
    ensures RunCalls(s, m) == RunCalls(s, k)
  {
    if s != [] {
      if Retryable(s[0]) {
        RunCallsStuck(s[1..], k, m);
      } else if s[0] == Success {
        RunCallsStuck(s[1..], k - 1, m - 1);
      }
    }
  }

  /** A batch that raised or is still retrying with all its calls issued
      has a length the stream fixes: no other number of calls does that. */
  lemma RunCallsIssuedUnique(s: seq<Attempt>, j: nat, k: nat)
    requires RunCalls(s, j).status != Returned && RunCalls(s, j).issued == j
    requires RunCalls(s, k).status != Returned && RunCalls(s, k).issued == k
    ensures j == k
  {
    if j != k {
      var lo, hi := if j < k then j else k, if j < k then k else j;
      RunCallsStuck(s, lo, hi);
    }
  }

  /** A stream in which every attempt succeeds at once. */
  predicate AllSucceed(net: seq<Attempt>) {
    forall i | 0 <= i < |net| :: net[i] == Success
  }

  /** On a stream of successes every call takes exactly one attempt: the
      batch returns when there are enough of them, and otherwise is left
      waiting for more on the call after the last attempt. */
  lemma {:induction false} RunCallsAllSucceed(s: seq<Attempt>, k: nat)
    requires AllSucceed(s)
    ensures RunCalls(s, k) == if k <= |s| then Batch(Returned, k, k) else Batch(Pending, |s|, |s| + 1)
  {
    if k > 0 && s != [] {
      assert s[0] == Success;
      RunCallsAllSucceed(s[1..], k - 1);
    }
  }

  /** What a batch consumed: when every call returned, all were issued, each
      used at least one attempt, none of the attempts was fatal and the last
      one was a success; when a call raised, the last attempt used was fatal;
      when the batch is still retrying, it used the whole stream. */
  lemma {:induction false} RunCallsConsumed(s: seq<Attempt>, k: nat)
    ensures var b := RunCalls(s, k);
            && b.issued <= k
            && (b.status == Returned ==> b.issued == k <= b.used && forall i | 0 <= i < b.used :: !Fatal(s[i]))
            && (b.status == Returned && 0 < k ==> s[b.used - 1] == Success)
            && (b.status == Raised ==> 0 < b.used && Fatal(s[b.used - 1]))
            && (b.status == Pending ==> b.used == |s|)
  {
    if k > 0 && s != [] && (Retryable(s[0]) || s[0] == Success) {
      var k' := if Retryable(s[0]) then k else k - 1;
      RunCallsConsumed(s[1..], k');
      var b := RunCalls(s, k);
      forall i | 1 <= i < b.used
        ensures s[i] == s[1..][i - 1]
      {
      }
    }
  }
}
