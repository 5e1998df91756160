/**
 * The retry combinator of retry.py: `RetryingCall` invokes an operation,
 * passes each failure to a failure tester, and retries after the next delay
 * of a finite backoff sequence until the operation succeeds, the tester
 * gives up, or the delays run out. Time is not modelled: a delay is a value
 * drawn per attempt, and the operation is a script of outcomes indexed by
 * the number of the invocation.
 */
module Retry {
  import opened Wrappers

  // ---------------------------------------------------------------------------
  // simpleBackoffIterator

  /** The default increment `partial(mul, 2.0)`. */
  function Doubling(d: real): real { 2.0 * d }

  /** `delay if delay < maxDelay else maxDelay`. */
  function Capped(delay: real, maxDelay: real): (r: real)
    ensures r <= maxDelay
    ensures r == delay || r == maxDelay
  {
    if delay < maxDelay then delay else maxDelay
  }

  /** The delay after `k` increments of `init`. */
  function Iterate(inc: real -> real, init: real, k: nat): real
    decreases k
  {
    if k == 0 then init else inc(Iterate(inc, init, k - 1))
  }

  /** The growing part of the schedule: `count` capped delays starting at `delay`. */
  function Growing(count: nat, delay: real, maxDelay: real, inc: real -> real): seq<real>
    decreases count
  {
    if count == 0 then [] else [Capped(delay, maxDelay)] + Growing(count - 1, inc(delay), maxDelay, inc)
  }

  /** Everything `simpleBackoffIterator` yields, in order. */
  function BackoffDelays(maxResults: nat, maxDelay: real, now: bool, initDelay: real, inc: real -> real): seq<real>
    requires maxResults > 0
  {
    if now then [0.0] + Growing(maxResults - 1, initDelay, maxDelay, inc)
    else Growing(maxResults, initDelay, maxDelay, inc)
  }

  lemma GrowingStep(count: nat, delay: real, maxDelay: real, inc: real -> real, before: seq<real>)
    requires count > 0
    ensures before + Growing(count, delay, maxDelay, inc)
         == (before + [if delay < maxDelay then delay else maxDelay]) + Growing(count - 1, inc(delay), maxDelay, inc)
  {
  }

  /** `simpleBackoffIterator`, run to exhaustion. */
  method SimpleBackoffIterator(maxResults: int, maxDelay: real, now: bool, initDelay: real, incFunc: Option<real -> real>)
    returns (delays: seq<real>)
    requires maxResults > 0
    ensures delays == BackoffDelays(maxResults, maxDelay, now, initDelay, incFunc.GetOr(Doubling))
  {
    var remaining := maxResults;
    var delay := initDelay;
    var inc := incFunc.GetOr(Doubling);
    delays := [];
    if now {
      delays := delays + [0.0];
      remaining := remaining - 1;
    }
    while remaining > 0
      invariant 0 <= remaining
      invariant delays + Growing(remaining, delay, maxDelay, inc) == BackoffDelays(maxResults, maxDelay, now, initDelay, inc)
    {
      GrowingStep(remaining, delay, maxDelay, inc, delays);
      delays := delays + [if delay < maxDelay then delay else maxDelay];
      delay := inc(delay);
      remaining := remaining - 1;
    }
  }

  /** The schedule `RetryingCall.start` falls back to: `simpleBackoffIterator()` with its defaults. */
  function DefaultBackoff(): seq<real>
  {
    BackoffDelays(10, 120.0, true, 0.01, Doubling)
  }

  lemma {:induction false} GrowingShape(count: nat, delay: real, maxDelay: real, inc: real -> real)
    ensures |Growing(count, delay, maxDelay, inc)| == count
    ensures forall k :: 0 <= k < count ==>
      Growing(count, delay, maxDelay, inc)[k] == Capped(Iterate(inc, delay, k), maxDelay)
    decreases count
  {
    if count > 0 {
      GrowingShape(count - 1, inc(delay), maxDelay, inc);
      forall k | 0 <= k < count
        ensures Growing(count, delay, maxDelay, inc)[k] == Capped(Iterate(inc, delay, k), maxDelay)
      {
        if k > 0 { IterateShift(inc, delay, k - 1); }
      }
    }
  }

  lemma {:induction false} IterateShift(inc: real -> real, init: real, k: nat)
    ensures Iterate(inc, inc(init), k) == Iterate(inc, init, k + 1)
    decreases k
  {
    if k > 0 { IterateShift(inc, init, k - 1); }
  }

  /**
   * The schedule has exactly `maxResults` delays; with `now` the first is
   * `0.0`; every other one is the current delay capped at `maxDelay`.
   */
  lemma BackoffShape(maxResults: nat, maxDelay: real, now: bool, initDelay: real, inc: real -> real)
    requires maxResults > 0
    ensures var ds := BackoffDelays(maxResults, maxDelay, now, initDelay, inc);
      && |ds| == maxResults
      && (now ==> ds[0] == 0.0)
      && forall k :: (if now then 1 else 0) <= k < maxResults ==>
           ds[k] == Capped(Iterate(inc, initDelay, k - (if now then 1 else 0)), maxDelay) && ds[k] <= maxDelay
  {
    if now {
      GrowingShape(maxResults - 1, initDelay, maxDelay, inc);
    } else {
      GrowingShape(maxResults, initDelay, maxDelay, inc);
    }
  }

  /** With the default increment, the k-th increment of `d` is `d * 2^k`. */
  lemma {:induction false} DoublingIterate(d: real, k: nat)
    ensures Iterate(Doubling, d, k) == d * Pow2(k)
    decreases k
  {
    if k > 0 { DoublingIterate(d, k - 1); }
  }

  function Pow2(k: nat): (p: real)
    ensures p >= 1.0
  {
    if k == 0 then 1.0 else 2.0 * Pow2(k - 1)
  }

  /** `simpleBackoffIterator(now=True, initDelay=0.01, maxResults=3)` yields 0.0, 0.01, 0.02. */
  lemma ThreeDelayScenario()
    ensures BackoffDelays(3, 120.0, true, 0.01, Doubling) == [0.0, 0.01, 0.02]
  {
    assert Growing(0, 0.04, 120.0, Doubling) == [];
    assert Growing(1, 0.02, 120.0, Doubling) == [0.02];
    assert Growing(2, 0.01, 120.0, Doubling) == [0.01, 0.02];
  }

  // ---------------------------------------------------------------------------
  // Failures and failure testers

  /**
   * A failure of the operation: a refused connection, an HTTP error
   * (`twisted.web.error.Error`) with its status, or any other exception.
   */
  datatype Failure = ConnectionRefused | WebError(status: int, message: string) | OtherError(kind: string)

  /**
   * What a failure tester does with a failure: returns something that is not
   * a Failure (retry), returns a Failure (give up with it), or raises.
   */
  datatype Verdict = Ignore | Propagate(failure: Failure) | Raise(error: Failure)

  /** A tester's verdict together with its state afterwards. */
  datatype Tested<S> = Tested(verdict: Verdict, state: S)

  /** A failure tester as a state-carrying function. */
  type TesterFn<!S> = (S, Failure) -> Tested<S>

  /** A failure tester object: its behaviour and its current state. */
  datatype Tester<!S> = Tester(test: TesterFn<S>, state: S)

  /** The default tester `lambda _: None`: every failure is ignored. */
  function IgnoreAll<S>(s: S, f: Failure): (t: Tested<S>)
    ensures t.verdict == Ignore && t.state == s
  {
    Tested(Ignore, s)
  }

  /** `TwitterFailureTester.okErrs`: 500, 502, 400 and 503 are worth retrying. */
  predicate IsOkErr(status: int) {
    status == 500 || status == 502 || status == 400 || status == 503
  }

  /**
   * `TwitterFailureTester.__call__` as a function of `seen404`: a refused
   * connection counts as status 500; a first 404 is retried and remembered,
   * a later one propagated; statuses outside `okErrs` are propagated; failures
   * `trap` does not recognise are raised again.
   */
  function TwitterTest(seen404: bool, f: Failure): (t: Tested<bool>)
    ensures t.verdict.Raise? <==> f.OtherError?
    ensures t.verdict.Raise? ==> t.verdict.error == f
    ensures t.verdict.Propagate? ==> t.verdict.failure == f
    ensures t.verdict == Ignore <==>
      f.ConnectionRefused? || (f.WebError? && (IsOkErr(f.status) || (f.status == 404 && !seen404)))
    ensures t.state <==> seen404 || (f.WebError? && f.status == 404)
  {
    match f
    case OtherError(_) => Tested(Raise(f), seen404)
    case ConnectionRefused => Tested(Ignore, seen404)
    case WebError(status, _) =>
      if status == 404 then
        if seen404 then Tested(Propagate(f), true) else Tested(Ignore, true)
      else if !IsOkErr(status) then Tested(Propagate(f), seen404)
      else Tested(Ignore, seen404)
  }

  /** `TwitterFailureTester`: the classifier object whose `seen404` flag flips once. */
  class TwitterFailureTester {
    var seen404: bool

    constructor ()
      ensures !seen404
    {
      seen404 := false;
    }

    /** `__call__`. */
    method Call(failure: Failure) returns (v: Verdict)
      modifies this
      ensures Tested(v, seen404) == TwitterTest(old(seen404), failure)
    {
      if failure.OtherError? {
        return Raise(failure);
      }
      var status := if failure.ConnectionRefused? then 500 else failure.status;
      v := Ignore;
      if status == 404 {
        if seen404 {
          v := Propagate(failure);
        } else {
          seen404 := true;
        }
      } else if !IsOkErr(status) {
        v := Propagate(failure);
      }
    }
  }

  /** Once a tester has seen a 404, every later 404 ends the call. */
  lemma TwitterSeen404Sticks(seen404: bool, f: Failure)
    ensures seen404 ==> TwitterTest(seen404, f).state
    ensures seen404 && f.WebError? && f.status == 404 ==> TwitterTest(seen404, f).verdict == Propagate(f)
    ensures !seen404 && f.WebError? && f.status == 404 ==> TwitterTest(seen404, f) == Tested(Ignore, true)
  {
  }

  // ---------------------------------------------------------------------------
  // RetryingCall

  /** What one invocation of the operation produces. */
  datatype Attempt<R> = Succeeded(value: R) | Failed(failure: Failure)

  /** How the call's deferred fires. */
  datatype Outcome<R> = Callback(value: R) | Errback(failure: Failure)

  /**
   * The `backoffIterator` argument of `start`: left out (None), a list, or
   * some other iterator. An empty list is falsy, so it selects the default.
   */
  datatype BackoffArg = Omitted | DelayList(delays: seq<real>) | DelayIterator(delays: seq<real>)

  function EffectiveBackoff(arg: BackoffArg): (b: seq<real>)
    ensures arg.Omitted? ==> b == DefaultBackoff()
    ensures arg.DelayList? ==> b == if arg.delays == [] then DefaultBackoff() else arg.delays
    ensures arg.DelayIterator? ==> b == arg.delays
  {
    match arg
    case Omitted => DefaultBackoff()
    case DelayList(ds) => if ds == [] then DefaultBackoff() else ds
    case DelayIterator(ds) => ds
  }

  /**
   * When the delays are exhausted before any failure is recorded, `errback`
   * is called with no failure and reports the `StopIteration` being handled.
   */
  const StopIterationFailure := OtherError("StopIteration")

  datatype Ending = Delivered | Propagated | Raised | Exhausted

  /**
   * The rest of a call: how it ends, how many invocations have been made in
   * all, the delays drawn on the way, the delays left, the tester's state and
   * the recorded failure.
   */
  datatype Run<R, S> = Run(outcome: Outcome<R>, ending: Ending, calls: nat, waited: seq<real>,
                           remaining: seq<real>, testerState: S, failure: Option<Failure>)

  /** What `_call` leads to: draw a delay and invoke the operation, or give up. */
  function CallRun<R, S>(op: nat -> Attempt<R>, calls: nat, backoff: seq<real>, tester: TesterFn<S>,
                         st: S, failure: Option<Failure>): Run<R, S>
    decreases |backoff|, 0
  {
    if backoff == [] then
      Run(Errback(failure.GetOr(StopIterationFailure)), Exhausted, calls, [], [], st, failure)
    else
      match op(calls)
      case Succeeded(v) => Run(Callback(v), Delivered, calls + 1, [backoff[0]], backoff[1..], st, failure)
      case Failed(f) =>
        var r := ErrRun(op, calls + 1, backoff[1..], tester, st, failure, f);
        r.(waited := [backoff[0]] + r.waited)
  }

  /** What `_err` leads to: record the first failure and ask the tester. */
  function ErrRun<R, S>(op: nat -> Attempt<R>, calls: nat, backoff: seq<real>, tester: TesterFn<S>,
                        st: S, failure: Option<Failure>, fail: Failure): Run<R, S>
    decreases |backoff|, 1
  {
    var first := if failure.None? then Some(fail) else failure;
    var t := tester(st, fail);
    match t.verdict
    case Raise(e) => Run(Errback(e), Raised, calls, [], backoff, t.state, first)
    case Propagate(g) => Run(Errback(g), Propagated, calls, [], backoff, t.state, first)
    case Ignore => CallRun(op, calls, backoff, tester, t.state, first)
  }

  /** A whole call started fresh: no invocation made yet and no failure recorded. */
  function StartRun<R, S>(op: nat -> Attempt<R>, backoff: seq<real>, tester: TesterFn<S>, st: S): Run<R, S>
  {
    CallRun(op, 0, backoff, tester, st, None)
  }

  /** `RetryingCall`: the state `start`, `_call` and `_err` share. */
  class RetryingCall<R, S(0)> {
    /** The function with its arguments; invocation `i` gives `op(i)`. */
    const op: nat -> Attempt<R>
    /** How many times the operation has been invoked. */
    var calls: nat
    /** The delays drawn so far, in order. */
    var waited: seq<real>
    /** `_backoffIterator`: the delays not yet drawn. */
    var backoff: seq<real>
    /** `_failureTester` and its state. */
    var tester: TesterFn<S>
    var testerState: S
    /** `failure`: the first failure of the current call. */
    var failure: Option<Failure>
    /** `_deferred`: `None` until it fires. */
    var deferred: Option<Outcome<R>>

    constructor (op: nat -> Attempt<R>)
      ensures this.op == op && calls == 0 && waited == [] && backoff == []
      ensures failure == None && deferred == None
    {
      this.op := op;
      calls := 0;
      waited := [];
      backoff := [];
      tester := IgnoreAll;
      failure := None;
      deferred := None;
    }

    /** `_call`. */
    method Call()
      requires deferred.None?
      modifies this
      ensures var r := CallRun(op, old(calls), old(backoff), old(tester), old(testerState), old(failure));
        && deferred == Some(r.outcome) && calls == r.calls && waited == old(waited) + r.waited
        && backoff == r.remaining && tester == old(tester) && testerState == r.testerState
        && failure == r.failure
      decreases |backoff|, 0
    {
      if backoff == [] {
        deferred := Some(Errback(if failure.Some? then failure.value else StopIterationFailure));
      } else {
        var delay := backoff[0];
        backoff := backoff[1..];
        waited := waited + [delay];
        var result := op(calls);
        calls := calls + 1;
        match result
        case Succeeded(v) =>
          deferred := Some(Callback(v));
        case Failed(f) =>
          Err(f);
      }
    }

    /** `_err`. */
    method Err(fail: Failure)
      requires deferred.None?
      modifies this
      ensures var r := ErrRun(op, old(calls), old(backoff), old(tester), old(testerState), old(failure), fail);
        && deferred == Some(r.outcome) && calls == r.calls && waited == old(waited) + r.waited
        && backoff == r.remaining && tester == old(tester) && testerState == r.testerState
        && failure == r.failure
      decreases |backoff|, 1
    {
      if failure.None? {
        failure := Some(fail);
      }
      var t := tester(testerState, fail);
      testerState := t.state;
      match t.verdict
      case Raise(e) =>
        deferred := Some(Errback(e));
      case Propagate(g) =>
        deferred := Some(Errback(g));
      case Ignore =>
        Call();
    }

    /** `start`: falls back to the default schedule and tester, then makes the first call. */
    method Start(backoffArg: BackoffArg, testerArg: Option<Tester<S>>) returns (d: Outcome<R>)
      modifies this
      ensures var test := if testerArg.Some? then testerArg.value.test else IgnoreAll;
        var st := if testerArg.Some? then testerArg.value.state else old(testerState);
        var r := CallRun(op, old(calls), EffectiveBackoff(backoffArg), test, st, None);
        && d == r.outcome && deferred == Some(d) && calls == r.calls && waited == old(waited) + r.waited
        && backoff == r.remaining && tester == test && testerState == r.testerState && failure == r.failure
    {
      var b: seq<real>;
      match backoffArg {
        case DelayIterator(ds) =>
          b := ds;
        case DelayList(ds) =>
          if ds != [] {
            b := ds;
          } else {
            b := SimpleBackoffIterator(10, 120.0, true, 0.01, None);
          }
        case Omitted =>
          b := SimpleBackoffIterator(10, 120.0, true, 0.01, None);
      }
      backoff := b;
      if testerArg.Some? {
        tester := testerArg.value.test;
        testerState := testerArg.value.state;
      } else {
        tester := IgnoreAll;
      }
      deferred := None;
      failure := None;
      Call();
      d := deferred.value;
    }
  }

  // ---------------------------------------------------------------------------
  // Properties of a call

  /** A failure already recorded is never overwritten. */
  lemma {:induction false} CallKeepsFailure<R, S>(op: nat -> Attempt<R>, calls: nat, backoff: seq<real>,
                                                   tester: TesterFn<S>, st: S, f0: Failure)
    ensures CallRun(op, calls, backoff, tester, st, Some(f0)).failure == Some(f0)
    decreases |backoff|, 0
  {
    if backoff != [] && op(calls).Failed? {
      ErrKeepsFailure(op, calls + 1, backoff[1..], tester, st, f0, op(calls).failure);
    }
  }

  lemma {:induction false} ErrKeepsFailure<R, S>(op: nat -> Attempt<R>, calls: nat, backoff: seq<real>,
                                                  tester: TesterFn<S>, st: S, f0: Failure, fail: Failure)
    ensures ErrRun(op, calls, backoff, tester, st, Some(f0), fail).failure == Some(f0)
    decreases |backoff|, 1
  {
    if tester(st, fail).verdict.Ignore? {
      CallKeepsFailure(op, calls, backoff, tester, tester(st, fail).state, f0);
    }
  }

  /**
   * One failed invocation, unfolded: the tester either ends the call at once
   * or the call goes on from the next delay with the failure recorded.
   */
  lemma UnfoldFailure<R, S>(op: nat -> Attempt<R>, calls: nat, backoff: seq<real>, tester: TesterFn<S>,
                            st: S, failure: Option<Failure>)
    requires backoff != [] && op(calls).Failed?
    ensures var f := op(calls).failure;
      var first := if failure.None? then Some(f) else failure;
      var t := tester(st, f);
      var r := CallRun(op, calls, backoff, tester, st, failure);
      && (t.verdict.Ignore? ==>
            var next := CallRun(op, calls + 1, backoff[1..], tester, t.state, first);
            r == next.(waited := [backoff[0]] + next.waited))
      && (t.verdict.Propagate? ==>
            r == Run(Errback(t.verdict.failure), Propagated, calls + 1, [backoff[0]], backoff[1..], t.state, first))
      && (t.verdict.Raise? ==>
            r == Run(Errback(t.verdict.error), Raised, calls + 1, [backoff[0]], backoff[1..], t.state, first))
  {
  }

  /**
   * Only the first failure is recorded: a fresh call ends with the failure
   * of its very first invocation recorded, or none when that succeeded or
   * no delay was available.
   */
  lemma FirstFailureRecorded<R, S>(op: nat -> Attempt<R>, backoff: seq<real>, tester: TesterFn<S>, st: S)
    ensures StartRun(op, backoff, tester, st).failure
         == if backoff != [] && op(0).Failed? then Some(op(0).failure) else None
  {
    if backoff != [] && op(0).Failed? {
      var f := op(0).failure;
      var t := tester(st, f);
      UnfoldFailure(op, 0, backoff, tester, st, None);
      if t.verdict.Ignore? {
        CallKeepsFailure(op, 1, backoff[1..], tester, t.state, f);
      }
    }
  }

  /**
   * When the delays run out the call fails with the recorded failure, which
   * for a fresh call is the failure of the first invocation, not the last.
   */
  lemma {:induction false} ExhaustionReportsRecorded<R, S>(op: nat -> Attempt<R>, calls: nat, backoff: seq<real>,
                                                            tester: TesterFn<S>, st: S, failure: Option<Failure>)
    ensures var r := CallRun(op, calls, backoff, tester, st, failure);
      r.ending == Exhausted ==> r.outcome == Errback(r.failure.GetOr(StopIterationFailure))
    decreases |backoff|
  {
    if backoff != [] && op(calls).Failed? {
      var f := op(calls).failure;
      var first := if failure.None? then Some(f) else failure;
      var t := tester(st, f);
      UnfoldFailure(op, calls, backoff, tester, st, failure);
      if t.verdict.Ignore? {
        ExhaustionReportsRecorded(op, calls + 1, backoff[1..], tester, t.state, first);
      }
    }
  }

  lemma ExhaustionReportsFirstFailure<R, S>(op: nat -> Attempt<R>, backoff: seq<real>, tester: TesterFn<S>, st: S)
    requires backoff != []
    ensures var r := StartRun(op, backoff, tester, st);
      r.ending == Exhausted ==> op(0).Failed? && r.outcome == Errback(op(0).failure)
  {
    ExhaustionReportsRecorded(op, 0, backoff, tester, st, None);
    FirstFailureRecorded(op, backoff, tester, st);
  }

  /**
   * Every invocation draws one delay of the schedule, in order: the delays
   * drawn, followed by the delays left for a later call, are the schedule.
   */
  lemma {:induction false} CallRunDelays<R, S>(op: nat -> Attempt<R>, calls: nat, backoff: seq<real>,
                                                tester: TesterFn<S>, st: S, failure: Option<Failure>)
    ensures var r := CallRun(op, calls, backoff, tester, st, failure);
      r.waited + r.remaining == backoff && |r.waited| == r.calls - calls
    decreases |backoff|
  {
    if backoff != [] && op(calls).Failed? {
      var f := op(calls).failure;
      var first := if failure.None? then Some(f) else failure;
      var t := tester(st, f);
      UnfoldFailure(op, calls, backoff, tester, st, failure);
      if t.verdict.Ignore? {
        var rest := backoff[1..];
        CallRunDelays(op, calls + 1, rest, tester, t.state, first);
        var next := CallRun(op, calls + 1, rest, tester, t.state, first);
        assert [backoff[0]] + next.waited + next.remaining == [backoff[0]] + (next.waited + next.remaining);
        assert [backoff[0]] + rest == backoff;
      }
    } else if backoff != [] {
      assert [backoff[0]] + backoff[1..] == backoff;
    }
  }

  /** Hence a call makes at most one invocation per delay. */
  lemma CallRunBounded<R, S>(op: nat -> Attempt<R>, calls: nat, backoff: seq<real>,
                             tester: TesterFn<S>, st: S, failure: Option<Failure>)
    ensures var r := CallRun(op, calls, backoff, tester, st, failure);
      calls <= r.calls <= calls + |backoff| && r.waited == backoff[..r.calls - calls]
  {
    CallRunDelays(op, calls, backoff, tester, st, failure);
    var r := CallRun(op, calls, backoff, tester, st, failure);
    assert |r.waited + r.remaining| == |backoff|;
    assert (r.waited + r.remaining)[..|r.waited|] == r.waited;
  }

  /**
   * Every invocation except the last one failed, and the last one decides
   * how the call ends: a success is delivered as it is, a tester verdict
   * ends the call after a failure, and exhaustion comes only once every
   * delay has been used.
   */
  lemma {:induction false} CallRunEnding<R, S>(op: nat -> Attempt<R>, calls: nat, backoff: seq<real>,
                                                tester: TesterFn<S>, st: S, failure: Option<Failure>)
    ensures var r := CallRun(op, calls, backoff, tester, st, failure);
      && (forall i :: calls <= i < r.calls - 1 ==> op(i).Failed?)
      && (r.ending == Delivered ==> r.calls > calls && r.outcome.Callback? && op(r.calls - 1) == Succeeded(r.outcome.value))
      && (r.ending == Exhausted ==> r.calls == calls + |backoff| && (r.calls > calls ==> op(r.calls - 1).Failed?))
      && (r.ending == Propagated || r.ending == Raised ==> r.calls > calls && op(r.calls - 1).Failed? && r.outcome.Errback?)
    decreases |backoff|
  {
    if backoff != [] && op(calls).Failed? {
      var f := op(calls).failure;
      var first := if failure.None? then Some(f) else failure;
      var t := tester(st, f);
      UnfoldFailure(op, calls, backoff, tester, st, failure);
      if t.verdict.Ignore? {
        CallRunEnding(op, calls + 1, backoff[1..], tester, t.state, first);
      }
    }
  }

  /**
   * With the default tester, an operation that always fails is invoked once
   * per delay, and the call fails with the first failure.
   */
  lemma {:induction false} IgnoreAllExhausts<R, S>(op: nat -> Attempt<R>, calls: nat, backoff: seq<real>,
                                                    st: S, failure: Option<Failure>)
    requires forall i :: calls <= i < calls + |backoff| ==> op(i).Failed?
    ensures var r := CallRun(op, calls, backoff, IgnoreAll, st, failure);
      && r.calls == calls + |backoff| && r.ending == Exhausted
      && r.outcome == Errback(if failure.Some? then failure.value
                              else if backoff != [] then op(calls).failure
                              else StopIterationFailure)
    decreases |backoff|
  {
    if backoff != [] {
      var f := op(calls).failure;
      IgnoreAllExhausts(op, calls + 1, backoff[1..], st, if failure.None? then Some(f) else failure);
    }
  }

  lemma IgnoreAllInvokedOncePerDelay<R, S>(op: nat -> Attempt<R>, backoff: seq<real>, st: S)
    requires backoff != []
    requires forall i :: op(i).Failed?
    ensures var r := StartRun(op, backoff, IgnoreAll, st);
      r.calls == |backoff| && r.outcome == Errback(op(0).failure)
  {
    IgnoreAllExhausts(op, 0, backoff, st, None);
  }

  /**
   * With the default tester, the first success within the schedule is
   * delivered and no further invocation follows.
   */
  lemma {:induction false} IgnoreAllDeliversFirstSuccess<R, S>(op: nat -> Attempt<R>, calls: nat, backoff: seq<real>,
                                                                st: S, failure: Option<Failure>, j: nat)
    requires j < |backoff|
    requires forall i :: calls <= i < calls + j ==> op(i).Failed?
    requires op(calls + j).Succeeded?
    ensures var r := CallRun(op, calls, backoff, IgnoreAll, st, failure);
      r.outcome == Callback(op(calls + j).value) && r.calls == calls + j + 1 && r.ending == Delivered
    decreases j
  {
    if j > 0 {
      var f := op(calls).failure;
      IgnoreAllDeliversFirstSuccess(op, calls + 1, backoff[1..], st, if failure.None? then Some(f) else failure, j - 1);
    }
  }

  /** A tester that gives up on the first failure leaves exactly one invocation. */
  lemma TesterStopsAtOnce<R, S>(op: nat -> Attempt<R>, backoff: seq<real>, tester: TesterFn<S>, st: S)
    requires backoff != [] && op(0).Failed?
    requires !tester(st, op(0).failure).verdict.Ignore?
    ensures var r := StartRun(op, backoff, tester, st);
      var v := tester(st, op(0).failure).verdict;
      && r.calls == 1
      && r.outcome == Errback(if v.Propagate? then v.failure else v.error)
  {
    UnfoldFailure(op, 0, backoff, tester, st, None);
  }

  // ---------------------------------------------------------------------------
  // Scenarios with the Twitter tester

  /** A 404 on the first invocation, a page on every later one. */
  function NotFoundThenPage(i: nat): Attempt<string>
  {
    if i == 0 then Failed(WebError(404, "first")) else Succeeded("page")
  }

  /** A 404 on every invocation. */
  function AlwaysNotFound(i: nat): Attempt<string>
  {
    Failed(WebError(404, if i == 0 then "first" else "second"))
  }

  /** A 404 followed by a success: the 404 is retried and the page delivered after two invocations. */
  lemma NotFoundThenSuccess(backoff: seq<real>)
    requires |backoff| >= 2
    ensures var r := StartRun(NotFoundThenPage, backoff, TwitterTest, false);
      r.outcome == Callback("page") && r.calls == 2
  {
    assert TwitterTest(false, WebError(404, "first")) == Tested(Ignore, true);
    UnfoldFailure(NotFoundThenPage, 0, backoff, TwitterTest, false, None);
    assert CallRun(NotFoundThenPage, 1, backoff[1..], TwitterTest, true, Some(WebError(404, "first")))
        == Run(Callback("page"), Delivered, 2, [backoff[1]], backoff[2..], true, Some(WebError(404, "first")));
  }

  /** Two 404s: the second one is propagated, after two invocations, and the first stays recorded. */
  lemma NotFoundTwice(backoff: seq<real>)
    requires |backoff| >= 2
    ensures var r := StartRun(AlwaysNotFound, backoff, TwitterTest, false);
      r.outcome == Errback(WebError(404, "second")) && r.calls == 2 && r.failure == Some(WebError(404, "first"))
  {
    var first := WebError(404, "first");
    var second := WebError(404, "second");
    assert TwitterTest(false, first) == Tested(Ignore, true);
    assert TwitterTest(true, second) == Tested(Propagate(second), true);
    UnfoldFailure(AlwaysNotFound, 0, backoff, TwitterTest, false, None);
    UnfoldFailure(AlwaysNotFound, 1, backoff[1..], TwitterTest, true, Some(first));
  }
}
