/**
 * The retry loop the storage layer wraps around every database call
 * (`retry2` with its `retryPolicy`).  A call whose error is a connection
 * exception is repeated after a timer; each timer is longer than the one
 * before by a fixed increment; the caller's context may cut any wait short.
 *
 * The database call is `op`: `op(k)` is what the call made `k`-th returns
 * (the first call is `op(0)`).  Whether an error is a connection exception is
 * `transient`.  Which way the `select` on the `k`-th wait goes is
 * `cancelled(k)`: true when the context's done channel is chosen, false when
 * the timer fires.
 */
module Storage {
  import opened Wrappers

  /** How many times to retry, the first wait in seconds, and how much longer each further wait is. */
  datatype RetryPolicy = RetryPolicy(retryCount: int, duration: int, increment: int)

  /** The policy every storage instance is built with. */
  const DefaultPolicy := RetryPolicy(3, 1, 2)

  /** Go's `(T, error)` pair returned by one database call. */
  datatype Attempt<T, E> = Attempt(value: T, err: Option<E>)

  /** The call failed with an error worth retrying. */
  predicate Retryable<T, E>(a: Attempt<T, E>, transient: E -> bool) {
    a.err.Some? && transient(a.err.value)
  }

  /** The number of retries a policy allows: a zero or negative count allows none. */
  function MaxRetries(p: RetryPolicy): nat {
    if p.retryCount < 0 then 0 else p.retryCount
  }

  /** The first `n` timer durations of a policy. */
  function Schedule(p: RetryPolicy, n: nat): seq<int> {
    seq(n, k => p.duration + k * p.increment)
  }

  /**
   * `retry2` as written.  Besides the pair the Go function returns, the model
   * returns how many calls it made and the durations of the timers it
   * started, in order.
   *
   * A first result that is a success or a non-transient error is returned at
   * once.  Otherwise each retry waits on the next timer of the schedule; only
   * calls that failed transiently are retried; the loop stops on a cancelled
   * wait, on a result that is not a transient error, or when the policy's
   * retries are used up, and returns the result of the last retry.  When no
   * retry was made, the pair returned is the zero value with no error.
   */
  method Retry<T, E>(p: RetryPolicy, op: nat -> Attempt<T, E>, transient: E -> bool,
                     cancelled: nat -> bool, zero: T)
    returns (value: T, err: Option<E>, calls: nat, waits: seq<int>)
    ensures 1 <= calls <= MaxRetries(p) + 1
    ensures !Retryable(op(0), transient) ==>
      calls == 1 && waits == [] && value == op(0).value && err == op(0).err
    ensures waits == Schedule(p, |waits|) && |waits| <= MaxRetries(p)
    ensures |waits| == calls - 1 || (|waits| == calls && cancelled(calls - 1))
    ensures forall k :: 0 <= k < calls - 1 ==> !cancelled(k) && Retryable(op(k), transient)
    ensures forall k :: 0 <= k < |waits| ==> Retryable(op(k), transient)
    ensures Retryable(op(0), transient) ==>
      (|waits| == calls && cancelled(calls - 1)) || !Retryable(op(calls - 1), transient) || |waits| == MaxRetries(p)
    ensures Retryable(op(0), transient) && calls == 1 ==> value == zero && err == None
    ensures calls > 1 ==> value == op(calls - 1).value && err == op(calls - 1).err
  {
    var first := op(0);
    calls, waits := 1, [];
    if !Retryable(first, transient) {
      value, err := first.value, first.err;
      return;
    }
    value, err := zero, None;
    var duration := p.duration;
    var i := 0;
    while i < p.retryCount
      invariant 0 <= i == |waits| == calls - 1 <= MaxRetries(p)
      invariant duration == p.duration + i * p.increment
      invariant waits == Schedule(p, i)
      invariant forall k :: 0 <= k < calls ==> Retryable(op(k), transient)
      invariant forall k :: 0 <= k < i ==> !cancelled(k)
      invariant calls == 1 ==> value == zero && err == None
      invariant calls > 1 ==> value == op(calls - 1).value && err == op(calls - 1).err
    {
      assert Schedule(p, i) + [duration] == Schedule(p, i + 1);
      waits := waits + [duration];
      if cancelled(i) {
        return;
      }
      var a := op(calls);
      calls := calls + 1;
      value, err := a.value, a.err;
      if !Retryable(a, transient) {
        return;
      }
      duration := duration + p.increment;
      i := i + 1;
    }
  }

  /**
   * `retry2` as evidently intended: the same loop, but when no retry was
   * made the first call's result is returned, so a transient error is never
   * reported as a success.  Whatever the policy and the context, the pair
   * returned is the result of the last call made.
   */
  method RetryKeepingLastResult<T, E>(p: RetryPolicy, op: nat -> Attempt<T, E>, transient: E -> bool,
                                      cancelled: nat -> bool, zero: T)
    returns (value: T, err: Option<E>, calls: nat, waits: seq<int>)
    ensures 1 <= calls <= MaxRetries(p) + 1
    ensures value == op(calls - 1).value && err == op(calls - 1).err
    ensures err.None? ==> op(calls - 1).err.None?
    ensures waits == Schedule(p, |waits|) && |waits| <= MaxRetries(p)
    ensures |waits| == calls - 1 || (|waits| == calls && cancelled(calls - 1))
    ensures forall k :: 0 <= k < calls - 1 ==> !cancelled(k) && Retryable(op(k), transient)
    ensures forall k :: 0 <= k < |waits| ==> Retryable(op(k), transient)
    ensures Retryable(op(0), transient) ==>
      (|waits| == calls && cancelled(calls - 1)) || !Retryable(op(calls - 1), transient) || |waits| == MaxRetries(p)
  {
    value, err, calls, waits := Retry(p, op, transient, cancelled, zero);
    if calls == 1 {
      value, err := op(0).value, op(0).err;
    }
  }

  /**
   * The discrepancy: when the context is done before the first timer fires
   * (or the policy allows no retries), a call that failed with a connection
   * exception is reported by `Retry` as a success carrying the zero value,
   * while the corrected loop reports the error.
   */
  method CancelledBeforeFirstRetry<T, E>(p: RetryPolicy, op: nat -> Attempt<T, E>, transient: E -> bool, zero: T)
    returns (err: Option<E>, correctedErr: Option<E>)
    requires Retryable(op(0), transient)
    ensures err == None
    ensures correctedErr == op(0).err && correctedErr.Some?
  {
    var v, c, w;
    v, err, c, w := Retry(p, op, transient, k => true, zero);
    v, correctedErr, c, w := RetryKeepingLastResult(p, op, transient, k => true, zero);
  }

  /**
   * With the default policy, a call that fails transiently three times and
   * then succeeds is retried three times, after waits of 1, 3 and 5 seconds,
   * and its success is returned.
   */
  method DefaultPolicyRecovers<T, E>(op: nat -> Attempt<T, E>, transient: E -> bool, zero: T)
    returns (value: T, err: Option<E>, calls: nat, waits: seq<int>)
    requires forall k :: 0 <= k < 3 ==> Retryable(op(k), transient)
    requires op(3).err.None?
    ensures calls == 4 && waits == [1, 3, 5]
    ensures value == op(3).value && err.None?
  {
    value, err, calls, waits := Retry(DefaultPolicy, op, transient, k => false, zero);
    assert Retryable(op(0), transient) && Retryable(op(1), transient) && Retryable(op(2), transient);
    assert Schedule(DefaultPolicy, 3) == [1, 3, 5];
  }

  /**
   * With the default policy, a call that keeps failing transiently is made
   * four times in all, and the fourth error is returned.
   */
  method DefaultPolicyGivesUp<T, E>(op: nat -> Attempt<T, E>, transient: E -> bool, zero: T)
    returns (value: T, err: Option<E>, calls: nat, waits: seq<int>)
    requires forall k :: 0 <= k < 4 ==> Retryable(op(k), transient)
    ensures calls == 4 && waits == [1, 3, 5]
    ensures err == op(3).err && err.Some?
  {
    value, err, calls, waits := Retry(DefaultPolicy, op, transient, k => false, zero);
    assert Retryable(op(0), transient) && Retryable(op(1), transient) && Retryable(op(2), transient);
    assert Schedule(DefaultPolicy, 3) == [1, 3, 5];
  }
}
