/**
 * The accrual agent: on every tick it lists the orders not yet processed,
 * and for each one submits a job that fetches the order from the accrual
 * service and writes it back to the store.  Jobs are run by workers that
 * only log a failing job and go on with the next one.
 *
 * The store's listing, the service's `GetOrder` and the store's
 * `UpdateOrder` are the abstract `Services`; the model records the calls
 * made to them, in order.  The worker pool runs sequentially: every job
 * submitted in a batch runs, in submission order, before the next tick.
 */
module Agent {
  import opened Wrappers
  import opened Orders

  /** A call to the outside made by a job: fetching an order from the accrual service, or updating it in the store. */
  datatype Call<N> = GetOrder(number: N) | UpdateOrder(order: OrderData)

  /** The accrual service's `GetOrder` and the store's `UpdateOrder`, with their errors of type `E`. */
  datatype Services<!N, E> = Services(getOrder: N -> Result<OrderData, E>, updateOrder: OrderData -> Option<E>)

  /** What `GetNotProcessedOrders` returned: the order numbers, `pgx.ErrNoRows`, or another error. */
  datatype Listing<N, E> = Orders(numbers: seq<N>) | NoRows | ListFailed(cause: E)

  /** The error of a batch whose listing failed ("get orders: ..."). */
  datatype AgentError<E> = GetOrdersFailed(cause: E)

  /** The error a job returned and the calls it made. */
  datatype JobRun<N, E> = JobRun(err: Option<E>, calls: seq<Call<N>>)

  /**
   * The job submitted for one order number: fetch the order; on a fetch
   * error, return it without updating; otherwise update the store with
   * exactly the order fetched and return the update's error, if any.
   */
  function RunJob<N, E>(s: Services<N, E>, number: N): (j: JobRun<N, E>)
    ensures 1 <= |j.calls| <= 2 && j.calls[0] == GetOrder(number)
    ensures forall i :: 0 <= i < |j.calls| && j.calls[i].UpdateOrder? ==>
      i == 1 && s.getOrder(number) == Success(j.calls[i].order)
    ensures s.getOrder(number).Failure? ==> j.err == Some(s.getOrder(number).error) && |j.calls| == 1
    ensures s.getOrder(number).Success? ==>
      |j.calls| == 2 && j.err == s.updateOrder(s.getOrder(number).value)
    ensures j.err.None? <==> s.getOrder(number).Success? && s.updateOrder(s.getOrder(number).value).None?
  {
    match s.getOrder(number)
    case Failure(e) => JobRun(Some(e), [GetOrder(number)])
    case Success(o) => JobRun(s.updateOrder(o), [GetOrder(number), UpdateOrder(o)])
  }

  /** The calls made by the jobs for `numbers`, run one after the other. */
  function BatchCalls<N, E>(s: Services<N, E>, numbers: seq<N>): seq<Call<N>>
    decreases |numbers|
  {
    if numbers == [] then []
    else BatchCalls(s, numbers[..|numbers| - 1]) + RunJob(s, numbers[|numbers| - 1]).calls
  }

  /** The errors the workers log for the jobs for `numbers`, in order. */
  function Logged<N, E>(s: Services<N, E>, numbers: seq<N>): seq<E>
    decreases |numbers|
  {
    if numbers == [] then []
    else
      var j := RunJob(s, numbers[|numbers| - 1]);
      Logged(s, numbers[..|numbers| - 1]) + (if j.err.Some? then [j.err.value] else [])
  }

  /** The order numbers fetched, in the order of the calls. */
  function Fetched<N>(calls: seq<Call<N>>): seq<N>
    decreases |calls|
  {
    if calls == [] then []
    else Fetched(calls[..|calls| - 1]) + (if calls[|calls| - 1].GetOrder? then [calls[|calls| - 1].number] else [])
  }

  lemma {:induction false} FetchedAppend<N>(a: seq<Call<N>>, b: seq<Call<N>>)
    ensures Fetched(a + b) == Fetched(a) + Fetched(b)
    decreases |b|
  {
    if b == [] {
      assert a + b == a;
    } else {
      var b' := b[..|b| - 1];
      assert (a + b)[..|a + b| - 1] == a + b';
      assert (a + b)[|a + b| - 1] == b[|b| - 1];
      FetchedAppend(a, b');
    }
  }

  /**
   * Every listed order is fetched exactly once, in list order, whatever the
   * earlier jobs returned: one failing job never stops the others.
   */
  lemma {:induction false} EveryJobRuns<N, E>(s: Services<N, E>, numbers: seq<N>)
    ensures Fetched(BatchCalls(s, numbers)) == numbers
    decreases |numbers|
  {
    if numbers != [] {
      var init := numbers[..|numbers| - 1];
      var last := numbers[|numbers| - 1];
      EveryJobRuns(s, init);
      FetchedAppend(BatchCalls(s, init), RunJob(s, last).calls);
      var c := RunJob(s, last).calls;
      assert c[..1][..0] == [];
      assert Fetched(c[..1]) == [last];
      if |c| == 2 {
        assert c[..|c| - 1] == c[..1];
      }
      assert Fetched(c) == [last];
      assert numbers == init + [last];
    }
  }

  /** An update is only ever made with the order that the call just before it fetched. */
  predicate UpdatesFollowFetches<N, E>(s: Services<N, E>, calls: seq<Call<N>>) {
    forall i :: 0 <= i < |calls| && calls[i].UpdateOrder? ==>
      0 < i && calls[i - 1].GetOrder? && s.getOrder(calls[i - 1].number) == Success(calls[i].order)
  }

  lemma {:induction false} UpdatesFollowFetchesInBatch<N, E>(s: Services<N, E>, numbers: seq<N>)
    ensures UpdatesFollowFetches(s, BatchCalls(s, numbers))
    decreases |numbers|
  {
    if numbers != [] {
      var init := numbers[..|numbers| - 1];
      var prefix := BatchCalls(s, init);
      var job := RunJob(s, numbers[|numbers| - 1]).calls;
      UpdatesFollowFetchesInBatch(s, init);
      var all := prefix + job;
      forall i | 0 <= i < |all| && all[i].UpdateOrder?
        ensures 0 < i && all[i - 1].GetOrder? && s.getOrder(all[i - 1].number) == Success(all[i].order)
      {
        if i >= |prefix| {
          assert job[i - |prefix|].UpdateOrder?;
          assert all[i - 1] == job[0];
        } else {
          assert all[i] == prefix[i] && all[i - 1] == prefix[i - 1];
        }
      }
    }
  }

  /** The workers log nothing exactly when every job succeeds. */
  lemma {:induction false} NothingLoggedIffAllSucceed<N, E>(s: Services<N, E>, numbers: seq<N>)
    ensures Logged(s, numbers) == [] <==> forall i :: 0 <= i < |numbers| ==> RunJob(s, numbers[i]).err.None?
    ensures |Logged(s, numbers)| <= |numbers|
    decreases |numbers|
  {
    if numbers != [] {
      var init := numbers[..|numbers| - 1];
      NothingLoggedIffAllSucceed(s, init);
      assert forall i :: 0 <= i < |init| ==> init[i] == numbers[i];
    }
  }

  /**
   * `worker`: runs every job it receives, in order, and when a job fails it
   * logs the error and goes on with the next.
   */
  method Worker<N, E>(s: Services<N, E>, jobs: seq<N>) returns (calls: seq<Call<N>>, logged: seq<E>)
    ensures calls == BatchCalls(s, jobs) && logged == Logged(s, jobs)
  {
    calls, logged := [], [];
    for i := 0 to |jobs|
      invariant calls == BatchCalls(s, jobs[..i]) && logged == Logged(s, jobs[..i])
    {
      assert jobs[..i + 1][..i] == jobs[..i];
      var job := RunJob(s, jobs[i]);
      calls := calls + job.calls;
      if job.err.Some? {
        logged := logged + [job.err.value];
      }
    }
    assert jobs[..|jobs|] == jobs;
  }

  /**
   * `processingOrders`: a listing of no rows is a success with no job; any
   * other listing error is returned, wrapped, with no job; otherwise one job
   * per listed number is submitted, in list order, the workers run them,
   * and the batch succeeds whatever the jobs return.
   */
  method ProcessingOrders<N, E>(listing: Listing<N, E>, s: Services<N, E>)
    returns (err: Option<AgentError<E>>, submitted: seq<N>, calls: seq<Call<N>>, logged: seq<E>)
    ensures listing.NoRows? ==> err == None && submitted == []
    ensures listing.ListFailed? ==> err == Some(GetOrdersFailed(listing.cause)) && submitted == []
    ensures listing.Orders? ==> err == None && submitted == listing.numbers
    ensures calls == BatchCalls(s, submitted) && logged == Logged(s, submitted)
  {
    if listing.NoRows? {
      return None, [], [], [];
    }
    if listing.ListFailed? {
      return Some(GetOrdersFailed(listing.cause)), [], [], [];
    }
    submitted := [];
    for i := 0 to |listing.numbers|
      invariant submitted == listing.numbers[..i]
    {
      submitted := submitted + [listing.numbers[i]];
    }
    assert submitted == listing.numbers;
    calls, logged := Worker(s, submitted);
    err := None;
  }

  /** What the agent's loop sees next: the interval timer firing, with the listing the store then returns, or the context being done. */
  datatype Event<N, E> = Tick(listing: Listing<N, E>) | Done

  /** Where `Run` stands at the end of a schedule: still looping, or returned with its error. */
  datatype RunState<E> = Waiting | Returned(err: Option<AgentError<E>>)

  /** The numbers a listing hands to the batch. */
  function Listed<N, E>(l: Listing<N, E>): seq<N> {
    if l.Orders? then l.numbers else []
  }

  /** The calls made by the batches of `ticks`, in order. */
  function RunCalls<N, E>(s: Services<N, E>, ticks: seq<Event<N, E>>): seq<Call<N>>
    decreases |ticks|
  {
    if ticks == [] then []
    else
      var last := ticks[|ticks| - 1];
      RunCalls(s, ticks[..|ticks| - 1]) + (if last.Tick? then BatchCalls(s, Listed(last.listing)) else [])
  }

  /**
   * `Run`, over a finite schedule of events.  Each tick runs one batch; the
   * loop returns nil when the context is done, returns the batch's error when
   * a listing fails, and otherwise goes on waiting.  `batches` is the number
   * of batches run.
   */
  method Run<N, E>(events: seq<Event<N, E>>, s: Services<N, E>)
    returns (state: RunState<E>, batches: nat, calls: seq<Call<N>>)
    ensures batches <= |events|
    ensures forall k :: 0 <= k < batches ==> events[k].Tick?
    ensures calls == RunCalls(s, events[..batches])
    ensures state == Waiting ==>
      batches == |events| && forall k :: 0 <= k < |events| ==> !events[k].listing.ListFailed?
    ensures state == Returned(None) ==>
      batches < |events| && events[batches].Done? && forall k :: 0 <= k < batches ==> !events[k].listing.ListFailed?
    ensures state.Returned? && state.err.Some? ==>
      0 < batches && events[batches - 1].listing.ListFailed?
      && state.err == Some(GetOrdersFailed(events[batches - 1].listing.cause))
      && forall k :: 0 <= k < batches - 1 ==> !events[k].listing.ListFailed?
  {
    batches, calls := 0, [];
    while batches < |events|
      invariant batches <= |events|
      invariant forall k :: 0 <= k < batches ==> events[k].Tick? && !events[k].listing.ListFailed?
      invariant calls == RunCalls(s, events[..batches])
    {
      assert events[..batches + 1][..batches] == events[..batches];
      match events[batches]
      case Done =>
        return Returned(None), batches, calls;
      case Tick(listing) =>
        var err, submitted, batchCalls, logged := ProcessingOrders(listing, s);
        assert submitted == Listed(listing);
        calls := calls + batchCalls;
        batches := batches + 1;
        if err.Some? {
          return Returned(err), batches, calls;
        }
    }
    state := Waiting;
  }
}
