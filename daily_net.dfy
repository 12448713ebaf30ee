/**
 * The daily network check: aggregate the last day of per-hour traffic rows
 * per interface, delete those per-hour rows, and deliver the aggregate to
 * the success queue. Nothing is saved. The get and delete ceilings are
 * fixed at 3 and 2; any phase that does not succeed aborts the run and
 * nothing is delivered.
 */
module DailyNet {
  import opened Wrappers
  import opened Base
  import opened Retry

  const GetFailed := "failed to get traffic per hour queryset"
  const DeleteFailed := "failed to delete traffic per hour"

  /** What one `queryTrafficPerHour` call did: each phase that ran, the mapped data, and its result. */
  datatype QueryRun = QueryRun(
    get: Exit<seq<TrafficQuerySet>>,
    delete: Option<Exit<()>>,
    data: seq<CheckResult>,
    result: RetryResult<MetricData>)

  datatype Check = Check(base: BaseCheck, retryCount: RetryCount)
  {
    /**
     * `q` is what `queryTrafficPerHour` does with these storage oracles:
     * get, then delete exactly once and only after get succeeded; the data
     * has one result per row in row order, and the result is that data as
     * a per-day traffic metric exactly when both phases succeeded, and
     * otherwise the error of the phase that stopped the run.
     */
    predicate QueryTrafficPerHourDone(
      getO: Oracle<seq<TrafficQuerySet>>, deleteO: Oracle<()>, stamps: nat -> Time, q: QueryRun)
    {
      && q.get == Run(retryCount.maxGetRetries, retryCount.maxRetryTime, GetFailed, getO, 0)
      && (q.delete.Some? <==> q.get.result.Ok?)
      && (q.get.result.Ok? ==>
            && |q.data| == |q.get.result.value|
            && (forall i :: 0 <= i < |q.data| ==> q.data[i] == TrafficResult(q.get.result.value[i], stamps(i)))
            && q.delete.value == Run(retryCount.maxDeleteRetries, retryCount.maxRetryTime, DeleteFailed, deleteO, 0))
      && (q.result.Ok? <==> q.delete.Some? && q.delete.value.result.Ok?)
      && (q.result.Ok? ==> q.result.value == MetricData(NetPerDay, q.data))
      && (!q.result.Ok? ==>
            q.result == if q.delete.Some? then q.delete.value.result.Propagate() else q.get.result.Propagate())
    }

    /** `queryTrafficPerHour`: get, map, delete, each storage call retried. */
    method QueryTrafficPerHour(getO: Oracle<seq<TrafficQuerySet>>, deleteO: Oracle<()>, stamps: nat -> Time)
      returns (q: QueryRun)
      ensures QueryTrafficPerHourDone(getO, deleteO, stamps, q)
    {
      var get := RetryLoop(retryCount.maxGetRetries, retryCount.maxRetryTime, GetFailed, getO);
      if !get.result.Ok? {
        return QueryRun(get, None, [], get.result.Propagate());
      }
      var data := MapTraffic(get.result.value, stamps);
      var metric := MetricData(NetPerDay, data);
      var delete := RetryLoop(retryCount.maxDeleteRetries, retryCount.maxRetryTime, DeleteFailed, deleteO);
      if !delete.result.Ok? {
        return QueryRun(get, Some(delete), data, delete.result.Propagate());
      }
      q := QueryRun(get, Some(delete), data, Ok(metric));
    }

    /**
     * `Execute`: run the query and, when it succeeded and the context is
     * not done, send its metric to the success queue. The failure queue is
     * never touched.
     */
    method Execute(ctxDone: bool, getO: Oracle<seq<TrafficQuerySet>>, deleteO: Oracle<()>, stamps: nat -> Time)
      returns (q: QueryRun)
      requires base.buffer.Valid()
      // the send blocks on a full queue, and it happens only when both phases succeed
      requires !ctxDone && Run(retryCount.maxGetRetries, retryCount.maxRetryTime, GetFailed, getO, 0).result.Ok?
               && Run(retryCount.maxDeleteRetries, retryCount.maxRetryTime, DeleteFailed, deleteO, 0).result.Ok?
               ==> |base.buffer.successQueue| < base.buffer.capacity
      modifies base.buffer
      ensures QueryTrafficPerHourDone(getO, deleteO, stamps, q)
      ensures base.buffer.Valid()
      ensures base.buffer.failureQueue == old(base.buffer.failureQueue)
      ensures base.buffer.successQueue
              == old(base.buffer.successQueue) + if q.result.Ok? && !ctxDone then [q.result.value] else []
    {
      q := QueryTrafficPerHour(getO, deleteO, stamps);
      if !q.result.Ok? {
        return;
      }
      if ctxDone {
        return;
      }
      var buffer := base.GetBuffer();
      buffer.SendSuccess(q.result.value);
    }
  }

  /** `NewCheck`: the base state of the arguments, get and delete ceilings fixed at 3 and 2, no save ceiling. */
  function NewCheck(args: CheckArgs, maxRetryTime: Duration, delay: Duration): (c: Check)
    ensures c.base == NewBaseCheck(args)
    ensures c.retryCount == RetryCount(3, 0, 2, maxRetryTime, delay)
  {
    Check(NewBaseCheck(args), RetryCount(3, 0, 2, maxRetryTime, delay))
  }

  /**
   * A check built by `NewCheck` calls get at most four times and delete at
   * most three times, and a successful run delivers one result per row
   * with the rows' interface names in order.
   */
  lemma QueryTrafficPerHourBounds(
    args: CheckArgs, maxRetryTime: Duration, delay: Duration,
    getO: Oracle<seq<TrafficQuerySet>>, deleteO: Oracle<()>, stamps: nat -> Time, q: QueryRun)
    requires NewCheck(args, maxRetryTime, delay).QueryTrafficPerHourDone(getO, deleteO, stamps, q)
    ensures q.get.calls <= 4
    ensures q.delete.Some? ==> q.delete.value.calls <= 3
    ensures q.result.Ok? ==>
              && q.result.value.checkType == NetPerDay
              && |q.result.value.data| == |q.get.result.value|
              && forall i :: 0 <= i < |q.data| ==> q.result.value.data[i].name == q.get.result.value[i].name
  {
  }
}
