/**
 * The hourly network check: aggregate the last hour of raw traffic rows per
 * interface, save the aggregate as a per-hour rollup, delete the raw rows,
 * and deliver the aggregate to the success queue. Each storage call is
 * wrapped in the retry loop; any phase that does not succeed aborts the
 * whole run and nothing is delivered.
 */
module HourlyNet {
  import opened Wrappers
  import opened Base
  import opened Retry

  const GetFailed := "failed to get traffic queryset"
  const SaveFailed := "failed to save traffic per hour"
  const DeleteFailed := "failed to delete traffic"

  /** What one `queryTraffic` call did: each phase that ran, the data it saved, and its result. */
  datatype QueryRun = QueryRun(
    get: Exit<seq<TrafficQuerySet>>,
    save: Option<Exit<()>>,
    delete: Option<Exit<()>>,
    saved: seq<CheckResult>,
    result: RetryResult<MetricData>)

  datatype Check = Check(base: BaseCheck, retryCount: RetryCount)
  {
    /**
     * `q` is what `queryTraffic` does with these storage oracles: get, then
     * save only after get succeeded, then delete only after save succeeded;
     * the saved data has one result per row in row order, and the result is
     * that data as a per-hour traffic metric exactly when all three phases
     * succeeded, and otherwise the error of the phase that stopped the run.
     */
    predicate QueryTrafficDone(
      getO: Oracle<seq<TrafficQuerySet>>, saveO: Oracle<()>, deleteO: Oracle<()>,
      stamps: nat -> Time, q: QueryRun)
    {
      && q.get == Run(retryCount.maxGetRetries, retryCount.maxRetryTime, GetFailed, getO, 0)
      && (q.save.Some? <==> q.get.result.Ok?)
      && (q.get.result.Ok? ==>
            && |q.saved| == |q.get.result.value|
            && (forall i :: 0 <= i < |q.saved| ==> q.saved[i] == TrafficResult(q.get.result.value[i], stamps(i)))
            && q.save.value == Run(retryCount.maxSaveRetries, retryCount.maxRetryTime, SaveFailed, saveO, 0))
      && (q.delete.Some? <==> q.save.Some? && q.save.value.result.Ok?)
      && (q.delete.Some? ==>
            q.delete.value == Run(retryCount.maxDeleteRetries, retryCount.maxRetryTime, DeleteFailed, deleteO, 0))
      && (q.result.Ok? <==> q.delete.Some? && q.delete.value.result.Ok?)
      && (q.result.Ok? ==> q.result.value == MetricData(NetPerHour, q.saved))
      && (!q.result.Ok? ==>
            q.result == if q.delete.Some? then q.delete.value.result.Propagate()
                        else if q.save.Some? then q.save.value.result.Propagate()
                        else q.get.result.Propagate())
    }

    /** `queryTraffic`: get, map, save, delete, each storage call retried. */
    method QueryTraffic(
      getO: Oracle<seq<TrafficQuerySet>>, saveO: Oracle<()>, deleteO: Oracle<()>, stamps: nat -> Time)
      returns (q: QueryRun)
      ensures QueryTrafficDone(getO, saveO, deleteO, stamps, q)
    {
      var get := RetryLoop(retryCount.maxGetRetries, retryCount.maxRetryTime, GetFailed, getO);
      if !get.result.Ok? {
        return QueryRun(get, None, None, [], get.result.Propagate());
      }
      var data := MapTraffic(get.result.value, stamps);
      var metric := MetricData(NetPerHour, data);
      var save := RetryLoop(retryCount.maxSaveRetries, retryCount.maxRetryTime, SaveFailed, saveO);
      if !save.result.Ok? {
        return QueryRun(get, Some(save), None, data, save.result.Propagate());
      }
      var delete := RetryLoop(retryCount.maxDeleteRetries, retryCount.maxRetryTime, DeleteFailed, deleteO);
      if !delete.result.Ok? {
        return QueryRun(get, Some(save), Some(delete), data, delete.result.Propagate());
      }
      q := QueryRun(get, Some(save), Some(delete), data, Ok(metric));
    }

    /**
     * `Execute`: run the query and, when it succeeded and the context is
     * not done, send its metric to the success queue. The failure queue is
     * never touched.
     */
    method Execute(
      ctxDone: bool,
      getO: Oracle<seq<TrafficQuerySet>>, saveO: Oracle<()>, deleteO: Oracle<()>, stamps: nat -> Time)
      returns (q: QueryRun)
      requires base.buffer.Valid()
      // the send blocks on a full queue, and it happens only when all three phases succeed
      requires !ctxDone && Run(retryCount.maxGetRetries, retryCount.maxRetryTime, GetFailed, getO, 0).result.Ok?
               && Run(retryCount.maxSaveRetries, retryCount.maxRetryTime, SaveFailed, saveO, 0).result.Ok?
               && Run(retryCount.maxDeleteRetries, retryCount.maxRetryTime, DeleteFailed, deleteO, 0).result.Ok?
               ==> |base.buffer.successQueue| < base.buffer.capacity
      modifies base.buffer
      ensures QueryTrafficDone(getO, saveO, deleteO, stamps, q)
      ensures base.buffer.Valid()
      ensures base.buffer.failureQueue == old(base.buffer.failureQueue)
      ensures base.buffer.successQueue
              == old(base.buffer.successQueue) + if q.result.Ok? && !ctxDone then [q.result.value] else []
    {
      q := QueryTraffic(getO, saveO, deleteO, stamps);
      if !q.result.Ok? {
        return;
      }
      if ctxDone {
        return;
      }
      var buffer := base.GetBuffer();
      buffer.SendSuccess(q.result.value);
    }
  }

  /** `NewCheck`: the base state of the arguments and the given retry configuration. */
  function NewCheck(args: CheckArgs, limits: RetryCount): (c: Check)
    ensures c.base == NewBaseCheck(args) && c.retryCount == limits
  {
    Check(NewBaseCheck(args), limits)
  }

  /**
   * Every phase of a query makes at most its ceiling plus one storage calls,
   * and a successful query saved and delivered the same data: one result
   * per row, carrying that row's interface name.
   */
  lemma QueryTrafficBounds(
    c: Check, getO: Oracle<seq<TrafficQuerySet>>, saveO: Oracle<()>, deleteO: Oracle<()>,
    stamps: nat -> Time, q: QueryRun)
    requires c.QueryTrafficDone(getO, saveO, deleteO, stamps, q)
    ensures q.get.calls <= if c.retryCount.maxGetRetries < 0 then 0 else c.retryCount.maxGetRetries + 1
    ensures q.save.Some? ==>
              q.save.value.calls <= if c.retryCount.maxSaveRetries < 0 then 0 else c.retryCount.maxSaveRetries + 1
    ensures q.delete.Some? ==>
              q.delete.value.calls <= if c.retryCount.maxDeleteRetries < 0 then 0 else c.retryCount.maxDeleteRetries + 1
    ensures q.result.Ok? ==>
              && q.result.value.checkType == NetPerHour
              && q.result.value.data == q.saved
              && |q.saved| == |q.get.result.value|
              && forall i :: 0 <= i < |q.saved| ==> q.saved[i].name == q.get.result.value[i].name
  {
  }
}
