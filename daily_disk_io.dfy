/**
 * The daily disk-I/O check: aggregate the last day of per-hour disk-I/O rows
 * per device with a single, unretried get; build one result per row and,
 * inside that same loop, issue one delete of the per-hour window per row,
 * remembering any delete error; then, unless the context is done, send the
 * metric to the failure queue if the get or a delete failed and to the
 * success queue otherwise.
 */
module DailyDiskIO {
  import opened Wrappers
  import opened Base

  /** True when no field of a disk-I/O result other than its timestamp, device and four byte counters is set. */
  predicate DiskIOOnly(r: CheckResult) {
    r.(device := "", peakWriteBytes := 0.0, peakReadBytes := 0.0, avgWriteBytes := 0.0, avgReadBytes := 0.0)
    == Blank(r.timestamp)
  }

  /** The disk-I/O row a disk-I/O result carries. */
  function IORowOf(r: CheckResult): DiskIOQuerySet {
    DiskIOQuerySet(r.device, r.peakReadBytes, r.peakWriteBytes, r.avgReadBytes, r.avgWriteBytes)
  }

  /** The result built from one aggregated row, stamped `ts`: it carries exactly the row and nothing else. */
  function IOResult(row: DiskIOQuerySet, ts: Time): (r: CheckResult)
    ensures IORowOf(r) == row && r.timestamp == ts
    ensures DiskIOOnly(r)
  {
    Blank(ts).(device := row.device,
               peakWriteBytes := row.peakWriteBytes, peakReadBytes := row.peakReadBytes,
               avgWriteBytes := row.avgWriteBytes, avgReadBytes := row.avgReadBytes)
  }

  /**
   * `c` is what the check holds before routing, given the outcome of its
   * get and of each delete call: on a get error an empty per-day disk-I/O
   * metric, the get error recorded and no delete issued; otherwise one
   * result per row in row order, one delete per row, and the delete error
   * of the last failing delete, if any.
   */
  predicate CollectDone(
    get: Result<seq<DiskIOQuerySet>, Error>, deleteO: nat -> Option<Error>, stamps: nat -> Time, c: Collection)
  {
    && c.metric.checkType == DiskIoPerDay
    && c.checkError.collectError.None? && c.checkError.saveQueryError.None?
    && (get.Failure? ==>
          && c.metric.data == [] && c.deletes == 0
          && c.checkError.getQueryError == Some(get.error) && c.checkError.deleteQueryError.None?)
    && (get.Success? ==>
          && |c.metric.data| == |get.value| && c.deletes == |get.value|
          && (forall i :: 0 <= i < |get.value| ==> c.metric.data[i] == IOResult(get.value[i], stamps(i)))
          && c.checkError.getQueryError.None?
          && c.checkError.deleteQueryError == StickyError(deleteO, |get.value|))
  }

  datatype Check = Check(base: BaseCheck)
  {
    /** The part of `Execute` before the context test: the get, then the mapping loop with its per-row delete. */
    method Collect(get: Result<seq<DiskIOQuerySet>, Error>, deleteO: nat -> Option<Error>, stamps: nat -> Time)
      returns (c: Collection)
      ensures CollectDone(get, deleteO, stamps, c)
    {
      var checkError := NoError;
      if get.Failure? {
        checkError := checkError.(getQueryError := Some(get.error));
      }
      var metric := MetricData(DiskIoPerDay, []);
      var deletes: nat := 0;
      if checkError.getQueryError.None? {
        var rows := get.value;
        for i := 0 to |rows|
          invariant deletes == i
          invariant metric.checkType == DiskIoPerDay && |metric.data| == i
          invariant forall j :: 0 <= j < i ==> metric.data[j] == IOResult(rows[j], stamps(j))
          invariant checkError == NoError.(deleteQueryError := StickyError(deleteO, i))
        {
          var data := IOResult(rows[i], stamps(i));
          metric := metric.(data := metric.data + [data]);
          var err := deleteO(deletes);
          deletes := deletes + 1;
          if err.Some? {
            checkError := checkError.(deleteQueryError := err);
          }
        }
      }
      c := Collection(metric, checkError, deletes);
    }

    /**
     * `Execute`: collect, then, unless the context is done, send the metric
     * to exactly one queue, chosen by the error record.
     */
    method Execute(
      ctxDone: bool, get: Result<seq<DiskIOQuerySet>, Error>, deleteO: nat -> Option<Error>, stamps: nat -> Time)
      returns (c: Collection)
      requires base.buffer.Valid()
      // a send blocks on a full queue; only the routed queue needs room
      requires !ctxDone && (get.Failure? || exists i :: 0 <= i < |get.value| && deleteO(i).Some?)
               ==> |base.buffer.failureQueue| < base.buffer.capacity
      requires !ctxDone && !(get.Failure? || exists i :: 0 <= i < |get.value| && deleteO(i).Some?)
               ==> |base.buffer.successQueue| < base.buffer.capacity
      modifies base.buffer
      ensures CollectDone(get, deleteO, stamps, c)
      ensures base.buffer.Valid()
      ensures base.buffer.failureQueue
              == old(base.buffer.failureQueue) + if !ctxDone && c.checkError.Failed() then [c.metric] else []
      ensures base.buffer.successQueue
              == old(base.buffer.successQueue) + if !ctxDone && !c.checkError.Failed() then [c.metric] else []
    {
      c := Collect(get, deleteO, stamps);
      RoutedToFailure(get, deleteO, stamps, c);
      if ctxDone {
        return;
      }
      var buffer := base.GetBuffer();
      if c.checkError.getQueryError.Some? || c.checkError.deleteQueryError.Some? {
        buffer.SendFailure(c.metric);
      } else {
        buffer.SendSuccess(c.metric);
      }
    }
  }

  /** `NewCheck`: only the base state; this check has no retry configuration. */
  function NewCheck(args: CheckArgs): (c: Check)
    ensures c.base == NewBaseCheck(args)
  {
    Check(NewBaseCheck(args))
  }

  /** The metric goes to the failure queue exactly when the get failed or some per-row delete failed. */
  lemma {:induction false} RoutedToFailure(
    get: Result<seq<DiskIOQuerySet>, Error>, deleteO: nat -> Option<Error>, stamps: nat -> Time, c: Collection)
    requires CollectDone(get, deleteO, stamps, c)
    ensures c.checkError.Failed() <==>
              get.Failure? || exists i :: 0 <= i < |get.value| && deleteO(i).Some?
  {
    if get.Success? {
      StickyErrorNone(deleteO, |get.value|);
    }
  }

  /** An empty window is a success: an empty metric, no delete issued, no error recorded. */
  lemma EmptyWindow(deleteO: nat -> Option<Error>, stamps: nat -> Time, c: Collection)
    requires CollectDone(Success([]), deleteO, stamps, c)
    ensures c.metric == MetricData(DiskIoPerDay, []) && c.deletes == 0 && !c.checkError.Failed()
  {
  }
}
