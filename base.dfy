/**
 * The shared data model of the metric checks: the check-type tags, the wide
 * result record, the metric that crosses the buffer, the two bounded delivery
 * queues, and the state every concrete check embeds.
 */
module Base {
  import opened Wrappers

  /** An instant read from the clock (opaque: only copied, never computed on). */
  type Time = int

  /** A duration such as a run interval or a retry deadline. */
  type Duration = int

  /**
   * A measured value. The source stores these as float64 or uint64; the
   * checks only copy them from a query row into a result, so one opaque
   * numeric type stands for both.
   */
  type Num = real

  /** A Go `error` value returned by a storage call. */
  datatype Error = Error(message: string)

  /** The metric family and aggregation tier a metric belongs to. */
  datatype CheckType =
    | Cpu | CpuPerHour | CpuPerDay
    | Mem | MemPerHour | MemPerDay
    | DiskUsage | DiskUsagePerHour | DiskUsagePerDay
    | DiskIo | DiskIoPerHour | DiskIoPerDay
    | Net | NetPerHour | NetPerDay
    | Cleanup
  {
    /** The string each tag stands for on the wire. */
    function Name(): string {
      match this
      case Cpu => "cpu"
      case CpuPerHour => "cpu_per_hour"
      case CpuPerDay => "cpu_per_day"
      case Mem => "memory"
      case MemPerHour => "memory_per_hour"
      case MemPerDay => "memory_per_day"
      case DiskUsage => "disk_usage"
      case DiskUsagePerHour => "disk_usage_per_hour"
      case DiskUsagePerDay => "disk_usage_per_day"
      case DiskIo => "disk_io"
      case DiskIoPerHour => "disk_io_per_hour"
      case DiskIoPerDay => "disk_io_per_day"
      case Net => "net"
      case NetPerHour => "net_per_hour"
      case NetPerDay => "net_per_day"
      case Cleanup => "cleanup"
    }
  }

  /** The tag a wire string denotes, if any: the reading direction of `Name`. */
  function ParseCheckType(s: string): Option<CheckType> {
    if s == "cpu" then Some(Cpu)
    else if s == "cpu_per_hour" then Some(CpuPerHour)
    else if s == "cpu_per_day" then Some(CpuPerDay)
    else if s == "memory" then Some(Mem)
    else if s == "memory_per_hour" then Some(MemPerHour)
    else if s == "memory_per_day" then Some(MemPerDay)
    else if s == "disk_usage" then Some(DiskUsage)
    else if s == "disk_usage_per_hour" then Some(DiskUsagePerHour)
    else if s == "disk_usage_per_day" then Some(DiskUsagePerDay)
    else if s == "disk_io" then Some(DiskIo)
    else if s == "disk_io_per_hour" then Some(DiskIoPerHour)
    else if s == "disk_io_per_day" then Some(DiskIoPerDay)
    else if s == "net" then Some(Net)
    else if s == "net_per_hour" then Some(NetPerHour)
    else if s == "net_per_day" then Some(NetPerDay)
    else if s == "cleanup" then Some(Cleanup)
    else None
  }

  /** Every tag's wire string reads back as that tag. */
  lemma ParseName(t: CheckType)
    ensures ParseCheckType(t.Name()) == Some(t)
  {
  }

  /** The sixteen wire strings are pairwise distinct. */
  lemma NamesDistinct(a: CheckType, b: CheckType)
    ensures a.Name() == b.Name() ==> a == b
  {
    ParseName(a);
    ParseName(b);
  }

  /** One aggregated row of the hourly traffic table, grouped by interface name. */
  datatype TrafficQuerySet = TrafficQuerySet(
    name: string,
    peakInputPkts: Num, peakInputBytes: Num, peakOutputPkts: Num, peakOutputBytes: Num,
    avgInputPkts: Num, avgInputBytes: Num, avgOutputPkts: Num, avgOutputBytes: Num)

  /** One aggregated row of the hourly disk-I/O table, grouped by device. */
  datatype DiskIOQuerySet = DiskIOQuerySet(
    device: string,
    peakReadBytes: Num, peakWriteBytes: Num, avgReadBytes: Num, avgWriteBytes: Num)

  /** One aggregated row of the hourly disk-usage table, grouped by device and mount point. */
  datatype DiskUsageQuerySet = DiskUsageQuerySet(device: string, mountPoint: string, max: Num, avg: Num)

  /**
   * One data point of any metric family. Only the fields owned by the
   * metric's type are populated; the others keep their zero value.
   */
  datatype CheckResult = CheckResult(
    timestamp: Time,
    usage: Num,
    name: string,
    device: string,
    mountPoint: string,
    total: Num, free: Num, used: Num,
    writeBytes: Num, readBytes: Num,
    inputPkts: Num, inputBytes: Num, outputPkts: Num, outputBytes: Num,
    peakUsage: Num, avgUsage: Num,
    peakWriteBytes: Num, peakReadBytes: Num, avgWriteBytes: Num, avgReadBytes: Num,
    peakInputPkts: Num, peakInputBytes: Num, peakOutputPkts: Num, peakOutputBytes: Num,
    avgInputPkts: Num, avgInputBytes: Num, avgOutputPkts: Num, avgOutputBytes: Num)

  /** The result with only its timestamp set: Go's zero value for every other field. */
  function Blank(ts: Time): CheckResult {
    CheckResult(ts, 0.0, "", "", "", 0.0, 0.0, 0.0, 0.0, 0.0, 0.0, 0.0, 0.0, 0.0,
                0.0, 0.0, 0.0, 0.0, 0.0, 0.0, 0.0, 0.0, 0.0, 0.0, 0.0, 0.0, 0.0, 0.0)
  }

  /** The unit that crosses the buffer: a type tag and its ordered results. */
  datatype MetricData = MetricData(checkType: CheckType, data: seq<CheckResult>)

  /** The per-phase error record of one Execute call; `None` stands for nil. */
  datatype CheckError = CheckError(
    collectError: Option<Error>,
    getQueryError: Option<Error>,
    saveQueryError: Option<Error>,
    deleteQueryError: Option<Error>)
  {
    /** The routing test of the daily disk checks: the get or the delete error is set. */
    predicate Failed() {
      getQueryError.Some? || deleteQueryError.Some?
    }
  }

  /** A freshly declared `CheckError`: every field nil. */
  const NoError := CheckError(None, None, None, None)

  /**
   * The state of a daily disk check just before it routes its metric: the
   * metric built so far, the error record, and how many delete calls it made.
   */
  datatype Collection = Collection(metric: MetricData, checkError: CheckError, deletes: nat)

  /** True when no field of a traffic result other than its timestamp, name and eight counters is set. */
  predicate TrafficOnly(r: CheckResult) {
    r.(name := "",
       peakInputPkts := 0.0, peakInputBytes := 0.0, peakOutputPkts := 0.0, peakOutputBytes := 0.0,
       avgInputPkts := 0.0, avgInputBytes := 0.0, avgOutputPkts := 0.0, avgOutputBytes := 0.0)
    == Blank(r.timestamp)
  }

  /** The traffic row a traffic result carries. */
  function TrafficRowOf(r: CheckResult): TrafficQuerySet {
    TrafficQuerySet(r.name, r.peakInputPkts, r.peakInputBytes, r.peakOutputPkts, r.peakOutputBytes,
                    r.avgInputPkts, r.avgInputBytes, r.avgOutputPkts, r.avgOutputBytes)
  }

  /**
   * The result a traffic check builds from one aggregated row, stamped with
   * the clock reading `ts`: it carries exactly the row and nothing else.
   */
  function TrafficResult(row: TrafficQuerySet, ts: Time): (r: CheckResult)
    ensures TrafficRowOf(r) == row && r.timestamp == ts
    ensures TrafficOnly(r)
  {
    Blank(ts).(name := row.name,
               peakInputPkts := row.peakInputPkts, peakInputBytes := row.peakInputBytes,
               peakOutputPkts := row.peakOutputPkts, peakOutputBytes := row.peakOutputBytes,
               avgInputPkts := row.avgInputPkts, avgInputBytes := row.avgInputBytes,
               avgOutputPkts := row.avgOutputPkts, avgOutputBytes := row.avgOutputBytes)
  }

  /** A traffic-only result is determined by its row and its timestamp. */
  lemma TrafficResultOnto(r: CheckResult)
    requires TrafficOnly(r)
    ensures TrafficResult(TrafficRowOf(r), r.timestamp) == r
  {
  }

  /**
   * The append loop of both traffic checks: one result per row, in row
   * order, row `i` stamped with the clock reading `stamps(i)`.
   */
  method MapTraffic(rows: seq<TrafficQuerySet>, stamps: nat -> Time) returns (data: seq<CheckResult>)
    ensures |data| == |rows|
    ensures forall i :: 0 <= i < |rows| ==> data[i] == TrafficResult(rows[i], stamps(i))
  {
    data := [];
    for i := 0 to |rows|
      invariant |data| == i
      invariant forall j :: 0 <= j < i ==> data[j] == TrafficResult(rows[j], stamps(j))
    {
      data := data + [TrafficResult(rows[i], stamps(i))];
    }
  }

  /**
   * The value a sticky error field holds after `n` calls whose outcomes are
   * `outcome(0)`, ..., `outcome(n - 1)`: each failing call overwrites it and a
   * succeeding call leaves it alone.
   */
  function StickyError(outcome: nat -> Option<Error>, n: nat): Option<Error> {
    if n == 0 then None
    else if outcome(n - 1).Some? then outcome(n - 1)
    else StickyError(outcome, n - 1)
  }

  /** The sticky field is nil exactly when none of the calls failed. */
  lemma {:induction false} StickyErrorNone(outcome: nat -> Option<Error>, n: nat)
    ensures StickyError(outcome, n).None? <==> forall i :: 0 <= i < n ==> outcome(i).None?
  {
    if n > 0 {
      StickyErrorNone(outcome, n - 1);
    }
  }

  /** Once some call has failed, later successes never clear the field; it holds the latest failure. */
  lemma {:induction false} StickyErrorLatest(outcome: nat -> Option<Error>, n: nat, k: nat)
    requires k < n && outcome(k).Some?
    requires forall i :: k < i < n ==> outcome(i).None?
    ensures StickyError(outcome, n) == outcome(k)
  {
    if k < n - 1 {
      StickyErrorLatest(outcome, n - 1, k);
    }
  }

  /**
   * The buffer shared by every check: two independent FIFO queues of equal
   * capacity. A send on a full queue blocks the producing check, so the
   * sends require room; the receives are what the uplink does to drain them.
   */
  class CheckBuffer {
    var successQueue: seq<MetricData>
    var failureQueue: seq<MetricData>
    const capacity: nat

    ghost predicate Valid()
      reads this
    {
      |successQueue| <= capacity && |failureQueue| <= capacity
    }

    /** NewCheckBuffer: both queues empty, both of the given capacity. */
    constructor (capacity: nat)
      ensures Valid()
      ensures this.capacity == capacity
      ensures successQueue == [] && failureQueue == []
    {
      this.capacity := capacity;
      successQueue := [];
      failureQueue := [];
    }

    /** `SuccessQueue <- m`, when the queue has room. */
    method SendSuccess(m: MetricData)
      requires Valid() && |successQueue| < capacity
      modifies this
      ensures Valid()
      ensures successQueue == old(successQueue) + [m]
      ensures failureQueue == old(failureQueue)
    {
      successQueue := successQueue + [m];
    }

    /** `FailureQueue <- m`, when the queue has room. */
    method SendFailure(m: MetricData)
      requires Valid() && |failureQueue| < capacity
      modifies this
      ensures Valid()
      ensures failureQueue == old(failureQueue) + [m]
      ensures successQueue == old(successQueue)
    {
      failureQueue := failureQueue + [m];
    }

    /** `<-SuccessQueue`: the oldest metric leaves first. */
    method ReceiveSuccess() returns (m: MetricData)
      requires Valid() && successQueue != []
      modifies this
      ensures Valid()
      ensures [m] + successQueue == old(successQueue)
      ensures failureQueue == old(failureQueue)
    {
      m := successQueue[0];
      successQueue := successQueue[1..];
    }

    /** `<-FailureQueue`: the oldest metric leaves first. */
    method ReceiveFailure() returns (m: MetricData)
      requires Valid() && failureQueue != []
      modifies this
      ensures Valid()
      ensures [m] + failureQueue == old(failureQueue)
      ensures successQueue == old(successQueue)
    {
      m := failureQueue[0];
      failureQueue := failureQueue[1..];
    }
  }

  /** The storage handle every check queries through (opaque here). */
  class Client {
  }

  /** The arguments a check is built from. */
  datatype CheckArgs = CheckArgs(
    checkType: CheckType, name: string, interval: Duration, buffer: CheckBuffer, client: Client)

  /** The state every concrete check embeds; it exposes only accessors. */
  datatype BaseCheck = BaseCheck(name: string, interval: Duration, buffer: CheckBuffer, client: Client)
  {
    function GetName(): string { name }
    function GetInterval(): Duration { interval }
    function GetBuffer(): CheckBuffer { buffer }
    function GetClient(): Client { client }
  }

  /** NewBaseCheck: keeps the name, interval, buffer and client of the arguments. */
  function NewBaseCheck(args: CheckArgs): (b: BaseCheck)
    ensures b.GetName() == args.name && b.GetInterval() == args.interval
    ensures b.GetBuffer() == args.buffer && b.GetClient() == args.client
  {
    BaseCheck(args.name, args.interval, args.buffer, args.client)
  }

  /** The check type of the arguments is not retained: arguments that differ only there give the same check. */
  lemma NewBaseCheckDropsType(args: CheckArgs, t: CheckType)
    ensures NewBaseCheck(args.(checkType := t)) == NewBaseCheck(args)
  {
  }
}
