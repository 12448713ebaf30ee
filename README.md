# Metric-check pipeline of a host monitoring agent, modelled in Dafny

This project models the control logic of the batch metric checks of a host
monitoring agent (alpamon). Each check reads a time-windowed aggregate from
storage, maps the rows to results, for hourly checks saves a rollup, purges
the source rows, and routes the metric into a buffer of two bounded FIFO
queues (success and failure) that an uplink drains. Storage, the clock and
cancellation are oracles given to the model as inputs.

- `wrappers.dfy` (`Wrappers`): `Option` and `Result`.
- `base.dfy` (`Base`): the sixteen `CheckType` tags and their wire strings,
  the query-row records, the wide `CheckResult` record, `MetricData`,
  `CheckError`, the `CheckBuffer` class (two queues of fixed capacity, sends
  and receives), `BaseCheck` with its constructor and accessors, the traffic
  row mapping shared by both network checks, and the "sticky" error field
  semantics of the disk checks.
- `retry.dfy` (`Retry`): the retry loop every network check writes three or
  two times, as one generic method `RetryLoop` proved equal to the recursive
  specification `Run`, whose contract describes the whole trace; lemmas give
  the converse (fail k times then succeed, exhaust the ceiling, hit the
  deadline, be cancelled in a backoff).
- `hourly_net.dfy`, `daily_net.dfy`: get, map, (save,) delete, each retried,
  all-or-nothing delivery to the success queue.
- `daily_disk_io.dfy`, `daily_disk_usage.dfy`: unretried get, one delete per
  row inside the mapping loop, sticky delete error, routing to exactly one
  queue unless the context is done.
- `commit_types.dfy` (`CommitTypes`): the eight fact records, their
  `GetID`/`GetKey`/`GetData` projections behind one `Comparable` union, and
  the `commitDefs` endpoint table.

Oracles: a retried storage call is an `Oracle` giving the outcome at each
attempt index, the elapsed time read at the top of each attempt, and whether
cancellation wins the race with the backoff timer after each attempt. An
unretried get is a `Result`; the disk checks' deletes are a function from the
call index to an optional error; `time.Now()` per row is a function from the
row index to a clock reading; `ctx.Err()` before the send is a boolean.

Three behaviours of the code shape the model:
- the disk checks issue the delete of the purge window inside the per-row
  loop, once per row, so an empty result issues no delete at all;
- the disk checks send an empty metric to the failure queue when the get
  fails;
- the daily network check sends nothing, to either queue, when its delete
  phase fails.

## Model

| member | source | states |
|---|---|---|
| Base.ParseName | pkg/collector/check/base/base.go:10-29 | every check type's wire string reads back as that type |
| Base.NamesDistinct | pkg/collector/check/base/base.go:10-27 | the sixteen check-type strings are pairwise distinct |
| Base.TrafficResult | pkg/collector/check/batch/daily/net/net.go:54-65 | a traffic result carries exactly its row's name and eight counters and the clock reading; every other field stays zero |
| Base.TrafficResultOnto | pkg/collector/check/base/base.go:83-112 | a result with only traffic fields set is the mapping of its own row and timestamp (the mapping is a bijection onto such results) |
| Base.MapTraffic | pkg/collector/check/batch/hourly/net/net.go:53-66 | the append loop yields one result per query row, in row order |
| Base.StickyErrorNone | pkg/collector/check/batch/daily/disk/io/io.go:36-50 | the delete error field ends nil exactly when every per-row delete succeeded |
| Base.StickyErrorLatest | pkg/collector/check/batch/daily/disk/io/io.go:47-49 | once a delete fails, later successful deletes do not clear the field; it holds the latest failure |
| Base.CheckBuffer.constructor | pkg/collector/check/base/base.go:149-155 | NewCheckBuffer gives two empty queues and capacity c |
| Base.CheckBuffer.SendSuccess | pkg/collector/check/base/base.go:134-138 | a send appends to the success queue only, never beyond capacity; the failure queue is unchanged |
| Base.CheckBuffer.SendFailure | pkg/collector/check/base/base.go:134-138 | a send appends to the failure queue only, never beyond capacity; the success queue is unchanged |
| Base.CheckBuffer.ReceiveSuccess | pkg/collector/check/base/base.go:135 | the success queue is FIFO: the oldest metric leaves first |
| Base.CheckBuffer.ReceiveFailure | pkg/collector/check/base/base.go:136 | the failure queue is FIFO: the oldest metric leaves first |
| Base.NewBaseCheck | pkg/collector/check/base/base.go:140-170 | GetName, GetInterval, GetBuffer, GetClient return the arguments' name, interval, buffer and client |
| Base.NewBaseCheckDropsType | pkg/collector/check/base/base.go:31-37 | the check type of the arguments is not retained |
| Retry.Run | pkg/collector/check/batch/hourly/net/net.go:86-111 | at most ceiling+1 calls; a backoff only between calls and only after an attempt below the ceiling; Ok carries the last call's success; Cancelled only from the backoff after a failed call; Exhausted with the "failed to" message only after a failed call at the ceiling or at the deadline |
| Retry.RunBeforeDeadline | pkg/collector/check/batch/hourly/net/net.go:88-91 | every storage call is made while the elapsed time is below the retry deadline |
| Retry.RunFailsBeforeLast | pkg/collector/check/batch/hourly/net/net.go:92-107 | every call but the last failed and its backoff was not cancelled, so the loop returns the first success |
| Retry.RetryLoop | pkg/collector/check/batch/hourly/net/net.go:86-111 | the attempt-counter loop with deadline break, early returns and backoff computes exactly `Run` |
| Retry.QuietPrefix | pkg/collector/check/batch/hourly/net/net.go:88-107 | quiet failures (in time, failed, uncancelled) only shift the rest of the loop |
| Retry.SucceedsAfterFailures | pkg/collector/check/batch/hourly/net/net.go:93-96 | failing k times then succeeding, k within the ceiling, returns that success after k+1 calls and k backoffs |
| Retry.ExhaustsCeiling | pkg/collector/check/batch/hourly/net/net.go:88-110 | failing at every attempt gives the "failed to" error after ceiling+1 calls and no backoff after the last |
| Retry.DeadlineStops | pkg/collector/check/batch/hourly/net/net.go:89-91 | reaching the deadline at the top of attempt k stops with the "failed to" error and no k-th call |
| Retry.CancelledInBackoff | pkg/collector/check/batch/hourly/net/net.go:98-107 | cancellation in the backoff after attempt k returns the context error, not the "failed to" error |
| HourlyNet.Check.QueryTraffic | pkg/collector/check/batch/hourly/net/net.go:47-84 | save runs iff get succeeded, delete iff save succeeded; the saved slice is the mapped rows; Ok iff all three succeeded, with a NET_PER_HOUR metric of the saved slice; otherwise the stopping phase's error |
| HourlyNet.Check.Execute | pkg/collector/check/batch/hourly/net/net.go:33-45 | exactly one send to the success queue iff all three phases succeeded and the context is not done; the failure queue is never touched; room in the success queue is needed only when that send happens |
| HourlyNet.NewCheck | pkg/collector/check/batch/hourly/net/net.go:20-31 | the check embeds NewBaseCheck(args) and the given retry configuration |
| HourlyNet.QueryTrafficBounds | pkg/collector/check/batch/hourly/net/net.go:53-73 | each phase makes at most its ceiling+1 calls; a delivered metric has type NET_PER_HOUR, is the saved data, one result per row with the row's name |
| DailyNet.Check.QueryTrafficPerHour | pkg/collector/check/batch/daily/net/net.go:46-78 | no save; delete runs exactly once iff get succeeded; Ok iff both succeeded, with a NET_PER_DAY metric of one result per row; otherwise the stopping phase's error |
| DailyNet.Check.Execute | pkg/collector/check/batch/daily/net/net.go:32-44 | exactly one send to the success queue iff both phases succeeded and the context is not done; nothing is ever sent on failure; room is needed only when that send happens |
| DailyNet.NewCheck | pkg/collector/check/batch/daily/net/net.go:20-30 | get and delete ceilings are fixed at 3 and 2 |
| DailyNet.QueryTrafficPerHourBounds | pkg/collector/check/batch/daily/net/net.go:80-131 | get is called at most 4 times and delete at most 3 times; a delivered metric has one result per row with the rows' names in order |
| DailyDiskIO.IOResult | pkg/collector/check/batch/daily/disk/io/io.go:37-43 | a result carries exactly its row's device and four byte counters and the clock reading; every other field stays zero |
| DailyDiskIO.Check.Collect | pkg/collector/check/batch/daily/disk/io/io.go:23-50 | get once; on get error an empty DISK_IO_PER_DAY metric, the error recorded, no delete; otherwise one result per row in order, one delete per row, the sticky delete error |
| DailyDiskIO.Check.Execute | pkg/collector/check/batch/daily/disk/io/io.go:23-62 | a done context sends nothing; otherwise exactly one send, to the failure queue iff the get or a delete error is set, else to the success queue; only the routed queue needs room |
| DailyDiskIO.NewCheck | pkg/collector/check/batch/daily/disk/io/io.go:17-21 | the check is only its base state |
| DailyDiskIO.RoutedToFailure | pkg/collector/check/batch/daily/disk/io/io.go:47-62 | the failure route is taken exactly when the get failed or some per-row delete failed |
| DailyDiskIO.EmptyWindow | pkg/collector/check/batch/daily/disk/io/io.go:30-50 | an empty window gives an empty metric, zero deletes and the success route |
| DailyDiskUsage.UsageResult | pkg/collector/check/batch/daily/disk/usage/usage.go:37-43 | a result carries its row's device and mount point, PeakUsage = Max, AvgUsage = AVG, and the clock reading; every other field stays zero |
| DailyDiskUsage.Check.Collect | pkg/collector/check/batch/daily/disk/usage/usage.go:23-49 | get once; on get error an empty DISK_USAGE_PER_DAY metric, the error recorded, no delete; otherwise one result per row in order, one delete per row, the sticky delete error |
| DailyDiskUsage.Check.Execute | pkg/collector/check/batch/daily/disk/usage/usage.go:23-61 | a done context sends nothing; otherwise exactly one send, to the failure queue iff the get or a delete error is set, else to the success queue; only the routed queue needs room |
| DailyDiskUsage.NewCheck | pkg/collector/check/batch/daily/disk/usage/usage.go:17-21 | the check is only its base state |
| DailyDiskUsage.RoutedToFailure | pkg/collector/check/batch/daily/disk/usage/usage.go:46-61 | the failure route is taken exactly when the get failed or some per-row delete failed |
| DailyDiskUsage.EmptyWindow | pkg/collector/check/batch/daily/disk/usage/usage.go:30-49 | an empty window gives an empty metric, zero deletes and the success route |
| CommitTypes.CommitDefsSuffix | pkg/runner/commit_types.go:9-55 | MultiRow is false iff the suffix is "-/sync/" and true iff it is "sync/" |
| CommitTypes.CommitDefsUrls | pkg/runner/commit_types.go:9-55 | every URL starts with "/api/" and ends with "/" |
| CommitTypes.CommitDefsSize | pkg/runner/commit_types.go:9-55 | the table has exactly the nine listed resources |
| CommitTypes.SystemData.GetData | pkg/runner/commit_types.go:168-183 | the record with only its ID cleared |
| CommitTypes.OSData.GetData | pkg/runner/commit_types.go:193-203 | the record with only its ID cleared |
| CommitTypes.TimeData.GetData | pkg/runner/commit_types.go:213-219 | the record with its ID and BootTime cleared |
| CommitTypes.UserData.GetData | pkg/runner/commit_types.go:229-237 | the record with its ID and Description cleared |
| CommitTypes.GroupData.GetData | pkg/runner/commit_types.go:247-252 | the record with only its ID cleared |
| CommitTypes.Interface.GetData | pkg/runner/commit_types.go:262-271 | the record with only its ID cleared |
| CommitTypes.Address.GetData | pkg/runner/commit_types.go:281-288 | the record with only its ID cleared |
| CommitTypes.SystemPackageData.GetData | pkg/runner/commit_types.go:298-305 | the record with only its ID cleared |
| CommitTypes.Comparable.GetData | pkg/runner/commit_types.go:152-158 | for every record type, the projection has an empty ID, the same key and the same kind |
| CommitTypes.GetDataIdempotent | pkg/runner/commit_types.go:160-305 | projecting twice is projecting once |
| CommitTypes.GetDataIgnoresID | pkg/runner/commit_types.go:160-305 | records that differ only in ID project to the same data |
| CommitTypes.TimeDataCompare | pkg/runner/commit_types.go:213-219 | two time records compare equal iff they differ at most in ID and BootTime |
| CommitTypes.UserDataCompare | pkg/runner/commit_types.go:229-237 | two user records compare equal iff they differ at most in ID and Description |

## Left out

- Storage: the ent query builder, the SQL `GROUP BY` with `Max`/`Mean`, the bulk insert and the windowed delete are oracles; the `[now - 1h, now]` and `[now - 24h, now]` windows are not modelled, since only the storage engine reads them.
- Floating point and narrowing: every measured value is one opaque numeric type that is only copied; the `uint64(...)` truncation of the daily network and disk-I/O checks is not modelled.
- Base.TrafficResult: the hourly network check copies fields named `PeakInputPps`, `PeakInputBps`, ... that are not declared in base.go; the model uses the same copy of the eight declared traffic counters for both network checks.
- Retry ceilings: the default values `GET_MAX_RETRIES`, `SAVE_MAX_RETRIES`, `DELETE_MAX_RETRIES`, `MAX_RETRY_TIMES` and `DEFAULT_DELAY` are not part of this model (not in base.go); the hourly check takes them as a parameter.
- The backoff duration (`utils.CalculateBackOff`) is not part of this model; the model counts backoff sleeps and records after which attempts they happen, not how long they last.
- Real time: `time.Now`, `time.Since` and `time.After` are oracle inputs; nothing about total elapsed time relative to the backoff durations is stated.
- Concurrency: goroutine scheduling is not modelled. A send on a full queue blocks in the source; each `Execute` requires room in the queue it will send to, and only when it will send.
- Negative channel capacities (a panic in `make`) are excluded by the type of the capacity.
- Logging, JSON tags and serialization are not modelled.
- `ServerData` and `commitData` in commit_types.go have no projections and are not modelled; the diff routine that consumes `ComparableData` and posts to the `commitDefs` URLs is not part of this model.
- `GetID` and `GetKey` are modelled as plain projections of `Comparable`; what they return is stated through the contract of `Comparable.GetData` and the lemmas beside it.
