/** The overview trend: two ways to find a timestamp's bucket, and the totals of the buckets. Times are seconds. */
module TrendBuckets {
  import opened Text
  import opened Percentile

  const BUCKET_COUNT := 12
  const BUCKET_SECONDS := 300

  datatype Window = Window(from: int, to: int, duration: int)

  /** CurrentTrendWindow. */
  function CurrentWindow(now: int): Window {
    Window(now - BUCKET_COUNT * BUCKET_SECONDS, now, BUCKET_SECONDS)
  }

  /** A window that is exactly `count` buckets long. */
  predicate Filled(w: Window, count: nat) {
    w.duration > 0 && w.to == w.from + count * w.duration
  }

  predicate InWindow(w: Window, time: int) {
    w.from <= time < w.to
  }

  /** The bucket a time falls in. */
  predicate InBucket(w: Window, index: int, time: int) {
    w.from + index * w.duration <= time < w.from + index * w.duration + w.duration
  }

  function Starts(w: Window, count: nat): seq<int> {
    seq(count, i => w.from + i * w.duration)
  }

  lemma ProductGrows(x: int, y: int, d: int)
    requires x <= y && d > 0
    ensures x * d <= y * d
  {
  }

  lemma BucketsAreDisjoint(w: Window, a: int, b: int, time: int)
    requires w.duration > 0
    ensures InBucket(w, a, time) && InBucket(w, b, time) ==> a == b
  {
    BucketEnd(w, a);
    BucketEnd(w, b);
    if a < b {
      ProductGrows(a + 1, b, w.duration);
    } else if b < a {
      ProductGrows(b + 1, a, w.duration);
    }
  }

  /** bucketIndex: a scan of the starts from the last down. */
  method BucketIndex(starts: seq<int>, duration: int, time: int) returns (index: int)
    ensures -1 <= index < |starts|
    ensures index >= 0 ==> starts[index] <= time < starts[index] + duration
    ensures forall k :: index < k < |starts| ==> !(starts[k] <= time < starts[k] + duration)
  {
    index := |starts| - 1;
    while index >= 0
      invariant -1 <= index < |starts|
      invariant forall k :: index < k < |starts| ==> !(starts[k] <= time < starts[k] + duration)
    {
      if starts[index] <= time && time < starts[index] + duration {
        return;
      }
      index := index - 1;
    }
  }

  /** The index incrementDeniedTrend divides out; None when it increments nothing. */
  function DividedIndex(w: Window, count: nat, time: int): Option<nat>
    requires w.duration > 0
  {
    if count == 0 || time < w.from || time >= w.to then None
    else
      var index := (time - w.from) / w.duration;
      if index == count then Some(count - 1) else if index < count then Some(index) else None
  }

  lemma DivisionFindsBucket(w: Window, time: int)
    requires w.duration > 0 && w.from <= time
    ensures InBucket(w, (time - w.from) / w.duration, time)
  {
    var q := (time - w.from) / w.duration;
    assert time - w.from == q * w.duration + (time - w.from) % w.duration;
  }

  lemma BucketEnd(w: Window, index: int)
    ensures (index + 1) * w.duration == index * w.duration + w.duration
  {
  }

  lemma BucketIsInWindow(w: Window, count: nat, index: int, time: int)
    requires Filled(w, count) && InBucket(w, index, time)
    ensures InWindow(w, time) <==> 0 <= index < count
  {
    BucketEnd(w, index);
    if index < 0 {
      ProductGrows(index + 1, 0, w.duration);
    } else if index < count {
      ProductGrows(0, index, w.duration);
      ProductGrows(index + 1, count, w.duration);
    } else {
      ProductGrows(count, index, w.duration);
    }
  }

  /** In a window its buckets fill, the scan and the division choose the same bucket, or both none: exactly the
      times of the window have one. */
  lemma ScanAndDivisionAgree(w: Window, count: nat, time: int, index: int)
    requires Filled(w, count) && -1 <= index < count
    requires index >= 0 ==> InBucket(w, index, time)
    requires forall k :: index < k < count ==> !InBucket(w, k, time)
    ensures DividedIndex(w, count, time) == if index < 0 then None else Some(index)
    ensures index >= 0 <==> InWindow(w, time)
  {
    if InWindow(w, time) {
      var q := (time - w.from) / w.duration;
      DivisionFindsBucket(w, time);
      BucketIsInWindow(w, count, q, time);
      if index >= 0 { BucketsAreDisjoint(w, q, index, time); }
    } else if index >= 0 {
      BucketIsInWindow(w, count, index, time);
    }
  }

  lemma CurrentWindowIsFilled(now: int)
    ensures Filled(CurrentWindow(now), BUCKET_COUNT)
  {
  }

  // ---- Records in buckets ----

  datatype Record = Record(time: int, action: string, latency: real)

  function Select(records: seq<Record>, keep: Record -> bool): seq<Record> {
    if records == [] then []
    else Select(records[..|records| - 1], keep) + if keep(records[|records| - 1]) then [records[|records| - 1]] else []
  }

  function TimedIn(w: Window): Record -> bool { (r: Record) => InWindow(w, r.time) }

  function TimedInBucket(w: Window, index: int): Record -> bool { (r: Record) => InBucket(w, index, r.time) }

  function DeniedInBucket(w: Window, index: int): Record -> bool {
    (r: Record) => EqualFold(r.action, "deny") && InBucket(w, index, r.time)
  }

  function FailedInBucket(w: Window, index: int): Record -> bool {
    (r: Record) => EqualFold(r.action, "error") && InBucket(w, index, r.time)
  }

  lemma SelectNext(records: seq<Record>, i: nat, keep: Record -> bool)
    requires i < |records|
    ensures Select(records[..i + 1], keep) == Select(records[..i], keep) + if keep(records[i]) then [records[i]] else []
  {
    assert records[..i + 1][..i] == records[..i];
  }

  /** recordsInWindow. */
  method RecordsInWindow(records: seq<Record>, w: Window) returns (kept: seq<Record>)
    ensures kept == Select(records, TimedIn(w))
  {
    kept := [];
    for i := 0 to |records|
      invariant kept == Select(records[..i], TimedIn(w))
    {
      SelectNext(records, i, TimedIn(w));
      if w.from <= records[i].time && records[i].time < w.to {
        kept := kept + [records[i]];
      }
    }
    assert records[..|records|] == records;
  }

  /** The number of records in the first `n` buckets together. */
  function InFirstBuckets(w: Window, records: seq<Record>, n: nat): nat {
    if n == 0 then 0 else InFirstBuckets(w, records, n - 1) + |Select(records, TimedInBucket(w, n - 1))|
  }

  lemma {:induction false} OneMoreRecord(w: Window, records: seq<Record>, r: Record, n: nat)
    requires w.duration > 0
    ensures InFirstBuckets(w, records + [r], n) ==
            InFirstBuckets(w, records, n) + if exists k :: 0 <= k < n && InBucket(w, k, r.time) then 1 else 0
  {
    if n > 0 {
      OneMoreRecord(w, records, r, n - 1);
      assert (records + [r])[..|records|] == records;
      if InBucket(w, n - 1, r.time) {
        forall k | 0 <= k < n - 1 ensures !InBucket(w, k, r.time) {
          BucketsAreDisjoint(w, k, n - 1, r.time);
        }
      }
    }
  }

  /** Every record of the window is in one bucket: the buckets' totals are the window's. */
  lemma {:induction false} BucketTotalsAreWindowTotal(w: Window, count: nat, records: seq<Record>)
    requires Filled(w, count)
    ensures InFirstBuckets(w, records, count) == |Select(records, TimedIn(w))|
  {
    if records == [] {
      NoRecords(w, count);
    } else {
      var last := |records| - 1;
      var r := records[last];
      BucketTotalsAreWindowTotal(w, count, records[..last]);
      OneMoreRecord(w, records[..last], r, count);
      assert records == records[..last] + [r];
      if InWindow(w, r.time) {
        var q := (r.time - w.from) / w.duration;
        DivisionFindsBucket(w, r.time);
        BucketIsInWindow(w, count, q, r.time);
      } else {
        forall k | 0 <= k < count ensures !InBucket(w, k, r.time) {
          if InBucket(w, k, r.time) { BucketIsInWindow(w, count, k, r.time); }
        }
      }
    }
  }

  lemma {:induction false} NoRecords(w: Window, n: nat)
    ensures InFirstBuckets(w, [], n) == 0
  {
    if n > 0 { NoRecords(w, n - 1); }
  }

  // ---- The trend ----

  datatype Point = Point(
    start: int, requests: int, latency: Option<real>, samples: nat, errors: nat, denied: nat)

  datatype AnalyticsBucket = AnalyticsBucket(start: int, requests: int)

  function Latencies(records: seq<Record>): seq<real> {
    seq(|records|, i requires 0 <= i < |records| => records[i].latency)
  }

  /** The last analytics bucket that starts in bucket `index`. */
  function FromAnalytics(buckets: seq<AnalyticsBucket>, w: Window, index: int): int {
    if buckets == [] then 0
    else if InBucket(w, index, buckets[|buckets| - 1].start) then buckets[|buckets| - 1].requests
    else FromAnalytics(buckets[..|buckets| - 1], w, index)
  }

  function MakePoint(start: int, analytics: Option<int>, latencies: seq<real>, errors: nat, denied: nat): Point {
    Point(start, match analytics case None => |latencies| case Some(n) => n, P95(latencies), |latencies|, errors, denied)
  }

  /** What one point of the trend says about the records. */
  function PointOf(
    w: Window, gateway: seq<Record>, guard: seq<Record>, analytics: Option<seq<AnalyticsBucket>>, index: int): Point
  {
    MakePoint(
      w.from + index * w.duration,
      match analytics case None => None case Some(buckets) => Some(FromAnalytics(buckets, w, index)),
      Latencies(Select(gateway, TimedInBucket(w, index))), |Select(gateway, FailedInBucket(w, index))|,
      |Select(guard, DeniedInBucket(w, index))|)
  }

  /** The scan, with the bucket it finds being the only one. */
  method Locate(starts: seq<int>, w: Window, time: int) returns (index: int)
    requires w.duration > 0 && starts == Starts(w, |starts|)
    ensures -1 <= index < |starts|
    ensures forall k :: 0 <= k < |starts| ==> (InBucket(w, k, time) <==> k == index)
  {
    index := BucketIndex(starts, w.duration, time);
    forall k | 0 <= k < |starts| ensures InBucket(w, k, time) <==> k == index {
      assert starts[k] == w.from + k * w.duration;
      BucketsAreDisjoint(w, k, index, time);
    }
  }

  method CountAnalytics(starts: seq<int>, w: Window, buckets: seq<AnalyticsBucket>) returns (requests: array<int>)
    requires w.duration > 0 && starts == Starts(w, |starts|)
    ensures fresh(requests) && requests.Length == |starts|
    ensures forall k :: 0 <= k < |starts| ==> requests[k] == FromAnalytics(buckets, w, k)
  {
    requests := new int[|starts|](_ => 0);
    for i := 0 to |buckets|
      invariant forall k :: 0 <= k < |starts| ==> requests[k] == FromAnalytics(buckets[..i], w, k)
    {
      var index := Locate(starts, w, buckets[i].start);
      assert buckets[..i + 1][..i] == buckets[..i];
      if index >= 0 {
        requests[index] := buckets[i].requests;
      }
    }
    assert buckets[..|buckets|] == buckets;
  }

  method CountDenied(starts: seq<int>, w: Window, guard: seq<Record>) returns (denied: array<nat>)
    requires w.duration > 0 && starts == Starts(w, |starts|)
    ensures fresh(denied) && denied.Length == |starts|
    ensures forall k :: 0 <= k < |starts| ==> denied[k] == |Select(guard, DeniedInBucket(w, k))|
  {
    denied := new nat[|starts|](_ => 0);
    for i := 0 to |guard|
      invariant forall k :: 0 <= k < |starts| ==> denied[k] == |Select(guard[..i], DeniedInBucket(w, k))|
    {
      forall k | 0 <= k < |starts|
        ensures Select(guard[..i + 1], DeniedInBucket(w, k)) ==
                Select(guard[..i], DeniedInBucket(w, k)) + if DeniedInBucket(w, k)(guard[i]) then [guard[i]] else []
      {
        SelectNext(guard, i, DeniedInBucket(w, k));
      }
      if EqualFold(guard[i].action, "deny") {
        var index := Locate(starts, w, guard[i].time);
        if index >= 0 {
          denied[index] := denied[index] + 1;
        }
      }
    }
    assert guard[..|guard|] == guard;
  }

  method Collect(starts: seq<int>, w: Window, gateway: seq<Record>)
    returns (latencies: array<seq<real>>, errors: array<nat>)
    requires w.duration > 0 && starts == Starts(w, |starts|)
    ensures fresh(latencies) && fresh(errors) && latencies.Length == |starts| == errors.Length
    ensures forall k :: 0 <= k < |starts| ==>
              && latencies[k] == Latencies(Select(gateway, TimedInBucket(w, k)))
              && errors[k] == |Select(gateway, FailedInBucket(w, k))|
  {
    latencies := new seq<real>[|starts|](_ => []);
    errors := new nat[|starts|](_ => 0);
    for i := 0 to |gateway|
      invariant forall k :: 0 <= k < |starts| ==> latencies[k] == Latencies(Select(gateway[..i], TimedInBucket(w, k)))
      invariant forall k :: 0 <= k < |starts| ==> errors[k] == |Select(gateway[..i], FailedInBucket(w, k))|
    {
      var r := gateway[i];
      forall k | 0 <= k < |starts|
        ensures Latencies(Select(gateway[..i + 1], TimedInBucket(w, k))) ==
                Latencies(Select(gateway[..i], TimedInBucket(w, k))) + if InBucket(w, k, r.time) then [r.latency] else []
        ensures |Select(gateway[..i + 1], FailedInBucket(w, k))| ==
                |Select(gateway[..i], FailedInBucket(w, k))|
                + if EqualFold(r.action, "error") && InBucket(w, k, r.time) then 1 else 0
      {
        SelectNext(gateway, i, TimedInBucket(w, k));
        SelectNext(gateway, i, FailedInBucket(w, k));
      }
      var index := Locate(starts, w, r.time);
      if index >= 0 {
        latencies[index] := latencies[index] + [r.latency];
        if EqualFold(r.action, "error") {
          errors[index] := errors[index] + 1;
        }
      }
    }
    assert gateway[..|gateway|] == gateway;
  }

  /** buildTrend. */
  method BuildTrend(w: Window, gateway: seq<Record>, guard: seq<Record>, analytics: Option<seq<AnalyticsBucket>>)
    returns (trend: array<Point>)
    requires w.duration > 0
    ensures fresh(trend) && trend.Length == BUCKET_COUNT
    ensures forall k :: 0 <= k < BUCKET_COUNT ==> trend[k] == PointOf(w, gateway, guard, analytics, k)
  {
    var starts := Starts(w, BUCKET_COUNT);
    var counted := CountAnalytics(starts, w, if analytics.Some? then analytics.value else []);
    var latencies, errors := Collect(starts, w, gateway);
    var denied := CountDenied(starts, w, guard);
    var allRequests, allLatencies, allErrors, allDenied := counted[..], latencies[..], errors[..], denied[..];
    trend := new Point[BUCKET_COUNT](_ => Point(0, 0, None, 0, 0, 0));
    for i := 0 to BUCKET_COUNT
      invariant forall k :: 0 <= k < i ==>
                  trend[k] == MakePoint(starts[k], if analytics.Some? then Some(allRequests[k]) else None,
                                        allLatencies[k], allErrors[k], allDenied[k])
    {
      var latency := NearestRankP95(allLatencies[i]);
      var requests := if analytics.Some? then allRequests[i] else |allLatencies[i]|;
      trend[i] := Point(starts[i], requests, latency, |allLatencies[i]|, allErrors[i], allDenied[i]);
    }
  }

  function SampleTotal(points: seq<Point>): nat {
    if points == [] then 0 else SampleTotal(points[..|points| - 1]) + points[|points| - 1].samples
  }

  lemma PointCountsItsBucket(
    w: Window, gateway: seq<Record>, guard: seq<Record>, analytics: Option<seq<AnalyticsBucket>>, k: int)
    ensures PointOf(w, gateway, guard, analytics, k).samples == |Select(gateway, TimedInBucket(w, k))|
  {
  }

  lemma {:induction false} SamplesOfFirst(
    w: Window, gateway: seq<Record>, guard: seq<Record>, analytics: Option<seq<AnalyticsBucket>>, points: seq<Point>)
    requires forall k :: 0 <= k < |points| ==> points[k] == PointOf(w, gateway, guard, analytics, k)
    ensures SampleTotal(points) == InFirstBuckets(w, gateway, |points|)
  {
    if points != [] {
      var last := |points| - 1;
      SamplesOfFirst(w, gateway, guard, analytics, points[..last]);
      PointCountsItsBucket(w, gateway, guard, analytics, last);
    }
  }

  /** The latency samples of the whole trend are the gateway records of its window, each counted once. */
  lemma TrendCountsEachRecordOnce(
    w: Window, gateway: seq<Record>, guard: seq<Record>, analytics: Option<seq<AnalyticsBucket>>, points: seq<Point>)
    requires Filled(w, |points|)
    requires forall k :: 0 <= k < |points| ==> points[k] == PointOf(w, gateway, guard, analytics, k)
    ensures SampleTotal(points) == |Select(gateway, TimedIn(w))|
  {
    SamplesOfFirst(w, gateway, guard, analytics, points);
    BucketTotalsAreWindowTotal(w, |points|, gateway);
  }

  /** incrementDeniedTrend: one more denial in the bucket the time divides into. */
  method IncrementDenied(trend: array<Point>, w: Window, time: int)
    requires w.duration > 0
    modifies trend
    ensures forall k :: 0 <= k < trend.Length ==>
              trend[k] == if DividedIndex(w, trend.Length, time) == Some(k)
                          then old(trend[k]).(denied := old(trend[k]).denied + 1) else old(trend[k])
  {
    if trend.Length == 0 || time < w.from || time >= w.to {
      return;
    }
    var index := (time - w.from) / w.duration;
    if index == trend.Length && time < w.to {
      index := trend.Length - 1;
    }
    if index < trend.Length {
      trend[index] := trend[index].(denied := trend[index].denied + 1);
    }
  }

  lemma DividedIsBucket(w: Window, count: nat, time: int, k: nat)
    requires Filled(w, count) && k < count
    ensures DividedIndex(w, count, time) == Some(k) <==> InBucket(w, k, time)
  {
    if w.from <= time { DivisionFindsBucket(w, time); }
    if InBucket(w, k, time) {
      BucketIsInWindow(w, count, k, time);
      BucketsAreDisjoint(w, k, (time - w.from) / w.duration, time);
    } else if InWindow(w, time) {
      BucketIsInWindow(w, count, (time - w.from) / w.duration, time);
    }
  }

  /** applyApprovalResolutionTrend: the denied approvals go to the very buckets the scan would have put them in. */
  method ApplyResolutions(trend: array<Point>, w: Window, resolutions: seq<Record>)
    requires Filled(w, trend.Length)
    modifies trend
    ensures forall k :: 0 <= k < trend.Length ==>
              trend[k] == old(trend[k]).(denied := old(trend[k]).denied + |Select(resolutions, DeniedInBucket(w, k))|)
  {
    for i := 0 to |resolutions|
      invariant forall k :: 0 <= k < trend.Length ==>
                  trend[k] == old(trend[k]).(denied := old(trend[k]).denied
                                                       + |Select(resolutions[..i], DeniedInBucket(w, k))|)
    {
      forall k | 0 <= k < trend.Length
        ensures |Select(resolutions[..i + 1], DeniedInBucket(w, k))| ==
                |Select(resolutions[..i], DeniedInBucket(w, k))|
                + if EqualFold(resolutions[i].action, "deny") && InBucket(w, k, resolutions[i].time) then 1 else 0
        ensures DividedIndex(w, trend.Length, resolutions[i].time) == Some(k) <==> InBucket(w, k, resolutions[i].time)
      {
        SelectNext(resolutions, i, DeniedInBucket(w, k));
        DividedIsBucket(w, trend.Length, resolutions[i].time, k);
      }
      if EqualFold(resolutions[i].action, "deny") {
        IncrementDenied(trend, w, resolutions[i].time);
      }
    }
    assert resolutions[..|resolutions|] == resolutions;
  }
}
