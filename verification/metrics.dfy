/** The request-metrics counter of study02/src/test/metrics_collector.go: a
    `MetricsCollector` object with three counters that `RecordRequest`
    advances and `Reset` clears, and an integer average latency. Latencies
    are `time.Duration` values, integer counts of nanoseconds, so the
    average is Go's integer division, which truncates toward zero. */
module Metrics {

  /** One recorded request: its latency in nanoseconds and whether it
      failed. */
  datatype Request = Request(latency: int, isError: bool)

  /** The sum of the latencies of `requests`. */
  function TotalLatency(requests: seq<Request>): int
    decreases |requests|
  {
    if requests == [] then 0
    else TotalLatency(requests[..|requests| - 1]) + requests[|requests| - 1].latency
  }

  /** The number of failed requests among `requests`. */
  function ErrorCount(requests: seq<Request>): int
    decreases |requests|
  {
    if requests == [] then 0
    else ErrorCount(requests[..|requests| - 1]) + (if requests[|requests| - 1].isError then 1 else 0)
  }

  /** There are never more errors than requests, nor fewer than none. */
  lemma {:induction false} ErrorCountBounded(requests: seq<Request>)
    ensures 0 <= ErrorCount(requests) <= |requests|
    decreases |requests|
  {
    if requests != [] {
      ErrorCountBounded(requests[..|requests| - 1]);
    }
  }

  /** Go's `/` on integers: the quotient truncated toward zero, so the
      remainder takes the sign of the dividend. */
  function Quotient(a: int, n: int): (q: int)
    requires n > 0
    ensures a >= 0 ==> 0 <= q * n <= a < q * n + n
    ensures a <= 0 ==> q * n - n < a <= q * n <= 0
  {
    if a >= 0 then a / n else -((-a) / n)
  }

  /** Latencies between `lo` and `hi` add up to between `n * lo` and
      `n * hi`. */
  lemma {:induction false} TotalLatencyBounds(requests: seq<Request>, lo: int, hi: int)
    requires forall k :: 0 <= k < |requests| ==> lo <= requests[k].latency <= hi
    ensures |requests| * lo <= TotalLatency(requests) <= |requests| * hi
    decreases |requests|
  {
    if requests != [] {
      var n := |requests| - 1;
      TotalLatencyBounds(requests[..n], lo, hi);
      assert |requests| * lo == n * lo + lo && |requests| * hi == n * hi + hi;
    }
  }

  lemma ScaleMonotone(a: int, b: int, n: nat)
    requires a <= b
    ensures a * n <= b * n
  {
    assert b * n - a * n == (b - a) * n;
  }

  /** The average of latencies that lie between `lo` and `hi` lies between
      them too, in spite of the truncation toward zero, which for a negative
      total rounds up rather than down. */
  lemma AverageWithinBounds(requests: seq<Request>, lo: int, hi: int)
    requires |requests| > 0
    requires forall k :: 0 <= k < |requests| ==> lo <= requests[k].latency <= hi
    ensures lo <= Quotient(TotalLatency(requests), |requests|) <= hi
  {
    var n, total := |requests|, TotalLatency(requests);
    TotalLatencyBounds(requests, lo, hi);
    var q := Quotient(total, n);
    assert (q + 1) * n == q * n + n && (hi + 1) * n == hi * n + n;
    if total >= 0 {
      assert q * n <= total < q * n + n;
    } else {
      assert q * n - n < total <= q * n;
    }
    if q < lo {
      ScaleMonotone(q + 1, lo, n);
    }
    if hi < q {
      ScaleMonotone(hi + 1, q, n);
    }
  }

  /** `MetricsCollector`. The ghost list `requests` is every request recorded
      since creation or the last `Reset`; the counters summarise it. */
  class MetricsCollector {
    var requestCount: int
    var totalLatency: int
    var errorCount: int
    ghost var requests: seq<Request>

    ghost predicate Valid()
      reads this
    {
      && requestCount == |requests|
      && totalLatency == TotalLatency(requests)
      && errorCount == ErrorCount(requests)
      && 0 <= errorCount <= requestCount
    }

    /** `NewMetricsCollector`: every counter starts at zero. */
    constructor ()
      ensures Valid() && requests == []
      ensures requestCount == 0 && totalLatency == 0 && errorCount == 0
    {
      requestCount, totalLatency, errorCount := 0, 0, 0;
      requests := [];
    }

    /** Counts one request, adds its latency, and counts it as an error iff
        `isError`. */
    method RecordRequest(latency: int, isError: bool)
      requires Valid()
      modifies this
      ensures Valid() && requests == old(requests) + [Request(latency, isError)]
      ensures requestCount == old(requestCount) + 1
      ensures totalLatency == old(totalLatency) + latency
      ensures errorCount == old(errorCount) + (if isError then 1 else 0)
    {
      requestCount := requestCount + 1;
      totalLatency := totalLatency + latency;
      if isError {
        errorCount := errorCount + 1;
      }
      requests := requests + [Request(latency, isError)];
      assert requests[..|requests| - 1] == old(requests);
      ErrorCountBounded(requests);
    }

    /** The truncated mean latency of the recorded requests, 0 when there
        are none; reads the counters and changes nothing. */
    method GetAverageLatency() returns (avg: int)
      requires Valid()
      ensures requests == [] ==> avg == 0
      ensures requests != [] ==> avg == Quotient(TotalLatency(requests), |requests|)
    {
      if requestCount == 0 {
        return 0;
      }
      avg := Quotient(totalLatency, requestCount);
    }

    /** Clears all three counters. */
    method Reset()
      requires Valid()
      modifies this
      ensures Valid() && requests == []
      ensures requestCount == 0 && totalLatency == 0 && errorCount == 0
    {
      requestCount, totalLatency, errorCount := 0, 0, 0;
      requests := [];
    }
  }

  /** After `Reset` the average latency is 0 again. */
  method ResetClearsAverage(m: MetricsCollector) returns (avg: int)
    requires m.Valid()
    modifies m
    ensures avg == 0
  {
    m.Reset();
    avg := m.GetAverageLatency();
  }
}
