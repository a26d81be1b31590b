/** In-memory request metrics of the HTTP API: a bounded latency window and running counters. */
module RequestMetrics {
  import opened Sorting

  datatype Sample = Sample(latency: int, tokens: int, cached: bool, ok: bool)

  datatype Snapshot = Snapshot(requests: nat, errors: nat, p50: int, p95: int, tokens: int, hits: nat, misses: nat)

  function LastOf(s: seq<int>, n: nat): seq<int> {
    if |s| <= n then s else s[|s| - n..]
  }

  function Latencies(log: seq<Sample>): seq<int> {
    seq(|log|, i requires 0 <= i < |log| => log[i].latency)
  }

  function TokenSum(log: seq<Sample>): int {
    if log == [] then 0 else TokenSum(log[..|log| - 1]) + log[|log| - 1].tokens
  }

  function CachedCount(log: seq<Sample>): nat {
    if log == [] then 0 else CachedCount(log[..|log| - 1]) + if log[|log| - 1].cached then 1 else 0
  }

  function ErrorCount(log: seq<Sample>): nat {
    if log == [] then 0 else ErrorCount(log[..|log| - 1]) + if log[|log| - 1].ok then 0 else 1
  }

  lemma TotalsStep(log: seq<Sample>, s: Sample, n: nat)
    ensures TokenSum(log + [s]) == TokenSum(log) + s.tokens
    ensures CachedCount(log + [s]) == CachedCount(log) + if s.cached then 1 else 0
    ensures ErrorCount(log + [s]) == ErrorCount(log) + if s.ok then 0 else 1
    ensures LastOf(Latencies(log + [s]), n) == LastOf(LastOf(Latencies(log), n) + [s.latency], n)
  {
    assert (log + [s])[..|log|] == log;
    assert Latencies(log + [s]) == Latencies(log) + [s.latency];
  }

  function Ascending(): (int, int) -> bool { (a, b) => a <= b }

  function CountUpTo(s: seq<int>, bound: int): nat {
    if s == [] then 0 else CountUpTo(s[1..], bound) + if s[0] <= bound then 1 else 0
  }

  lemma {:induction false} CountUpToInsert(x: int, s: seq<int>, bound: int)
    ensures CountUpTo(Insert(x, s, Ascending()), bound) == CountUpTo(s, bound) + if x <= bound then 1 else 0
  {
    if s == [] || x <= s[0] {
      assert ([x] + s)[1..] == s;
    } else {
      CountUpToInsert(x, s[1..], bound);
      var r := Insert(x, s[1..], Ascending());
      assert ([s[0]] + r)[1..] == r;
    }
  }

  lemma {:induction false} CountUpToSort(s: seq<int>, bound: int)
    ensures CountUpTo(Sort(s, Ascending()), bound) == CountUpTo(s, bound)
  {
    if s == [] {
    } else {
      CountUpToSort(s[1..], bound);
      CountUpToInsert(s[0], Sort(s[1..], Ascending()), bound);
    }
  }

  lemma {:induction false} CountUpToPrefix(s: seq<int>, k: nat, bound: int)
    requires k <= |s| && forall i | 0 <= i < k :: s[i] <= bound
    ensures k <= CountUpTo(s, bound)
  {
    if k == 0 {
    } else {
      CountUpToPrefix(s[1..], k - 1, bound);
    }
  }

  lemma SortAscends(window: seq<int>)
    ensures
      var sorted := Sort(window, Ascending());
      forall i, j | 0 <= i <= j < |sorted| :: sorted[i] <= sorted[j]
  {
    hide Sort;
    var sorted := Sort(window, Ascending());
    SortSorts(window, Ascending());
    forall i, j | 0 <= i < j < |sorted| ensures sorted[i] <= sorted[j] {
      assert Ascending()(sorted[i], sorted[j]);
    }
  }

  /** The elements at two ranks of the sorted window, and how much of the window they bound. */
  lemma RankInWindow(window: seq<int>, mid: nat, high: nat)
    requires mid <= high < |Sort(window, Ascending())|
    ensures
      var sorted := Sort(window, Ascending());
      && sorted[mid] in window && sorted[high] in window && sorted[mid] <= sorted[high]
      && CountUpTo(window, sorted[mid]) > mid && CountUpTo(window, sorted[high]) > high
  {
    hide Sort, CountUpTo;
    var sorted := Sort(window, Ascending());
    SortPermutes(window, Ascending());
    MembersAgree(sorted, window);
    SortAscends(window);
    CountUpToPrefix(sorted, high + 1, sorted[high]);
    CountUpToPrefix(sorted, mid + 1, sorted[mid]);
    CountUpToSort(window, sorted[high]);
    CountUpToSort(window, sorted[mid]);
  }

  class Metrics {
    const maxSamples: nat
    var latencies: seq<int>
    var tokensTotal: int
    var requests: nat
    var cacheHits: nat
    var cacheMisses: nat
    var errors: nat
    ghost var log: seq<Sample>

    ghost predicate Valid()
      reads this
    {
      && latencies == LastOf(Latencies(log), maxSamples)
      && tokensTotal == TokenSum(log)
      && requests == |log| == cacheHits + cacheMisses
      && cacheHits == CachedCount(log)
      && errors == ErrorCount(log)
      && errors <= requests
    }

    constructor (samples: nat := 500)
      ensures Valid() && maxSamples == samples && log == []
    {
      maxSamples := samples;
      latencies, tokensTotal, requests, cacheHits, cacheMisses, errors := [], 0, 0, 0, 0, 0;
      log := [];
    }

    method Record(s: Sample)
      requires Valid()
      modifies this
      ensures Valid() && log == old(log) + [s]
    {
      latencies := LastOf(latencies + [s.latency], maxSamples);
      tokensTotal := tokensTotal + s.tokens;
      requests := requests + 1;
      if s.cached {
        cacheHits := cacheHits + 1;
      } else {
        cacheMisses := cacheMisses + 1;
      }
      if !s.ok {
        errors := errors + 1;
      }
      TotalsStep(log, s, maxSamples);
      log := log + [s];
    }

    /** The percentiles come from a sorted copy of the window; nothing changes. */
    method TakeSnapshot() returns (r: Snapshot)
      requires Valid()
      ensures r.requests == |log| && r.errors <= r.requests && r.hits + r.misses == r.requests
      ensures r.errors == ErrorCount(log) && r.tokens == TokenSum(log)
      ensures r.hits == CachedCount(log)
      ensures
        var window := LastOf(Latencies(log), maxSamples);
        if window == [] then r.p50 == r.p95 == 0
        else
          && r.p50 in window && r.p95 in window && r.p50 <= r.p95
          && 100 * CountUpTo(window, r.p95) >= 95 * |window|
          && 100 * CountUpTo(window, r.p50) >= 50 * |window|
    {
      var sorted := Sort(latencies, Ascending());
      var total := |sorted|;
      SortPermutes(latencies, Ascending());
      var p50, p95 := 0, 0;
      if total != 0 {
        var mid, high := total / 2, total * 95 / 100;
        high := if high <= total - 1 then high else total - 1;
        p50, p95 := sorted[mid], sorted[high];
        RankInWindow(latencies, mid, high);
      }
      r := Snapshot(requests, errors, p50, p95, tokensTotal, cacheHits, cacheMisses);
    }
  }
}
