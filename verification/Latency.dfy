/** The latency ring buffer of the authentication metrics, with its average and percentile. */
module Latency {
  import opened Prelude

  const MAX_LATENCY_SAMPLES := 1000

  datatype Buffer = Buffer(samples: seq<int>, index: nat)

  /** A buffer of a positive capacity. */
  function Record(b: Buffer, ms: int, cap: nat): Buffer
    requires 0 < cap && |b.samples| <= cap
  {
    if |b.samples| < cap then Buffer(b.samples + [ms], b.index + 1)
    else Buffer(b.samples[b.index % cap := ms], b.index + 1)
  }

  /** The buffer after recording a history since the last reset. */
  function After(history: seq<int>, cap: nat): (b: Buffer)
    requires 0 < cap
    ensures |b.samples| <= cap
  {
    if history == [] then Buffer([], 0)
    else Record(After(history[..|history| - 1], cap), history[|history| - 1], cap)
  }

  function LastSamples(history: seq<int>, cap: nat): seq<int> {
    history[Max(0, |history| - cap)..]
  }

  /** The last `cap` samples of a history, stored so that the newest r come first. */
  function Rotated(history: seq<int>, r: nat, cap: nat): (s: seq<int>)
    requires r <= cap <= |history|
    ensures |s| == cap
  {
    var n := |history|;
    history[n - r..] + history[n - cap..n - r]
  }

  lemma RotatedAt(history: seq<int>, r: nat, cap: nat, k: nat)
    requires r <= cap <= |history| && k < cap
    ensures Rotated(history, r, cap)[k] == history[if k < r then |history| - r + k else |history| - cap + k - r]
  {
  }

  lemma Overwrite(history: seq<int>, r: nat, cap: nat)
    requires r < cap < |history|
    ensures var n := |history| - 1;
      Rotated(history[..n], r, cap)[r := history[n]] == Rotated(history, r + 1, cap)
  {
    var n := |history| - 1;
    var s, s' := Rotated(history[..n], r, cap)[r := history[n]], Rotated(history, r + 1, cap);
    forall k | 0 <= k < cap
      ensures s[k] == s'[k]
    {
      RotatedAt(history[..n], r, cap, k);
      RotatedAt(history, r + 1, cap, k);
    }
  }

  lemma ModUnique(x: nat, cap: nat, q: int, r: nat)
    requires x == q * cap + r && r < cap
    ensures x % cap == r
  {
    var p, s := x / cap, x % cap;
    assert x == p * cap + s;
    SameRemainder(cap, p, s, q, r);
  }

  /** The write position moves on by one and wraps around at the capacity. */
  lemma NextPosition(n: nat, cap: nat)
    requires 0 < cap
    ensures (n + 1) % cap == if n % cap + 1 == cap then 0 else n % cap + 1
  {
    var q, r := n / cap, n % cap;
    assert n == q * cap + r;
    if r + 1 == cap {
      assert (q + 1) * cap == q * cap + cap;
      ModUnique(n + 1, cap, q + 1, 0);
    } else {
      ModUnique(n + 1, cap, q, r + 1);
    }
  }

  /** What the samples are after a history: all of it, or its last part rotated at the write position. */
  function Layout(history: seq<int>, cap: nat): seq<int>
    requires 0 < cap
  {
    if |history| < cap then history else Rotated(history, |history| % cap, cap)
  }

  /** A full buffer is the last samples, rotated so that the write position splits new from old. */
  lemma {:induction false} Rotation(history: seq<int>, cap: nat)
    requires 0 < cap
    ensures After(history, cap) == Buffer(Layout(history, cap), |history|)
  {
    if history != [] {
      var n := |history| - 1;
      Rotation(history[..n], cap);
      if n < cap {
        Fills(history, cap);
      } else {
        Wraps(history, cap);
      }
    }
  }

  /** The buffer is not full yet, and this sample may be the one that fills it. */
  lemma Fills(history: seq<int>, cap: nat)
    requires 0 < |history| <= cap
    ensures var n := |history| - 1;
      history[..n] + [history[n]] == Layout(history, cap)
  {
    var n := |history| - 1;
    assert history[..n] + [history[n]] == history;
    if n + 1 == cap {
      ModUnique(cap, cap, 1, 0);
      FullTurn(history, cap);
      assert history[|history| - cap..] == history;
    }
  }

  lemma Wraps(history: seq<int>, cap: nat)
    requires 0 < cap < |history|
    ensures var n := |history| - 1;
      Layout(history[..n], cap)[n % cap := history[n]] == Layout(history, cap)
  {
    var n := |history| - 1;
    var r, r' := n % cap, (n + 1) % cap;
    NextPosition(n, cap);
    assert Layout(history[..n], cap) == Rotated(history[..n], r, cap);
    assert Layout(history, cap) == Rotated(history, r', cap);
    WrapsAt(history, r, r', cap);
  }

  lemma WrapsAt(history: seq<int>, r: nat, r': nat, cap: nat)
    requires r < cap < |history| && r' == if r + 1 == cap then 0 else r + 1
    ensures var n := |history| - 1;
      Rotated(history[..n], r, cap)[r := history[n]] == Rotated(history, r', cap)
  {
    Overwrite(history, r, cap);
    FullTurn(history, cap);
  }

  lemma FullTurn(history: seq<int>, cap: nat)
    requires cap <= |history|
    ensures Rotated(history, 0, cap) == Rotated(history, cap, cap) == history[|history| - cap..]
  {
  }

  lemma RotatedMultiset(history: seq<int>, r: nat, cap: nat)
    requires r <= cap <= |history|
    ensures multiset(Rotated(history, r, cap)) == multiset(history[|history| - cap..])
  {
    var n := |history|;
    assert history[n - cap..] == history[n - cap..n - r] + history[n - r..];
  }

  /** After any number of records the buffer holds, as a multiset, exactly the last of them. */
  lemma HoldsLastSamples(history: seq<int>, cap: nat)
    requires 0 < cap
    ensures var b := After(history, cap);
      && |b.samples| == Min(|history|, cap)
      && multiset(b.samples) == multiset(LastSamples(history, cap))
  {
    Rotation(history, cap);
    var samples := Layout(history, cap);
    if |history| >= cap {
      var r := |history| % cap;
      assert samples == Rotated(history, r, cap);
      RotatedMultiset(history, r, cap);
    } else {
      assert LastSamples(history, cap) == history;
    }
  }

  // ----- Sorting and counting -----

  function Insert(x: int, t: seq<int>): seq<int> {
    if t == [] || x <= t[0] then [x] + t else [t[0]] + Insert(x, t[1..])
  }

  function Sort(s: seq<int>): seq<int> {
    if s == [] then [] else Insert(s[0], Sort(s[1..]))
  }

  ghost predicate Sorted(t: seq<int>) {
    forall i, j :: 0 <= i < j < |t| ==> t[i] <= t[j]
  }

  function CountBelow(s: seq<int>, v: int): nat {
    if s == [] then 0 else (if s[0] < v then 1 else 0) + CountBelow(s[1..], v)
  }

  function CountAtMost(s: seq<int>, v: int): nat {
    if s == [] then 0 else (if s[0] <= v then 1 else 0) + CountAtMost(s[1..], v)
  }

  lemma {:induction false} InsertKeeps(x: int, t: seq<int>)
    ensures multiset(Insert(x, t)) == multiset([x] + t)
  {
    if t != [] && x > t[0] {
      InsertKeeps(x, t[1..]);
      assert [x] + t == [x] + ([t[0]] + t[1..]);
    }
  }

  lemma {:induction false} InsertSorts(x: int, t: seq<int>)
    requires Sorted(t)
    ensures Sorted(Insert(x, t))
  {
    if t != [] && x > t[0] {
      InsertSorts(x, t[1..]);
      InsertKeeps(x, t[1..]);
      var rest := Insert(x, t[1..]);
      forall i | 0 <= i < |rest|
        ensures t[0] <= rest[i]
      {
        assert rest[i] in multiset(rest);
        assert rest[i] in [x] + t[1..];
      }
    }
  }

  lemma {:induction false} InsertCounts(x: int, t: seq<int>, v: int)
    ensures CountBelow(Insert(x, t), v) == CountBelow(t, v) + (if x < v then 1 else 0)
    ensures CountAtMost(Insert(x, t), v) == CountAtMost(t, v) + (if x <= v then 1 else 0)
  {
    if t != [] && x > t[0] {
      InsertCounts(x, t[1..], v);
    } else {
      assert ([x] + t)[1..] == t;
    }
  }

  lemma {:induction false} SortSorts(s: seq<int>, v: int)
    ensures Sorted(Sort(s)) && multiset(Sort(s)) == multiset(s)
    ensures CountBelow(Sort(s), v) == CountBelow(s, v) && CountAtMost(Sort(s), v) == CountAtMost(s, v)
  {
    if s != [] {
      SortSorts(s[1..], v);
      InsertKeeps(s[0], Sort(s[1..]));
      InsertSorts(s[0], Sort(s[1..]));
      InsertCounts(s[0], Sort(s[1..]), v);
      assert s == [s[0]] + s[1..];
    }
  }

  /** In sorted data the k-th smallest has fewer than k values below it and at least k values up to it. */
  lemma {:induction false} RankOf(t: seq<int>, k: nat, v: int)
    requires Sorted(t) && 0 <= k <= |t|
    requires forall i :: 0 <= i < k ==> t[i] <= v
    requires forall i :: k <= i < |t| ==> v <= t[i]
    ensures CountBelow(t, v) <= k <= CountAtMost(t, v)
  {
    if t != [] {
      RankOf(t[1..], if k == 0 then 0 else k - 1, v);
    }
  }

  function Sum(s: seq<int>): int {
    if s == [] then 0 else Sum(s[..|s| - 1]) + s[|s| - 1]
  }

  class AuthMetricsService {
    var latencySamples: seq<int>
    var latencyIndex: nat
    /** Every sample since the last reset. */
    ghost var history: seq<int>

    ghost predicate Valid()
      reads this
    {
      Buffer(latencySamples, latencyIndex) == After(history, MAX_LATENCY_SAMPLES)
    }

    constructor ()
      ensures Valid() && history == []
    {
      latencySamples, latencyIndex, history := [], 0, [];
    }

    method RecordLatency(ms: int)
      requires Valid()
      modifies this
      ensures Valid() && history == old(history) + [ms]
      ensures multiset(latencySamples) == multiset(LastSamples(history, MAX_LATENCY_SAMPLES))
    {
      if |latencySamples| < MAX_LATENCY_SAMPLES {
        latencySamples := latencySamples + [ms];
      } else {
        latencySamples := latencySamples[latencyIndex % MAX_LATENCY_SAMPLES := ms];
      }
      latencyIndex := latencyIndex + 1;
      history := history + [ms];
      assert history[..|history| - 1] == old(history);
      HoldsLastSamples(history, MAX_LATENCY_SAMPLES);
    }

    method Reset()
      modifies this
      ensures Valid() && history == []
    {
      latencySamples, latencyIndex, history := [], 0, [];
    }

    /** Rounded half up: within half a millisecond of the mean. */
    method ComputeAverage() returns (average: int)
      ensures |latencySamples| == 0 ==> average == 0
      ensures var n := |latencySamples|;
        n > 0 ==> 2 * Sum(latencySamples) - n < 2 * n * average <= 2 * Sum(latencySamples) + n
    {
      var n := |latencySamples|;
      if n == 0 {
        return 0;
      }
      var sum := 0;
      for i := 0 to n
        invariant sum == Sum(latencySamples[..i])
      {
        assert latencySamples[..i + 1][..i] == latencySamples[..i];
        sum := sum + latencySamples[i];
      }
      assert latencySamples[..n] == latencySamples;
      average := (2 * sum + n) / (2 * n);
      assert 2 * n * average == 2 * sum + n - (2 * sum + n) % (2 * n);
    }

    /** The smallest sample such that at least pct percent of the samples do not exceed it. */
    method ComputePercentile(pct: nat) returns (v: int)
      requires pct <= 100
      ensures |latencySamples| == 0 ==> v == 0
      ensures var k := Max(1, CeilDiv(pct * |latencySamples|, 100));
        |latencySamples| > 0 ==>
          v in latencySamples && CountBelow(latencySamples, v) < k <= CountAtMost(latencySamples, v)
    {
      var n := |latencySamples|;
      if n == 0 {
        return 0;
      }
      var sorted := Sort(latencySamples);
      SortSorts(latencySamples, 0);
      assert |multiset(sorted)| == |multiset(latencySamples)|;
      var idx := CeilDiv(pct * n, 100) - 1;
      RankInRange(pct, n);
      v := sorted[Max(0, idx)];
      SortSorts(latencySamples, v);
      KthSmallest(latencySamples, sorted, Max(0, idx));
    }
  }

  lemma RankInRange(pct: nat, n: nat)
    requires pct <= 100
    ensures CeilDiv(pct * n, 100) <= n
  {
    assert (100 - pct) * n >= 0;
    assert pct * n + (100 - pct) * n == 100 * n;
  }

  lemma KthSmallest(s: seq<int>, t: seq<int>, k: nat)
    requires Sorted(t) && multiset(t) == multiset(s) && k < |t|
    requires CountBelow(t, t[k]) == CountBelow(s, t[k]) && CountAtMost(t, t[k]) == CountAtMost(s, t[k])
    ensures t[k] in s && CountBelow(s, t[k]) <= k < CountAtMost(s, t[k])
  {
    assert t[k] in multiset(t);
    RankOf(t, k, t[k]);
    RankOf(t, k + 1, t[k]);
  }

  lemma {:induction false} CountsMonotone(s: seq<int>, v: int, u: int)
    requires v < u
    ensures CountAtMost(s, v) <= CountBelow(s, u)
  {
    if s != [] {
      CountsMonotone(s[1..], v, u);
    }
  }

  /** The percentile's two counts pin it down: no other sample satisfies them. */
  lemma PercentileIsUnique(s: seq<int>, k: nat, v: int, u: int)
    requires CountBelow(s, v) < k <= CountAtMost(s, v)
    requires CountBelow(s, u) < k <= CountAtMost(s, u)
    ensures v == u
  {
    if v < u {
      CountsMonotone(s, v, u);
    } else if u < v {
      CountsMonotone(s, u, v);
    }
  }
}
