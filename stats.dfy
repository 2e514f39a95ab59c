/** The arithmetic of the repeated-run statistics: the running maximum, the
    running minimum with 0 as its "unset" marker, the sum, Go's truncating
    division, the mean and the median taken at fixed indices. */
module Stats {
  import opened Outcomes

  /** Four durations describing one phase, or the two phases together. */
  datatype RunStats = RunStats(min: int, max: int, median: int, mean: int)

  /** The zero value of `RunStats`, returned for a day that did not run. */
  const NoStats := RunStats(0, 0, 0, 0)

  /** The ordering every summary of observed times should have. */
  predicate Ordered(s: RunStats) {
    s.min <= s.median <= s.max && s.min <= s.mean <= s.max
  }

  /** Go's integer `/` for a positive divisor: the quotient rounded toward zero. */
  function GoDiv(a: int, b: int): (q: int)
    requires b > 0
    ensures 0 <= a ==> b * q <= a < b * q + b
    ensures a < 0 ==> b * q - b < a <= b * q
  {
    if a >= 0 then a / b else -((-a) / b)
  }

  /** One step of the running maximum, which starts at 0. */
  function StepMax(m: int, t: int): int {
    if t > m then t else m
  }

  /** One step of the running minimum: 0 means "unset", so a 0 is always replaced. */
  function StepMin(m: int, t: int): int {
    if m == 0 || t < m then t else m
  }

  /** The running maximum after all of `ts`, starting from 0. */
  function MaxFold(ts: seq<int>): int {
    if ts == [] then 0 else StepMax(MaxFold(ts[..|ts| - 1]), ts[|ts| - 1])
  }

  /** The running minimum after all of `ts`, starting from `init`. */
  function MinFold(init: int, ts: seq<int>): int {
    if ts == [] then init else StepMin(MinFold(init, ts[..|ts| - 1]), ts[|ts| - 1])
  }

  /** The minimum as the runner computes it: the running minimum from "unset". */
  function SentinelMin(ts: seq<int>): int {
    MinFold(0, ts)
  }

  function Sum(ts: seq<int>): int {
    if ts == [] then 0 else Sum(ts[..|ts| - 1]) + ts[|ts| - 1]
  }

  /** The truncated mean. */
  function Mean(ts: seq<int>): int
    requires |ts| > 0
  {
    GoDiv(Sum(ts), |ts|)
  }

  /** The median of an already ordered sequence as the runner takes it: the
      element at index n/2 for odd n, and for even n the truncated average of
      the elements at n/2 and n/2+1, which does not exist when n is 2. */
  function Median(s: seq<int>): (r: Outcome<int>)
    requires |s| > 0
    ensures r.Panic? <==> |s| == 2
    ensures r.Panic? ==> r.reason == MedianIndexOutOfRange
    ensures |s| % 2 == 1 ==> r == Done(s[|s| / 2])
  {
    var n := |s|;
    if n % 2 == 1 then Done(s[n / 2])
    else if n / 2 + 1 < n then Done(GoDiv(s[n / 2] + s[n / 2 + 1], 2))
    else Panic(MedianIndexOutOfRange)
  }

  /** Totals add each kind of statistic separately. */
  function Combine(p1: RunStats, p2: RunStats): RunStats {
    RunStats(p1.min + p2.min, p1.max + p2.max, p1.median + p2.median, p1.mean + p2.mean)
  }

  /** Extending the times by one more run advances each fold by one step. */
  lemma FoldsStep(ts: seq<int>, t: int)
    ensures MaxFold(ts + [t]) == StepMax(MaxFold(ts), t)
    ensures SentinelMin(ts + [t]) == StepMin(SentinelMin(ts), t)
    ensures Sum(ts + [t]) == Sum(ts) + t
  {
    assert (ts + [t])[..|ts|] == ts;
  }

  /** The running maximum bounds every element; it is one of them, or the
      initial 0; and when all elements are non-negative it is attained. */
  lemma {:induction false} MaxFoldIsMax(ts: seq<int>)
    ensures forall i :: 0 <= i < |ts| ==> ts[i] <= MaxFold(ts)
    ensures MaxFold(ts) == 0 || MaxFold(ts) in ts
    ensures 0 <= MaxFold(ts)
    ensures |ts| > 0 && (forall i :: 0 <= i < |ts| ==> 0 <= ts[i]) ==> MaxFold(ts) in ts
  {
    if ts != [] {
      var init := ts[..|ts| - 1];
      MaxFoldIsMax(init);
      assert forall i :: 0 <= i < |init| ==> init[i] == ts[i];
      assert ts == init + [ts[|ts| - 1]];
      if |ts| > 0 && (forall i :: 0 <= i < |ts| ==> 0 <= ts[i]) && MaxFold(ts) == 0 {
        assert ts[0] <= 0;
      }
    }
  }

  /** Provided no element is 0, the sentinel minimum is the true minimum. */
  lemma {:induction false} SentinelMinIsMin(ts: seq<int>)
    requires forall i :: 0 <= i < |ts| ==> ts[i] != 0
    ensures |ts| > 0 ==> SentinelMin(ts) in ts
    ensures forall i :: 0 <= i < |ts| ==> SentinelMin(ts) <= ts[i]
  {
    if ts != [] {
      var init := ts[..|ts| - 1];
      assert forall i :: 0 <= i < |init| ==> init[i] == ts[i];
      SentinelMinIsMin(init);
      assert SentinelMin(ts) == StepMin(SentinelMin(init), ts[|ts| - 1]);
      if init != [] {
        assert SentinelMin(init) in ts;
      }
    }
  }

  /** The running minimum over a concatenation continues from the running
      minimum over the first part. */
  lemma {:induction false} MinFoldAppend(m: int, a: seq<int>, b: seq<int>)
    ensures MinFold(m, a + b) == MinFold(MinFold(m, a), b)
  {
    if b == [] {
      assert a + b == a;
    } else {
      var b' := b[..|b| - 1];
      MinFoldAppend(m, a, b');
      assert (a + b)[..|a + b| - 1] == a + b';
    }
  }

  /** Over non-negative times the running minimum from a non-negative start
      stays non-negative. */
  lemma {:induction false} MinFoldNonNegative(m: int, ts: seq<int>)
    requires 0 <= m
    requires forall i :: 0 <= i < |ts| ==> 0 <= ts[i]
    ensures 0 <= MinFold(m, ts)
  {
    if ts != [] {
      var init := ts[..|ts| - 1];
      assert forall i :: 0 <= i < |init| ==> init[i] == ts[i];
      MinFoldNonNegative(m, init);
    }
  }

  /** Over non-negative times, a 0 resets the minimum to "unset": whatever
      came before it, the result is the minimum of what follows it alone. */
  lemma ZeroResetsMin(before: seq<int>, after: seq<int>)
    requires forall i :: 0 <= i < |before| ==> 0 <= before[i]
    ensures SentinelMin(before + [0] + after) == SentinelMin(after)
  {
    MinFoldNonNegative(0, before);
    MinFoldAppend(0, before, [0]);
    assert MinFold(0, [0]) == 0;
    MinFoldAppend(MinFold(0, before), [], [0]);
    assert MinFold(0, before + [0]) == 0 by {
      assert (before + [0])[..|before|] == before;
    }
    MinFoldAppend(0, before + [0], after);
  }

  /** Bounds on every element bound the sum. */
  lemma {:induction false} SumBounds(ts: seq<int>, lo: int, hi: int)
    requires forall i :: 0 <= i < |ts| ==> lo <= ts[i] <= hi
    ensures |ts| * lo <= Sum(ts) <= |ts| * hi
  {
    if ts != [] {
      var init := ts[..|ts| - 1];
      assert forall i :: 0 <= i < |init| ==> init[i] == ts[i];
      SumBounds(init, lo, hi);
      assert |ts| * lo == |init| * lo + lo;
      assert |ts| * hi == |init| * hi + hi;
    }
  }

  /** A truncated quotient stays within the bounds the dividend obeys. */
  lemma DivBounds(s: int, n: int, lo: int, hi: int)
    requires n > 0
    requires n * lo <= s <= n * hi
    ensures lo <= GoDiv(s, n) <= hi
  {
    var q := GoDiv(s, n);
    if q < lo {
      MulMonotone(n, q, lo - 1);
      assert false;
    }
    if q > hi {
      MulMonotone(n, hi + 1, q);
      assert false;
    }
  }

  lemma MulMonotone(n: int, a: int, b: int)
    requires n > 0 && a <= b
    ensures n * a <= n * b
  {
    assert n * b - n * a == n * (b - a);
  }

  /** The truncated mean lies within any bounds of the times. */
  lemma MeanWithin(ts: seq<int>, lo: int, hi: int)
    requires |ts| > 0
    requires forall i :: 0 <= i < |ts| ==> lo <= ts[i] <= hi
    ensures lo <= Mean(ts) <= hi
  {
    SumBounds(ts, lo, hi);
    DivBounds(Sum(ts), |ts|, lo, hi);
  }

  /** The median, when there is one, lies within any bounds of the elements. */
  lemma MedianWithin(s: seq<int>, lo: int, hi: int)
    requires |s| > 0
    requires forall i :: 0 <= i < |s| ==> lo <= s[i] <= hi
    requires Median(s).Done?
    ensures lo <= Median(s).value <= hi
  {
    var n := |s|;
    if n % 2 == 0 {
      DivBounds(s[n / 2] + s[n / 2 + 1], 2, lo, hi);
    }
  }

  /** Adding two ordered summaries kind by kind gives an ordered summary. */
  lemma CombineOrdered(p1: RunStats, p2: RunStats)
    requires Ordered(p1) && Ordered(p2)
    ensures Ordered(Combine(p1, p2))
  {
  }

  /** Because zero marks an unset minimum, a zero time makes the next time
      the minimum again: times 5, 0, 3 give minimum 3 above the mean 2. */
  lemma ZeroTimeLiftsMinAboveMean()
    ensures SentinelMin([5, 0, 3]) == 3 && Mean([5, 0, 3]) == 2
  {
    ZeroResetsMin([5], [3]);
    assert [5] + [0] + [3] == [5, 0, 3];
    assert Sum([5, 0, 3]) == 8 by {
      assert [5, 0, 3][..2] == [5, 0];
      assert [5, 0][..1] == [5];
    }
  }
}
