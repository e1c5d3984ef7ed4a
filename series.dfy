/** Values shared by every indicator: candles, gaps, output points, window sums and the null filter. */
module Series {

  /** A value or a gap. `None` stands for a JavaScript `null`, `undefined` or non-finite number. */
  datatype Option<T> = None | Some(value: T)
  {
    function GetOr(default: T): T
    {
      match this
      case Some(v) => v
      case None => default
    }
  }

  /** One OHLCV bar. A price or volume field is `None` when it is missing or not a finite number. */
  datatype Candle = Candle(time: int, open: Option<real>, high: Option<real>, low: Option<real>,
                           close: Option<real>, volume: Option<real>)

  /** One `{ time, value }` point of an output series. */
  datatype Point = Point(time: int, value: real)

  function Times(data: seq<Candle>): seq<int>
  {
    seq(|data|, i requires 0 <= i < |data| => data[i].time)
  }

  /** The lows of the bars, a missing one read as 0 (callers use it only where lows are present). */
  function Lows(data: seq<Candle>): (v: seq<real>)
    ensures |v| == |data|
  {
    seq(|data|, i requires 0 <= i < |data| => data[i].low.GetOr(0.0))
  }

  /** The highs of the bars, a missing one read as 0 (callers use it only where highs are present). */
  function Highs(data: seq<Candle>): (v: seq<real>)
    ensures |v| == |data|
  {
    seq(|data|, i requires 0 <= i < |data| => data[i].high.GetOr(0.0))
  }

  /** The order the chart feed guarantees: unique, strictly increasing times. */
  predicate Ascending(data: seq<Candle>)
  {
    forall i, j :: 0 <= i < j < |data| ==> data[i].time < data[j].time
  }

  predicate StrictlyIncreasing(ts: seq<int>)
  {
    forall i, j :: 0 <= i < j < |ts| ==> ts[i] < ts[j]
  }

  predicate IncreasingTimes(ps: seq<Point>)
  {
    forall i, j :: 0 <= i < j < |ps| ==> ps[i].time < ps[j].time
  }

  function Max(a: real, b: real): real { if a >= b then a else b }
  function Min(a: real, b: real): real { if a <= b then a else b }
  function Abs(a: real): real { if a >= 0.0 then a else -a }

  /** `Math.max(a, b, c)` */
  function Max3(a: real, b: real, c: real): real { Max(Max(a, b), c) }

  // ---------------------------------------------------------------------------
  // Window arithmetic

  /** v[lo] + ... + v[hi-1] */
  function Sum(v: seq<real>, lo: int, hi: int): real
    requires 0 <= lo <= hi <= |v|
    decreases hi - lo
  {
    if lo == hi then 0.0 else v[lo] + Sum(v, lo + 1, hi)
  }

  /** v[lo] + ... + v[hi-1] where a gap adds 0, as JavaScript's `sum += null` does. */
  function SumOpt(v: seq<Option<real>>, lo: int, hi: int): real
    requires 0 <= lo <= hi <= |v|
    decreases hi - lo
  {
    if lo == hi then 0.0 else v[lo].GetOr(0.0) + SumOpt(v, lo + 1, hi)
  }

  predicate AllSome(v: seq<Option<real>>, lo: int, hi: int)
    requires 0 <= lo <= hi <= |v|
  {
    forall k :: lo <= k < hi ==> v[k].Some?
  }

  /** The number of non-gap values among v[lo..hi]. */
  function CountSome(v: seq<Option<real>>, lo: int, hi: int): nat
    requires 0 <= lo <= hi <= |v|
    decreases hi - lo
  {
    if lo == hi then 0 else (if v[lo].Some? then 1 else 0) + CountSome(v, lo + 1, hi)
  }

  /** The smallest of v[lo..hi] (`Math.min(...window)`). */
  function MinRange(v: seq<real>, lo: int, hi: int): real
    requires 0 <= lo < hi <= |v|
    decreases hi - lo
  {
    if lo + 1 == hi then v[lo] else Min(v[lo], MinRange(v, lo + 1, hi))
  }

  /** The largest of v[lo..hi] (`Math.max(...window)`). */
  function MaxRange(v: seq<real>, lo: int, hi: int): real
    requires 0 <= lo < hi <= |v|
    decreases hi - lo
  {
    if lo + 1 == hi then v[lo] else Max(v[lo], MaxRange(v, lo + 1, hi))
  }

  /**
   * The mean of the `length` values ending at index i, or a gap when the window starts before
   * index 0 or holds a gap: the full-window rule shared by SMA, RSI smoothing and Stochastic %D.
   */
  function WindowMean(v: seq<Option<real>>, length: int, i: int): Option<real>
    requires length >= 1 && 0 <= i < |v|
  {
    if i < length - 1 || !AllSome(v, i - length + 1, i + 1) then None
    else Some(SumOpt(v, i - length + 1, i + 1) / length as real)
  }

  /** The EMA smoothing factor 2 / (length + 1). */
  function Alpha(length: nat): real
  {
    2.0 / (length + 1) as real
  }

  /** One step of Wilder's smoothing: (avg·(length-1) + x) / length. */
  function WilderStep(avg: real, x: real, length: int): real
    requires length >= 1
  {
    (avg * (length - 1) as real + x) / length as real
  }

  /** A Wilder step from and towards values in [a, b] stays in [a, b]. */
  lemma WilderStepBetween(avg: real, x: real, length: int, a: real, b: real)
    requires length >= 1 && a <= avg <= b && a <= x <= b
    ensures a <= WilderStep(avg, x, length) <= b
  {
    var n := length as real;
    assert a * (n - 1.0) <= avg * (n - 1.0) <= b * (n - 1.0);
    assert a * n <= avg * (n - 1.0) + x <= b * n;
  }

  lemma {:induction false} SumSnoc(v: seq<real>, lo: int, hi: int)
    requires 0 <= lo <= hi < |v|
    ensures Sum(v, lo, hi + 1) == Sum(v, lo, hi) + v[hi]
    decreases hi - lo
  {
    if lo < hi {
      SumSnoc(v, lo + 1, hi);
    }
  }

  lemma {:induction false} SumOptSnoc(v: seq<Option<real>>, lo: int, hi: int)
    requires 0 <= lo <= hi < |v|
    ensures SumOpt(v, lo, hi + 1) == SumOpt(v, lo, hi) + v[hi].GetOr(0.0)
    decreases hi - lo
  {
    if lo < hi {
      SumOptSnoc(v, lo + 1, hi);
    }
  }

  lemma {:induction false} CountSomeSnoc(v: seq<Option<real>>, lo: int, hi: int)
    requires 0 <= lo <= hi < |v|
    ensures CountSome(v, lo, hi + 1) == CountSome(v, lo, hi) + (if v[hi].Some? then 1 else 0)
    decreases hi - lo
  {
    if lo < hi {
      CountSomeSnoc(v, lo + 1, hi);
    }
  }

  /** Counting the valid values of a window (`count === length`) is the same as finding no gap in it. */
  lemma {:induction false} CountSomeFull(v: seq<Option<real>>, lo: int, hi: int)
    requires 0 <= lo <= hi <= |v|
    ensures CountSome(v, lo, hi) <= hi - lo
    ensures CountSome(v, lo, hi) == hi - lo <==> AllSome(v, lo, hi)
    decreases hi - lo
  {
    if lo < hi {
      CountSomeFull(v, lo + 1, hi);
    }
  }

  lemma {:induction false} SumNonNegative(v: seq<real>, lo: int, hi: int)
    requires 0 <= lo <= hi <= |v|
    requires forall k :: lo <= k < hi ==> v[k] >= 0.0
    ensures Sum(v, lo, hi) >= 0.0
    decreases hi - lo
  {
    if lo < hi {
      SumNonNegative(v, lo + 1, hi);
    }
  }

  lemma {:induction false} SumOptNonNegative(v: seq<Option<real>>, lo: int, hi: int)
    requires 0 <= lo <= hi <= |v|
    requires forall k :: lo <= k < hi && v[k].Some? ==> v[k].value >= 0.0
    ensures SumOpt(v, lo, hi) >= 0.0
    decreases hi - lo
  {
    if lo < hi {
      SumOptNonNegative(v, lo + 1, hi);
    }
  }

  /** A window whose values all lie in [a, b] sums to between (hi-lo)*a and (hi-lo)*b. */
  lemma {:induction false} SumOptBounds(v: seq<Option<real>>, lo: int, hi: int, a: real, b: real)
    requires 0 <= lo <= hi <= |v|
    requires AllSome(v, lo, hi)
    requires forall k :: lo <= k < hi ==> a <= v[k].value <= b
    ensures (hi - lo) as real * a <= SumOpt(v, lo, hi) <= (hi - lo) as real * b
    decreases hi - lo
  {
    if lo < hi {
      SumOptBounds(v, lo + 1, hi, a, b);
    }
  }

  lemma {:induction false} MinMaxRangeBound(v: seq<real>, lo: int, hi: int, k: int)
    requires 0 <= lo <= k < hi <= |v|
    ensures MinRange(v, lo, hi) <= v[k] <= MaxRange(v, lo, hi)
    decreases hi - lo
  {
    if k > lo {
      MinMaxRangeBound(v, lo + 1, hi, k);
    }
  }

  /** The minimum of a window is one of its values. */
  lemma {:induction false} MinRangeAttained(v: seq<real>, lo: int, hi: int) returns (k: int)
    requires 0 <= lo < hi <= |v|
    ensures lo <= k < hi && v[k] == MinRange(v, lo, hi)
    decreases hi - lo
  {
    if lo + 1 == hi {
      k := lo;
    } else {
      var k' := MinRangeAttained(v, lo + 1, hi);
      k := if v[lo] <= v[k'] then lo else k';
    }
  }

  /** The maximum of a window is one of its values. */
  lemma {:induction false} MaxRangeAttained(v: seq<real>, lo: int, hi: int) returns (k: int)
    requires 0 <= lo < hi <= |v|
    ensures lo <= k < hi && v[k] == MaxRange(v, lo, hi)
    decreases hi - lo
  {
    if lo + 1 == hi {
      k := lo;
    } else {
      var k' := MaxRangeAttained(v, lo + 1, hi);
      k := if v[lo] >= v[k'] then lo else k';
    }
  }

  /** A full window of values in [a, b] has its mean in [a, b]. */
  lemma WindowMeanBounds(v: seq<Option<real>>, length: int, i: int, a: real, b: real)
    requires length >= 1 && 0 <= i < |v|
    requires forall k :: 0 <= k < |v| && v[k].Some? ==> a <= v[k].value <= b
    ensures WindowMean(v, length, i).Some? ==> a <= WindowMean(v, length, i).value <= b
  {
    if WindowMean(v, length, i).Some? {
      var lo := i - length + 1;
      SumOptBounds(v, lo, i + 1, a, b);
      var s := SumOpt(v, lo, i + 1);
      var n := length as real;
      assert n * a <= s <= n * b;
      assert s / n >= a by { assert s >= n * a; }
      assert s / n <= b by { assert s <= n * b; }
    }
  }

  /** The product of two non-negative reals is non-negative. */
  lemma ProductNonNegative(x: real, y: real)
    requires x >= 0.0 && y >= 0.0
    ensures x * y >= 0.0
  {
  }

  lemma CancelFactor(n: real, c: real)
    requires n != 0.0
    ensures (n * c) / n == c
  {
  }

  /** A full window of one constant value c has mean c. */
  lemma {:induction false} SumOptConstant(v: seq<Option<real>>, lo: int, hi: int, c: real)
    requires 0 <= lo <= hi <= |v|
    requires forall k :: lo <= k < hi ==> v[k] == Some(c)
    ensures SumOpt(v, lo, hi) == (hi - lo) as real * c
    decreases hi - lo
  {
    if lo < hi {
      SumOptConstant(v, lo + 1, hi, c);
    }
  }

  // ---------------------------------------------------------------------------
  // The null filter: `arr.filter(v => v.value !== null)` over a raw series

  /** The present points among the first k entries of a raw series, in index order. */
  function CompactUpTo(ts: seq<int>, vs: seq<Option<real>>, k: int): seq<Point>
    requires |ts| == |vs| && 0 <= k <= |vs|
  {
    if k == 0 then []
    else CompactUpTo(ts, vs, k - 1) + (if vs[k - 1].Some? then [Point(ts[k - 1], vs[k - 1].value)] else [])
  }

  /** A raw series with its gaps removed, keeping order and times. */
  function Compact(ts: seq<int>, vs: seq<Option<real>>): seq<Point>
    requires |ts| == |vs|
  {
    CompactUpTo(ts, vs, |vs|)
  }

  /** Every output point is a present raw value at its own index's time, and every present raw value is output. */
  lemma {:induction false} CompactUpToMembers(ts: seq<int>, vs: seq<Option<real>>, k: int, p: Point)
    requires |ts| == |vs| && 0 <= k <= |vs|
    ensures p in CompactUpTo(ts, vs, k) <==> exists i :: 0 <= i < k && vs[i] == Some(p.value) && ts[i] == p.time
  {
    if k > 0 {
      CompactUpToMembers(ts, vs, k - 1, p);
    }
  }

  lemma CompactMembers(ts: seq<int>, vs: seq<Option<real>>, p: Point)
    requires |ts| == |vs|
    ensures p in Compact(ts, vs) <==> exists i :: 0 <= i < |vs| && vs[i] == Some(p.value) && ts[i] == p.time
  {
    CompactUpToMembers(ts, vs, |vs|, p);
  }

  lemma {:induction false} CompactUpToIncreasing(ts: seq<int>, vs: seq<Option<real>>, k: int)
    requires |ts| == |vs| && 0 <= k <= |vs|
    requires StrictlyIncreasing(ts)
    ensures IncreasingTimes(CompactUpTo(ts, vs, k))
    ensures forall p :: p in CompactUpTo(ts, vs, k) ==> k == |vs| || p.time < ts[k]
  {
    if k > 0 {
      CompactUpToIncreasing(ts, vs, k - 1);
      forall p | p in CompactUpTo(ts, vs, k)
        ensures k == |vs| || p.time < ts[k]
      {
        CompactUpToMembers(ts, vs, k, p);
      }
    }
  }

  /** Removing gaps from a series over strictly increasing times leaves strictly increasing times. */
  lemma CompactIncreasing(ts: seq<int>, vs: seq<Option<real>>)
    requires |ts| == |vs|
    requires StrictlyIncreasing(ts)
    ensures IncreasingTimes(Compact(ts, vs))
  {
    CompactUpToIncreasing(ts, vs, |vs|);
  }

  lemma {:induction false} CompactUpToCount(ts: seq<int>, vs: seq<Option<real>>, k: int)
    requires |ts| == |vs| && 0 <= k <= |vs|
    ensures |CompactUpTo(ts, vs, k)| == CountSome(vs, 0, k)
  {
    if k > 0 {
      CompactUpToCount(ts, vs, k - 1);
      CountSomeSnoc(vs, 0, k - 1);
    }
  }

  /** The filtered series holds exactly one point per present raw value. */
  lemma CompactCount(ts: seq<int>, vs: seq<Option<real>>)
    requires |ts| == |vs|
    ensures |Compact(ts, vs)| == CountSome(vs, 0, |vs|)
  {
    CompactUpToCount(ts, vs, |vs|);
  }

  lemma {:induction false} CompactUpToSuffix(ts: seq<int>, vs: seq<Option<real>>, m: int, k: int)
    requires |ts| == |vs| && 0 <= m <= k <= |vs|
    requires forall i :: 0 <= i < |vs| ==> (vs[i].Some? <==> i >= m)
    ensures |CompactUpTo(ts, vs, k)| == k - m
    ensures forall j :: 0 <= j < k - m ==> CompactUpTo(ts, vs, k)[j] == Point(ts[m + j], vs[m + j].value)
  {
    if k > m {
      CompactUpToSuffix(ts, vs, m, k - 1);
    } else if k > 0 {
      CompactUpToNone(ts, vs, k);
    }
  }

  lemma {:induction false} CompactUpToNone(ts: seq<int>, vs: seq<Option<real>>, k: int)
    requires |ts| == |vs| && 0 <= k <= |vs|
    requires forall i :: 0 <= i < k ==> vs[i].None?
    ensures CompactUpTo(ts, vs, k) == []
  {
    if k > 0 {
      CompactUpToNone(ts, vs, k - 1);
    }
  }

  /**
   * A raw series that is a gap exactly before index m filters to the n - m points at indices m..n-1,
   * in order and with their own times.
   */
  lemma CompactSuffix(ts: seq<int>, vs: seq<Option<real>>, m: int)
    requires |ts| == |vs| && 0 <= m <= |vs|
    requires forall i :: 0 <= i < |vs| ==> (vs[i].Some? <==> i >= m)
    ensures |Compact(ts, vs)| == |vs| - m
    ensures forall j :: 0 <= j < |vs| - m ==> Compact(ts, vs)[j] == Point(ts[m + j], vs[m + j].value)
  {
    CompactUpToSuffix(ts, vs, m, |vs|);
  }

  /** Bounds that hold of every present raw value hold of every filtered point. */
  lemma CompactBounded(ts: seq<int>, vs: seq<Option<real>>, a: real, b: real)
    requires |ts| == |vs|
    requires forall i :: 0 <= i < |vs| && vs[i].Some? ==> a <= vs[i].value <= b
    ensures forall p :: p in Compact(ts, vs) ==> a <= p.value <= b
  {
    forall p | p in Compact(ts, vs)
      ensures a <= p.value <= b
    {
      CompactMembers(ts, vs, p);
    }
  }

  lemma {:induction false} CompactUpToSamePattern(ts: seq<int>, a: seq<Option<real>>, b: seq<Option<real>>, k: int)
    requires |ts| == |a| == |b| && 0 <= k <= |a|
    requires forall i :: 0 <= i < |a| ==> (a[i].Some? <==> b[i].Some?)
    ensures |CompactUpTo(ts, a, k)| == |CompactUpTo(ts, b, k)|
    ensures forall j :: 0 <= j < |CompactUpTo(ts, a, k)| ==> CompactUpTo(ts, a, k)[j].time == CompactUpTo(ts, b, k)[j].time
  {
    if k > 0 {
      CompactUpToSamePattern(ts, a, b, k - 1);
    }
  }

  /** Two raw series with gaps at the same indices filter to series of equal length with the same times. */
  lemma CompactSamePattern(ts: seq<int>, a: seq<Option<real>>, b: seq<Option<real>>)
    requires |ts| == |a| == |b|
    requires forall i :: 0 <= i < |a| ==> (a[i].Some? <==> b[i].Some?)
    ensures |Compact(ts, a)| == |Compact(ts, b)|
    ensures forall j :: 0 <= j < |Compact(ts, a)| ==> Compact(ts, a)[j].time == Compact(ts, b)[j].time
  {
    CompactUpToSamePattern(ts, a, b, |a|);
  }
}
