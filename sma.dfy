/** Simple moving average (`computeSMA`, sma.js). */
module Sma {
  import opened Series
  import opened Sources

  /** The candidate SMA at every index: the mean of a full window of `length` source values, else a gap. */
  function SmaRaw(data: seq<Candle>, length: int, src: Source): (raw: seq<Option<real>>)
    requires length >= 1
    ensures |raw| == |data|
  {
    var sv := SourceValues(data, src, length);
    seq(|data|, i requires 0 <= i < |data| => WindowMean(sv, length, i))
  }

  /** The first k points after the "double insurance" pass: a point is kept only if its time exceeds the last kept time. */
  function KeepIncreasingUpTo(ps: seq<Point>, k: int): seq<Point>
    requires 0 <= k <= |ps|
  {
    if k == 0 then []
    else
      var r := KeepIncreasingUpTo(ps, k - 1);
      if r == [] || ps[k - 1].time > r[|r| - 1].time then r + [ps[k - 1]] else r
  }

  function KeepIncreasing(ps: seq<Point>): seq<Point>
  {
    KeepIncreasingUpTo(ps, |ps|)
  }

  /** What `computeSMA(data, length, source)` returns. */
  function SmaSeries(data: seq<Candle>, length: int, source: string): seq<Point>
    requires length >= 1
  {
    if |data| < length then []
    else KeepIncreasing(Compact(Times(data), SmaRaw(data, length, ParseSource(source))))
  }

  /** `computeSMA`: the windowed mean over the extracted source values, then the strictly-increasing-time pass. */
  method ComputeSMA(data: seq<Candle>, length: int, source: string) returns (result: seq<Point>)
    requires length >= 1
    ensures result == SmaSeries(data, length, source)
  {
    if |data| < length {
      return [];
    }
    var src := ParseSource(source);
    var sourceValues: seq<Option<real>> := [];
    for i := 0 to |data|
      invariant |sourceValues| == i
      invariant forall k :: 0 <= k < i ==> sourceValues[k] == SourceValue(data, src, k, length)
    {
      var v := GetSourceValue(data, src, i, length);
      sourceValues := sourceValues + [v];
    }
    assert sourceValues == SourceValues(data, src, length);

    ghost var raw := SmaRaw(data, length, src);
    var sma: seq<Point> := [];
    for i := 0 to |data|
      invariant sma == CompactUpTo(Times(data), raw, i)
    {
      if i < length - 1 {
        continue;
      }
      var validWindow, sum := WindowSum(sourceValues, length, i);
      // an average of finite values is finite and every candle has a time, so the source's final check passes
      if validWindow {
        sma := sma + [Point(data[i].time, sum / length as real)];
      }
    }

    result := [];
    var lastTime: Option<int> := None;  // None stands for the initial -Infinity
    for k := 0 to |sma|
      invariant result == KeepIncreasingUpTo(sma, k)
      invariant lastTime == if result == [] then None else Some(result[|result| - 1].time)
    {
      var point := sma[k];
      if lastTime.None? || point.time > lastTime.value {
        result := result + [point];
        lastTime := Some(point.time);
      }
    }
  }

  /** The inner loop of `computeSMA`: the sum of the window of `length` values ending at i, stopping at the first gap. */
  method WindowSum(sourceValues: seq<Option<real>>, length: int, i: int) returns (validWindow: bool, sum: real)
    requires 1 <= length && length - 1 <= i < |sourceValues|
    ensures validWindow <==> AllSome(sourceValues, i - length + 1, i + 1)
    ensures validWindow ==> sum == SumOpt(sourceValues, i - length + 1, i + 1)
  {
    sum := 0.0;
    validWindow := true;
    var j := 0;
    while j < length
      invariant 0 <= j <= length
      invariant validWindow
      invariant AllSome(sourceValues, i - j + 1, i + 1)
      invariant sum == SumOpt(sourceValues, i - j + 1, i + 1)
    {
      var val := sourceValues[i - j];
      if val.None? {
        validWindow := false;
        break;
      }
      sum := sum + val.value;
      j := j + 1;
    }
  }

  /** `idx` lists strictly increasing positions of `ys` at which the elements of `xs` occur, in order. */
  ghost predicate SubsequenceAt(xs: seq<Point>, ys: seq<Point>, idx: seq<int>)
  {
    |idx| == |xs| &&
    (forall j :: 0 <= j < |idx| ==> 0 <= idx[j] < |ys| && xs[j] == ys[idx[j]]) &&
    (forall j1, j2 :: 0 <= j1 < j2 < |idx| ==> idx[j1] < idx[j2])
  }

  /** The strictly-increasing-time pass keeps a subsequence of its input, and its output times strictly increase. */
  lemma {:induction false} KeepIncreasingUpToSpec(ps: seq<Point>, k: int) returns (idx: seq<int>)
    requires 0 <= k <= |ps|
    ensures SubsequenceAt(KeepIncreasingUpTo(ps, k), ps, idx)
    ensures forall j :: 0 <= j < |idx| ==> idx[j] < k
    ensures IncreasingTimes(KeepIncreasingUpTo(ps, k))
  {
    if k == 0 {
      idx := [];
    } else {
      var prior := KeepIncreasingUpToSpec(ps, k - 1);
      var r := KeepIncreasingUpTo(ps, k - 1);
      if r == [] || ps[k - 1].time > r[|r| - 1].time {
        assert KeepIncreasingUpTo(ps, k) == r + [ps[k - 1]];
        SnocIncreasing(r, ps[k - 1]);
        idx := prior + [k - 1];
        SnocSubsequence(r, ps, prior, k - 1);
      } else {
        assert KeepIncreasingUpTo(ps, k) == r;
        idx := prior;
      }
    }
  }

  /** Appending a point later than the last keeps times strictly increasing. */
  lemma SnocIncreasing(r: seq<Point>, p: Point)
    requires IncreasingTimes(r)
    requires r == [] || p.time > r[|r| - 1].time
    ensures IncreasingTimes(r + [p])
  {
    var s := r + [p];
    forall i, j | 0 <= i < j < |s|
      ensures s[i].time < s[j].time
    {
      if j < |r| {
        assert s[i] == r[i] && s[j] == r[j];
      } else if i < |r| - 1 {
        assert r[i].time < r[|r| - 1].time;
      }
    }
  }

  /** Extending a subsequence by a later position of ys extends its index list. */
  lemma SnocSubsequence(xs: seq<Point>, ys: seq<Point>, idx: seq<int>, n: int)
    requires SubsequenceAt(xs, ys, idx) && 0 <= n < |ys|
    requires forall j :: 0 <= j < |idx| ==> idx[j] < n
    ensures SubsequenceAt(xs + [ys[n]], ys, idx + [n])
  {
    var xs', idx' := xs + [ys[n]], idx + [n];
    forall j | 0 <= j < |idx'|
      ensures 0 <= idx'[j] < |ys| && xs'[j] == ys[idx'[j]]
    {
      if j < |idx| {
        assert xs'[j] == xs[j] && idx'[j] == idx[j];
      }
    }
  }

  lemma KeepIncreasingSpec(ps: seq<Point>) returns (idx: seq<int>)
    ensures SubsequenceAt(KeepIncreasing(ps), ps, idx)
    ensures IncreasingTimes(KeepIncreasing(ps))
  {
    idx := KeepIncreasingUpToSpec(ps, |ps|);
  }

  /** On input whose times already strictly increase, the pass changes nothing. */
  lemma {:induction false} KeepIncreasingUpToIdentity(ps: seq<Point>, k: int)
    requires 0 <= k <= |ps|
    requires IncreasingTimes(ps)
    ensures KeepIncreasingUpTo(ps, k) == ps[..k]
  {
    if k > 0 {
      KeepIncreasingUpToIdentity(ps, k - 1);
    }
  }

  /** p is the SMA of the full window of `length` source values ending at index i, placed at that candle's time. */
  ghost predicate FullWindowPoint(data: seq<Candle>, length: int, src: Source, i: int, p: Point)
    requires length >= 1
  {
    length - 1 <= i < |data| && data[i].time == p.time &&
    var sv := SourceValues(data, src, length);
    AllSome(sv, i - length + 1, i + 1) && p.value == SumOpt(sv, i - length + 1, i + 1) / length as real
  }

  /**
   * Every SMA point sits at the time of some index i >= length-1 whose `length` trailing source
   * values are all present, and its value is their sum divided by `length`.
   */
  lemma SmaPointsAreFullWindows(data: seq<Candle>, length: int, source: string, p: Point) returns (i: int)
    requires length >= 1
    requires p in SmaSeries(data, length, source)
    ensures FullWindowPoint(data, length, ParseSource(source), i, p)
  {
    var src := ParseSource(source);
    var raw := SmaRaw(data, length, src);
    var ps := Compact(Times(data), raw);
    var kept := KeepIncreasing(ps);
    assert p in kept;
    var idx := KeepIncreasingSpec(ps);
    var j :| 0 <= j < |kept| && kept[j] == p;
    assert p == ps[idx[j]];
    CompactMembers(Times(data), raw, p);
    i :| 0 <= i < |raw| && raw[i] == Some(p.value) && Times(data)[i] == p.time;
    var sv := SourceValues(data, src, length);
    assert raw[i] == WindowMean(sv, length, i);
  }

  lemma SmaTimesIncrease(data: seq<Candle>, length: int, source: string)
    requires length >= 1
    ensures IncreasingTimes(SmaSeries(data, length, source))
  {
    if |data| >= length {
      var _ := KeepIncreasingSpec(Compact(Times(data), SmaRaw(data, length, ParseSource(source))));
    }
  }

  /** On an ascending feed with at least `length` candles, every full window yields its point. */
  lemma SmaAscendingComplete(data: seq<Candle>, length: int, source: string, i: int)
    requires length >= 1 && Ascending(data) && length <= |data|
    requires length - 1 <= i < |data|
    requires AllSome(SourceValues(data, ParseSource(source), length), i - length + 1, i + 1)
    ensures Point(data[i].time,
                  SumOpt(SourceValues(data, ParseSource(source), length), i - length + 1, i + 1) / length as real)
            in SmaSeries(data, length, source)
  {
    var raw := SmaRaw(data, length, ParseSource(source));
    CompactIncreasing(Times(data), raw);
    KeepIncreasingUpToIdentity(Compact(Times(data), raw), |Compact(Times(data), raw)|);
    CompactMembers(Times(data), raw, Point(data[i].time, raw[i].value));
  }

  lemma FullWindowOfConstant(data: seq<Candle>, length: int, src: Source, i: int, p: Point, c: real)
    requires length >= 1
    requires forall k :: 0 <= k < |data| ==> SourceValue(data, src, k, length) == Some(c)
    requires FullWindowPoint(data, length, src, i, p)
    ensures p.value == c
  {
    var sv := SourceValues(data, src, length);
    SumOptConstant(sv, i - length + 1, i + 1, c);
    var n := length as real;
    assert SumOpt(sv, i - length + 1, i + 1) == n * c;
    CancelFactor(n, c);
  }

  /** A constant source value c gives an SMA of c at every emitted point. */
  lemma SmaOfConstant(data: seq<Candle>, length: int, source: string, c: real)
    requires length >= 1
    requires forall i :: 0 <= i < |data| ==> SourceValue(data, ParseSource(source), i, length) == Some(c)
    ensures forall p :: p in SmaSeries(data, length, source) ==> p.value == c
  {
    forall p | p in SmaSeries(data, length, source)
      ensures p.value == c
    {
      var i := SmaPointsAreFullWindows(data, length, source, p);
      FullWindowOfConstant(data, length, ParseSource(source), i, p, c);
    }
  }
}
