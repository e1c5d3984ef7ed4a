/**
 * Average True Range with Wilder smoothing (`computeATR`, atr.js): the first `length` valid true
 * ranges seed a plain mean, after which each bar applies Wilder's step until a gap ends the series.
 */
module Atr {
  import opened Series

  // ---------------------------------------------------------------------------
  // Specification

  /**
   * The true range of bar i: a gap when its high, low or close is missing; otherwise the largest of
   * high - low and the distances of high and low from the previous close (from themselves at bar 0).
   */
  function TrueRange(data: seq<Candle>, i: int): Option<real>
    requires 0 <= i < |data|
  {
    var d := data[i];
    if d.high.None? || d.low.None? || d.close.None? then None
    else if i == 0 then
      Some(Max3(d.high.value - d.low.value, Abs(d.high.value - d.high.value), Abs(d.low.value - d.low.value)))
    else if data[i - 1].close.None? then None
    else
      var prevClose := data[i - 1].close.value;
      Some(Max3(d.high.value - d.low.value, Abs(d.high.value - prevClose), Abs(d.low.value - prevClose)))
  }

  function TrueRanges(data: seq<Candle>): (tr: seq<Option<real>>)
    ensures |tr| == |data|
  {
    seq(|data|, i requires 0 <= i < |data| => TrueRange(data, i))
  }

  /**
   * The ATR at index i: at the bar that brings the count of valid true ranges to `length`, their
   * mean (the seed); after it, Wilder's step from the previous ATR while every true range is
   * valid; a gap everywhere else.
   */
  function AtrAt(tr: seq<Option<real>>, length: int, i: int): Option<real>
    requires length >= 1 && 0 <= i < |tr|
    decreases i
  {
    if tr[i].None? then None
    else if CountSome(tr, 0, i) == length - 1 then Some(SumOpt(tr, 0, i + 1) / length as real)
    else if CountSome(tr, 0, i) >= length && i > 0 && AtrAt(tr, length, i - 1).Some? then
      Some(WilderStep(AtrAt(tr, length, i - 1).value, tr[i].value, length))
    else None
  }

  function AtrLine(tr: seq<Option<real>>, length: int): (atr: seq<Option<real>>)
    requires length >= 1
    ensures |atr| == |tr|
  {
    seq(|tr|, i requires 0 <= i < |tr| => AtrAt(tr, length, i))
  }

  /** What `computeATR(data, { length })` returns. */
  function AtrSeries(data: seq<Candle>, length: int): seq<Point>
    requires length >= 1
  {
    if |data| < length then [] else Compact(Times(data), AtrLine(TrueRanges(data), length))
  }

  // ---------------------------------------------------------------------------
  // The computation, on the source's two arrays

  /** `computeATR`: true ranges, the seed pass, the search for the seed, then Wilder's pass. */
  method ComputeATR(data: seq<Candle>, length: int) returns (results: seq<Point>)
    requires length >= 1
    ensures results == AtrSeries(data, length)
  {
    if |data| < length {
      return [];
    }
    var n := |data|;
    var tr := new Option<real>[n](_ => None);
    FillTrueRanges(data, tr);
    var atr := new Option<real>[n](_ => None);
    var seedEnd;
    results, seedEnd := SeedAtr(data, length, tr, atr);

    var lastAtrIdx := -1;
    for j := 0 to n
      invariant lastAtrIdx == -1 && forall k :: 0 <= k < j ==> atr[k].None?
    {
      if atr[j].Some? {
        lastAtrIdx := j;
        break;
      }
    }
    if lastAtrIdx != -1 {
      results := WilderPass(data, length, tr, atr, lastAtrIdx + 1, results);
    }
  }

  /** The first pass: the true range of every bar, a gap where it cannot be formed. */
  method FillTrueRanges(data: seq<Candle>, tr: array<Option<real>>)
    requires tr.Length == |data|
    modifies tr
    ensures tr[..] == TrueRanges(data)
  {
    var n := |data|;
    for i := 0 to n
      invariant forall k :: 0 <= k < i ==> tr[k] == TrueRange(data, k)
    {
      var high := data[i].high;
      var low := data[i].low;
      if high.None? || low.None? || data[i].close.None? {
        tr[i] := None;
        continue;
      }
      if i > 0 && data[i - 1].close.None? {
        // a missing previous close is a gap in the model; see the README
        tr[i] := None;
        continue;
      }
      tr[i] := Some(Max3(high.value - low.value,
                         Abs(high.value - (if i > 0 then data[i - 1].close.value else high.value)),
                         Abs(low.value - (if i > 0 then data[i - 1].close.value else low.value))));
    }
  }

  /**
   * The seed pass: sums true ranges until `length` valid ones are seen and stores their mean at
   * that bar. Returns the points emitted so far and the index where the pass stopped.
   */
  method SeedAtr(data: seq<Candle>, length: int, tr: array<Option<real>>, atr: array<Option<real>>)
    returns (results: seq<Point>, seedEnd: int)
    requires length >= 1 && tr.Length == atr.Length == |data| && tr != atr
    requires tr[..] == TrueRanges(data)
    requires forall k :: 0 <= k < atr.Length ==> atr[k] == None
    modifies atr
    ensures 0 <= seedEnd <= |data| && tr[..] == TrueRanges(data)
    ensures forall k :: 0 <= k < seedEnd ==> atr[k] == AtrAt(TrueRanges(data), length, k)
    ensures forall k :: seedEnd <= k < |data| ==> atr[k] == None
    ensures forall k :: 0 <= k < seedEnd - 1 ==> atr[k] == None
    ensures seedEnd < |data| ==> seedEnd >= 1 && atr[seedEnd - 1].Some?
    ensures seedEnd >= 1 && atr[seedEnd - 1].Some? ==> CountSome(TrueRanges(data), 0, seedEnd) == length
    ensures results == CompactUpTo(Times(data), AtrLine(TrueRanges(data), length), seedEnd)
  {
    ghost var trs := TrueRanges(data);
    ghost var line := AtrLine(trs, length);
    var n := |data|;
    var sum := 0.0;
    var initialCount := 0;
    results := [];
    var i := 0;
    while i < n && initialCount < length
      invariant 0 <= i <= n
      invariant initialCount == CountSome(trs, 0, i) && initialCount <= length
      invariant sum == SumOpt(trs, 0, i)
      invariant forall k :: 0 <= k < i ==> atr[k] == line[k]
      invariant forall k :: i <= k < n ==> atr[k] == None
      invariant forall k :: 0 <= k < i - 1 ==> atr[k] == None
      invariant initialCount == length <==> i >= 1 && atr[i - 1].Some?
      invariant results == CompactUpTo(Times(data), line, i)
    {
      CountSomeSnoc(trs, 0, i);
      SumOptSnoc(trs, 0, i);
      assert tr[i] == trs[i];
      if tr[i].Some? {
        sum := sum + tr[i].value;
        initialCount := initialCount + 1;
        if initialCount == length {
          atr[i] := Some(sum / length as real);
          results := results + [Point(data[i].time, atr[i].value)];
        }
      }
      i := i + 1;
    }
    seedEnd := i;
  }

  /** Wilder's pass: from `start` on, each bar with a true range and an ATR before it gets the next ATR. */
  method WilderPass(data: seq<Candle>, length: int, tr: array<Option<real>>, atr: array<Option<real>>,
                    start: int, soFar: seq<Point>)
    returns (results: seq<Point>)
    requires length >= 1 && tr.Length == atr.Length == |data| && tr != atr
    requires 1 <= start <= |data| && tr[..] == TrueRanges(data)
    requires CountSome(TrueRanges(data), 0, start) >= length
    requires forall k :: 0 <= k < start ==> atr[k] == AtrAt(TrueRanges(data), length, k)
    requires forall k :: start <= k < |data| ==> atr[k] == None
    requires soFar == CompactUpTo(Times(data), AtrLine(TrueRanges(data), length), start)
    modifies atr
    ensures results == Compact(Times(data), AtrLine(TrueRanges(data), length))
  {
    ghost var trs := TrueRanges(data);
    ghost var line := AtrLine(trs, length);
    results := soFar;
    var n := |data|;
    for i := start to n
      invariant tr[..] == trs
      invariant CountSome(trs, 0, i) >= length
      invariant forall k :: 0 <= k < i ==> atr[k] == line[k]
      invariant forall k :: i <= k < n ==> atr[k] == None
      invariant results == CompactUpTo(Times(data), line, i)
    {
      CountSomeSnoc(trs, 0, i);
      assert tr[i] == trs[i];
      if tr[i].Some? && atr[i - 1].Some? {
        atr[i] := Some(WilderStep(atr[i - 1].value, tr[i].value, length));
        results := results + [Point(data[i].time, atr[i].value)];
      }
    }
  }

  // ---------------------------------------------------------------------------
  // Properties

  lemma {:induction false} CountSomeMonotone(v: seq<Option<real>>, a: int, b: int)
    requires 0 <= a <= b <= |v|
    ensures CountSome(v, 0, a) <= CountSome(v, 0, b)
    decreases b - a
  {
    if a < b {
      CountSomeMonotone(v, a, b - 1);
      CountSomeSnoc(v, 0, b - 1);
    }
  }

  /** An ATR value needs at least `length` valid true ranges up to and including its bar. */
  lemma AtrNeedsCount(tr: seq<Option<real>>, length: int, i: int)
    requires length >= 1 && 0 <= i < |tr|
    requires AtrAt(tr, length, i).Some?
    ensures CountSome(tr, 0, i + 1) >= length
  {
    CountSomeSnoc(tr, 0, i);
  }

  /** With fewer than `length` valid true ranges there is no ATR at all. */
  lemma NoSeedNoAtr(tr: seq<Option<real>>, length: int)
    requires length >= 1 && CountSome(tr, 0, |tr|) < length
    ensures forall i :: 0 <= i < |tr| ==> AtrAt(tr, length, i).None?
  {
    forall i | 0 <= i < |tr| && AtrAt(tr, length, i).Some?
      ensures false
    {
      AtrNeedsCount(tr, length, i);
      CountSomeMonotone(tr, i + 1, |tr|);
    }
  }

  /** True ranges are never negative. */
  lemma TrueRangeNonNegative(data: seq<Candle>, i: int)
    requires 0 <= i < |data|
    ensures TrueRange(data, i).Some? ==> TrueRange(data, i).value >= 0.0
  {
  }

  /** With non-negative true ranges every ATR value is non-negative: the seed mean and every Wilder step. */
  lemma {:induction false} AtrNonNegativeAt(tr: seq<Option<real>>, length: int, i: int)
    requires length >= 1 && 0 <= i < |tr|
    requires forall k :: 0 <= k < |tr| && tr[k].Some? ==> tr[k].value >= 0.0
    ensures AtrAt(tr, length, i).Some? ==> AtrAt(tr, length, i).value >= 0.0
    decreases i
  {
    if tr[i].Some? && CountSome(tr, 0, i) == length - 1 {
      SumOptNonNegative(tr, 0, i + 1);
      QuotientNonNegative(SumOpt(tr, 0, i + 1), length as real);
    } else if tr[i].Some? && CountSome(tr, 0, i) >= length && i > 0 && AtrAt(tr, length, i - 1).Some? {
      AtrNonNegativeAt(tr, length, i - 1);
      var prev, x := AtrAt(tr, length, i - 1).value, tr[i].value;
      WilderStepBetween(prev, x, length, 0.0, if prev < x then x else prev);
    }
  }

  lemma QuotientNonNegative(s: real, n: real)
    requires s >= 0.0 && n > 0.0
    ensures s / n >= 0.0
  {
  }

  /**
   * Every point `computeATR` emits is non-negative and is stamped with the time of one of the input
   * bars.
   */
  lemma AtrSeriesPoints(data: seq<Candle>, length: int, p: Point)
    requires length >= 1 && p in AtrSeries(data, length)
    ensures p.value >= 0.0
    ensures exists i :: 0 <= i < |data| && p.time == data[i].time
  {
    var tr := TrueRanges(data);
    var line := AtrLine(tr, length);
    CompactMembers(Times(data), line, p);
    var i :| 0 <= i < |line| && line[i] == Some(p.value) && Times(data)[i] == p.time;
    forall k | 0 <= k < |tr| && tr[k].Some?
      ensures tr[k].value >= 0.0
    {
      TrueRangeNonNegative(data, k);
    }
    AtrNonNegativeAt(tr, length, i);
  }

  /** On bars with strictly increasing times the ATR points have strictly increasing times. */
  lemma AtrTimesIncrease(data: seq<Candle>, length: int)
    requires length >= 1 && StrictlyIncreasing(Times(data))
    ensures IncreasingTimes(AtrSeries(data, length))
  {
    if |data| >= length {
      CompactIncreasing(Times(data), AtrLine(TrueRanges(data), length));
    }
  }

  /** The sum of the valid entries among v[lo..hi] when all lie in [a, b] and exactly c of them are valid. */
  lemma {:induction false} SumOptCountBounds(v: seq<Option<real>>, lo: int, hi: int, a: real, b: real)
    requires 0 <= lo <= hi <= |v|
    requires forall k :: lo <= k < hi && v[k].Some? ==> a <= v[k].value <= b
    ensures CountSome(v, lo, hi) as real * a <= SumOpt(v, lo, hi) <= CountSome(v, lo, hi) as real * b
    decreases hi - lo
  {
    if lo < hi {
      SumOptCountBounds(v, lo + 1, hi, a, b);
      var c, rest := CountSome(v, lo + 1, hi), SumOpt(v, lo + 1, hi);
      if v[lo].Some? {
        assert CountSome(v, lo, hi) == c + 1 && SumOpt(v, lo, hi) == v[lo].value + rest;
        assert (c + 1) as real * a == c as real * a + a;
        assert (c + 1) as real * b == c as real * b + b;
      } else {
        assert CountSome(v, lo, hi) == c && SumOpt(v, lo, hi) == rest;
      }
    }
  }

  /** Every ATR value lies within any interval holding all the valid true ranges (so it is never negative). */
  lemma {:induction false} AtrWithinBounds(tr: seq<Option<real>>, length: int, i: int, a: real, b: real)
    requires length >= 1 && 0 <= i < |tr|
    requires forall k :: 0 <= k < |tr| && tr[k].Some? ==> a <= tr[k].value <= b
    ensures AtrAt(tr, length, i).Some? ==> a <= AtrAt(tr, length, i).value <= b
    decreases i
  {
    if tr[i].Some? && CountSome(tr, 0, i) == length - 1 {
      CountSomeSnoc(tr, 0, i);
      SumOptCountBounds(tr, 0, i + 1, a, b);
      MeanBetween(SumOpt(tr, 0, i + 1), length as real, a, b);
    } else if tr[i].Some? && CountSome(tr, 0, i) >= length && i > 0 && AtrAt(tr, length, i - 1).Some? {
      AtrWithinBounds(tr, length, i - 1, a, b);
      WilderStepBetween(AtrAt(tr, length, i - 1).value, tr[i].value, length, a, b);
    }
  }

  lemma MeanBetween(s: real, n: real, a: real, b: real)
    requires n > 0.0 && n * a <= s <= n * b
    ensures a <= s / n <= b
  {
    assert s / n * n == s;
  }

  /**
   * After the seed the ATR runs without holes until the first invalid true range: if bar i has a
   * value, so has every earlier bar j that already has `length` valid true ranges behind it.
   */
  lemma {:induction false} AtrContiguous(tr: seq<Option<real>>, length: int, i: int, j: int)
    requires length >= 1 && 0 <= j <= i < |tr|
    requires AtrAt(tr, length, i).Some? && CountSome(tr, 0, j + 1) >= length
    ensures AtrAt(tr, length, j).Some?
    decreases i - j
  {
    if j < i {
      CountSomeMonotone(tr, j + 1, i);
      AtrContiguous(tr, length, i - 1, j);
    }
  }

  /** On bars whose true ranges are all valid, the seed is at index length-1 and every later bar has an ATR. */
  lemma {:induction false} CompleteAtr(tr: seq<Option<real>>, length: int, i: int)
    requires length >= 1 && length - 1 <= i < |tr|
    requires forall k :: 0 <= k < |tr| ==> tr[k].Some?
    ensures AtrAt(tr, length, i).Some?
    ensures i == length - 1 ==> AtrAt(tr, length, i) == Some(SumOpt(tr, 0, length) / length as real)
    decreases i
  {
    CountSomeFull(tr, 0, i);
    if i > length - 1 {
      CompleteAtr(tr, length, i - 1);
    }
  }

  /** With every true range valid, the ATR has n-length+1 points, at the times of data[length-1..]. */
  lemma AtrCompleteCount(data: seq<Candle>, length: int)
    requires length >= 1 && |data| >= length
    requires forall i :: 0 <= i < |data| ==> TrueRange(data, i).Some?
    ensures |AtrSeries(data, length)| == |data| - length + 1
    ensures forall j :: 0 <= j < |data| - length + 1 ==> AtrSeries(data, length)[j].time == data[length - 1 + j].time
  {
    var tr := TrueRanges(data);
    var line := AtrLine(tr, length);
    forall i | 0 <= i < |line|
      ensures line[i].Some? <==> i >= length - 1
    {
      if i >= length - 1 {
        CompleteAtr(tr, length, i);
      } else {
        CountSomeFull(tr, 0, i);
      }
    }
    CompactSuffix(Times(data), line, length - 1);
  }

  /** Constant true ranges c give an ATR of c at every point. */
  lemma {:induction false} AtrOfConstant(tr: seq<Option<real>>, length: int, i: int, c: real)
    requires length >= 1 && 0 <= i < |tr|
    requires forall k :: 0 <= k < |tr| && tr[k].Some? ==> tr[k].value == c
    ensures AtrAt(tr, length, i).Some? ==> AtrAt(tr, length, i).value == c
  {
    AtrWithinBounds(tr, length, i, c, c);
  }
}
