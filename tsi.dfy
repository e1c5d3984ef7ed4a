/**
 * True Strength Index (`computeTSI`, tsi.js): the price change smoothed twice by an EMA that skips
 * gaps (`calculateEMA`), over the same for the absolute change, as a percentage; a signal EMA of
 * that ratio; and a warm-up prefix dropped from both outputs.
 */
module Tsi {
  import opened Series

  datatype TsiSettings = TsiSettings(longLength: nat, shortLength: nat, signalLength: nat)

  datatype TsiResult = TsiResult(tsi: seq<Point>, signal: seq<Point>)

  // ---------------------------------------------------------------------------
  // The gap-skipping EMA (`calculateEMA`)

  /** The Pine Script step alpha·x + (1 - alpha)·prev. */
  function PineStep(prev: real, x: real, length: nat): real
  {
    Alpha(length) * x + (1.0 - Alpha(length)) * prev
  }

  /** The step written with a precomputed alpha is PineStep. */
  lemma PineStepWith(prev: real, x: real, length: nat, alpha: real)
    requires alpha == Alpha(length)
    ensures alpha * x + (1.0 - alpha) * prev == PineStep(prev, x, length)
  {
  }

  /**
   * The running value `prevEma` after index i: nothing before the first valid input, that input at
   * the first one, a step towards every later valid input, and unchanged over a gap.
   */
  function Carried(x: seq<Option<real>>, length: nat, i: int): Option<real>
    requires 0 <= i < |x|
    decreases i
  {
    var prev := if i == 0 then None else Carried(x, length, i - 1);
    if x[i].None? then prev
    else if prev.None? then x[i]
    else Some(PineStep(prev.value, x[i].value, length))
  }

  /** `calculateEMA`: the running value at every valid input, a gap at every gap. */
  function Ema(x: seq<Option<real>>, length: nat): (e: seq<Option<real>>)
    ensures |e| == |x|
  {
    seq(|x|, i requires 0 <= i < |x| => if x[i].Some? then Carried(x, length, i) else None)
  }

  method CalculateEMA(data: seq<Option<real>>, length: nat) returns (ema: array<Option<real>>)
    ensures fresh(ema) && ema[..] == Ema(data, length)
  {
    if |data| == 0 {
      return new Option<real>[0];
    }
    var alpha := 2.0 / (length + 1) as real;
    assert alpha == Alpha(length);
    ema := new Option<real>[|data|](_ => None);

    var firstValidIdx := -1;
    for i := 0 to |data|
      invariant firstValidIdx == -1
      invariant forall k :: 0 <= k < i ==> data[k].None? && Carried(data, length, k).None?
    {
      if data[i].Some? {
        firstValidIdx := i;
        break;
      }
    }
    if firstValidIdx == -1 {
      return;
    }

    var prevEma := data[firstValidIdx].value;
    ema[firstValidIdx] := Some(prevEma);
    for i := firstValidIdx + 1 to |data|
      invariant Carried(data, length, i - 1) == Some(prevEma)
      invariant forall k :: 0 <= k < i ==> ema[k] == Ema(data, length)[k]
      invariant forall k :: i <= k < |data| ==> ema[k] == None
    {
      if data[i].Some? {
        var currentEma := alpha * data[i].value + (1.0 - alpha) * prevEma;
        assert Carried(data, length, i) == Some(PineStep(prevEma, data[i].value, length));
        PineStepWith(prevEma, data[i].value, length, alpha);
        assert PineStep(prevEma, data[i].value, length) == currentEma;
        ema[i] := Some(currentEma);
        prevEma := currentEma;
      } else {
        ema[i] := None;
      }
    }
  }

  // ---------------------------------------------------------------------------
  // Specification of `computeTSI`

  /** The momentum close[i] - close[i-1]; a gap at bar 0 and where either close is missing. */
  function Change(data: seq<Candle>, i: int): Option<real>
    requires 0 <= i < |data|
  {
    if i == 0 || data[i].close.None? || data[i - 1].close.None? then None
    else Some(data[i].close.value - data[i - 1].close.value)
  }

  function Changes(data: seq<Candle>): (pc: seq<Option<real>>)
    ensures |pc| == |data|
  {
    seq(|data|, i requires 0 <= i < |data| => Change(data, i))
  }

  function AbsChanges(data: seq<Candle>): (pc: seq<Option<real>>)
    ensures |pc| == |data|
  {
    seq(|data|, i requires 0 <= i < |data| => if Change(data, i).Some? then Some(Abs(Change(data, i).value)) else None)
  }

  /** 100 · ema2 / absEma2 where both exist and the denominator is not zero. */
  function TsiAt(ema2: seq<Option<real>>, absEma2: seq<Option<real>>, i: int): Option<real>
    requires 0 <= i < |ema2| == |absEma2|
  {
    if ema2[i].Some? && absEma2[i].Some? && absEma2[i].value != 0.0 then Some(100.0 * (ema2[i].value / absEma2[i].value))
    else None
  }

  function DoubleEma(x: seq<Option<real>>, s: TsiSettings): (e: seq<Option<real>>)
    ensures |e| == |x|
  {
    Ema(Ema(x, s.longLength), s.shortLength)
  }

  function TsiLine(data: seq<Candle>, s: TsiSettings): (line: seq<Option<real>>)
    ensures |line| == |data|
  {
    var ema2 := DoubleEma(Changes(data), s);
    var absEma2 := DoubleEma(AbsChanges(data), s);
    seq(|data|, i requires 0 <= i < |data| => TsiAt(ema2, absEma2, i))
  }

  function Warmup(s: TsiSettings): nat
  {
    s.longLength + s.shortLength + s.signalLength
  }

  /** The chart format: drop gaps and every index before the warm-up. */
  function Format(data: seq<Candle>, line: seq<Option<real>>, warmup: nat): seq<Point>
    requires |line| == |data|
  {
    Compact(Times(data), seq(|line|, i requires 0 <= i < |line| => if i < warmup then None else line[i]))
  }

  /** What `computeTSI(data, settings)` returns. */
  function TsiSeries(data: seq<Candle>, s: TsiSettings): TsiResult
  {
    if |data| < 2 then TsiResult([], [])
    else
      var line := TsiLine(data, s);
      TsiResult(Format(data, line, Warmup(s)), Format(data, Ema(line, s.signalLength), Warmup(s)))
  }

  method ComputeTSI(data: seq<Candle>, s: TsiSettings) returns (r: TsiResult)
    ensures r == TsiSeries(data, s)
  {
    if |data| < 2 {
      return TsiResult([], []);
    }
    var pc, absPc := Momentum(data);
    var ema1 := CalculateEMA(pc[..], s.longLength);
    var ema2 := CalculateEMA(ema1[..], s.shortLength);
    var absEma1 := CalculateEMA(absPc[..], s.longLength);
    var absEma2 := CalculateEMA(absEma1[..], s.shortLength);
    var tsiValues := Ratio(ema2, absEma2);
    assert tsiValues[..] == TsiLine(data, s);
    var signalValues := CalculateEMA(tsiValues[..], s.signalLength);
    var warmup := s.longLength + s.shortLength + s.signalLength;
    r := TsiResult(Format(data, tsiValues[..], warmup), Format(data, signalValues[..], warmup));
  }

  /** The momentum loop: the change and its absolute value from bar 1 on. */
  method Momentum(data: seq<Candle>) returns (pc: array<Option<real>>, absPc: array<Option<real>>)
    requires |data| >= 2
    ensures fresh(pc) && fresh(absPc)
    ensures pc[..] == Changes(data) && absPc[..] == AbsChanges(data)
  {
    var n := |data|;
    pc := new Option<real>[n](_ => None);
    absPc := new Option<real>[n](_ => None);
    for i := 1 to n
      invariant pc != absPc
      invariant forall k :: 0 <= k < i ==> pc[k] == Changes(data)[k] && absPc[k] == AbsChanges(data)[k]
      invariant forall k :: i <= k < n ==> pc[k] == None && absPc[k] == None
    {
      // a missing close is taken as a gap (see the README, Tsi.Change)
      if data[i].close.Some? && data[i - 1].close.Some? {
        var diff := data[i].close.value - data[i - 1].close.value;
        pc[i] := Some(diff);
        absPc[i] := Some(Abs(diff));
      }
    }
  }

  /** The TSI loop: the percentage ratio wherever it is defined. */
  method Ratio(ema2: array<Option<real>>, absEma2: array<Option<real>>) returns (tsiValues: array<Option<real>>)
    requires ema2.Length == absEma2.Length
    ensures fresh(tsiValues) && tsiValues.Length == ema2.Length
    ensures forall k :: 0 <= k < ema2.Length ==> tsiValues[k] == TsiAt(ema2[..], absEma2[..], k)
  {
    var n := ema2.Length;
    tsiValues := new Option<real>[n](_ => None);
    for i := 0 to n
      invariant forall k :: 0 <= k < i ==> tsiValues[k] == TsiAt(ema2[..], absEma2[..], k)
      invariant forall k :: i <= k < n ==> tsiValues[k] == None
    {
      if ema2[i].Some? && absEma2[i].Some? && absEma2[i].value != 0.0 {
        tsiValues[i] := Some(100.0 * (ema2[i].value / absEma2[i].value));
      }
    }
  }

  // ---------------------------------------------------------------------------
  // Properties of the EMA

  /** The EMA has a value exactly where its input has one. */
  lemma EmaGaps(x: seq<Option<real>>, length: nat, i: int)
    requires 0 <= i < |x|
    ensures Ema(x, length)[i].Some? <==> x[i].Some?
  {
  }

  lemma {:induction false} CarriedNoneBefore(x: seq<Option<real>>, length: nat, i: int)
    requires 0 <= i < |x|
    requires forall k :: 0 <= k <= i ==> x[k].None?
    ensures Carried(x, length, i).None?
  {
    if i > 0 {
      CarriedNoneBefore(x, length, i - 1);
    }
  }

  /** The EMA is seeded with the first valid input. */
  lemma EmaSeed(x: seq<Option<real>>, length: nat, f: int)
    requires 0 <= f < |x| && x[f].Some?
    requires forall k :: 0 <= k < f ==> x[k].None?
    ensures Ema(x, length)[f] == x[f]
  {
    if f > 0 {
      CarriedNoneBefore(x, length, f - 1);
    }
  }

  /** The valid inputs among x[..m], in order. */
  function ValidValues(x: seq<Option<real>>, m: int): seq<real>
    requires 0 <= m <= |x|
  {
    if m == 0 then []
    else ValidValues(x, m - 1) + (if x[m - 1].Some? then [x[m - 1].value] else [])
  }

  /** The plain EMA of a gap-free list, seeded with its first element, at its last element. */
  function GapFreeEma(v: seq<real>, length: nat): real
    requires |v| >= 1
    decreases |v|
  {
    if |v| == 1 then v[0] else PineStep(GapFreeEma(v[..|v| - 1], length), v[|v| - 1], length)
  }

  /**
   * Gaps do not reset the EMA: the running value after index i is the plain EMA of the valid
   * inputs up to i with the gaps removed.
   */
  lemma {:induction false} EmaSkipsGaps(x: seq<Option<real>>, length: nat, i: int)
    requires 0 <= i < |x|
    ensures ValidValues(x, i + 1) == [] <==> Carried(x, length, i).None?
    ensures Carried(x, length, i).Some? ==> Carried(x, length, i).value == GapFreeEma(ValidValues(x, i + 1), length)
    decreases i
  {
    if i > 0 {
      EmaSkipsGaps(x, length, i - 1);
    }
    var v := ValidValues(x, i + 1);
    if x[i].None? {
      assert v == ValidValues(x, i);
    } else {
      assert v == ValidValues(x, i) + [x[i].value];
      assert v[..|v| - 1] == ValidValues(x, i);
    }
  }

  /** One EMA step from and towards values in [a, b] stays in [a, b]. */
  lemma PineStepBetween(prev: real, x: real, length: nat, a: real, b: real)
    requires length >= 1 && a <= prev <= b && a <= x <= b
    ensures a <= PineStep(prev, x, length) <= b
  {
    var alpha := Alpha(length);
    assert 0.0 < alpha <= 1.0;
    ProductNonNegative(alpha, x - a);
    ProductNonNegative(1.0 - alpha, prev - a);
    ProductNonNegative(alpha, b - x);
    ProductNonNegative(1.0 - alpha, b - prev);
  }

  /** Valid inputs in [a, b] give EMA values in [a, b]. */
  lemma {:induction false} CarriedBetween(x: seq<Option<real>>, length: nat, i: int, a: real, b: real)
    requires length >= 1 && 0 <= i < |x|
    requires forall k :: 0 <= k < |x| && x[k].Some? ==> a <= x[k].value <= b
    ensures Carried(x, length, i).Some? ==> a <= Carried(x, length, i).value <= b
    decreases i
  {
    if i > 0 {
      CarriedBetween(x, length, i - 1, a, b);
      var prev := Carried(x, length, i - 1);
      if x[i].Some? && prev.Some? {
        PineStepBetween(prev.value, x[i].value, length, a, b);
      }
    }
  }

  lemma EmaBetween(x: seq<Option<real>>, length: nat, a: real, b: real)
    requires length >= 1
    requires forall k :: 0 <= k < |x| && x[k].Some? ==> a <= x[k].value <= b
    ensures forall k :: 0 <= k < |x| && Ema(x, length)[k].Some? ==> a <= Ema(x, length)[k].value <= b
  {
    forall k | 0 <= k < |x| && Ema(x, length)[k].Some?
      ensures a <= Ema(x, length)[k].value <= b
    {
      CarriedBetween(x, length, k, a, b);
    }
  }

  /** x is dominated by y: the same gaps, and |x| <= y wherever both exist. */
  predicate Dominated(x: seq<Option<real>>, y: seq<Option<real>>)
  {
    |x| == |y| && forall k :: 0 <= k < |x| ==> (x[k].Some? <==> y[k].Some?) && (x[k].Some? ==> Abs(x[k].value) <= y[k].value)
  }

  lemma PineStepDominated(p: real, q: real, x: real, y: real, length: nat)
    requires length >= 1 && Abs(p) <= q && Abs(x) <= y
    ensures Abs(PineStep(p, x, length)) <= PineStep(q, y, length)
  {
    var alpha := Alpha(length);
    assert 0.0 < alpha <= 1.0;
    assert alpha * (y - x) >= 0.0 && alpha * (y + x) >= 0.0;
    assert (1.0 - alpha) * (q - p) >= 0.0 && (1.0 - alpha) * (q + p) >= 0.0;
  }

  lemma {:induction false} CarriedDominated(x: seq<Option<real>>, y: seq<Option<real>>, length: nat, i: int)
    requires length >= 1 && Dominated(x, y) && 0 <= i < |x|
    ensures Carried(x, length, i).Some? <==> Carried(y, length, i).Some?
    ensures Carried(x, length, i).Some? ==> Abs(Carried(x, length, i).value) <= Carried(y, length, i).value
    decreases i
  {
    if i > 0 {
      CarriedDominated(x, y, length, i - 1);
      var p, q := Carried(x, length, i - 1), Carried(y, length, i - 1);
      if x[i].Some? && p.Some? {
        PineStepDominated(p.value, q.value, x[i].value, y[i].value, length);
      }
    }
  }

  /** Smoothing both series with the same EMA keeps the domination: |EMA(x)| <= EMA(|x|). */
  lemma EmaDominated(x: seq<Option<real>>, y: seq<Option<real>>, length: nat)
    requires length >= 1 && Dominated(x, y)
    ensures Dominated(Ema(x, length), Ema(y, length))
  {
    forall k | 0 <= k < |x|
      ensures (Ema(x, length)[k].Some? <==> Ema(y, length)[k].Some?)
      ensures Ema(x, length)[k].Some? ==> Abs(Ema(x, length)[k].value) <= Ema(y, length)[k].value
    {
      CarriedDominated(x, y, length, k);
    }
  }

  // ---------------------------------------------------------------------------
  // Properties of the TSI

  /** With both smoothing lengths at least 1, every TSI value lies in [-100, 100]. */
  lemma TsiLineBounded(data: seq<Candle>, s: TsiSettings)
    requires s.longLength >= 1 && s.shortLength >= 1
    ensures forall i :: 0 <= i < |data| && TsiLine(data, s)[i].Some? ==> -100.0 <= TsiLine(data, s)[i].value <= 100.0
  {
    var pc, absPc := Changes(data), AbsChanges(data);
    assert Dominated(pc, absPc);
    EmaDominated(pc, absPc, s.longLength);
    EmaDominated(Ema(pc, s.longLength), Ema(absPc, s.longLength), s.shortLength);
    var ema2, absEma2 := DoubleEma(pc, s), DoubleEma(absPc, s);
    forall i | 0 <= i < |data| && TsiLine(data, s)[i].Some?
      ensures -100.0 <= TsiLine(data, s)[i].value <= 100.0
    {
      var e, a := ema2[i].value, absEma2[i].value;
      assert Abs(e) <= a && a != 0.0;
      RatioBounded(e, a);
    }
  }

  lemma RatioBounded(e: real, a: real)
    requires Abs(e) <= a && a != 0.0
    ensures -100.0 <= 100.0 * (e / a) <= 100.0
  {
    assert a > 0.0;
    assert e / a * a == e;
  }

  /** Both output lines of the TSI lie in [-100, 100]. */
  lemma TsiBounded(data: seq<Candle>, s: TsiSettings)
    requires s.longLength >= 1 && s.shortLength >= 1 && s.signalLength >= 1
    ensures forall p :: p in TsiSeries(data, s).tsi ==> -100.0 <= p.value <= 100.0
    ensures forall p :: p in TsiSeries(data, s).signal ==> -100.0 <= p.value <= 100.0
  {
    if |data| >= 2 {
      var line := TsiLine(data, s);
      TsiLineBounded(data, s);
      EmaBetween(line, s.signalLength, -100.0, 100.0);
      FormatBounded(data, line, Warmup(s), -100.0, 100.0);
      FormatBounded(data, Ema(line, s.signalLength), Warmup(s), -100.0, 100.0);
    }
  }

  lemma FormatBounded(data: seq<Candle>, line: seq<Option<real>>, warmup: nat, a: real, b: real)
    requires |line| == |data|
    requires forall i :: 0 <= i < |line| && line[i].Some? ==> a <= line[i].value <= b
    ensures forall p :: p in Format(data, line, warmup) ==> a <= p.value <= b
  {
    CompactBounded(Times(data), seq(|line|, i requires 0 <= i < |line| => if i < warmup then None else line[i]), a, b);
  }

  /** Every formatted point comes from a bar at or after the warm-up, carrying that bar's time and value. */
  lemma FormatWarmup(data: seq<Candle>, line: seq<Option<real>>, warmup: nat, p: Point) returns (i: int)
    requires |line| == |data| && p in Format(data, line, warmup)
    ensures warmup <= i < |data| && p.time == data[i].time && line[i] == Some(p.value)
  {
    var masked := seq(|line|, i requires 0 <= i < |line| => if i < warmup then None else line[i]);
    CompactMembers(Times(data), masked, p);
    i :| 0 <= i < |masked| && masked[i] == Some(p.value) && Times(data)[i] == p.time;
  }

  /** No TSI or signal point appears at an index below longLength + shortLength + signalLength. */
  lemma TsiWarmup(data: seq<Candle>, s: TsiSettings, p: Point) returns (i: int)
    requires p in TsiSeries(data, s).tsi || p in TsiSeries(data, s).signal
    ensures Warmup(s) <= i < |data| && p.time == data[i].time
  {
    var line := TsiLine(data, s);
    if p in TsiSeries(data, s).tsi {
      i := FormatWarmup(data, line, Warmup(s), p);
    } else {
      i := FormatWarmup(data, Ema(line, s.signalLength), Warmup(s), p);
    }
  }
}
