/**
 * Normalised MACD (`computeMACD`, macd.js): the fast-minus-slow EMA of the closes and its
 * signal EMA, each rescaled to [-1, 1] over a rolling look-back window, and a coloured histogram
 * of their difference.
 */
module Macd {
  import opened Series

  datatype MacdSettings = MacdSettings(fastLength: nat, slowLength: nat, signalLength: nat, normLookback: int)

  /** The five histogram colours: warm-up, rising/falling above zero, falling/rising below zero. */
  datatype BarColor = Neutral | StrongUp | WeakUp | StrongDown | WeakDown

  datatype HistBar = HistBar(time: int, value: real, color: BarColor)

  datatype MacdResult = MacdResult(macd: seq<Point>, signal: seq<Point>, histogram: seq<HistBar>)

  /** The CSS colour string the chart receives for each bar colour. */
  function ColorCode(c: BarColor): string
  {
    match c
    case Neutral => "rgba(120, 123, 134, 0.3)"
    case StrongUp => "#26a69a"
    case WeakUp => "rgba(38, 166, 154, 0.5)"
    case StrongDown => "#ef5350"
    case WeakDown => "rgba(239, 83, 80, 0.5)"
  }

  /** Every candle has a finite close (the feed normaliser guarantees it; the MACD itself does not check). */
  predicate ClosesPresent(data: seq<Candle>)
  {
    forall i :: 0 <= i < |data| ==> data[i].close.Some?
  }

  function Prices(data: seq<Candle>): (p: seq<real>)
    requires ClosesPresent(data)
    ensures |p| == |data|
  {
    seq(|data|, i requires 0 <= i < |data| => data[i].close.value)
  }

  // ---------------------------------------------------------------------------
  // Exponential moving average, seeded with the first value

  function EmaStep(prev: real, val: real, length: nat): real
  {
    (val - prev) * Alpha(length) + prev
  }

  /** The EMA at index i: x[0] at 0, then prev + alpha·(x[i] - prev). */
  function EmaAt(x: seq<real>, length: nat, i: int): real
    requires 0 <= i < |x|
    decreases i
  {
    if i == 0 then x[0] else EmaStep(EmaAt(x, length, i - 1), x[i], length)
  }

  function Ema(x: seq<real>, length: nat): (e: seq<real>)
    ensures |e| == |x|
  {
    seq(|x|, i requires 0 <= i < |x| => EmaAt(x, length, i))
  }

  /** `computeEMA`: one pass carrying the previous EMA. */
  method ComputeEMA(data: seq<real>, length: nat) returns (ema: seq<real>)
    ensures ema == Ema(data, length)
  {
    if |data| == 0 {
      return [];
    }
    ema := [];
    var k := 2.0 / (length + 1) as real;
    var prevEma := data[0];
    for i := 0 to |data|
      invariant |ema| == i
      invariant forall j :: 0 <= j < i ==> ema[j] == EmaAt(data, length, j)
      invariant prevEma == if i == 0 then data[0] else EmaAt(data, length, i - 1)
    {
      var val := data[i];
      if i == 0 {
        ema := ema + [val];
      } else {
        var currentEma := (val - prevEma) * k + prevEma;
        assert currentEma == EmaStep(prevEma, val, length);
        ema := ema + [currentEma];
        prevEma := currentEma;
      }
    }
  }

  /** A step with a factor in [0, 1] stays between the previous value and the new input. */
  lemma EmaStepBetween(prev: real, val: real, length: nat, a: real, b: real)
    requires length >= 1
    requires a <= prev <= b && a <= val <= b
    ensures a <= EmaStep(prev, val, length) <= b
  {
    var alpha := Alpha(length);
    assert 0.0 < alpha <= 1.0;
    StepBetween(prev, val, alpha, a, b);
  }

  /** prev + alpha·(val - prev) with alpha in (0, 1] stays inside any interval holding prev and val. */
  lemma StepBetween(prev: real, val: real, alpha: real, a: real, b: real)
    requires 0.0 < alpha <= 1.0
    requires a <= prev <= b && a <= val <= b
    ensures a <= (val - prev) * alpha + prev <= b
  {
    ProductNonNegative(alpha, val - a);
    ProductNonNegative(1.0 - alpha, prev - a);
    ProductNonNegative(alpha, b - val);
    ProductNonNegative(1.0 - alpha, b - prev);
  }

  /** With length >= 1 the EMA never leaves any interval that holds all its inputs so far. */
  lemma {:induction false} EmaWithinBounds(x: seq<real>, length: nat, i: int, a: real, b: real)
    requires length >= 1 && 0 <= i < |x|
    requires forall k :: 0 <= k <= i ==> a <= x[k] <= b
    ensures a <= EmaAt(x, length, i) <= b
    decreases i
  {
    if i > 0 {
      EmaWithinBounds(x, length, i - 1, a, b);
      EmaStepBetween(EmaAt(x, length, i - 1), x[i], length, a, b);
    }
  }

  /** The EMA of a constant series is that constant (for any length, the step adds 0). */
  lemma {:induction false} EmaOfConstant(x: seq<real>, length: nat, i: int, c: real)
    requires 0 <= i < |x|
    requires forall k :: 0 <= k < |x| ==> x[k] == c
    ensures EmaAt(x, length, i) == c
    decreases i
  {
    if i > 0 {
      EmaOfConstant(x, length, i - 1, c);
    }
  }

  // ---------------------------------------------------------------------------
  // Normalisation and the histogram

  /** Rescales x from [mn, mx] to [-1, 1]; a flat window gives 0. */
  function Norm(x: real, mn: real, mx: real): real
  {
    if mx != mn then 2.0 * (x - mn) / (mx - mn) - 1.0 else 0.0
  }

  /** Normalisation maps [mn, mx] into [-1, 1], the minimum to -1 and the maximum to 1. */
  lemma NormBounds(x: real, mn: real, mx: real)
    requires mn <= x <= mx
    ensures -1.0 <= Norm(x, mn, mx) <= 1.0
    ensures mn < mx ==> Norm(mn, mn, mx) == -1.0 && Norm(mx, mn, mx) == 1.0
  {
    if mx != mn {
      var d := mx - mn;
      assert 0.0 <= x - mn <= d;
      assert 0.0 <= (x - mn) / d <= 1.0;
      assert 2.0 * (x - mn) / d == 2.0 * ((x - mn) / d);
    }
  }

  /** The normalised value of v at index i over the window v[i-lookback+1..i+1]. */
  function NormAt(v: seq<real>, lookback: int, i: int): real
    requires lookback >= 1 && lookback - 1 <= i < |v|
  {
    Norm(v[i], MinRange(v, i - lookback + 1, i + 1), MaxRange(v, i - lookback + 1, i + 1))
  }

  /** A normalised line: a gap during the warm-up (i < lookback-1), else NormAt. */
  function NormLine(v: seq<real>, lookback: int): (line: seq<Option<real>>)
    requires lookback >= 1
    ensures |line| == |v|
  {
    seq(|v|, i requires 0 <= i < |v| => if i < lookback - 1 then None else Some(NormAt(v, lookback, i)))
  }

  /** The colour of a bar from its value and the previous bar's value. */
  function ColorOf(h: real, prev: real): BarColor
  {
    if h >= 0.0 then (if h > prev then StrongUp else WeakUp)
    else (if h < prev then StrongDown else WeakDown)
  }

  /** The previous bar's macd - signal, or 0 when there is none (bar 0 or a warm-up bar, whose values are null). */
  function PrevDiff(mNorm: seq<Option<real>>, sNorm: seq<Option<real>>, i: int): real
    requires |mNorm| == |sNorm| && 0 <= i <= |mNorm|
  {
    if i >= 1 && mNorm[i - 1].Some? && sNorm[i - 1].Some? then mNorm[i - 1].value - sNorm[i - 1].value else 0.0
  }

  function BarAt(data: seq<Candle>, mNorm: seq<Option<real>>, sNorm: seq<Option<real>>, i: int): HistBar
    requires |mNorm| == |sNorm| == |data| && 0 <= i < |data|
  {
    if mNorm[i].None? || sNorm[i].None? then HistBar(data[i].time, 0.0, Neutral)
    else
      var h := mNorm[i].value - sNorm[i].value;
      HistBar(data[i].time, h, ColorOf(h, PrevDiff(mNorm, sNorm, i)))
  }

  function Histogram(data: seq<Candle>, mNorm: seq<Option<real>>, sNorm: seq<Option<real>>): (bars: seq<HistBar>)
    requires |mNorm| == |sNorm| == |data|
    ensures |bars| == |data|
  {
    seq(|data|, i requires 0 <= i < |data| => BarAt(data, mNorm, sNorm, i))
  }

  function MacdRaw(prices: seq<real>, s: MacdSettings): (m: seq<real>)
    ensures |m| == |prices|
  {
    var fast, slow := Ema(prices, s.fastLength), Ema(prices, s.slowLength);
    seq(|prices|, i requires 0 <= i < |prices| => fast[i] - slow[i])
  }

  /** What `computeMACD(data, settings)` returns. */
  function MacdSeries(data: seq<Candle>, s: MacdSettings): MacdResult
    requires ClosesPresent(data) && s.normLookback >= 1
  {
    if |data| < s.fastLength || |data| < s.slowLength || |data| < s.normLookback then MacdResult([], [], [])
    else
      var macdRaw := MacdRaw(Prices(data), s);
      var mNorm := NormLine(macdRaw, s.normLookback);
      var sNorm := NormLine(Ema(macdRaw, s.signalLength), s.normLookback);
      MacdResult(Compact(Times(data), mNorm), Compact(Times(data), sNorm), Histogram(data, mNorm, sNorm))
  }

  /** `computeMACD`: two EMAs of the closes, the signal EMA, then one pass normalising and colouring. */
  method ComputeMACD(data: seq<Candle>, s: MacdSettings) returns (r: MacdResult)
    requires ClosesPresent(data) && s.normLookback >= 1
    ensures r == MacdSeries(data, s)
  {
    var prices := Prices(data);
    if |prices| < s.fastLength || |prices| < s.slowLength || |prices| < s.normLookback {
      return MacdResult([], [], []);
    }
    var emaFast := ComputeEMA(prices, s.fastLength);
    var emaSlow := ComputeEMA(prices, s.slowLength);
    var macdRaw := seq(|prices|, i requires 0 <= i < |prices| => emaFast[i] - emaSlow[i]);
    assert macdRaw == MacdRaw(prices, s);
    var signalRaw := ComputeEMA(macdRaw, s.signalLength);
    var macdNorm, signalNorm, histogram := NormaliseAndColour(data, macdRaw, signalRaw, s.normLookback);
    r := MacdResult(Compact(Times(data), macdNorm), Compact(Times(data), signalNorm), histogram);
  }

  /** The main loop of `computeMACD`: per candle, the two normalised values and the histogram bar. */
  method NormaliseAndColour(data: seq<Candle>, macdRaw: seq<real>, signalRaw: seq<real>, L: int)
    returns (macdNorm: seq<Option<real>>, signalNorm: seq<Option<real>>, histogram: seq<HistBar>)
    requires L >= 1 && |macdRaw| == |signalRaw| == |data|
    ensures macdNorm == NormLine(macdRaw, L) && signalNorm == NormLine(signalRaw, L)
    ensures histogram == Histogram(data, macdNorm, signalNorm)
  {
    macdNorm, signalNorm, histogram := [], [], [];
    ghost var mLine, sLine := NormLine(macdRaw, L), NormLine(signalRaw, L);
    for i := 0 to |data|
      invariant |macdNorm| == |signalNorm| == |histogram| == i
      invariant forall k :: 0 <= k < i ==> macdNorm[k] == mLine[k] && signalNorm[k] == sLine[k]
      invariant forall k :: 0 <= k < i ==> histogram[k] == BarAt(data, mLine, sLine, k)
    {
      if i < L - 1 {
        macdNorm := macdNorm + [None];
        signalNorm := signalNorm + [None];
        histogram := histogram + [HistBar(data[i].time, 0.0, Neutral)];
        continue;
      }
      var minMacd := MinRange(macdRaw, i - L + 1, i + 1);
      var maxMacd := MaxRange(macdRaw, i - L + 1, i + 1);
      var minSig := MinRange(signalRaw, i - L + 1, i + 1);
      var maxSig := MaxRange(signalRaw, i - L + 1, i + 1);

      var mNorm := Norm(macdRaw[i], minMacd, maxMacd);
      var sNorm := Norm(signalRaw[i], minSig, maxSig);
      var hNorm := mNorm - sNorm;
      var time := data[i].time;
      // `macdNorm[i-1]?.value - signalNorm[i-1]?.value || 0`: null - null and NaN both fall back to 0
      var prev := if i >= 1 && macdNorm[i - 1].Some? && signalNorm[i - 1].Some? then
        macdNorm[i - 1].value - signalNorm[i - 1].value else 0.0;
      assert prev == PrevDiff(mLine, sLine, i);
      macdNorm := macdNorm + [Some(mNorm)];
      signalNorm := signalNorm + [Some(sNorm)];
      var hColor := if hNorm >= 0.0 then (if hNorm > prev then StrongUp else WeakUp)
                    else (if hNorm < prev then StrongDown else WeakDown);
      histogram := histogram + [HistBar(time, hNorm, hColor)];
    }
  }

  // ---------------------------------------------------------------------------
  // Properties

  lemma NormLineBounds(v: seq<real>, lookback: int)
    requires lookback >= 1
    ensures forall i :: 0 <= i < |v| && NormLine(v, lookback)[i].Some? ==> -1.0 <= NormLine(v, lookback)[i].value <= 1.0
  {
    forall i | lookback - 1 <= i < |v|
      ensures -1.0 <= NormAt(v, lookback, i) <= 1.0
    {
      MinMaxRangeBound(v, i - lookback + 1, i + 1, i);
      NormBounds(v[i], MinRange(v, i - lookback + 1, i + 1), MaxRange(v, i - lookback + 1, i + 1));
    }
  }

  /** Every MACD and signal point lies in [-1, 1], and every histogram bar in [-2, 2]. */
  lemma MacdNormalised(data: seq<Candle>, s: MacdSettings)
    requires ClosesPresent(data) && s.normLookback >= 1
    ensures forall p :: p in MacdSeries(data, s).macd ==> -1.0 <= p.value <= 1.0
    ensures forall p :: p in MacdSeries(data, s).signal ==> -1.0 <= p.value <= 1.0
    ensures forall b :: b in MacdSeries(data, s).histogram ==> -2.0 <= b.value <= 2.0
  {
    if !(|data| < s.fastLength || |data| < s.slowLength || |data| < s.normLookback) {
      var macdRaw := MacdRaw(Prices(data), s);
      var mNorm := NormLine(macdRaw, s.normLookback);
      var sNorm := NormLine(Ema(macdRaw, s.signalLength), s.normLookback);
      NormLineBounds(macdRaw, s.normLookback);
      NormLineBounds(Ema(macdRaw, s.signalLength), s.normLookback);
      CompactBounded(Times(data), mNorm, -1.0, 1.0);
      CompactBounded(Times(data), sNorm, -1.0, 1.0);
      var bars := Histogram(data, mNorm, sNorm);
      forall b | b in bars
        ensures -2.0 <= b.value <= 2.0
      {
        var i :| 0 <= i < |bars| && bars[i] == b;
      }
    }
  }

  /**
   * With enough candles the MACD and signal lines have n-lookback+1 points, at the times of
   * data[lookback-1..]; the histogram has one bar per candle at the candle's time, and the
   * warm-up bars are 0 and neutral.
   */
  lemma MacdShape(data: seq<Candle>, s: MacdSettings)
    requires ClosesPresent(data) && s.normLookback >= 1
    requires |data| >= s.fastLength && |data| >= s.slowLength && |data| >= s.normLookback
    ensures |MacdSeries(data, s).macd| == |MacdSeries(data, s).signal| == |data| - s.normLookback + 1
    ensures forall j :: 0 <= j < |data| - s.normLookback + 1 ==>
      MacdSeries(data, s).macd[j].time == data[s.normLookback - 1 + j].time &&
      MacdSeries(data, s).signal[j].time == data[s.normLookback - 1 + j].time
    ensures |MacdSeries(data, s).histogram| == |data|
    ensures forall i :: 0 <= i < |data| ==> MacdSeries(data, s).histogram[i].time == data[i].time
    ensures forall i :: 0 <= i < s.normLookback - 1 && i < |data| ==> MacdSeries(data, s).histogram[i] == HistBar(data[i].time, 0.0, Neutral)
  {
    var macdRaw := MacdRaw(Prices(data), s);
    CompactSuffix(Times(data), NormLine(macdRaw, s.normLookback), s.normLookback - 1);
    CompactSuffix(Times(data), NormLine(Ema(macdRaw, s.signalLength), s.normLookback), s.normLookback - 1);
  }

  /** Past the warm-up each histogram bar is the MACD point minus the signal point of the same candle. */
  lemma HistogramIsDifference(data: seq<Candle>, s: MacdSettings, j: int)
    requires ClosesPresent(data) && s.normLookback >= 1
    requires |data| >= s.fastLength && |data| >= s.slowLength && |data| >= s.normLookback
    requires 0 <= j < |data| - s.normLookback + 1
    ensures |MacdSeries(data, s).macd| == |MacdSeries(data, s).signal| == |data| - s.normLookback + 1
    ensures MacdSeries(data, s).histogram[s.normLookback - 1 + j].value
         == MacdSeries(data, s).macd[j].value - MacdSeries(data, s).signal[j].value
  {
    var macdRaw := MacdRaw(Prices(data), s);
    CompactSuffix(Times(data), NormLine(macdRaw, s.normLookback), s.normLookback - 1);
    CompactSuffix(Times(data), NormLine(Ema(macdRaw, s.signalLength), s.normLookback), s.normLookback - 1);
  }

  /** A bar is green (strong or weak) exactly when its value is non-negative, and strong exactly when it moved away from zero. */
  lemma ColorMeaning(h: real, prev: real)
    ensures ColorOf(h, prev) in {StrongUp, WeakUp} <==> h >= 0.0
    ensures ColorOf(h, prev) == StrongUp <==> h >= 0.0 && h > prev
    ensures ColorOf(h, prev) == StrongDown <==> h < 0.0 && h < prev
  {
  }

  /** Flat closes give a zero MACD (both EMAs equal the price), so every MACD point is 0. */
  lemma MacdOfFlatPrices(data: seq<Candle>, s: MacdSettings, c: real)
    requires ClosesPresent(data) && s.normLookback >= 1
    requires forall i :: 0 <= i < |data| ==> data[i].close == Some(c)
    ensures forall p :: p in MacdSeries(data, s).macd ==> p.value == 0.0
  {
    var prices := Prices(data);
    var macdRaw := MacdRaw(prices, s);
    forall i | 0 <= i < |prices|
      ensures macdRaw[i] == 0.0
    {
      EmaOfConstant(prices, s.fastLength, i, c);
      EmaOfConstant(prices, s.slowLength, i, c);
    }
    var mNorm := NormLine(macdRaw, s.normLookback);
    forall i | 0 <= i < |mNorm| && mNorm[i].Some?
      ensures 0.0 <= mNorm[i].value <= 0.0
    {
      MinMaxRangeBound(macdRaw, i - s.normLookback + 1, i + 1, i);
      var k1 := MinRangeAttained(macdRaw, i - s.normLookback + 1, i + 1);
      var k2 := MaxRangeAttained(macdRaw, i - s.normLookback + 1, i + 1);
    }
    CompactBounded(Times(data), mNorm, 0.0, 0.0);
  }
}
