/**
 * Volume Profile (`computeVolumeProfile`, volumeProfile.js): the typical prices of all candles
 * span a price range cut into `priceBins` equal bins; each candle's volume goes to the bin of its
 * typical price; bins are then scaled by the largest bin volume.
 */
module VolumeProfile {
  import opened Series

  /** One bin while the volumes are summed. */
  datatype Bin = Bin(low: real, high: real, volume: real)

  /** One output bin: the bin plus its volume relative to the fullest bin and its centre price. */
  datatype ProfileBin = ProfileBin(low: real, high: real, volume: real, normalizedVolume: real, center: real)

  /** The typical price reads every candle's high, low and close, so each must have them. */
  predicate HasPrices(data: seq<Candle>)
  {
    forall k :: 0 <= k < |data| ==> data[k].high.Some? && data[k].low.Some? && data[k].close.Some?
  }

  // ---------------------------------------------------------------------------
  // Specification

  /** (high + low + close) / 3 of every candle. */
  function TypicalPrices(data: seq<Candle>): (tp: seq<real>)
    requires HasPrices(data)
    ensures |tp| == |data|
  {
    seq(|data|, i requires 0 <= i < |data| => (data[i].high.value + data[i].low.value + data[i].close.value) / 3.0)
  }

  /** `d.volume || 0` */
  function VolumeOf(c: Candle): real
  {
    c.volume.GetOr(0.0)
  }

  function BinLow(priceMin: real, binSize: real, i: int): real
  {
    priceMin + i as real * binSize
  }

  function BinHigh(priceMin: real, binSize: real, i: int): real
  {
    priceMin + (i + 1) as real * binSize
  }

  /** The bin of price p: floor((p - min) / size), clamped into [0, priceBins - 1]. */
  function BinIndex(p: real, priceMin: real, binSize: real, priceBins: int): (b: int)
    requires binSize != 0.0 && priceBins >= 1
    ensures 0 <= b < priceBins
  {
    var k := ((p - priceMin) / binSize).Floor;
    if k >= priceBins then priceBins - 1 else if k < 0 then 0 else k
  }

  /** The total volume of the first m candles whose typical price falls in bin b. */
  function VolumeIn(data: seq<Candle>, tp: seq<real>, priceMin: real, binSize: real, priceBins: int, b: int, m: int): real
    requires |tp| == |data| && 0 <= m <= |data| && binSize != 0.0 && priceBins >= 1
  {
    if m == 0 then 0.0
    else
      var v := if BinIndex(tp[m - 1], priceMin, binSize, priceBins) == b then VolumeOf(data[m - 1]) else 0.0;
      VolumeIn(data, tp, priceMin, binSize, priceBins, b, m - 1) + v
  }

  /** The largest of 0 and vs[..k] (`maxVolume`, starting at 0). */
  function MaxFromZero(vs: seq<real>, k: int): real
    requires 0 <= k <= |vs|
  {
    if k == 0 then 0.0 else Max(MaxFromZero(vs, k - 1), vs[k - 1])
  }

  /** The lowest typical price (the running `priceMin`). */
  function PriceMin(data: seq<Candle>): real
    requires HasPrices(data) && |data| >= 1
  {
    MinRange(TypicalPrices(data), 0, |data|)
  }

  /** The highest typical price (the running `priceMax`). */
  function PriceMax(data: seq<Candle>): real
    requires HasPrices(data) && |data| >= 1
  {
    MaxRange(TypicalPrices(data), 0, |data|)
  }

  /** The typical prices span a range of positive width, so the bins can be built. */
  predicate HasRange(data: seq<Candle>)
  {
    HasPrices(data) && |data| >= 1 && PriceMin(data) != PriceMax(data)
  }

  /** `(priceMax - priceMin) / priceBins` */
  function BinSize(data: seq<Candle>, priceBins: int): (size: real)
    requires HasRange(data) && priceBins >= 1
    ensures size * priceBins as real == PriceMax(data) - PriceMin(data)
  {
    (PriceMax(data) - PriceMin(data)) / priceBins as real
  }

  /** Bin b of the filled profile: its bounds and the volume of the candles counted in it. */
  function BinAt(data: seq<Candle>, priceBins: int, b: int): Bin
    requires HasRange(data) && priceBins >= 1
  {
    var priceMin, binSize := PriceMin(data), BinSize(data, priceBins);
    Bin(BinLow(priceMin, binSize, b), BinHigh(priceMin, binSize, b),
        VolumeIn(data, TypicalPrices(data), priceMin, binSize, priceBins, b, |data|))
  }

  /** The filled bins, before normalisation. */
  function FilledBins(data: seq<Candle>, priceBins: int): (bins: seq<Bin>)
    requires HasRange(data) && priceBins >= 1
    ensures |bins| == priceBins
  {
    seq(priceBins, b requires 0 <= b < priceBins => BinAt(data, priceBins, b))
  }

  function Volumes(bins: seq<Bin>): (vs: seq<real>)
    ensures |vs| == |bins|
  {
    seq(|bins|, b requires 0 <= b < |bins| => bins[b].volume)
  }

  function Normalised(bins: seq<Bin>, maxVolume: real): (out: seq<ProfileBin>)
    requires maxVolume != 0.0
    ensures |out| == |bins|
  {
    seq(|bins|, b requires 0 <= b < |bins| =>
      ProfileBin(bins[b].low, bins[b].high, bins[b].volume, bins[b].volume / maxVolume, (bins[b].low + bins[b].high) / 2.0))
  }

  /** What `computeVolumeProfile(data, { priceBins })` returns. */
  function Profile(data: seq<Candle>, priceBins: int): seq<ProfileBin>
    requires HasPrices(data) && priceBins >= 1
  {
    if |data| == 0 || PriceMin(data) == PriceMax(data) then []
    else
      var bins := FilledBins(data, priceBins);
      var maxVolume := MaxFromZero(Volumes(bins), priceBins);
      if maxVolume == 0.0 then [] else Normalised(bins, maxVolume)
  }

  // ---------------------------------------------------------------------------
  // The computation

  method ComputeVolumeProfile(data: seq<Candle>, priceBins: int) returns (result: seq<ProfileBin>)
    requires HasPrices(data) && priceBins >= 1
    ensures result == Profile(data, priceBins)
  {
    if |data| == 0 {
      return [];
    }
    var typicalPrices := TypicalPrices(data);
    var priceMin, priceMax := PriceRange(typicalPrices);
    if priceMin == priceMax {
      return [];
    }
    var bins := SumVolumes(data, priceBins, priceMin, priceMax);
    var maxVolume := 0.0;
    for b := 0 to priceBins
      invariant maxVolume == MaxFromZero(Volumes(bins[..]), b)
    {
      if bins[b].volume > maxVolume {
        maxVolume := bins[b].volume;
      }
    }
    if maxVolume == 0.0 {
      return [];
    }
    result := Normalised(bins[..], maxVolume);
  }

  /** The running minimum and maximum of the typical prices. */
  method PriceRange(typicalPrices: seq<real>) returns (priceMin: real, priceMax: real)
    requires |typicalPrices| >= 1
    ensures priceMin == MinRange(typicalPrices, 0, |typicalPrices|)
    ensures priceMax == MaxRange(typicalPrices, 0, |typicalPrices|)
  {
    // the first price replaces the source's Infinity / -Infinity starting values
    priceMin, priceMax := typicalPrices[0], typicalPrices[0];
    for i := 1 to |typicalPrices|
      invariant priceMin == MinRange(typicalPrices, 0, i) && priceMax == MaxRange(typicalPrices, 0, i)
    {
      MinMaxRangeSnoc(typicalPrices, 0, i);
      var p := typicalPrices[i];
      if p < priceMin {
        priceMin := p;
      }
      if p > priceMax {
        priceMax := p;
      }
    }
  }

  /** Creates the bins and adds every candle's volume to the bin of its typical price. */
  method SumVolumes(data: seq<Candle>, priceBins: int, priceMin: real, priceMax: real) returns (bins: array<Bin>)
    requires HasRange(data) && priceBins >= 1
    requires priceMin == PriceMin(data) && priceMax == PriceMax(data)
    ensures fresh(bins) && bins[..] == FilledBins(data, priceBins)
  {
    ghost var tp := TypicalPrices(data);
    var binSize := (priceMax - priceMin) / priceBins as real;
    assert binSize == BinSize(data, priceBins);
    bins := new Bin[priceBins](i => Bin(priceMin + i as real * binSize, priceMin + (i + 1) as real * binSize, 0.0));
    for i := 0 to |data|
      invariant forall b :: 0 <= b < priceBins ==>
        bins[b] == Bin(BinLow(priceMin, binSize, b), BinHigh(priceMin, binSize, b), VolumeIn(data, tp, priceMin, binSize, priceBins, b, i))
    {
      var p := (data[i].high.value + data[i].low.value + data[i].close.value) / 3.0;
      var v := data[i].volume.GetOr(0.0);
      var binIndex := ((p - priceMin) / binSize).Floor;
      if binIndex >= priceBins {
        binIndex := priceBins - 1;
      }
      if binIndex < 0 {
        binIndex := 0;
      }
      assert binIndex == BinIndex(tp[i], priceMin, binSize, priceBins);
      bins[binIndex] := bins[binIndex].(volume := bins[binIndex].volume + v);
    }
  }

  // ---------------------------------------------------------------------------
  // Properties

  lemma {:induction false} MinMaxRangeSnoc(v: seq<real>, lo: int, hi: int)
    requires 0 <= lo < hi < |v|
    ensures MinRange(v, lo, hi + 1) == Min(MinRange(v, lo, hi), v[hi])
    ensures MaxRange(v, lo, hi + 1) == Max(MaxRange(v, lo, hi), v[hi])
    decreases hi - lo
  {
    if lo + 1 < hi {
      MinMaxRangeSnoc(v, lo + 1, hi);
    }
  }

  /** Cutting [lo, hi] into n bins of width (hi - lo) / n: each bin is non-empty and ends where the next begins. */
  lemma {:induction false} Tiling(lo: real, hi: real, n: int, size: real)
    requires lo < hi && n >= 1 && size == (hi - lo) / n as real
    ensures BinLow(lo, size, 0) == lo
    ensures BinHigh(lo, size, n - 1) == hi
    ensures forall b :: BinLow(lo, size, b) < BinHigh(lo, size, b)
    ensures forall b :: BinHigh(lo, size, b) == BinLow(lo, size, b + 1)
  {
    assert size * n as real == hi - lo;
    assert size > 0.0;
    assert BinHigh(lo, size, n - 1) == lo + n as real * size;
  }

  /**
   * The bins are priceBins consecutive, touching, non-empty intervals that run from the lowest to
   * the highest typical price.
   */
  lemma {:induction false} BinsTileRange(data: seq<Candle>, priceBins: int)
    requires HasRange(data) && priceBins >= 1
    ensures FilledBins(data, priceBins)[0].low == PriceMin(data)
    ensures FilledBins(data, priceBins)[priceBins - 1].high == PriceMax(data)
    ensures forall b :: 0 <= b < priceBins ==> FilledBins(data, priceBins)[b].low < FilledBins(data, priceBins)[b].high
    ensures forall b :: 0 <= b < priceBins - 1 ==> FilledBins(data, priceBins)[b].high == FilledBins(data, priceBins)[b + 1].low
  {
    MinMaxRangeBound(TypicalPrices(data), 0, |data|, 0);
    Tiling(PriceMin(data), PriceMax(data), priceBins, BinSize(data, priceBins));
  }

  /** A price inside [lo, hi] lies inside the bin BinIndex puts it in. */
  lemma {:induction false} PriceInBin(p: real, lo: real, hi: real, n: int)
    requires lo <= p <= hi && lo < hi && n >= 1
    ensures BinLow(lo, (hi - lo) / n as real, BinIndex(p, lo, (hi - lo) / n as real, n)) <= p
    ensures p <= BinHigh(lo, (hi - lo) / n as real, BinIndex(p, lo, (hi - lo) / n as real, n))
  {
    var binSize := (hi - lo) / n as real;
    QuotientPositive(hi - lo, n as real);
    QuotientTimes(hi - lo, n as real);
    var k := FloorStep(p - lo, binSize);
    if k >= n {
      var b := n - 1;
      assert BinIndex(p, lo, binSize, n) == b;
      ScaleLe(b as real, k as real, binSize);
      assert b as real * binSize <= p - lo;
      assert (b + 1) as real * binSize == hi - lo;
      assert BinLow(lo, binSize, b) == lo + b as real * binSize;
      assert BinHigh(lo, binSize, b) == lo + (b + 1) as real * binSize;
    } else {
      assert BinIndex(p, lo, binSize, n) == k;
    }
  }

  /** The unclamped bin index of an offset d >= 0: floor(d / size), with its bin's bounds around d. */
  lemma FloorStep(d: real, size: real) returns (k: int)
    requires d >= 0.0 && size > 0.0
    ensures k == (d / size).Floor && k >= 0
    ensures k as real * size <= d < (k + 1) as real * size
  {
    var x := d / size;
    k := x.Floor;
    QuotientNonNegative(d, size);
    QuotientTimes(d, size);
    FloorBounds(d, size, x, k as real, (k + 1) as real);
  }

  /** A value x·size = d with lower <= x < upper lies in [lower·size, upper·size). */
  lemma FloorBounds(d: real, size: real, x: real, lower: real, upper: real)
    requires size > 0.0 && x * size == d && lower <= x < upper
    ensures lower * size <= d < upper * size
  {
    ScaleLe(lower, x, size);
    ScaleLt(x, upper, size);
  }

  lemma ScaleLt(a: real, b: real, c: real)
    requires a < b && c > 0.0
    ensures a * c < b * c
  {
  }

  lemma ScaleLe(a: real, b: real, c: real)
    requires a <= b && c >= 0.0
    ensures a * c <= b * c
  {
  }

  lemma QuotientPositive(a: real, b: real)
    requires a > 0.0 && b > 0.0
    ensures a / b > 0.0
  {
  }

  lemma QuotientNonNegative(a: real, b: real)
    requires a >= 0.0 && b > 0.0
    ensures a / b >= 0.0
  {
  }

  lemma QuotientTimes(a: real, b: real)
    requires b != 0.0
    ensures a / b * b == a
  {
  }

  /** The bin candle i is counted in. */
  function BinOf(data: seq<Candle>, priceBins: int, i: int): (b: int)
    requires HasRange(data) && priceBins >= 1 && 0 <= i < |data|
    ensures 0 <= b < priceBins
  {
    BinIndex(TypicalPrices(data)[i], PriceMin(data), BinSize(data, priceBins), priceBins)
  }

  /** Every candle is counted in a bin whose price interval contains its typical price. */
  lemma {:induction false} BinContainsPrice(data: seq<Candle>, priceBins: int, i: int)
    requires HasRange(data) && priceBins >= 1 && 0 <= i < |data|
    ensures FilledBins(data, priceBins)[BinOf(data, priceBins, i)].low <= TypicalPrices(data)[i]
    ensures TypicalPrices(data)[i] <= FilledBins(data, priceBins)[BinOf(data, priceBins, i)].high
  {
    MinMaxRangeBound(TypicalPrices(data), 0, |data|, i);
    PriceInBin(TypicalPrices(data)[i], PriceMin(data), PriceMax(data), priceBins);
  }

  function TotalVolume(data: seq<Candle>, m: int): real
    requires 0 <= m <= |data|
  {
    if m == 0 then 0.0 else TotalVolume(data, m - 1) + VolumeOf(data[m - 1])
  }

  /** Adding d to one entry of a sequence adds d to its sum. */
  lemma {:induction false} SumAddAt(v: seq<real>, w: seq<real>, lo: int, hi: int, k: int, d: real)
    requires |v| == |w| && 0 <= lo <= hi <= |v|
    requires forall j :: 0 <= j < |v| ==> w[j] == v[j] + (if j == k then d else 0.0)
    ensures Sum(w, lo, hi) == Sum(v, lo, hi) + (if lo <= k < hi then d else 0.0)
    decreases hi - lo
  {
    if lo < hi {
      SumAddAt(v, w, lo + 1, hi, k, d);
    }
  }

  function BinTotals(data: seq<Candle>, tp: seq<real>, priceMin: real, binSize: real, priceBins: int, m: int): (vs: seq<real>)
    requires |tp| == |data| && 0 <= m <= |data| && binSize != 0.0 && priceBins >= 1
    ensures |vs| == priceBins
  {
    seq(priceBins, b requires 0 <= b < priceBins => VolumeIn(data, tp, priceMin, binSize, priceBins, b, m))
  }

  lemma {:induction false} ConservationUpTo(data: seq<Candle>, tp: seq<real>, priceMin: real, binSize: real, priceBins: int, m: int)
    requires |tp| == |data| && 0 <= m <= |data| && binSize != 0.0 && priceBins >= 1
    ensures Sum(BinTotals(data, tp, priceMin, binSize, priceBins, m), 0, priceBins) == TotalVolume(data, m)
  {
    var vs := BinTotals(data, tp, priceMin, binSize, priceBins, m);
    if m == 0 {
      SumOfZeroes(vs, 0, priceBins);
    } else {
      ConservationUpTo(data, tp, priceMin, binSize, priceBins, m - 1);
      var k := BinIndex(tp[m - 1], priceMin, binSize, priceBins);
      SumAddAt(BinTotals(data, tp, priceMin, binSize, priceBins, m - 1), vs, 0, priceBins, k, VolumeOf(data[m - 1]));
    }
  }

  lemma {:induction false} SumOfZeroes(v: seq<real>, lo: int, hi: int)
    requires 0 <= lo <= hi <= |v|
    requires forall j :: lo <= j < hi ==> v[j] == 0.0
    ensures Sum(v, lo, hi) == 0.0
    decreases hi - lo
  {
    if lo < hi {
      SumOfZeroes(v, lo + 1, hi);
    }
  }

  /** The bins hold all the volume: the bin volumes add up to the total volume of the candles. */
  lemma {:induction false} VolumeConserved(data: seq<Candle>, priceBins: int)
    requires HasRange(data) && priceBins >= 1
    ensures Sum(Volumes(FilledBins(data, priceBins)), 0, priceBins) == TotalVolume(data, |data|)
  {
    var tp, priceMin, binSize := TypicalPrices(data), PriceMin(data), BinSize(data, priceBins);
    ConservationUpTo(data, tp, priceMin, binSize, priceBins, |data|);
    assert Volumes(FilledBins(data, priceBins)) == BinTotals(data, tp, priceMin, binSize, priceBins, |data|);
  }

  lemma {:induction false} MaxFromZeroBounds(vs: seq<real>, k: int) returns (top: int)
    requires 0 <= k <= |vs|
    ensures MaxFromZero(vs, k) >= 0.0
    ensures forall j :: 0 <= j < k ==> vs[j] <= MaxFromZero(vs, k)
    ensures MaxFromZero(vs, k) != 0.0 ==> 0 <= top < k && vs[top] == MaxFromZero(vs, k)
  {
    top := 0;
    if k > 0 {
      top := MaxFromZeroBounds(vs, k - 1);
      if vs[k - 1] >= MaxFromZero(vs, k - 1) {
        top := k - 1;
      }
    }
  }

  /**
   * Scaling non-negative volumes by the largest one puts every normalised volume in [0, 1] and gives
   * the fullest bin exactly 1.
   */
  lemma {:induction false} NormalisedBounds(bins: seq<Bin>) returns (top: int)
    requires forall b :: 0 <= b < |bins| ==> bins[b].volume >= 0.0
    requires MaxFromZero(Volumes(bins), |bins|) != 0.0
    ensures forall b :: 0 <= b < |bins| ==>
      0.0 <= Normalised(bins, MaxFromZero(Volumes(bins), |bins|))[b].normalizedVolume <= 1.0
    ensures 0 <= top < |bins| && Normalised(bins, MaxFromZero(Volumes(bins), |bins|))[top].normalizedVolume == 1.0
  {
    var vs := Volumes(bins);
    var maxVolume := MaxFromZero(vs, |bins|);
    top := MaxFromZeroBounds(vs, |bins|);
    var out := Normalised(bins, maxVolume);
    assert vs[top] == maxVolume;
    assert out[top].normalizedVolume == maxVolume / maxVolume == 1.0;
    forall b | 0 <= b < |bins|
      ensures 0.0 <= out[b].normalizedVolume <= 1.0
    {
      assert vs[b] <= maxVolume;
      UnitRatio(vs[b], maxVolume);
    }
  }

  lemma UnitRatio(v: real, m: real)
    requires 0.0 <= v <= m && m != 0.0
    ensures 0.0 <= v / m <= 1.0
  {
    assert v / m * m == v;
  }

  /** With non-negative volumes every normalised volume of the profile lies in [0, 1] and one is 1. */
  lemma {:induction false} NormalisedRange(data: seq<Candle>, priceBins: int) returns (top: int)
    requires HasPrices(data) && priceBins >= 1
    requires forall k :: 0 <= k < |data| ==> VolumeOf(data[k]) >= 0.0
    ensures forall b :: 0 <= b < |Profile(data, priceBins)| ==> 0.0 <= Profile(data, priceBins)[b].normalizedVolume <= 1.0
    ensures Profile(data, priceBins) != [] ==>
      0 <= top < |Profile(data, priceBins)| && Profile(data, priceBins)[top].normalizedVolume == 1.0
  {
    top := 0;
    if Profile(data, priceBins) != [] {
      var bins := FilledBins(data, priceBins);
      forall b | 0 <= b < priceBins
        ensures bins[b].volume >= 0.0
      {
        VolumeInNonNegative(data, TypicalPrices(data), PriceMin(data), BinSize(data, priceBins), priceBins, b, |data|);
      }
      top := NormalisedBounds(bins);
    }
  }

  lemma {:induction false} VolumeInNonNegative(data: seq<Candle>, tp: seq<real>, priceMin: real, binSize: real, priceBins: int, b: int, m: int)
    requires |tp| == |data| && 0 <= m <= |data| && binSize != 0.0 && priceBins >= 1
    requires forall k :: 0 <= k < |data| ==> VolumeOf(data[k]) >= 0.0
    ensures VolumeIn(data, tp, priceMin, binSize, priceBins, b, m) >= 0.0
  {
    if m > 0 {
      VolumeInNonNegative(data, tp, priceMin, binSize, priceBins, b, m - 1);
    }
  }

  /** No profile for an empty feed or when every typical price is the same. */
  lemma {:induction false} EmptyProfiles(data: seq<Candle>, priceBins: int)
    requires HasPrices(data) && priceBins >= 1
    requires |data| == 0 || forall k :: 0 <= k < |data| ==> TypicalPrices(data)[k] == TypicalPrices(data)[0]
    ensures Profile(data, priceBins) == []
  {
    if |data| > 0 {
      var tp := TypicalPrices(data);
      var a := MinRangeAttained(tp, 0, |data|);
      var b := MaxRangeAttained(tp, 0, |data|);
    }
  }

  /**
   * A non-empty profile has exactly priceBins bins covering the price range in order, each keeping
   * its filled volume and centred strictly inside its interval.
   */
  lemma {:induction false} ProfileShape(data: seq<Candle>, priceBins: int)
    requires HasPrices(data) && priceBins >= 1
    ensures Profile(data, priceBins) == [] || |Profile(data, priceBins)| == priceBins
    ensures Profile(data, priceBins) != [] ==>
      Profile(data, priceBins)[0].low == PriceMin(data) && Profile(data, priceBins)[priceBins - 1].high == PriceMax(data)
    ensures Profile(data, priceBins) != [] ==> forall b :: 0 <= b < priceBins ==>
      Profile(data, priceBins)[b].volume == FilledBins(data, priceBins)[b].volume
        && Profile(data, priceBins)[b].low < Profile(data, priceBins)[b].center < Profile(data, priceBins)[b].high
  {
    if Profile(data, priceBins) != [] {
      BinsTileRange(data, priceBins);
    }
  }
}
