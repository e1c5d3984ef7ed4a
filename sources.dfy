/**
 * Source-value extraction: which scalar of a candle an indicator reads (`getSourceValue` in
 * sma.js and rsi.js, and the smaller, case-insensitive variant in bollinger.js).
 */
module Sources {
  import opened Series

  datatype Source = Open | Close | High | Low | HL2 | HLC3 | OHLC4 | HLCC4 | Volume | VolumeMA

  /** The source names sma.js and rsi.js recognise; any other name reads the close. */
  function ParseSource(name: string): Source
  {
    match name
    case "open" => Open
    case "close" => Close
    case "high" => High
    case "low" => Low
    case "hl2" => HL2
    case "hlc3" => HLC3
    case "ohlc4" => OHLC4
    case "hlcc4" => HLCC4
    case "volume" => Volume
    case "volume_ma" => VolumeMA
    case _ => Close
  }

  function LowerChar(c: char): char
  {
    if 'A' <= c <= 'Z' then (c as int + 32) as char else c
  }

  /** `String.prototype.toLowerCase`, over the ASCII letters the source names use. */
  function ToLower(s: string): string
  {
    seq(|s|, i requires 0 <= i < |s| => LowerChar(s[i]))
  }

  /**
   * The names bollinger.js recognises after lower-casing: the eight price sources only, so
   * "volume" and "volume_ma" fall back to the close like any unknown name.
   */
  function ParseBollingerSource(name: string): (src: Source)
    ensures src != Volume && src != VolumeMA
  {
    match ToLower(name)
    case "open" => Open
    case "high" => High
    case "low" => Low
    case "close" => Close
    case "hl2" => HL2
    case "hlc3" => HLC3
    case "ohlc4" => OHLC4
    case "hlcc4" => HLCC4
    case _ => Close
  }

  /** The value of every source that reads one candle only: a gap unless every field it uses is finite. */
  function CandleValue(d: Candle, src: Source): Option<real>
    requires src != VolumeMA
  {
    match src
    case Open => d.open
    case Close => d.close
    case High => d.high
    case Low => d.low
    case HL2 =>
      if d.high.None? || d.low.None? then None
      else Some((d.high.value + d.low.value) / 2.0)
    case HLC3 =>
      if d.high.None? || d.low.None? || d.close.None? then None
      else Some((d.high.value + d.low.value + d.close.value) / 3.0)
    case OHLC4 =>
      if d.open.None? || d.high.None? || d.low.None? || d.close.None? then None
      else Some((d.open.value + d.high.value + d.low.value + d.close.value) / 4.0)
    case HLCC4 =>
      if d.high.None? || d.low.None? || d.close.None? then None
      else Some((d.high.value + d.low.value + d.close.value * 2.0) / 4.0)
    case Volume => d.volume
  }

  function Volumes(data: seq<Candle>): seq<Option<real>>
  {
    seq(|data|, i requires 0 <= i < |data| => data[i].volume)
  }

  /** The value of a source at index `index` of `data`; `volume_ma` averages the trailing `length` volumes. */
  function SourceValue(data: seq<Candle>, src: Source, index: int, length: int): Option<real>
    requires 0 <= index < |data| && length >= 1
  {
    if src == VolumeMA then WindowMean(Volumes(data), length, index)
    else CandleValue(data[index], src)
  }

  /** `data.map((d, i) => getSourceValue(d, source, i, data, length))` */
  function SourceValues(data: seq<Candle>, src: Source, length: int): (sv: seq<Option<real>>)
    requires length >= 1
    ensures |sv| == |data|
  {
    seq(|data|, i requires 0 <= i < |data| => SourceValue(data, src, i, length))
  }

  /** `getSourceValue` of sma.js and rsi.js, whose `volume_ma` case sums the trailing volumes in a loop. */
  method GetSourceValue(data: seq<Candle>, src: Source, index: int, length: int) returns (v: Option<real>)
    requires 0 <= index < |data| && length >= 1
    ensures v == SourceValue(data, src, index, length)
  {
    if src != VolumeMA {
      return CandleValue(data[index], src);
    }
    if index < length - 1 {
      return None;
    }
    ghost var vols := Volumes(data);
    var sum := 0.0;
    var count := 0;
    var i := 0;
    while i < length
      invariant 0 <= i <= length
      invariant sum == SumOpt(vols, index - i + 1, index + 1)
      invariant count == CountSome(vols, index - i + 1, index + 1)
    {
      var vol := data[index - i].volume;
      if vol.Some? {
        sum := sum + vol.value;
        count := count + 1;
      }
      i := i + 1;
    }
    CountSomeFull(vols, index - length + 1, index + 1);
    v := if count == length then Some(sum / length as real) else None;
  }

  /**
   * The composite sources are gaps unless every field they use is finite (no partial averaging),
   * and `hlcc4` weighs the close twice.
   */
  lemma CompositeSourceGaps(d: Candle)
    ensures CandleValue(d, HL2).Some? <==> d.high.Some? && d.low.Some?
    ensures CandleValue(d, HLC3).Some? <==> d.high.Some? && d.low.Some? && d.close.Some?
    ensures CandleValue(d, OHLC4).Some? <==> d.open.Some? && d.high.Some? && d.low.Some? && d.close.Some?
    ensures CandleValue(d, HLCC4).Some? <==> d.high.Some? && d.low.Some? && d.close.Some?
    ensures CandleValue(d, HLCC4).Some? ==>
      CandleValue(d, HLCC4).value == (d.high.value + d.low.value + d.close.value + d.close.value) / 4.0
  {
  }

  /** `volume_ma` is a gap before a full window or when any trailing volume is invalid; otherwise their mean. */
  lemma VolumeMaWindow(data: seq<Candle>, index: int, length: int)
    requires 0 <= index < |data| && length >= 1
    ensures SourceValue(data, VolumeMA, index, length).Some? <==>
      index >= length - 1 && forall k :: index - length + 1 <= k <= index ==> data[k].volume.Some?
    ensures SourceValue(data, VolumeMA, index, length).Some? ==>
      SourceValue(data, VolumeMA, index, length).value ==
        SumOpt(Volumes(data), index - length + 1, index + 1) / length as real
  {
    var vols := Volumes(data);
    assert forall k :: 0 <= k < |data| ==> vols[k] == data[k].volume;
  }

  /** A name that is none of the ten recognised ones reads the close. */
  lemma UnknownSourceReadsClose(name: string)
    requires name !in ["open", "close", "high", "low", "hl2", "hlc3", "ohlc4", "hlcc4", "volume", "volume_ma"]
    ensures ParseSource(name) == Close
  {
  }

  lemma {:induction false} ToLowerIdempotent(s: string)
    ensures ToLower(ToLower(s)) == ToLower(s)
  {
    assert forall i :: 0 <= i < |s| ==> LowerChar(LowerChar(s[i])) == LowerChar(s[i]);
  }

  /** bollinger.js matches source names case-insensitively: a name and its lower-case form select the same source. */
  lemma BollingerSourceIgnoresCase(name: string)
    ensures ParseBollingerSource(name) == ParseBollingerSource(ToLower(name))
    ensures ParseBollingerSource("HL2") == HL2 && ParseBollingerSource("Close") == Close
  {
    ToLowerIdempotent(name);
    assert ToLower("HL2") == "hl2";
    assert ToLower("Close") == "close";
  }
}
