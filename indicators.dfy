/**
 * Technical indicators over a daily OHLCV series. Every indicator column is a
 * sequence as long as the input; a row where pandas would hold NaN holds `None`.
 */
module Indicators {
  import opened Base

  /** One row of the price frame as fetched: Open, High, Low, Close, Volume. */
  datatype Bar = Bar(open: real, high: real, low: real, close: real, volume: real)

  function Closes(bars: seq<Bar>): (r: seq<real>)
    ensures |r| == |bars|
    ensures forall i :: 0 <= i < |bars| ==> r[i] == bars[i].close
  {
    seq(|bars|, i requires 0 <= i < |bars| => bars[i].close)
  }

  function Volumes(bars: seq<Bar>): (r: seq<real>)
    ensures |r| == |bars|
    ensures forall i :: 0 <= i < |bars| ==> r[i] == bars[i].volume
  {
    seq(|bars|, i requires 0 <= i < |bars| => bars[i].volume)
  }

  /** `x.rolling(window=p).mean()`: undefined until a full window of `p` rows exists. */
  function RollingMean(x: seq<real>, p: nat): (r: seq<Option<real>>)
    requires p >= 1
    ensures |r| == |x|
    ensures forall i :: 0 <= i < |x| ==> (r[i].Some? <==> i >= p - 1)
  {
    seq(|x|, i requires 0 <= i < |x| => if i < p - 1 then None else Some(Mean(x[i - p + 1..i + 1])))
  }

  /** Every defined rolling mean lies within any bounds of the series. */
  lemma RollingMeanWithin(x: seq<real>, p: nat, lo: real, hi: real)
    requires p >= 1
    requires forall i :: 0 <= i < |x| ==> lo <= x[i] <= hi
    ensures forall i :: 0 <= i < |x| && RollingMean(x, p)[i].Some? ==>
      lo <= RollingMean(x, p)[i].value <= hi
  {
    forall i | 0 <= i < |x| && RollingMean(x, p)[i].Some?
      ensures lo <= RollingMean(x, p)[i].value <= hi
    {
      MeanBounds(x[i - p + 1..i + 1], lo, hi);
    }
  }

  /** A rolling mean of a non-negative series is non-negative. */
  lemma RollingMeanNonNegative(x: seq<real>, p: nat)
    requires p >= 1
    requires forall i :: 0 <= i < |x| ==> x[i] >= 0.0
    ensures forall i :: 0 <= i < |x| && RollingMean(x, p)[i].Some? ==> RollingMean(x, p)[i].value >= 0.0
  {
    forall i | 0 <= i < |x| && RollingMean(x, p)[i].Some?
      ensures RollingMean(x, p)[i].value >= 0.0
    {
      var w := x[i - p + 1..i + 1];
      MeanBounds(w, 0.0, SeqMax(w));
    }
  }

  /** SMA_p column (`calculate_sma`, periods 20, 50 and 200). */
  function Sma(bars: seq<Bar>, p: nat): seq<Option<real>>
    requires p >= 1
  {
    RollingMean(Closes(bars), p)
  }

  /** Smoothing factor of `ewm(span=s, adjust=False)`. */
  function Alpha(span: nat): (a: real)
    requires span >= 1
    ensures 0.0 < a <= 1.0
  {
    2.0 / (span as real + 1.0)
  }

  /** `ewm(alpha, adjust=False).mean()`: starts at the first value, then mixes in each new value. */
  function Ema(x: seq<real>, alpha: real): (r: seq<real>)
    ensures |r| == |x|
    ensures |x| > 0 ==> r[0] == x[0]
    ensures |x| > 1 ==> r[|x| - 1] == Mix(r[|x| - 2], x[|x| - 1], alpha)
  {
    if |x| <= 1 then x
    else
      var prev := Ema(x[..|x| - 1], alpha);
      prev + [Mix(prev[|x| - 2], x[|x| - 1], alpha)]
  }

  /** One smoothing step: the previous average weighted `1 - alpha`, the new value `alpha`. */
  function Mix(prev: real, v: real, alpha: real): real {
    (1.0 - alpha) * prev + alpha * v
  }

  /** An exponential average never leaves the range of its inputs. */
  lemma {:induction false} EmaWithin(x: seq<real>, alpha: real, lo: real, hi: real)
    requires 0.0 <= alpha <= 1.0
    requires forall i :: 0 <= i < |x| ==> lo <= x[i] <= hi
    ensures forall i :: 0 <= i < |x| ==> lo <= Ema(x, alpha)[i] <= hi
    decreases |x|
  {
    if |x| > 1 {
      var init := x[..|x| - 1];
      var prev, r := Ema(init, alpha), Ema(x, alpha);
      assert r[..|x| - 1] == prev;
      EmaWithin(init, alpha, lo, hi);
      EmaStepWithin(prev[|x| - 2], x[|x| - 1], alpha, lo, hi);
      assert r[|x| - 1] == Mix(prev[|x| - 2], x[|x| - 1], alpha);
      forall i | 0 <= i < |x| - 1 ensures lo <= r[i] <= hi {
        assert r[i] == prev[i];
      }
    }
  }

  lemma EmaStepWithin(p: real, v: real, alpha: real, lo: real, hi: real)
    requires 0.0 <= alpha <= 1.0
    requires lo <= p <= hi && lo <= v <= hi
    ensures lo <= Mix(p, v, alpha) <= hi
  {
    assert (1.0 - alpha) * p + alpha * v - lo == (1.0 - alpha) * (p - lo) + alpha * (v - lo);
    assert hi - ((1.0 - alpha) * p + alpha * v) == (1.0 - alpha) * (hi - p) + alpha * (hi - v);
    MulNonNegative(1.0 - alpha, p - lo);
    MulNonNegative(alpha, v - lo);
    MulNonNegative(1.0 - alpha, hi - p);
    MulNonNegative(alpha, hi - v);
  }

  lemma MulNonNegative(a: real, b: real)
    requires a >= 0.0 && b >= 0.0
    ensures a * b >= 0.0
  {
  }

  /** EMA_9, EMA_21 and EMA_50 columns (`calculate_ema`). */
  function EmaColumn(bars: seq<Bar>, span: nat): seq<real>
    requires span >= 1
  {
    Ema(Closes(bars), Alpha(span))
  }

  /** The MACD columns: line, signal line and histogram. */
  datatype MacdColumns = MacdColumns(line: seq<real>, signal: seq<real>, histogram: seq<real>)

  /** `calculate_macd` with fast 12, slow 26 and signal 9. */
  function Macd(bars: seq<Bar>): (m: MacdColumns)
    ensures |m.line| == |m.signal| == |m.histogram| == |bars|
    ensures forall i :: 0 <= i < |bars| ==> m.histogram[i] == m.line[i] - m.signal[i]
  {
    var fast := EmaColumn(bars, 12);
    var slow := EmaColumn(bars, 26);
    var line := seq(|bars|, i requires 0 <= i < |bars| => fast[i] - slow[i]);
    var signal := Ema(line, Alpha(9));
    MacdColumns(line, signal, seq(|bars|, i requires 0 <= i < |bars| => line[i] - signal[i]))
  }

  /** A flat price series has MACD, signal and histogram identically zero. */
  lemma MacdOfFlatSeries(bars: seq<Bar>, c: real)
    requires forall i :: 0 <= i < |bars| ==> bars[i].close == c
    ensures forall i :: 0 <= i < |bars| ==>
      Macd(bars).line[i] == 0.0 && Macd(bars).signal[i] == 0.0 && Macd(bars).histogram[i] == 0.0
  {
    EmaWithin(Closes(bars), Alpha(12), c, c);
    EmaWithin(Closes(bars), Alpha(26), c, c);
    var m := Macd(bars);
    EmaWithin(m.line, Alpha(9), 0.0, 0.0);
  }

  /** `delta.where(delta > 0, 0)`: the first row has no delta and counts as 0. */
  function Gains(c: seq<real>): (r: seq<real>)
    ensures |r| == |c|
    ensures forall i :: 0 <= i < |c| ==> r[i] >= 0.0
  {
    seq(|c|, i requires 0 <= i < |c| => if i == 0 then 0.0 else Max(c[i] - c[i - 1], 0.0))
  }

  /** `-delta.where(delta < 0, 0)` */
  function Losses(c: seq<real>): (r: seq<real>)
    ensures |r| == |c|
    ensures forall i :: 0 <= i < |c| ==> r[i] >= 0.0
  {
    seq(|c|, i requires 0 <= i < |c| => if i == 0 then 0.0 else Max(c[i - 1] - c[i], 0.0))
  }

  const RsiPeriod: nat := 14

  /**
   * One RSI value from the average gain and loss. A zero average loss is
   * replaced by NaN before dividing, and `fillna(50)` then yields 50.
   */
  function RsiValue(avgGain: Option<real>, avgLoss: Option<real>): real
    requires avgGain.Some? ==> avgGain.value >= 0.0
    requires avgLoss.Some? ==> avgLoss.value >= 0.0
  {
    if avgGain.Some? && avgLoss.Some? && avgLoss.value != 0.0 then
      100.0 - 100.0 / (1.0 + avgGain.value / avgLoss.value)
    else 50.0
  }

  /** The RSI column (`calculate_rsi`, period 14). */
  function Rsi(bars: seq<Bar>): (r: seq<real>)
    ensures |r| == |bars|
    ensures forall i :: 0 <= i < |bars| ==> 0.0 <= r[i] <= 100.0
    ensures forall i :: 0 <= i < |bars| && i < RsiPeriod - 1 ==> r[i] == 50.0
  {
    RsiOf(Closes(bars))
  }

  function RsiOf(c: seq<real>): (r: seq<real>)
    ensures |r| == |c|
    ensures forall i :: 0 <= i < |c| ==> 0.0 <= r[i] <= 100.0
    ensures forall i :: 0 <= i < |c| && i < RsiPeriod - 1 ==> r[i] == 50.0
  {
    var ag := RollingMean(Gains(c), RsiPeriod);
    var al := RollingMean(Losses(c), RsiPeriod);
    RollingMeanNonNegative(Gains(c), RsiPeriod);
    RollingMeanNonNegative(Losses(c), RsiPeriod);
    RsiValuesBounded(ag, al);
    seq(|c|, i requires 0 <= i < |c| => RsiValue(ag[i], al[i]))
  }

  lemma RsiValuesBounded(ag: seq<Option<real>>, al: seq<Option<real>>)
    requires |ag| == |al|
    requires forall i :: 0 <= i < |ag| && ag[i].Some? ==> ag[i].value >= 0.0
    requires forall i :: 0 <= i < |al| && al[i].Some? ==> al[i].value >= 0.0
    ensures forall i :: 0 <= i < |ag| ==> 0.0 <= RsiValue(ag[i], al[i]) <= 100.0
  {
    forall i | 0 <= i < |ag| ensures 0.0 <= RsiValue(ag[i], al[i]) <= 100.0 {
      if ag[i].Some? && al[i].Some? && al[i].value != 0.0 {
        RsiRatio(ag[i].value, al[i].value);
      }
    }
  }

  /** With a positive average loss, RSI is the gain's share of total movement, times 100. */
  lemma RsiRatio(g: real, l: real)
    requires g >= 0.0 && l > 0.0
    ensures RsiValue(Some(g), Some(l)) == 100.0 * g / (g + l)
    ensures 0.0 <= RsiValue(Some(g), Some(l)) < 100.0
  {
    var rs := g / l;
    assert rs * l == g;
    var d := 1.0 + rs;
    assert d * l == g + l;
    var q := 100.0 / d;
    assert q * d == 100.0;
    assert q * (g + l) == 100.0 * l by {
      assert q * (g + l) == q * (d * l) == (q * d) * l;
    }
    var t := 100.0 * g / (g + l);
    assert t * (g + l) == 100.0 * g;
    assert (100.0 - q) * (g + l) == 100.0 * g;
  }

  /**
   * A window of 14 rows without any falling close reports the neutral 50,
   * not 100: the zero average loss is treated as missing.
   */
  lemma RsiWithoutLossesIsNeutral(bars: seq<Bar>, i: nat)
    requires RsiPeriod - 1 <= i < |bars|
    requires forall j :: i - RsiPeriod + 1 <= j <= i && j >= 1 ==> bars[j].close >= bars[j - 1].close
    ensures Rsi(bars)[i] == 50.0
  {
    var c := Closes(bars);
    assert forall j :: i - RsiPeriod + 1 <= j <= i && j >= 1 ==> c[j] >= c[j - 1];
    WindowWithoutLosses(c, i);
  }

  lemma WindowWithoutLosses(c: seq<real>, i: nat)
    requires RsiPeriod - 1 <= i < |c|
    requires forall j :: i - RsiPeriod + 1 <= j <= i && j >= 1 ==> c[j] >= c[j - 1]
    ensures RsiOf(c)[i] == 50.0
  {
    var losses := Losses(c);
    var w := losses[i - RsiPeriod + 1..i + 1];
    forall k | 0 <= k < |w| ensures w[k] == 0.0 {
      assert w[k] == losses[i - RsiPeriod + 1 + k];
    }
    SumBounds(w, 0.0, 0.0);
    NoLossMeansNeutral(c, i);
  }

  lemma NoLossMeansNeutral(c: seq<real>, i: nat)
    requires RsiPeriod - 1 <= i < |c|
    requires Sum(Losses(c)[i - RsiPeriod + 1..i + 1]) == 0.0
    ensures RsiOf(c)[i] == 50.0
  {
    var losses := Losses(c);
    var w := losses[i - RsiPeriod + 1..i + 1];
    var al := RollingMean(losses, RsiPeriod);
    assert Mean(w) == 0.0;
    assert al[i] == Some(Mean(w));
  }

  /** Bollinger band values of one row. */
  datatype Bands = Bands(upper: Option<real>, middle: Option<real>, lower: Option<real>, percent: Option<real>)

  /**
   * `calculate_bollinger_bands` (period 20, two standard deviations). The
   * rolling standard deviation is an input: `std[i]` is the sample standard
   * deviation of the 20 closes ending at row i, undefined before row 19.
   * %B is undefined where the bands have zero width.
   */
  function Bollinger(bars: seq<Bar>, std: seq<Option<real>>): (r: seq<Bands>)
    requires |std| == |bars|
    requires forall i :: 0 <= i < |std| && std[i].Some? ==> std[i].value >= 0.0
    ensures |r| == |bars|
    ensures forall i :: 0 <= i < |bars| ==>
      (r[i].upper.Some? <==> r[i].lower.Some?) &&
      (r[i].upper.Some? ==>
        (r[i].middle.Some? && std[i].Some? &&
         r[i].upper.value - r[i].middle.value == 2.0 * std[i].value &&
         r[i].middle.value - r[i].lower.value == 2.0 * std[i].value &&
         r[i].lower.value <= r[i].middle.value <= r[i].upper.value))
  {
    var middle := RollingMean(Closes(bars), 20);
    seq(|bars|, i requires 0 <= i < |bars| => BandsAt(bars[i].close, middle[i], std[i]))
  }

  function BandsAt(close: real, middle: Option<real>, std: Option<real>): Bands
  {
    if middle.Some? && std.Some? then
      var upper := middle.value + 2.0 * std.value;
      var lower := middle.value - 2.0 * std.value;
      Bands(Some(upper), middle, Some(lower),
        if upper - lower != 0.0 then Some((close - lower) / (upper - lower)) else None)
    else Bands(None, middle, None, None)
  }

  /** %B lies in [0, 1] exactly when the close is inside the bands. */
  lemma PercentBInsideBands(close: real, middle: Option<real>, std: Option<real>)
    requires std.Some? ==> std.value >= 0.0
    requires BandsAt(close, middle, std).percent.Some?
    ensures var b := BandsAt(close, middle, std);
      0.0 <= b.percent.value <= 1.0 <==> b.lower.value <= close <= b.upper.value
  {
    var b := BandsAt(close, middle, std);
    var u, l := b.upper.value, b.lower.value;
    var pct := (close - l) / (u - l);
    assert u - l > 0.0;
    assert pct * (u - l) == close - l;
    assert 0.0 <= pct <==> l <= close;
    assert (pct - 1.0) * (u - l) == close - u;
    assert pct <= 1.0 <==> close <= u;
  }

  /** `max(high - low, |high - prev close|, |low - prev close|)`, NaN skipped on the first row. */
  function TrueRange(bars: seq<Bar>): (r: seq<real>)
    ensures |r| == |bars|
    ensures forall i :: 0 <= i < |bars| ==> r[i] >= bars[i].high - bars[i].low
    ensures forall i :: 1 <= i < |bars| ==> r[i] >= 0.0
  {
    seq(|bars|, i requires 0 <= i < |bars| => TrueRangeAt(bars, i))
  }

  function TrueRangeAt(bars: seq<Bar>, i: nat): (tr: real)
    requires i < |bars|
    ensures tr >= bars[i].high - bars[i].low
    ensures i >= 1 ==> tr >= 0.0
  {
    var b := bars[i];
    if i == 0 then b.high - b.low
    else Max(b.high - b.low, Max(Abs(b.high - bars[i - 1].close), Abs(b.low - bars[i - 1].close)))
  }

  function Abs(x: real): real { if x < 0.0 then -x else x }

  /** The ATR column (`calculate_atr`, period 14). */
  function Atr(bars: seq<Bar>): seq<Option<real>>
  {
    RollingMean(TrueRange(bars), 14)
  }

  /** ATR is at least the average high-low range of its window. */
  lemma AtrAtLeastAverageRange(bars: seq<Bar>, i: nat)
    requires 13 <= i < |bars|
    ensures Atr(bars)[i].Some?
    ensures Atr(bars)[i].value >=
      Mean(seq(14, k requires 0 <= k < 14 => bars[i - 13 + k].high - bars[i - 13 + k].low))
  {
    var tr := TrueRange(bars)[i - 13..i + 1];
    var hl := seq(14, k requires 0 <= k < 14 => bars[i - 13 + k].high - bars[i - 13 + k].low);
    MeanMonotone(hl, tr);
  }

  /** Volume_SMA (period 20). */
  function VolumeSma(bars: seq<Bar>): seq<Option<real>>
  {
    RollingMean(Volumes(bars), 20)
  }

  /** Volume / Volume_SMA; undefined while the average is undefined or zero. */
  function VolumeRatio(bars: seq<Bar>): (r: seq<Option<real>>)
    ensures |r| == |bars|
    ensures forall i :: 0 <= i < |bars| && r[i].Some? ==> i >= 19
  {
    var avg := VolumeSma(bars);
    seq(|bars|, i requires 0 <= i < |bars| =>
      if avg[i].Some? && avg[i].value != 0.0 then Some(bars[i].volume / avg[i].value) else None)
  }

  /** On-balance volume: cumulative volume signed by the direction of the close. */
  function Obv(bars: seq<Bar>): (r: seq<real>)
    ensures |r| == |bars|
    ensures |bars| > 0 ==> r[0] == 0.0
    ensures forall i :: 1 <= i < |bars| ==>
      (r[i] - r[i - 1] ==
        if bars[i].close > bars[i - 1].close then bars[i].volume
        else if bars[i].close < bars[i - 1].close then -bars[i].volume
        else 0.0)
  {
    if |bars| <= 1 then seq(|bars|, i => 0.0)
    else
      var n := |bars|;
      var prev := Obv(bars[..n - 1]);
      var step := if bars[n - 1].close > bars[n - 2].close then bars[n - 1].volume
        else if bars[n - 1].close < bars[n - 2].close then -bars[n - 1].volume
        else 0.0;
      prev + [prev[n - 2] + step]
  }

  /** A flat close series keeps OBV at zero. */
  lemma {:induction false} ObvOfFlatSeries(bars: seq<Bar>, c: real)
    requires forall i :: 0 <= i < |bars| ==> bars[i].close == c
    ensures forall i :: 0 <= i < |bars| ==> Obv(bars)[i] == 0.0
  {
    var r := Obv(bars);
    var k := 0;
    while k < |bars|
      invariant 0 <= k <= |bars|
      invariant forall i :: 0 <= i < k ==> r[i] == 0.0
    {
      if k >= 1 {
        assert r[k] - r[k - 1] == 0.0;
      }
      k := k + 1;
    }
  }

  /**
   * `((c - c.shift(k)) / c.shift(k)) * 100`: ROC_5, ROC_10, ROC_20. NaN on
   * the first k rows, then the percentage change from the close k rows back.
   */
  function Roc(c: seq<real>, k: nat): (r: seq<Float>)
    requires k >= 1
    ensures |r| == |c|
    ensures forall i :: 0 <= i < k && i < |c| ==> r[i] == NotANumber
    ensures forall i :: k <= i < |c| ==> r[i] == PercentChange(c[i], c[i - k])
  {
    seq(|c|, i requires 0 <= i < |c| => if i < k then NotANumber else PercentChange(c[i], c[i - k]))
  }

  /** `c.pct_change(periods=k) * 100`: Return_1W (5), Return_1M (21), Return_3M (63). */
  function PctChange(c: seq<real>, k: nat): (r: seq<Float>)
    requires k >= 1
    ensures |r| == |c|
  {
    seq(|c|, i requires 0 <= i < |c| =>
      if i < k then NotANumber else FScale(FAdd(FDiv(c[i], c[i - k]), Finite(-1.0)), 100.0))
  }

  /** The two ways the source writes a k-row return agree on every row, infinities included. */
  lemma RocIsPctChange(c: seq<real>, k: nat)
    requires k >= 1
    ensures Roc(c, k) == PctChange(c, k)
  {
    forall i | 0 <= i < |c| && i >= k
      ensures PercentChange(c[i], c[i - k]) == FScale(FAdd(FDiv(c[i], c[i - k]), Finite(-1.0)), 100.0)
    {
      PercentChangeShift(c[i], c[i - k]);
    }
  }

  lemma PercentChangeShift(a: real, b: real)
    ensures PercentChange(a, b) == FScale(FAdd(FDiv(a, b), Finite(-1.0)), 100.0)
  {
    if b != 0.0 {
      DivShift(a, b);
      assert FDiv(a - b, b) == Finite((a - b) / b);
      assert FAdd(FDiv(a, b), Finite(-1.0)) == Finite(a / b - 1.0);
    } else {
      assert a - b == a;
    }
  }

  lemma DivShift(a: real, b: real)
    requires b != 0.0
    ensures (a - b) / b == a / b - 1.0
  {
    assert b / b == 1.0;
    assert (a - b) / b == a / b - b / b;
  }

  /** All columns `calculate_all_indicators` adds, for one row. */
  datatype Row = Row(
    bar: Bar,
    sma20: Option<real>, sma50: Option<real>, sma200: Option<real>,
    ema9: real, ema21: real, ema50: real,
    rsi: real,
    macd: real, macdSignal: real, macdHistogram: real,
    bands: Bands,
    atr: Option<real>,
    volumeSma: Option<real>, volumeRatio: Option<real>, obv: real,
    roc5: Float, roc10: Float, roc20: Float,
    return1W: Float, return1M: Float, return3M: Float)

  /** The indicator columns `calculate_all_indicators` adds, each one value per row. */
  datatype Columns = Columns(
    sma20: seq<Option<real>>, sma50: seq<Option<real>>, sma200: seq<Option<real>>,
    ema9: seq<real>, ema21: seq<real>, ema50: seq<real>,
    rsi: seq<real>, macd: MacdColumns, bands: seq<Bands>, atr: seq<Option<real>>,
    volumeSma: seq<Option<real>>, volumeRatio: seq<Option<real>>, obv: seq<real>,
    roc5: seq<Float>, roc10: seq<Float>, roc20: seq<Float>,
    return1W: seq<Float>, return1M: seq<Float>, return3M: seq<Float>)

  /** Every column has one value per row. */
  predicate Sized(c: Columns, n: nat) {
    |c.sma20| == |c.sma50| == |c.sma200| == n &&
    |c.ema9| == |c.ema21| == |c.ema50| == n &&
    |c.rsi| == |c.macd.line| == |c.macd.signal| == |c.macd.histogram| == n &&
    |c.bands| == |c.atr| == |c.volumeSma| == |c.volumeRatio| == |c.obv| == n &&
    |c.roc5| == |c.roc10| == |c.roc20| == n &&
    |c.return1W| == |c.return1M| == |c.return3M| == n
  }

  /** The facts about the columns that the rows of the frame keep. */
  predicate ColumnsOk(c: Columns, n: nat) {
    Sized(c, n) &&
    (forall i :: 0 <= i < n ==> 0.0 <= c.rsi[i] <= 100.0) &&
    (forall i :: 0 <= i < n ==> c.macd.histogram[i] == c.macd.line[i] - c.macd.signal[i]) &&
    (forall i :: 0 <= i < n ==> (c.sma20[i].Some? <==> i >= 19)) &&
    (forall i :: 0 <= i < n && c.bands[i].upper.Some? ==>
      c.bands[i].lower.Some? && c.bands[i].middle.Some? &&
      c.bands[i].lower.value <= c.bands[i].middle.value <= c.bands[i].upper.value)
  }

  /** Each indicator of `calculate_all_indicators`, computed over the same bars. */
  function ColumnsOf(bars: seq<Bar>, std20: seq<Option<real>>): (cols: Columns)
    requires |std20| == |bars|
    requires forall i :: 0 <= i < |std20| && std20[i].Some? ==> std20[i].value >= 0.0
    ensures ColumnsOk(cols, |bars|)
  {
    var c := Closes(bars);
    Columns(Sma(bars, 20), Sma(bars, 50), Sma(bars, 200),
      EmaColumn(bars, 9), EmaColumn(bars, 21), EmaColumn(bars, 50),
      Rsi(bars), Macd(bars), Bollinger(bars, std20), Atr(bars),
      VolumeSma(bars), VolumeRatio(bars), Obv(bars),
      Roc(c, 5), Roc(c, 10), Roc(c, 20),
      PctChange(c, 5), PctChange(c, 21), PctChange(c, 63))
  }

  /** The frame: row `i` is bar `i` with every column's value at `i`. */
  function RowsOf(bars: seq<Bar>, c: Columns): (rows: seq<Row>)
    requires ColumnsOk(c, |bars|)
    ensures |rows| == |bars|
    ensures forall i :: 0 <= i < |bars| ==> rows[i].bar == bars[i]
    ensures forall i :: 0 <= i < |bars| ==> 0.0 <= rows[i].rsi <= 100.0
    ensures forall i :: 0 <= i < |bars| ==> rows[i].macdHistogram == rows[i].macd - rows[i].macdSignal
    ensures forall i :: 0 <= i < |bars| ==> (rows[i].sma20.Some? <==> i >= 19)
    ensures forall i :: 0 <= i < |bars| && rows[i].bands.upper.Some? ==>
      rows[i].bands.lower.Some? && rows[i].bands.middle.Some? &&
      rows[i].bands.lower.value <= rows[i].bands.middle.value <= rows[i].bands.upper.value
  {
    seq(|bars|, i requires 0 <= i < |bars| =>
      Row(bars[i], c.sma20[i], c.sma50[i], c.sma200[i], c.ema9[i], c.ema21[i], c.ema50[i], c.rsi[i],
        c.macd.line[i], c.macd.signal[i], c.macd.histogram[i], c.bands[i], c.atr[i],
        c.volumeSma[i], c.volumeRatio[i], c.obv[i],
        c.roc5[i], c.roc10[i], c.roc20[i], c.return1W[i], c.return1M[i], c.return3M[i]))
  }

  /** `calculate_all_indicators`: the bars with every indicator column, row by row. */
  function AllIndicators(bars: seq<Bar>, std20: seq<Option<real>>): (rows: seq<Row>)
    requires |std20| == |bars|
    requires forall i :: 0 <= i < |std20| && std20[i].Some? ==> std20[i].value >= 0.0
    ensures |rows| == |bars|
    ensures forall i :: 0 <= i < |bars| ==> rows[i].bar == bars[i]
    ensures forall i :: 0 <= i < |bars| ==> 0.0 <= rows[i].rsi <= 100.0
    ensures forall i :: 0 <= i < |bars| ==> rows[i].macdHistogram == rows[i].macd - rows[i].macdSignal
    ensures forall i :: 0 <= i < |bars| ==> (rows[i].sma20.Some? <==> i >= 19)
    ensures forall i :: 0 <= i < |bars| && rows[i].bands.upper.Some? ==>
      rows[i].bands.lower.Some? && rows[i].bands.middle.Some? &&
      rows[i].bands.lower.value <= rows[i].bands.middle.value <= rows[i].bands.upper.value
  {
    RowsOf(bars, ColumnsOf(bars, std20))
  }

  // ---- get_indicator_signals ----

  datatype RsiZone = Oversold | Overbought | RsiNeutral
  datatype MacdBias = Bullish | Bearish
  datatype Crossover = GoldenCross | DeathCross
  datatype MaTrend = StrongUptrend | StrongDowntrend | Mixed
  datatype BandPosition = NearUpper | NearLower | MiddleBand
  datatype VolumeLevel = HighVolume | LowVolume | NormalVolume

  datatype Signals = Signals(
    rsi: real, rsiZone: RsiZone,
    macd: real, macdSignal: real, macdHistogram: real, macdBias: MacdBias, crossover: Option<Crossover>,
    sma20: Option<real>, sma50: Option<real>, sma200: Option<real>,
    aboveSma20: bool, aboveSma50: bool, aboveSma200: bool, trend: MaTrend,
    bands: Bands, bandPosition: BandPosition,
    volume: int, volumeAverage: int, volumeRatio: Option<real>, volumeLevel: VolumeLevel,
    roc5: Float, roc10: Float,
    return1W: Float, return1M: Float, return3M: Float,
    atr: Option<real>, atrPercent: Option<real>)

  /**
   * Outcome of `get_indicator_signals`: `{}` below two rows; a ValueError when
   * `int()` meets the NaN volume average of a frame shorter than 20 rows.
   */
  datatype SignalReport = NoSignals | VolumeAverageUndefined | Report(signals: Signals)

  function RsiZoneOf(rsi: real): (z: RsiZone)
    ensures z == Oversold <==> rsi < 30.0
    ensures z == Overbought <==> rsi > 70.0
  {
    if rsi < 30.0 then Oversold else if rsi > 70.0 then Overbought else RsiNeutral
  }

  function CrossoverOf(prevMacd: real, prevSignal: real, macd: real, signal: real): (c: Option<Crossover>)
    ensures c == Some(GoldenCross) <==> prevMacd <= prevSignal && macd > signal
    ensures c == Some(DeathCross) <==> prevMacd >= prevSignal && macd < signal
  {
    if prevMacd <= prevSignal && macd > signal then Some(GoldenCross)
    else if prevMacd >= prevSignal && macd < signal then Some(DeathCross)
    else None
  }

  /** `a > b > c` with NaN comparing false. */
  function TrendOf(s20: Option<real>, s50: Option<real>, s200: Option<real>): (t: MaTrend)
    ensures t == StrongUptrend ==> s20.Some? && s50.Some? && s200.Some? && s20.value > s50.value > s200.value
    ensures t == StrongDowntrend ==> s20.Some? && s50.Some? && s200.Some? && s20.value < s50.value < s200.value
    ensures s20.Some? && s50.Some? && s200.Some? && s20.value > s50.value > s200.value ==> t == StrongUptrend
    ensures s20.Some? && s50.Some? && s200.Some? && s20.value < s50.value < s200.value ==> t == StrongDowntrend
    ensures t == Mixed <==> !(Gt(s20, s50) && Gt(s50, s200)) && !(Lt(s20, s50) && Lt(s50, s200))
  {
    if Gt(s20, s50) && Gt(s50, s200) then StrongUptrend
    else if Lt(s20, s50) && Lt(s50, s200) then StrongDowntrend
    else Mixed
  }

  function BandPositionOf(pct: Option<real>): BandPosition
  {
    if Gt(pct, Some(0.8)) then NearUpper else if Lt(pct, Some(0.2)) then NearLower else MiddleBand
  }

  function VolumeLevelOf(ratio: Option<real>): VolumeLevel
  {
    if Gt(ratio, Some(1.5)) then HighVolume else if Lt(ratio, Some(0.5)) then LowVolume else NormalVolume
  }

  /** Python's `int(x)` on a float: truncation toward zero. */
  function Trunc(x: real): int
  {
    if x >= 0.0 then x.Floor else -((-x).Floor)
  }

  /** `get_indicator_signals` over the indicator frame (values not rounded). */
  function IndicatorSignals(rows: seq<Row>): (r: SignalReport)
    ensures |rows| < 2 <==> r == NoSignals
    ensures r == VolumeAverageUndefined <==> |rows| >= 2 && rows[|rows| - 1].volumeSma.None?
    ensures r.Report? ==>
      (r.signals.rsiZone == Oversold <==> rows[|rows| - 1].rsi < 30.0) &&
      (r.signals.rsiZone == Overbought <==> rows[|rows| - 1].rsi > 70.0)
    ensures r.Report? && r.signals.crossover == Some(GoldenCross) ==> r.signals.macdBias == Bullish
    ensures r.Report? && r.signals.crossover == Some(DeathCross) ==> r.signals.macdBias == Bearish
  {
    if |rows| < 2 then NoSignals
    else
      var latest := rows[|rows| - 1];
      var prev := rows[|rows| - 2];
      if latest.volumeSma.None? then VolumeAverageUndefined
      else
        var close := latest.bar.close;
        Report(Signals(
          latest.rsi, RsiZoneOf(latest.rsi),
          latest.macd, latest.macdSignal, latest.macdHistogram,
          if latest.macd > latest.macdSignal then Bullish else Bearish,
          CrossoverOf(prev.macd, prev.macdSignal, latest.macd, latest.macdSignal),
          latest.sma20, latest.sma50, latest.sma200,
          Gt(Some(close), latest.sma20), Gt(Some(close), latest.sma50), Gt(Some(close), latest.sma200),
          TrendOf(latest.sma20, latest.sma50, latest.sma200),
          latest.bands, BandPositionOf(latest.bands.percent),
          Trunc(latest.bar.volume), Trunc(latest.volumeSma.value), latest.volumeRatio,
          VolumeLevelOf(latest.volumeRatio),
          latest.roc5, latest.roc10, latest.return1W, latest.return1M, latest.return3M,
          latest.atr,
          if close > 0.0 then (if latest.atr.Some? then Some(latest.atr.value / close * 100.0) else None)
          else Some(0.0)))
  }
}
