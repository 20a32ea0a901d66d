/**
 * Stock scoring: four sub-scores over the indicator frame, a weighted
 * composite with the valuation scores, a five-way recommendation, ranking,
 * grouping into recommendations and the screener.
 */
module Scoring {
  import opened Base
  import opened Text
  import opened Sorting
  import opened Indicators
  import opened Valuation
  import StockService

  // ---- shared normalisation of a return into [0, 100] ----

  /** `max(0, min(100, ((x + half) / (2 * half)) * 100))` */
  function Normalize(x: real, half: real): (s: real)
    requires half > 0.0
    ensures 0.0 <= s <= 100.0
  {
    Clamp((x + half) / (2.0 * half) * 100.0, 0.0, 100.0)
  }

  /**
   * A zero return scores exactly 50, a non-negative return at least 50, a
   * return of `half` or more the full 100 and one of `-half` or less 0.
   */
  lemma NormalizeProperties(x: real, half: real)
    requires half > 0.0
    ensures Normalize(x, half) >= 50.0 <==> x >= 0.0
    ensures Normalize(x, half) == 50.0 <==> x == 0.0
    ensures Normalize(x, half) == 100.0 <==> x >= half
    ensures Normalize(x, half) == 0.0 <==> x <= -half
  {
    var d := 2.0 * half;
    var q := (x + half) / d;
    assert q * d == x + half;
    ProductSign(q - 0.5, d);
    ProductSign(q - 1.0, d);
    ProductSign(q, d);
  }

  /** Multiplying by a positive number keeps the sign. */
  lemma ProductSign(a: real, d: real)
    requires d > 0.0
    ensures a * d >= 0.0 <==> a >= 0.0
    ensures a * d > 0.0 <==> a > 0.0
    ensures a * d == 0.0 <==> a == 0.0
  {
    if a < 0.0 {
      assert (-a) * d > 0.0;
    }
  }

  /** A larger return never scores lower. */
  lemma NormalizeMonotone(x: real, y: real, half: real)
    requires half > 0.0 && x <= y
    ensures Normalize(x, half) <= Normalize(y, half)
  {
    var d := 2.0 * half;
    var qx, qy := (x + half) / d, (y + half) / d;
    assert qx * d == x + half && qy * d == y + half;
    assert (qy - qx) * d == y - x;
    assert qx <= qy;
  }

  // ---- calculate_momentum_score ----

  /**
   * The 4-day return of the short path with numpy division: a zero base close
   * gives +inf (score 100), -inf (score 0) or NaN, and `min(100, nan)` is 100.
   */
  function ShortMomentum(base: real, last: real): (s: real)
    ensures 0.0 <= s <= 100.0
    ensures base == 0.0 ==> (s == 0.0 <==> last < 0.0)
    ensures base == 0.0 && last >= 0.0 ==> s == 100.0
  {
    if base == 0.0 then (if last < 0.0 then 0.0 else 100.0)
    else Normalize((last - base) / base * 100.0, 10.0)
  }

  /** `safe_float`: NaN becomes the default, an infinity passes through. */
  function SafeFloat(x: Float, d: real): (r: Float)
    ensures r != NotANumber
    ensures x != NotANumber ==> r == x
  {
    if x == NotANumber then Finite(d) else x
  }

  /** One term `safe_float(x) * k` of the weighted return: finite unless `x` is an infinity. */
  function Term(x: Float, k: real): (r: Float)
    requires k > 0.0
    ensures r.Finite? <==> !x.PosInf? && !x.NegInf?
    ensures !r.Finite? ==> r == x
  {
    FScale(SafeFloat(x, 0.0), k)
  }

  /** `w1 * 0.5 + m1 * 0.3 + m3 * 0.2` in float64 after `safe_float`. */
  function Weighted(w1: Float, m1: Float, m3: Float): Float
  {
    FAdd(FAdd(Term(w1, 0.5), Term(m1, 0.3)), Term(m3, 0.2))
  }

  /** Weighted 1W/1M/3M return of a row; a NaN return counts as 0. */
  function WeightedReturn(row: Row): Float
  {
    Weighted(row.return1W, row.return1M, row.return3M)
  }

  /**
   * `max(0, min(100, ((w + 20) / 40) * 100))` on a float: `min(100, inf)`
   * and `min(100, nan)` are 100, and `max(0, -inf)` is 0.
   */
  function WeightedMomentum(w: Float): (s: real)
    ensures 0.0 <= s <= 100.0
  {
    if w.Finite? then Normalize(w.value, 20.0)
    else if w == NegInf then 0.0
    else 100.0
  }

  /** `calculate_momentum_score` */
  function MomentumScore(rows: seq<Row>): (s: real)
    ensures |rows| < 5 ==> s == 50.0
    ensures 0.0 <= s <= 100.0
  {
    if |rows| < 5 then 50.0
    else if |rows| < 20 then ShortMomentum(rows[|rows| - 5].bar.close, rows[|rows| - 1].bar.close)
    else WeightedMomentum(WeightedReturn(rows[|rows| - 1]))
  }

  /**
   * Momentum is at least neutral exactly when the price went up (short path)
   * or the weighted return is not below zero (NaN included).
   */
  lemma MomentumNeutralPoint(rows: seq<Row>)
    requires |rows| >= 5
    requires |rows| < 20 ==> rows[|rows| - 5].bar.close > 0.0
    ensures |rows| < 20 ==>
      (MomentumScore(rows) >= 50.0 <==> rows[|rows| - 1].bar.close >= rows[|rows| - 5].bar.close)
    ensures |rows| >= 20 ==>
      (MomentumScore(rows) >= 50.0 <==> !FLess(WeightedReturn(rows[|rows| - 1]), Finite(0.0)))
  {
    if |rows| < 20 {
      var b, l := rows[|rows| - 5].bar.close, rows[|rows| - 1].bar.close;
      var r := (l - b) / b;
      assert r * b == l - b;
      NormalizeProperties(r * 100.0, 10.0);
      assert r >= 0.0 <==> l >= b;
    } else {
      var w := WeightedReturn(rows[|rows| - 1]);
      if w.Finite? {
        NormalizeProperties(w.value, 20.0);
      }
    }
  }

  /** With every return finite the weighted return is finite: the plain weighted sum. */
  lemma WeightedOfFinite(a: real, b: real, c: real)
    ensures Weighted(Finite(a), Finite(b), Finite(c)) == Finite(a * 0.5 + b * 0.3 + c * 0.2)
  {
  }

  /** NaN returns count as 0. */
  lemma WeightedOfNaN(a: Float, b: Float, c: Float)
    ensures Weighted(NotANumber, b, c) == Weighted(Finite(0.0), b, c)
    ensures Weighted(a, NotANumber, c) == Weighted(a, Finite(0.0), c)
    ensures Weighted(a, b, NotANumber) == Weighted(a, b, Finite(0.0))
  {
    assert SafeFloat(NotANumber, 0.0) == SafeFloat(Finite(0.0), 0.0);
  }

  /**
   * An infinite 1W return alone (the others finite or NaN) makes the weighted
   * return that infinity.
   */
  lemma InfiniteWeekUp(a: Float, b: Float, c: Float)
    requires !b.PosInf? && !b.NegInf? && !c.PosInf? && !c.NegInf? && a == PosInf
    ensures Weighted(a, b, c) == PosInf
  {
    InfinityAbsorbs(a, Term(b, 0.3), Term(c, 0.2));
  }

  lemma InfiniteWeekDown(a: Float, b: Float, c: Float)
    requires !b.PosInf? && !b.NegInf? && !c.PosInf? && !c.NegInf? && a == NegInf
    ensures Weighted(a, b, c) == NegInf
  {
    InfinityAbsorbs(a, Term(b, 0.3), Term(c, 0.2));
  }

  lemma InfinityAbsorbs(x: Float, y: Float, z: Float)
    requires y.Finite? && z.Finite?
    ensures x == PosInf ==> FAdd(FAdd(x, y), z) == PosInf
    ensures x == NegInf ==> FAdd(FAdd(x, y), z) == NegInf
  {
  }

  // ---- calculate_technical_score ----

  function RsiPoints(rsi: real): (p: real)
    ensures p in {25.0, 15.0, 20.0, 5.0}
  {
    if 30.0 <= rsi <= 50.0 then 25.0
    else if 50.0 < rsi <= 70.0 then 15.0
    else if rsi < 30.0 then 20.0
    else 5.0
  }

  function MacdPoints(macd: real, signal: real): (p: real)
    ensures p in {25.0, 10.0}
  {
    if macd > signal then 25.0 else 10.0
  }

  /** 15 points for each positive SMA (NaN read as 0) the price is above. */
  function SmaPoints(price: real, sma20: Option<real>, sma50: Option<real>): (p: real)
    ensures 0.0 <= p <= 30.0
  {
    var s20, s50 := OrElse(sma20, 0.0), OrElse(sma50, 0.0);
    (if s20 > 0.0 && price > s20 then 15.0 else 0.0) + (if s50 > 0.0 && price > s50 then 15.0 else 0.0)
  }

  /** %B points; a NaN %B reads as 0.5. */
  function BandPoints(percent: Option<real>): (p: real)
    ensures p in {20.0, 10.0, 5.0}
  {
    var b := OrElse(percent, 0.5);
    if 0.2 <= b <= 0.5 then 20.0 else if 0.5 < b <= 0.8 then 10.0 else 5.0
  }

  /** `calculate_technical_score` */
  function TechnicalScore(rows: seq<Row>): (s: real)
    ensures |rows| < 10 ==> s == 50.0
    ensures 20.0 <= s <= 100.0
  {
    if |rows| < 10 then 50.0
    else
      var l := rows[|rows| - 1];
      Min(100.0, RsiPoints(l.rsi) + MacdPoints(l.macd, l.macdSignal)
                 + SmaPoints(l.bar.close, l.sma20, l.sma50) + BandPoints(l.bands.percent))
  }

  /**
   * The technical score is the full 100 exactly when the RSI is in [30, 50],
   * MACD is above its signal, the price is above both positive SMAs and %B is in [0.2, 0.5].
   */
  lemma TechnicalScoreFull(rows: seq<Row>)
    requires |rows| >= 10
    ensures var l := rows[|rows| - 1];
      TechnicalScore(rows) == 100.0 <==>
        30.0 <= l.rsi <= 50.0 && l.macd > l.macdSignal &&
        SmaPoints(l.bar.close, l.sma20, l.sma50) == 30.0 &&
        0.2 <= OrElse(l.bands.percent, 0.5) <= 0.5
  {
  }

  // ---- calculate_volume_score ----

  function VolumeRatios(rows: seq<Row>): (r: seq<Option<real>>)
    ensures |r| == |rows|
    ensures forall i :: 0 <= i < |rows| ==> r[i] == rows[i].volumeRatio
  {
    seq(|rows|, i requires 0 <= i < |rows| => rows[i].volumeRatio)
  }

  /** Average volume ratio of the last 10 rows (all rows when fewer). */
  function RecentVolumeRatio(rows: seq<Row>): Option<real>
  {
    MeanDefined(VolumeRatios(PyLast(rows, 10)))
  }

  /** `calculate_volume_score` */
  function VolumeScore(rows: seq<Row>): (s: real)
    ensures |rows| < 5 ==> s == 50.0
    ensures s in {35.0, 50.0, 65.0, 75.0}
  {
    if |rows| < 5 then 50.0
    else
      var avg := RecentVolumeRatio(rows);
      if avg.None? then 50.0
      else if avg.value > 1.5 then 75.0
      else if avg.value > 1.2 then 65.0
      else if avg.value < 0.7 then 35.0
      else 50.0
  }

  /** Above neutral iff the recent average ratio exceeds 1.2; below iff it is under 0.7. */
  lemma VolumeScoreOfAverage(rows: seq<Row>)
    requires |rows| >= 5
    ensures VolumeScore(rows) > 50.0 <==> Gt(RecentVolumeRatio(rows), Some(1.2))
    ensures VolumeScore(rows) < 50.0 <==> Lt(RecentVolumeRatio(rows), Some(0.7))
  {
  }

  /** With no defined volume ratio in the last ten rows the volume score stays neutral. */
  lemma VolumeScoreWithoutRatios(rows: seq<Row>)
    requires |rows| >= 10
    requires forall i :: |rows| - 10 <= i < |rows| ==> rows[i].volumeRatio.None?
    ensures VolumeScore(rows) == 50.0
  {
    var w := VolumeRatios(PyLast(rows, 10));
    assert forall i :: 0 <= i < |w| ==> w[i] == rows[|rows| - 10 + i].volumeRatio;
  }

  // ---- calculate_trend_score ----

  /**
   * Points for the change from the first to the last close, with numpy
   * division: a zero first close gives +inf, -inf or NaN (no points).
   */
  function TrendPoints(first: real, last: real): (p: real)
    ensures p in {20.0, 10.0, 0.0, -10.0, -20.0}
    ensures first == 0.0 ==> p == (if last > 0.0 then 20.0 else if last < 0.0 then -20.0 else 0.0)
  {
    if first == 0.0 then (if last > 0.0 then 20.0 else if last < 0.0 then -20.0 else 0.0)
    else
      var t := (last - first) / first * 100.0;
      if t > 5.0 then 20.0 else if t > 2.0 then 10.0 else if t < -5.0 then -20.0 else if t < -2.0 then -10.0 else 0.0
  }

  /** +15 when SMA20 is above SMA50, -10 otherwise; nothing unless both are positive. */
  function MaPoints(sma20: Option<real>, sma50: Option<real>): (p: real)
    ensures p in {15.0, -10.0, 0.0}
  {
    var s20, s50 := OrElse(sma20, 0.0), OrElse(sma50, 0.0);
    if s20 > 0.0 && s50 > 0.0 then (if s20 > s50 then 15.0 else -10.0) else 0.0
  }

  /** `calculate_trend_score` */
  function TrendScore(rows: seq<Row>): (s: real)
    ensures |rows| < 5 ==> s == 50.0
    ensures 20.0 <= s <= 85.0
  {
    if |rows| < 5 then 50.0
    else
      var l := rows[|rows| - 1];
      Clamp(50.0 + TrendPoints(rows[0].bar.close, l.bar.close) + MaPoints(l.sma20, l.sma50), 0.0, 100.0)
  }

  /** With a positive first close, a higher last close never gives fewer trend points. */
  lemma TrendPointsMonotone(first: real, last1: real, last2: real)
    requires first > 0.0 && last1 <= last2
    ensures TrendPoints(first, last1) <= TrendPoints(first, last2)
  {
    var u1, u2 := (last1 - first) / first, (last2 - first) / first;
    assert u1 * first == last1 - first && u2 * first == last2 - first;
    assert (u2 - u1) * first >= 0.0;
    assert u1 <= u2;
  }

  // ---- calculate_composite_score ----

  /** Weights 0.25, 0.30, 0.15, 0.15 and 0.15 (the last on the mean of valuation and PE scores). */
  function Composite(momentum: real, technical: real, volume: real, trend: real,
                     valuation: real, pe: real): (c: real)
  {
    momentum * 0.25 + technical * 0.30 + volume * 0.15 + trend * 0.15 + ((valuation + pe) / 2.0) * 0.15
  }

  /** The weights sum to 1: equal sub-scores give that score, and bounds carry over. */
  lemma CompositeWeighted(m: real, t: real, v: real, tr: real, val: real, pe: real, lo: real, hi: real)
    requires lo <= m <= hi && lo <= t <= hi && lo <= v <= hi && lo <= tr <= hi && lo <= val <= hi && lo <= pe <= hi
    ensures lo <= Composite(m, t, v, tr, val, pe) <= hi
    ensures Composite(lo, lo, lo, lo, lo, lo) == lo
  {
  }

  /** Raising any sub-score never lowers the composite. */
  lemma CompositeMonotone(m1: real, t1: real, v1: real, tr1: real, val1: real, pe1: real,
                          m2: real, t2: real, v2: real, tr2: real, val2: real, pe2: real)
    requires m1 <= m2 && t1 <= t2 && v1 <= v2 && tr1 <= tr2 && val1 <= val2 && pe1 <= pe2
    ensures Composite(m1, t1, v1, tr1, val1, pe1) <= Composite(m2, t2, v2, tr2, val2, pe2)
  {
  }

  // ---- generate_recommendation ----

  datatype Action = StrongBuy | Buy | Hold | Sell | StrongSell

  /** Higher is more bullish. */
  function ActionRank(a: Action): nat {
    match a
    case StrongSell => 0
    case Sell => 1
    case Hold => 2
    case Buy => 3
    case StrongBuy => 4
  }

  datatype Recommendation = Recommendation(
    action: Action, confidence: real, dcfMargin: real,
    upside: real, riskReward: real, buyTarget: real, sellTarget: real)

  /** `generate_recommendation`; missing target values read as 0. */
  function Recommend(composite: real, dcfMargin: real, targets: Option<Targets>): (r: Recommendation)
    ensures r.action == StrongBuy <==> composite >= 70.0 && dcfMargin > 20.0
    ensures r.action == Buy <==>
      !(composite >= 70.0 && dcfMargin > 20.0) && (composite >= 60.0 || (composite >= 50.0 && dcfMargin > 15.0))
    ensures r.action == Hold <==> r.action != StrongBuy && r.action != Buy && composite >= 45.0
    ensures r.action == Sell <==> 35.0 <= composite < 45.0
    ensures r.action == StrongSell <==> composite < 35.0
    ensures r.action == StrongBuy ==> r.confidence == Min(95.0, composite) && r.confidence <= 95.0
    ensures r.action == Buy ==> r.confidence == composite
    ensures r.action == Hold ==> r.confidence == 50.0
    ensures r.action == Sell ==> r.confidence == 100.0 - composite
    ensures r.action == StrongSell ==> r.confidence == Min(95.0, 100.0 - composite) && r.confidence <= 95.0
    ensures r.dcfMargin == dcfMargin
  {
    var (action, conf) :=
      if composite >= 70.0 && dcfMargin > 20.0 then (StrongBuy, Min(95.0, composite))
      else if composite >= 60.0 || (composite >= 50.0 && dcfMargin > 15.0) then (Buy, composite)
      else if composite >= 45.0 then (Hold, 50.0)
      else if composite >= 35.0 then (Sell, 100.0 - composite)
      else (StrongSell, Min(95.0, 100.0 - composite));
    if targets.None? then Recommendation(action, conf, dcfMargin, 0.0, 0.0, 0.0, 0.0)
    else
      var t := targets.value;
      Recommendation(action, conf, dcfMargin, t.upsideConservative, t.riskReward,
                     t.buyConservative, t.sellConservative)
  }

  /** For a fixed DCF margin a higher composite never gives a more bearish action. */
  lemma ActionMonotone(c1: real, c2: real, margin: real, t: Option<Targets>)
    requires c1 <= c2
    ensures ActionRank(Recommend(c1, margin, t).action) <= ActionRank(Recommend(c2, margin, t).action)
  {
  }

  // ---- one scored stock ----

  datatype ScoredStock = ScoredStock(
    symbol: string, name: string, sector: string, price: real,
    composite: real, momentum: real, technical: real, volume: real, trend: real,
    valuation: real, peScore: real,
    rsi: real, macdSignal: MacdBias, valuationStatus: Status, pe: real,
    recommendation: Recommendation, rank: Option<nat>)

  /** The margin of safety of the DCF dictionary, 0 when absent. */
  function DcfMargin(a: Analysis): real {
    if a.dcf.Some? && a.dcf.value.marginOfSafety.Some? then a.dcf.value.marginOfSafety.value else 0.0
  }

  /** The `get_stock_info` dictionary as scoring reads it; it always holds both keys. */
  datatype Listing = Listing(name: string, sector: string)

  /**
   * `calculate_composite_score` on the indicator frame. `listing` is the
   * stock-info fetch, which names the stock and its reported sector (the
   * symbol and "Unknown" when the fetch failed); `info` is the `ticker.info`
   * the valuation reads, and `valuationSector` the universe's sector of the
   * symbol ("General" when it is not listed) that the valuation's hurdle
   * uses. None for an empty frame.
   */
  function ScoreStock(symbol: string, listing: Option<Listing>, valuationSector: string, rows: seq<Row>,
                      info: Option<Info>): (r: Option<ScoredStock>)
    requires forall i :: 0 <= i < |rows| ==> 0.0 <= rows[i].rsi <= 100.0
    ensures r.Some? <==> |rows| > 0
    ensures r.Some? ==> r.value.name == (if listing.Some? then listing.value.name else symbol)
    ensures r.Some? ==> r.value.sector == (if listing.Some? then listing.value.sector else "Unknown")
    ensures r.Some? ==> 0.0 <= r.value.composite <= 100.0 && 0.0 <= r.value.rsi <= 100.0
    ensures r.Some? ==> r.value.rank.None? && r.value.symbol == symbol
    ensures r.Some? ==> r.value.composite == Composite(r.value.momentum, r.value.technical, r.value.volume,
                                                       r.value.trend, r.value.valuation, r.value.peScore)
    ensures r.Some? ==> r.value.recommendation.action == Recommend(r.value.composite, DcfMargin(FullAnalysis(info, valuationSector, rows)), None).action
    ensures r.Some? ==> (r.value.momentum == MomentumScore(rows) && r.value.technical == TechnicalScore(rows) &&
                         r.value.volume == VolumeScore(rows) && r.value.trend == TrendScore(rows))
    ensures r.Some? ==> var a := FullAnalysis(info, valuationSector, rows);
      r.value.valuation == a.score && r.value.peScore == a.peScore && r.value.valuationStatus == a.status &&
      r.value.recommendation == Recommend(r.value.composite, DcfMargin(a), a.targets)
    ensures r.Some? ==> (r.value.price == rows[|rows| - 1].bar.close && r.value.rsi == rows[|rows| - 1].rsi &&
                         (r.value.macdSignal == Bullish <==> rows[|rows| - 1].macd > rows[|rows| - 1].macdSignal))
  {
    if rows == [] then None
    else
      var a := FullAnalysis(info, valuationSector, rows);
      var m, t, v, tr := MomentumScore(rows), TechnicalScore(rows), VolumeScore(rows), TrendScore(rows);
      CompositeWeighted(m, t, v, tr, a.score, a.peScore, 0.0, 100.0);
      var c := Composite(m, t, v, tr, a.score, a.peScore);
      var l := rows[|rows| - 1];
      var name := if listing.Some? then listing.value.name else symbol;
      var sector := if listing.Some? then listing.value.sector else "Unknown";
      Some(ScoredStock(symbol, name, sector, l.bar.close, c, m, t, v, tr, a.score, a.peScore,
        l.rsi, if l.macd > l.macdSignal then Bullish else Bearish, a.status,
        if a.fundamentals.Some? then a.fundamentals.value.pe else 0.0,
        Recommend(c, DcfMargin(a), a.targets), None))
  }

  // ---- get_all_scored_stocks ----

  /** The input of one symbol: its fetched listing, universe sector, indicator frame and `ticker.info`. */
  datatype StockInput = StockInput(
    symbol: string, listing: Option<Listing>, valuationSector: string, rows: seq<Row>, info: Option<Info>)

  predicate WellFormed(x: StockInput) {
    forall i :: 0 <= i < |x.rows| ==> 0.0 <= x.rows[i].rsi <= 100.0
  }

  /** The stocks that scored, in input order. */
  function Scored(inputs: seq<StockInput>): (r: seq<ScoredStock>)
    requires forall k :: 0 <= k < |inputs| ==> WellFormed(inputs[k])
    ensures |r| <= |inputs|
    ensures forall k :: 0 <= k < |r| ==> r[k].rank.None? && 0.0 <= r[k].composite <= 100.0
  {
    if inputs == [] then []
    else
      var x := inputs[|inputs| - 1];
      assert WellFormed(x);
      var s := ScoreStock(x.symbol, x.listing, x.valuationSector, x.rows, x.info);
      Scored(inputs[..|inputs| - 1]) + (if s.Some? then [s.value] else [])
  }

  /** `sort(key=composite, reverse=True)`: Python's sort stays stable under `reverse`. */
  function ByCompositeDesc(a: ScoredStock, b: ScoredStock): bool { a.composite >= b.composite }

  /** Sort by composite, descending, then number the stocks 1..n. */
  method RankStocks(scored: seq<ScoredStock>) returns (ranked: seq<ScoredStock>)
    ensures |ranked| == |scored|
    ensures forall k :: 0 <= k < |ranked| ==> ranked[k] == SortBy(scored, ByCompositeDesc)[k].(rank := Some(k + 1))
    ensures forall i, j :: 0 <= i < j < |ranked| ==> ranked[i].composite >= ranked[j].composite
    ensures forall k :: 0 <= k < |ranked| ==> ranked[k].rank == Some(k + 1)
  {
    var sorted := SortBy(scored, ByCompositeDesc);
    SortBySorted(scored, ByCompositeDesc);
    ranked := [];
    var i := 0;
    while i < |sorted|
      invariant 0 <= i <= |sorted|
      invariant |ranked| == i
      invariant forall k :: 0 <= k < i ==> ranked[k] == sorted[k].(rank := Some(k + 1))
    {
      ranked := ranked + [sorted[i].(rank := Some(i + 1))];
      i := i + 1;
    }
  }

  /** Ranked stocks are the scored ones, each kept once. */
  lemma RankedArePermutation(scored: seq<ScoredStock>)
    ensures multiset(SortBy(scored, ByCompositeDesc)) == multiset(scored)
  {
  }

  /**
   * The scoring loop of `get_all_scored_stocks` once the frames are fetched:
   * score every symbol, keep the successes in order, sort and rank them.
   */
  method ScoreAndRank(inputs: seq<StockInput>) returns (ranked: seq<ScoredStock>)
    requires forall k :: 0 <= k < |inputs| ==> WellFormed(inputs[k])
    ensures |ranked| == |Scored(inputs)|
    ensures forall k :: 0 <= k < |ranked| ==> ranked[k] == SortBy(Scored(inputs), ByCompositeDesc)[k].(rank := Some(k + 1))
    ensures forall i, j :: 0 <= i < j < |ranked| ==> ranked[i].composite >= ranked[j].composite
  {
    var scored: seq<ScoredStock> := [];
    var i := 0;
    while i < |inputs|
      invariant 0 <= i <= |inputs|
      invariant scored == Scored(inputs[..i])
    {
      var x := inputs[i];
      assert WellFormed(x);
      var s := ScoreStock(x.symbol, x.listing, x.valuationSector, x.rows, x.info);
      assert inputs[..i + 1][..i] == inputs[..i];
      if s.Some? {
        scored := scored + [s.value];
      }
      i := i + 1;
    }
    assert inputs[..|inputs|] == inputs;
    ranked := RankStocks(scored);
  }

  /** `if cached:` on the `scored` slot: a stored, non-empty ranking. */
  predicate CacheHit(c: StockService.Cell<seq<ScoredStock>>) {
    c.Val? && c.v != []
  }

  /**
   * `get_all_scored_stocks`: a live, non-empty `scored` ranking of the
   * timeframe is returned as it is; otherwise every symbol is scored and
   * ranked, and the ranking is stored in the slot, which also refreshes the
   * timeframe's timestamp. `now` is the clock at the lookup, `later` at the store.
   */
  method AllScoredStocks(cache: StockService.DataCache<seq<ScoredStock>>, timeframe: string,
    inputs: seq<StockInput>, now: int, later: int) returns (ranked: seq<ScoredStock>)
    requires forall k :: 0 <= k < |inputs| ==> WellFormed(inputs[k])
    modifies cache
    ensures var hit := StockService.Lookup(old(cache.store), timeframe, "scored", now);
      CacheHit(hit) ==> ranked == hit.v && cache.store == old(cache.store)
    ensures var hit := StockService.Lookup(old(cache.store), timeframe, "scored", now);
      !CacheHit(hit) ==>
        |ranked| == |Scored(inputs)| &&
        (forall k :: 0 <= k < |ranked| ==> ranked[k] == SortBy(Scored(inputs), ByCompositeDesc)[k].(rank := Some(k + 1))) &&
        cache.store == StockService.Stored(old(cache.store), timeframe, "scored", ranked, later)
  {
    var cached := cache.Get(timeframe, "scored", now);
    if CacheHit(cached) {
      return cached.v;
    }
    ranked := ScoreAndRank(inputs);
    cache.Set(timeframe, "scored", ranked, later);
  }

  // ---- get_recommendations ----

  predicate IsAction(s: ScoredStock, a: Action) { s.recommendation.action == a }
  /** The list comprehension's test `s['recommendation']['action'] == a`. */
  function HasAction(a: Action): ScoredStock -> bool {
    s => IsAction(s, a)
  }

  predicate IsBuying(s: ScoredStock) { IsAction(s, StrongBuy) || IsAction(s, Buy) }
  predicate IsSelling(s: ScoredStock) { IsAction(s, StrongSell) || IsAction(s, Sell) }

  function ByConfidenceDesc(a: ScoredStock, b: ScoredStock): bool {
    a.recommendation.confidence >= b.recommendation.confidence
  }

  datatype Summary = Summary(strongBuy: nat, buy: nat, hold: nat, sell: nat, strongSell: nat, total: nat)

  datatype Recommendations = Recommendations(
    summary: Summary, topPicks: seq<ScoredStock>, avoidList: seq<ScoredStock>, all: seq<ScoredStock>)

  /**
   * The five highest-confidence stocks satisfying `p`, each taken once: all
   * candidates when there are at most five, and no candidate left out
   * outranks one kept.
   */
  function TopFive(all: seq<ScoredStock>, p: ScoredStock -> bool): (r: seq<ScoredStock>)
    ensures |r| == if |Filter(all, p)| <= 5 then |Filter(all, p)| else 5
    ensures multiset(r) <= multiset(Filter(all, p))
    ensures |Filter(all, p)| <= 5 ==> multiset(r) == multiset(Filter(all, p))
    ensures forall s :: s in r ==> s in all && p(s)
    ensures forall i, j :: 0 <= i < j < |r| ==>
      r[i].recommendation.confidence >= r[j].recommendation.confidence
    ensures forall s, t :: s in all && p(s) && s !in r && t in r ==>
      t.recommendation.confidence >= s.recommendation.confidence
  {
    var candidates := Filter(all, p);
    var n := if |candidates| <= 5 then |candidates| else 5;
    var r := SortBy(candidates, ByConfidenceDesc)[..n];
    SortedTop(candidates, ByConfidenceDesc, n);
    forall s, t | s in all && p(s) && s !in r && t in r
      ensures t.recommendation.confidence >= s.recommendation.confidence
    {
      assert s in candidates;
      assert ByConfidenceDesc(t, s);
    }
    r
  }

  /**
   * `get_recommendations` over the ranked stocks: the number of stocks with
   * each action, and the five most confident buying and selling stocks.
   */
  function GetRecommendations(all: seq<ScoredStock>): (r: Recommendations)
    ensures r.summary.total == |all|
    ensures r.summary.strongBuy == Count(all, HasAction(StrongBuy)) && r.summary.buy == Count(all, HasAction(Buy))
    ensures r.summary.hold == Count(all, HasAction(Hold))
    ensures r.summary.sell == Count(all, HasAction(Sell)) && r.summary.strongSell == Count(all, HasAction(StrongSell))
    ensures r.summary.strongBuy + r.summary.buy + r.summary.hold + r.summary.sell + r.summary.strongSell
            == r.summary.total
    ensures r.topPicks == TopFive(all, IsBuying) && r.avoidList == TopFive(all, IsSelling)
    ensures |r.topPicks| == if Count(all, IsBuying) <= 5 then Count(all, IsBuying) else 5
    ensures |r.avoidList| == if Count(all, IsSelling) <= 5 then Count(all, IsSelling) else 5
    ensures multiset(r.topPicks) <= multiset(Filter(all, IsBuying))
    ensures multiset(r.avoidList) <= multiset(Filter(all, IsSelling))
    ensures forall s :: s in r.topPicks ==> s in all && IsBuying(s)
    ensures forall s :: s in r.avoidList ==> s in all && IsSelling(s)
    ensures r.all == all
  {
    ActionCountsPartition(all);
    Recommendations(
      Summary(Count(all, HasAction(StrongBuy)), Count(all, HasAction(Buy)),
              Count(all, HasAction(Hold)), Count(all, HasAction(Sell)),
              Count(all, HasAction(StrongSell)), |all|),
      TopFive(all, IsBuying), TopFive(all, IsSelling), all)
  }

  /** Every stock has exactly one of the five actions, so the group counts add up to the total. */
  lemma {:induction false} ActionCountsPartition(all: seq<ScoredStock>)
    ensures Count(all, HasAction(StrongBuy)) + Count(all, HasAction(Buy))
          + Count(all, HasAction(Hold)) + Count(all, HasAction(Sell))
          + Count(all, HasAction(StrongSell)) == |all|
    decreases |all|
  {
    if all != [] {
      var init := all[..|all| - 1];
      ActionCountsPartition(init);
      assert init + [all[|all| - 1]] == all;
      var x := all[|all| - 1];
      FilterAppend(init, x, HasAction(StrongBuy));
      FilterAppend(init, x, HasAction(Buy));
      FilterAppend(init, x, HasAction(Hold));
      FilterAppend(init, x, HasAction(Sell));
      FilterAppend(init, x, HasAction(StrongSell));
    }
  }

  // ---- screen_stocks ----

  function MacdLabel(b: MacdBias): string {
    match b
    case Bullish => "Bullish"
    case Bearish => "Bearish"
  }

  function StatusLabel(s: Status): string {
    match s
    case Undervalued => "Undervalued"
    case SlightlyUndervalued => "Slightly Undervalued"
    case FairValue => "Fair Value"
    case SlightlyOvervalued => "Slightly Overvalued"
    case Overvalued => "Overvalued"
    case StatusUnknown => "Unknown"
  }

  /** Screener filters; an empty string or list, or None, is no filter. */
  datatype Filters = Filters(
    minScore: real, maxRsi: real, minRsi: real, sectors: seq<string>,
    macdSignal: string, valuationStatus: string, minUpside: Option<real>, maxPe: Option<real>)

  const DefaultFilters := Filters(0.0, 100.0, 0.0, [], "", "", None, None)

  predicate Passes(f: Filters, s: ScoredStock) {
    !(s.composite < f.minScore) &&
    !(s.rsi < f.minRsi || s.rsi > f.maxRsi) &&
    (f.sectors == [] || s.sector in f.sectors) &&
    (f.macdSignal == "" || MacdLabel(s.macdSignal) == f.macdSignal) &&
    (f.valuationStatus == "" || StatusLabel(s.valuationStatus) == f.valuationStatus) &&
    (f.minUpside.None? || !(s.recommendation.upside < f.minUpside.value)) &&
    (f.maxPe.None? || !(s.pe > f.maxPe.value))
  }

  /** `screen_stocks` over the ranked stocks. */
  method ScreenStocks(all: seq<ScoredStock>, f: Filters) returns (filtered: seq<ScoredStock>)
    ensures filtered == Filter(all, s => Passes(f, s))
    ensures IsSubsequence(filtered, all)
    ensures forall s :: s in filtered ==> s in all && Passes(f, s)
  {
    filtered := [];
    var i := 0;
    while i < |all|
      invariant 0 <= i <= |all|
      invariant filtered == Filter(all[..i], s => Passes(f, s))
    {
      var s := all[i];
      FilterAppend(all[..i], s, s => Passes(f, s));
      assert all[..i + 1] == all[..i] + [s];
      if Passes(f, s) {
        filtered := filtered + [s];
      }
      i := i + 1;
    }
    assert all[..|all|] == all;
    FilterIsSubsequence(all, s => Passes(f, s));
  }

  predicate PassesDefaults(s: ScoredStock) { Passes(DefaultFilters, s) }

  /** With every filter at its default, stocks with composite and RSI in [0, 100] all pass. */
  lemma {:induction false} DefaultFiltersKeepAll(all: seq<ScoredStock>)
    requires forall k :: 0 <= k < |all| ==> 0.0 <= all[k].composite <= 100.0 && 0.0 <= all[k].rsi <= 100.0
    ensures Filter(all, PassesDefaults) == all
    decreases |all|
  {
    if all != [] {
      var init := all[..|all| - 1];
      DefaultFiltersKeepAll(init);
      assert PassesDefaults(all[|all| - 1]);
      assert init + [all[|all| - 1]] == all;
      FilterAppend(init, all[|all| - 1], PassesDefaults);
    }
  }
}
