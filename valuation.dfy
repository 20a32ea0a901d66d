/**
 * Valuation: EPS-based discounted cash flow with a Gordon-growth terminal
 * value, CAPM hurdle rate, PE step score, market-cap classes, an additive
 * valuation score and ATR-based price targets.
 */
module Valuation {
  import opened Base
  import opened Indicators

  // ---- calculate_dcf_value ----

  function Pow(x: real, n: nat): (p: real)
    ensures x != 0.0 ==> p != 0.0
    ensures x > 0.0 ==> p > 0.0
  {
    if n == 0 then 1.0 else x * Pow(x, n - 1)
  }

  /** Present value of the projected earnings of years 1..n. */
  function PvEarnings(eps: real, g: real, r: real, n: nat): real
    requires 1.0 + r != 0.0 || n == 0
  {
    if n == 0 then 0.0 else PvEarnings(eps, g, r, n - 1) + eps * Pow(1.0 + g, n) / Pow(1.0 + r, n)
  }

  /** Outcome of `calculate_dcf_value`. */
  datatype Dcf =
    | NoEarnings                 // eps <= 0: every value 0, margin of safety 0
    | Projected(intrinsic: real, pvEarnings: real, terminalPv: real)
    | DivisionByZero             // discount rate equal to terminal growth, or 1 + rate == 0

  /** The DCF value the source computes, stated in closed form. */
  function DcfOf(eps: real, g: real, r: real, tg: real, years: nat): Dcf
  {
    if eps <= 0.0 then NoEarnings
    else if (1.0 + r == 0.0 && years >= 1) || r - tg == 0.0 then DivisionByZero
    else
      var pv := PvEarnings(eps, g, r, years);
      var terminalPv := TerminalPv(eps * Pow(1.0 + g, years), r, tg, years);
      Projected(pv + terminalPv, pv, terminalPv)
  }

  /** Gordon-growth terminal value after the last projected EPS, discounted over the projection. */
  function TerminalPv(finalEps: real, r: real, tg: real, years: nat): real
    requires r - tg != 0.0 && (1.0 + r != 0.0 || years == 0)
  {
    finalEps * (1.0 + tg) / (r - tg) / Pow(1.0 + r, years)
  }

  /**
   * `calculate_dcf_value`: projects EPS year by year, discounts each year,
   * then adds the discounted terminal value.
   */
  method ComputeDcf(eps: real, g: real, r: real, tg: real, years: nat) returns (d: Dcf)
    ensures d == DcfOf(eps, g, r, tg, years)
  {
    if eps <= 0.0 {
      return NoEarnings;
    }
    if 1.0 + r == 0.0 && years >= 1 {
      return DivisionByZero;   // 0.0 ** 1 is 0.0; the first discount divides by it
    }
    var currentEps, pv := ProjectEarnings(eps, g, r, years);
    if r - tg == 0.0 {
      return DivisionByZero;
    }
    var terminal := currentEps * (1.0 + tg) / (r - tg);
    var terminalPv := terminal / Pow(1.0 + r, years);
    assert terminalPv == TerminalPv(currentEps, r, tg, years);
    d := Projected(pv + terminalPv, pv, terminalPv);
    DcfOfProjected(eps, g, r, tg, years, currentEps, pv);
  }

  /**
   * The projection loop of `calculate_dcf_value`: for years 1..n, grow the
   * EPS once and add its value discounted to today.
   */
  method ProjectEarnings(eps: real, g: real, r: real, years: nat) returns (currentEps: real, pv: real)
    requires 1.0 + r != 0.0 || years == 0
    ensures currentEps == eps * Pow(1.0 + g, years)
    ensures pv == PvEarnings(eps, g, r, years)
  {
    currentEps := eps;
    pv := 0.0;
    var year := 1;
    while year <= years
      invariant 1 <= year <= years + 1
      invariant currentEps == eps * Pow(1.0 + g, year - 1)
      invariant pv == PvEarnings(eps, g, r, year - 1)
    {
      ProjectionStep(eps, g, r, year, currentEps, pv);
      currentEps := currentEps * (1.0 + g);
      var presentValue := currentEps / Pow(1.0 + r, year);
      pv := pv + presentValue;
      year := year + 1;
    }
  }

  /** `DcfOf` once the loop has grown the EPS `years` times and summed the discounted years. */
  lemma DcfOfProjected(eps: real, g: real, r: real, tg: real, years: nat, finalEps: real, pv: real)
    requires eps > 0.0 && !((1.0 + r == 0.0 && years >= 1) || r - tg == 0.0)
    requires finalEps == eps * Pow(1.0 + g, years)
    requires pv == PvEarnings(eps, g, r, years)
    ensures DcfOf(eps, g, r, tg, years)
         == Projected(pv + TerminalPv(finalEps, r, tg, years), pv, TerminalPv(finalEps, r, tg, years))
  {
    var t := TerminalPv(finalEps, r, tg, years);
    assert t == TerminalPv(eps * Pow(1.0 + g, years), r, tg, years);
  }

  /** One year of the projection loop: grow the EPS once more and add its discounted value. */
  lemma ProjectionStep(eps: real, g: real, r: real, year: nat, currentEps: real, pv: real)
    requires 1.0 + r != 0.0 && year >= 1
    requires currentEps == eps * Pow(1.0 + g, year - 1)
    requires pv == PvEarnings(eps, g, r, year - 1)
    ensures currentEps * (1.0 + g) == eps * Pow(1.0 + g, year)
    ensures pv + currentEps * (1.0 + g) / Pow(1.0 + r, year) == PvEarnings(eps, g, r, year)
  {
    var x, p0 := 1.0 + g, Pow(1.0 + g, year - 1);
    assert Pow(1.0 + g, year) == x * p0;
    MulRotate(eps, p0, x);
    var grown, discount := currentEps * x, Pow(1.0 + r, year);
    assert grown == eps * Pow(1.0 + g, year);
    assert PvEarnings(eps, g, r, year) == pv + eps * Pow(1.0 + g, year) / discount;
  }

  lemma MulRotate(a: real, b: real, c: real)
    ensures (a * b) * c == a * (c * b)
  {
  }

  /** When growth equals the discount rate every projected year is worth exactly `eps` today. */
  lemma {:induction false} PvEarningsAtEqualRates(eps: real, r: real, n: nat)
    requires 1.0 + r != 0.0
    ensures PvEarnings(eps, r, r, n) == (n as real) * eps
  {
    if n > 0 {
      PvEarningsAtEqualRates(eps, r, n - 1);
      var p := Pow(1.0 + r, n);
      assert p != 0.0;
      assert eps * p / p == eps;
      assert PvEarnings(eps, r, r, n) == PvEarnings(eps, r, r, n - 1) + eps;
      assert ((n - 1) as real) * eps + eps == (n as real) * eps;
    }
  }

  /** Positive earnings, growth above -100% and a discount rate above terminal growth give a positive value. */
  lemma {:induction false} PvEarningsPositive(eps: real, g: real, r: real, n: nat)
    requires eps > 0.0 && 1.0 + g > 0.0 && 1.0 + r > 0.0
    ensures n == 0 ==> PvEarnings(eps, g, r, n) == 0.0
    ensures n > 0 ==> PvEarnings(eps, g, r, n) > 0.0
  {
    if n > 0 {
      PvEarningsPositive(eps, g, r, n - 1);
      var a, b := Pow(1.0 + g, n), Pow(1.0 + r, n);
      assert eps * a > 0.0;
      assert eps * a / b > 0.0;
    }
  }

  lemma DcfPositive(eps: real, g: real, r: real, tg: real, years: nat)
    requires eps > 0.0 && 1.0 + g > 0.0 && 1.0 + r > 0.0 && r > tg && 1.0 + tg > 0.0
    ensures DcfOf(eps, g, r, tg, years).Projected?
    ensures DcfOf(eps, g, r, tg, years).intrinsic > 0.0
  {
    PvEarningsPositive(eps, g, r, years);
    var pg := Pow(1.0 + g, years);
    PositiveProduct(eps, pg);
    TerminalPvPositive(eps * pg, r, tg, years);
  }

  lemma TerminalPvPositive(finalEps: real, r: real, tg: real, years: nat)
    requires finalEps > 0.0 && 1.0 + r > 0.0 && r > tg && 1.0 + tg > 0.0
    ensures TerminalPv(finalEps, r, tg, years) > 0.0
  {
    var a := finalEps * (1.0 + tg);
    PositiveProduct(finalEps, 1.0 + tg);
    PositiveQuotient(a, r - tg);
    PositiveQuotient(a / (r - tg), Pow(1.0 + r, years));
  }

  lemma PositiveProduct(a: real, b: real)
    requires a > 0.0 && b > 0.0
    ensures a * b > 0.0
  {
  }

  lemma PositiveQuotient(a: real, b: real)
    requires a > 0.0 && b > 0.0
    ensures a / b > 0.0
  {
  }

  // ---- calculate_hurdle_rate / get_hurdle_interpretation ----

  const RiskFreeRate: real := 0.07
  const MarketPremium: real := 0.05

  datatype RiskBand = LowRisk | ModerateRisk | HigherRisk | HighRisk

  function RiskBandOf(rate: real): (b: RiskBand)
    ensures b == LowRisk <==> rate < 0.10
    ensures b == ModerateRisk <==> 0.10 <= rate < 0.14
    ensures b == HigherRisk <==> 0.14 <= rate < 0.18
    ensures b == HighRisk <==> rate >= 0.18
  {
    if rate < 0.10 then LowRisk
    else if rate < 0.14 then ModerateRisk
    else if rate < 0.18 then HigherRisk
    else HighRisk
  }

  function BandRank(b: RiskBand): nat {
    match b
    case LowRisk => 0
    case ModerateRisk => 1
    case HigherRisk => 2
    case HighRisk => 3
  }

  datatype Hurdle = Hurdle(ratePercent: real, riskFreePercent: real, beta: real,
                           premiumPercent: real, band: RiskBand)

  /** CAPM: risk-free rate plus beta times the market premium, as a percentage. */
  function HurdleRate(beta: real): (h: Hurdle)
    ensures h.ratePercent == (RiskFreeRate + beta * MarketPremium) * 100.0
    ensures h.band == RiskBandOf(h.ratePercent / 100.0)
  {
    var rate := RiskFreeRate + beta * MarketPremium;
    Hurdle(rate * 100.0, RiskFreeRate * 100.0, beta, MarketPremium * 100.0, RiskBandOf(rate))
  }

  /** A higher beta never moves the hurdle into a lower risk band. */
  lemma HurdleBandMonotone(beta1: real, beta2: real)
    requires beta1 <= beta2
    ensures BandRank(HurdleRate(beta1).band) <= BandRank(HurdleRate(beta2).band)
  {
    assert HurdleRate(beta1).ratePercent <= HurdleRate(beta2).ratePercent;
  }

  // ---- calculate_pe_score ----

  /** Sector PE benchmarks; any other sector uses 20. */
  function SectorPe(sector: string): (b: real)
    ensures b >= 10.0
  {
    var table := map[
      "IT" := 25.0, "Banking" := 15.0, "FMCG" := 35.0, "Pharma" := 25.0,
      "Automobile" := 20.0, "Oil & Gas" := 12.0, "Metals" := 10.0,
      "Power" := 12.0, "Infrastructure" := 18.0, "Finance" := 20.0,
      "Insurance" := 25.0, "Telecom" := 15.0, "Cement" := 18.0,
      "Consumer Durables" := 30.0, "Healthcare" := 28.0, "Mining" := 10.0,
      "Conglomerate" := 20.0, "General" := 20.0];
    if sector in table then table[sector] else 20.0
  }

  /** `calculate_pe_score`: a missing (NaN) or non-positive PE is neutral. */
  function PeScore(pe: Option<real>, sector: string): (s: real)
    ensures pe.None? || pe.value <= 0.0 ==> s == 50.0
    ensures s in {90.0, 75.0, 60.0, 50.0, 40.0, 20.0}
  {
    if pe.None? || pe.value <= 0.0 then 50.0
    else
      var b := SectorPe(sector);
      var p := pe.value;
      if p < b * 0.5 then 90.0
      else if p < b * 0.75 then 75.0
      else if p < b then 60.0
      else if p < b * 1.5 then 40.0
      else 20.0
  }

  /** Among positive PEs, a cheaper stock never scores lower. */
  lemma PeScoreNonIncreasing(pe1: real, pe2: real, sector: string)
    requires 0.0 < pe1 <= pe2
    ensures PeScore(Some(pe1), sector) >= PeScore(Some(pe2), sector)
  {
  }

  // ---- get_market_cap_category ----

  datatype CapCategory = LargeCap | MidCap | SmallCap | MicroCap | CapUnknown

  function CapRank(c: CapCategory): nat {
    match c
    case CapUnknown => 0
    case MicroCap => 1
    case SmallCap => 2
    case MidCap => 3
    case LargeCap => 4
  }

  /** Market capitalisation in rupees, classified in crores (1 crore = 10^7). */
  function MarketCapCategory(cap: real): (c: CapCategory)
    ensures c == CapUnknown <==> cap <= 0.0
    ensures c == LargeCap <==> cap / 10000000.0 >= 100000.0
    ensures c == MidCap <==> 20000.0 <= cap / 10000000.0 < 100000.0
    ensures c == SmallCap <==> 5000.0 <= cap / 10000000.0 < 20000.0
    ensures c == MicroCap <==> 0.0 < cap && cap / 10000000.0 < 5000.0
  {
    if cap <= 0.0 then CapUnknown
    else
      var crores := cap / 10000000.0;
      if crores >= 100000.0 then LargeCap
      else if crores >= 20000.0 then MidCap
      else if crores >= 5000.0 then SmallCap
      else MicroCap
  }

  lemma MarketCapMonotone(cap1: real, cap2: real)
    requires cap1 <= cap2
    ensures CapRank(MarketCapCategory(cap1)) <= CapRank(MarketCapCategory(cap2))
  {
    assert cap1 / 10000000.0 <= cap2 / 10000000.0;
  }

  // ---- get_valuation_status ----

  datatype Status = Undervalued | SlightlyUndervalued | FairValue | SlightlyOvervalued | Overvalued | StatusUnknown

  function StatusOf(score: real): (s: Status)
    ensures s != StatusUnknown
    ensures s == Undervalued <==> score >= 70.0
    ensures s == SlightlyUndervalued <==> 55.0 <= score < 70.0
    ensures s == FairValue <==> 45.0 <= score < 55.0
    ensures s == SlightlyOvervalued <==> 30.0 <= score < 45.0
    ensures s == Overvalued <==> score < 30.0
  {
    if score >= 70.0 then Undervalued
    else if score >= 55.0 then SlightlyUndervalued
    else if score >= 45.0 then FairValue
    else if score >= 30.0 then SlightlyOvervalued
    else Overvalued
  }

  /** One explanation line of the valuation status. */
  datatype Factor =
    | DcfUpside(percent: real) | DcfDownside(percent: real)
    | PeFarBelowSector(premium: real) | PeSlightlyBelowSector
    | PeFarAboveSector(premium: real) | PeAboveSector

  datatype StatusReport = StatusReport(status: Status, score: real, factors: seq<Factor>)

  /** The sector PE the status is measured against: the default 20, whatever the sector. */
  const StatusSectorPe: real := 20.0

  function DcfAdjustment(margin: real): real
  {
    if margin > 30.0 then 25.0
    else if margin > 10.0 then 15.0
    else if margin < -30.0 then -25.0
    else if margin < -10.0 then -15.0
    else 0.0
  }

  function PeAdjustment(premium: real): real
  {
    if premium < -30.0 then 15.0
    else if premium < -10.0 then 8.0
    else if premium > 50.0 then -15.0
    else if premium > 20.0 then -8.0
    else 0.0
  }

  /**
   * `get_valuation_status`. None when the DCF value is positive and the price
   * is zero: the upside then divides by zero.
   */
  function ValuationStatus(price: real, dcf: real, pe: real): (r: Option<StatusReport>)
    ensures r.None? <==> dcf > 0.0 && price == 0.0
    ensures r.Some? ==> 10.0 <= r.value.score <= 90.0
    ensures r.Some? ==> r.value.status == StatusOf(r.value.score)
    ensures r.Some? ==> |r.value.factors| <= 2
    ensures r.Some? && dcf <= 0.0 && pe <= 0.0 ==> r.value.score == 50.0 && r.value.factors == []
  {
    if dcf > 0.0 && price == 0.0 then None
    else
      var margin := if dcf > 0.0 then (dcf - price) / price * 100.0 else 0.0;
      var dcfFactors :=
        if dcf <= 0.0 then []
        else if margin > 10.0 then [DcfUpside(margin)]
        else if margin < -10.0 then [DcfDownside(-margin)]
        else [];
      var premium := (pe - StatusSectorPe) / StatusSectorPe * 100.0;
      var peFactors :=
        if pe <= 0.0 then []
        else if premium < -30.0 then [PeFarBelowSector(premium)]
        else if premium < -10.0 then [PeSlightlyBelowSector]
        else if premium > 50.0 then [PeFarAboveSector(premium)]
        else if premium > 20.0 then [PeAboveSector]
        else [];
      var score := 50.0 + (if dcf > 0.0 then DcfAdjustment(margin) else 0.0)
                        + (if pe > 0.0 then PeAdjustment(premium) else 0.0);
      Some(StatusReport(StatusOf(score), score, dcfFactors + peFactors))
  }

  /** At a fixed price and PE, a higher DCF value never lowers the valuation score. */
  lemma ValuationScoreMonotoneInDcf(price: real, dcf1: real, dcf2: real, pe: real)
    requires price > 0.0 && 0.0 < dcf1 <= dcf2
    ensures ValuationStatus(price, dcf1, pe).value.score <= ValuationStatus(price, dcf2, pe).value.score
  {
    var u1 := (dcf1 - price) / price;
    var u2 := (dcf2 - price) / price;
    assert u1 * price == dcf1 - price;
    assert u2 * price == dcf2 - price;
    assert (u2 - u1) * price >= 0.0;
    assert u1 <= u2;
  }

  /**
   * A positive DCF value far below the price scores lower than having no DCF
   * value at all: only values above zero are taken into account.
   */
  lemma LowDcfScoresBelowNoDcf()
    ensures ValuationStatus(100.0, 50.0, 0.0).value.score < ValuationStatus(100.0, 0.0, 0.0).value.score
  {
    assert (50.0 - 100.0) / 100.0 * 100.0 == -50.0;
  }

  // ---- calculate_target_prices ----

  datatype TargetLabel = TargetBuy | TargetHold | TargetCaution

  function TargetLabelOf(rr: real): (l: TargetLabel)
    ensures l == TargetBuy <==> rr >= 2.0
    ensures l == TargetHold <==> 1.0 <= rr < 2.0
    ensures l == TargetCaution <==> rr < 1.0
  {
    if rr >= 2.0 then TargetBuy else if rr >= 1.0 then TargetHold else TargetCaution
  }

  datatype Targets = Targets(
    buyConservative: real, buyAggressive: real,
    sellConservative: real, sellAggressive: real,
    upsideConservative: real, upsideAggressive: real,
    downside: real, riskReward: real, advice: TargetLabel)

  function Highs(rows: seq<Row>): (r: seq<real>)
    ensures |r| == |rows|
    ensures forall i :: 0 <= i < |rows| ==> r[i] == rows[i].bar.high
  {
    seq(|rows|, i requires 0 <= i < |rows| => rows[i].bar.high)
  }

  function Lows(rows: seq<Row>): (r: seq<real>)
    ensures |r| == |rows|
    ensures forall i :: 0 <= i < |rows| ==> r[i] == rows[i].bar.low
  {
    seq(|rows|, i requires 0 <= i < |rows| => rows[i].bar.low)
  }

  /**
   * `calculate_target_prices` over the indicator frame. An ATR that is still
   * NaN on the last row counts as 0. `dcf` is the intrinsic value, 0 when absent.
   */
  function TargetPrices(price: real, rows: seq<Row>, dcf: real): (t: Option<Targets>)
    ensures t.Some? <==> |rows| > 0 && price > 0.0
    ensures t.Some? ==> t.value.downside <= 0.0 ==> t.value.riskReward == 0.0
    ensures t.Some? ==> t.value.advice == TargetLabelOf(t.value.riskReward)
    ensures t.Some? ==> t.value.buyAggressive >= SeqMin(Lows(rows))
    ensures t.Some? ==> t.value.sellAggressive <= SeqMax(Highs(rows))
    ensures t.Some? && 0.0 < dcf < price * 0.8 ==> t.value.sellConservative >= price * 1.02
    ensures t.Some? && dcf > price * 1.2 ==> t.value.buyConservative <= price * 0.98
  {
    if |rows| == 0 || price <= 0.0 then None
    else
      var atr := OrElse(rows[|rows| - 1].atr, 0.0);
      var high := SeqMax(Highs(rows));
      var low := SeqMin(Lows(rows));
      var buyC0 := Max(price - 2.0 * atr, low * 0.95);
      var buyA := Max(price - 1.5 * atr, low);
      var sellC0 := Min(price + 2.0 * atr, high * 0.95);
      var sellA := Min(price + 3.0 * atr, high);
      var buyC := if dcf > 0.0 && dcf > price * 1.2 then Min(buyC0 * 1.05, price * 0.98) else buyC0;
      var sellC := if dcf > 0.0 && dcf < price * 0.8 then Max(sellC0 * 0.95, price * 1.02) else sellC0;
      var upC := (sellC - price) / price * 100.0;
      var upA := (sellA - price) / price * 100.0;
      var down := (price - buyC) / price * 100.0;
      var rr := if down > 0.0 then upC / down else 0.0;
      Some(Targets(buyC, buyA, sellC, sellA, upC, upA, down, rr, TargetLabelOf(rr)))
  }

  // ---- margin of safety in get_full_valuation_analysis ----

  /** Margin of safety relative to the intrinsic value, set only for a positive value and price. */
  function MarginOfSafety(intrinsic: real, price: real): (m: Option<real>)
    ensures m.Some? <==> intrinsic > 0.0 && price > 0.0
    ensures m.Some? ==> m.value < 100.0
    ensures m.Some? ==> (m.value > 0.0 <==> intrinsic > price)
  {
    if intrinsic > 0.0 && price > 0.0 then
      var f := (intrinsic - price) / intrinsic;
      assert f * intrinsic == intrinsic - price;
      Some(f * 100.0)
    else None
  }

  /**
   * The margin measured against the intrinsic value and the upside measured
   * against the price always agree in sign.
   */
  lemma MarginAgreesWithUpside(intrinsic: real, price: real)
    requires intrinsic > 0.0 && price > 0.0
    ensures MarginOfSafety(intrinsic, price).value > 0.0 <==> (intrinsic - price) / price * 100.0 > 0.0
    ensures MarginOfSafety(intrinsic, price).value < 0.0 <==> (intrinsic - price) / price * 100.0 < 0.0
  {
    var u := (intrinsic - price) / price;
    assert u * price == intrinsic - price;
    var f := (intrinsic - price) / intrinsic;
    assert f * intrinsic == intrinsic - price;
  }

  datatype DcfVerdict = DcfUndervalued | DcfFairValue | DcfOvervalued

  function DcfVerdictOf(margin: real): (v: DcfVerdict)
    ensures v == DcfUndervalued <==> margin > 15.0
    ensures v == DcfOvervalued <==> margin <= -15.0
  {
    if margin > 15.0 then DcfUndervalued else if margin > -15.0 then DcfFairValue else DcfOvervalued
  }

  // ---- get_full_valuation_analysis (after the fetch) ----

  /** The fields of `ticker.info` the analysis reads; `None` is a missing key or None. */
  datatype Info = Info(
    regularMarketPrice: Option<real>, currentPrice: Option<real>, previousClose: Option<real>,
    trailingPe: Option<real>, priceToBook: Option<real>, trailingEps: Option<real>,
    returnOnEquity: Option<real>, marketCap: Option<real>, beta: Option<real>,
    dividendYield: Option<real>, high52: Option<real>, low52: Option<real>)

  /** The DCF dictionary after the margin of safety is added. */
  datatype DcfReport = DcfReport(
    intrinsic: real, pvEarnings: real, terminalPv: real,
    growth: real, discount: real,
    marginOfSafety: Option<real>, verdict: Option<DcfVerdict>)

  datatype Fundamentals = Fundamentals(
    pe: real, pb: real, eps: real, roe: real, dividendYield: real, beta: real,
    high52: real, low52: real, rangePosition: real)

  datatype Analysis = Analysis(
    status: Status, score: real, factors: seq<Factor>,
    capCategory: CapCategory, marketCap: int,
    fundamentals: Option<Fundamentals>, targets: Option<Targets>,
    peScore: real, dcf: Option<DcfReport>, hurdle: Option<Hurdle>)

  /** The result when the analysis stops early: every field at its default. */
  const DefaultAnalysis := Analysis(StatusUnknown, 50.0, [], CapUnknown, 0, None, None, 50.0, None, None)

  /** `a or b`: the first value that is present and non-zero. */
  function Truthy(x: Option<real>): bool { x.Some? && x.value != 0.0 }

  /** Growth estimate: 60% of ROE retained, kept within [5%, 25%]. */
  function GrowthFromRoe(roePercent: real): (g: real)
    ensures 0.05 <= g <= 0.25
  {
    Min(Max(roePercent / 100.0 * 0.6, 0.05), 0.25)
  }

  const TerminalGrowth: real := 0.03
  const ProjectionYears: nat := 10

  /**
   * The DCF dictionary of the analysis, or None when the DCF divides by zero.
   * Without earnings every value is 0 and the margin of safety is 0.
   */
  function DcfReportOf(eps: real, g: real, r: real, price: real): (rep: Option<DcfReport>)
    ensures rep.None? <==> DcfOf(eps, g, r, TerminalGrowth, ProjectionYears).DivisionByZero?
    ensures rep.Some? ==> rep.value.growth == g && rep.value.discount == r
    ensures rep.Some? && eps <= 0.0 ==> rep.value.intrinsic == 0.0 && rep.value.marginOfSafety == Some(0.0)
    ensures rep.Some? && rep.value.marginOfSafety.Some? && rep.value.intrinsic > 0.0 ==>
      rep.value.marginOfSafety.value < 100.0
  {
    var d := DcfOf(eps, g, r, TerminalGrowth, ProjectionYears);
    if d.DivisionByZero? then None
    else if d.NoEarnings? then Some(DcfReport(0.0, 0.0, 0.0, g, r, Some(0.0), None))
    else
      var m := MarginOfSafety(d.intrinsic, price);
      Some(DcfReport(d.intrinsic, d.pvEarnings, d.terminalPv, g, r, m,
        if m.Some? then Some(DcfVerdictOf(m.value)) else None))
  }

  /** The fundamentals dictionary; the 52-week range position is 50 when the range is empty. */
  function FundamentalsOf(price: real, pe: real, pb: real, eps: real, roe: real, dy: real, beta: real,
                          hi: real, lo: real): (f: Fundamentals)
    ensures hi <= lo ==> f.rangePosition == 50.0
  {
    var pos := if hi > lo then (price - lo) / (hi - lo) * 100.0 else 50.0;
    Fundamentals(pe, pb, eps, roe, dy, beta, hi, lo, pos)
  }

  /** The price `get_full_valuation_analysis` uses: `regularMarketPrice or currentPrice or previousClose or 0`. */
  function PriceOf(i: Info): real {
    if Truthy(i.regularMarketPrice) then i.regularMarketPrice.value
    else if Truthy(i.currentPrice) then i.currentPrice.value
    else OrElse(i.previousClose, 0.0)
  }

  /**
   * `get_full_valuation_analysis` from the fetched `info` on. `info` None is a
   * failed or empty fetch; `sector` is the universe's sector of the symbol.
   * A division by zero ends the analysis, keeping what was set before it.
   */
  function FullAnalysis(info: Option<Info>, sector: string, rows: seq<Row>): (a: Analysis)
    ensures info.None? ==> a == DefaultAnalysis
    ensures a.dcf.Some? ==> 0.05 <= a.dcf.value.growth <= 0.25
    ensures a.dcf.Some? && a.dcf.value.marginOfSafety.Some? && a.dcf.value.intrinsic > 0.0 ==>
      a.dcf.value.marginOfSafety.value < 100.0
    ensures 10.0 <= a.score <= 90.0
    ensures 20.0 <= a.peScore <= 90.0
  {
    if info.None? then DefaultAnalysis
    else
      var i := info.value;
      var price := PriceOf(i);
      var pe := OrElse(i.trailingPe, 0.0);
      var eps := OrElse(i.trailingEps, 0.0);
      var roe := if Truthy(i.returnOnEquity) then i.returnOnEquity.value * 100.0 else 0.0;
      var cap := OrElse(i.marketCap, 0.0);
      var beta := OrElse(i.beta, 1.0);
      var dy := if Truthy(i.dividendYield) then i.dividendYield.value * 100.0 else 0.0;
      var hurdle := HurdleRate(beta);
      var g := GrowthFromRoe(roe);
      var atHurdle := DefaultAnalysis.(hurdle := Some(hurdle));
      var report := DcfReportOf(eps, g, hurdle.ratePercent / 100.0, price);
      if report.None? then atHurdle
      else
        var iv := report.value.intrinsic;
        var atTargets := atHurdle.(dcf := report, peScore := PeScore(Some(pe), sector),
                                   targets := TargetPrices(price, rows, iv));
        var st := ValuationStatus(price, iv, pe);
        if st.None? then atTargets
        else
          atTargets.(status := st.value.status, score := st.value.score, factors := st.value.factors,
            capCategory := MarketCapCategory(cap), marketCap := Trunc(cap),
            fundamentals := Some(FundamentalsOf(price, pe, OrElse(i.priceToBook, 0.0), eps, roe, dy, beta,
              OrElse(i.high52, 0.0), OrElse(i.low52, 0.0))))
  }
}
