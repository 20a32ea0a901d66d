/**
 * Commodity quotes after the fetch: the catalogue lookup, the conversion of
 * USD per troy ounce into the MCX units in INR, the day change, the USD
 * returns over one week, one month and three months, and the chart window.
 * The price history and the USD/INR rate are inputs.
 */
module Commodities {
  import opened Base
  import opened Text

  datatype Commodity = Commodity(yahooTicker: string, mcxTicker: string, name: string, unit: string, category: string)

  /** `COMMODITIES`, keyed by the upper-case symbol. */
  const Catalog: map<string, Commodity> := map[
    "GOLD" := Commodity("GC=F", "GOLD", "Gold", "per 10g", "Precious Metals"),
    "SILVER" := Commodity("SI=F", "SILVER", "Silver", "per kg", "Precious Metals"),
    "CRUDEOIL" := Commodity("CL=F", "CRUDEOIL", "Crude Oil", "per barrel", "Energy"),
    "NATURALGAS" := Commodity("NG=F", "NATURALGAS", "Natural Gas", "per mmBtu", "Energy"),
    "COPPER" := Commodity("HG=F", "COPPER", "Copper", "per kg", "Base Metals")]

  /** `COMMODITIES.get(symbol.upper())` */
  function Lookup(symbol: string): (r: Option<Commodity>)
    ensures r.Some? <==> Upper(symbol) in Catalog
  {
    var key := Upper(symbol);
    if key in Catalog then Some(Catalog[key]) else None
  }

  /** A row of the fetched history; `volume` is `None` when it is NaN. */
  datatype Bar = Bar(date: string, open: real, high: real, low: real, close: real, volume: Option<int>)

  datatype ChartPoint = ChartPoint(date: string, open: real, high: real, low: real, close: real, volume: int)

  /** The `returns` dictionary: each key present or absent. */
  datatype Returns = Returns(week: Option<real>, month: Option<real>, quarter: Option<real>)

  datatype Quote = Quote(
    symbol: string, name: string, category: string, unit: string,
    price: real, priceUsd: real, change: real, changePercent: real, gains: Returns,
    high52w: real, low52w: real, chart: seq<ChartPoint>, usdInrRate: real)

  /** The INR price of a USD close: per 10 g for gold and per kg for silver (an ounce taken as 31.1 g). */
  function Inr(usd: real, rate: real, symbol: string): real {
    if symbol == "GOLD" then usd * rate * (10.0 / 31.1)
    else if symbol == "SILVER" then usd * rate * (1000.0 / 31.1)
    else usd * rate
  }

  /** One chart point: the close is converted to the MCX unit, open, high and low only by the rate. */
  function PointOf(b: Bar, rate: real, symbol: string): ChartPoint {
    ChartPoint(b.date, b.open * rate, b.high * rate, b.low * rate, Inr(b.close, rate, symbol), b.volume.GetOr(0))
  }

  function ChartOf(hist: seq<Bar>, rate: real, symbol: string): (r: seq<ChartPoint>)
    ensures |r| == |hist| && forall i :: 0 <= i < |hist| ==> r[i] == PointOf(hist[i], rate, symbol)
  {
    seq(|hist|, i requires 0 <= i < |hist| => PointOf(hist[i], rate, symbol))
  }

  /** `float(hist['Close'].iloc[-n])` */
  function Ago(hist: seq<Bar>, n: nat): real
    requires 1 <= n <= |hist|
  {
    hist[|hist| - n].close
  }

  /** Percentage change from `base`; the caller has excluded a zero base. */
  function Pct(current: real, base: real): real
    requires base != 0.0
  {
    ((current - base) / base) * 100.0
  }

  /**
   * Every return that is computed has a non-zero base; a zero base raises
   * ZeroDivisionError, which the surrounding `except` turns into `None`.
   */
  predicate BasesNonZero(hist: seq<Bar>) {
    (|hist| >= 5 ==> Ago(hist, 5) != 0.0) && (|hist| >= 22 ==> Ago(hist, 22) != 0.0) && (|hist| >= 66 ==> Ago(hist, 66) != 0.0)
  }

  function ReturnsOf(hist: seq<Bar>): Returns
    requires hist != [] && BasesNonZero(hist)
  {
    var cur := Ago(hist, 1);
    Returns(
      if |hist| >= 5 then Some(Pct(cur, Ago(hist, 5))) else None,
      if |hist| >= 22 then Some(Pct(cur, Ago(hist, 22))) else None,
      if |hist| >= 66 then Some(Pct(cur, Ago(hist, 66))) else None)
  }

  /** `hist['High'].max()` */
  function MaxHigh(hist: seq<Bar>): (m: real)
    requires hist != []
    ensures forall i :: 0 <= i < |hist| ==> hist[i].high <= m
    ensures exists i :: 0 <= i < |hist| && hist[i].high == m
  {
    if |hist| == 1 then hist[0].high
    else
      var rest := MaxHigh(hist[1..]);
      assert forall i :: 1 <= i < |hist| ==> hist[i] == hist[1..][i - 1];
      if hist[0].high >= rest then hist[0].high else rest
  }

  /** `hist['Low'].min()` */
  function MinLow(hist: seq<Bar>): (m: real)
    requires hist != []
    ensures forall i :: 0 <= i < |hist| ==> m <= hist[i].low
    ensures exists i :: 0 <= i < |hist| && hist[i].low == m
  {
    if |hist| == 1 then hist[0].low
    else
      var rest := MinLow(hist[1..]);
      assert forall i :: 1 <= i < |hist| ==> hist[i] == hist[1..][i - 1];
      if hist[0].low <= rest then hist[0].low else rest
  }

  /** `round(hist['High'].max() * usd_inr, 2)`, without the rounding. */
  function High52(hist: seq<Bar>, rate: real): real
    requires hist != []
  {
    MaxHigh(hist) * rate
  }

  /** `round(hist['Low'].min() * usd_inr, 2)`, without the rounding. */
  function Low52(hist: seq<Bar>, rate: real): real
    requires hist != []
  {
    MinLow(hist) * rate
  }

  function ChangePct(current: real, prev: real): real {
    if prev != 0.0 then ((current - prev) / prev) * 100.0 else 0.0
  }

  /** The previous close: the last but one, or the last when there is only one bar. */
  function PrevClose(hist: seq<Bar>): real
    requires hist != []
  {
    if |hist| > 1 then Ago(hist, 2) else Ago(hist, 1)
  }

  /** `current_inr` */
  function PriceInr(hist: seq<Bar>, rate: real, sym: string): real
    requires hist != []
  {
    Inr(Ago(hist, 1), rate, sym)
  }

  /** `prev_inr` */
  function PrevInr(hist: seq<Bar>, rate: real, sym: string): real
    requires hist != []
  {
    Inr(PrevClose(hist), rate, sym)
  }

  /** The quote of a known commodity `c` under the upper-case symbol `sym`. */
  function QuoteOf(c: Commodity, sym: string, hist: seq<Bar>, rate: real): Quote
    requires hist != [] && BasesNonZero(hist)
  {
    var curInr, prevInr := PriceInr(hist, rate, sym), PrevInr(hist, rate, sym);
    Quote(sym, c.name, c.category, c.unit,
      curInr, Ago(hist, 1), curInr - prevInr, ChangePct(curInr, prevInr), ReturnsOf(hist),
      High52(hist, rate), Low52(hist, rate),
      PyLast(ChartOf(hist, rate, sym), 90), rate)
  }

  /** `fetch_commodity_data` with the history and the rate given. */
  function FetchOf(symbol: string, hist: seq<Bar>, rate: real): Option<Quote> {
    var c := Lookup(symbol);
    if c.None? || hist == [] || !BasesNonZero(hist) then None
    else Some(QuoteOf(c.value, Upper(symbol), hist, rate))
  }

  /** The chart loop over the history rows. */
  method ChartData(hist: seq<Bar>, rate: real, symbol: string) returns (chart: seq<ChartPoint>)
    ensures chart == ChartOf(hist, rate, symbol)
  {
    chart := [];
    for i := 0 to |hist|
      invariant chart == ChartOf(hist, rate, symbol)[..i]
    {
      var b := hist[i];
      var price := b.close;
      if symbol == "GOLD" {
        price := price * rate * (10.0 / 31.1);
      } else if symbol == "SILVER" {
        price := price * rate * (1000.0 / 31.1);
      } else {
        price := price * rate;
      }
      assert price == Inr(b.close, rate, symbol);
      assert ChartOf(hist, rate, symbol)[..i + 1] == ChartOf(hist, rate, symbol)[..i] + [PointOf(b, rate, symbol)];
      var point := ChartPoint(b.date, b.open * rate, b.high * rate, b.low * rate, price, b.volume.GetOr(0));
      assert point == PointOf(b, rate, symbol);
      chart := chart + [point];
    }
  }

  /** The USD/INR conversion of the last two closes, scaled per unit for gold and silver. */
  method ConvertPair(hist: seq<Bar>, rate: real, sym: string) returns (currentInr: real, prevInr: real)
    requires hist != []
    ensures currentInr == PriceInr(hist, rate, sym) && prevInr == PrevInr(hist, rate, sym)
  {
    var currentUsd := hist[|hist| - 1].close;
    var prevUsd := if |hist| > 1 then hist[|hist| - 2].close else currentUsd;
    currentInr, prevInr := currentUsd * rate, prevUsd * rate;
    if sym == "GOLD" {
      currentInr, prevInr := currentInr * (10.0 / 31.1), prevInr * (10.0 / 31.1);
    } else if sym == "SILVER" {
      currentInr, prevInr := currentInr * (1000.0 / 31.1), prevInr * (1000.0 / 31.1);
    }
  }

  /** The `returns` dictionary, filled key by key; `None` where a zero base would raise. */
  method ComputeReturns(hist: seq<Bar>) returns (r: Option<Returns>)
    requires hist != []
    ensures r.Some? <==> BasesNonZero(hist)
    ensures r.Some? ==> r.value == ReturnsOf(hist)
  {
    var currentUsd := hist[|hist| - 1].close;
    var gains := Returns(None, None, None);
    if |hist| >= 5 {
      var weekAgo := hist[|hist| - 5].close;
      if weekAgo == 0.0 {
        return None;
      }
      gains := gains.(week := Some(((currentUsd - weekAgo) / weekAgo) * 100.0));
    }
    if |hist| >= 22 {
      var monthAgo := hist[|hist| - 22].close;
      if monthAgo == 0.0 {
        return None;
      }
      gains := gains.(month := Some(((currentUsd - monthAgo) / monthAgo) * 100.0));
    }
    if |hist| >= 66 {
      var threeMonth := hist[|hist| - 66].close;
      if threeMonth == 0.0 {
        return None;
      }
      gains := gains.(quarter := Some(((currentUsd - threeMonth) / threeMonth) * 100.0));
    }
    r := Some(gains);
  }

  /** `fetch_commodity_data`: the quote is built step by step. */
  method FetchCommodityData(symbol: string, hist: seq<Bar>, rate: real) returns (r: Option<Quote>)
    ensures r == FetchOf(symbol, hist, rate)
  {
    var c := Lookup(symbol);
    if c.None? || hist == [] {
      return None;
    }
    var sym := Upper(symbol);
    var currentInr, prevInr := ConvertPair(hist, rate, sym);
    var change := currentInr - prevInr;
    var changePct := if prevInr != 0.0 then ((currentInr - prevInr) / prevInr) * 100.0 else 0.0;
    var gains := ComputeReturns(hist);
    if gains.None? {
      return None;
    }
    var chart := ChartData(hist, rate, sym);
    assert Lookup(symbol) == c && changePct == ChangePct(PriceInr(hist, rate, sym), PrevInr(hist, rate, sym));
    r := Some(Quote(sym, c.value.name, c.value.category, c.value.unit,
      currentInr, hist[|hist| - 1].close, change, changePct, gains.value,
      High52(hist, rate), Low52(hist, rate), PyLast(chart, 90), rate));
  }

  /** The lookup ignores case: a symbol and its upper-case form find the same commodity, and an unknown one gives no quote. */
  lemma LookupCaseInsensitive(symbol: string, hist: seq<Bar>, rate: real)
    ensures Lookup(Upper(symbol)) == Lookup(symbol)
    ensures Lookup(symbol).None? ==> FetchOf(symbol, hist, rate).None?
    ensures FetchOf(Upper(symbol), hist, rate) == FetchOf(symbol, hist, rate)
  {
    UpperIdempotent(symbol);
  }

  /**
   * The INR price is the last USD close times the rate, per 10 g of gold and
   * per kg of silver at 31.1 g to the ounce, and unscaled otherwise; the
   * change is measured between the last two closes in the same unit.
   */
  lemma PriceConversion(hist: seq<Bar>, rate: real, sym: string)
    requires hist != []
    ensures var cur, prev := hist[|hist| - 1].close, PrevClose(hist);
      var price, change := PriceInr(hist, rate, sym), PriceInr(hist, rate, sym) - PrevInr(hist, rate, sym);
      (sym == "GOLD" ==> price * 31.1 == cur * rate * 10.0 && change * 31.1 == (cur - prev) * rate * 10.0) &&
      (sym == "SILVER" ==> price * 31.1 == cur * rate * 1000.0 && change * 31.1 == (cur - prev) * rate * 1000.0) &&
      (sym != "GOLD" && sym != "SILVER" ==> price == cur * rate && change == (cur - prev) * rate)
  {
    InrUnits(hist[|hist| - 1].close, PrevClose(hist), rate, sym);
  }

  /** The conversion of a price and of a difference of prices into the MCX unit. */
  lemma InrUnits(cur: real, prev: real, rate: real, sym: string)
    ensures sym == "GOLD" ==> Inr(cur, rate, sym) * 31.1 == cur * rate * 10.0 && (Inr(cur, rate, sym) - Inr(prev, rate, sym)) * 31.1 == (cur - prev) * rate * 10.0
    ensures sym == "SILVER" ==> Inr(cur, rate, sym) * 31.1 == cur * rate * 1000.0 && (Inr(cur, rate, sym) - Inr(prev, rate, sym)) * 31.1 == (cur - prev) * rate * 1000.0
    ensures sym != "GOLD" && sym != "SILVER" ==> Inr(cur, rate, sym) == cur * rate && Inr(cur, rate, sym) - Inr(prev, rate, sym) == (cur - prev) * rate
  {
    var x, y := cur * rate, prev * rate;
    assert (cur - prev) * rate == x - y;
  }

  /** With a single bar there is always a quote, and the previous close is the current one: no change, no returns. */
  lemma SingleBar(symbol: string, hist: seq<Bar>, rate: real)
    requires |hist| == 1 && Lookup(symbol).Some?
    ensures FetchOf(symbol, hist, rate).Some?
    ensures var q := FetchOf(symbol, hist, rate).value;
      q.change == 0.0 && q.changePercent == 0.0 && q.gains == Returns(None, None, None)
  {
  }

  /** The change percentage is 0 when the previous INR price is 0, and otherwise relative to it. */
  lemma ChangePercentMeaning(hist: seq<Bar>, rate: real, sym: string)
    requires hist != []
    ensures var cur, prev := PriceInr(hist, rate, sym), PrevInr(hist, rate, sym);
      (prev == 0.0 ==> ChangePct(cur, prev) == 0.0) &&
      (prev != 0.0 ==> ChangePct(cur, prev) * prev == (cur - prev) * 100.0)
  {
    var cur, prev := PriceInr(hist, rate, sym), PrevInr(hist, rate, sym);
    if prev != 0.0 {
      PctMeaning(cur, prev);
    }
  }

  /** A known commodity with a history has a quote unless one of the return bases is a zero close. */
  lemma FetchMeaning(symbol: string, hist: seq<Bar>, rate: real)
    ensures FetchOf(symbol, hist, rate).Some? <==> Lookup(symbol).Some? && hist != [] && BasesNonZero(hist)
    ensures FetchOf(symbol, hist, rate).Some? ==> FetchOf(symbol, hist, rate).value.symbol == Upper(symbol)
  {
  }

  /** Returns over 1W, 1M and 3M exist iff there are 5, 22 and 66 bars, and compare USD closes. */
  lemma ReturnsMeaning(hist: seq<Bar>)
    requires hist != [] && BasesNonZero(hist)
    ensures var ret, cur := ReturnsOf(hist), hist[|hist| - 1].close;
      (ret.week.Some? <==> |hist| >= 5) && (ret.month.Some? <==> |hist| >= 22) && (ret.quarter.Some? <==> |hist| >= 66) &&
      (ret.week.Some? ==> ret.week.value * hist[|hist| - 5].close == (cur - hist[|hist| - 5].close) * 100.0) &&
      (ret.month.Some? ==> ret.month.value * hist[|hist| - 22].close == (cur - hist[|hist| - 22].close) * 100.0) &&
      (ret.quarter.Some? ==> ret.quarter.value * hist[|hist| - 66].close == (cur - hist[|hist| - 66].close) * 100.0)
  {
    if |hist| >= 5 {
      PctMeaning(Ago(hist, 1), Ago(hist, 5));
    }
    if |hist| >= 22 {
      PctMeaning(Ago(hist, 1), Ago(hist, 22));
    }
    if |hist| >= 66 {
      PctMeaning(Ago(hist, 1), Ago(hist, 66));
    }
  }

  lemma PctMeaning(current: real, base: real)
    requires base != 0.0
    ensures Pct(current, base) * base == (current - base) * 100.0
  {
    assert ((current - base) / base) * base == current - base;
  }

  /** The chart holds the last (at most) 90 points of the whole history, in order. */
  lemma ChartWindow(c: Commodity, sym: string, hist: seq<Bar>, rate: real)
    requires hist != [] && BasesNonZero(hist)
    ensures var chart := QuoteOf(c, sym, hist, rate).chart;
      |chart| == (if |hist| <= 90 then |hist| else 90) &&
      chart == ChartOf(hist, rate, sym)[|hist| - |chart|..]
  {
    var all := ChartOf(hist, rate, sym);
    assert QuoteOf(c, sym, hist, rate).chart == PyLast(all, 90);
  }

  /** Each chart close is in the MCX unit, while open, high and low are only multiplied by the rate. */
  lemma ChartScaling(hist: seq<Bar>, rate: real, sym: string, k: int)
    requires 0 <= k < |hist|
    ensures var p, b := ChartOf(hist, rate, sym)[k], hist[k];
      p.date == b.date && p.open == b.open * rate && p.high == b.high * rate && p.low == b.low * rate &&
      (sym == "GOLD" ==> p.close * 31.1 == b.close * rate * 10.0) &&
      (sym == "SILVER" ==> p.close * 31.1 == b.close * rate * 1000.0) &&
      (sym != "GOLD" && sym != "SILVER" ==> p.close == b.close * rate)
  {
  }

  /** For a non-negative rate the 52-week range encloses every bar's high and low in INR. */
  lemma RangeEnclosesBars(c: Commodity, sym: string, hist: seq<Bar>, rate: real)
    requires hist != [] && BasesNonZero(hist) && rate >= 0.0
    ensures var q := QuoteOf(c, sym, hist, rate);
      forall i :: 0 <= i < |hist| ==> q.low52w <= hist[i].low * rate && hist[i].high * rate <= q.high52w
  {
    var q := QuoteOf(c, sym, hist, rate);
    assert q.high52w == High52(hist, rate) && q.low52w == Low52(hist, rate);
    RangeBounds(hist, rate);
  }

  lemma RangeBounds(hist: seq<Bar>, rate: real)
    requires hist != [] && rate >= 0.0
    ensures forall i :: 0 <= i < |hist| ==> Low52(hist, rate) <= hist[i].low * rate && hist[i].high * rate <= High52(hist, rate)
  {
    var hi, lo := MaxHigh(hist), MinLow(hist);
    forall i | 0 <= i < |hist| ensures lo * rate <= hist[i].low * rate && hist[i].high * rate <= hi * rate {
      ScaleMonotone(lo, hist[i].low, rate);
      ScaleMonotone(hist[i].high, hi, rate);
    }
  }

  lemma ScaleMonotone(a: real, b: real, k: real)
    requires a <= b && k >= 0.0
    ensures a * k <= b * k
  {
  }
}
