/**
 * Fundamentals after the fetch: per-quarter margins and revenue growth, the
 * balance-sheet snapshot and its ratios, and the peer comparison with its
 * sector averages. The fetched statements and quotes are inputs; a value
 * that is missing or NaN reads as 0 (`safe_float`).
 */
module Fundamentals {
  import opened Base
  import opened Text
  import StockUniverse

  // ---------------------------------------------------------------------------
  // Quarterly results
  // ---------------------------------------------------------------------------

  /** One column of `quarterly_financials`; `None` is a missing row or a NaN cell. */
  datatype QuarterInput = QuarterInput(
    period: string, revenue: Option<real>, netIncome: Option<real>, operatingIncome: Option<real>, grossProfit: Option<real>)

  datatype Quarter = Quarter(
    period: string, revenue: real, netIncome: real, operatingIncome: real, grossProfit: real,
    netMargin: real, operatingMargin: real, revenueQoq: Option<real>, revenueYoy: Option<real>)

  datatype QuarterlyOutcome = NoQuarterlyData | Quarterly(quarters: seq<Quarter>, latest: Option<Quarter>)

  /** `round((part / whole) * 100, 2) if whole > 0 else 0`, without the rounding. */
  function Margin(part: real, whole: real): (m: real)
    ensures whole <= 0.0 ==> m == 0.0
    ensures whole > 0.0 ==> m * whole == part * 100.0
  {
    if whole > 0.0 then (part / whole) * 100.0 else 0.0
  }

  /** Percentage growth from `base` to `current`, 0 when the base revenue is not positive. */
  function Growth(current: real, base: real): (g: real)
    ensures base <= 0.0 ==> g == 0.0
    ensures base > 0.0 ==> (g > 0.0 <==> current > base) && (g == 0.0 <==> current == base)
  {
    if base > 0.0 then ((current - base) / base) * 100.0 else 0.0
  }

  function QuarterOf(c: QuarterInput): Quarter {
    var rev, ni, oi := c.revenue.GetOr(0.0), c.netIncome.GetOr(0.0), c.operatingIncome.GetOr(0.0);
    Quarter(c.period, rev, ni, oi, c.grossProfit.GetOr(0.0), Margin(ni, rev), Margin(oi, rev), None, None)
  }

  /** The per-quarter records of the columns, before the growth figures. */
  function BaseQuarters(cols: seq<QuarterInput>): (r: seq<Quarter>)
    ensures |r| == |cols| && forall i :: 0 <= i < |cols| ==> r[i] == QuarterOf(cols[i])
  {
    seq(|cols|, i requires 0 <= i < |cols| => QuarterOf(cols[i]))
  }

  /** `results[0]['revenue_qoq']` and `results[0]['revenue_yoy']` */
  function WithGrowth(qs: seq<Quarter>): seq<Quarter> {
    var q1 := if |qs| >= 2 then qs[0 := qs[0].(revenueQoq := Some(Growth(qs[0].revenue, qs[1].revenue)))] else qs;
    if |q1| >= 5 then q1[0 := q1[0].(revenueYoy := Some(Growth(q1[0].revenue, q1[4].revenue)))] else q1
  }

  /** `get_quarterly_results` after the fetch. */
  function QuarterlyOf(columns: seq<QuarterInput>): QuarterlyOutcome {
    if columns == [] then NoQuarterlyData
    else
      var qs := WithGrowth(BaseQuarters(PyTake(columns, 8)));
      Quarterly(qs, if qs == [] then None else Some(qs[0]))
  }

  /** The quarterly loop: one record per column of the first eight, then the growth of the latest. */
  method QuarterlyResults(columns: seq<QuarterInput>) returns (r: QuarterlyOutcome)
    ensures r == QuarterlyOf(columns)
  {
    if columns == [] {
      return NoQuarterlyData;
    }
    var cols := PyTake(columns, 8);
    var results: seq<Quarter> := [];
    for i := 0 to |cols|
      invariant results == BaseQuarters(cols)[..i]
    {
      results := results + [QuarterOf(cols[i])];
    }
    if |results| >= 2 {
      results := results[0 := results[0].(revenueQoq := Some(Growth(results[0].revenue, results[1].revenue)))];
    }
    if |results| >= 5 {
      results := results[0 := results[0].(revenueYoy := Some(Growth(results[0].revenue, results[4].revenue)))];
    }
    r := Quarterly(results, if results == [] then None else Some(results[0]));
  }

  /**
   * At most eight quarters, in column order; margins are 0 for a
   * non-positive revenue; QoQ growth exists iff there are two quarters and
   * YoY iff there are five, both only on the latest quarter, which is the
   * one reported as latest.
   */
  lemma QuarterlyShape(columns: seq<QuarterInput>)
    requires columns != []
    ensures var o := QuarterlyOf(columns);
      o.Quarterly? && 1 <= |o.quarters| <= 8 && |o.quarters| == (if |columns| <= 8 then |columns| else 8) &&
      o.latest == Some(o.quarters[0]) &&
      (o.quarters[0].revenueQoq.Some? <==> |columns| >= 2) &&
      (o.quarters[0].revenueYoy.Some? <==> |columns| >= 5) &&
      (|columns| >= 2 ==> o.quarters[0].revenueQoq == Some(Growth(o.quarters[0].revenue, o.quarters[1].revenue))) &&
      (|columns| >= 5 ==> o.quarters[0].revenueYoy == Some(Growth(o.quarters[0].revenue, o.quarters[4].revenue))) &&
      forall i :: 0 <= i < |o.quarters| ==>
        o.quarters[i].period == columns[i].period &&
        o.quarters[i].revenue == columns[i].revenue.GetOr(0.0) &&
        (o.quarters[i].revenue <= 0.0 ==> o.quarters[i].netMargin == 0.0 && o.quarters[i].operatingMargin == 0.0) &&
        (i > 0 ==> o.quarters[i].revenueQoq.None? && o.quarters[i].revenueYoy.None?)
  {
    var cols := PyTake(columns, 8);
    var base := BaseQuarters(cols);
    assert forall i :: 0 <= i < |cols| ==> cols[i] == columns[i];
  }

  // ---------------------------------------------------------------------------
  // Balance sheet
  // ---------------------------------------------------------------------------

  /** One column of `quarterly_balance_sheet`: its date label and its items (`None` for NaN). */
  datatype BalanceColumn = BalanceColumn(date: string, items: map<string, Option<real>>)

  datatype Current = Current(
    totalAssets: real, totalLiabilities: real, totalEquity: real, cash: real,
    totalDebt: real, currentAssets: real, currentLiabilities: real)

  datatype Previous = Previous(totalAssets: real, totalEquity: real)

  datatype Ratios = Ratios(currentRatio: real, debtToEquity: real, debtToAssets: real, equityRatio: real)

  datatype BalanceOutcome = NoBalanceSheet | Balance(date: string, current: Current, previous: Previous, ratios: Ratios)

  /** `safe_float(series.get(name, 0))` */
  function Item(name: string, c: BalanceColumn): real {
    if name in c.items then c.items[name].GetOr(0.0) else 0.0
  }

  /** `round(a / b, 2) if b > 0 else 0`, without the rounding. */
  function Ratio(a: real, b: real): (r: real)
    ensures b <= 0.0 ==> r == 0.0
    ensures b > 0.0 ==> r * b == a
  {
    if b > 0.0 then a / b else 0.0
  }

  /** `get_balance_sheet` after the fetch. */
  function BalanceOf(columns: seq<BalanceColumn>): BalanceOutcome {
    if columns == [] then NoBalanceSheet
    else
      var latest := columns[0];
      var previous := if |columns| > 1 then columns[1] else latest;
      var cur := Current(
        Item("Total Assets", latest), Item("Total Liabilities Net Minority Interest", latest),
        Item("Stockholders Equity", latest), Item("Cash And Cash Equivalents", latest),
        Item("Total Debt", latest), Item("Current Assets", latest), Item("Current Liabilities", latest));
      Balance(latest.date, cur,
        Previous(Item("Total Assets", previous), Item("Stockholders Equity", previous)),
        Ratios(
          Ratio(cur.currentAssets, cur.currentLiabilities),
          Ratio(cur.totalDebt, cur.totalEquity),
          Ratio(cur.totalDebt, cur.totalAssets),
          Ratio(cur.totalEquity, cur.totalAssets)))
  }

  /**
   * With a single column the previous figures repeat the current ones; each
   * ratio is 0 when its denominator is not positive and otherwise scales
   * back to its numerator; the two asset ratios share the denominator.
   */
  lemma BalanceShape(columns: seq<BalanceColumn>)
    requires columns != []
    ensures var b := BalanceOf(columns);
      b.Balance? &&
      (|columns| == 1 ==> b.previous == Previous(b.current.totalAssets, b.current.totalEquity)) &&
      (b.current.currentLiabilities <= 0.0 ==> b.ratios.currentRatio == 0.0) &&
      (b.current.totalEquity <= 0.0 ==> b.ratios.debtToEquity == 0.0) &&
      (b.current.totalAssets <= 0.0 ==> b.ratios.debtToAssets == 0.0 && b.ratios.equityRatio == 0.0) &&
      (b.current.totalAssets > 0.0 ==>
        (b.ratios.debtToAssets + b.ratios.equityRatio) * b.current.totalAssets == b.current.totalDebt + b.current.totalEquity)
  {
    var b := BalanceOf(columns);
    if b.current.totalAssets > 0.0 {
      var ta := b.current.totalAssets;
      assert b.ratios.debtToAssets * ta == b.current.totalDebt;
      assert b.ratios.equityRatio * ta == b.current.totalEquity;
      assert (b.ratios.debtToAssets + b.ratios.equityRatio) * ta == b.ratios.debtToAssets * ta + b.ratios.equityRatio * ta;
    }
  }

  // ---------------------------------------------------------------------------
  // Peer comparison
  // ---------------------------------------------------------------------------

  /** The fetched `ticker.info` fields; `None` is a missing key or a NaN. */
  datatype Quote = Quote(
    price: Option<real>, pe: Option<real>, pb: Option<real>, marketCap: Option<real>,
    dividendYield: Option<real>, roe: Option<real>, debtToEquity: Option<real>)

  datatype Peer = Peer(
    symbol: string, name: string, price: real, pe: real, pb: real, marketCap: real,
    dividendYield: real, roe: real, debtToEquity: real, isTarget: bool)

  datatype Averages = Averages(pe: real, pb: real, dividendYield: real, roe: real, debtToEquity: real)

  datatype PeerOutcome = StockNotFound | Comparison(sector: string, peers: seq<Peer>, averages: Option<Averages>)

  /** Some entry of the universe lists `s` under `sector`. */
  predicate InSector(stocks: seq<StockUniverse.Entry>, s: string, sector: string) {
    exists e :: e in stocks && e.symbol == s && e.info.sector == sector
  }

  /** `[s for s, info in all_stocks.items() if info['sector'] == sector and s != target]` */
  function SameSector(stocks: seq<StockUniverse.Entry>, sector: string, target: string): (r: seq<string>)
    ensures forall s :: s in r ==> s != target && InSector(stocks, s, sector)
    decreases |stocks|
  {
    if stocks == [] then []
    else
      var rest := SameSector(stocks[1..], sector, target);
      assert forall s :: InSector(stocks[1..], s, sector) ==> InSector(stocks, s, sector) by {
        forall s | InSector(stocks[1..], s, sector) ensures InSector(stocks, s, sector) {
          var e :| e in stocks[1..] && e.symbol == s && e.info.sector == sector;
          assert e in stocks;
        }
      }
      if stocks[0].info.sector == sector && stocks[0].symbol != target then
        assert stocks[0] in stocks;
        [stocks[0].symbol] + rest
      else rest
  }

  /** The symbols compared: the target first, then at most five peers (the sector's first five by default). */
  function CompareList(stocks: seq<StockUniverse.Entry>, target: string, sector: string, peers: Option<seq<string>>): seq<string> {
    var chosen := if peers.None? || peers.value == [] then PyTake(SameSector(stocks, sector, target), 5) else peers.value;
    [target] + PyTake(chosen, 5)
  }

  function NameOr(stocks: seq<StockUniverse.Entry>, sym: string): string {
    var m := StockUniverse.AsMap(stocks);
    if sym in m then m[sym].name else sym
  }

  function PeerOf(stocks: seq<StockUniverse.Entry>, sym: string, q: Quote, target: string): Peer {
    Peer(sym, NameOr(stocks, sym), q.price.GetOr(0.0), q.pe.GetOr(0.0), q.pb.GetOr(0.0), q.marketCap.GetOr(0.0),
      q.dividendYield.GetOr(0.0) * 100.0, q.roe.GetOr(0.0) * 100.0, q.debtToEquity.GetOr(0.0), sym == target)
  }

  /** The quote fetch of `s` succeeded. */
  function Quoted(quotes: map<string, Quote>): string -> bool {
    s => s in quotes
  }

  /**
   * The comparison rows, in list order: a symbol whose quote fetch fails
   * (absent from `quotes`) is skipped, every other one gets its row.
   */
  function PeersOf(stocks: seq<StockUniverse.Entry>, syms: seq<string>, quotes: map<string, Quote>, target: string): (r: seq<Peer>)
    ensures var d := Filter(syms, Quoted(quotes));
      |r| == |d| && forall k :: 0 <= k < |r| ==> d[k] in quotes && r[k] == PeerOf(stocks, d[k], quotes[d[k]], target)
    ensures |r| <= |syms|
    ensures forall p :: p in r ==> p.symbol in syms && p.symbol in quotes
    ensures forall s :: s in syms && s in quotes ==> exists p :: p in r && p.symbol == s
    decreases |syms|
  {
    if syms == [] then []
    else
      var init, s := syms[..|syms| - 1], syms[|syms| - 1];
      var rest := PeersOf(stocks, init, quotes, target);
      assert forall t :: t in syms <==> t in init || t == s;
      if s in quotes then rest + [PeerOf(stocks, s, quotes[s], target)] else rest
  }

  predicate IsPositive(x: real) { x > 0.0 }

  /** `[v for v in values if v > 0]` */
  function Positives(xs: seq<real>): (r: seq<real>)
    ensures r == Filter(xs, IsPositive)
    ensures forall i :: 0 <= i < |r| ==> r[i] > 0.0
    ensures forall x :: x in r <==> x in xs && x > 0.0
    decreases |xs|
  {
    if xs == [] then []
    else
      var rest := Positives(xs[..|xs| - 1]);
      var x := xs[|xs| - 1];
      if x > 0.0 then rest + [x] else rest
  }

  /** `round(sum(values) / len(values), 2) if values else 0`, without the rounding. */
  function PositiveMean(xs: seq<real>): real {
    var p := Positives(xs);
    if p == [] then 0.0 else Mean(p)
  }

  /**
   * The average ignores non-positive values: it is 0 exactly when there are
   * none, and otherwise positive and between the least and greatest of them.
   */
  lemma PositiveMeanBounds(xs: seq<real>)
    ensures Positives(xs) == [] <==> forall x :: x in xs ==> x <= 0.0
    ensures Positives(xs) == [] ==> PositiveMean(xs) == 0.0
    ensures Positives(xs) != [] ==>
      0.0 < SeqMin(Positives(xs)) <= PositiveMean(xs) <= SeqMax(Positives(xs))
  {
    var p := Positives(xs);
    if p != [] {
      assert p[0] in p;
      MeanBounds(p, SeqMin(p), SeqMax(p));
    }
  }

  function Column(peers: seq<Peer>, metric: nat): (r: seq<real>)
    requires metric < 5
    ensures |r| == |peers|
  {
    seq(|peers|, i requires 0 <= i < |peers| =>
      var c := peers[i];
      if metric == 0 then c.pe else if metric == 1 then c.pb else if metric == 2 then c.dividendYield
      else if metric == 3 then c.roe else c.debtToEquity)
  }

  /** The sector averages: present only when more than one symbol was compared. */
  function AveragesOf(peers: seq<Peer>): Option<Averages> {
    if |peers| > 1 then
      Some(Averages(PositiveMean(Column(peers, 0)), PositiveMean(Column(peers, 1)), PositiveMean(Column(peers, 2)),
        PositiveMean(Column(peers, 3)), PositiveMean(Column(peers, 4))))
    else None
  }

  /** `get_peer_comparison` after the fetch of each quote. */
  function PeerComparisonOf(stocks: seq<StockUniverse.Entry>, symbol: string, peers: Option<seq<string>>, quotes: map<string, Quote>): PeerOutcome {
    var target := Upper(symbol);
    var m := StockUniverse.AsMap(stocks);
    if target !in m then StockNotFound
    else
      var sector := m[target].sector;
      var rows := PeersOf(stocks, CompareList(stocks, target, sector, peers), quotes, target);
      Comparison(sector, rows, AveragesOf(rows))
  }

  /** The comparison loop over the symbols, skipping those whose fetch fails. */
  method PeerComparison(stocks: seq<StockUniverse.Entry>, symbol: string, peers: Option<seq<string>>, quotes: map<string, Quote>)
    returns (r: PeerOutcome)
    ensures r == PeerComparisonOf(stocks, symbol, peers, quotes)
  {
    var target := Upper(symbol);
    var m := StockUniverse.AsMap(stocks);
    if target !in m {
      return StockNotFound;
    }
    var sector := m[target].sector;
    var syms := CompareList(stocks, target, sector, peers);
    var comparison: seq<Peer> := [];
    for i := 0 to |syms|
      invariant comparison == PeersOf(stocks, syms[..i], quotes, target)
    {
      assert syms[..i + 1][..i] == syms[..i];
      var sym := syms[i];
      if sym in quotes {
        comparison := comparison + [PeerOf(stocks, sym, quotes[sym], target)];
      }
    }
    assert syms[..|syms|] == syms;
    r := Comparison(sector, comparison, AveragesOf(comparison));
  }

  /**
   * The default peers share the target's sector and exclude it, at most
   * five; the target is always compared first.
   */
  lemma CompareListShape(stocks: seq<StockUniverse.Entry>, target: string, sector: string, peers: Option<seq<string>>)
    ensures var l := CompareList(stocks, target, sector, peers);
      l[0] == target && 1 <= |l| <= 6 &&
      ((peers.None? || peers.value == []) ==>
        forall i :: 1 <= i < |l| ==> l[i] != target && InSector(stocks, l[i], sector))
  {
    var l := CompareList(stocks, target, sector, peers);
    if peers.None? || peers.value == [] {
      var same := SameSector(stocks, sector, target);
      var five := PyTake(same, 5);
      forall i | 1 <= i < |l|
        ensures l[i] != target && InSector(stocks, l[i], sector)
      {
        assert l[i] == five[i - 1] == same[i - 1];
        assert same[i - 1] in same;
      }
    }
  }

  /** Sector averages exist iff more than one symbol was compared. */
  lemma AveragesPresence(stocks: seq<StockUniverse.Entry>, symbol: string, peers: Option<seq<string>>, quotes: map<string, Quote>)
    ensures var o := PeerComparisonOf(stocks, symbol, peers, quotes);
      o.Comparison? ==> (o.averages.Some? <==> |o.peers| > 1) && |o.peers| <= 6
  {
  }
}
