/**
 * Portfolio tracking: the holdings table (one row per upper-cased symbol)
 * and the append-only transactions table, the summary against a price map
 * and the analytics against the recommendation engine's per-stock data.
 * Dates are parameters (`today`, `nowIso`).
 */
module Portfolio {
  import opened Base
  import opened Text
  import opened Sorting
  import Table

  datatype HoldingRow = HoldingRow(symbol: string, quantity: real, avgPrice: real, buyDate: string)

  datatype Transaction = Transaction(symbol: string, kind: string, quantity: real, price: real, date: string)

  // ---- the holdings table ----

  /** The key of `UNIQUE(symbol)`. */
  function SymbolOf(h: HoldingRow): string { h.symbol }

  /** `UPDATE holdings SET quantity = ?, avg_price = ? WHERE symbol = ?` */
  function SetPosition(rows: seq<HoldingRow>, symbol: string, quantity: real, avgPrice: real): (r: seq<HoldingRow>)
    ensures |r| == |rows|
    ensures forall i :: 0 <= i < |rows| ==>
      r[i] == if rows[i].symbol == symbol then rows[i].(quantity := quantity, avgPrice := avgPrice) else rows[i]
  {
    seq(|rows|, i requires 0 <= i < |rows| =>
      if rows[i].symbol == symbol then rows[i].(quantity := quantity, avgPrice := avgPrice) else rows[i])
  }

  predicate BySymbol(a: HoldingRow, b: HoldingRow) { StrLe(a.symbol, b.symbol) }

  /** `SELECT * FROM holdings ORDER BY symbol` */
  function Ordered(rows: seq<HoldingRow>): seq<HoldingRow> {
    SortBy(rows, BySymbol)
  }

  /** The listing is every row once, in ascending symbol order. */
  lemma OrderedListing(rows: seq<HoldingRow>)
    ensures multiset(Ordered(rows)) == multiset(rows)
    ensures forall i, j :: 0 <= i < j < |Ordered(rows)| ==> StrLe(Ordered(rows)[i].symbol, Ordered(rows)[j].symbol)
  {
    StrLeTotalOrder();
    assert TotalPreorder(BySymbol);
    SortBySorted(rows, BySymbol);
  }

  /** `buy_date or today` */
  function DateOr(date: Option<string>, today: string): string {
    if date.Some? && date.value != "" then date.value else today
  }

  class Book {
    var holdings: seq<HoldingRow>
    var transactions: seq<Transaction>

    predicate Valid()
      reads this
    {
      Table.UniqueKeys(holdings, SymbolOf)
    }

    constructor()
      ensures Valid() && holdings == [] && transactions == []
    {
      holdings, transactions := [], [];
    }

    /**
     * `add_holding`: the upper-cased symbol's row is replaced (quantity and
     * average price overwritten, not averaged) and one BUY transaction is
     * appended.
     */
    method AddHolding(symbol: string, quantity: real, avgPrice: real, buyDate: Option<string>, today: string, nowIso: string)
      returns (ok: bool)
      requires Valid()
      modifies this
      ensures Valid() && ok
      ensures holdings == Table.Upsert(old(holdings), SymbolOf, HoldingRow(Upper(symbol), quantity, avgPrice, DateOr(buyDate, today)))
      ensures transactions == old(transactions) + [Transaction(Upper(symbol), "BUY", quantity, avgPrice, nowIso)]
    {
      var row := HoldingRow(Upper(symbol), quantity, avgPrice, DateOr(buyDate, today));
      Table.UpsertReplaces(holdings, SymbolOf, row);
      holdings := Table.Upsert(holdings, SymbolOf, row);
      transactions := transactions + [Transaction(Upper(symbol), "BUY", quantity, avgPrice, nowIso)];
      ok := true;
    }

    /** `update_holding` */
    method UpdateHolding(symbol: string, quantity: real, avgPrice: real) returns (ok: bool)
      requires Valid()
      modifies this
      ensures Valid() && ok
      ensures holdings == SetPosition(old(holdings), Upper(symbol), quantity, avgPrice)
      ensures transactions == old(transactions)
    {
      holdings := SetPosition(holdings, Upper(symbol), quantity, avgPrice);
      ok := true;
    }

    /** `remove_holding`: only that symbol's row goes; transactions are untouched. */
    method RemoveHolding(symbol: string) returns (ok: bool)
      requires Valid()
      modifies this
      ensures Valid() && ok
      ensures holdings == Table.Without(old(holdings), SymbolOf, Upper(symbol))
      ensures transactions == old(transactions)
    {
      Table.WithoutUnique(holdings, SymbolOf, Upper(symbol));
      holdings := Table.Without(holdings, SymbolOf, Upper(symbol));
      ok := true;
    }

    /** `clear_all_holdings` */
    method ClearAll() returns (ok: bool)
      modifies this
      ensures Valid() && ok
      ensures holdings == [] && transactions == old(transactions)
    {
      holdings := [];
      ok := true;
    }

    /** `get_holdings` */
    function Holdings(): seq<HoldingRow>
      reads this
    {
      Ordered(holdings)
    }
  }

  // ---- per-holding valuation ----

  /** `((current - avg) / avg) * 100 if avg > 0 else 0` */
  function PnlPercent(current: real, avg: real): (p: real)
    ensures avg <= 0.0 ==> p == 0.0
    ensures avg > 0.0 ==> (p > 0.0 <==> current > avg) && (p == 0.0 <==> current == avg)
  {
    if avg > 0.0 then
      var q := (current - avg) / avg;
      assert q * avg == current - avg;
      q * 100.0
    else 0.0
  }

  /** `(part / whole) * 100 if whole > 0 else 0` */
  function Percent(part: real, whole: real): (p: real)
    ensures whole <= 0.0 ==> p == 0.0
  {
    if whole > 0.0 then part / whole * 100.0 else 0.0
  }

  datatype HoldingValue = HoldingValue(
    row: HoldingRow, currentPrice: real, currentValue: real, investedValue: real, pnl: real, pnlPercent: real)

  /** One holding valued at `current`. */
  function Value(h: HoldingRow, current: real): (v: HoldingValue)
    ensures v.pnl == v.currentValue - v.investedValue
    ensures current == h.avgPrice ==> v.pnl == 0.0 && v.pnlPercent == 0.0
  {
    var invested := h.quantity * h.avgPrice;
    var currentVal := h.quantity * current;
    HoldingValue(h, current, currentVal, invested, currentVal - invested, PnlPercent(current, h.avgPrice))
  }

  /** `current_prices.get(symbol, avg)` */
  function PriceOr(prices: map<string, real>, h: HoldingRow): real {
    if h.symbol in prices then prices[h.symbol] else h.avgPrice
  }

  function Valued(holdings: seq<HoldingRow>, prices: map<string, real>): (r: seq<HoldingValue>)
    ensures |r| == |holdings|
  {
    if holdings == [] then []
    else
      var init := holdings[..|holdings| - 1];
      var h := holdings[|holdings| - 1];
      Valued(init, prices) + [Value(h, PriceOr(prices, h))]
  }

  lemma {:induction false} ValuedAt(holdings: seq<HoldingRow>, prices: map<string, real>, i: int)
    requires 0 <= i < |holdings|
    ensures Valued(holdings, prices)[i] == Value(holdings[i], PriceOr(prices, holdings[i]))
    decreases |holdings|
  {
    if i < |holdings| - 1 {
      ValuedAt(holdings[..|holdings| - 1], prices, i);
    }
  }

  lemma ValuedStep(holdings: seq<HoldingRow>, prices: map<string, real>, i: int)
    requires 0 <= i < |holdings|
    ensures Valued(holdings[..i + 1], prices) == Valued(holdings[..i], prices) + [Value(holdings[i], PriceOr(prices, holdings[i]))]
  {
    assert holdings[..i + 1][..i] == holdings[..i];
  }

  lemma SumsStep(vs: seq<HoldingValue>, v: HoldingValue)
    ensures InvestedSum(vs + [v]) == InvestedSum(vs) + v.investedValue
    ensures CurrentSum(vs + [v]) == CurrentSum(vs) + v.currentValue
  {
    assert (vs + [v])[..|vs|] == vs;
  }

  function InvestedSum(vs: seq<HoldingValue>): real {
    if vs == [] then 0.0 else InvestedSum(vs[..|vs| - 1]) + vs[|vs| - 1].investedValue
  }

  function CurrentSum(vs: seq<HoldingValue>): real {
    if vs == [] then 0.0 else CurrentSum(vs[..|vs| - 1]) + vs[|vs| - 1].currentValue
  }

  function PnlSum(vs: seq<HoldingValue>): real {
    if vs == [] then 0.0 else PnlSum(vs[..|vs| - 1]) + vs[|vs| - 1].pnl
  }

  datatype PortfolioSummary = PortfolioSummary(
    holdings: seq<HoldingValue>, totalInvested: real, totalCurrent: real,
    totalPnl: real, totalPnlPercent: real, holdingsCount: nat)

  /** What `get_portfolio_summary` reports for the listed holdings. */
  function SummaryOf(holdings: seq<HoldingRow>, prices: map<string, real>): PortfolioSummary {
    var vs := Valued(holdings, prices);
    SummaryFrom(vs, InvestedSum(vs), CurrentSum(vs))
  }

  /** The summary once the entries and the two totals are known. */
  function SummaryFrom(vs: seq<HoldingValue>, invested: real, current: real): (s: PortfolioSummary)
    ensures s.holdings == vs && s.holdingsCount == |vs|
    ensures s.totalPnl == current - invested
  {
    PortfolioSummary(vs, invested, current, current - invested, Percent(current - invested, invested), |vs|)
  }

  /** `get_portfolio_summary` over the rows `get_holdings` returned. */
  method PortfolioSummaryOf(holdings: seq<HoldingRow>, prices: map<string, real>) returns (s: PortfolioSummary)
    ensures s == SummaryOf(holdings, prices)
  {
    var totalInvested := 0.0;
    var totalCurrent := 0.0;
    var data: seq<HoldingValue> := [];
    for i := 0 to |holdings|
      invariant data == Valued(holdings[..i], prices)
      invariant totalInvested == InvestedSum(data)
      invariant totalCurrent == CurrentSum(data)
    {
      var v := Value(holdings[i], PriceOr(prices, holdings[i]));
      totalInvested := totalInvested + v.investedValue;
      totalCurrent := totalCurrent + v.currentValue;
      ValuedStep(holdings, prices, i);
      SumsStep(data, v);
      data := data + [v];
    }
    assert holdings[..|holdings|] == holdings;
    s := SummaryFrom(data, totalInvested, totalCurrent);
  }

  /** The total profit is the sum of the holdings' profits. */
  lemma {:induction false} PnlAdds(vs: seq<HoldingValue>)
    requires forall i :: 0 <= i < |vs| ==> vs[i].pnl == vs[i].currentValue - vs[i].investedValue
    ensures PnlSum(vs) == CurrentSum(vs) - InvestedSum(vs)
    decreases |vs|
  {
    if vs != [] {
      PnlAdds(vs[..|vs| - 1]);
    }
  }

  /**
   * The summary: one entry per holding, the total profit is current minus
   * invested and also the sum of the entries' profits, and a holding without
   * a price is valued at its average price, so it adds no profit.
   */
  lemma SummaryProperties(holdings: seq<HoldingRow>, prices: map<string, real>)
    ensures var s := SummaryOf(holdings, prices);
      s.holdingsCount == |holdings| &&
      s.totalPnl == s.totalCurrent - s.totalInvested &&
      s.totalPnl == PnlSum(s.holdings) &&
      (s.totalInvested <= 0.0 ==> s.totalPnlPercent == 0.0) &&
      (forall i :: 0 <= i < |holdings| && holdings[i].symbol !in prices ==> s.holdings[i].pnl == 0.0)
  {
    var vs := Valued(holdings, prices);
    forall i | 0 <= i < |vs| ensures vs[i].pnl == vs[i].currentValue - vs[i].investedValue {
      ValuedAt(holdings, prices, i);
    }
    PnlAdds(vs);
    forall i | 0 <= i < |holdings| && holdings[i].symbol !in prices ensures vs[i].pnl == 0.0 {
      ValuedAt(holdings, prices, i);
    }
  }

  /** With non-negative quantities, prices at or above cost never show a loss. */
  lemma {:induction false} NoLossWhenPricesHold(vs: seq<HoldingValue>)
    requires forall i :: 0 <= i < |vs| ==>
      vs[i].row.quantity >= 0.0 && vs[i].currentPrice >= vs[i].row.avgPrice &&
      vs[i].currentValue == vs[i].row.quantity * vs[i].currentPrice &&
      vs[i].investedValue == vs[i].row.quantity * vs[i].row.avgPrice
    ensures CurrentSum(vs) >= InvestedSum(vs)
    decreases |vs|
  {
    if vs != [] {
      NoLossWhenPricesHold(vs[..|vs| - 1]);
      var v := vs[|vs| - 1];
      MulMonotone(v.row.quantity, v.row.avgPrice, v.currentPrice);
    }
  }

  lemma MulMonotone(q: real, a: real, b: real)
    requires q >= 0.0 && a <= b
    ensures q * a <= q * b
  {
  }

  // ---- analytics ----

  /** The recommendation engine's data for one symbol; `None` is a missing key. */
  datatype StockFacts = StockFacts(
    price: Option<real>, sector: Option<string>,
    upside: Option<real>, action: Option<string>, confidence: Option<real>, rsi: Option<real>)

  datatype AnalyticsRow = AnalyticsRow(
    symbol: string, currentPrice: real, currentValue: real, investedValue: real, pnl: real, pnlPercent: real,
    sector: string, action: string, upside: real, confidence: real, predicted1w: real, predicted1wValue: real,
    rsi: real)

  /** `stock_data.get(symbol, {})` */
  function FactsOf(facts: map<string, StockFacts>, symbol: string): StockFacts {
    if symbol in facts then facts[symbol] else StockFacts(None, None, None, None, None, None)
  }

  /** `stock_info.get('sector') or stock_universe.get(symbol, {}).get('sector', 'Unknown')` */
  function SectorOf(f: StockFacts, universeSectors: map<string, string>, symbol: string): string {
    if f.sector.Some? && f.sector.value != "" then f.sector.value
    else if symbol in universeSectors then universeSectors[symbol]
    else "Unknown"
  }

  function AnalyticsRowOf(h: HoldingRow, facts: map<string, StockFacts>, universeSectors: map<string, string>): (r: AnalyticsRow)
    ensures r.symbol == h.symbol
    ensures r.pnl == r.currentValue - r.investedValue
  {
    var f := FactsOf(facts, h.symbol);
    var current := f.price.GetOr(h.avgPrice);
    var invested := h.quantity * h.avgPrice;
    var currentVal := h.quantity * current;
    var upside := f.upside.GetOr(0.0);
    var predicted := upside * 0.15;
    AnalyticsRow(h.symbol, current, currentVal, invested, currentVal - invested, PnlPercent(current, h.avgPrice),
      SectorOf(f, universeSectors, h.symbol), f.action.GetOr("HOLD"), upside, f.confidence.GetOr(50.0),
      predicted, currentVal * (1.0 + predicted / 100.0), f.rsi.GetOr(50.0))
  }

  function AnalyticsRows(holdings: seq<HoldingRow>, facts: map<string, StockFacts>, universeSectors: map<string, string>)
    : (r: seq<AnalyticsRow>)
    ensures |r| == |holdings|
  {
    if holdings == [] then []
    else
      var init := AnalyticsRows(holdings[..|holdings| - 1], facts, universeSectors);
      init + [AnalyticsRowOf(holdings[|holdings| - 1], facts, universeSectors)]
  }

  function InvestedTotal(rows: seq<AnalyticsRow>): real {
    if rows == [] then 0.0 else InvestedTotal(rows[..|rows| - 1]) + rows[|rows| - 1].investedValue
  }

  function CurrentTotal(rows: seq<AnalyticsRow>): real {
    if rows == [] then 0.0 else CurrentTotal(rows[..|rows| - 1]) + rows[|rows| - 1].currentValue
  }

  function PredictedTotal(rows: seq<AnalyticsRow>): real {
    if rows == [] then 0.0 else PredictedTotal(rows[..|rows| - 1]) + rows[|rows| - 1].predicted1wValue
  }

  /** One entry of `sector_allocation`. */
  datatype SectorSlot = SectorSlot(sector: string, value: real, count: nat, stocks: seq<string>, percentage: real)

  /** Adds one holding to its sector's entry, creating the entry (last) on the sector's first holding. */
  function Allot(alloc: seq<SectorSlot>, sector: string, symbol: string, value: real): (r: seq<SectorSlot>)
    ensures |r| == |alloc| || |r| == |alloc| + 1
  {
    if alloc == [] then [SectorSlot(sector, value, 1, [symbol], 0.0)]
    else if alloc[0].sector == sector then
      [alloc[0].(value := alloc[0].value + value, count := alloc[0].count + 1, stocks := alloc[0].stocks + [symbol])]
        + alloc[1..]
    else [alloc[0]] + Allot(alloc[1..], sector, symbol, value)
  }

  function Allocation(rows: seq<AnalyticsRow>): seq<SectorSlot> {
    if rows == [] then []
    else
      var r := rows[|rows| - 1];
      Allot(Allocation(rows[..|rows| - 1]), r.sector, r.symbol, r.currentValue)
  }

  function CountSum(alloc: seq<SectorSlot>): nat {
    if alloc == [] then 0 else alloc[0].count + CountSum(alloc[1..])
  }

  function ValueSum(alloc: seq<SectorSlot>): real {
    if alloc == [] then 0.0 else alloc[0].value + ValueSum(alloc[1..])
  }

  function PercentSum(alloc: seq<SectorSlot>): real {
    if alloc == [] then 0.0 else alloc[0].percentage + PercentSum(alloc[1..])
  }

  lemma {:induction false} AllotAdds(alloc: seq<SectorSlot>, sector: string, symbol: string, value: real)
    ensures CountSum(Allot(alloc, sector, symbol, value)) == CountSum(alloc) + 1
    ensures ValueSum(Allot(alloc, sector, symbol, value)) == ValueSum(alloc) + value
    ensures forall k :: 0 <= k < |Allot(alloc, sector, symbol, value)| ==>
      Allot(alloc, sector, symbol, value)[k].percentage == 0.0 || k < |alloc|
    decreases |alloc|
  {
    if alloc != [] && alloc[0].sector != sector {
      AllotAdds(alloc[1..], sector, symbol, value);
      assert Allot(alloc, sector, symbol, value)[1..] == Allot(alloc[1..], sector, symbol, value);
    } else if alloc != [] {
      assert Allot(alloc, sector, symbol, value)[1..] == alloc[1..];
    }
  }

  /** The sector counts add up to the number of holdings and the sector values to the current total. */
  lemma {:induction false} AllocationTotals(rows: seq<AnalyticsRow>)
    ensures CountSum(Allocation(rows)) == |rows|
    ensures ValueSum(Allocation(rows)) == CurrentTotal(rows)
    decreases |rows|
  {
    if rows != [] {
      var r := rows[|rows| - 1];
      AllocationTotals(rows[..|rows| - 1]);
      AllotAdds(Allocation(rows[..|rows| - 1]), r.sector, r.symbol, r.currentValue);
    }
  }

  /** The second loop: each sector's share of the current total. */
  function WithPercentages(alloc: seq<SectorSlot>, total: real): (r: seq<SectorSlot>)
    ensures |r| == |alloc|
    ensures forall k :: 0 <= k < |alloc| ==> r[k] == alloc[k].(percentage := Percent(alloc[k].value, total))
  {
    seq(|alloc|, k requires 0 <= k < |alloc| => alloc[k].(percentage := Percent(alloc[k].value, total)))
  }

  lemma {:induction false} PercentSumScales(alloc: seq<SectorSlot>, total: real)
    requires total > 0.0
    ensures PercentSum(WithPercentages(alloc, total)) == ValueSum(alloc) / total * 100.0
    decreases |alloc|
  {
    if alloc != [] {
      PercentSumScales(alloc[1..], total);
      assert WithPercentages(alloc, total)[1..] == WithPercentages(alloc[1..], total);
    }
  }

  /** With a positive current total, the sector percentages add up to 100. */
  lemma SectorPercentagesTotal(rows: seq<AnalyticsRow>)
    requires CurrentTotal(rows) > 0.0
    ensures PercentSum(WithPercentages(Allocation(rows), CurrentTotal(rows))) == 100.0
  {
    var total := CurrentTotal(rows);
    AllocationTotals(rows);
    PercentSumScales(Allocation(rows), total);
    assert total / total == 1.0;
  }

  predicate ByPnlDesc(a: AnalyticsRow, b: AnalyticsRow) { a.pnlPercent >= b.pnlPercent }
  predicate ByPnlAsc(a: AnalyticsRow, b: AnalyticsRow) { a.pnlPercent <= b.pnlPercent }
  predicate ByUpsideDesc(a: AnalyticsRow, b: AnalyticsRow) { a.upside >= b.upside }

  function Symbols(rows: seq<AnalyticsRow>): (r: seq<string>)
    ensures |r| == |rows|
    ensures forall i :: 0 <= i < |rows| ==> r[i] == rows[i].symbol
  {
    seq(|rows|, i requires 0 <= i < |rows| => rows[i].symbol)
  }

  predicate IsBuy(r: AnalyticsRow) { r.action == "STRONG BUY" || r.action == "BUY" }
  predicate IsSell(r: AnalyticsRow) { r.action == "SELL" || r.action == "STRONG SELL" }

  datatype Insights = Insights(
    topGainers: seq<AnalyticsRow>, topLosers: seq<AnalyticsRow>, highestUpside: seq<AnalyticsRow>,
    buyCount: nat, sellCount: nat, stocksToBuy: seq<string>, stocksToSell: seq<string>)

  function InsightsOf(rows: seq<AnalyticsRow>): Insights {
    var buys := Filter(rows, IsBuy);
    var sells := Filter(rows, IsSell);
    Insights(
      PyTake(SortBy(rows, ByPnlDesc), 5), PyTake(SortBy(rows, ByPnlAsc), 5), PyTake(SortBy(rows, ByUpsideDesc), 5),
      |buys|, |sells|, Symbols(PyTake(buys, 3)), Symbols(PyTake(sells, 3)))
  }

  /**
   * The insight lists: at most five rows each, best first; at most three
   * symbols to buy and to sell; and the buy and sell counts, which are the
   * numbers of buy and sell holdings, never exceed the holdings together.
   */
  lemma InsightsRanked(rows: seq<AnalyticsRow>)
    ensures var ins := InsightsOf(rows);
      |ins.topGainers| <= 5 && |ins.topLosers| <= 5 && |ins.highestUpside| <= 5 &&
      |ins.stocksToBuy| <= 3 && |ins.stocksToSell| <= 3 &&
      ins.buyCount == Count(rows, IsBuy) && ins.sellCount == Count(rows, IsSell) &&
      ins.buyCount + ins.sellCount <= |rows| &&
      (forall i, j :: 0 <= i < j < |ins.topGainers| ==> ins.topGainers[i].pnlPercent >= ins.topGainers[j].pnlPercent) &&
      (forall i, j :: 0 <= i < j < |ins.topLosers| ==> ins.topLosers[i].pnlPercent <= ins.topLosers[j].pnlPercent) &&
      (forall i, j :: 0 <= i < j < |ins.highestUpside| ==> ins.highestUpside[i].upside >= ins.highestUpside[j].upside)
  {
    var ins := InsightsOf(rows);
    var g, l, u := PyTake(SortBy(rows, ByPnlDesc), 5), PyTake(SortBy(rows, ByPnlAsc), 5), PyTake(SortBy(rows, ByUpsideDesc), 5);
    assert ins.topGainers == g && ins.topLosers == l && ins.highestUpside == u;
    assert SortedBy(g, ByPnlDesc) by {
      ByPnlDescPreorder();
      SortBySorted(rows, ByPnlDesc);
    }
    assert SortedBy(l, ByPnlAsc) by {
      ByPnlAscPreorder();
      SortBySorted(rows, ByPnlAsc);
    }
    assert SortedBy(u, ByUpsideDesc) by {
      ByUpsideDescPreorder();
      SortBySorted(rows, ByUpsideDesc);
    }
    BuySellDisjoint(rows);
  }

  /**
   * Each ranking holds min(5, n) of the holdings, each at most as often as it
   * occurs, and no holding left out of it outranks one kept in it.
   */
  lemma InsightsLeftOut(rows: seq<AnalyticsRow>)
    ensures var ins := InsightsOf(rows); var n := if |rows| <= 5 then |rows| else 5;
      |ins.topGainers| == n && multiset(ins.topGainers) <= multiset(rows) &&
      |ins.topLosers| == n && multiset(ins.topLosers) <= multiset(rows) &&
      |ins.highestUpside| == n && multiset(ins.highestUpside) <= multiset(rows)
    ensures var ins := InsightsOf(rows);
      (forall x, y :: x in rows && x !in ins.topGainers && y in ins.topGainers ==> y.pnlPercent >= x.pnlPercent) &&
      (forall x, y :: x in rows && x !in ins.topLosers && y in ins.topLosers ==> y.pnlPercent <= x.pnlPercent) &&
      (forall x, y :: x in rows && x !in ins.highestUpside && y in ins.highestUpside ==> y.upside >= x.upside)
  {
    GainersLeftOut(rows);
    LosersLeftOut(rows);
    UpsideLeftOut(rows);
    var ins := InsightsOf(rows);
    assert ins.topGainers == PyTake(SortBy(rows, ByPnlDesc), 5);
    assert ins.topLosers == PyTake(SortBy(rows, ByPnlAsc), 5);
    assert ins.highestUpside == PyTake(SortBy(rows, ByUpsideDesc), 5);
    TopDrawn(rows, ByPnlDesc);
    TopDrawn(rows, ByPnlAsc);
    TopDrawn(rows, ByUpsideDesc);
  }

  lemma ByPnlDescPreorder() ensures TotalPreorder(ByPnlDesc) {}
  lemma ByPnlAscPreorder() ensures TotalPreorder(ByPnlAsc) {}
  lemma ByUpsideDescPreorder() ensures TotalPreorder(ByUpsideDesc) {}

  /** The first five of a sort are min(5, n) of the rows, each at most as often as it occurs. */
  lemma TopDrawn(rows: seq<AnalyticsRow>, le: (AnalyticsRow, AnalyticsRow) -> bool)
    ensures var top := PyTake(SortBy(rows, le), 5);
      |top| == (if |rows| <= 5 then |rows| else 5) && multiset(top) <= multiset(rows)
  {
    var n := if |rows| <= 5 then |rows| else 5;
    PrefixMultiset(SortBy(rows, le), n);
  }

  /** The first five of a sort come before every row left out of them. */
  lemma TakeTop(rows: seq<AnalyticsRow>, le: (AnalyticsRow, AnalyticsRow) -> bool)
    requires TotalPreorder(le)
    ensures var top := PyTake(SortBy(rows, le), 5);
      forall x, y :: x in rows && x !in top && y in top ==> le(y, x)
  {
    var n := if |rows| <= 5 then |rows| else 5;
    assert PyTake(SortBy(rows, le), 5) == SortBy(rows, le)[..n];
    SortedTop(rows, le, n);
  }

  lemma GainersLeftOut(rows: seq<AnalyticsRow>)
    ensures var top := PyTake(SortBy(rows, ByPnlDesc), 5);
      forall x, y :: x in rows && x !in top && y in top ==> y.pnlPercent >= x.pnlPercent
  {
    var top := PyTake(SortBy(rows, ByPnlDesc), 5);
    assert forall x, y :: x in rows && x !in top && y in top ==> ByPnlDesc(y, x) by {
      ByPnlDescPreorder();
      TakeTop(rows, ByPnlDesc);
    }
  }

  lemma LosersLeftOut(rows: seq<AnalyticsRow>)
    ensures var top := PyTake(SortBy(rows, ByPnlAsc), 5);
      forall x, y :: x in rows && x !in top && y in top ==> y.pnlPercent <= x.pnlPercent
  {
    var top := PyTake(SortBy(rows, ByPnlAsc), 5);
    assert forall x, y :: x in rows && x !in top && y in top ==> ByPnlAsc(y, x) by {
      ByPnlAscPreorder();
      TakeTop(rows, ByPnlAsc);
    }
  }

  lemma UpsideLeftOut(rows: seq<AnalyticsRow>)
    ensures var top := PyTake(SortBy(rows, ByUpsideDesc), 5);
      forall x, y :: x in rows && x !in top && y in top ==> y.upside >= x.upside
  {
    var top := PyTake(SortBy(rows, ByUpsideDesc), 5);
    assert forall x, y :: x in rows && x !in top && y in top ==> ByUpsideDesc(y, x) by {
      ByUpsideDescPreorder();
      TakeTop(rows, ByUpsideDesc);
    }
  }

  /** The symbols of the first three rows satisfying `p`, in row order. */
  lemma FirstThreeSymbols(rows: seq<AnalyticsRow>, p: AnalyticsRow -> bool)
    ensures var f := Filter(rows, p); var syms := Symbols(PyTake(f, 3));
      |syms| == (if |f| <= 3 then |f| else 3) &&
      (forall k :: 0 <= k < |syms| ==> syms[k] == f[k].symbol) &&
      (forall s :: s in syms ==> exists h :: h in rows && p(h) && h.symbol == s)
  {
    var f := Filter(rows, p);
    var syms := Symbols(PyTake(f, 3));
    forall s | s in syms ensures exists h :: h in rows && p(h) && h.symbol == s {
      var k :| 0 <= k < |syms| && syms[k] == s;
      assert f[k] in f;
    }
  }

  /**
   * The recommendation counts are the numbers of buy and sell holdings, and
   * the symbols to buy and to sell are those of the first three of each, in
   * holding order.
   */
  lemma InsightsRecommended(rows: seq<AnalyticsRow>)
    ensures var ins := InsightsOf(rows);
      ins.buyCount == Count(rows, IsBuy) && ins.sellCount == Count(rows, IsSell) &&
      |ins.stocksToBuy| == (if ins.buyCount <= 3 then ins.buyCount else 3) &&
      |ins.stocksToSell| == (if ins.sellCount <= 3 then ins.sellCount else 3) &&
      (forall k :: 0 <= k < |ins.stocksToBuy| ==> ins.stocksToBuy[k] == Filter(rows, IsBuy)[k].symbol) &&
      (forall k :: 0 <= k < |ins.stocksToSell| ==> ins.stocksToSell[k] == Filter(rows, IsSell)[k].symbol)
    ensures var ins := InsightsOf(rows);
      (forall s :: s in ins.stocksToBuy ==> exists h :: h in rows && IsBuy(h) && h.symbol == s) &&
      (forall s :: s in ins.stocksToSell ==> exists h :: h in rows && IsSell(h) && h.symbol == s)
  {
    var ins := InsightsOf(rows);
    assert ins.stocksToBuy == Symbols(PyTake(Filter(rows, IsBuy), 3));
    assert ins.stocksToSell == Symbols(PyTake(Filter(rows, IsSell), 3));
    FirstThreeSymbols(rows, IsBuy);
    FirstThreeSymbols(rows, IsSell);
  }

  lemma {:induction false} BuySellDisjoint(rows: seq<AnalyticsRow>)
    ensures |Filter(rows, IsBuy)| + |Filter(rows, IsSell)| <= |rows|
    decreases |rows|
  {
    if rows != [] {
      var init := rows[..|rows| - 1];
      BuySellDisjoint(init);
      assert init + [rows[|rows| - 1]] == rows;
      FilterAppend(init, rows[|rows| - 1], IsBuy);
      FilterAppend(init, rows[|rows| - 1], IsSell);
    }
  }

  datatype Risk = Risk(overbought: seq<string>, oversold: seq<string>, concentrationRisk: bool, maxHoldingPercent: real)

  /** The largest holding's share of the current total. */
  function MaxShare(rows: seq<AnalyticsRow>, total: real): real
    requires rows != [] && total != 0.0
  {
    SeqMax(seq(|rows|, i requires 0 <= i < |rows| => rows[i].currentValue / total * 100.0))
  }

  function RiskOf(rows: seq<AnalyticsRow>, total: real): Risk
    requires rows != [] && total != 0.0
  {
    var m := MaxShare(rows, total);
    Risk(Symbols(Filter(rows, (r: AnalyticsRow) => r.rsi > 70.0)), Symbols(Filter(rows, (r: AnalyticsRow) => r.rsi < 30.0)),
      m > 25.0, m)
  }

  /** Concentration risk holds exactly when some holding is over a quarter of a positive current total. */
  lemma ConcentrationMeaning(rows: seq<AnalyticsRow>, total: real)
    requires rows != [] && total > 0.0
    ensures RiskOf(rows, total).concentrationRisk <==> exists i :: 0 <= i < |rows| && rows[i].currentValue > 0.25 * total
  {
    var shares := seq(|rows|, i requires 0 <= i < |rows| => rows[i].currentValue / total * 100.0);
    forall i | 0 <= i < |rows| ensures shares[i] > 25.0 <==> rows[i].currentValue > 0.25 * total {
      ShareAboveQuarter(rows[i].currentValue, total);
    }
  }

  lemma ShareAboveQuarter(v: real, total: real)
    requires total > 0.0
    ensures v / total * 100.0 > 25.0 <==> v > 0.25 * total
  {
    assert v / total * total == v;
  }

  datatype Analytics =
    | NoHoldings
      /** The maximum share divides by a current total of zero: `ZeroDivisionError`. */
    | ZeroDivision
    | Report(
        totalInvested: real, totalCurrent: real, totalPnl: real, totalPnlPercent: real, holdingsCount: nat,
        predicted1wValue: real, predicted1wGain: real, predicted1wGainPercent: real,
        allocation: seq<SectorSlot>, insights: Insights, risk: Risk, holdings: seq<AnalyticsRow>)

  /** What `get_portfolio_analytics` reports for the listed holdings. */
  function AnalyticsOf(holdings: seq<HoldingRow>, facts: map<string, StockFacts>, universeSectors: map<string, string>)
    : Analytics
  {
    if holdings == [] then NoHoldings
    else
      var rows := AnalyticsRows(holdings, facts, universeSectors);
      var current := CurrentTotal(rows);
      if current == 0.0 then ZeroDivision
      else ReportFrom(rows, InvestedTotal(rows), current, WithPercentages(Allocation(rows), current))
  }

  /** The report once the rows, the two totals and the sector entries are known. */
  function ReportFrom(rows: seq<AnalyticsRow>, invested: real, current: real, alloc: seq<SectorSlot>): (a: Analytics)
    requires rows != [] && current != 0.0
    ensures a.Report? && a.holdings == rows && a.allocation == alloc
    ensures a.totalPnl == current - invested
    ensures invested <= 0.0 ==> a.totalPnlPercent == 0.0
  {
    var predicted := PredictedTotal(rows);
    Report(invested, current, current - invested, Percent(current - invested, invested), |rows|,
      predicted, predicted - current, Percent(predicted - current, current),
      alloc, InsightsOf(rows), RiskOf(rows, current), rows)
  }

  lemma RowsStep(holdings: seq<HoldingRow>, facts: map<string, StockFacts>, universeSectors: map<string, string>, i: int)
    requires 0 <= i < |holdings|
    ensures AnalyticsRows(holdings[..i + 1], facts, universeSectors)
      == AnalyticsRows(holdings[..i], facts, universeSectors) + [AnalyticsRowOf(holdings[i], facts, universeSectors)]
  {
    assert holdings[..i + 1][..i] == holdings[..i];
  }

  lemma TotalsStep(rows: seq<AnalyticsRow>, row: AnalyticsRow)
    ensures InvestedTotal(rows + [row]) == InvestedTotal(rows) + row.investedValue
    ensures CurrentTotal(rows + [row]) == CurrentTotal(rows) + row.currentValue
    ensures Allocation(rows + [row]) == Allot(Allocation(rows), row.sector, row.symbol, row.currentValue)
  {
    assert (rows + [row])[..|rows|] == rows;
  }

  /** The loop of `get_portfolio_analytics`: rows, totals and the sector entries. */
  method CollectRows(holdings: seq<HoldingRow>, facts: map<string, StockFacts>, universeSectors: map<string, string>)
    returns (rows: seq<AnalyticsRow>, invested: real, current: real, alloc: seq<SectorSlot>)
    ensures rows == AnalyticsRows(holdings, facts, universeSectors)
    ensures invested == InvestedTotal(rows)
    ensures current == CurrentTotal(rows)
    ensures alloc == Allocation(rows)
  {
    rows, invested, current, alloc := [], 0.0, 0.0, [];
    for i := 0 to |holdings|
      invariant rows == AnalyticsRows(holdings[..i], facts, universeSectors)
      invariant invested == InvestedTotal(rows)
      invariant current == CurrentTotal(rows)
      invariant alloc == Allocation(rows)
    {
      var row := AnalyticsRowOf(holdings[i], facts, universeSectors);
      invested := invested + row.investedValue;
      current := current + row.currentValue;
      alloc := Allot(alloc, row.sector, row.symbol, row.currentValue);
      RowsStep(holdings, facts, universeSectors, i);
      TotalsStep(rows, row);
      rows := rows + [row];
    }
    assert holdings[..|holdings|] == holdings;
  }

  /** The percentage loop over `sector_allocation`. */
  method SetPercentages(alloc: seq<SectorSlot>, total: real) returns (r: seq<SectorSlot>)
    ensures r == WithPercentages(alloc, total)
  {
    r := alloc;
    for k := 0 to |alloc|
      invariant |r| == |alloc|
      invariant forall m :: 0 <= m < k ==> r[m] == alloc[m].(percentage := Percent(alloc[m].value, total))
      invariant forall m :: k <= m < |alloc| ==> r[m] == alloc[m]
    {
      r := r[k := r[k].(percentage := Percent(r[k].value, total))];
    }
  }

  /** `get_portfolio_analytics` over the rows `get_holdings` returned. */
  method PortfolioAnalytics(holdings: seq<HoldingRow>, facts: map<string, StockFacts>, universeSectors: map<string, string>)
    returns (a: Analytics)
    ensures a == AnalyticsOf(holdings, facts, universeSectors)
  {
    if holdings == [] {
      return NoHoldings;
    }
    var rows, invested, current, alloc := CollectRows(holdings, facts, universeSectors);
    alloc := SetPercentages(alloc, current);
    if current == 0.0 {
      return ZeroDivision;
    }
    a := ReportFrom(rows, invested, current, alloc);
  }

  /**
   * The analytics report: an error without holdings, one row per holding,
   * sector counts adding up to the holdings and (for a positive total)
   * sector percentages adding up to 100.
   */
  lemma AnalyticsProperties(holdings: seq<HoldingRow>, facts: map<string, StockFacts>, universeSectors: map<string, string>)
    ensures holdings == [] <==> AnalyticsOf(holdings, facts, universeSectors) == NoHoldings
    ensures AnalyticsOf(holdings, facts, universeSectors).Report? ==>
      var a := AnalyticsOf(holdings, facts, universeSectors);
      a.holdingsCount == |holdings| && |a.holdings| == |holdings| &&
      CountSum(a.allocation) == |holdings| &&
      a.totalPnl == a.totalCurrent - a.totalInvested &&
      (a.totalCurrent > 0.0 ==> PercentSum(a.allocation) == 100.0)
  {
    if holdings != [] {
      var rows := AnalyticsRows(holdings, facts, universeSectors);
      AllocationTotals(rows);
      CountSumPercentages(Allocation(rows), CurrentTotal(rows));
      if CurrentTotal(rows) > 0.0 {
        SectorPercentagesTotal(rows);
      }
    }
  }

  lemma {:induction false} CountSumPercentages(alloc: seq<SectorSlot>, total: real)
    ensures CountSum(WithPercentages(alloc, total)) == CountSum(alloc)
    decreases |alloc|
  {
    if alloc != [] {
      CountSumPercentages(alloc[1..], total);
      assert WithPercentages(alloc, total)[1..] == WithPercentages(alloc[1..], total);
    }
  }
}
