/**
 * Recommendation tracking: the `recommendations` table (UNIQUE(timestamp,
 * symbol, timeframe)) and the `price_history` table (UNIQUE(timestamp,
 * symbol)), both written with `INSERT OR REPLACE`, and the return statistics
 * over the recommendations of one start date joined with the prices of the
 * start and the end date. Dates are parameters.
 */
module Backtest {
  import opened Base
  import opened Sorting
  import Table

  // ---- the stock dictionaries handed to the save functions ----

  /** One key of a stock dictionary: absent, present and `None`, or present with a value. */
  datatype Field<T> = Missing | Null | Has(value: T)

  /** `d.get(key, default)`: `None` only when the key holds `None`. */
  function GetOr<T>(f: Field<T>, default: T): (r: Option<T>)
    ensures f.Missing? ==> r == Some(default)
    ensures f.Null? ==> r == None
    ensures f.Has? ==> r == Some(f.value)
  {
    match f
    case Missing => Some(default)
    case Null => None
    case Has(v) => Some(v)
  }

  /**
   * The entries of a scored stock that the save functions read, with the
   * nested `recommendation`, `dcf` and `scores` dictionaries flattened.
   */
  datatype StockEntry = StockEntry(
    symbol: Field<string>, price: Field<real>, sector: Field<string>,
    action: Field<string>, confidence: Field<real>, upside: Field<real>,
    intrinsicValue: Field<real>, composite: Field<real>)

  // ---- the two tables ----

  datatype RecRow = RecRow(
    timestamp: string, timeframe: string, symbol: string, action: string,
    confidence: Option<real>, priceAtRec: Option<real>, dcfValue: Option<real>,
    upsideTarget: Option<real>, compositeScore: Option<real>, sector: Option<string>)

  datatype PriceRow = PriceRow(timestamp: string, symbol: string, price: real)

  /** The key of `UNIQUE(timestamp, symbol, timeframe)`. */
  function RecKey(r: RecRow): (string, string, string) { (r.timestamp, r.symbol, r.timeframe) }

  /** The key of `UNIQUE(timestamp, symbol)`. */
  function PriceKey(p: PriceRow): (string, string) { (p.timestamp, p.symbol) }

  /**
   * The row `save_recommendations` inserts for one stock. A symbol or action
   * that is `None` violates `NOT NULL`; the insert raises, the exception is
   * caught and the stock is skipped: `None`.
   */
  function RecRowOf(s: StockEntry, timestamp: string, timeframe: string): (r: Option<RecRow>)
    ensures r.Some? <==> !s.symbol.Null? && !s.action.Null?
    ensures r.Some? ==> r.value.timestamp == timestamp && r.value.timeframe == timeframe
    ensures r.Some? && s.action.Missing? ==> r.value.action == "HOLD"
    ensures r.Some? && s.symbol.Missing? ==> r.value.symbol == ""
    ensures r.Some? && s.symbol.Has? ==> r.value.symbol == s.symbol.value
  {
    var symbol := GetOr(s.symbol, "");
    var action := GetOr(s.action, "HOLD");
    if symbol.None? || action.None? then None
    else
      Some(RecRow(timestamp, timeframe, symbol.value, action.value,
        GetOr(s.confidence, 0.0), GetOr(s.price, 0.0), GetOr(s.intrinsicValue, 0.0),
        GetOr(s.upside, 0.0), GetOr(s.composite, 0.0), GetOr(s.sector, "")))
  }

  /** The row `save_current_prices` inserts; `NOT NULL` on symbol and price as above. */
  function PriceRowOf(s: StockEntry, timestamp: string): (r: Option<PriceRow>)
    ensures r.Some? <==> !s.symbol.Null? && !s.price.Null?
    ensures r.Some? && s.price.Missing? ==> r.value.price == 0.0
    ensures r.Some? ==> r.value.timestamp == timestamp
  {
    var symbol := GetOr(s.symbol, "");
    var price := GetOr(s.price, 0.0);
    if symbol.None? || price.None? then None
    else Some(PriceRow(timestamp, symbol.value, price.value))
  }

  /** The rows a batch inserts, in order, the skipped stocks left out. */
  function RecRows(stocks: seq<StockEntry>, timestamp: string, timeframe: string): (r: seq<RecRow>)
    ensures |r| <= |stocks|
  {
    if stocks == [] then []
    else
      var rest := RecRows(stocks[..|stocks| - 1], timestamp, timeframe);
      match RecRowOf(stocks[|stocks| - 1], timestamp, timeframe)
      case None => rest
      case Some(row) => rest + [row]
  }

  function PriceRows(stocks: seq<StockEntry>, timestamp: string): (r: seq<PriceRow>)
    ensures |r| <= |stocks|
  {
    if stocks == [] then []
    else
      var rest := PriceRows(stocks[..|stocks| - 1], timestamp);
      match PriceRowOf(stocks[|stocks| - 1], timestamp)
      case None => rest
      case Some(row) => rest + [row]
  }

  lemma RecRowsStep(stocks: seq<StockEntry>, timestamp: string, timeframe: string, i: int)
    requires 0 <= i < |stocks|
    ensures RecRows(stocks[..i + 1], timestamp, timeframe) ==
      match RecRowOf(stocks[i], timestamp, timeframe)
      case None => RecRows(stocks[..i], timestamp, timeframe)
      case Some(row) => RecRows(stocks[..i], timestamp, timeframe) + [row]
  {
    assert stocks[..i + 1][..i] == stocks[..i];
  }

  lemma PriceRowsStep(stocks: seq<StockEntry>, timestamp: string, i: int)
    requires 0 <= i < |stocks|
    ensures PriceRows(stocks[..i + 1], timestamp) ==
      match PriceRowOf(stocks[i], timestamp)
      case None => PriceRows(stocks[..i], timestamp)
      case Some(row) => PriceRows(stocks[..i], timestamp) + [row]
  {
    assert stocks[..i + 1][..i] == stocks[..i];
  }

  /** Every inserted recommendation row carries the batch's date and timeframe. */
  lemma {:induction false} RecRowsStamped(stocks: seq<StockEntry>, timestamp: string, timeframe: string)
    ensures forall r :: r in RecRows(stocks, timestamp, timeframe) ==> r.timestamp == timestamp && r.timeframe == timeframe
    decreases |stocks|
  {
    if stocks != [] {
      RecRowsStamped(stocks[..|stocks| - 1], timestamp, timeframe);
    }
  }

  class Tracker {
    var recommendations: seq<RecRow>
    var prices: seq<PriceRow>

    predicate Valid()
      reads this
    {
      Table.UniqueKeys(recommendations, RecKey) && Table.UniqueKeys(prices, PriceKey)
    }

    constructor()
      ensures Valid() && recommendations == [] && prices == []
    {
      recommendations, prices := [], [];
    }

    /**
     * `save_recommendations`: one `INSERT OR REPLACE` per stock, dated
     * `today`; a stock whose insert fails is skipped.
     */
    method SaveRecommendations(stocks: seq<StockEntry>, timeframe: string, today: string)
      requires Valid()
      modifies this
      ensures Valid()
      ensures recommendations == Table.UpsertAll(old(recommendations), RecKey, RecRows(stocks, today, timeframe))
      ensures prices == old(prices)
    {
      for i := 0 to |stocks|
        invariant Valid() && prices == old(prices)
        invariant recommendations == Table.UpsertAll(old(recommendations), RecKey, RecRows(stocks[..i], today, timeframe))
      {
        RecRowsStep(stocks, today, timeframe, i);
        match RecRowOf(stocks[i], today, timeframe)
        case None =>
        case Some(row) =>
          Table.UpsertReplaces(recommendations, RecKey, row);
          Table.UpsertAllSnoc(old(recommendations), RecKey, RecRows(stocks[..i], today, timeframe), row);
          recommendations := Table.Upsert(recommendations, RecKey, row);
      }
      assert stocks[..|stocks|] == stocks;
    }

    /** `save_current_prices`: one `INSERT OR REPLACE` per stock, dated `today`. */
    method SaveCurrentPrices(stocks: seq<StockEntry>, today: string)
      requires Valid()
      modifies this
      ensures Valid()
      ensures prices == Table.UpsertAll(old(prices), PriceKey, PriceRows(stocks, today))
      ensures recommendations == old(recommendations)
    {
      for i := 0 to |stocks|
        invariant Valid() && recommendations == old(recommendations)
        invariant prices == Table.UpsertAll(old(prices), PriceKey, PriceRows(stocks[..i], today))
      {
        PriceRowsStep(stocks, today, i);
        match PriceRowOf(stocks[i], today)
        case None =>
        case Some(row) =>
          Table.UpsertReplaces(prices, PriceKey, row);
          Table.UpsertAllSnoc(old(prices), PriceKey, PriceRows(stocks[..i], today), row);
          prices := Table.Upsert(prices, PriceKey, row);
      }
      assert stocks[..|stocks|] == stocks;
    }
  }

  // ---- the joined rows of calculate_backtest_returns ----

  /** A recommendation with the prices the two LEFT JOINs found (`None` for no match). */
  datatype JoinedRow = JoinedRow(rec: RecRow, startPrice: Option<real>, endPrice: Option<real>)

  /** `p.price` of the price row for (date, symbol), if there is one. */
  function PriceOn(prices: seq<PriceRow>, date: string, symbol: string): (p: Option<real>)
    ensures p.Some? <==> exists h :: h in prices && PriceKey(h) == (date, symbol)
  {
    match Table.Find(prices, PriceKey, (date, symbol))
    case None => None
    case Some(h) => Some(h.price)
  }

  /** `WHERE r.timestamp = ?` */
  function DatedOn(date: string): RecRow -> bool {
    (x: RecRow) => x.timestamp == date
  }

  /**
   * The query: the recommendations dated `startDate`, in table order, each
   * with the price of its symbol on its own date and on `endDate`.
   */
  function Joined(recs: seq<RecRow>, prices: seq<PriceRow>, startDate: string, endDate: string): (r: seq<JoinedRow>)
    ensures var d := Filter(recs, DatedOn(startDate));
      |r| == |d| &&
      forall k :: 0 <= k < |r| ==>
        r[k] == JoinedRow(d[k], PriceOn(prices, startDate, d[k].symbol), PriceOn(prices, endDate, d[k].symbol))
    ensures |r| <= |recs|
    ensures forall j :: j in r ==> j.rec in recs && j.rec.timestamp == startDate
    ensures forall x :: x in recs && x.timestamp == startDate ==> exists j :: j in r && j.rec == x
    ensures forall j :: j in r ==> j.startPrice == PriceOn(prices, startDate, j.rec.symbol)
    ensures forall j :: j in r ==> j.endPrice == PriceOn(prices, endDate, j.rec.symbol)
  {
    if recs == [] then []
    else
      var rest := Joined(recs[..|recs| - 1], prices, startDate, endDate);
      var rec := recs[|recs| - 1];
      if rec.timestamp == startDate then
        rest + [JoinedRow(rec, PriceOn(prices, rec.timestamp, rec.symbol), PriceOn(prices, endDate, rec.symbol))]
      else rest
  }

  /** With the UNIQUE constraint the join finds the stored price of the key. */
  lemma PriceOnStored(prices: seq<PriceRow>, p: PriceRow)
    requires Table.UniqueKeys(prices, PriceKey) && p in prices
    ensures PriceOn(prices, p.timestamp, p.symbol) == Some(p.price)
  {
    Table.FindUnique(prices, PriceKey, p);
  }

  // ---- the statistics loop ----

  /** `start_price or price_at_rec`: a missing or zero joined price falls back to the recommendation's price. */
  function StartPrice(j: JoinedRow): Option<real> {
    if j.startPrice.Some? && j.startPrice.value != 0.0 then j.startPrice else j.rec.priceAtRec
  }

  /** `not start_price or not end_price` is false: the row is counted. */
  predicate Counted(j: JoinedRow) {
    var s := StartPrice(j);
    s.Some? && s.value != 0.0 && j.endPrice.Some? && j.endPrice.value != 0.0
  }

  /** `((end_price - start_price) / start_price) * 100` */
  function PctReturn(start: real, end: real): (r: real)
    requires start != 0.0
    ensures start > 0.0 ==> (r > 0.0 <==> end > start)
  {
    var q := (end - start) / start;
    assert q * start == end - start;
    q * 100.0
  }

  /** One entry of `returns_list` (before rounding). */
  datatype Detail = Detail(symbol: string, action: string, ret: real, startPrice: real, endPrice: real)

  function DetailOf(j: JoinedRow): (d: Detail)
    requires Counted(j)
    ensures d.startPrice != 0.0 && d.endPrice != 0.0
    ensures d.ret == PctReturn(d.startPrice, d.endPrice)
  {
    var s := StartPrice(j).value;
    Detail(j.rec.symbol, j.rec.action, PctReturn(s, j.endPrice.value), s, j.endPrice.value)
  }

  /** The counted rows' details in row order: `returns_list` after the loop. */
  function Details(rows: seq<JoinedRow>): (r: seq<Detail>)
    ensures |r| <= |rows|
  {
    if rows == [] then []
    else
      var rest := Details(rows[..|rows| - 1]);
      var j := rows[|rows| - 1];
      if Counted(j) then rest + [DetailOf(j)] else rest
  }

  /** Exactly the rows with a usable start and end price are counted. */
  lemma {:induction false} DetailsCount(rows: seq<JoinedRow>)
    ensures |Details(rows)| == |Filter(rows, Counted)|
    ensures forall d :: d in Details(rows) ==> d.startPrice != 0.0 && d.endPrice != 0.0 && d.ret == PctReturn(d.startPrice, d.endPrice)
    decreases |rows|
  {
    if rows != [] {
      DetailsCount(rows[..|rows| - 1]);
    }
  }

  /** `by_action[action]` */
  datatype ActionStat = ActionStat(action: string, count: nat, totalReturn: real, rets: seq<real>, avgReturn: Option<real>)

  /** Adds one return under its action, creating the entry at the end when the action is new. */
  function AddReturn(stats: seq<ActionStat>, action: string, ret: real): (r: seq<ActionStat>)
    ensures |r| == |stats| || |r| == |stats| + 1
  {
    if stats == [] then [ActionStat(action, 1, ret, [ret], None)]
    else if stats[0].action == action then
      [stats[0].(count := stats[0].count + 1, totalReturn := stats[0].totalReturn + ret, rets := stats[0].rets + [ret])] + stats[1..]
    else [stats[0]] + AddReturn(stats[1..], action, ret)
  }

  function ByAction(ds: seq<Detail>): seq<ActionStat> {
    if ds == [] then [] else AddReturn(ByAction(ds[..|ds| - 1]), ds[|ds| - 1].action, ds[|ds| - 1].ret)
  }

  function ReturnSum(ds: seq<Detail>): real {
    if ds == [] then 0.0 else ReturnSum(ds[..|ds| - 1]) + ds[|ds| - 1].ret
  }

  /** `profitable_count`: strictly positive returns. */
  function Profitable(ds: seq<Detail>): nat {
    if ds == [] then 0 else Profitable(ds[..|ds| - 1]) + (if ds[|ds| - 1].ret > 0.0 then 1 else 0)
  }

  /** `loss_count`: a zero return counts as a loss. */
  function Losses(ds: seq<Detail>): nat {
    if ds == [] then 0 else Losses(ds[..|ds| - 1]) + (if ds[|ds| - 1].ret > 0.0 then 0 else 1)
  }

  datatype Pick = Pick(symbol: string, ret: real)

  /** `best_pick`: replaced only by a strictly larger return, so the first maximum is kept. */
  function Best(ds: seq<Detail>): Option<Pick> {
    if ds == [] then None
    else
      var b := Best(ds[..|ds| - 1]);
      var d := ds[|ds| - 1];
      if b.None? || d.ret > b.value.ret then Some(Pick(d.symbol, d.ret)) else b
  }

  /** `worst_pick`: replaced only by a strictly smaller return. */
  function Worst(ds: seq<Detail>): Option<Pick> {
    if ds == [] then None
    else
      var w := Worst(ds[..|ds| - 1]);
      var d := ds[|ds| - 1];
      if w.None? || d.ret < w.value.ret then Some(Pick(d.symbol, d.ret)) else w
  }

  lemma TallyStep(ds: seq<Detail>, d: Detail)
    ensures ByAction(ds + [d]) == AddReturn(ByAction(ds), d.action, d.ret)
    ensures ReturnSum(ds + [d]) == ReturnSum(ds) + d.ret
    ensures Profitable(ds + [d]) == Profitable(ds) + (if d.ret > 0.0 then 1 else 0)
    ensures Losses(ds + [d]) == Losses(ds) + (if d.ret > 0.0 then 0 else 1)
    ensures Best(ds + [d]) == if Best(ds).None? || d.ret > Best(ds).value.ret then Some(Pick(d.symbol, d.ret)) else Best(ds)
    ensures Worst(ds + [d]) == if Worst(ds).None? || d.ret < Worst(ds).value.ret then Some(Pick(d.symbol, d.ret)) else Worst(ds)
  {
    assert (ds + [d])[..|ds|] == ds;
  }

  lemma DetailsStep(rows: seq<JoinedRow>, i: int)
    requires 0 <= i < |rows|
    ensures Details(rows[..i + 1]) == if Counted(rows[i]) then Details(rows[..i]) + [DetailOf(rows[i])] else Details(rows[..i])
  {
    assert rows[..i + 1][..i] == rows[..i];
  }

  /** `avg_return` of one action entry, set after the loop. */
  function WithAverage(s: ActionStat): ActionStat {
    if s.count > 0 then s.(avgReturn := Some(s.totalReturn / s.count as real)) else s
  }

  function Averaged(stats: seq<ActionStat>): (r: seq<ActionStat>)
    ensures |r| == |stats|
    ensures forall k :: 0 <= k < |stats| ==> r[k] == WithAverage(stats[k])
  {
    seq(|stats|, k requires 0 <= k < |stats| => WithAverage(stats[k]))
  }

  /** `detail` is sorted by return, highest first, keeping the row order among equal returns. */
  predicate ByReturnDesc(a: Detail, b: Detail) { a.ret >= b.ret }

  datatype Backtest =
    | NoData(periodDays: int)
    | Report(
        periodDays: int, startDate: string, endDate: string, byAction: seq<ActionStat>,
        total: nat, profitable: nat, losses: nat, avgReturn: real, winRate: Option<real>,
        best: Option<Pick>, worst: Option<Pick>, detail: seq<Detail>)

  /** What `calculate_backtest_returns` reports for the joined rows. */
  function BacktestOf(rows: seq<JoinedRow>, days: int, startDate: string, endDate: string): Backtest {
    if rows == [] then NoData(days)
    else ReportOf(Details(rows), days, startDate, endDate)
  }

  /** The report once the counted rows' details are known. */
  function ReportOf(ds: seq<Detail>, days: int, startDate: string, endDate: string): (b: Backtest)
    ensures b.Report? && b.total == |ds| && b.byAction == Averaged(ByAction(ds))
    ensures b.best == Best(ds) && b.worst == Worst(ds)
    ensures b.profitable == Profitable(ds) && b.losses == Losses(ds)
    ensures b.detail == SortBy(ds, ByReturnDesc)
    ensures |ds| == 0 ==> b.avgReturn == 0.0 && b.winRate == None
    ensures |ds| > 0 ==> b.avgReturn == ReturnSum(ds) / |ds| as real && b.winRate.Some?
  {
    var n := |ds|;
    Report(days, startDate, endDate, Averaged(ByAction(ds)), n, Profitable(ds), Losses(ds),
      if n > 0 then ReturnSum(ds) / n as real else 0.0,
      if n > 0 then Some(Profitable(ds) as real / n as real * 100.0) else None,
      Best(ds), Worst(ds), SortBy(ds, ByReturnDesc))
  }

  /** The averaging loop over `by_action`. */
  method SetAverages(stats: seq<ActionStat>) returns (r: seq<ActionStat>)
    ensures r == Averaged(stats)
  {
    r := stats;
    for k := 0 to |r|
      invariant |r| == |stats|
      invariant forall m :: 0 <= m < k ==> r[m] == WithAverage(stats[m])
      invariant forall m :: k <= m < |r| ==> r[m] == stats[m]
    {
      if r[k].count > 0 {
        r := r[k := r[k].(avgReturn := Some(r[k].totalReturn / r[k].count as real))];
      }
    }
  }

  /** The counters of the `results` dictionary that the loop updates. */
  datatype Tally = Tally(byAction: seq<ActionStat>, total: nat, profitable: nat, losses: nat, best: Option<Pick>, worst: Option<Pick>)

  function TallyOf(ds: seq<Detail>): Tally {
    Tally(ByAction(ds), |ds|, Profitable(ds), Losses(ds), Best(ds), Worst(ds))
  }

  /** The loop body for one counted row: the updates of `results`. */
  method Record(results: Tally, ghost ds: seq<Detail>, d: Detail) returns (r: Tally)
    requires results == TallyOf(ds)
    ensures r == TallyOf(ds + [d])
  {
    TallyStep(ds, d);
    r := results.(byAction := AddReturn(results.byAction, d.action, d.ret), total := results.total + 1);
    if d.ret > 0.0 {
      r := r.(profitable := r.profitable + 1);
    } else {
      r := r.(losses := r.losses + 1);
    }
    if r.best.None? || d.ret > r.best.value.ret {
      r := r.(best := Some(Pick(d.symbol, d.ret)));
    }
    if r.worst.None? || d.ret < r.worst.value.ret {
      r := r.(worst := Some(Pick(d.symbol, d.ret)));
    }
  }

  /** `calculate_backtest_returns` over the rows the query returned. */
  method BacktestReturns(rows: seq<JoinedRow>, days: int, startDate: string, endDate: string) returns (b: Backtest)
    ensures b == BacktestOf(rows, days, startDate, endDate)
  {
    if rows == [] {
      return NoData(days);
    }
    var results := Tally([], 0, 0, 0, None, None);
    var totalReturn := 0.0;
    var returnsList: seq<Detail> := [];
    for i := 0 to |rows|
      invariant returnsList == Details(rows[..i])
      invariant results == TallyOf(returnsList)
      invariant totalReturn == ReturnSum(returnsList)
    {
      DetailsStep(rows, i);
      var row := rows[i];
      var start := StartPrice(row);
      if start.None? || start.value == 0.0 || row.endPrice.None? || row.endPrice.value == 0.0 {
        continue;
      }
      var pct := PctReturn(start.value, row.endPrice.value);
      var d := Detail(row.rec.symbol, row.rec.action, pct, start.value, row.endPrice.value);
      results := Record(results, returnsList, d);
      TallyStep(returnsList, d);
      totalReturn := totalReturn + pct;
      returnsList := returnsList + [d];
    }
    assert rows[..|rows|] == rows;
    var avgReturn := 0.0;
    var winRate: Option<real> := None;
    if results.total > 0 {
      avgReturn := totalReturn / results.total as real;
      winRate := Some(results.profitable as real / results.total as real * 100.0);
    }
    var byAction := SetAverages(results.byAction);
    var detail := SortBy(returnsList, ByReturnDesc);
    b := Report(days, startDate, endDate, byAction, results.total, results.profitable, results.losses,
      avgReturn, winRate, results.best, results.worst, detail);
  }

  // ---- properties of the statistics ----

  /** Every counted row is either profitable or a loss, a zero return being a loss. */
  lemma {:induction false} ProfitLossPartition(ds: seq<Detail>)
    ensures Profitable(ds) + Losses(ds) == |ds|
    ensures Profitable(ds) == |Filter(ds, (d: Detail) => d.ret > 0.0)|
    decreases |ds|
  {
    if ds != [] {
      ProfitLossPartition(ds[..|ds| - 1]);
    }
  }

  /** The best pick is one of the counted rows and no counted return exceeds it. */
  lemma {:induction false} BestIsMaximum(ds: seq<Detail>)
    ensures Best(ds).Some? <==> ds != []
    ensures Best(ds).Some? ==> exists d :: d in ds && Best(ds) == Some(Pick(d.symbol, d.ret))
    ensures Best(ds).Some? ==> forall d :: d in ds ==> d.ret <= Best(ds).value.ret
    decreases |ds|
  {
    if ds != [] {
      var init, last := ds[..|ds| - 1], ds[|ds| - 1];
      BestIsMaximum(init);
      assert forall d :: d in ds ==> d in init || d == last;
      if Best(init).Some? && last.ret <= Best(init).value.ret {
        var d :| d in init && Best(init) == Some(Pick(d.symbol, d.ret));
        assert d in ds;
      }
    }
  }

  /** The worst pick is one of the counted rows and no counted return is below it. */
  lemma {:induction false} WorstIsMinimum(ds: seq<Detail>)
    ensures Worst(ds).Some? <==> ds != []
    ensures Worst(ds).Some? ==> exists d :: d in ds && Worst(ds) == Some(Pick(d.symbol, d.ret))
    ensures Worst(ds).Some? ==> forall d :: d in ds ==> d.ret >= Worst(ds).value.ret
    decreases |ds|
  {
    if ds != [] {
      var init, last := ds[..|ds| - 1], ds[|ds| - 1];
      WorstIsMinimum(init);
      assert forall d :: d in ds ==> d in init || d == last;
      if Worst(init).Some? && last.ret >= Worst(init).value.ret {
        var d :| d in init && Worst(init) == Some(Pick(d.symbol, d.ret));
        assert d in ds;
      }
    }
  }

  function CountSum(stats: seq<ActionStat>): nat {
    if stats == [] then 0 else CountSum(stats[..|stats| - 1]) + stats[|stats| - 1].count
  }

  /** No action has two entries. */
  predicate UniqueActions(stats: seq<ActionStat>) {
    stats == [] || (stats[0].action !in ActionsOf(stats[1..]) && UniqueActions(stats[1..]))
  }

  lemma {:induction false} CountSumFront(stats: seq<ActionStat>)
    requires stats != []
    ensures CountSum(stats) == stats[0].count + CountSum(stats[1..])
    decreases |stats|
  {
    if |stats| > 1 {
      var init := stats[..|stats| - 1];
      CountSumFront(init);
      assert init[1..] == stats[1..][..|stats| - 2];
    }
  }

  /** Adding a return adds one to the counts and keeps one entry per action. */
  lemma {:induction false} AddReturnCount(stats: seq<ActionStat>, action: string, ret: real)
    ensures CountSum(AddReturn(stats, action, ret)) == CountSum(stats) + 1
    decreases |stats|
  {
    var r := AddReturn(stats, action, ret);
    if stats != [] {
      CountSumFront(stats);
      CountSumFront(r);
      if stats[0].action != action {
        AddReturnCount(stats[1..], action, ret);
        assert r[1..] == AddReturn(stats[1..], action, ret);
      } else {
        assert r[1..] == stats[1..];
      }
    }
  }

  /** Adding a return keeps one entry per action. */
  lemma {:induction false} AddReturnUnique(stats: seq<ActionStat>, action: string, ret: real)
    requires UniqueActions(stats)
    ensures UniqueActions(AddReturn(stats, action, ret))
    decreases |stats|
  {
    var r := AddReturn(stats, action, ret);
    if stats != [] {
      if stats[0].action != action {
        var tail := stats[1..];
        AddReturnUnique(tail, action, ret);
        AddReturnActions(tail, action, ret);
        assert r[1..] == AddReturn(tail, action, ret);
      } else {
        assert r[1..] == stats[1..];
      }
    }
  }

  /** The actions of the entries, in order. */
  function ActionsOf(stats: seq<ActionStat>): set<string> {
    set k | 0 <= k < |stats| :: stats[k].action
  }

  /** The actions of the counted rows. */
  function ActionSet(ds: seq<Detail>): set<string> {
    if ds == [] then {} else ActionSet(ds[..|ds| - 1]) + {ds[|ds| - 1].action}
  }

  lemma ActionsOfCons(x: ActionStat, t: seq<ActionStat>)
    ensures ActionsOf([x] + t) == {x.action} + ActionsOf(t)
  {
    var s := [x] + t;
    assert forall k :: 0 <= k < |t| ==> s[k + 1] == t[k];
    forall a | a in ActionsOf(s) ensures a in {x.action} + ActionsOf(t) {
      var k :| 0 <= k < |s| && s[k].action == a;
      if k > 0 {
        assert t[k - 1].action == a;
      }
    }
    forall a | a in ActionsOf(t) ensures a in ActionsOf(s) {
      var k :| 0 <= k < |t| && t[k].action == a;
      assert s[k + 1].action == a;
    }
    assert s[0].action == x.action;
  }

  /** Adding a return adds its action to the entries' actions. */
  lemma {:induction false} AddReturnActions(stats: seq<ActionStat>, action: string, ret: real)
    ensures ActionsOf(AddReturn(stats, action, ret)) == ActionsOf(stats) + {action}
    decreases |stats|
  {
    var r := AddReturn(stats, action, ret);
    if stats == [] {
      assert r[0].action == action;
    } else {
      var tail := stats[1..];
      assert stats == [stats[0]] + tail;
      ActionsOfCons(stats[0], tail);
      if stats[0].action == action {
        ActionsOfCons(r[0], tail);
      } else {
        AddReturnActions(tail, action, ret);
        ActionsOfCons(stats[0], AddReturn(tail, action, ret));
      }
    }
  }

  /** `by_action` has one entry per action and its counts add up to the counted rows. */
  lemma {:induction false} ByActionCounts(ds: seq<Detail>)
    ensures UniqueActions(ByAction(ds))
    ensures CountSum(ByAction(ds)) == |ds|
    ensures ActionsOf(ByAction(ds)) == ActionSet(ds)
    decreases |ds|
  {
    if ds != [] {
      var init, last := ds[..|ds| - 1], ds[|ds| - 1];
      ByActionCounts(init);
      AddReturnCount(ByAction(init), last.action, last.ret);
      AddReturnUnique(ByAction(init), last.action, last.ret);
      AddReturnActions(ByAction(init), last.action, last.ret);
    }
  }

  /** Setting the averages changes no count. */
  lemma {:induction false} AveragedCounts(stats: seq<ActionStat>)
    ensures CountSum(Averaged(stats)) == CountSum(stats)
    decreases |stats|
  {
    if stats != [] {
      var init := stats[..|stats| - 1];
      AveragedCounts(init);
      assert Averaged(stats)[..|stats| - 1] == Averaged(init);
    }
  }

  lemma ByReturnDescPreorder()
    ensures TotalPreorder(ByReturnDesc)
  {
  }

  /**
   * `calculate_backtest_returns`: no rows give `no_data`; otherwise the
   * counted rows are exactly those with a usable start and end price, each is
   * profitable or a loss, the per-action counts add up to the total, the best
   * and worst picks bound every counted return, and the detail is the counted
   * rows sorted by return, highest first.
   */
  lemma BacktestProperties(rows: seq<JoinedRow>, days: int, startDate: string, endDate: string)
    ensures BacktestOf(rows, days, startDate, endDate).NoData? <==> rows == []
    ensures var b := BacktestOf(rows, days, startDate, endDate);
      b.Report? ==>
        b.total == |Filter(rows, Counted)| &&
        b.profitable + b.losses == b.total &&
        CountSum(b.byAction) == b.total &&
        (b.best.Some? <==> b.total > 0) &&
        (b.best.Some? ==> forall d :: d in Details(rows) ==> b.worst.value.ret <= d.ret <= b.best.value.ret) &&
        multiset(b.detail) == multiset(Details(rows)) &&
        SortedBy(b.detail, ByReturnDesc)
  {
    var ds := Details(rows);
    DetailsCount(rows);
    ProfitLossPartition(ds);
    ByActionCounts(ds);
    AveragedCounts(ByAction(ds));
    BestIsMaximum(ds);
    WorstIsMinimum(ds);
    ByReturnDescPreorder();
    SortBySorted(ds, ByReturnDesc);
  }
}
