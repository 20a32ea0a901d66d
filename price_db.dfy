/**
 * The historical price store: `price_history` with `UNIQUE(symbol, date)`
 * and `sync_status` keyed by symbol, both written by `INSERT OR REPLACE`;
 * the date-range query, the sync-age test and the table statistics. Dates
 * are `YYYY-MM-DD` strings, which SQLite and pandas order as strings; the
 * clock is the parameter `now` in seconds.
 */
module PriceDb {
  import opened Base
  import opened Text
  import opened Sorting
  import Table

  /**
   * The Volume cell of a row: the column is missing (`row.get` gives 0), a
   * whole count, or NaN, on which `int()` raises.
   */
  datatype Volume = NoVolumeColumn | Count(n: int) | NaNVolume

  /** One row of the incoming frame; a `None` price is a column the frame lacks (`row.get(..., 0)`). */
  datatype Bar = Bar(date: string, open: Option<real>, high: Option<real>, low: Option<real>, close: Option<real>, volume: Volume)

  /** The conversions of the INSERT succeed on this bar. */
  predicate Storable(b: Bar) {
    !b.volume.NaNVolume?
  }

  /** `int(row.get('Volume', 0))` of a storable bar. */
  function VolumeOf(v: Volume): int {
    if v.Count? then v.n else 0
  }

  datatype PriceRow = PriceRow(symbol: string, date: string, open: real, high: real, low: real, close: real, volume: int)

  /** `last_sync` keeps whole seconds (`strftime('%Y-%m-%d %H:%M:%S')`). */
  datatype SyncRow = SyncRow(symbol: string, lastSync: int, earliestDate: string, latestDate: string)

  datatype Stats = Stats(symbolsStored: nat, totalRecords: nat, earliestDate: Option<string>, latestDate: Option<string>)

  /** The key of `UNIQUE(symbol, date)`. */
  function DayOf(r: PriceRow): (string, string) { (r.symbol, r.date) }

  /** The key of `symbol TEXT PRIMARY KEY`. */
  function SyncSymbolOf(s: SyncRow): string { s.symbol }

  function RowOf(symbol: string, b: Bar): PriceRow {
    PriceRow(symbol, b.date, b.open.GetOr(0.0), b.high.GetOr(0.0), b.low.GetOr(0.0), b.close.GetOr(0.0), VolumeOf(b.volume))
  }

  function RowsOf(symbol: string, frame: seq<Bar>): (r: seq<PriceRow>)
    ensures |r| == |frame| && forall i :: 0 <= i < |frame| ==> r[i] == RowOf(symbol, frame[i])
  {
    seq(|frame|, i requires 0 <= i < |frame| => RowOf(symbol, frame[i]))
  }

  function Dates(frame: seq<Bar>): (r: seq<string>)
    ensures |r| == |frame| && forall i :: 0 <= i < |frame| ==> r[i] == frame[i].date
  {
    seq(|frame|, i requires 0 <= i < |frame| => frame[i].date)
  }

  /** `min()` of a non-empty column of date strings. */
  function MinDate(ds: seq<string>): (m: string)
    requires ds != []
    ensures m in ds && forall d :: d in ds ==> StrLe(m, d)
  {
    if |ds| == 1 then ds[0]
    else
      var rest := MinDate(ds[1..]);
      StrLeTotalOrder();
      assert forall d :: d in ds ==> d == ds[0] || d in ds[1..];
      if StrLe(ds[0], rest) then ds[0] else rest
  }

  /** `max()` of a non-empty column of date strings. */
  function MaxDate(ds: seq<string>): (m: string)
    requires ds != []
    ensures m in ds && forall d :: d in ds ==> StrLe(d, m)
  {
    if |ds| == 1 then ds[0]
    else
      var rest := MaxDate(ds[1..]);
      StrLeTotalOrder();
      assert forall d :: d in ds ==> d == ds[0] || d in ds[1..];
      if StrLe(rest, ds[0]) then ds[0] else rest
  }

  // ---------------------------------------------------------------------------
  // Queries
  // ---------------------------------------------------------------------------

  /** `if start_date:` and `if end_date:` drop a missing or empty bound. */
  predicate InRange(d: string, start: Option<string>, end: Option<string>) {
    (start.None? || start.value == [] || StrLe(start.value, d)) &&
    (end.None? || end.value == [] || StrLe(d, end.value))
  }

  /** `WHERE symbol = ? [AND date >= ?] [AND date <= ?]`, in table order. */
  function Selected(rows: seq<PriceRow>, symbol: string, start: Option<string>, end: Option<string>): (r: seq<PriceRow>)
    ensures forall x :: x in r <==> x in rows && x.symbol == symbol && InRange(x.date, start, end)
    decreases |rows|
  {
    if rows == [] then []
    else
      var rest, x := Selected(rows[..|rows| - 1], symbol, start, end), rows[|rows| - 1];
      assert forall y :: y in rows <==> y in rows[..|rows| - 1] || y == x;
      if x.symbol == symbol && InRange(x.date, start, end) then rest + [x] else rest
  }

  predicate ByDate(a: PriceRow, b: PriceRow) { StrLe(a.date, b.date) }

  /** `get_stored_prices`: the selected rows in ascending date order, or `None` when there are none. */
  function StoredPrices(rows: seq<PriceRow>, symbol: string, start: Option<string>, end: Option<string>): Option<seq<PriceRow>> {
    var sel := Selected(rows, symbol, start, end);
    if sel == [] then None else Some(SortBy(sel, ByDate))
  }

  /**
   * The result holds exactly that symbol's rows within the bounds, each
   * once, in ascending date order; `None` means no row qualifies.
   */
  lemma StoredPricesMeaning(rows: seq<PriceRow>, symbol: string, start: Option<string>, end: Option<string>)
    ensures StoredPrices(rows, symbol, start, end).None? <==>
      forall x :: x in rows ==> !(x.symbol == symbol && InRange(x.date, start, end))
    ensures StoredPrices(rows, symbol, start, end).Some? ==>
      var r := StoredPrices(rows, symbol, start, end).value;
      multiset(r) == multiset(Selected(rows, symbol, start, end)) &&
      (forall x :: x in r <==> x in rows && x.symbol == symbol && InRange(x.date, start, end)) &&
      SortedBy(r, ByDate)
  {
    var sel := Selected(rows, symbol, start, end);
    if sel != [] {
      assert sel[0] in sel;
      var r := SortBy(sel, ByDate);
      forall x ensures x in r <==> x in sel {
        assert x in r <==> x in multiset(r);
        assert x in sel <==> x in multiset(sel);
      }
      StrLeTotalOrder();
      assert TotalPreorder(ByDate);
      SortBySorted(sel, ByDate);
    }
  }

  /**
   * `needs_sync(symbol, max_age_hours)`: `None` where the code raises. An
   * empty symbol fetches the dictionary of all statuses, which is falsy
   * only when there are none and otherwise has no `last_sync` key.
   */
  function NeedsSync(sync: seq<SyncRow>, symbol: string, maxAgeHours: int, now: real): Option<bool> {
    if symbol == [] then
      if sync == [] then Some(true) else None
    else
      var status := Table.Find(sync, SyncSymbolOf, symbol);
      if status.None? then Some(true)
      else Some((now - status.value.lastSync as real) / 3600.0 > maxAgeHours as real)
  }

  /** No status means a sync is due; otherwise it is due iff more than max_age_hours have passed. */
  lemma NeedsSyncMeaning(sync: seq<SyncRow>, symbol: string, maxAgeHours: int, now: real)
    requires symbol != []
    requires Table.UniqueKeys(sync, SyncSymbolOf)
    ensures (forall s :: s in sync ==> s.symbol != symbol) ==> NeedsSync(sync, symbol, maxAgeHours, now) == Some(true)
    ensures forall s :: s in sync && s.symbol == symbol ==>
      NeedsSync(sync, symbol, maxAgeHours, now) == Some(now - s.lastSync as real > 3600.0 * maxAgeHours as real)
  {
    forall s | s in sync && s.symbol == symbol
      ensures NeedsSync(sync, symbol, maxAgeHours, now) == Some(now - s.lastSync as real > 3600.0 * maxAgeHours as real)
    {
      Table.FindUnique(sync, SyncSymbolOf, s);
      HoursExceed(now - s.lastSync as real, maxAgeHours as real);
    }
  }

  lemma HoursExceed(seconds: real, hours: real)
    ensures seconds / 3600.0 > hours <==> seconds > 3600.0 * hours
  {
    assert seconds == (seconds / 3600.0) * 3600.0;
  }

  function SymbolSet(rows: seq<PriceRow>): set<string> {
    set x | x in rows :: x.symbol
  }

  /** `get_database_stats` */
  function StatsOf(rows: seq<PriceRow>): Stats {
    var ds := seq(|rows|, i requires 0 <= i < |rows| => rows[i].date);
    Stats(|SymbolSet(rows)|, |rows|,
      if rows == [] then None else Some(MinDate(ds)),
      if rows == [] then None else Some(MaxDate(ds)))
  }

  /**
   * The distinct symbol count never exceeds the row count, and both, like
   * the date range, are empty together.
   */
  lemma {:induction false} StatsBounds(rows: seq<PriceRow>)
    ensures StatsOf(rows).symbolsStored <= StatsOf(rows).totalRecords
    ensures StatsOf(rows).symbolsStored == 0 <==> rows == []
    ensures StatsOf(rows).earliestDate.None? <==> rows == []
    decreases |rows|
  {
    if rows != [] {
      var init, x := rows[..|rows| - 1], rows[|rows| - 1];
      StatsBounds(init);
      assert SymbolSet(rows) == SymbolSet(init) + {x.symbol} by {
        assert forall y :: y in rows <==> y in init || y == x;
      }
      assert x.symbol in SymbolSet(rows);
    }
  }

  // ---------------------------------------------------------------------------
  // The store
  // ---------------------------------------------------------------------------

  class Store {
    var prices: seq<PriceRow>
    var sync: seq<SyncRow>

    predicate Valid()
      reads this
    {
      Table.UniqueKeys(prices, DayOf) && Table.UniqueKeys(sync, SyncSymbolOf)
    }

    constructor()
      ensures Valid() && prices == [] && sync == []
    {
      prices, sync := [], [];
    }

    /**
     * `store_price_data`: an empty frame stores nothing; otherwise each bar
     * is upserted on (symbol, date) in frame order and the symbol's sync
     * status is replaced with this batch's earliest and latest dates. A bar
     * whose conversion raises ends the call with `False` before the commit,
     * so nothing of the batch is kept.
     */
    method StorePriceData(symbol: string, frame: seq<Bar>, now: real) returns (ok: bool)
      requires Valid()
      modifies this
      ensures Valid()
      ensures ok <==> frame != [] && forall i :: 0 <= i < |frame| ==> Storable(frame[i])
      ensures !ok ==> prices == old(prices) && sync == old(sync)
      ensures ok ==> prices == Table.UpsertAll(old(prices), DayOf, RowsOf(symbol, frame))
      ensures ok ==> sync == Table.Upsert(old(sync), SyncSymbolOf,
        SyncRow(symbol, now.Floor, MinDate(Dates(frame)), MaxDate(Dates(frame))))
    {
      if frame == [] {
        return false;
      }
      ghost var rows0, sync0 := prices, sync;
      var pending := prices;
      var i := 0;
      while i < |frame|
        invariant 0 <= i <= |frame|
        invariant pending == Table.UpsertAll(rows0, DayOf, RowsOf(symbol, frame[..i]))
        invariant Table.UniqueKeys(pending, DayOf)
        invariant forall k :: 0 <= k < i ==> Storable(frame[k])
        invariant prices == rows0 && sync == sync0
      {
        if !Storable(frame[i]) {
          return false;
        }
        assert forall k :: 0 <= k < i + 1 ==> Storable(frame[k]);
        var row := RowOf(symbol, frame[i]);
        StoreStep(rows0, symbol, frame, i);
        assert Table.UniqueKeys(Table.Upsert(pending, DayOf, row), DayOf) by {
          Table.UpsertReplaces(pending, DayOf, row);
        }
        pending := Table.Upsert(pending, DayOf, row);
        i := i + 1;
      }
      assert frame[..i] == frame;
      var status := SyncRow(symbol, now.Floor, MinDate(Dates(frame)), MaxDate(Dates(frame)));
      assert Table.UniqueKeys(Table.Upsert(sync, SyncSymbolOf, status), SyncSymbolOf) by {
        Table.UpsertReplaces(sync, SyncSymbolOf, status);
      }
      prices, sync := pending, Table.Upsert(sync, SyncSymbolOf, status);
      ok := true;
    }

    /** `get_stored_prices` */
    function GetStoredPrices(symbol: string, start: Option<string>, end: Option<string>): Option<seq<PriceRow>>
      reads this
    {
      StoredPrices(prices, symbol, start, end)
    }

    /** `get_database_stats` */
    function DatabaseStats(): Stats
      reads this
    {
      StatsOf(prices)
    }
  }

  lemma StoreStep(rows: seq<PriceRow>, symbol: string, frame: seq<Bar>, i: nat)
    requires i < |frame|
    ensures Table.UpsertAll(rows, DayOf, RowsOf(symbol, frame[..i + 1])) ==
      Table.Upsert(Table.UpsertAll(rows, DayOf, RowsOf(symbol, frame[..i])), DayOf, RowOf(symbol, frame[i]))
  {
    assert RowsOf(symbol, frame[..i + 1]) == RowsOf(symbol, frame[..i]) + [RowOf(symbol, frame[i])];
    Table.UpsertAllSnoc(rows, DayOf, RowsOf(symbol, frame[..i]), RowOf(symbol, frame[i]));
  }

  /**
   * Storing a frame twice over the same dates leaves one row per
   * (symbol, date), holding the frame's last bar for that date; dates the
   * frame does not mention keep their rows.
   */
  lemma StoreKeepsLatest(rows: seq<PriceRow>, symbol: string, frame: seq<Bar>, date: string)
    requires Table.UniqueKeys(rows, DayOf)
    ensures var after := Table.UpsertAll(rows, DayOf, RowsOf(symbol, frame));
      Table.UniqueKeys(after, DayOf) &&
      (Table.Find(RowsOf(symbol, frame), DayOf, (symbol, date)).Some? ==>
        Table.Find(after, DayOf, (symbol, date)) == Table.Find(RowsOf(symbol, frame), DayOf, (symbol, date))) &&
      (Table.Find(RowsOf(symbol, frame), DayOf, (symbol, date)).None? ==>
        Table.Find(after, DayOf, (symbol, date)) == Table.Find(rows, DayOf, (symbol, date)))
  {
    Table.UpsertAllFind(rows, DayOf, RowsOf(symbol, frame));
  }
}
