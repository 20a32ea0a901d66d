/**
 * The stock service's in-memory state: a per-timeframe result cache whose
 * one timestamp covers every slot of the timeframe, and the progress record
 * of a batch load. Clock readings are parameters: `now` in whole seconds and
 * `clock` the formatted `HH:MM:SS` of a log line. Also the return columns
 * computed from a close series and the lookback chosen for a period.
 */
module StockService {
  import opened Base

  /** `CACHE_VALIDITY_SECONDS` */
  const CacheValiditySeconds: int := 600

  const SecondsPerDay: int := 86400

  /**
   * `(now - stamp).seconds`: the seconds field of a `timedelta`, which
   * normalises whole days away, so it lies in [0, 86400) whatever the gap.
   */
  function AgeSeconds(now: int, stamp: int): (age: int)
    ensures 0 <= age < SecondsPerDay
    ensures 0 <= now - stamp < SecondsPerDay ==> age == now - stamp
  {
    (now - stamp) % SecondsPerDay
  }

  /** A slot of a timeframe's dictionary: `None`, a stored value, or the timestamp. */
  datatype Cell<V> = Null | Val(v: V) | Time(t: int)

  type Store<V> = map<string, map<string, Cell<V>>>

  /** The timeframe holds a timestamp whose `.seconds` age is under 600. */
  predicate Live<V>(store: Store<V>, timeframe: string, now: int) {
    timeframe in store && "timestamp" in store[timeframe] && store[timeframe]["timestamp"].Time? &&
    AgeSeconds(now, store[timeframe]["timestamp"].t) < CacheValiditySeconds
  }

  /**
   * `get_cache(timeframe, key)`: the slot's content when the timeframe has a
   * live timestamp, else `None` (`Null`).
   */
  function Lookup<V>(store: Store<V>, timeframe: string, key: string, now: int): (r: Cell<V>)
    ensures r != Null ==> Live(store, timeframe, now) && key in store[timeframe] && r == store[timeframe][key]
    ensures Live(store, timeframe, now) && key in store[timeframe] ==> r == store[timeframe][key]
    ensures !Live(store, timeframe, now) ==> r == Null
  {
    if timeframe in store && store[timeframe] != map[] &&
      "timestamp" in store[timeframe] && store[timeframe]["timestamp"].Time?
    then
      var age := AgeSeconds(now, store[timeframe]["timestamp"].t);
      if age < CacheValiditySeconds && key in store[timeframe] then store[timeframe][key] else Null
    else Null
  }

  /**
   * `set_cache(timeframe, key, data)`: creates the timeframe if missing,
   * stores the value and refreshes the timeframe's one timestamp.
   */
  function Stored<V>(store: Store<V>, timeframe: string, key: string, data: V, now: int): Store<V> {
    var slots := if timeframe in store then store[timeframe] else map[];
    store[timeframe := slots[key := Val(data)]["timestamp" := Time(now)]]
  }

  /** Right after `set_cache`, the stored value is served back, and other timeframes are untouched. */
  lemma SetThenGet<V>(store: Store<V>, timeframe: string, key: string, data: V, now: int)
    requires key != "timestamp"
    ensures Lookup(Stored(store, timeframe, key, data, now), timeframe, key, now) == Val(data)
    ensures forall tf :: tf != timeframe && tf in store ==> Stored(store, timeframe, key, data, now)[tf] == store[tf]
  {
    assert Live(Stored(store, timeframe, key, data, now), timeframe, now);
  }

  /**
   * The timestamp is shared: storing `data` also makes the timeframe's old
   * `scored` value live again, however old it was.
   */
  lemma SharedTimestamp<V>(store: Store<V>, timeframe: string, data: V, now: int)
    requires timeframe in store && "scored" in store[timeframe]
    ensures Lookup(Stored(store, timeframe, "data", data, now), timeframe, "scored", now) == store[timeframe]["scored"]
  {
    assert Live(Stored(store, timeframe, "data", data, now), timeframe, now);
  }

  /** `_cache_store`: timeframe -> {"data", "scored", "timestamp"} */
  class DataCache<V> {
    var store: Store<V>

    /** The three timeframes start with `data`, `scored` and `timestamp` all `None`. */
    constructor()
      ensures store.Keys == {"daily", "weekly", "monthly"}
      ensures forall tf :: tf in store ==> store[tf] == map["data" := Null, "scored" := Null, "timestamp" := Null]
    {
      var empty: map<string, Cell<V>> := map["data" := Null, "scored" := Null, "timestamp" := Null];
      store := map["daily" := empty, "weekly" := empty, "monthly" := empty];
    }

    /** `get_cache` */
    function Get(timeframe: string, key: string, now: int): (r: Cell<V>)
      reads this
      ensures r == Lookup(store, timeframe, key, now)
    {
      Lookup(store, timeframe, key, now)
    }

    /** `set_cache` */
    method Set(timeframe: string, key: string, data: V, now: int)
      modifies this
      ensures store == Stored(old(store), timeframe, key, data, now)
    {
      var slots := if timeframe in store then store[timeframe] else map[];
      store := store[timeframe := slots[key := Val(data)]["timestamp" := Time(now)]];
    }
  }

  /**
   * `.seconds` drops whole days: a timestamp one day and `s` seconds old,
   * for `s < 600`, still counts as fresh.
   */
  lemma DayOldCountsFresh(stamp: int, s: int)
    requires 0 <= s < CacheValiditySeconds
    ensures AgeSeconds(stamp + SecondsPerDay + s, stamp) == s
    ensures AgeSeconds(stamp + SecondsPerDay + s, stamp) < CacheValiditySeconds
  {
    var d := stamp + SecondsPerDay + s - stamp;
    assert d == SecondsPerDay + s;
    assert d % SecondsPerDay == s;
  }

  // ---- progress ----

  datatype LogLine = LogLine(time: string, message: string)

  /** Python's truthiness of an optional string argument. */
  predicate Truthy(s: Option<string>) {
    s.Some? && s.value != ""
  }

  const MaxLogs: int := 50

  /** `_progress` */
  class Progress {
    var current: int
    var total: int
    var status: string
    var message: string
    var logs: seq<LogLine>
    var activeTimeframe: Option<string>

    predicate Valid()
      reads this
    {
      |logs| <= MaxLogs
    }

    constructor()
      ensures Valid()
      ensures current == 0 && total == 0 && status == "idle" && message == ""
      ensures logs == [] && activeTimeframe == None
    {
      current, total, status, message := 0, 0, "idle", "";
      logs, activeTimeframe := [], None;
    }

    /** `reset_progress` */
    method Reset()
      modifies this
      ensures Valid()
      ensures current == 0 && total == 0 && status == "idle" && message == ""
      ensures logs == [] && activeTimeframe == None
    {
      current, total, status, message := 0, 0, "idle", "";
      logs, activeTimeframe := [], None;
    }

    /**
     * `update_progress`: the counters, message and status are replaced, the
     * timeframe only when one is given, and the message is logged, keeping
     * the 50 most recent lines.
     */
    method Update(current: int, total: int, message: string, status: string, timeframe: Option<string>, clock: string)
      requires Valid()
      modifies this
      ensures Valid()
      ensures this.current == current && this.total == total
      ensures this.message == message && this.status == status
      ensures activeTimeframe == if Truthy(timeframe) then timeframe else old(activeTimeframe)
      ensures logs == PyLast(old(logs) + [LogLine(clock, message)], MaxLogs)
    {
      this.current := current;
      this.total := total;
      this.message := message;
      this.status := status;
      if Truthy(timeframe) {
        activeTimeframe := timeframe;
      }
      logs := PyLast(logs + [LogLine(clock, message)], MaxLogs);
    }
  }

  /**
   * The log after an update: at most 50 lines, the new message last, and
   * every earlier line that survives is a most-recent suffix of the old log.
   */
  lemma LogKeepsRecent(logs: seq<LogLine>, line: LogLine)
    requires |logs| <= MaxLogs
    ensures var r := PyLast(logs + [line], MaxLogs);
      |r| <= MaxLogs && |r| >= 1 && r[|r| - 1] == line &&
      r[..|r| - 1] == logs[|logs| - (|r| - 1)..] &&
      (|logs| < MaxLogs ==> r == logs + [line])
  {
    var s := logs + [line];
    var r := PyLast(s, MaxLogs);
    if |s| > MaxLogs {
      assert r == s[1..];
      assert r[..|r| - 1] == logs[1..];
    } else {
      assert r == s;
      assert r[..|r| - 1] == logs;
    }
  }

  // ---- returns ----

  /** The three return columns; a zero base close gives numpy's infinity or NaN. */
  datatype Returns = Returns(oneWeek: Float, oneMonth: Float, threeMonth: Float)

  /**
   * `calculate_accurate_returns`: `None` when the frame is returned as it
   * came (fewer than two rows); otherwise the three return columns.
   */
  function AccurateReturns(closes: seq<real>): (r: Option<Returns>)
    ensures r.None? <==> |closes| < 2
  {
    if |closes| < 2 then None
    else
      var n := |closes|;
      var latest := closes[n - 1];
      var week := if n >= 5 then PercentChange(latest, closes[n - 5]) else Finite(0.0);
      var month :=
        if n >= 20 then PercentChange(latest, closes[n - 20])
        else if n >= 5 then week
        else Finite(0.0);
      var quarter :=
        if n >= 60 then PercentChange(latest, closes[n - 60])
        else if n >= 40 then FScale(month, 1.5)
        else month;
      Some(Returns(week, month, quarter))
  }

  /** Which close each return is measured against, and the fallbacks for short series. */
  lemma AccurateReturnsCases(closes: seq<real>)
    requires |closes| >= 2
    ensures var r := AccurateReturns(closes).value;
      var n := |closes|;
      var latest := closes[n - 1];
      (n < 5 ==> r.oneWeek == Finite(0.0) && r.oneMonth == Finite(0.0) && r.threeMonth == Finite(0.0)) &&
      (n >= 5 ==> r.oneWeek == PercentChange(latest, closes[n - 5])) &&
      (5 <= n < 20 ==> r.oneMonth == r.oneWeek) &&
      (n >= 20 ==> r.oneMonth == PercentChange(latest, closes[n - 20])) &&
      (40 <= n < 60 ==> r.threeMonth == FScale(r.oneMonth, 1.5)) &&
      (n < 40 ==> r.threeMonth == r.oneMonth) &&
      (n >= 60 ==> r.threeMonth == PercentChange(latest, closes[n - 60]))
  {
  }

  /** A rising series over the last five closes has a positive weekly return. */
  lemma WeeklyReturnSign(closes: seq<real>)
    requires |closes| >= 5 && closes[|closes| - 5] > 0.0
    ensures AccurateReturns(closes).value.oneWeek.Finite?
    ensures AccurateReturns(closes).value.oneWeek.value > 0.0 <==> closes[|closes| - 1] > closes[|closes| - 5]
  {
  }

  // ---- periods ----

  /** The `lookback` of `get_stock_data`. */
  function Lookback(period: string): (days: int)
    ensures period == "6mo" ==> days == 180
    ensures period == "1y" ==> days == 365
    ensures period != "6mo" && period != "1y" ==> days == 30
  {
    if period == "6mo" then 180 else if period == "1y" then 365 else 30
  }

  /** The yfinance period `get_stock_data_smart` fetches for a lookback. */
  function FetchPeriod(lookbackDays: int): string {
    if lookbackDays > 180 then "1y" else "6mo"
  }

  function PeriodDays(period: string): int {
    if period == "1y" then 365 else if period == "6mo" then 180 else 30
  }

  /** The fetched period always covers the lookback chosen for a requested period. */
  lemma FetchCoversLookback(period: string)
    ensures PeriodDays(FetchPeriod(Lookback(period))) >= Lookback(period)
    ensures FetchPeriod(Lookback(period)) == if period == "1y" then "1y" else "6mo"
  {
  }

  datatype PeriodConfig = PeriodConfig(period: string, interval: string, lookbackDays: int)

  /** `PERIOD_MAP.get(timeframe, PERIOD_MAP['weekly'])` */
  function PeriodConfigOf(timeframe: string): (c: PeriodConfig)
    ensures timeframe !in {"daily", "monthly"} ==> c == PeriodConfig("6mo", "1wk", 180)
    ensures c.lookbackDays in {30, 180, 730}
  {
    if timeframe == "daily" then PeriodConfig("1mo", "1d", 30)
    else if timeframe == "monthly" then PeriodConfig("2y", "1mo", 730)
    else PeriodConfig("6mo", "1wk", 180)
  }
}
