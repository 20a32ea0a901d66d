/**
 * Price alerts: the `alerts` table (AUTOINCREMENT ids, an active flag and a
 * trigger time) and the append-only `alert_history` table, with the check
 * that fires alerts against a map of current prices. The clock is the
 * parameter `now`.
 */
module Alerts {
  import opened Base
  import opened Text
  import opened Sorting
  import Table

  datatype Alert = Alert(
    id: nat, symbol: string, alertType: string, targetPrice: real, condition: string,
    createdAt: string, triggeredAt: Option<string>, isActive: bool, notes: Option<string>)

  datatype HistoryRow = HistoryRow(
    id: nat, alertId: nat, symbol: string, triggeredPrice: real, targetPrice: real,
    condition: string, triggeredAt: string)

  /** An entry of `check_alerts`' result: the alert row with the price that fired it and the time. */
  datatype Fired = Fired(alert: Alert, price: real, at: string)

  // ---------------------------------------------------------------------------
  // Queries and updates on the alerts table
  // ---------------------------------------------------------------------------

  /** `if symbol:` treats both `None` and the empty string as "no filter". */
  predicate Matches(symbol: Option<string>, a: Alert) {
    symbol.None? || symbol.value == [] || a.symbol == Upper(symbol.value)
  }

  predicate Listed(symbol: Option<string>, a: Alert) {
    a.isActive && Matches(symbol, a)
  }

  /** `ORDER BY created_at DESC` */
  predicate Newest(a: Alert, b: Alert) {
    StrLe(b.createdAt, a.createdAt)
  }

  lemma NewestPreorder()
    ensures TotalPreorder(Newest)
  {
    StrLeTotalOrder();
  }

  /** `WHERE is_active = 1 [AND symbol = ?]`, in table order. */
  function ListedRows(rows: seq<Alert>, symbol: Option<string>): (r: seq<Alert>)
    ensures forall a :: a in r <==> a in rows && Listed(symbol, a)
    decreases |rows|
  {
    if rows == [] then []
    else
      var rest, a := ListedRows(rows[..|rows| - 1], symbol), rows[|rows| - 1];
      assert forall b :: b in rows <==> b in rows[..|rows| - 1] || b == a;
      if Listed(symbol, a) then rest + [a] else rest
  }

  /** `get_active_alerts(symbol)` over the rows of the table. */
  function ActiveOf(rows: seq<Alert>, symbol: Option<string>): seq<Alert> {
    SortBy(ListedRows(rows, symbol), Newest)
  }

  /**
   * The listing holds exactly the active rows (of the upper-cased symbol when
   * one is given), each as often as in the table, newest first.
   */
  lemma ActiveListing(rows: seq<Alert>, symbol: Option<string>)
    ensures forall a :: a in ActiveOf(rows, symbol) <==> a in rows && a.isActive && Matches(symbol, a)
    ensures multiset(ActiveOf(rows, symbol)) == multiset(ListedRows(rows, symbol))
    ensures SortedBy(ActiveOf(rows, symbol), Newest)
  {
    var listed := ListedRows(rows, symbol);
    forall a ensures a in ActiveOf(rows, symbol) <==> a in rows && a.isActive && Matches(symbol, a) {
      assert a in ActiveOf(rows, symbol) <==> a in multiset(ActiveOf(rows, symbol));
      assert a in listed <==> a in multiset(listed);
    }
    NewestPreorder();
    SortBySorted(listed, Newest);
  }

  /** The row ids, in table order. */
  function IdsOf(rows: seq<Alert>): (r: seq<nat>)
    ensures |r| == |rows| && forall i :: 0 <= i < |rows| ==> r[i] == rows[i].id
  {
    seq(|rows|, i requires 0 <= i < |rows| => rows[i].id)
  }

  /** The AUTOINCREMENT discipline: ids are distinct and below the next id to be handed out. */
  predicate IdsBelow(rows: seq<Alert>, next: nat) {
    (forall a :: a in rows ==> a.id < next) && Table.UniqueKeys(rows, IdOf)
  }

  /** The key of the `id INTEGER PRIMARY KEY` column. */
  function IdOf(a: Alert): nat { a.id }

  /** `UPDATE alerts SET is_active = 0, triggered_at = now WHERE id IN ids`, one id at a time. */
  function DeactivateIds(rows: seq<Alert>, ids: seq<nat>, now: string): (r: seq<Alert>)
    ensures |r| == |rows|
    ensures forall i :: 0 <= i < |rows| ==>
      r[i] == if rows[i].id in ids then rows[i].(isActive := false, triggeredAt := Some(now)) else rows[i]
  {
    seq(|rows|, i requires 0 <= i < |rows| =>
      if rows[i].id in ids then rows[i].(isActive := false, triggeredAt := Some(now)) else rows[i])
  }

  /** Deactivating a set of ids and then one more is deactivating the larger set. */
  lemma DeactivateOneMore(rows: seq<Alert>, ids: seq<nat>, id: nat, now: string)
    ensures DeactivateIds(DeactivateIds(rows, ids, now), [id], now) == DeactivateIds(rows, ids + [id], now)
  {
    var a, b := DeactivateIds(DeactivateIds(rows, ids, now), [id], now), DeactivateIds(rows, ids + [id], now);
    forall i | 0 <= i < |rows| ensures a[i] == b[i] {
      assert rows[i].id in ids + [id] <==> rows[i].id in ids || rows[i].id == id;
    }
  }

  /** Deactivation changes no id, so the AUTOINCREMENT discipline survives it. */
  lemma DeactivateKeepsIds(rows: seq<Alert>, ids: seq<nat>, now: string, next: nat)
    requires IdsBelow(rows, next)
    ensures IdsOf(DeactivateIds(rows, ids, now)) == IdsOf(rows)
    ensures IdsBelow(DeactivateIds(rows, ids, now), next)
  {
    var r := DeactivateIds(rows, ids, now);
    assert forall i :: 0 <= i < |rows| ==> r[i].id == rows[i].id;
    forall a | a in r ensures a.id < next {
      var i :| 0 <= i < |r| && r[i] == a;
      assert rows[i] in rows;
    }
  }

  // ---------------------------------------------------------------------------
  // Triggering
  // ---------------------------------------------------------------------------

  /** The trigger rule of `check_alerts`. */
  function Triggers(condition: string, current: real, target: real): (r: bool)
    ensures r ==> condition == "above" || condition == "below"
    ensures condition == "above" ==> (r <==> current >= target)
    ensures condition == "below" ==> (r <==> current <= target)
  {
    (condition == "above" && current >= target) || (condition == "below" && current <= target)
  }

  /** The alert's symbol has a current price and its condition holds at that price. */
  predicate Fires(a: Alert, prices: map<string, real>) {
    a.symbol in prices && Triggers(a.condition, prices[a.symbol], a.targetPrice)
  }

  /** The alerts of a listing that fire, in listing order, with their prices. */
  function FiredOf(listing: seq<Alert>, prices: map<string, real>, now: string): seq<Fired>
    decreases |listing|
  {
    if listing == [] then []
    else
      var rest, a := FiredOf(listing[..|listing| - 1], prices, now), listing[|listing| - 1];
      if Fires(a, prices) then rest + [Fired(a, prices[a.symbol], now)] else rest
  }

  lemma FiredOfStep(listing: seq<Alert>, i: nat, prices: map<string, real>, now: string)
    requires i < |listing|
    ensures FiredOf(listing[..i + 1], prices, now) ==
      if Fires(listing[i], prices) then FiredOf(listing[..i], prices, now) + [Fired(listing[i], prices[listing[i].symbol], now)]
      else FiredOf(listing[..i], prices, now)
  {
    assert listing[..i + 1][..i] == listing[..i];
  }

  function FiredIds(fired: seq<Fired>): (r: seq<nat>)
    ensures |r| == |fired| && forall k :: 0 <= k < |fired| ==> r[k] == fired[k].alert.id
  {
    seq(|fired|, k requires 0 <= k < |fired| => fired[k].alert.id)
  }

  /**
   * An alert of the listing is reported iff it fires; a symbol without a
   * price is skipped; each report carries the current price and the time.
   */
  lemma {:induction false} FiredMeaning(listing: seq<Alert>, prices: map<string, real>, now: string)
    ensures forall f :: f in FiredOf(listing, prices, now) ==>
      f.alert in listing && Fires(f.alert, prices) && f.price == prices[f.alert.symbol] && f.at == now
    ensures forall a :: a in listing && Fires(a, prices) ==> a.id in FiredIds(FiredOf(listing, prices, now))
    decreases |listing|
  {
    if listing != [] {
      var init := listing[..|listing| - 1];
      FiredMeaning(init, prices, now);
      assert listing == init + [listing[|listing| - 1]];
      var r, r0 := FiredOf(listing, prices, now), FiredOf(init, prices, now);
      forall a | a in listing && Fires(a, prices) ensures a.id in FiredIds(r) {
        if a in init {
          var k :| 0 <= k < |r0| && FiredIds(r0)[k] == a.id;
          assert r[k] == r0[k];
        } else {
          assert FiredIds(r)[|r| - 1] == a.id;
        }
      }
    }
  }

  /** The history rows written for the reports, with consecutive AUTOINCREMENT ids from `start`. */
  function HistoryOf(fired: seq<Fired>, start: nat): (r: seq<HistoryRow>)
    ensures |r| == |fired|
    ensures forall k :: 0 <= k < |fired| ==> r[k] == HistoryRow(start + k, fired[k].alert.id, fired[k].alert.symbol,
      fired[k].price, fired[k].alert.targetPrice, fired[k].alert.condition, fired[k].at)
  {
    seq(|fired|, k requires 0 <= k < |fired| => HistoryRow(start + k, fired[k].alert.id, fired[k].alert.symbol,
      fired[k].price, fired[k].alert.targetPrice, fired[k].alert.condition, fired[k].at))
  }

  lemma HistoryOfStep(fired: seq<Fired>, f: Fired, start: nat)
    ensures HistoryOf(fired + [f], start) == HistoryOf(fired, start) +
      [HistoryRow(start + |fired|, f.alert.id, f.alert.symbol, f.price, f.alert.targetPrice, f.alert.condition, f.at)]
  {
  }

  /**
   * After a check, no active alert fires at the same prices: every alert
   * that fired was deactivated, and the others did not fire.
   */
  lemma {:induction false} NothingRefires(rows: seq<Alert>, prices: map<string, real>, now: string)
    ensures var after := DeactivateIds(rows, FiredIds(FiredOf(ActiveOf(rows, None), prices, now)), now);
      forall i :: 0 <= i < |after| && after[i].isActive ==> !Fires(after[i], prices)
  {
    var listing := ActiveOf(rows, None);
    var ids := FiredIds(FiredOf(listing, prices, now));
    var after := DeactivateIds(rows, ids, now);
    ActiveListing(rows, None);
    FiredMeaning(listing, prices, now);
    forall i | 0 <= i < |after| && after[i].isActive ensures !Fires(after[i], prices) {
      if rows[i].id !in ids {
        assert after[i] == rows[i];
        assert rows[i] in rows;
      }
    }
  }

  /** One more report extends the deactivated ids and the history rows by its own. */
  lemma TriggerStep(rows: seq<Alert>, history: seq<HistoryRow>, start: nat, fired: seq<Fired>, f: Fired)
    ensures DeactivateIds(DeactivateIds(rows, FiredIds(fired), f.at), [f.alert.id], f.at) ==
      DeactivateIds(rows, FiredIds(fired + [f]), f.at)
    ensures history + HistoryOf(fired, start) +
      [HistoryRow(start + |fired|, f.alert.id, f.alert.symbol, f.price, f.alert.targetPrice, f.alert.condition, f.at)] ==
      history + HistoryOf(fired + [f], start)
  {
    HistoryOfStep(fired, f, start);
    DeactivateOneMore(rows, FiredIds(fired), f.alert.id, f.at);
    assert FiredIds(fired + [f]) == FiredIds(fired) + [f.alert.id];
  }

  // ---------------------------------------------------------------------------
  // The store
  // ---------------------------------------------------------------------------

  class AlertStore {
    var alerts: seq<Alert>
    var history: seq<HistoryRow>
    var nextId: nat
    var nextHistoryId: nat

    predicate Valid()
      reads this
    {
      IdsBelow(alerts, nextId) && (forall k :: 0 <= k < |history| ==> history[k].id < nextHistoryId)
    }

    constructor()
      ensures Valid() && alerts == [] && history == []
    {
      alerts, history := [], [];
      nextId, nextHistoryId := 1, 1;
    }

    /** `create_alert`: an active row for the upper-cased symbol under a fresh id. */
    method CreateAlert(symbol: string, targetPrice: real, condition: string, alertType: string, notes: Option<string>, now: string)
      returns (id: nat)
      requires Valid()
      modifies this
      ensures Valid()
      ensures id !in IdsOf(old(alerts))
      ensures alerts == old(alerts) + [Alert(id, Upper(symbol), alertType, targetPrice, condition, now, None, true, notes)]
      ensures history == old(history) && nextHistoryId == old(nextHistoryId)
    {
      id := nextId;
      alerts := alerts + [Alert(id, Upper(symbol), alertType, targetPrice, condition, now, None, true, notes)];
      nextId := nextId + 1;
    }

    /** `get_active_alerts` */
    function ActiveAlerts(symbol: Option<string>): seq<Alert>
      reads this
    {
      ActiveOf(alerts, symbol)
    }

    /** `delete_alert`: only the row with that id goes. */
    method DeleteAlert(id: nat) returns (ok: bool)
      requires Valid()
      modifies this
      ensures Valid() && ok
      ensures alerts == Table.Without(old(alerts), IdOf, id)
      ensures history == old(history) && nextId == old(nextId) && nextHistoryId == old(nextHistoryId)
    {
      Table.WithoutUnique(alerts, IdOf, id);
      alerts := Table.Without(alerts, IdOf, id);
      ok := true;
    }

    /** `deactivate_alert`: clears the active flag and stamps the time on that row only. */
    method DeactivateAlert(id: nat, now: string) returns (ok: bool)
      requires Valid()
      modifies this
      ensures Valid() && ok
      ensures alerts == DeactivateIds(old(alerts), [id], now)
      ensures history == old(history) && nextId == old(nextId) && nextHistoryId == old(nextHistoryId)
    {
      DeactivateKeepsIds(alerts, [id], now, nextId);
      alerts := DeactivateIds(alerts, [id], now);
      ok := true;
    }

    /**
     * One trigger inside `check_alerts`: the history row, then
     * `deactivate_alert`; the ghost parameters carry the reports so far.
     */
    method RecordTrigger(f: Fired, ghost rows: seq<Alert>, ghost hist: seq<HistoryRow>, ghost start: nat, ghost fired: seq<Fired>)
      requires Valid()
      requires alerts == DeactivateIds(rows, FiredIds(fired), f.at)
      requires history == hist + HistoryOf(fired, start) && nextHistoryId == start + |fired|
      modifies this
      ensures Valid()
      ensures alerts == DeactivateIds(rows, FiredIds(fired + [f]), f.at)
      ensures history == hist + HistoryOf(fired + [f], start) && nextHistoryId == start + |fired + [f]|
      ensures nextId == old(nextId)
    {
      TriggerStep(rows, hist, start, fired, f);
      history := history + [HistoryRow(nextHistoryId, f.alert.id, f.alert.symbol, f.price, f.alert.targetPrice, f.alert.condition, f.at)];
      nextHistoryId := nextHistoryId + 1;
      var _ := DeactivateAlert(f.alert.id, f.at);
    }

    /**
     * `check_alerts`: walks the active listing; each alert whose symbol has
     * a price and whose condition holds gets one history row, is deactivated
     * and is reported. Afterwards no active alert fires at these prices.
     */
    method CheckAlerts(prices: map<string, real>, now: string) returns (triggered: seq<Fired>)
      requires Valid()
      modifies this
      ensures Valid()
      ensures triggered == FiredOf(ActiveOf(old(alerts), None), prices, now)
      ensures alerts == DeactivateIds(old(alerts), FiredIds(triggered), now)
      ensures history == old(history) + HistoryOf(triggered, old(nextHistoryId))
      ensures nextId == old(nextId)
      ensures forall i :: 0 <= i < |alerts| && alerts[i].isActive ==> !Fires(alerts[i], prices)
    {
      var listing := ActiveAlerts(None);
      ghost var rows0, hist0, start := alerts, history, nextHistoryId;
      triggered := [];
      var i := 0;
      while i < |listing|
        invariant 0 <= i <= |listing|
        invariant Valid()
        invariant triggered == FiredOf(listing[..i], prices, now)
        invariant alerts == DeactivateIds(rows0, FiredIds(triggered), now)
        invariant history == hist0 + HistoryOf(triggered, start)
        invariant nextHistoryId == start + |triggered|
        invariant nextId == old(nextId)
      {
        var alert := listing[i];
        FiredOfStep(listing, i, prices, now);
        if Fires(alert, prices) {
          var f := Fired(alert, prices[alert.symbol], now);
          RecordTrigger(f, rows0, hist0, start, triggered);
          triggered := triggered + [f];
        }
        i := i + 1;
      }
      assert listing[..i] == listing;
      NothingRefires(rows0, prices, now);
    }
  }
}
