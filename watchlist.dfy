/**
 * Watchlists: the `watchlists` table (`UNIQUE(name)`, the default list 1)
 * and the `watchlist_stocks` table with `UNIQUE(watchlist_id, symbol)`,
 * written by `INSERT OR REPLACE` and `DELETE`. The clock is the parameter
 * `now` (an ISO timestamp).
 */
module Watchlist {
  import opened Base
  import opened Text
  import opened Sorting
  import Table

  datatype WatchlistRow = WatchlistRow(id: nat, name: string, createdAt: string)

  datatype StockRow = StockRow(
    id: nat, watchlistId: nat, symbol: string, addedAt: string, addedPrice: Option<real>, notes: Option<string>)

  /** A row of `get_watchlists`: the list and its `COUNT(ws.id)`. */
  datatype ListCount = ListCount(list: WatchlistRow, stockCount: nat)

  function NameOf(w: WatchlistRow): string { w.name }
  function ListIdOf(w: WatchlistRow): nat { w.id }

  /** The key of `UNIQUE(watchlist_id, symbol)`. */
  function PairOf(s: StockRow): (nat, string) { (s.watchlistId, s.symbol) }

  /** `WHERE watchlist_id = ?`, in table order. */
  function EntriesOf(stocks: seq<StockRow>, listId: nat): (r: seq<StockRow>)
    ensures forall s :: s in r <==> s in stocks && s.watchlistId == listId
    ensures |r| <= |stocks|
    decreases |stocks|
  {
    if stocks == [] then []
    else
      var rest, s := EntriesOf(stocks[..|stocks| - 1], listId), stocks[|stocks| - 1];
      assert forall x :: x in stocks <==> x in stocks[..|stocks| - 1] || x == s;
      if s.watchlistId == listId then rest + [s] else rest
  }

  /** `ORDER BY added_at DESC` */
  predicate NewestAdded(a: StockRow, b: StockRow) {
    StrLe(b.addedAt, a.addedAt)
  }

  /** `get_watchlist_stocks(watchlist_id)` over the rows of the table. */
  function ListingOf(stocks: seq<StockRow>, listId: nat): seq<StockRow> {
    SortBy(EntriesOf(stocks, listId), NewestAdded)
  }

  /** The listing holds exactly that list's entries, each once, newest first. */
  lemma ListingMeaning(stocks: seq<StockRow>, listId: nat)
    ensures forall s :: s in ListingOf(stocks, listId) <==> s in stocks && s.watchlistId == listId
    ensures multiset(ListingOf(stocks, listId)) == multiset(EntriesOf(stocks, listId))
    ensures SortedBy(ListingOf(stocks, listId), NewestAdded)
  {
    var entries := EntriesOf(stocks, listId);
    forall s ensures s in ListingOf(stocks, listId) <==> s in stocks && s.watchlistId == listId {
      assert s in ListingOf(stocks, listId) <==> s in multiset(ListingOf(stocks, listId));
      assert s in entries <==> s in multiset(entries);
    }
    StrLeTotalOrder();
    assert TotalPreorder(NewestAdded);
    SortBySorted(entries, NewestAdded);
  }

  /** `SELECT w.*, COUNT(ws.id) ... LEFT JOIN ... GROUP BY w.id`, one row per list in table order. */
  function CountsOf(lists: seq<WatchlistRow>, stocks: seq<StockRow>): (r: seq<ListCount>)
    ensures |r| == |lists|
    ensures forall i :: 0 <= i < |lists| ==> r[i].list == lists[i]
    ensures forall i :: 0 <= i < |lists| ==> r[i].stockCount == |EntriesOf(stocks, lists[i].id)|
  {
    seq(|lists|, i requires 0 <= i < |lists| => ListCount(lists[i], |EntriesOf(stocks, lists[i].id)|))
  }

  /** A list's count is 0 exactly when no entry belongs to it (the LEFT JOIN keeps empty lists). */
  lemma CountZero(lists: seq<WatchlistRow>, stocks: seq<StockRow>, i: nat)
    requires i < |lists|
    ensures CountsOf(lists, stocks)[i].stockCount == 0 <==> forall s :: s in stocks ==> s.watchlistId != lists[i].id
  {
    var e := EntriesOf(stocks, lists[i].id);
    if e != [] {
      assert e[0] in e;
    }
  }

  class Lists {
    var lists: seq<WatchlistRow>
    var stocks: seq<StockRow>
    var nextListId: nat
    var nextStockId: nat

    predicate Valid()
      reads this
    {
      Table.UniqueKeys(lists, NameOf) && Table.UniqueKeys(lists, ListIdOf) &&
      (forall w :: w in lists ==> w.id < nextListId) &&
      Table.UniqueKeys(stocks, PairOf)
    }

    constructor()
      ensures Valid() && lists == [] && stocks == []
    {
      lists, stocks := [], [];
      nextListId, nextStockId := 1, 1;
    }

    /**
     * The default row of `init_db`: `INSERT OR IGNORE` of list 1 "Default",
     * ignored when id 1 or the name "Default" is already taken.
     */
    method InitDefault(now: string)
      requires Valid()
      modifies this
      ensures Valid()
      ensures exists w :: w in lists && (w.id == 1 || w.name == "Default")
      ensures (exists w :: w in old(lists) && (w.id == 1 || w.name == "Default")) ==> lists == old(lists)
      ensures !(exists w :: w in old(lists) && (w.id == 1 || w.name == "Default")) ==>
        lists == old(lists) + [WatchlistRow(1, "Default", now)]
      ensures stocks == old(stocks) && nextStockId == old(nextStockId)
    {
      if exists w :: w in lists && (w.id == 1 || w.name == "Default") {
        return;
      }
      var row := WatchlistRow(1, "Default", now);
      forall i | 0 <= i < |lists| ensures lists[i].name != "Default" && lists[i].id != 1 {
        assert lists[i] in lists;
      }
      lists := lists + [row];
      if nextListId < 2 {
        nextListId := 2;
      }
      assert row in lists;
    }

    /** `create_watchlist`: a fresh id, or `None` when the UNIQUE name is taken. */
    method CreateWatchlist(name: string, now: string) returns (r: Option<nat>)
      requires Valid()
      modifies this
      ensures Valid()
      ensures r.None? <==> exists w :: w in old(lists) && w.name == name
      ensures r.None? ==> lists == old(lists)
      ensures r.Some? ==> ((r.value !in set w | w in old(lists) :: w.id) &&
        lists == old(lists) + [WatchlistRow(r.value, name, now)])
      ensures stocks == old(stocks)
    {
      if exists w :: w in lists && w.name == name {
        return None;
      }
      var id := nextListId;
      forall i | 0 <= i < |lists| ensures lists[i].name != name && lists[i].id != id {
        assert lists[i] in lists;
      }
      lists := lists + [WatchlistRow(id, name, now)];
      nextListId := nextListId + 1;
      r := Some(id);
    }

    /** `get_watchlists` */
    function Watchlists(): seq<ListCount>
      reads this
    {
      CountsOf(lists, stocks)
    }

    /** `get_watchlist_stocks` */
    function WatchlistStocks(listId: nat): seq<StockRow>
      reads this
    {
      ListingOf(stocks, listId)
    }

    /**
     * `add_to_watchlist`: one entry per (list, upper-cased symbol); an
     * existing entry is replaced with the new time, price and notes.
     */
    method AddToWatchlist(symbol: string, listId: nat, price: Option<real>, notes: Option<string>, now: string)
      returns (ok: bool)
      requires Valid()
      modifies this
      ensures Valid() && ok
      ensures stocks == Table.Upsert(old(stocks), PairOf, StockRow(old(nextStockId), listId, Upper(symbol), now, price, notes))
      ensures lists == old(lists)
    {
      var row := StockRow(nextStockId, listId, Upper(symbol), now, price, notes);
      Table.UpsertReplaces(stocks, PairOf, row);
      stocks := Table.Upsert(stocks, PairOf, row);
      nextStockId := nextStockId + 1;
      ok := true;
    }

    /** `remove_from_watchlist`: only that (list, upper-cased symbol) entry goes. */
    method RemoveFromWatchlist(symbol: string, listId: nat) returns (ok: bool)
      requires Valid()
      modifies this
      ensures Valid() && ok
      ensures stocks == Table.Without(old(stocks), PairOf, (listId, Upper(symbol)))
      ensures lists == old(lists)
    {
      Table.WithoutUnique(stocks, PairOf, (listId, Upper(symbol)));
      stocks := Table.Without(stocks, PairOf, (listId, Upper(symbol)));
      ok := true;
    }
  }
}
