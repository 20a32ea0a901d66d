/**
 * The stock universe: three index dictionaries (NIFTY 50, NIFTY Next 50,
 * NIFTY Midcap 50) from symbol to name, sector and cap class, their union,
 * the sector list, the counts and the relevance search over symbols, names
 * and sectors. The index literals are inputs here (a `Universe`).
 */
module StockUniverse {
  import opened Base
  import opened Text
  import opened Sorting

  datatype StockInfo = StockInfo(name: string, sector: string, cap: string)

  /** One `symbol: info` item of an insertion-ordered Python dictionary. */
  datatype Entry = Entry(symbol: string, info: StockInfo)

  /** The three index dictionaries. */
  datatype Universe = Universe(nifty50: seq<Entry>, next50: seq<Entry>, midcap50: seq<Entry>)

  // ---- insertion-ordered dictionaries ----

  /** The dictionary as a map from symbol to info. */
  function AsMap(d: seq<Entry>): map<string, StockInfo> {
    if d == [] then map[] else AsMap(d[1..])[d[0].symbol := d[0].info]
  }

  /** No symbol occurs twice: what every Python dictionary satisfies. */
  predicate Unique(d: seq<Entry>) {
    d == [] || (d[0].symbol !in AsMap(d[1..]) && Unique(d[1..]))
  }

  predicate ValidUniverse(u: Universe) {
    Unique(u.nifty50) && Unique(u.next50) && Unique(u.midcap50)
  }

  /** `d[e.symbol] = e.info`: an existing symbol keeps its place, a new one goes last. */
  function Put(d: seq<Entry>, e: Entry): seq<Entry> {
    if d == [] then [e]
    else if d[0].symbol == e.symbol then [e] + d[1..]
    else [d[0]] + Put(d[1..], e)
  }

  /** `d.update(other)` */
  function Update(d: seq<Entry>, other: seq<Entry>): seq<Entry>
    decreases |other|
  {
    if other == [] then d else Update(Put(d, other[0]), other[1..])
  }

  lemma {:induction false} PutMap(d: seq<Entry>, e: Entry)
    requires Unique(d)
    ensures Unique(Put(d, e))
    ensures AsMap(Put(d, e)) == AsMap(d)[e.symbol := e.info]
    decreases |d|
  {
    if d != [] && d[0].symbol != e.symbol {
      PutMap(d[1..], e);
      assert Put(d, e)[1..] == Put(d[1..], e);
    } else if d != [] {
      assert ([e] + d[1..])[1..] == d[1..];
    }
  }

  /** `update` with a dictionary is map union in which the later dictionary wins. */
  lemma {:induction false} UpdateMap(d: seq<Entry>, other: seq<Entry>)
    requires Unique(d) && Unique(other)
    ensures Unique(Update(d, other))
    ensures AsMap(Update(d, other)) == AsMap(d) + AsMap(other)
    decreases |other|
  {
    if other != [] {
      PutMap(d, other[0]);
      UpdateMap(Put(d, other[0]), other[1..]);
      MapUpdateUnion(AsMap(d), AsMap(other[1..]), other[0].symbol, other[0].info);
    }
  }

  lemma MapUpdateUnion(m1: map<string, StockInfo>, m2: map<string, StockInfo>, k: string, v: StockInfo)
    requires k !in m2
    ensures m1[k := v] + m2 == m1 + m2[k := v]
  {
  }

  /** A dictionary has as many items as distinct keys. */
  lemma {:induction false} UniqueSize(d: seq<Entry>)
    requires Unique(d)
    ensures |AsMap(d).Keys| == |d|
    decreases |d|
  {
    if d != [] {
      UniqueSize(d[1..]);
      assert AsMap(d).Keys == AsMap(d[1..]).Keys + {d[0].symbol};
    }
  }

  // ---- the universe ----

  /** `get_all_stocks`: an empty dictionary updated with the three indices in turn. */
  function AllStocks(u: Universe): seq<Entry> {
    Update(Update(Update([], u.nifty50), u.next50), u.midcap50)
  }

  /** The union holds every indexed symbol; a symbol in two indices takes the later index's info. */
  lemma AllStocksUnion(u: Universe)
    requires ValidUniverse(u)
    ensures Unique(AllStocks(u))
    ensures AsMap(AllStocks(u)) == AsMap(u.nifty50) + AsMap(u.next50) + AsMap(u.midcap50)
  {
    var m1 := Update([], u.nifty50);
    var m2 := Update(m1, u.next50);
    UpdateMap([], u.nifty50);
    assert AsMap(m1) == AsMap(u.nifty50);
    UpdateMap(m1, u.next50);
    UpdateMap(m2, u.midcap50);
  }

  /** `get_stocks_by_cap` */
  function StocksByCap(u: Universe, cap: string): (r: seq<Entry>)
    ensures forall e :: e in r <==> e in AllStocks(u) && e.info.cap == cap
  {
    Filter(AllStocks(u), (e: Entry) => e.info.cap == cap)
  }

  /** `get_stocks_by_index`: an unknown index name gives the whole universe. */
  function StocksByIndex(u: Universe, index: string): (r: seq<Entry>)
    ensures index == "nifty50" ==> r == u.nifty50
    ensures index == "next50" ==> r == u.next50
    ensures index == "midcap50" ==> r == u.midcap50
    ensures index !in {"nifty50", "next50", "midcap50"} ==> r == AllStocks(u)
  {
    if index == "nifty50" then u.nifty50
    else if index == "next50" then u.next50
    else if index == "midcap50" then u.midcap50
    else AllStocks(u)
  }

  datatype StockCounts = StockCounts(nifty50: nat, next50: nat, midcap50: nat, total: nat)

  /** `STOCK_COUNTS`: the total adds the three index sizes. */
  function Counts(u: Universe): StockCounts {
    StockCounts(|u.nifty50|, |u.next50|, |u.midcap50|, |u.nifty50| + |u.next50| + |u.midcap50|)
  }

  /**
   * The total counts a symbol once per index, so it bounds the size of the
   * union and equals it exactly when no symbol is in two indices.
   */
  lemma CountsTotal(u: Universe)
    requires ValidUniverse(u)
    ensures |AllStocks(u)| <= Counts(u).total
    ensures AsMap(u.nifty50).Keys !! AsMap(u.next50).Keys &&
            AsMap(u.nifty50).Keys !! AsMap(u.midcap50).Keys &&
            AsMap(u.next50).Keys !! AsMap(u.midcap50).Keys
            ==> |AllStocks(u)| == Counts(u).total
  {
    AllStocksUnion(u);
    UniqueSize(AllStocks(u));
    UniqueSize(u.nifty50);
    UniqueSize(u.next50);
    UniqueSize(u.midcap50);
    var a, b, c := AsMap(u.nifty50).Keys, AsMap(u.next50).Keys, AsMap(u.midcap50).Keys;
    assert AsMap(AllStocks(u)).Keys == a + b + c;
    assert |a + b| + |a * b| == |a| + |b|;
    assert |(a + b) + c| + |(a + b) * c| == |a + b| + |c|;
    if a !! b && a !! c && b !! c {
      assert (a + b) * c == {};
    }
  }

  // ---- sectors ----

  /** The distinct elements of `s`, each at its first occurrence. */
  function Distinct(s: seq<string>): (r: seq<string>)
    ensures forall x :: x in r <==> x in s
  {
    if s == [] then []
    else
      var rest := Distinct(s[..|s| - 1]);
      assert forall x :: x in s <==> x in s[..|s| - 1] || x == s[|s| - 1];
      if s[|s| - 1] in rest then rest else rest + [s[|s| - 1]]
  }

  lemma {:induction false} DistinctNoDup(s: seq<string>)
    ensures forall i, j :: 0 <= i < j < |Distinct(s)| ==> Distinct(s)[i] != Distinct(s)[j]
    decreases |s|
  {
    if s != [] {
      DistinctNoDup(s[..|s| - 1]);
    }
  }

  function SectorsOf(d: seq<Entry>): (r: seq<string>)
    ensures |r| == |d|
    ensures forall i :: 0 <= i < |d| ==> r[i] == d[i].info.sector
  {
    if d == [] then [] else SectorsOf(d[..|d| - 1]) + [d[|d| - 1].info.sector]
  }

  /** `sorted(set(v['sector'] for v in all_stocks.values()))` */
  function Sectors(u: Universe): seq<string> {
    SortBy(Distinct(SectorsOf(AllStocks(u))), StrLe)
  }

  lemma StrLePreorder()
    ensures TotalPreorder(StrLe)
  {
    StrLeTotalOrder();
  }

  /** The sector list is strictly ascending and holds exactly the sectors of the universe's stocks. */
  lemma SectorsSortedDistinct(u: Universe)
    ensures forall i, j :: 0 <= i < j < |Sectors(u)| ==> StrLt(Sectors(u)[i], Sectors(u)[j])
    ensures forall x :: x in Sectors(u) <==> exists e :: e in AllStocks(u) && e.info.sector == x
  {
    var all := AllStocks(u);
    var d := Distinct(SectorsOf(all));
    var r := Sectors(u);
    StrLePreorder();
    SortBySorted(d, StrLe);
    DistinctNoDup(SectorsOf(all));
    PermutationNoDup(d, r);
    forall x ensures x in r <==> x in d {
      assert x in r <==> x in multiset(r);
    }
    SectorsOfMembers(all);
  }

  lemma SectorsOfMembers(d: seq<Entry>)
    ensures forall x :: x in SectorsOf(d) <==> exists e :: e in d && e.info.sector == x
  {
    forall x ensures x in SectorsOf(d) <==> exists e :: e in d && e.info.sector == x {
      if x in SectorsOf(d) {
        var i :| 0 <= i < |d| && SectorsOf(d)[i] == x;
        assert d[i] in d;
      }
      if exists e :: e in d && e.info.sector == x {
        var e :| e in d && e.info.sector == x;
        var i :| 0 <= i < |d| && d[i] == e;
        assert SectorsOf(d)[i] == x;
      }
    }
  }

  /** A rearrangement of a duplicate-free sequence is duplicate-free. */
  lemma PermutationNoDup(d: seq<string>, r: seq<string>)
    requires forall i, j :: 0 <= i < j < |d| ==> d[i] != d[j]
    requires multiset(r) == multiset(d)
    ensures forall i, j :: 0 <= i < j < |r| ==> r[i] != r[j]
  {
    forall i, j | 0 <= i < j < |r| ensures r[i] != r[j] {
      NoDupMultiset(d, r[i]);
      assert r == r[..i] + [r[i]] + r[i + 1..j] + [r[j]] + r[j + 1..];
    }
  }

  /** A sequence without duplicates holds each value at most once. */
  lemma {:induction false} NoDupMultiset(s: seq<string>, x: string)
    requires forall i, j :: 0 <= i < j < |s| ==> s[i] != s[j]
    ensures multiset(s)[x] <= 1
    decreases |s|
  {
    if s != [] {
      var init := s[..|s| - 1];
      NoDupMultiset(init, x);
      assert s == init + [s[|s| - 1]];
      if x == s[|s| - 1] {
        assert x !in init;
      }
    }
  }

  // ---- search ----

  datatype SearchResult = SearchResult(symbol: string, name: string, sector: string, cap: string, score: int)

  /** The query after `query.upper().strip()`. */
  function NormalizedQuery(query: string): string {
    Strip(Upper(query))
  }

  /** The relevance score of one stock: the first matching rule wins. */
  function Relevance(symbol: string, info: StockInfo, q: string): (s: int)
    ensures s == 100 <==> symbol == q
    ensures s in {0, 20, 30, 40, 50, 100} || 80 <= s <= 89
  {
    if symbol == q then 100
    else if StartsWith(symbol, q) then
      assert |symbol| > |q|;
      var longer := |symbol| - |q|;
      80 + (10 - if longer < 10 then longer else 10)
    else if Contains(symbol, q) then 50
    else if StartsWith(Upper(info.name), q) then 40
    else if Contains(Upper(info.name), q) then 30
    else if Contains(Upper(info.sector), q) then 20
    else 0
  }

  /** A stock is scored exactly when the query occurs in its symbol, its upper-cased name or its upper-cased sector. */
  lemma RelevancePositive(symbol: string, info: StockInfo, q: string)
    ensures Relevance(symbol, info, q) > 0 <==>
      Contains(symbol, q) || Contains(Upper(info.name), q) || Contains(Upper(info.sector), q)
  {
    if symbol == q {
      assert StartsWith(symbol, q);
    }
  }

  /** The results appended by the loop, before sorting. */
  function Matches(all: seq<Entry>, q: string): (r: seq<SearchResult>)
    ensures |r| <= |all|
  {
    if all == [] then []
    else
      var e := all[|all| - 1];
      var s := Relevance(e.symbol, e.info, q);
      var rest := Matches(all[..|all| - 1], q);
      if s > 0 then rest + [SearchResult(e.symbol, e.info.name, e.info.sector, e.info.cap, s)] else rest
  }

  /** Every match has a positive score and comes from a stock of the input with that score. */
  lemma {:induction false} MatchesSound(all: seq<Entry>, q: string)
    ensures forall r :: r in Matches(all, q) ==>
      (r.score > 0 && Entry(r.symbol, StockInfo(r.name, r.sector, r.cap)) in all &&
       r.score == Relevance(r.symbol, StockInfo(r.name, r.sector, r.cap), q))
    decreases |all|
  {
    if all != [] {
      MatchesSound(all[..|all| - 1], q);
      assert forall e :: e in all[..|all| - 1] ==> e in all;
    }
  }

  /** The sort key `(-score, symbol)`. */
  predicate RankedBefore(a: SearchResult, b: SearchResult) {
    a.score > b.score || (a.score == b.score && StrLe(a.symbol, b.symbol))
  }

  lemma RankedBeforePreorder()
    ensures TotalPreorder(RankedBefore)
  {
    StrLeTotalOrder();
  }

  /** `search_stocks(query, limit)` */
  method Search(u: Universe, query: string, limit: int) returns (r: seq<SearchResult>)
    ensures query == [] ==> r == []
    ensures query != [] ==>
      r == PyTake(SortBy(Matches(AllStocks(u), NormalizedQuery(query)), RankedBefore), limit)
  {
    if query == [] {
      return [];
    }
    var q := NormalizedQuery(query);
    var all := AllStocks(u);
    var results: seq<SearchResult> := [];
    for i := 0 to |all|
      invariant results == Matches(all[..i], q)
    {
      var e := all[i];
      var score := Relevance(e.symbol, e.info, q);
      assert all[..i + 1][..i] == all[..i];
      if score > 0 {
        results := results + [SearchResult(e.symbol, e.info.name, e.info.sector, e.info.cap, score)];
      }
    }
    assert all[..|all|] == all;
    results := SortBy(results, RankedBefore);
    r := PyTake(results, limit);
  }

  /**
   * What the search promises: at most `limit` results, every one scored
   * positively from a stock of the universe, best score first and ties by
   * ascending symbol.
   */
  lemma SearchResultsRanked(u: Universe, q: string, limit: int)
    ensures var r := PyTake(SortBy(Matches(AllStocks(u), q), RankedBefore), limit);
      (limit >= 0 ==> |r| <= limit) &&
      (forall x :: x in r ==> x.score > 0 && Entry(x.symbol, StockInfo(x.name, x.sector, x.cap)) in AllStocks(u)) &&
      (forall i, j :: 0 <= i < j < |r| ==> r[i].score >= r[j].score) &&
      (forall i, j :: 0 <= i < j < |r| && r[i].score == r[j].score ==> StrLe(r[i].symbol, r[j].symbol))
  {
    var m := Matches(AllStocks(u), q);
    var s := SortBy(m, RankedBefore);
    var r := PyTake(s, limit);
    RankedBeforePreorder();
    SortBySorted(m, RankedBefore);
    MatchesSound(AllStocks(u), q);
    forall x | x in r ensures x in m {
      assert x in multiset(s);
    }
    forall i, j | 0 <= i < j < |r| ensures RankedBefore(r[i], r[j]) {
      assert r[i] == s[i] && r[j] == s[j];
    }
  }

  /**
   * A query of blanks only passes the emptiness test, strips to "", and then
   * every symbol starts with it: the search matches the whole universe.
   */
  lemma BlankQueryMatchesAll(u: Universe, query: string)
    requires query != [] && forall i :: 0 <= i < |query| ==> IsSpace(query[i])
    ensures NormalizedQuery(query) == []
    ensures |Matches(AllStocks(u), NormalizedQuery(query))| == |AllStocks(u)|
  {
    var up := Upper(query);
    assert forall i :: 0 <= i < |up| ==> IsSpace(up[i]);
    StripEmpty(up);
    EmptyQueryMatchesAll(AllStocks(u));
  }

  lemma {:induction false} EmptyQueryMatchesAll(all: seq<Entry>)
    ensures |Matches(all, [])| == |all|
    decreases |all|
  {
    if all != [] {
      EmptyQueryMatchesAll(all[..|all| - 1]);
      var e := all[|all| - 1];
      assert StartsWith(e.symbol, []);
    }
  }
}
