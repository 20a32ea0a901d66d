/**
 * The LRU + TTL cache: an insertion-ordered key list (the OrderedDict), a
 * value map and an expiry map, with hit and miss counters. Time is a
 * parameter (`now`, in seconds).
 */
module Cache {
  import opened Base
  import opened Text

  // ---- key sequences ----

  /** Every key occurs once: each key is absent from the keys before it. */
  predicate NoDup(s: seq<string>)
    decreases |s|
  {
    s == [] || (NoDup(s[..|s| - 1]) && s[|s| - 1] !in s[..|s| - 1])
  }

  function KeySet(s: seq<string>): set<string> {
    set k | k in s
  }

  lemma KeySetSnoc(s: seq<string>, x: string)
    ensures KeySet(s + [x]) == KeySet(s) + {x}
  {
    assert forall k :: k in s + [x] <==> k in s || k == x;
  }

  /** A key occurring in a sequence without duplicates occurs at one position only. */
  lemma NoDupLast(s: seq<string>)
    requires NoDup(s) && s != []
    ensures s[|s| - 1] !in KeySet(s[..|s| - 1])
  {
    var init := s[..|s| - 1];
    assert forall i :: 0 <= i < |init| ==> init[i] == s[i];
  }

  /** Appending a key the sequence does not hold keeps it duplicate-free. */
  lemma NoDupSnoc(s: seq<string>, x: string)
    requires NoDup(s) && x !in KeySet(s)
    ensures NoDup(s + [x])
  {
    assert forall i :: 0 <= i < |s| ==> s[i] in KeySet(s);
  }

  /** Dropping the oldest keys keeps the rest duplicate-free. */
  lemma {:induction false} NoDupSuffix(s: seq<string>, n: nat)
    requires NoDup(s) && n <= |s|
    ensures NoDup(s[n..])
    decreases |s|
  {
    if n < |s| {
      var init := s[..|s| - 1];
      NoDupSuffix(init, n);
      assert s[n..][..|s| - n - 1] == init[n..];
      assert forall x :: x in init[n..] ==> x in init;
    }
  }

  /** The oldest key occurs nowhere after it. */
  lemma {:induction false} NoDupFront(s: seq<string>)
    requires NoDup(s) && s != []
    ensures s[0] !in s[1..]
    decreases |s|
  {
    if |s| > 1 {
      var init := s[..|s| - 1];
      NoDupFront(init);
      assert s[1..] == init[1..] + [s[|s| - 1]];
      assert s[0] in init;
    }
  }

  lemma KeySetPrefix(s: seq<string>, n: nat)
    requires n < |s|
    ensures KeySet(s[..n + 1]) == KeySet(s[..n]) + {s[n]}
  {
    assert s[..n + 1] == s[..n] + [s[n]];
    KeySetSnoc(s[..n], s[n]);
  }

  /** Removing two key sets from a map one after the other removes their union. */
  lemma MapMinusTwice<V>(m: map<string, V>, a: set<string>, b: set<string>)
    ensures (m - a) - b == m - (a + b)
  {
  }

  /** `s` without the keys in `drop`, order kept. */
  function FilterOut(s: seq<string>, drop: set<string>): (r: seq<string>)
    ensures |r| <= |s|
  {
    if s == [] then []
    else
      var rest := FilterOut(s[..|s| - 1], drop);
      if s[|s| - 1] in drop then rest else rest + [s[|s| - 1]]
  }

  lemma {:induction false} FilterOutKeys(s: seq<string>, drop: set<string>)
    ensures KeySet(FilterOut(s, drop)) == KeySet(s) - drop
    decreases |s|
  {
    if s != [] {
      var init := s[..|s| - 1];
      FilterOutKeys(init, drop);
      assert s == init + [s[|s| - 1]];
      KeySetSnoc(init, s[|s| - 1]);
      KeySetSnoc(FilterOut(init, drop), s[|s| - 1]);
    }
  }

  lemma {:induction false} FilterOutNoDup(s: seq<string>, drop: set<string>)
    requires NoDup(s)
    ensures NoDup(FilterOut(s, drop))
    decreases |s|
  {
    if s != [] {
      var init := s[..|s| - 1];
      var last := s[|s| - 1];
      FilterOutNoDup(init, drop);
      FilterOutKeys(init, drop);
      var r := FilterOut(init, drop);
      if last !in drop {
        NoDupLast(s);
        NoDupSnoc(r, last);
      }
    }
  }

  lemma {:induction false} FilterOutNone(s: seq<string>)
    ensures FilterOut(s, {}) == s
    decreases |s|
  {
    if s != [] {
      FilterOutNone(s[..|s| - 1]);
    }
  }

  /** Removing one set of keys and then another is removing both. */
  lemma {:induction false} FilterOutTwice(s: seq<string>, a: set<string>, b: set<string>)
    ensures FilterOut(FilterOut(s, a), b) == FilterOut(s, a + b)
    decreases |s|
  {
    if s != [] {
      var init, last := s[..|s| - 1], s[|s| - 1];
      FilterOutTwice(init, a, b);
      var r := FilterOut(init, a);
      if last !in a {
        assert (r + [last])[..|r + [last]| - 1] == r;
      }
    }
  }

  /** Without duplicates, removing the first key leaves the rest. */
  lemma {:induction false} FilterOutFront(s: seq<string>)
    requires NoDup(s) && s != []
    ensures FilterOut(s, {s[0]}) == s[1..]
    decreases |s|
  {
    if |s| > 1 {
      var init := s[..|s| - 1];
      assert NoDup(init);
      FilterOutFront(init);
      assert s[|s| - 1] != s[0];
      assert init[1..] + [s[|s| - 1]] == s[1..];
    }
  }

  /** A key the sequence does not hold is not removed from anything. */
  lemma {:induction false} FilterOutAbsent(s: seq<string>, k: string)
    requires k !in s
    ensures FilterOut(s, {k}) == s
    decreases |s|
  {
    if s != [] {
      FilterOutAbsent(s[..|s| - 1], k);
    }
  }

  /** The keys containing `pattern`, in order (`[k for k in self._cache if pattern in k]`). */
  function Matching(s: seq<string>, pattern: string): (r: seq<string>)
    ensures |r| <= |s|
  {
    if s == [] then []
    else
      var rest := Matching(s[..|s| - 1], pattern);
      if Contains(s[|s| - 1], pattern) then rest + [s[|s| - 1]] else rest
  }

  /** The keys not containing `pattern`, in order. */
  function NotMatching(s: seq<string>, pattern: string): (r: seq<string>)
    ensures |r| <= |s|
  {
    if s == [] then []
    else
      var rest := NotMatching(s[..|s| - 1], pattern);
      if Contains(s[|s| - 1], pattern) then rest else rest + [s[|s| - 1]]
  }

  /** Every key is either matching or not. */
  lemma {:induction false} MatchingSplit(s: seq<string>, pattern: string)
    ensures |Matching(s, pattern)| + |NotMatching(s, pattern)| == |s|
    ensures KeySet(Matching(s, pattern)) == set k | k in s && Contains(k, pattern)
    decreases |s|
  {
    if s != [] {
      var init := s[..|s| - 1];
      MatchingSplit(init, pattern);
      assert s == init + [s[|s| - 1]];
      KeySetSnoc(Matching(init, pattern), s[|s| - 1]);
    }
  }

  /** Removing every matching key leaves exactly the keys that do not match, in order. */
  lemma {:induction false} FilterOutMatching(s: seq<string>, pattern: string, m: set<string>)
    requires forall k :: k in s ==> (k in m <==> Contains(k, pattern))
    ensures FilterOut(s, m) == NotMatching(s, pattern)
    decreases |s|
  {
    if s != [] {
      FilterOutMatching(s[..|s| - 1], pattern, m);
    }
  }

  /** Without duplicates, the matching keys have no duplicates either. */
  lemma {:induction false} MatchingNoDup(s: seq<string>, pattern: string)
    requires NoDup(s)
    ensures NoDup(Matching(s, pattern))
    decreases |s|
  {
    if s != [] {
      var init, last := s[..|s| - 1], s[|s| - 1];
      assert NoDup(init);
      MatchingNoDup(init, pattern);
      MatchingSplit(init, pattern);
      NoDupLast(s);
      if Contains(last, pattern) {
        NoDupSnoc(Matching(init, pattern), last);
      }
    }
  }

  /** `move_to_end`: the key becomes the most recently used. */
  function MoveToEnd(s: seq<string>, k: string): (r: seq<string>)
    ensures |r| > 0 && r[|r| - 1] == k
  {
    FilterOut(s, {k}) + [k]
  }

  lemma MoveToEndKeys(s: seq<string>, k: string)
    requires NoDup(s)
    ensures NoDup(MoveToEnd(s, k))
    ensures KeySet(MoveToEnd(s, k)) == KeySet(s) + {k}
  {
    var r := FilterOut(s, {k});
    FilterOutKeys(s, {k});
    FilterOutNoDup(s, {k});
    NoDupSnoc(r, k);
    KeySetSnoc(r, k);
  }

  /** Moving a held key keeps the length; moving a new key adds one. */
  lemma MoveToEndLength(s: seq<string>, k: string)
    requires NoDup(s)
    ensures k in s ==> |MoveToEnd(s, k)| == |s|
    ensures k !in s ==> |MoveToEnd(s, k)| == |s| + 1
  {
    if k in s {
      FilterOutOne(s, k);
    } else {
      FilterOutAbsent(s, k);
    }
  }

  /** Without duplicates, removing a held key shortens the sequence by one. */
  lemma {:induction false} FilterOutOne(s: seq<string>, k: string)
    requires NoDup(s) && k in s
    ensures |FilterOut(s, {k})| == |s| - 1
    decreases |s|
  {
    var init := s[..|s| - 1];
    if s[|s| - 1] == k {
      FilterOutAbsent(init, k);
    } else {
      assert s == init + [s[|s| - 1]];
      assert k in init;
      FilterOutOne(init, k);
    }
  }

  lemma {:induction false} NoDupCard(s: seq<string>)
    requires NoDup(s)
    ensures |KeySet(s)| == |s|
    decreases |s|
  {
    if s != [] {
      var init := s[..|s| - 1];
      assert NoDup(init);
      NoDupCard(init);
      assert s == init + [s[|s| - 1]];
      KeySetSnoc(init, s[|s| - 1]);
      NoDupLast(s);
    }
  }

  // ---- set: eviction and expiry ----

  /** How many of the oldest keys the eviction loop removes before storing a key. */
  function EvictCount(size: nat, maxsize: int): (n: nat)
    requires maxsize >= 1
    ensures n <= size
    ensures size - n < maxsize
    ensures n > 0 ==> size - n == maxsize - 1
  {
    if size >= maxsize then size - maxsize + 1 else 0
  }

  /** `time.time() + (ttl or self._default_ttl)`: a missing or zero ttl uses the default. */
  function Expiry(now: real, ttl: Option<int>, defaultTtl: int): (e: real)
    ensures ttl == None || ttl == Some(0) ==> e == now + defaultTtl as real
    ensures ttl.Some? && ttl.value != 0 ==> e == now + ttl.value as real
  {
    if ttl.None? || ttl.value == 0 then now + defaultTtl as real else now + ttl.value as real
  }

  /** The key order after `set`: evict the oldest keys, then store the key as the most recent. */
  function SetOrder(order: seq<string>, key: string, maxsize: int): seq<string>
    requires maxsize >= 1
  {
    MoveToEnd(order[EvictCount(|order|, maxsize)..], key)
  }

  /** After `set` the cache holds at most `maxsize` keys, the stored key among them. */
  lemma SetBounded(order: seq<string>, key: string, maxsize: int)
    requires maxsize >= 1 && NoDup(order)
    ensures NoDup(SetOrder(order, key, maxsize))
    ensures |SetOrder(order, key, maxsize)| <= maxsize
    ensures key in SetOrder(order, key, maxsize)
  {
    var kept := order[EvictCount(|order|, maxsize)..];
    NoDupSuffix(order, EvictCount(|order|, maxsize));
    MoveToEndKeys(kept, key);
    MoveToEndLength(kept, key);
  }

  /**
   * Storing a key the full cache already holds still evicts the oldest key
   * first, so the cache shrinks by one.
   */
  lemma SetExistingWhenFullShrinks(order: seq<string>, key: string, maxsize: int)
    requires maxsize >= 1 && NoDup(order) && |order| == maxsize
    requires key in order[1..]
    ensures order[0] !in SetOrder(order, key, maxsize)
    ensures |SetOrder(order, key, maxsize)| == maxsize - 1
  {
    var kept := order[1..];
    NoDupSuffix(order, 1);
    NoDupFront(order);
    MoveToEndKeys(kept, key);
    MoveToEndLength(kept, key);
    assert order[0] !in KeySet(SetOrder(order, key, maxsize));
  }

  /** Storing a key in both maps and moving it to the end keeps the three in step. */
  lemma StoreKeepsKeys<V>(order: seq<string>, values: map<string, V>, ttls: map<string, real>,
                          key: string, value: V, expiry: real)
    requires NoDup(order) && values.Keys == KeySet(order) && ttls.Keys == KeySet(order)
    ensures NoDup(MoveToEnd(order, key))
    ensures values[key := value].Keys == KeySet(MoveToEnd(order, key))
    ensures ttls[key := expiry].Keys == KeySet(MoveToEnd(order, key))
  {
    MoveToEndKeys(order, key);
    assert values[key := value].Keys == values.Keys + {key};
    assert ttls[key := expiry].Keys == ttls.Keys + {key};
  }

  datatype CacheStats = CacheStats(size: nat, maxsize: int, hits: nat, misses: nat, hitRate: real)

  /** `round(hits / total * 100, 1) if total > 0 else 0`, before rounding. */
  function HitRate(hits: nat, misses: nat): (r: real)
    ensures 0.0 <= r <= 100.0
    ensures hits + misses == 0 ==> r == 0.0
    ensures misses == 0 && hits > 0 ==> r == 100.0
  {
    if hits + misses > 0 then
      var t := (hits + misses) as real;
      assert (hits as real) / t <= 1.0;
      (hits as real) / t * 100.0
    else 0.0
  }

  /** `TTLCache`: values of type `V` under string keys. */
  class TTLCache<V> {
    var order: seq<string>
    var values: map<string, V>
    var ttls: map<string, real>
    var maxsize: int
    var defaultTtl: int
    var hits: nat
    var misses: nat

    /** The ordered dictionary and the expiry map hold the same keys, each once. */
    predicate Valid()
      reads this
    {
      NoDup(order) && values.Keys == KeySet(order) && ttls.Keys == KeySet(order)
    }

    constructor(maxsize: int, defaultTtl: int)
      ensures Valid()
      ensures order == [] && values == map[] && ttls == map[]
      ensures this.maxsize == maxsize && this.defaultTtl == defaultTtl
      ensures hits == 0 && misses == 0
    {
      order := [];
      values := map[];
      ttls := map[];
      this.maxsize := maxsize;
      this.defaultTtl := defaultTtl;
      hits := 0;
      misses := 0;
    }

    /** `_delete`: drops the key from both maps if present. */
    method Delete(key: string)
      requires Valid()
      modifies this
      ensures Valid()
      ensures order == FilterOut(old(order), {key})
      ensures values == old(values) - {key} && ttls == old(ttls) - {key}
      ensures maxsize == old(maxsize) && defaultTtl == old(defaultTtl)
      ensures hits == old(hits) && misses == old(misses)
    {
      FilterOutKeys(order, {key});
      FilterOutNoDup(order, {key});
      order := FilterOut(order, {key});
      values := values - {key};
      ttls := ttls - {key};
    }

    /**
     * `get`: a miss for an absent or expired key (the expired one is removed);
     * a hit moves the key to the most recent end.
     */
    method Get(key: string, now: real) returns (r: Option<V>)
      requires Valid()
      modifies this
      ensures Valid()
      ensures maxsize == old(maxsize) && defaultTtl == old(defaultTtl)
      ensures key !in old(values) ==>
        r == None && misses == old(misses) + 1 && hits == old(hits) &&
        order == old(order) && values == old(values) && ttls == old(ttls)
      ensures key in old(values) && now > old(ttls)[key] ==>
        r == None && misses == old(misses) + 1 && hits == old(hits) &&
        order == FilterOut(old(order), {key}) &&
        values == old(values) - {key} && ttls == old(ttls) - {key}
      ensures key in old(values) && now <= old(ttls)[key] ==>
        r == Some(old(values)[key]) && hits == old(hits) + 1 && misses == old(misses) &&
        order == MoveToEnd(old(order), key) && values == old(values) && ttls == old(ttls)
    {
      if key !in values {
        misses := misses + 1;
        return None;
      }
      if now > ttls[key] {
        Delete(key);
        misses := misses + 1;
        return None;
      }
      MoveToEndKeys(order, key);
      order := MoveToEnd(order, key);
      hits := hits + 1;
      r := Some(values[key]);
    }

    /**
     * The eviction loop of `set`: drops the oldest key while the cache is
     * full. With `maxsize <= 0` it empties the cache and `next(iter(...))` on
     * the empty dictionary raises: `raised`.
     */
    method Evict() returns (raised: bool)
      requires Valid()
      modifies this
      ensures Valid()
      ensures maxsize == old(maxsize) && defaultTtl == old(defaultTtl)
      ensures hits == old(hits) && misses == old(misses)
      ensures raised <==> maxsize <= 0
      ensures raised ==> order == [] && values == map[] && ttls == map[]
      ensures !raised ==>
        var n := EvictCount(|old(order)|, maxsize);
        order == old(order)[n..] &&
        values == old(values) - KeySet(old(order)[..n]) &&
        ttls == old(ttls) - KeySet(old(order)[..n])
    {
      ghost var n := 0;
      while |order| >= maxsize
        invariant Valid()
        invariant maxsize == old(maxsize) && defaultTtl == old(defaultTtl)
        invariant hits == old(hits) && misses == old(misses)
        invariant 0 <= n <= |old(order)| && order == old(order)[n..]
        invariant n > 0 ==> |order| + 1 >= maxsize
        invariant values == old(values) - KeySet(old(order)[..n])
        invariant ttls == old(ttls) - KeySet(old(order)[..n])
        decreases |order|
      {
        if order == [] {
          assert values.Keys == {};
          return true;
        }
        DropOldest(old(order), old(values), old(ttls), n);
        n := n + 1;
      }
      if maxsize <= 0 {
        assert false;
      }
      raised := false;
    }

    /** One step of the eviction loop: `_delete` on the oldest key. */
    method DropOldest(ghost order0: seq<string>, ghost values0: map<string, V>, ghost ttls0: map<string, real>,
                      ghost n: nat)
      requires Valid() && n < |order0| && order == order0[n..]
      requires values == values0 - KeySet(order0[..n]) && ttls == ttls0 - KeySet(order0[..n])
      modifies this
      ensures Valid() && order == order0[n + 1..]
      ensures values == values0 - KeySet(order0[..n + 1]) && ttls == ttls0 - KeySet(order0[..n + 1])
      ensures maxsize == old(maxsize) && defaultTtl == old(defaultTtl)
      ensures hits == old(hits) && misses == old(misses)
    {
      FilterOutFront(order);
      KeySetPrefix(order0, n);
      MapMinusTwice(values0, KeySet(order0[..n]), {order[0]});
      MapMinusTwice(ttls0, KeySet(order0[..n]), {order[0]});
      Delete(order[0]);
    }

    /**
     * `set`: evicts the oldest keys while the cache is full, then stores the
     * value as the most recent key; raises when `maxsize <= 0`.
     */
    method Set(key: string, value: V, ttl: Option<int>, now: real) returns (raised: bool)
      requires Valid()
      modifies this
      ensures Valid()
      ensures maxsize == old(maxsize) && defaultTtl == old(defaultTtl)
      ensures hits == old(hits) && misses == old(misses)
      ensures raised <==> maxsize <= 0
      ensures raised ==> order == [] && values == map[] && ttls == map[]
      ensures !raised ==>
        var evicted := KeySet(old(order)[..EvictCount(|old(order)|, maxsize)]);
        order == SetOrder(old(order), key, maxsize) &&
        values == (old(values) - evicted)[key := value] &&
        ttls == (old(ttls) - evicted)[key := Expiry(now, ttl, defaultTtl)]
    {
      raised := Evict();
      if !raised {
        Store(key, value, Expiry(now, ttl, defaultTtl));
      }
    }

    /** The assignment in `set` after eviction: the key is stored as the most recent one. */
    method Store(key: string, value: V, expiry: real)
      requires Valid()
      modifies this
      ensures Valid()
      ensures order == MoveToEnd(old(order), key)
      ensures values == old(values)[key := value] && ttls == old(ttls)[key := expiry]
      ensures maxsize == old(maxsize) && defaultTtl == old(defaultTtl)
      ensures hits == old(hits) && misses == old(misses)
    {
      StoreKeepsKeys(order, values, ttls, key, value, expiry);
      values := values[key := value];
      ttls := ttls[key := expiry];
      order := MoveToEnd(order, key);
    }

    /** `clear`: both maps emptied; the counters are kept. */
    method Clear()
      modifies this
      ensures Valid()
      ensures order == [] && values == map[] && ttls == map[]
      ensures maxsize == old(maxsize) && defaultTtl == old(defaultTtl)
      ensures hits == old(hits) && misses == old(misses)
    {
      order := [];
      values := map[];
      ttls := map[];
    }

    /** The entries of `order0`, `values0` and `ttls0` without the keys `gone`. */
    ghost predicate Without(order0: seq<string>, values0: map<string, V>, ttls0: map<string, real>, gone: set<string>)
      reads this
    {
      order == FilterOut(order0, gone) && values == values0 - gone && ttls == ttls0 - gone
    }

    /** One step of the deletion loop: one more key gone. */
    method DeleteNext(ghost order0: seq<string>, ghost values0: map<string, V>, ghost ttls0: map<string, real>,
                      ghost gone: set<string>, key: string)
      requires Valid() && Without(order0, values0, ttls0, gone)
      modifies this
      ensures Valid() && Without(order0, values0, ttls0, gone + {key})
      ensures maxsize == old(maxsize) && defaultTtl == old(defaultTtl)
      ensures hits == old(hits) && misses == old(misses)
    {
      FilterOutTwice(order0, gone, {key});
      MapMinusTwice(values0, gone, {key});
      MapMinusTwice(ttls0, gone, {key});
      Delete(key);
    }

    /** The deletion loop of `invalidate_pattern`: `_delete` on every key of `keys`, in order. */
    method DeleteKeys(keys: seq<string>)
      requires Valid()
      modifies this
      ensures Valid()
      ensures order == FilterOut(old(order), KeySet(keys))
      ensures values == old(values) - KeySet(keys) && ttls == old(ttls) - KeySet(keys)
      ensures maxsize == old(maxsize) && defaultTtl == old(defaultTtl)
      ensures hits == old(hits) && misses == old(misses)
    {
      assert KeySet(keys[..0]) == {};
      FilterOutNone(order);
      for i := 0 to |keys|
        invariant Valid() && Without(old(order), old(values), old(ttls), KeySet(keys[..i]))
        invariant maxsize == old(maxsize) && defaultTtl == old(defaultTtl)
        invariant hits == old(hits) && misses == old(misses)
      {
        KeySetPrefix(keys, i);
        DeleteNext(old(order), old(values), old(ttls), KeySet(keys[..i]), keys[i]);
      }
      assert keys[..|keys|] == keys;
    }

    /** `invalidate_pattern`: removes every key containing `pattern` and counts them. */
    method InvalidatePattern(pattern: string) returns (count: nat)
      requires Valid()
      modifies this
      ensures Valid()
      ensures order == NotMatching(old(order), pattern)
      ensures count == |Matching(old(order), pattern)|
      ensures count + |order| == |old(order)|
      ensures values == old(values) - KeySet(Matching(old(order), pattern))
      ensures ttls == old(ttls) - KeySet(Matching(old(order), pattern))
      ensures maxsize == old(maxsize) && defaultTtl == old(defaultTtl)
      ensures hits == old(hits) && misses == old(misses)
    {
      var keysToDelete := Matching(order, pattern);
      MatchingSplit(order, pattern);
      FilterOutMatching(order, pattern, KeySet(keysToDelete));
      DeleteKeys(keysToDelete);
      count := |keysToDelete|;
    }

    /** `stats` */
    function Stats(): (s: CacheStats)
      reads this
      requires Valid()
      ensures s.size == |values| && s.hits == hits && s.misses == misses
      ensures 0.0 <= s.hitRate <= 100.0
    {
      NoDupCard(order);
      CacheStats(|order|, maxsize, hits, misses, HitRate(hits, misses))
    }
  }

  /**
   * The `cached` wrapper for one call: `computed` is what the wrapped function
   * returns when it runs. A live cached value is returned without using it;
   * otherwise a non-None result is stored under the key.
   */
  method CachedCall<V>(cache: TTLCache<V>, key: string, ttl: Option<int>, now: real, computed: Option<V>)
    returns (r: Option<V>)
    requires cache.Valid()
    modifies cache
    ensures cache.Valid()
    ensures key in old(cache.values) && now <= old(cache.ttls)[key] ==> r == Some(old(cache.values)[key])
    ensures !(key in old(cache.values) && now <= old(cache.ttls)[key]) ==> r == computed
    ensures !(key in old(cache.values) && now <= old(cache.ttls)[key]) && computed.Some? && cache.maxsize >= 1 ==>
      key in cache.values && cache.values[key] == computed.value
  {
    r := cache.Get(key, now);
    if r.Some? {
      return r;
    }
    r := computed;
    if r.Some? {
      var _ := cache.Set(key, r.value, ttl, now);
    }
  }

  /** `invalidate_stock_cache`: by pattern for a symbol, else the whole cache and -1. */
  method InvalidateStockCache<V>(cache: TTLCache<V>, symbol: string) returns (n: int)
    requires cache.Valid()
    modifies cache
    ensures cache.Valid()
    ensures symbol == "" ==> n == -1 && cache.order == []
    ensures symbol != "" ==>
      n == |Matching(old(cache.order), symbol)| && cache.order == NotMatching(old(cache.order), symbol)
  {
    if symbol != "" {
      n := cache.InvalidatePattern(symbol);
    } else {
      cache.Clear();
      n := -1;
    }
  }
}
