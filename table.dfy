/**
 * A SQLite table as the sequence of its rows in rowid order, with a UNIQUE
 * constraint given by a key function. `INSERT OR REPLACE` deletes the row
 * whose key conflicts and inserts the new row with a fresh rowid, i.e. last.
 */
module Table {
  import opened Base

  /** The UNIQUE constraint: no two rows share a key. */
  predicate UniqueKeys<T(!new), K(==)>(rows: seq<T>, key: T -> K) {
    forall i, j :: 0 <= i < j < |rows| ==> key(rows[i]) != key(rows[j])
  }

  /** `DELETE FROM t WHERE <key> = k` */
  function Without<T(!new), K(==)>(rows: seq<T>, key: T -> K, k: K): (r: seq<T>)
    ensures forall h :: h in r <==> h in rows && key(h) != k
  {
    Filter(rows, (h: T) => key(h) != k)
  }

  /** Deleting rows keeps the other rows in their order and the keys unique. */
  lemma WithoutUnique<T(!new), K>(rows: seq<T>, key: T -> K, k: K)
    requires UniqueKeys(rows, key)
    ensures UniqueKeys(Without(rows, key, k), key)
    ensures IsSubsequence(Without(rows, key, k), rows)
  {
    FilterIsSubsequence(rows, (h: T) => key(h) != k);
    WithoutUniqueKeys(rows, key, k);
  }

  lemma {:induction false} WithoutUniqueKeys<T(!new), K>(rows: seq<T>, key: T -> K, k: K)
    requires UniqueKeys(rows, key)
    ensures UniqueKeys(Without(rows, key, k), key)
    decreases |rows|
  {
    if rows != [] {
      var init, last := rows[..|rows| - 1], rows[|rows| - 1];
      assert UniqueKeys(init, key);
      WithoutUniqueKeys(init, key, k);
      var r0 := Without(init, key, k);
      if key(last) != k {
        assert Without(rows, key, k) == r0 + [last];
        forall i | 0 <= i < |r0| ensures key(r0[i]) != key(last) {
          assert r0[i] in init;
          var m :| 0 <= m < |init| && init[m] == r0[i];
          assert rows[m] == r0[i];
        }
      }
    }
  }

  /** `INSERT OR REPLACE INTO t VALUES (row)` */
  function Upsert<T(!new), K(==)>(rows: seq<T>, key: T -> K, row: T): seq<T> {
    Without(rows, key, key(row)) + [row]
  }

  /**
   * After the upsert the key has exactly the new row, every row with another
   * key is kept, and nothing else is added.
   */
  lemma UpsertReplaces<T(!new), K>(rows: seq<T>, key: T -> K, row: T)
    requires UniqueKeys(rows, key)
    ensures UniqueKeys(Upsert(rows, key, row), key)
    ensures row in Upsert(rows, key, row)
    ensures forall h :: h in Upsert(rows, key, row) && key(h) == key(row) ==> h == row
    ensures forall h :: h in rows && key(h) != key(row) ==> h in Upsert(rows, key, row)
    ensures forall h :: h in Upsert(rows, key, row) ==> h == row || h in rows
  {
    WithoutUnique(rows, key, key(row));
    var w := Without(rows, key, key(row));
    forall i | 0 <= i < |w| ensures key(w[i]) != key(row) {
      assert w[i] in w;
    }
  }

  /** `SELECT ... WHERE <key> = k`: the row holding key `k`, if any. */
  function Find<T(!new), K(==)>(rows: seq<T>, key: T -> K, k: K): (r: Option<T>)
    ensures r.Some? ==> r.value in rows && key(r.value) == k
    ensures r.None? ==> forall h :: h in rows ==> key(h) != k
  {
    if rows == [] then None
    else if key(rows[|rows| - 1]) == k then Some(rows[|rows| - 1])
    else Find(rows[..|rows| - 1], key, k)
  }

  /** Under the UNIQUE constraint the lookup finds the one row holding the key. */
  lemma {:induction false} FindUnique<T(!new), K>(rows: seq<T>, key: T -> K, h: T)
    requires UniqueKeys(rows, key) && h in rows
    ensures Find(rows, key, key(h)) == Some(h)
    decreases |rows|
  {
    var init, last := rows[..|rows| - 1], rows[|rows| - 1];
    if h != last {
      assert rows == init + [last];
      assert h in init;
      var m :| 0 <= m < |init| && init[m] == h;
      assert key(last) != key(h) by {
        assert rows[m] == h;
      }
      assert UniqueKeys(init, key);
      FindUnique(init, key, h);
    }
  }

  /** Lookup ignores the deletion of another key. */
  lemma {:induction false} FindWithout<T(!new), K>(rows: seq<T>, key: T -> K, gone: K, k: K)
    requires k != gone
    ensures Find(Without(rows, key, gone), key, k) == Find(rows, key, k)
    decreases |rows|
  {
    if rows != [] {
      var init, last := rows[..|rows| - 1], rows[|rows| - 1];
      FindWithout(init, key, gone, k);
      if key(last) != gone {
        assert Without(rows, key, gone) == Without(init, key, gone) + [last];
      }
    }
  }

  /** After an upsert the new row answers for its key and every other key answers as before. */
  lemma FindUpsert<T(!new), K>(rows: seq<T>, key: T -> K, row: T, k: K)
    ensures Find(Upsert(rows, key, row), key, k) == if key(row) == k then Some(row) else Find(rows, key, k)
  {
    if key(row) != k {
      var w := Without(rows, key, key(row));
      assert (w + [row])[..|w|] == w;
      FindWithout(rows, key, key(row), k);
    }
  }

  /** A batch of `INSERT OR REPLACE` statements, in order. */
  function UpsertAll<T(!new), K(==)>(rows: seq<T>, key: T -> K, batch: seq<T>): seq<T>
    decreases |batch|
  {
    if batch == [] then rows
    else Upsert(UpsertAll(rows, key, batch[..|batch| - 1]), key, batch[|batch| - 1])
  }

  lemma UpsertAllSnoc<T(!new), K>(rows: seq<T>, key: T -> K, batch: seq<T>, row: T)
    ensures UpsertAll(rows, key, batch + [row]) == Upsert(UpsertAll(rows, key, batch), key, row)
  {
    assert (batch + [row])[..|batch|] == batch;
  }

  /**
   * After a batch the keys stay unique; a key the batch wrote holds the
   * batch's last row for it, and any other key holds what it held before.
   */
  lemma {:induction false} UpsertAllFind<T(!new), K>(rows: seq<T>, key: T -> K, batch: seq<T>)
    requires UniqueKeys(rows, key)
    ensures UniqueKeys(UpsertAll(rows, key, batch), key)
    ensures forall k :: Find(batch, key, k).Some? ==> Find(UpsertAll(rows, key, batch), key, k) == Find(batch, key, k)
    ensures forall k :: Find(batch, key, k).None? ==> Find(UpsertAll(rows, key, batch), key, k) == Find(rows, key, k)
    decreases |batch|
  {
    if batch != [] {
      var init, last := batch[..|batch| - 1], batch[|batch| - 1];
      UpsertAllFind(rows, key, init);
      var u := UpsertAll(rows, key, init);
      UpsertReplaces(u, key, last);
      forall k ensures Find(UpsertAll(rows, key, batch), key, k) == if key(last) == k then Some(last) else Find(u, key, k) {
        FindUpsert(u, key, last, k);
      }
    }
  }
}
