/** What the cache operations guarantee, stated over the abstract store. */
module CacheProps {
  import opened Wrappers
  import opened CacheIndex
  import opened Cache

  /** `remove` drops the index entry exactly when the unlink succeeds, and only that entry. */
  lemma RemoveOnlyAfterUnlink(c: Config, st: Store, key: string)
    ensures var r := RemoveSpec(c, st, key);
            && (Removable(c, st, key) ==> r.items == Without(st.items, {key}) && Lookup(r.items, key).None?
                                            && r.blobs == st.blobs - {key})
            && (!Removable(c, st, key) ==> r == st)
  {
  }

  /** Every blob in `kept` was in `blobs`, with the same bytes. */
  ghost predicate BlobsKept(kept: map<string, Bytes>, blobs: map<string, Bytes>)
  {
    forall k :: k in kept ==> k in blobs && kept[k] == blobs[k]
  }

  lemma BlobsKeptTransitive(a: map<string, Bytes>, b: map<string, Bytes>, c: map<string, Bytes>)
    requires BlobsKept(a, b) && BlobsKept(b, c)
    ensures BlobsKept(a, c)
  {
  }

  /** In a healthy store `remove` takes out the entry, and the store stays healthy. */
  lemma {:induction false} RemoveKeepsHealthy(c: Config, st: Store, key: string)
    requires Healthy(c, st)
    ensures Healthy(c, RemoveSpec(c, st, key))
    ensures RemoveSpec(c, st, key).items == Without(st.items, {key})
    ensures BlobsKept(RemoveSpec(c, st, key).blobs, st.blobs)
  {
    if !Removable(c, st, key) {
      WithoutNothing(st.items, {key});
    }
  }

  /** An absent key is a miss that changes nothing. */
  lemma GetAbsent(c: Config, st: Store, key: string, now: int)
    requires key !in KeySet(st.items)
    ensures GetSpec(c, st, key, now) == (None, st)
  {
  }

  /** An expired entry is never served; in a healthy store it is gone afterwards. */
  lemma GetExpired(c: Config, st: Store, key: string, now: int)
    requires Lookup(st.items, key).Some? && Expired(Lookup(st.items, key).value, now, c.maxAge)
    ensures GetSpec(c, st, key, now).0.None?
    ensures Healthy(c, st) ==> Lookup(GetSpec(c, st, key, now).1.items, key).None?
  {
  }

  /** A fresh entry whose blob can be read is served unchanged, and nothing changes. */
  lemma GetFresh(c: Config, st: Store, key: string, now: int)
    requires Lookup(st.items, key).Some? && !Expired(Lookup(st.items, key).value, now, c.maxAge)
    requires Readable(c, st, key)
    ensures GetSpec(c, st, key, now) == (Some(st.blobs[key]), st)
  {
  }

  /**
   * A fresh entry whose blob is missing or unreadable is a miss. When the
   * unlink then succeeds, the entry and its blob are gone; when it fails
   * (a missing blob cannot be unlinked), nothing changes and the entry
   * stays in the index: every later `get` misses again until it expires or
   * is overwritten.
   */
  lemma GetUnreadable(c: Config, st: Store, key: string, now: int)
    requires Lookup(st.items, key).Some? && !Expired(Lookup(st.items, key).value, now, c.maxAge)
    requires !Readable(c, st, key)
    ensures GetSpec(c, st, key, now).0.None?
    ensures Removable(c, st, key) ==> var r := GetSpec(c, st, key, now).1;
              && Lookup(r.items, key).None? && key !in r.blobs
              && r.items == Without(st.items, {key})
    ensures !Removable(c, st, key) ==> GetSpec(c, st, key, now).1 == st
                                        && Lookup(GetSpec(c, st, key, now).1.items, key).Some?
  {
  }

  /** Removing the front key, then the keys of the next `m` items, removes the keys of the first `m + 1`. */
  lemma WithoutFrontStep(items: seq<Item>, pending: seq<Item>, m: nat)
    requires m < |pending|
    ensures Without(Without(items, {pending[0].key}), KeySet(pending[1..][..m])) == Without(items, KeySet(pending[..m + 1]))
  {
    var rest := pending[1..][..m];
    assert pending[..m + 1] == [pending[0]] + rest;
    assert ([pending[0]] + rest)[1..] == rest;
    assert KeySet(pending[..m + 1]) == {pending[0].key} + KeySet(rest);
    WithoutTwice(items, {pending[0].key}, KeySet(rest));
  }

  /**
   * The eviction loop over `pending` from `st` keeps the store healthy,
   * removes the keys of the first `EvictCount` pending items and nothing
   * else, and leaves every remaining blob as it was.
   */
  ghost predicate EvictsPrefix(c: Config, st: Store, pending: seq<Item>, total: int)
  {
    var r := EvictLoop(c, st, pending, total);
    && Healthy(c, r)
    && r.items == Without(st.items, KeySet(pending[..EvictCount(pending, total, c.maxSize)]))
    && BlobsKept(r.blobs, st.blobs)
  }

  /** One eviction, followed by a loop that evicts a prefix of the rest, evicts a prefix. */
  lemma EvictLoopStep(c: Config, st: Store, pending: seq<Item>, total: int)
    requires Healthy(c, st) && pending != [] && total > c.maxSize
    requires EvictsPrefix(c, RemoveSpec(c, st, pending[0].key), pending[1..], total - pending[0].entry.size)
    ensures EvictsPrefix(c, st, pending, total)
  {
    var x := pending[0];
    var rest := pending[1..];
    var st' := RemoveSpec(c, st, x.key);
    var m := EvictCount(rest, total - x.entry.size, c.maxSize);
    var r := EvictLoop(c, st', rest, total - x.entry.size);
    assert EvictLoop(c, st, pending, total) == r;
    assert EvictCount(pending, total, c.maxSize) == m + 1;
    RemoveKeepsHealthy(c, st, x.key);
    WithoutFrontStep(st.items, pending, m);
    BlobsKeptTransitive(r.blobs, st'.blobs, st.blobs);
  }

  /**
   * The eviction loop in a healthy store removes the keys of the first
   * `EvictCount` pending items and nothing else, and keeps the store healthy.
   */
  lemma {:induction false} EvictLoopRemovesPrefix(c: Config, st: Store, pending: seq<Item>, total: int)
    requires Healthy(c, st)
    ensures EvictsPrefix(c, st, pending, total)
    decreases |pending|
  {
    if total <= c.maxSize || pending == [] {
      assert pending[..EvictCount(pending, total, c.maxSize)] == [];
      WithoutNothing(st.items, {});
    } else {
      RemoveKeepsHealthy(c, st, pending[0].key);
      EvictLoopRemovesPrefix(c, RemoveSpec(c, st, pending[0].key), pending[1..], total - pending[0].entry.size);
      EvictLoopStep(c, st, pending, total);
    }
  }

  /** `a` and `b` hold the same items. */
  ghost predicate SameMembers(a: seq<Item>, b: seq<Item>)
  {
    forall x :: x in a <==> x in b
  }

  /** The pending items are exactly the indexed ones; one eviction step keeps that so. */
  lemma EvictStepMembers(items: seq<Item>, pending: seq<Item>)
    requires DistinctKeys(pending) && pending != []
    requires SameMembers(pending, items)
    ensures SameMembers(pending[1..], Without(items, {pending[0].key}))
  {
    var rest := pending[1..];
    forall y
      ensures y in rest <==> y in Without(items, {pending[0].key})
    {
      WithoutMember(items, {pending[0].key}, y);
      if y in rest {
        var j :| 0 <= j < |rest| && rest[j] == y;
        DistinctAt(pending, 0, j + 1);
      }
      if y in Without(items, {pending[0].key}) {
        var j :| 0 <= j < |pending| && pending[j] == y;
        assert j != 0;
        assert rest[j - 1] == y;
      }
    }
  }

  /**
   * Removing the keys of `evicted` from the index leaves a total within
   * `maxSize`, and the last of them was still needed to get there.
   */
  ghost predicate JustEnough(items: seq<Item>, evicted: seq<Item>, maxSize: int)
  {
    var kept := Without(items, KeySet(evicted));
    && Total(kept) <= maxSize
    && (evicted != [] ==> Total(kept) + evicted[|evicted| - 1].entry.size > maxSize)
  }

  /**
   * Evicting the front pending item keeps the premises of `EvictReachesBound`
   * for the rest, and takes its size off the total.
   */
  lemma EvictStepKeeps(items: seq<Item>, pending: seq<Item>)
    requires DistinctKeys(items) && DistinctKeys(pending) && pending != []
    requires SameMembers(pending, items)
    ensures var items' := Without(items, {pending[0].key});
            && DistinctKeys(items') && DistinctKeys(pending[1..]) && SameMembers(pending[1..], items')
            && Total(items') == Total(items) - pending[0].entry.size
  {
    assert pending[0] in items;
    TotalWithoutMember(items, pending[0]);
    EvictStepMembers(items, pending);
  }

  /** With nothing to evict, or a total already within the bound, evicting nothing is just enough. */
  lemma EvictedNoneJustEnough(items: seq<Item>, pending: seq<Item>, maxSize: int)
    requires SameMembers(pending, items) && maxSize >= 0
    requires Total(items) <= maxSize || pending == []
    ensures JustEnough(items, [], maxSize)
  {
    if items != [] {
      assert items[0] in items;
    }
    WithoutNothing(items, {});
  }

  /** Evicting the front item, then `m` more that were just enough, evicts `m + 1` that were just enough. */
  lemma EvictedJustEnoughStep(items: seq<Item>, pending: seq<Item>, m: nat, maxSize: int)
    requires m < |pending|
    requires JustEnough(Without(items, {pending[0].key}), pending[1..][..m], maxSize)
    requires m == 0 ==> Total(Without(items, {pending[0].key})) + pending[0].entry.size > maxSize
    ensures JustEnough(items, pending[..m + 1], maxSize)
  {
    var items' := Without(items, {pending[0].key});
    WithoutFrontStep(items, pending, m);
    if m > 0 {
      assert pending[m] == pending[1..][m - 1];
    } else {
      assert pending[1..][..0] == [];
      WithoutNothing(items', {});
    }
  }

  /**
   * Evicting, from an index with distinct keys, the first `EvictCount` items
   * of a duplicate-free list holding exactly the index's items leaves a total
   * within the bound, and the last item evicted was still needed to get there.
   */
  lemma {:induction false} EvictReachesBound(items: seq<Item>, pending: seq<Item>, total: int, maxSize: int)
    requires DistinctKeys(items) && DistinctKeys(pending) && maxSize >= 0
    requires SameMembers(pending, items)
    requires total == Total(items)
    ensures JustEnough(items, pending[..EvictCount(pending, total, maxSize)], maxSize)
    decreases |pending|
  {
    var n := EvictCount(pending, total, maxSize);
    if total <= maxSize || pending == [] {
      EvictedNoneJustEnough(items, pending, maxSize);
      assert pending[..n] == [];
    } else {
      var x := pending[0];
      var rest := pending[1..];
      var m := EvictCount(rest, total - x.entry.size, maxSize);
      assert n == m + 1;
      var items' := Without(items, {x.key});
      EvictStepKeeps(items, pending);
      EvictReachesBound(items', rest, total - x.entry.size, maxSize);
      EvictedJustEnoughStep(items, pending, m, maxSize);
    }
  }

  /**
   * `enforceMaxSize` on a healthy store: a no-op within the bound; otherwise
   * it evicts the oldest entries until the total is within the bound, and
   * of an evicted and a kept entry with one timestamp the evicted one came
   * first in the index; it keeps every other entry unchanged, and the last
   * entry it evicted was still needed.
   */
  lemma EnforceEvictsOldestFirst(c: Config, st: Store)
    requires Healthy(c, st) && c.maxSize >= 0
    ensures var r := EnforceSpec(c, st);
            var ev := Evicted(c, st.items);
            && Healthy(c, r)
            && Total(r.items) <= c.maxSize
            && r.items == Without(st.items, KeySet(ev))
            && (forall a, b :: a in ev && b in r.items ==> a.entry.timestamp <= b.entry.timestamp)
            && (forall a, b :: a in ev && b in r.items && a.entry.timestamp == b.entry.timestamp ==>
                                 Before(st.items, a, b))
            && (ev != [] ==> Total(r.items) + ev[|ev| - 1].entry.size > c.maxSize)
            && (Total(st.items) <= c.maxSize ==> r == st)
            && BlobsKept(r.blobs, st.blobs)
  {
    if Total(st.items) > c.maxSize {
      EnforceKeeps(c, st);
      EnforceBound(c, st);
      EnforceOldest(c, st);
      EnforceTies(c, st);
    } else {
      WithoutNothing(st.items, {});
    }
  }

  /** The sorted copy of a healthy index holds exactly its items, without repeated keys. */
  lemma SortedCopy(c: Config, st: Store)
    requires Healthy(c, st)
    ensures var sorted := SortByTime(st.items);
            && SortedByTime(sorted) && DistinctKeys(sorted) && multiset(sorted) == multiset(st.items)
            && SameMembers(sorted, st.items)
  {
    var sorted := SortByTime(st.items);
    SortByTimeKeys(st.items);
    SortByTimeSorted(st.items);
    forall y
      ensures y in sorted <==> y in st.items
    {
      assert y in sorted <==> y in multiset(sorted);
    }
  }

  /** Over the bound, `enforceMaxSize` removes exactly the evicted keys and keeps the store healthy. */
  lemma EnforceKeeps(c: Config, st: Store)
    requires Healthy(c, st) && Total(st.items) > c.maxSize
    ensures var r := EnforceSpec(c, st);
            && Healthy(c, r)
            && r.items == Without(st.items, KeySet(Evicted(c, st.items)))
            && BlobsKept(r.blobs, st.blobs)
  {
    var sorted := SortByTime(st.items);
    var total := Total(st.items);
    assert EnforceSpec(c, st) == EvictLoop(c, st, sorted, total);
    assert Evicted(c, st.items) == sorted[..EvictCount(sorted, total, c.maxSize)];
    EvictLoopRemovesPrefix(c, st, sorted, total);
  }

  /** Over the bound, the total ends within it and the last eviction was still needed. */
  lemma EnforceBound(c: Config, st: Store)
    requires Healthy(c, st) && c.maxSize >= 0 && Total(st.items) > c.maxSize
    ensures var r := EnforceSpec(c, st);
            var ev := Evicted(c, st.items);
            && Total(r.items) <= c.maxSize
            && (ev != [] ==> Total(r.items) + ev[|ev| - 1].entry.size > c.maxSize)
  {
    var sorted := SortByTime(st.items);
    var total := Total(st.items);
    var n := EvictCount(sorted, total, c.maxSize);
    var ev := Evicted(c, st.items);
    assert ev == sorted[..n];
    assert EnforceSpec(c, st).items == Without(st.items, KeySet(ev)) by {
      EnforceKeeps(c, st);
    }
    assert JustEnough(st.items, ev, c.maxSize) by {
      SortedCopy(c, st);
      EvictReachesBound(st.items, sorted, total, c.maxSize);
    }
  }

  /** Over the bound, no evicted entry is newer than any entry kept. */
  lemma EnforceOldest(c: Config, st: Store)
    requires Healthy(c, st) && Total(st.items) > c.maxSize
    ensures var r := EnforceSpec(c, st);
            forall a, b :: a in Evicted(c, st.items) && b in r.items ==> a.entry.timestamp <= b.entry.timestamp
  {
    var sorted := SortByTime(st.items);
    var total := Total(st.items);
    EnforceKeeps(c, st);
    SortedCopy(c, st);
    var n := EvictCount(sorted, total, c.maxSize);
    assert Evicted(c, st.items) == sorted[..n];
    EvictedAreOldest(st.items, sorted, n);
  }

  /** Over the bound, of an evicted and a kept entry with one timestamp, the evicted one came first in the index. */
  lemma EnforceTies(c: Config, st: Store)
    requires Healthy(c, st) && Total(st.items) > c.maxSize
    ensures var r := EnforceSpec(c, st);
            forall a, b :: a in Evicted(c, st.items) && b in r.items && a.entry.timestamp == b.entry.timestamp ==>
                             Before(st.items, a, b)
  {
    var sorted := SortByTime(st.items);
    var total := Total(st.items);
    EnforceKeeps(c, st);
    var n := EvictCount(sorted, total, c.maxSize);
    assert Evicted(c, st.items) == sorted[..n];
    EvictedTiesInIndexOrder(st.items, n);
  }

  /** Of an item taken from the front of the sorted list and one left with the same timestamp, the first came first. */
  lemma EvictedTiesInIndexOrder(items: seq<Item>, n: nat)
    requires n <= |items|
    ensures var ev := SortByTime(items)[..n];
            forall a, b :: a in ev && b in Without(items, KeySet(ev)) && a.entry.timestamp == b.entry.timestamp ==>
                             Before(items, a, b)
  {
    var sorted := SortByTime(items);
    var ev := sorted[..n];
    forall a, b | a in ev && b in Without(items, KeySet(ev)) && a.entry.timestamp == b.entry.timestamp
      ensures Before(items, a, b)
    {
      var i :| 0 <= i < n && ev[i] == a;
      WithoutMember(items, KeySet(ev), b);
      assert b in multiset(sorted);
      var j :| 0 <= j < |sorted| && sorted[j] == b;
      if j < n {
        assert b in ev;
        KeySetHasMembers(ev, b);
      }
      SortedTiesInIndexOrder(items, i, j);
    }
  }

  /** Every item taken from the front of the sorted list is no newer than any item left in the index. */
  lemma EvictedAreOldest(items: seq<Item>, sorted: seq<Item>, n: nat)
    requires SortedByTime(sorted) && DistinctKeys(sorted) && multiset(sorted) == multiset(items)
    requires n <= |sorted|
    ensures forall a, b :: a in sorted[..n] && b in Without(items, KeySet(sorted[..n]))
              ==> a.entry.timestamp <= b.entry.timestamp
  {
    var ev := sorted[..n];
    forall a, b | a in ev && b in Without(items, KeySet(ev))
      ensures a.entry.timestamp <= b.entry.timestamp
    {
      var i :| 0 <= i < n && ev[i] == a;
      WithoutMember(items, KeySet(ev), b);
      assert b in multiset(sorted);
      var j :| 0 <= j < |sorted| && sorted[j] == b;
      if j < n {
        assert b in ev;
        KeySetHasMembers(ev, b);
      }
    }
  }

  /** A `set` into a healthy store keeps it healthy. */
  lemma SetWrittenHealthy(c: Config, st: Store, key: string, data: Bytes, metadata: Option<ImageMeta>, now: int)
    requires Healthy(c, st) && Reliable(c, key)
    ensures Healthy(c, Store(Put(st.items, key, Entry(now, |data|, metadata)), st.blobs[key := data], st.persisted))
    ensures Healthy(c, Store(Put(st.items, key, Entry(now, |data|, metadata)), st.blobs[key := data],
                             Put(st.items, key, Entry(now, |data|, metadata))))
  {
  }

  /**
   * Once `set` has written blob `key`, it can be read and unlinked: either
   * no access to it fails, or the write itself fails and nothing is stored.
   */
  predicate WriteKeepsAccess(c: Config, key: string)
  {
    Reliable(c, key) || key in c.faults.unwritable
  }

  /**
   * After `set`, the total size is within `maxSize`, provided every removal
   * succeeds, the index can be written, a written blob can be read and
   * unlinked, and the bound held before (the last is only needed when the
   * blob write fails and nothing changes).
   * This holds even for a blob larger than `maxSize`, which is evicted.
   */
  lemma SetKeepsBound(c: Config, st: Store, key: string, data: Bytes, metadata: Option<ImageMeta>, now: int)
    requires Healthy(c, st) && !c.indexBroken && c.maxSize >= 0
    requires WriteKeepsAccess(c, key)
    requires key in c.faults.unwritable ==> Total(st.items) <= c.maxSize
    ensures Healthy(c, SetSpec(c, st, key, data, metadata, now))
    ensures Total(SetSpec(c, st, key, data, metadata, now).items) <= c.maxSize
  {
    if key !in c.faults.unwritable {
      var e := Entry(now, |data|, metadata);
      SetWrittenHealthy(c, st, key, data, metadata, now);
      EnforceEvictsOldestFirst(c, Store(Put(st.items, key, e), st.blobs[key := data], Put(st.items, key, e)));
    }
  }

  /** One call of `set`. */
  datatype SetCall = SetCall(key: string, data: Bytes, metadata: Option<ImageMeta>, now: int)

  function SetAll(c: Config, st: Store, calls: seq<SetCall>): Store
    decreases |calls|
  {
    if calls == [] then st
    else SetAll(c, SetSpec(c, st, calls[0].key, calls[0].data, calls[0].metadata, calls[0].now), calls[1..])
  }

  /** The bound is an invariant of any sequence of `set` calls. */
  lemma {:induction false} SetsKeepBound(c: Config, st: Store, calls: seq<SetCall>)
    requires Healthy(c, st) && !c.indexBroken && c.maxSize >= 0 && Total(st.items) <= c.maxSize
    requires forall t :: 0 <= t < |calls| ==> WriteKeepsAccess(c, calls[t].key)
    ensures Healthy(c, SetAll(c, st, calls)) && Total(SetAll(c, st, calls).items) <= c.maxSize
    decreases |calls|
  {
    if calls != [] {
      var k := calls[0];
      SetKeepsBound(c, st, k.key, k.data, k.metadata, k.now);
      assert forall t :: 0 <= t < |calls[1..]| ==> WriteKeepsAccess(c, calls[1..][t].key) by {
        forall t | 0 <= t < |calls[1..]|
          ensures WriteKeepsAccess(c, calls[1..][t].key)
        {
          assert calls[1..][t] == calls[t + 1];
        }
      }
      SetsKeepBound(c, SetSpec(c, st, k.key, k.data, k.metadata, k.now), calls[1..]);
    }
  }

  /** In a sorted list of distinct keys, an item strictly newer than all others is last. */
  lemma NewestIsLast(s: seq<Item>, x: Item)
    requires SortedByTime(s) && DistinctKeys(s) && x in s
    requires forall y :: y in s && y.key != x.key ==> y.entry.timestamp < x.entry.timestamp
    ensures s[|s| - 1] == x
  {
    var j :| 0 <= j < |s| && s[j] == x;
    var last := s[|s| - 1];
    assert last in s;
    if j < |s| - 1 {
      assert x.entry.timestamp <= last.entry.timestamp;
      DistinctAt(s, j, |s| - 1);
    }
  }

  /** An item strictly newer than every other one sorts last. */
  lemma NewestSortsLast(items: seq<Item>, x: Item)
    requires DistinctKeys(items) && x in items
    requires forall y :: y in items && y.key != x.key ==> y.entry.timestamp < x.entry.timestamp
    ensures var sorted := SortByTime(items); |sorted| > 0 && sorted[|sorted| - 1] == x
  {
    SortByTimeKeys(items);
    SortByTimeSorted(items);
    SortByTimeMembers(items);
    NewestIsLast(SortByTime(items), x);
  }

  /** The loop never evicts the last item of the list when that item alone fits in the bound. */
  lemma EvictSparesFittingLast(items: seq<Item>, pending: seq<Item>, total: int, maxSize: int)
    requires DistinctKeys(items) && DistinctKeys(pending) && maxSize >= 0
    requires SameMembers(pending, items)
    requires total == Total(items)
    requires pending != [] && pending[|pending| - 1].entry.size <= maxSize
    ensures EvictCount(pending, total, maxSize) < |pending|
  {
    var n := EvictCount(pending, total, maxSize);
    EvictReachesBound(items, pending, total, maxSize);
    assert KeySet(items) <= KeySet(pending) by {
      forall k | k in KeySet(items)
        ensures k in KeySet(pending)
      {
        KeySetHasIndex(items, k);
        var i :| 0 <= i < |items| && items[i].key == k;
        assert items[i] in pending;
        KeySetHasMembers(pending, items[i]);
      }
    }
    WithoutEverything(items, KeySet(pending));
    assert pending[..|pending|] == pending;
    if n == |pending| {
      assert false;
    }
  }

  /**
   * When eviction is needed, an item strictly newer than every other one and
   * no larger than the bound is not evicted.
   */
  lemma NewestSurvives(items: seq<Item>, x: Item, maxSize: int)
    requires DistinctKeys(items) && x in items && 0 <= x.entry.size <= maxSize
    requires forall y :: y in items && y.key != x.key ==> y.entry.timestamp < x.entry.timestamp
    requires Total(items) > maxSize
    ensures var sorted := SortByTime(items);
            x.key !in KeySet(sorted[..EvictCount(sorted, Total(items), maxSize)])
  {
    var sorted := SortByTime(items);
    var n := EvictCount(sorted, Total(items), maxSize);
    assert |sorted| > 0 && sorted[|sorted| - 1] == x && n < |sorted| && DistinctKeys(sorted) by {
      NewestSortsLast(items, x);
      SortByTimeKeys(items);
      SortByTimeMembers(items);
      EvictSparesFittingLast(items, sorted, Total(items), maxSize);
    }
    KeyNotInPrefix(sorted, |sorted| - 1, n);
  }

  /**
   * Round trip: in a healthy store with a writable index, a blob that fits
   * in `maxSize` and is newer than every entry is served by a `get` within
   * `maxAge`, even if `set` had to evict others to make room.
   */
  lemma SetThenGet(c: Config, st: Store, key: string, data: Bytes, metadata: Option<ImageMeta>,
                   now: int, later: int)
    requires Healthy(c, st) && !c.indexBroken && Reliable(c, key) && c.maxSize >= 0
    requires |data| <= c.maxSize
    requires forall x :: x in st.items ==> x.entry.timestamp < now
    requires later - now <= c.maxAge
    ensures GetSpec(c, SetSpec(c, st, key, data, metadata, now), key, later).0 == Some(data)
  {
    var e := Entry(now, |data|, metadata);
    var x := Item(key, e);
    var items1 := Put(st.items, key, e);
    var st1 := Store(items1, st.blobs[key := data], items1);
    SetWrittenHealthy(c, st, key, data, metadata, now);
    var r := SetSpec(c, st, key, data, metadata, now);
    assert r == EnforceSpec(c, st1);
    EnforceEvictsOldestFirst(c, st1);
    var ev := Evicted(c, items1);
    assert r.items == Without(items1, KeySet(ev));
    if Total(items1) > c.maxSize {
      forall y | y in items1 && y.key != key
        ensures y.entry.timestamp < now
      {
        assert y in st.items;
      }
      NewestSurvives(items1, x, c.maxSize);
    }
    assert key !in KeySet(ev);
    WithoutMember(items1, KeySet(ev), x);
    LookupMember(r.items, x);
    KeySetHasMembers(r.items, x);
    assert Readable(c, r, key);
    GetFresh(c, r, key, later);
    assert r.blobs[key] == data;
  }

  /** The keys a list names. */
  function Elements(keys: seq<string>): (r: set<string>)
    ensures forall k :: k in r <==> k in keys
  {
    if keys == [] then {} else {keys[0]} + Elements(keys[1..])
  }

  /** `remove` over a list of keys, in a healthy store, drops exactly those keys. */
  lemma {:induction false} RemoveAllHealthy(c: Config, st: Store, keys: seq<string>)
    requires Healthy(c, st)
    ensures Healthy(c, RemoveAllSpec(c, st, keys))
    ensures RemoveAllSpec(c, st, keys).items == Without(st.items, Elements(keys))
    decreases |keys|
  {
    if keys == [] {
      WithoutNothing(st.items, {});
    } else {
      var st' := RemoveSpec(c, st, keys[0]);
      RemoveKeepsHealthy(c, st, keys[0]);
      RemoveAllHealthy(c, st', keys[1..]);
      var r := RemoveAllSpec(c, st', keys[1..]);
      assert Healthy(c, r);
      assert RemoveAllSpec(c, st, keys) == r;
      WithoutTwice(st.items, {keys[0]}, Elements(keys[1..]));
      assert r.items == Without(st'.items, Elements(keys[1..]));
    }
  }

  lemma {:induction false} WithoutExpiredKeys(items: seq<Item>, now: int, maxAge: int)
    requires DistinctKeys(items)
    ensures Without(items, Elements(ExpiredKeys(items, now, maxAge))) == KeepFresh(items, now, maxAge)
  {
    if items != [] {
      var x := items[0];
      var rest := items[1..];
      var restKeys := Elements(ExpiredKeys(rest, now, maxAge));
      assert x.key !in restKeys by {
        ExpiredKeysInIndex(rest, now, maxAge);
        assert x.key !in KeySet(rest);
      }
      WithoutExpiredKeys(rest, now, maxAge);
      if Expired(x.entry, now, maxAge) {
        assert (Elements(ExpiredKeys(items, now, maxAge))) == {x.key} + restKeys;
        WithoutIgnores(rest, restKeys, {x.key});
        assert restKeys + {x.key} == {x.key} + restKeys;
      } else {
        assert ExpiredKeys(items, now, maxAge) == ExpiredKeys(rest, now, maxAge);
      }
    }
  }

  /** `cleanup` on a healthy store keeps exactly the entries that have not expired. */
  lemma CleanupKeepsFresh(c: Config, st: Store, now: int)
    requires Healthy(c, st)
    ensures Healthy(c, CleanupSpec(c, st, now))
    ensures CleanupSpec(c, st, now).items == KeepFresh(st.items, now, c.maxAge)
  {
    RemoveAllHealthy(c, st, ExpiredKeys(st.items, now, c.maxAge));
    WithoutExpiredKeys(st.items, now, c.maxAge);
  }
}
