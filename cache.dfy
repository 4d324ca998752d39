/**
 * The on-disk image cache (`CacheManager`): blobs named by their cache key
 * in a directory, plus an `index.json` snapshot of the in-memory index.
 *
 * The file system is abstract: `blobs` is the directory's content,
 * `BlobFaults` names the blobs whose read, write or unlink fails (each on
 * its own), and `indexBroken` makes every access to `index.json` fail. The clock is the
 * parameter `now` (milliseconds). Every error the source catches and logs
 * leaves the state exactly as it was at the failing step.
 */
module Cache {
  import opened Wrappers
  import opened CacheIndex

  const DefaultMaxAge: int := 24 * 60 * 60 * 1000
  const DefaultMaxSize: int := 100 * 1024 * 1024

  /**
   * The constructor's options. `None` means the key is absent; a present
   * key wins over the default (`{...defaults, ...options}`).
   */
  datatype CacheOptions = CacheOptions(maxAge: Option<int>, maxSize: Option<int>)

  /**
   * The blobs whose read, write or unlink fails. A blob missing from the
   * directory cannot be read or unlinked either, whatever these sets say.
   */
  datatype BlobFaults = BlobFaults(unreadable: set<string>, unwritable: set<string>, unremovable: set<string>)

  /** The fixed parameters of one cache. */
  datatype Config = Config(maxAge: int, maxSize: int, faults: BlobFaults, indexBroken: bool)

  /** The index, the blob directory and the last `index.json` written. */
  datatype Store = Store(items: seq<Item>, blobs: map<string, Bytes>, persisted: seq<Item>)

  /** Reading blob `key` succeeds. */
  predicate Readable(c: Config, st: Store, key: string)
  {
    key in st.blobs && key !in c.faults.unreadable
  }

  /** Unlinking blob `key` succeeds. */
  predicate Removable(c: Config, st: Store, key: string)
  {
    key in st.blobs && key !in c.faults.unremovable
  }

  /** Blob `key` can be read and unlinked. */
  predicate Accessible(c: Config, st: Store, key: string)
  {
    Readable(c, st, key) && Removable(c, st, key)
  }

  /** Every access to blob `key`, once written, succeeds. */
  predicate Reliable(c: Config, key: string)
  {
    key !in c.faults.unreadable && key !in c.faults.unwritable && key !in c.faults.unremovable
  }

  /** Every indexed key has a blob that can be read and unlinked. */
  predicate Healthy(c: Config, st: Store)
  {
    DistinctKeys(st.items) && forall k :: k in KeySet(st.items) ==> Accessible(c, st, k)
  }

  predicate Expired(e: Entry, now: int, maxAge: int)
  {
    now - e.timestamp > maxAge
  }

  // ----- the operations on the abstract store

  /** `saveCacheIndex`: the snapshot is replaced unless the write fails. */
  function SaveIndex(c: Config, st: Store): Store
  {
    if c.indexBroken then st else st.(persisted := st.items)
  }

  /** `remove`: the index entry goes only when the unlink succeeded. */
  function RemoveSpec(c: Config, st: Store, key: string): Store
  {
    if Removable(c, st, key) then
      SaveIndex(c, Store(Without(st.items, {key}), st.blobs - {key}, st.persisted))
    else st
  }

  /** `get`: the bytes served and the store afterwards. */
  function GetSpec(c: Config, st: Store, key: string, now: int): (Option<Bytes>, Store)
  {
    match Lookup(st.items, key)
    case None => (None, st)
    case Some(e) =>
      if Expired(e, now, c.maxAge) then (None, RemoveSpec(c, st, key))
      else if Readable(c, st, key) then (Some(st.blobs[key]), st)
      else (None, RemoveSpec(c, st, key))
  }

  /** The `while` loop of `enforceMaxSize` over the still pending sorted items. */
  function EvictLoop(c: Config, st: Store, pending: seq<Item>, total: int): Store
    decreases |pending|
  {
    if total <= c.maxSize || pending == [] then st
    else EvictLoop(c, RemoveSpec(c, st, pending[0].key), pending[1..], total - pending[0].entry.size)
  }

  /** How many items of `pending` that loop takes off. */
  function EvictCount(pending: seq<Item>, total: int, maxSize: int): (n: nat)
    ensures n <= |pending|
    decreases |pending|
  {
    if total <= maxSize || pending == [] then 0
    else 1 + EvictCount(pending[1..], total - pending[0].entry.size, maxSize)
  }

  /**
   * The count is the least prefix of `pending` whose removal brings `total`
   * within `maxSize`, or all of `pending` when none does.
   */
  lemma {:induction false} EvictCountLeast(pending: seq<Item>, total: int, maxSize: int)
    ensures var n := EvictCount(pending, total, maxSize);
            && (n == |pending| || total - Total(pending[..n]) <= maxSize)
            && forall m :: 0 <= m < n ==> total - Total(pending[..m]) > maxSize
    decreases |pending|
  {
    var n := EvictCount(pending, total, maxSize);
    if !(total <= maxSize || pending == []) {
      var x := pending[0];
      var rest := pending[1..];
      EvictCountLeast(rest, total - x.entry.size, maxSize);
      forall m | 0 <= m <= |rest|
        ensures Total(pending[..m + 1]) == x.entry.size + Total(rest[..m])
      {
        assert pending[..m + 1][1..] == rest[..m];
      }
      forall m | 0 <= m < n
        ensures total - Total(pending[..m]) > maxSize
      {
        if m > 0 {
          assert Total(pending[..m]) == x.entry.size + Total(rest[..m - 1]);
        }
      }
      if n < |pending| {
        assert Total(pending[..n]) == x.entry.size + Total(rest[..n - 1]);
      }
    } else {
      assert pending[..0] == [];
    }
  }

  /** `enforceMaxSize`. */
  function EnforceSpec(c: Config, st: Store): Store
  {
    var total := Total(st.items);
    if total <= c.maxSize then st else EvictLoop(c, st, SortByTime(st.items), total)
  }

  /** The items `enforceMaxSize` evicts: the oldest ones, as many as the loop takes. */
  function Evicted(c: Config, items: seq<Item>): seq<Item>
  {
    var total := Total(items);
    if total <= c.maxSize then []
    else
      var sorted := SortByTime(items);
      sorted[..EvictCount(sorted, total, c.maxSize)]
  }

  /** `set`: a failed blob write changes nothing; a failed index write skips the eviction. */
  function SetSpec(c: Config, st: Store, key: string, data: Bytes, metadata: Option<ImageMeta>, now: int): Store
  {
    if key in c.faults.unwritable then st
    else
      var written := Store(Put(st.items, key, Entry(now, |data|, metadata)), st.blobs[key := data], st.persisted);
      if c.indexBroken then written else EnforceSpec(c, SaveIndex(c, written))
  }

  /** The keys of the expired entries, in index order. */
  function ExpiredKeys(items: seq<Item>, now: int, maxAge: int): (ks: seq<string>)
    ensures |ks| <= |items|
  {
    if items == [] then []
    else (if Expired(items[0].entry, now, maxAge) then [items[0].key] else []) + ExpiredKeys(items[1..], now, maxAge)
  }

  /** Only keys of the index are ever listed as expired. */
  lemma {:induction false} ExpiredKeysInIndex(items: seq<Item>, now: int, maxAge: int)
    ensures forall k :: k in ExpiredKeys(items, now, maxAge) ==> k in KeySet(items)
  {
    if items != [] {
      ExpiredKeysInIndex(items[1..], now, maxAge);
    }
  }

  /** `remove` applied to each key in turn. */
  function RemoveAllSpec(c: Config, st: Store, keys: seq<string>): Store
    decreases |keys|
  {
    if keys == [] then st else RemoveAllSpec(c, RemoveSpec(c, st, keys[0]), keys[1..])
  }

  /** `cleanup`. */
  function CleanupSpec(c: Config, st: Store, now: int): Store
  {
    RemoveAllSpec(c, st, ExpiredKeys(st.items, now, c.maxAge))
  }

  /** `loadCacheIndex`: the snapshot read back, or an empty index when that fails. */
  function LoadSpec(c: Config, st: Store): Store
  {
    st.(items := if c.indexBroken then [] else st.persisted)
  }

  /** `init`: load the index, then clean up. */
  function InitSpec(c: Config, st: Store, now: int): Store
  {
    CleanupSpec(c, LoadSpec(c, st), now)
  }

  /** The entries `cleanup` is meant to keep. */
  function KeepFresh(items: seq<Item>, now: int, maxAge: int): (r: seq<Item>)
    ensures forall x :: x in r <==> x in items && !Expired(x.entry, now, maxAge)
  {
    if items == [] then []
    else (if Expired(items[0].entry, now, maxAge) then [] else [items[0]]) + KeepFresh(items[1..], now, maxAge)
  }

  datatype Stats = Stats(totalSize: int, itemCount: int, maxSize: int, maxAge: int)

  class CacheManager {
    const maxAge: int
    const maxSize: int
    const faults: BlobFaults
    const indexBroken: bool
    var items: seq<Item>
    var blobs: map<string, Bytes>
    var persisted: seq<Item>

    function Cfg(): Config
    {
      Config(maxAge, maxSize, faults, indexBroken)
    }

    function State(): Store
      reads this
    {
      Store(items, blobs, persisted)
    }

    ghost predicate Valid()
      reads this
    {
      DistinctKeys(items) && DistinctKeys(persisted)
    }

    /**
     * A cache over the directory content `dir`, whose `index.json` holds
     * `index`; the in-memory index starts empty.
     */
    constructor(options: CacheOptions, dir: map<string, Bytes>, index: seq<Item>,
                failing: BlobFaults, indexFails: bool)
      requires DistinctKeys(index)
      ensures Valid()
      ensures maxAge == (if options.maxAge.Some? then options.maxAge.value else DefaultMaxAge)
      ensures maxSize == (if options.maxSize.Some? then options.maxSize.value else DefaultMaxSize)
      ensures faults == failing && indexBroken == indexFails
      ensures items == [] && blobs == dir && persisted == index
    {
      maxAge := if options.maxAge.Some? then options.maxAge.value else DefaultMaxAge;
      maxSize := if options.maxSize.Some? then options.maxSize.value else DefaultMaxSize;
      faults := failing;
      indexBroken := indexFails;
      items := [];
      blobs := dir;
      persisted := index;
    }

    method SaveCacheIndex() returns (saved: bool)
      requires Valid()
      modifies this
      ensures Valid()
      ensures saved == !indexBroken
      ensures State() == SaveIndex(Cfg(), old(State()))
    {
      if indexBroken {
        return false;
      }
      persisted := items;
      return true;
    }

    method LoadCacheIndex()
      requires Valid()
      modifies this
      ensures Valid()
      ensures State() == LoadSpec(Cfg(), old(State()))
    {
      if indexBroken {
        items := [];
      } else {
        items := persisted;
      }
    }

    method Init(now: int)
      requires Valid()
      modifies this
      ensures Valid()
      ensures State() == InitSpec(Cfg(), old(State()), now)
    {
      LoadCacheIndex();
      Cleanup(now);
    }

    method Remove(key: string)
      requires Valid()
      modifies this
      ensures Valid()
      ensures State() == RemoveSpec(Cfg(), old(State()), key)
    {
      if !(key in blobs && key !in faults.unremovable) {
        return;
      }
      blobs := blobs - {key};
      items := Without(items, {key});
      var saved := SaveCacheIndex();
    }

    method Get(key: string, now: int) returns (data: Option<Bytes>)
      requires Valid()
      modifies this
      ensures Valid()
      ensures (data, State()) == GetSpec(Cfg(), old(State()), key, now)
    {
      var info := Lookup(items, key);
      if info.None? {
        return None;
      }
      if now - info.value.timestamp > maxAge {
        Remove(key);
        return None;
      }
      if key in blobs && key !in faults.unreadable {
        return Some(blobs[key]);
      }
      Remove(key);
      return None;
    }

    method Set(key: string, data: Bytes, metadata: Option<ImageMeta>, now: int)
      requires Valid()
      modifies this
      ensures Valid()
      ensures State() == SetSpec(Cfg(), old(State()), key, data, metadata, now)
    {
      if key in faults.unwritable {
        return;
      }
      blobs := blobs[key := data];
      items := Put(items, key, Entry(now, |data|, metadata));
      var saved := SaveCacheIndex();
      if !saved {
        return;
      }
      EnforceMaxSize();
    }

    method Cleanup(now: int)
      requires Valid()
      modifies this
      ensures Valid()
      ensures State() == CleanupSpec(Cfg(), old(State()), now)
    {
      var expiredKeys := CollectExpired(now);
      RemoveEach(expiredKeys);
    }

    /** The first loop of `cleanup`: the keys of the entries older than `maxAge`, in index order. */
    method CollectExpired(now: int) returns (expiredKeys: seq<string>)
      ensures expiredKeys == ExpiredKeys(items, now, maxAge)
    {
      expiredKeys := [];
      var i := 0;
      while i < |items|
        invariant 0 <= i <= |items|
        invariant expiredKeys == ExpiredKeys(items[..i], now, maxAge)
      {
        ExpiredKeysSnoc(items[..i], items[i], now, maxAge);
        assert items[..i + 1] == items[..i] + [items[i]];
        if now - items[i].entry.timestamp > maxAge {
          expiredKeys := expiredKeys + [items[i].key];
        }
        i := i + 1;
      }
      assert items[..|items|] == items;
    }

    /** The second loop of `cleanup`: `remove` on each key in turn. */
    method RemoveEach(keys: seq<string>)
      requires Valid()
      modifies this
      ensures Valid()
      ensures State() == RemoveAllSpec(Cfg(), old(State()), keys)
    {
      var j := 0;
      while j < |keys|
        invariant 0 <= j <= |keys|
        invariant Valid()
        invariant RemoveAllSpec(Cfg(), State(), keys[j..]) == RemoveAllSpec(Cfg(), old(State()), keys)
      {
        assert keys[j..][1..] == keys[j + 1..];
        Remove(keys[j]);
        j := j + 1;
      }
    }

    method EnforceMaxSize()
      requires Valid()
      modifies this
      ensures Valid()
      ensures State() == EnforceSpec(Cfg(), old(State()))
    {
      var totalSize := 0;
      var cacheItems: seq<Item> := [];
      var i := 0;
      while i < |items|
        invariant 0 <= i <= |items|
        invariant cacheItems == items[..i]
        invariant totalSize == Total(items[..i])
        invariant unchanged(this)
      {
        TotalAppend(items[..i], [items[i]]);
        assert items[..i + 1] == items[..i] + [items[i]];
        totalSize := totalSize + items[i].entry.size;
        cacheItems := cacheItems + [items[i]];
        i := i + 1;
      }
      assert items[..|items|] == items;
      if totalSize > maxSize {
        cacheItems := SortByTime(cacheItems);
        EvictOldest(cacheItems, totalSize);
      }
    }

    /** The eviction `while` loop of `enforceMaxSize`, over the items sorted oldest first. */
    method EvictOldest(sorted: seq<Item>, total: int)
      requires Valid()
      modifies this
      ensures Valid()
      ensures State() == EvictLoop(Cfg(), old(State()), sorted, total)
    {
      var cacheItems := sorted;
      var totalSize := total;
      while totalSize > maxSize && |cacheItems| > 0
        invariant Valid()
        invariant EvictLoop(Cfg(), State(), cacheItems, totalSize) == EvictLoop(Cfg(), old(State()), sorted, total)
        decreases |cacheItems|
      {
        var item := cacheItems[0];
        cacheItems := cacheItems[1..];
        totalSize := totalSize - item.entry.size;
        Remove(item.key);
      }
    }

    /** `getStats`: the summed sizes and the number of entries, with the limits. */
    method GetStats() returns (stats: Stats)
      ensures stats.totalSize == Total(items)
      ensures stats.itemCount == |items|
      ensures stats.maxSize == maxSize && stats.maxAge == maxAge
    {
      var totalSize := 0;
      var itemCount := 0;
      var i := 0;
      while i < |items|
        invariant 0 <= i <= |items|
        invariant totalSize == Total(items[..i])
        invariant itemCount == i
      {
        TotalAppend(items[..i], [items[i]]);
        assert items[..i + 1] == items[..i] + [items[i]];
        totalSize := totalSize + items[i].entry.size;
        itemCount := itemCount + 1;
        i := i + 1;
      }
      assert items[..|items|] == items;
      return Stats(totalSize, itemCount, maxSize, maxAge);
    }
  }

  lemma {:induction false} ExpiredKeysSnoc(s: seq<Item>, x: Item, now: int, maxAge: int)
    ensures ExpiredKeys(s + [x], now, maxAge)
            == ExpiredKeys(s, now, maxAge) + (if Expired(x.entry, now, maxAge) then [x.key] else [])
  {
    if s == [] {
      assert s + [x] == [x];
    } else {
      var head := if Expired(s[0].entry, now, maxAge) then [s[0].key] else [];
      var last := if Expired(x.entry, now, maxAge) then [x.key] else [];
      assert (s + [x])[0] == s[0] && (s + [x])[1..] == s[1..] + [x];
      assert ExpiredKeys(s + [x], now, maxAge) == head + ExpiredKeys(s[1..] + [x], now, maxAge);
      ExpiredKeysSnoc(s[1..], x, now, maxAge);
      AppendAssoc(head, ExpiredKeys(s[1..], now, maxAge), last);
    }
  }
}
