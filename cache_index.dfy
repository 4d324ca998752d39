/**
 * The in-memory index of the image cache: a JavaScript `Map` from cache key
 * to `{timestamp, size, metadata}`. A `Map` iterates in insertion order and
 * keeps a key's position when its value is replaced, so the index is a
 * sequence of items with pairwise distinct keys.
 */
module CacheIndex {
  import opened Wrappers

  type Bytes = seq<bv8>

  /** The metadata `getOrProcessImage` stores beside a transcoded image. */
  datatype ImageMeta = ImageMeta(width: int, height: int, format: string)

  /** One index record; `metadata` is `None` when `set` was called without it. */
  datatype Entry = Entry(timestamp: int, size: nat, metadata: Option<ImageMeta>)

  datatype Item = Item(key: string, entry: Entry)

  function KeySet(s: seq<Item>): set<string>
  {
    if s == [] then {} else {s[0].key} + KeySet(s[1..])
  }

  /** No key occurs twice (a `Map` holds one value per key). */
  predicate DistinctKeys(s: seq<Item>)
  {
    s == [] || (s[0].key !in KeySet(s[1..]) && DistinctKeys(s[1..]))
  }

  lemma {:induction false} KeySetHasMembers(s: seq<Item>, x: Item)
    requires x in s
    ensures x.key in KeySet(s)
  {
    if s[0] != x {
      KeySetHasMembers(s[1..], x);
    }
  }

  lemma {:induction false} KeySetHasIndex(s: seq<Item>, k: string)
    requires k in KeySet(s)
    ensures exists i :: 0 <= i < |s| && s[i].key == k
  {
    if s[0].key != k {
      KeySetHasIndex(s[1..], k);
      var i :| 0 <= i < |s[1..]| && s[1..][i].key == k;
      assert s[i + 1].key == k;
    }
  }

  /** Two positions of an index never hold the same key. */
  lemma {:induction false} DistinctAt(s: seq<Item>, i: int, j: int)
    requires DistinctKeys(s) && 0 <= i < j < |s|
    ensures s[i].key != s[j].key
  {
    if i == 0 {
      assert s[j] == s[1..][j - 1];
      KeySetHasMembers(s[1..], s[j]);
    } else {
      DistinctAt(s[1..], i - 1, j - 1);
    }
  }

  /** A key at position `j` is not among the keys of any prefix that stops before `j`. */
  lemma KeyNotInPrefix(s: seq<Item>, j: int, n: int)
    requires DistinctKeys(s) && 0 <= n <= j < |s|
    ensures s[j].key !in KeySet(s[..n])
  {
    if s[j].key in KeySet(s[..n]) {
      KeySetHasIndex(s[..n], s[j].key);
      var i :| 0 <= i < n && s[..n][i].key == s[j].key;
      DistinctAt(s, i, j);
    }
  }

  /** `Map.get`. */
  function Lookup(s: seq<Item>, key: string): (r: Option<Entry>)
    ensures r.Some? <==> key in KeySet(s)
    ensures r.Some? ==> Item(key, r.value) in s
  {
    if s == [] then None
    else if s[0].key == key then Some(s[0].entry)
    else Lookup(s[1..], key)
  }

  /** In an index with distinct keys, an item's key looks up that item's entry. */
  lemma {:induction false} LookupMember(s: seq<Item>, x: Item)
    requires DistinctKeys(s) && x in s
    ensures Lookup(s, x.key) == Some(x.entry)
  {
    if s[0] != x {
      if s[0].key == x.key {
        KeySetHasMembers(s[1..], x);
      }
      LookupMember(s[1..], x);
    }
  }

  /** `Map.set`: replaces the value in place when the key is present, appends otherwise. */
  function Put(s: seq<Item>, key: string, e: Entry): (r: seq<Item>)
    ensures Item(key, e) in r
    ensures forall x :: x in r ==> x == Item(key, e) || x in s
    ensures KeySet(r) == KeySet(s) + {key}
    ensures DistinctKeys(s) ==> DistinctKeys(r)
  {
    if s == [] then [Item(key, e)]
    else if s[0].key == key then [Item(key, e)] + s[1..]
    else
      assert ([s[0]] + Put(s[1..], key, e))[1..] == Put(s[1..], key, e);
      [s[0]] + Put(s[1..], key, e)
  }

  /** The index with every item whose key is in `ks` left out (`Map.delete` for each). */
  function Without(s: seq<Item>, ks: set<string>): (r: seq<Item>)
    ensures KeySet(r) == KeySet(s) - ks
    ensures DistinctKeys(s) ==> DistinctKeys(r)
    ensures |r| <= |s|
  {
    if s == [] then []
    else if s[0].key in ks then Without(s[1..], ks)
    else
      assert ([s[0]] + Without(s[1..], ks))[1..] == Without(s[1..], ks);
      [s[0]] + Without(s[1..], ks)
  }

  /** An item survives `Without` exactly when its key is not among the removed ones. */
  lemma {:induction false} WithoutMember(s: seq<Item>, ks: set<string>, x: Item)
    ensures x in Without(s, ks) <==> x in s && x.key !in ks
  {
    if s != [] {
      WithoutMember(s[1..], ks, x);
      if s[0].key !in ks {
        assert Without(s, ks) == [s[0]] + Without(s[1..], ks);
      }
    }
  }

  lemma {:induction false} WithoutTwice(s: seq<Item>, a: set<string>, b: set<string>)
    ensures Without(Without(s, a), b) == Without(s, a + b)
  {
    if s != [] {
      WithoutTwice(s[1..], a, b);
    }
  }

  /** Keys the index does not hold make no difference to `Without`. */
  lemma {:induction false} WithoutIgnores(s: seq<Item>, a: set<string>, b: set<string>)
    requires KeySet(s) !! b
    ensures Without(s, a + b) == Without(s, a)
  {
    if s != [] {
      WithoutIgnores(s[1..], a, b);
    }
  }

  /** Removing every key the index holds empties it. */
  lemma {:induction false} WithoutEverything(s: seq<Item>, ks: set<string>)
    requires KeySet(s) <= ks
    ensures Without(s, ks) == []
  {
    if s != [] {
      WithoutEverything(s[1..], ks);
    }
  }

  lemma {:induction false} WithoutNothing(s: seq<Item>, ks: set<string>)
    requires KeySet(s) !! ks
    ensures Without(s, ks) == s
  {
    if s != [] {
      WithoutNothing(s[1..], ks);
    }
  }

  /** Sum of the recorded sizes. */
  function Total(s: seq<Item>): nat
  {
    if s == [] then 0 else s[0].entry.size + Total(s[1..])
  }

  lemma {:induction false} TotalAppend(a: seq<Item>, b: seq<Item>)
    ensures Total(a + b) == Total(a) + Total(b)
  {
    if a != [] {
      assert (a + b)[1..] == a[1..] + b;
      TotalAppend(a[1..], b);
    } else {
      assert a + b == b;
    }
  }

  /** Dropping one present item lowers the total by exactly that item's size. */
  lemma {:induction false} TotalWithoutMember(s: seq<Item>, x: Item)
    requires DistinctKeys(s) && x in s
    ensures Total(Without(s, {x.key})) == Total(s) - x.entry.size
  {
    if s[0] == x {
      WithoutNothing(s[1..], {x.key});
    } else {
      if s[0].key == x.key {
        KeySetHasMembers(s[1..], x);
      }
      TotalWithoutMember(s[1..], x);
    }
  }

  /** Replacing or adding one entry: the total loses the old size of that key, if any, and gains the new one. */
  lemma {:induction false} TotalPut(s: seq<Item>, key: string, e: Entry)
    requires DistinctKeys(s)
    ensures Total(Put(s, key, e)) == Total(Without(s, {key})) + e.size
  {
    if s == [] {
    } else if s[0].key == key {
      WithoutNothing(s[1..], {key});
    } else {
      TotalPut(s[1..], key, e);
    }
  }

  // ----- ordering by timestamp (`cacheItems.sort((a, b) => a.timestamp - b.timestamp)`)

  predicate SortedByTime(s: seq<Item>)
  {
    forall i, j :: 0 <= i < j < |s| ==> s[i].entry.timestamp <= s[j].entry.timestamp
  }

  /** Places `x` before the first item that is not older than it. */
  function InsertByTime(x: Item, s: seq<Item>): (r: seq<Item>)
    ensures multiset(r) == multiset(s) + multiset{x}
    ensures |r| == |s| + 1
  {
    if s == [] || x.entry.timestamp <= s[0].entry.timestamp then [x] + s
    else
      assert s == [s[0]] + s[1..];
      [s[0]] + InsertByTime(x, s[1..])
  }

  /**
   * A stable sort by timestamp: items with equal timestamps keep their
   * index order (JavaScript's `Array.prototype.sort` is stable).
   */
  function SortByTime(s: seq<Item>): (r: seq<Item>)
    ensures multiset(r) == multiset(s)
    ensures |r| == |s|
  {
    if s == [] then []
    else
      assert s == [s[0]] + s[1..];
      InsertByTime(s[0], SortByTime(s[1..]))
  }

  lemma {:induction false} InsertKeepsSorted(x: Item, s: seq<Item>)
    requires SortedByTime(s)
    ensures SortedByTime(InsertByTime(x, s))
  {
    if s == [] || x.entry.timestamp <= s[0].entry.timestamp {
    } else {
      InsertKeepsSorted(x, s[1..]);
      var r := InsertByTime(x, s[1..]);
      forall k | 0 <= k < |r| ensures s[0].entry.timestamp <= r[k].entry.timestamp {
        assert r[k] in multiset(r);
        assert r[k] == x || r[k] in multiset(s[1..]);
        if r[k] != x {
          var m :| 0 <= m < |s[1..]| && s[1..][m] == r[k];
          assert s[m + 1] == r[k];
        }
      }
    }
  }

  /** The eviction order really is oldest first. */
  lemma {:induction false} SortByTimeSorted(s: seq<Item>)
    ensures SortedByTime(SortByTime(s))
  {
    if s != [] {
      SortByTimeSorted(s[1..]);
      InsertKeepsSorted(s[0], SortByTime(s[1..]));
    }
  }

  lemma {:induction false} InsertKeys(x: Item, s: seq<Item>)
    ensures KeySet(InsertByTime(x, s)) == KeySet(s) + {x.key}
    ensures DistinctKeys(s) && x.key !in KeySet(s) ==> DistinctKeys(InsertByTime(x, s))
  {
    if s == [] || x.entry.timestamp <= s[0].entry.timestamp {
      assert ([x] + s)[1..] == s;
    } else {
      InsertKeys(x, s[1..]);
      assert ([s[0]] + InsertByTime(x, s[1..]))[1..] == InsertByTime(x, s[1..]);
    }
  }

  /** Sorting keeps the key set, and keys stay distinct. */
  lemma {:induction false} SortByTimeKeys(s: seq<Item>)
    ensures KeySet(SortByTime(s)) == KeySet(s)
    ensures DistinctKeys(s) ==> DistinctKeys(SortByTime(s))
  {
    if s != [] {
      SortByTimeKeys(s[1..]);
      InsertKeys(s[0], SortByTime(s[1..]));
    }
  }

  /** Sorting neither adds nor drops an item. */
  lemma SortByTimeMembers(s: seq<Item>)
    ensures forall y :: y in SortByTime(s) <==> y in s
  {
    var sorted := SortByTime(s);
    forall y
      ensures y in sorted <==> y in s
    {
      assert y in sorted <==> y in multiset(sorted);
      assert y in s <==> y in multiset(s);
    }
  }

  /** The items of `s` stamped `t`, in their order in `s`. */
  function AtTime(s: seq<Item>, t: int): seq<Item>
  {
    if s == [] then [] else Stamped(s[0], t) + AtTime(s[1..], t)
  }

  /** `x` alone when it is stamped `t`, otherwise nothing. */
  function Stamped(x: Item, t: int): seq<Item>
  {
    if x.entry.timestamp == t then [x] else []
  }

  lemma AtTimeCons(x: Item, s: seq<Item>, t: int)
    ensures AtTime([x] + s, t) == Stamped(x, t) + AtTime(s, t)
  {
    assert ([x] + s)[1..] == s;
  }

  /** `x` occurs in `s` at some position before one holding `y`. */
  ghost predicate Before(s: seq<Item>, x: Item, y: Item)
  {
    exists p, q :: 0 <= p < q < |s| && s[p] == x && s[q] == y
  }

  /** Inserting `x` puts it ahead of every item with its timestamp and leaves the others' order alone. */
  lemma {:induction false} InsertAtTime(x: Item, s: seq<Item>, t: int)
    ensures AtTime(InsertByTime(x, s), t) == Stamped(x, t) + AtTime(s, t)
  {
    if s == [] || x.entry.timestamp <= s[0].entry.timestamp {
      AtTimeCons(x, s, t);
    } else {
      InsertAtTime(x, s[1..], t);
      InsertPast(x, s[0], InsertByTime(x, s[1..]), s[1..], t);
      assert [s[0]] + s[1..] == s;
    }
  }

  /** Passing an item older than `x` on the way keeps `x` ahead of the items stamped like it. */
  lemma InsertPast(x: Item, y: Item, r: seq<Item>, rest: seq<Item>, t: int)
    requires y.entry.timestamp < x.entry.timestamp
    requires AtTime(r, t) == Stamped(x, t) + AtTime(rest, t)
    ensures AtTime([y] + r, t) == Stamped(x, t) + AtTime([y] + rest, t)
  {
    AtTimeCons(y, r, t);
    AtTimeCons(y, rest, t);
    var head, mine, tail := Stamped(y, t), Stamped(x, t), AtTime(rest, t);
    assert head == [] || mine == [];
    assert head + (mine + tail) == mine + (head + tail);
  }

  /** A member of `s` stamped `t` is among the items stamped `t`. */
  lemma {:induction false} AtTimeMember(s: seq<Item>, t: int, x: Item)
    requires x in s && x.entry.timestamp == t
    ensures x in AtTime(s, t)
  {
    if s[0] != x {
      AtTimeMember(s[1..], t, x);
    }
  }

  /** The items stamped `t` are members of `s`. */
  lemma {:induction false} AtTimeInSource(s: seq<Item>, t: int, x: Item)
    requires x in AtTime(s, t)
    ensures x in s
  {
    if s[0] != x {
      AtTimeInSource(s[1..], t, x);
    }
  }

  /**
   * The sort is stable: for every timestamp, the items carrying it come out
   * in the order they had in the index.
   */
  lemma {:induction false} SortByTimeStable(s: seq<Item>, t: int)
    ensures AtTime(SortByTime(s), t) == AtTime(s, t)
  {
    if s != [] {
      SortByTimeStable(s[1..], t);
      InsertAtTime(s[0], SortByTime(s[1..]), t);
    }
  }

  /** An item ahead of another stays ahead in any longer list. */
  lemma BeforeCons(x: Item, s: seq<Item>, a: Item, b: Item)
    requires Before(s, a, b)
    ensures Before([x] + s, a, b)
  {
    var p, q :| 0 <= p < q < |s| && s[p] == a && s[q] == b;
    assert ([x] + s)[p + 1] == a && ([x] + s)[q + 1] == b;
  }

  /** The head of a list is ahead of every other member. */
  lemma BeforeHead(s: seq<Item>, b: Item)
    requires |s| > 0 && b in s[1..]
    ensures Before(s, s[0], b)
  {
    var j :| 0 <= j < |s[1..]| && s[1..][j] == b;
    assert s[j + 1] == b;
  }

  /** Two items stamped `t` in some order in `s` keep that order among the items stamped `t`. */
  lemma {:induction false} BeforeAtTime(s: seq<Item>, t: int, p: int, q: int)
    requires 0 <= p < q < |s| && s[p].entry.timestamp == t && s[q].entry.timestamp == t
    ensures Before(AtTime(s, t), s[p], s[q])
  {
    var rest := AtTime(s[1..], t);
    AtTimeCons(s[0], s[1..], t);
    assert [s[0]] + s[1..] == s;
    if p == 0 {
      assert s[q] == s[1..][q - 1];
      AtTimeMember(s[1..], t, s[q]);
      assert AtTime(s, t) == [s[0]] + rest;
      BeforeHead(AtTime(s, t), s[q]);
    } else {
      assert s[p] == s[1..][p - 1] && s[q] == s[1..][q - 1];
      BeforeAtTime(s[1..], t, p - 1, q - 1);
      if s[0].entry.timestamp == t {
        BeforeCons(s[0], rest, s[p], s[q]);
      } else {
        assert AtTime(s, t) == rest;
      }
    }
  }

  /** An order in the tail of `s` is an order in `s`. */
  lemma BeforeTail(s: seq<Item>, a: Item, b: Item)
    requires |s| > 0 && Before(s[1..], a, b)
    ensures Before(s, a, b)
  {
    BeforeCons(s[0], s[1..], a, b);
    assert [s[0]] + s[1..] == s;
  }

  /** An order in `[x] + s` either starts at `x` or is an order in `s`. */
  lemma BeforeUncons(x: Item, s: seq<Item>, a: Item, b: Item)
    requires Before([x] + s, a, b)
    ensures (a == x && b in s) || Before(s, a, b)
  {
    var p, q :| 0 <= p < q < |[x] + s| && ([x] + s)[p] == a && ([x] + s)[q] == b;
    assert b == s[q - 1];
    if p > 0 {
      assert a == s[p - 1];
    }
  }

  /** An order among the items stamped `t` is an order in `s`. */
  lemma {:induction false} BeforeFromAtTime(s: seq<Item>, t: int, a: Item, b: Item)
    requires Before(AtTime(s, t), a, b)
    ensures Before(s, a, b)
  {
    var rest := AtTime(s[1..], t);
    if s[0].entry.timestamp == t {
      assert Before([s[0]] + rest, a, b) by {
        AtTimeCons(s[0], s[1..], t);
        assert [s[0]] + s[1..] == s;
      }
      BeforeUncons(s[0], rest, a, b);
      if a == s[0] && b in rest {
        AtTimeInSource(s[1..], t, b);
        BeforeHead(s, b);
      } else {
        BeforeFromAtTime(s[1..], t, a, b);
        BeforeTail(s, a, b);
      }
    } else {
      assert Before(rest, a, b) by {
        AtTimeCons(s[0], s[1..], t);
        assert [s[0]] + s[1..] == s;
      }
      BeforeFromAtTime(s[1..], t, a, b);
      BeforeTail(s, a, b);
    }
  }

  /** Of two items with one timestamp, the one sorted first came first in the index. */
  lemma SortedTiesInIndexOrder(s: seq<Item>, p: int, q: int)
    requires var r := SortByTime(s); 0 <= p < q < |r| && r[p].entry.timestamp == r[q].entry.timestamp
    ensures Before(s, SortByTime(s)[p], SortByTime(s)[q])
  {
    var r := SortByTime(s);
    var t := r[p].entry.timestamp;
    BeforeAtTime(r, t, p, q);
    SortByTimeStable(s, t);
    BeforeFromAtTime(s, t, r[p], r[q]);
  }
}
