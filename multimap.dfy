/**
 * The "create-or-append" dictionary of lists that every bucketing function
 * of the pipeline builds: a key's list is created holding the first item
 * filed under it, and later items with the same key are appended to it.
 *
 * A run of such a loop is described by the sequence of (key, item) pairs it
 * files, in the order it files them. `Fold` is the dictionary the loop builds
 * from those pairs; `IsGrouping` is an independent description of the same
 * dictionary (its keys, the contents of each bucket, no empty bucket, the
 * total number of items), and `FoldIsGrouping` connects the two.
 */
module Multimap {

  /** One step of the loop: create bucket `k` as `[x]`, or append `x` to it. */
  function Append<K, T>(m: map<K, seq<T>>, k: K, x: T): map<K, seq<T>>
  {
    if k in m then m[k := m[k] + [x]] else m[k := [x]]
  }

  /** The dictionary obtained by filing every pair of `entries` in order, starting from `{}`. */
  function Fold<K, T>(entries: seq<(K, T)>): map<K, seq<T>>
  {
    if entries == [] then map[]
    else
      var last := entries[|entries| - 1];
      Append(Fold(entries[..|entries| - 1]), last.0, last.1)
  }

  /** The keys that occur among `entries`. */
  function KeysOf<K, T>(entries: seq<(K, T)>): set<K>
  {
    set i | 0 <= i < |entries| :: entries[i].0
  }

  /** The items filed under `k`, in the order they occur in `entries`. */
  function Select<K(==), T>(entries: seq<(K, T)>, k: K): seq<T>
  {
    if entries == [] then []
    else
      var last := entries[|entries| - 1];
      Select(entries[..|entries| - 1], k) + (if last.0 == k then [last.1] else [])
  }

  /** Sum of the bucket lengths of `m` over the keys in `keys`. */
  ghost function SizeOver<K, T>(m: map<K, seq<T>>, keys: set<K>): nat
    requires keys <= m.Keys
    decreases keys
  {
    if keys == {} then 0
    else
      var k :| k in keys;
      |m[k]| + SizeOver(m, keys - {k})
  }

  /** The number of items held by all buckets of `m` together. */
  ghost function TotalSize<K, T>(m: map<K, seq<T>>): nat
  {
    SizeOver(m, m.Keys)
  }

  /**
   * `r` is the grouping of `entries`: its keys are exactly the keys that
   * occur, bucket `k` holds the items filed under `k` in their original
   * order, no bucket is empty, and every pair is held exactly once overall.
   */
  ghost predicate IsGrouping<K, T>(r: map<K, seq<T>>, entries: seq<(K, T)>)
  {
    && r.Keys == KeysOf(entries)
    && (forall k :: k in r ==> r[k] == Select(entries, k))
    && (forall k :: k in r ==> r[k] != [])
    && TotalSize(r) == |entries|
  }

  lemma {:induction false} SizeOverRemove<K, T>(m: map<K, seq<T>>, keys: set<K>, k: K)
    requires keys <= m.Keys && k in keys
    ensures SizeOver(m, keys) == |m[k]| + SizeOver(m, keys - {k})
    decreases keys
  {
    var j :| j in keys && SizeOver(m, keys) == |m[j]| + SizeOver(m, keys - {j});
    if j != k {
      SizeOverRemove(m, keys - {j}, k);
      SizeOverRemove(m, keys - {k}, j);
      assert keys - {j} - {k} == keys - {k} - {j};
    }
  }

  lemma {:induction false} SizeOverFrame<K, T>(m: map<K, seq<T>>, m': map<K, seq<T>>, keys: set<K>)
    requires keys <= m.Keys && keys <= m'.Keys
    requires forall k :: k in keys ==> m[k] == m'[k]
    ensures SizeOver(m, keys) == SizeOver(m', keys)
    decreases keys
  {
    if keys != {} {
      var k :| k in keys;
      SizeOverRemove(m, keys, k);
      SizeOverRemove(m', keys, k);
      SizeOverFrame(m, m', keys - {k});
    }
  }

  /** Filing one more item adds exactly one to the total. */
  lemma TotalSizeAppend<K, T>(m: map<K, seq<T>>, k: K, x: T)
    ensures TotalSize(Append(m, k, x)) == TotalSize(m) + 1
  {
    var m' := Append(m, k, x);
    if k in m {
      assert m'.Keys == m.Keys;
      SizeOverRemove(m', m.Keys, k);
      SizeOverRemove(m, m.Keys, k);
      SizeOverFrame(m, m', m.Keys - {k});
    } else {
      assert m'.Keys == m.Keys + {k};
      SizeOverRemove(m', m'.Keys, k);
      assert m'.Keys - {k} == m.Keys;
      SizeOverFrame(m, m', m.Keys);
    }
  }

  /** A key has a non-empty selection exactly when it occurs among the entries. */
  lemma {:induction false} SelectNonEmpty<K, T>(entries: seq<(K, T)>, k: K)
    ensures Select(entries, k) != [] <==> k in KeysOf(entries)
  {
    if entries != [] {
      var n := |entries| - 1;
      SelectNonEmpty(entries[..n], k);
      assert k in KeysOf(entries[..n]) ==> k in KeysOf(entries) by {
        if k in KeysOf(entries[..n]) {
          var i :| 0 <= i < n && entries[..n][i].0 == k;
          assert entries[i].0 == k;
        }
      }
      assert k in KeysOf(entries) && entries[n].0 != k ==> k in KeysOf(entries[..n]) by {
        if k in KeysOf(entries) && entries[n].0 != k {
          var i :| 0 <= i < |entries| && entries[i].0 == k;
          assert entries[..n][i].0 == k;
        }
      }
    }
  }

  /** Filing the pairs of `a` and then those of `b` selects the items of `a` before those of `b`. */
  lemma {:induction false} SelectConcat<K, T>(a: seq<(K, T)>, b: seq<(K, T)>, k: K)
    ensures Select(a + b, k) == Select(a, k) + Select(b, k)
  {
    if b != [] {
      var n := |b| - 1;
      assert (a + b)[..|a + b| - 1] == a + b[..n];
      SelectConcat(a, b[..n], k);
    } else {
      assert a + b == a;
    }
  }

  /** Every item is selected under the key it was filed with, and under no other. */
  lemma {:induction false} SelectMembers<K, T>(entries: seq<(K, T)>, k: K, x: T)
    ensures x in Select(entries, k) <==> (k, x) in entries
  {
    if entries != [] {
      var n := |entries| - 1;
      SelectMembers(entries[..n], k, x);
      assert entries == entries[..n] + [entries[n]];
    }
  }

  /** The dictionary built by the loop is the grouping of the pairs it filed. */
  lemma {:induction false} FoldIsGrouping<K, T>(entries: seq<(K, T)>)
    ensures IsGrouping(Fold(entries), entries)
  {
    if entries == [] {
      assert KeysOf(entries) == {};
    } else {
      var n := |entries| - 1;
      var init, last := entries[..n], entries[n];
      FoldIsGrouping(init);
      var m := Fold(init);
      assert KeysOf(entries) == KeysOf(init) + {last.0} by {
        forall y | y in KeysOf(entries) ensures y in KeysOf(init) + {last.0} {
          var i :| 0 <= i < |entries| && entries[i].0 == y;
          if i < n { assert init[i].0 == y; }
        }
        forall y | y in KeysOf(init) ensures y in KeysOf(entries) {
          var i :| 0 <= i < n && init[i].0 == y;
          assert entries[i].0 == y;
        }
        assert entries[n].0 == last.0;
      }
      forall k | k in Fold(entries) ensures Fold(entries)[k] == Select(entries, k) {
        if k == last.0 && k !in m {
          SelectNonEmpty(init, k);
        }
      }
      forall k | k in Fold(entries) ensures Fold(entries)[k] != [] {
        SelectNonEmpty(entries, k);
      }
      TotalSizeAppend(m, last.0, last.1);
    }
  }

  /** Filing one more pair is one more step of the loop. */
  lemma FoldStep<K, T>(entries: seq<(K, T)>, k: K, x: T)
    ensures Fold(entries + [(k, x)]) == Append(Fold(entries), k, x)
  {
    assert (entries + [(k, x)])[..|entries|] == entries;
  }

  /** At most one dictionary is the grouping of a given sequence of pairs. */
  lemma GroupingUnique<K, T>(r: map<K, seq<T>>, r': map<K, seq<T>>, entries: seq<(K, T)>)
    requires IsGrouping(r, entries) && IsGrouping(r', entries)
    ensures r == r'
  {
    assert r.Keys == r'.Keys;
    forall k | k in r ensures r[k] == r'[k] { }
  }
}
