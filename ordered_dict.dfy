/**
 Insertion-ordered dictionaries, as Python's `dict`: a sequence of key/value pairs.
 `Put` is the assignment `d[k] = v` (an existing key keeps its place, a new key goes last),
 `Find` is `d.get(k)`. The facts about them are lemmas, called where a proof needs them.
 */
module OrderedDict {
  import opened Wrappers

  type Dict<K, V> = seq<(K, V)>

  function Keys<K, V>(d: Dict<K, V>): seq<K> {
    seq(|d|, i requires 0 <= i < |d| => d[i].0)
  }

  ghost predicate Distinct<K>(ks: seq<K>) {
    forall i, j :: 0 <= i < j < |ks| ==> ks[i] != ks[j]
  }

  /** The value bound to `k`, looking from the front. */
  function Find<K(==), V>(d: Dict<K, V>, k: K): Option<V> {
    if d == [] then None
    else if d[0].0 == k then Some(d[0].1)
    else Find(d[1..], k)
  }

  /** `d[k] = v`. */
  function Put<K(==), V>(d: Dict<K, V>, k: K, v: V): Dict<K, V> {
    if d == [] then [(k, v)]
    else if d[0].0 == k then [(k, v)] + d[1..]
    else [d[0]] + Put(d[1..], k, v)
  }

  /** `if k not in d: d[k] = v`. */
  function PutIfAbsent<K(==), V>(d: Dict<K, V>, k: K, v: V): Dict<K, V> {
    if k in Keys(d) then d else Put(d, k, v)
  }

  /** The assignments `d[k] = v` for every pair of `kvs`, in order. */
  function PutAll<K(==), V>(d: Dict<K, V>, kvs: seq<(K, V)>): Dict<K, V>
    decreases |kvs|
  {
    if kvs == [] then d
    else
      var n := |kvs| - 1;
      Put(PutAll(d, kvs[..n]), kvs[n].0, kvs[n].1)
  }

  /** The guarded assignments `if k not in d: d[k] = v` for every pair of `kvs`, in order. */
  function PutAllIfAbsent<K(==), V>(d: Dict<K, V>, kvs: seq<(K, V)>): Dict<K, V>
    decreases |kvs|
  {
    if kvs == [] then d
    else
      var n := |kvs| - 1;
      PutIfAbsent(PutAllIfAbsent(d, kvs[..n]), kvs[n].0, kvs[n].1)
  }

  /** The value of the last pair of `kvs` whose key is `k`. */
  function LastValue<K(==), V>(kvs: seq<(K, V)>, k: K): Option<V>
    decreases |kvs|
  {
    if kvs == [] then None
    else
      var n := |kvs| - 1;
      if kvs[n].0 == k then Some(kvs[n].1) else LastValue(kvs[..n], k)
  }

  lemma KeysCons<K, V>(p: (K, V), d: Dict<K, V>)
    ensures Keys([p] + d) == [p.0] + Keys(d)
  {
  }

  lemma KeysSnoc<K, V>(d: Dict<K, V>, p: (K, V))
    ensures Keys(d + [p]) == Keys(d) + [p.0]
  {
  }

  /** The keys of a non-empty dictionary: those of all but its last pair, then the last key. */
  lemma KeysInit<K, V>(d: Dict<K, V>)
    requires d != []
    ensures Keys(d) == Keys(d[..|d| - 1]) + [d[|d| - 1].0]
  {
    var n := |d| - 1;
    KeysSnoc(d[..n], d[n]);
    assert d[..n] + [d[n]] == d;
  }

  /** `Find` succeeds exactly on the keys of the dictionary. */
  lemma {:induction false} FindIn<K, V>(d: Dict<K, V>, k: K)
    ensures Find(d, k).Some? <==> k in Keys(d)
    decreases |d|
  {
    if d != [] {
      FindIn(d[1..], k);
      KeysCons(d[0], d[1..]);
      assert [d[0]] + d[1..] == d;
    }
  }

  /** After `d[k] = v`, `k` is bound to `v` and every other key to what it was. */
  lemma {:induction false} FindPut<K, V>(d: Dict<K, V>, k: K, v: V, k': K)
    ensures Find(Put(d, k, v), k') == if k' == k then Some(v) else Find(d, k')
    decreases |d|
  {
    if d != [] && d[0].0 != k {
      FindPut(d[1..], k, v, k');
      assert ([d[0]] + Put(d[1..], k, v))[1..] == Put(d[1..], k, v);
    }
  }

  /** `d[k] = v` keeps the key order, and appends `k` when it is new. */
  lemma {:induction false} KeysPut<K, V>(d: Dict<K, V>, k: K, v: V)
    ensures Keys(Put(d, k, v)) == if k in Keys(d) then Keys(d) else Keys(d) + [k]
    decreases |d|
  {
    if d != [] {
      KeysCons(d[0], d[1..]);
      assert [d[0]] + d[1..] == d;
      if d[0].0 == k {
        KeysCons((k, v), d[1..]);
      } else {
        KeysPut(d[1..], k, v);
        KeysCons(d[0], Put(d[1..], k, v));
      }
    }
  }

  /** Every pair of `d[k] = v` was in `d` or is the new pair. */
  lemma {:induction false} PutPairs<K, V>(d: Dict<K, V>, k: K, v: V, p: (K, V))
    requires p in Put(d, k, v)
    ensures p in d || p == (k, v)
    decreases |d|
  {
    if d != [] && d[0].0 != k && p != d[0] {
      PutPairs(d[1..], k, v, p);
    }
  }

  lemma {:induction false} FindSnoc<K, V>(d: Dict<K, V>, p: (K, V), k: K)
    ensures Find(d + [p], k) == if k in Keys(d) then Find(d, k) else if p.0 == k then Some(p.1) else None
    decreases |d|
  {
    FindIn(d, k);
    if d != [] {
      assert (d + [p])[1..] == d[1..] + [p];
      FindSnoc(d[1..], p, k);
      FindIn(d[1..], k);
      KeysCons(d[0], d[1..]);
      assert [d[0]] + d[1..] == d;
    }
  }

  /** In a dictionary without repeated keys, the i-th key is bound to the i-th value. */
  lemma {:induction false} FindAt<K, V>(d: Dict<K, V>, i: nat)
    requires Distinct(Keys(d)) && i < |d|
    ensures Find(d, d[i].0) == Some(d[i].1)
    decreases |d|
  {
    if i > 0 {
      assert Distinct(Keys(d[1..])) by {
        forall a, b | 0 <= a < b < |d[1..]| ensures Keys(d[1..])[a] != Keys(d[1..])[b] {
          assert Keys(d)[a + 1] != Keys(d)[b + 1];
        }
      }
      assert d[0].0 != d[i].0 by { assert Keys(d)[0] != Keys(d)[i]; }
      FindAt(d[1..], i - 1);
    }
  }

  lemma {:induction false} LastValueIn<K, V>(kvs: seq<(K, V)>, k: K)
    ensures LastValue(kvs, k).Some? <==> k in Keys(kvs)
    decreases |kvs|
  {
    if kvs != [] {
      var n := |kvs| - 1;
      LastValueIn(kvs[..n], k);
      KeysSnoc(kvs[..n], kvs[n]);
      assert kvs[..n] + [kvs[n]] == kvs;
    }
  }

  /** Last write wins: after a run of assignments a key holds the value of its last pair. */
  lemma {:induction false} FindPutAll<K, V>(d: Dict<K, V>, kvs: seq<(K, V)>, k: K)
    ensures Find(PutAll(d, kvs), k) == if k in Keys(kvs) then LastValue(kvs, k) else Find(d, k)
    decreases |kvs|
  {
    if kvs != [] {
      var n := |kvs| - 1;
      FindPutAll(d, kvs[..n], k);
      FindPut(PutAll(d, kvs[..n]), kvs[n].0, kvs[n].1, k);
      KeysSnoc(kvs[..n], kvs[n]);
      assert kvs[..n] + [kvs[n]] == kvs;
    }
  }

  /** First write wins: a guarded run keeps what was there, else takes the first pair for the key. */
  lemma {:induction false} FindPutAllIfAbsent<K, V>(d: Dict<K, V>, kvs: seq<(K, V)>, k: K)
    ensures Find(PutAllIfAbsent(d, kvs), k) == if k in Keys(d) then Find(d, k) else Find(kvs, k)
    decreases |kvs|
  {
    FindIn(d, k);
    if kvs != [] {
      var n := |kvs| - 1;
      var prev := PutAllIfAbsent(d, kvs[..n]);
      FindPutAllIfAbsent(d, kvs[..n], k);
      FindSnoc(kvs[..n], kvs[n], k);
      KeysPutAllIfAbsent(d, kvs[..n], k);
      assert kvs[..n] + [kvs[n]] == kvs;
      FindIn(prev, k);
      FindIn(kvs[..n], k);
      if kvs[n].0 !in Keys(prev) {
        FindPut(prev, kvs[n].0, kvs[n].1, k);
      }
    }
  }

  /** A run of assignments binds exactly the keys already present and the keys it assigns. */
  lemma {:induction false} KeysPutAll<K, V>(d: Dict<K, V>, kvs: seq<(K, V)>, k: K)
    ensures k in Keys(PutAll(d, kvs)) <==> k in Keys(d) || k in Keys(kvs)
    decreases |kvs|
  {
    if kvs != [] {
      var n := |kvs| - 1;
      KeysPutAll(d, kvs[..n], k);
      KeysPut(PutAll(d, kvs[..n]), kvs[n].0, kvs[n].1);
      KeysInit(kvs);
    }
  }

  lemma {:induction false} KeysPutAllIfAbsent<K, V>(d: Dict<K, V>, kvs: seq<(K, V)>, k: K)
    ensures k in Keys(PutAllIfAbsent(d, kvs)) <==> k in Keys(d) || k in Keys(kvs)
    decreases |kvs|
  {
    if kvs != [] {
      var n := |kvs| - 1;
      KeysPutAllIfAbsent(d, kvs[..n], k);
      KeysPut(PutAllIfAbsent(d, kvs[..n]), kvs[n].0, kvs[n].1);
      KeysInit(kvs);
    }
  }

  /** `{key: value for key, value in d.items() if key != k}`. */
  function Remove<K(==), V>(d: Dict<K, V>, k: K): Dict<K, V>
    decreases |d|
  {
    if d == [] then []
    else if d[0].0 == k then Remove(d[1..], k)
    else [d[0]] + Remove(d[1..], k)
  }

  /** The keys `ks` followed by each element of `ids` not seen before, in order of first appearance. */
  function AddNew<K(==)>(ks: seq<K>, ids: seq<K>): seq<K>
    decreases |ids|
  {
    if ids == [] then ks
    else
      var n := |ids| - 1;
      var prev := AddNew(ks, ids[..n]);
      if ids[n] in prev then prev else prev + [ids[n]]
  }

  /** A value bound by `Find` is one of the pairs of the dictionary. */
  lemma {:induction false} FindPair<K, V>(d: Dict<K, V>, k: K)
    requires Find(d, k).Some?
    ensures (k, Find(d, k).value) in d
    decreases |d|
  {
    if d[0].0 != k {
      FindPair(d[1..], k);
    }
  }

  /** Removing a key drops that key and keeps what every other key was bound to. */
  lemma {:induction false} FindRemove<K, V>(d: Dict<K, V>, k: K, k': K)
    ensures Find(Remove(d, k), k') == if k' == k then None else Find(d, k')
    decreases |d|
  {
    if d != [] {
      FindRemove(d[1..], k, k');
    }
  }

  /** Removing a key keeps the order of the other keys. */
  lemma {:induction false} KeysRemove<K, V>(d: Dict<K, V>, k: K, k': K)
    ensures k' in Keys(Remove(d, k)) <==> k' != k && k' in Keys(d)
    decreases |d|
  {
    FindRemove(d, k, k');
    FindIn(Remove(d, k), k');
    FindIn(d, k');
  }

  /** The first-appearance list holds exactly the old keys and the new ids. */
  lemma {:induction false} AddNewIn<K>(ks: seq<K>, ids: seq<K>, x: K)
    ensures x in AddNew(ks, ids) <==> x in ks || x in ids
    decreases |ids|
  {
    if ids != [] {
      var n := |ids| - 1;
      AddNewIn(ks, ids[..n], x);
      assert ids == ids[..n] + [ids[n]];
    }
  }

  /** Dropping the last of distinct keys leaves distinct keys, none of them the dropped one. */
  lemma DistinctInit<K>(ks: seq<K>)
    requires Distinct(ks) && ks != []
    ensures Distinct(ks[..|ks| - 1]) && ks[|ks| - 1] !in ks[..|ks| - 1]
  {
    var n := |ks| - 1;
    var init := ks[..n];
    forall a, b | 0 <= a < b < |init| ensures init[a] != init[b] {
      assert init[a] == ks[a] && init[b] == ks[b];
    }
    forall a | 0 <= a < |init| ensures init[a] != ks[n] {
      assert init[a] == ks[a];
    }
  }

  /** The first-appearance list never repeats a key. */
  lemma {:induction false} AddNewDistinct<K>(ks: seq<K>, ids: seq<K>)
    requires Distinct(ks)
    ensures Distinct(AddNew(ks, ids))
    decreases |ids|
  {
    if ids != [] {
      var n := |ids| - 1;
      AddNewDistinct(ks, ids[..n]);
      var prev := AddNew(ks, ids[..n]);
      if ids[n] !in prev {
        var next := prev + [ids[n]];
        forall i, j | 0 <= i < j < |next| ensures next[i] != next[j] {
          if j == |prev| {
            assert next[i] == prev[i];
          }
        }
      }
    }
  }

  /** Two runs of assignments one after the other are the run of their concatenation. */
  lemma {:induction false} PutAllAppend<K, V>(d: Dict<K, V>, xs: seq<(K, V)>, ys: seq<(K, V)>)
    ensures PutAll(d, xs + ys) == PutAll(PutAll(d, xs), ys)
    decreases |ys|
  {
    if ys == [] {
      assert xs + ys == xs;
    } else {
      var n := |ys| - 1;
      PutAllAppend(d, xs, ys[..n]);
      assert (xs + ys)[..|xs + ys| - 1] == xs + ys[..n];
    }
  }

  /** The same for guarded assignments. */
  lemma {:induction false} PutAllIfAbsentAppend<K, V>(d: Dict<K, V>, xs: seq<(K, V)>, ys: seq<(K, V)>)
    ensures PutAllIfAbsent(d, xs + ys) == PutAllIfAbsent(PutAllIfAbsent(d, xs), ys)
    decreases |ys|
  {
    if ys == [] {
      assert xs + ys == xs;
    } else {
      var n := |ys| - 1;
      PutAllIfAbsentAppend(d, xs, ys[..n]);
      assert (xs + ys)[..|xs + ys| - 1] == xs + ys[..n];
    }
  }

  /** Removing a key that is not there changes nothing. */
  lemma {:induction false} RemoveAbsent<K, V>(d: Dict<K, V>, k: K)
    requires k !in Keys(d)
    ensures Remove(d, k) == d
    decreases |d|
  {
    if d != [] {
      KeysCons(d[0], d[1..]);
      assert [d[0]] + d[1..] == d;
      RemoveAbsent(d[1..], k);
    }
  }
}
