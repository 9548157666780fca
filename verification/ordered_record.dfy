/**
 * A JavaScript object used as a dictionary: string keys in insertion order,
 * one value per key. Assignment keeps the position of an existing key and
 * appends a new one; object spread assigns the right-hand object's entries
 * in its own order; `Object.fromEntries(Object.entries(o).filter(…))` keeps
 * the surviving entries in order.
 */
module OrderedRecord {
  import opened Wrappers

  datatype Record<V> = Record(keys: seq<string>, entries: map<string, V>)

  predicate Distinct(s: seq<string>) {
    forall i, j :: 0 <= i < j < |s| ==> s[i] != s[j]
  }

  /** Keys are distinct and are exactly the keys of the entry map. */
  predicate WellFormed<V>(r: Record<V>) {
    Distinct(r.keys) &&
    (forall k :: k in r.entries ==> k in r.keys) &&
    (forall k :: k in r.keys ==> k in r.entries)
  }

  type Table<V> = r: Record<V> | WellFormed(r) witness Record([], map[])

  function Empty<V>(): (t: Table<V>)
    ensures t.keys == [] && t.entries == map[]
  {
    Record([], map[])
  }

  /** `t[k]`, `undefined` when absent. */
  function Get<V>(t: Table<V>, k: string): (r: Option<V>)
    ensures r.Some? <==> k in t.keys
    ensures r.Some? ==> r.value == t.entries[k]
  {
    if k in t.entries then Some(t.entries[k]) else None
  }

  /** `t[k] = v`: an existing key keeps its place, a new key goes last. */
  function Put<V>(t: Table<V>, k: string, v: V): (r: Table<V>)
    ensures r.entries == t.entries[k := v]
    ensures k in t.keys ==> r.keys == t.keys
    ensures k !in t.keys ==> r.keys == t.keys + [k]
  {
    if k in t.entries then Record(t.keys, t.entries[k := v])
    else Record(t.keys + [k], t.entries[k := v])
  }

  /** The keys of `ks` that are not in `seen`, in order (the keys a merge appends). */
  function NewKeys(seen: seq<string>, ks: seq<string>): seq<string>
    decreases |ks|
  {
    if ks == [] then []
    else if ks[0] in seen then NewKeys(seen, ks[1..])
    else [ks[0]] + NewKeys(seen + [ks[0]], ks[1..])
  }

  /** Assign the entries of `u` named by `ks` to `t`, one after the other. */
  function PutAll<V>(t: Table<V>, ks: seq<string>, u: map<string, V>): (r: Table<V>)
    requires forall k :: k in ks ==> k in u
    decreases |ks|
  {
    if ks == [] then t else PutAll(Put(t, ks[0], u[ks[0]]), ks[1..], u)
  }

  /** `{ ...t, ...u }`. */
  function Merge<V>(t: Table<V>, u: Table<V>): Table<V> {
    PutAll(t, u.keys, u.entries)
  }

  /** What `PutAll` does to one key: a key of `ks` takes `u`'s value, any other key is untouched. */
  lemma {:induction false} PutAllAt<V>(t: Table<V>, ks: seq<string>, u: map<string, V>, k: string)
    requires forall k :: k in ks ==> k in u
    ensures k in ks ==> k in PutAll(t, ks, u).entries && PutAll(t, ks, u).entries[k] == u[k]
    ensures k !in ks ==> (k in PutAll(t, ks, u).entries <==> k in t.entries)
    ensures k !in ks && k in t.entries ==> PutAll(t, ks, u).entries[k] == t.entries[k]
    decreases |ks|
  {
    if ks != [] {
      assert ks == [ks[0]] + ks[1..];
      PutAllAt(Put(t, ks[0], u[ks[0]]), ks[1..], u, k);
    }
  }

  /** `PutAll` keeps the old keys in place and appends the new ones in order of first appearance. */
  lemma {:induction false} PutAllKeys<V>(t: Table<V>, ks: seq<string>, u: map<string, V>)
    requires forall k :: k in ks ==> k in u
    ensures PutAll(t, ks, u).keys == t.keys + NewKeys(t.keys, ks)
    decreases |ks|
  {
    if ks != [] {
      var t1 := Put(t, ks[0], u[ks[0]]);
      PutAllKeys(t1, ks[1..], u);
      assert ks == [ks[0]] + ks[1..];
      NewKeysStep(t.keys, ks[0], ks[1..]);
    }
  }

  /** One step of `NewKeys`: the first key joins the seen keys unless it is already there. */
  lemma NewKeysStep(seen: seq<string>, k: string, rest: seq<string>)
    ensures var seen' := if k in seen then seen else seen + [k];
      seen + NewKeys(seen, [k] + rest) == seen' + NewKeys(seen', rest)
  {
    assert ([k] + rest)[0] == k && ([k] + rest)[1..] == rest;
  }

  /**
   * Spread merge is last-write-wins: every key of `u` takes `u`'s value, every
   * other key keeps its value, the old keys keep their order and the keys new
   * to `t` follow in `u`'s order.
   */
  lemma MergeSemantics<V>(t: Table<V>, u: Table<V>)
    ensures Merge(t, u).entries == t.entries + u.entries
    ensures Merge(t, u).keys == t.keys + NewKeys(t.keys, u.keys)
    ensures forall k :: k in u.entries ==> Get(Merge(t, u), k) == Some(u.entries[k])
    ensures forall k :: k !in u.entries ==> Get(Merge(t, u), k) == Get(t, k)
  {
    PutAllKeys(t, u.keys, u.entries);
    var m := Merge(t, u).entries;
    var want := t.entries + u.entries;
    forall k ensures k in m <==> k in want {
      PutAllAt(t, u.keys, u.entries, k);
    }
    forall k | k in want ensures m[k] == want[k] {
      PutAllAt(t, u.keys, u.entries, k);
    }
    assert m == want;
  }

  /** The keys whose values `keep` accepts, in order. */
  function FilterKeys<V>(keys: seq<string>, entries: map<string, V>, keep: V -> bool): (r: seq<string>)
    requires forall k :: k in keys ==> k in entries
    ensures forall k :: k in r <==> k in keys && keep(entries[k])
    ensures |r| <= |keys|
  {
    if keys == [] then []
    else (if keep(entries[keys[0]]) then [keys[0]] else []) + FilterKeys(keys[1..], entries, keep)
  }

  lemma {:induction false} FilterKeysDistinct<V>(keys: seq<string>, entries: map<string, V>, keep: V -> bool)
    requires forall k :: k in keys ==> k in entries
    requires Distinct(keys)
    ensures Distinct(FilterKeys(keys, entries, keep))
  {
    if keys != [] {
      var rest := FilterKeys(keys[1..], entries, keep);
      var head: seq<string> := if keep(entries[keys[0]]) then [keys[0]] else [];
      assert FilterKeys(keys, entries, keep) == head + rest;
      assert keys[0] !in rest by {
        assert keys[0] !in keys[1..] by {
          forall j | 0 <= j < |keys[1..]| ensures keys[1..][j] != keys[0] {
            assert keys[1..][j] == keys[j + 1];
          }
        }
      }
      FilterKeysDistinct(keys[1..], entries, keep);
      var r := head + rest;
      forall i, j | 0 <= i < j < |r| ensures r[i] != r[j] {
        if i < |head| {
          assert r[j] == rest[j - 1];
        } else {
          assert r[i] == rest[i - |head|] && r[j] == rest[j - |head|];
        }
      }
    }
  }

  /** `Object.fromEntries(Object.entries(t).filter(([, v]) => keep(v)))`. */
  function Filter<V>(t: Table<V>, keep: V -> bool): (r: Table<V>)
    ensures forall k :: k in r.entries <==> k in t.entries && keep(t.entries[k])
    ensures forall k :: k in r.entries ==> r.entries[k] == t.entries[k]
  {
    var ks := FilterKeys(t.keys, t.entries, keep);
    FilterKeysDistinct(t.keys, t.entries, keep);
    var m := map k | k in ks :: t.entries[k];
    assert forall k :: k in m <==> k in ks;
    Record(ks, m)
  }

  lemma {:induction false} FilterKeysKeepAll<V>(keys: seq<string>, entries: map<string, V>, keep: V -> bool)
    requires forall k :: k in keys ==> k in entries && keep(entries[k])
    ensures FilterKeys(keys, entries, keep) == keys
  {
    if keys != [] {
      FilterKeysKeepAll(keys[1..], entries, keep);
    }
  }

  /** Filtering with a test every value passes gives the same table back, order included. */
  lemma FilterKeepAll<V>(t: Table<V>, keep: V -> bool)
    requires forall k :: k in t.entries ==> keep(t.entries[k])
    ensures Filter(t, keep) == t
  {
    FilterKeysKeepAll(t.keys, t.entries, keep);
    assert Filter(t, keep).entries == t.entries;
  }

  /** `Object.values(t)`. */
  function Values<V>(t: Table<V>): (r: seq<V>)
    ensures |r| == |t.keys|
    ensures forall i :: 0 <= i < |r| ==> r[i] == t.entries[t.keys[i]]
  {
    seq(|t.keys|, i requires 0 <= i < |t.keys| => t.entries[t.keys[i]])
  }

  /** A one-entry object literal `{ [k]: v }`. */
  function Single<V>(k: string, v: V): (r: Table<V>)
    ensures r.keys == [k] && r.entries == map[k := v]
  {
    Record([k], map[k := v])
  }

  /** Spreading a one-entry object into `t` is the assignment `t[k] = v`. */
  lemma MergeSingle<V>(t: Table<V>, k: string, v: V)
    ensures Merge(t, Single(k, v)) == Put(t, k, v)
  {
    var u := Single(k, v);
    assert u.keys[1..] == [];
    assert Merge(t, u) == PutAll(Put(t, k, v), [], u.entries);
  }

  /** A run of assignments `t[k] = v`, one per pair, in order. */
  function PutEach<V>(t: Table<V>, pairs: seq<(string, V)>): Table<V>
    decreases |pairs|
  {
    if pairs == [] then t
    else Put(PutEach(t, pairs[..|pairs| - 1]), pairs[|pairs| - 1].0, pairs[|pairs| - 1].1)
  }

  /** One more assignment at the end of a run. */
  lemma PutEachSnoc<V>(t: Table<V>, pairs: seq<(string, V)>, k: string, v: V)
    ensures PutEach(t, pairs + [(k, v)]) == Put(PutEach(t, pairs), k, v)
  {
    assert (pairs + [(k, v)])[..|pairs|] == pairs;
  }

  /** The value of the last pair whose key is `k`, if any. */
  function LastValue<V>(pairs: seq<(string, V)>, k: string): (r: Option<V>)
    ensures r.Some? <==> exists i :: 0 <= i < |pairs| && pairs[i].0 == k
    ensures r.Some? ==>
      exists i :: 0 <= i < |pairs| && pairs[i] == (k, r.value) && forall j :: i < j < |pairs| ==> pairs[j].0 != k
    decreases |pairs|
  {
    if pairs == [] then None
    else if pairs[|pairs| - 1].0 == k then Some(pairs[|pairs| - 1].1)
    else
      var r := LastValue(pairs[..|pairs| - 1], k);
      LastValueSkipsLast(pairs, pairs[..|pairs| - 1], k, r);
      r
  }

  /** A last pair with another key changes neither whether `k` occurs nor which pair is its last. */
  lemma LastValueSkipsLast<V>(pairs: seq<(string, V)>, front: seq<(string, V)>, k: string, r: Option<V>)
    requires pairs != [] && pairs[|pairs| - 1].0 != k && front == pairs[..|pairs| - 1]
    requires r.Some? <==> exists i :: 0 <= i < |front| && front[i].0 == k
    requires r.Some? ==>
      exists i :: 0 <= i < |front| && front[i] == (k, r.value) && forall j :: i < j < |front| ==> front[j].0 != k
    ensures r.Some? <==> exists i :: 0 <= i < |pairs| && pairs[i].0 == k
    ensures r.Some? ==>
      exists i :: 0 <= i < |pairs| && pairs[i] == (k, r.value) && forall j :: i < j < |pairs| ==> pairs[j].0 != k
  {
    assert forall i :: 0 <= i < |pairs| - 1 ==> front[i] == pairs[i];
    if r.Some? {
      var i :| 0 <= i < |front| && front[i] == (k, r.value) && forall j :: i < j < |front| ==> front[j].0 != k;
      assert pairs[i] == (k, r.value);
    } else {
      forall i | 0 <= i < |pairs| ensures pairs[i].0 != k {
        if i < |pairs| - 1 {
          assert front[i] == pairs[i];
        }
      }
    }
  }

  /** `a` when it holds a value, otherwise `b`. */
  function Override<V>(a: Option<V>, b: Option<V>): (r: Option<V>)
    ensures r.Some? <==> a.Some? || b.Some?
    ensures a.Some? ==> r == a
  {
    if a.Some? then a else b
  }

  /** A run of assignments is last-write-wins per key; keys it never names keep their value. */
  lemma {:induction false} PutEachAt<V>(t: Table<V>, pairs: seq<(string, V)>, k: string)
    ensures Get(PutEach(t, pairs), k) == Override(LastValue(pairs, k), Get(t, k))
    decreases |pairs|
  {
    if pairs != [] {
      PutEachAt(t, pairs[..|pairs| - 1], k);
    }
  }

  /** Two runs of assignments one after the other are one run over the concatenation. */
  lemma {:induction false} PutEachAppend<V>(t: Table<V>, a: seq<(string, V)>, b: seq<(string, V)>)
    ensures PutEach(t, a + b) == PutEach(PutEach(t, a), b)
    decreases |b|
  {
    if b == [] {
      assert a + b == a;
    } else {
      assert (a + b)[..|a + b| - 1] == a + b[..|b| - 1];
      PutEachAppend(t, a, b[..|b| - 1]);
    }
  }

  /** Assignments never move a key that is already there: the old keys stay a prefix, in order. */
  lemma {:induction false} PutEachKeepsOrder<V>(t: Table<V>, pairs: seq<(string, V)>)
    ensures |t.keys| <= |PutEach(t, pairs).keys| && PutEach(t, pairs).keys[..|t.keys|] == t.keys
    decreases |pairs|
  {
    if pairs != [] {
      PutEachKeepsOrder(t, pairs[..|pairs| - 1]);
    }
  }
}
