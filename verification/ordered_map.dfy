/** Insertion-ordered maps: the model of a Python `dict`. A map is a list
    of key/value pairs; assigning to a key that is already present keeps
    its position and replaces its value, assigning to a new key appends. */
module OrderedMaps {
  import opened Wrappers

  type OMap<K, V> = seq<(K, V)>

  function Keys<K, V>(m: OMap<K, V>): seq<K> {
    seq(|m|, i requires 0 <= i < |m| => m[i].0)
  }

  function KeySet<K, V>(m: OMap<K, V>): set<K> {
    set k | k in Keys(m)
  }

  predicate Distinct<T(==)>(s: seq<T>) {
    forall i, j :: 0 <= i < j < |s| ==> s[i] != s[j]
  }

  /** The invariant every Python dict keeps: no key occurs twice. */
  predicate UniqueKeys<K(==), V>(m: OMap<K, V>) {
    Distinct(Keys(m))
  }

  /** Position of the first pair whose key is `k`. */
  function IndexOf<K(==), V>(m: OMap<K, V>, k: K): (i: nat)
    requires k in Keys(m)
    ensures i < |m| && m[i].0 == k
    ensures forall j :: 0 <= j < i ==> m[j].0 != k
  {
    if m[0].0 == k then 0
    else
      assert Keys(m) == [m[0].0] + Keys(m[1..]);
      1 + IndexOf(m[1..], k)
  }

  /** The first pair with key `k` is at position `i`. */
  lemma IndexOfIs<K, V>(m: OMap<K, V>, k: K, i: nat)
    requires i < |m| && m[i].0 == k
    requires forall j :: 0 <= j < i ==> m[j].0 != k
    ensures k in Keys(m) && IndexOf(m, k) == i
  {
    assert Keys(m)[i] == k;
  }

  /** Dropping the first pair of a duplicate-free map. */
  lemma UniqueTail<K, V>(m: OMap<K, V>)
    requires UniqueKeys(m) && |m| > 0
    ensures UniqueKeys(m[1..]) && m[0].0 !in Keys(m[1..])
  {
    var ks := Keys(m);
    assert Keys(m[1..]) == ks[1..];
    forall i | 0 <= i < |ks| - 1
      ensures ks[1..][i] == ks[i + 1] && ks[i + 1] != ks[0]
    {
    }
    assert ks[0] == m[0].0;
  }

  /** `d.get(k)`: the value stored under `k`, if any. */
  function Get<K(==), V>(m: OMap<K, V>, k: K): (r: Option<V>)
    ensures r.Some? <==> k in Keys(m)
    ensures r.Some? ==> r.value == m[IndexOf(m, k)].1
  {
    if |m| == 0 then None
    else
      assert Keys(m) == [m[0].0] + Keys(m[1..]);
      if m[0].0 == k then Some(m[0].1) else Get(m[1..], k)
  }

  /** `d[k] = v`. */
  function Put<K(==), V>(m: OMap<K, V>, k: K, v: V): (r: OMap<K, V>)
    ensures k !in Keys(m) ==> r == m + [(k, v)]
    ensures k in Keys(m) ==> r == m[IndexOf(m, k) := (k, v)]
  {
    if |m| == 0 then [(k, v)]
    else
      assert Keys(m) == [m[0].0] + Keys(m[1..]);
      if m[0].0 == k then [(k, v)] + m[1..] else [m[0]] + Put(m[1..], k, v)
  }

  /** `for k, v in entries: d[k] = v`. */
  function PutAll<K(==), V>(m: OMap<K, V>, entries: OMap<K, V>): OMap<K, V>
    decreases |entries|
  {
    if |entries| == 0 then m
    else PutAll(Put(m, entries[0].0, entries[0].1), entries[1..])
  }

  /** The elements of `s` that are not in `ex`, in order. */
  function Without<T(==)>(s: seq<T>, ex: set<T>): (r: seq<T>)
  {
    if |s| == 0 then []
    else if s[0] in ex then Without(s[1..], ex)
    else [s[0]] + Without(s[1..], ex)
  }

  lemma KeysAppend<K, V>(a: OMap<K, V>, b: OMap<K, V>)
    ensures Keys(a + b) == Keys(a) + Keys(b)
  {
  }

  lemma KeysOfPut<K, V>(m: OMap<K, V>, k: K, v: V)
    ensures Keys(Put(m, k, v)) == if k in Keys(m) then Keys(m) else Keys(m) + [k]
  {
    KeysAppend(m, [(k, v)]);
  }

  /** In a map without duplicates, the pair at position `i` is what `Get` finds. */
  lemma GetAt<K, V>(m: OMap<K, V>, i: nat)
    requires UniqueKeys(m) && i < |m|
    ensures Get(m, m[i].0) == Some(m[i].1)
  {
    forall j | 0 <= j <= i
      ensures Keys(m)[j] == m[j].0
    {
    }
    IndexOfIs(m, m[i].0, i);
  }

  lemma GetAppend<K, V>(a: OMap<K, V>, b: OMap<K, V>, k: K)
    ensures Get(a + b, k) == if k in Keys(a) then Get(a, k) else Get(b, k)
  {
    KeysAppend(a, b);
    if k in Keys(a) {
      var i := IndexOf(a, k);
      assert (a + b)[i] == a[i];
      IndexOfIs(a + b, k, i);
    } else if k in Keys(b) {
      var i := IndexOf(b, k);
      assert (a + b)[|a| + i] == b[i];
      forall j | 0 <= j < |a| + i
        ensures (a + b)[j].0 != k
      {
        if j < |a| {
          assert Keys(a)[j] == a[j].0;
        }
      }
      IndexOfIs(a + b, k, |a| + i);
    }
  }

  /** After `d[k] = v`, `d[k]` is `v` and every other key reads as before. */
  lemma GetPut<K, V>(m: OMap<K, V>, k: K, v: V, k': K)
    ensures Get(Put(m, k, v), k') == if k' == k then Some(v) else Get(m, k')
  {
    var r := Put(m, k, v);
    KeysOfPut(m, k, v);
    if k in Keys(m) {
      var i := IndexOf(m, k);
      if k' == k {
        IndexOfIs(r, k, i);
      } else if k' in Keys(m) {
        IndexOfIs(r, k', IndexOf(m, k'));
      }
    } else {
      GetAppend(m, [(k, v)], k');
    }
  }

  lemma PutKeepsUnique<K, V>(m: OMap<K, V>, k: K, v: V)
    requires UniqueKeys(m)
    ensures UniqueKeys(Put(m, k, v))
  {
    KeysOfPut(m, k, v);
  }

  lemma {:induction false} PutAllKeepsUnique<K, V>(m: OMap<K, V>, entries: OMap<K, V>)
    requires UniqueKeys(m)
    ensures UniqueKeys(PutAll(m, entries))
    decreases |entries|
  {
    if |entries| > 0 {
      PutKeepsUnique(m, entries[0].0, entries[0].1);
      PutAllKeepsUnique(Put(m, entries[0].0, entries[0].1), entries[1..]);
    }
  }

  /** Assigning the pairs of a duplicate-free list one by one: the keys
      already present stay where they are, the new ones follow in order. */
  lemma {:induction false} PutAllKeys<K, V>(m: OMap<K, V>, entries: OMap<K, V>)
    requires UniqueKeys(entries)
    ensures Keys(PutAll(m, entries)) == Keys(m) + Without(Keys(entries), KeySet(m))
    decreases |entries|
  {
    if |entries| > 0 {
      var k0 := entries[0].0;
      var rest := entries[1..];
      assert Keys(entries) == [k0] + Keys(rest);
      UniqueTail(entries);
      PutAllKeys(Put(m, k0, entries[0].1), rest);
      KeysOfPut(m, k0, entries[0].1);
      KeySetOfPut(m, k0, entries[0].1);
      PutKeysStep(Keys(m), KeySet(m), Keys(Put(m, k0, entries[0].1)), k0, Keys(rest));
    }
  }

  /** One assignment of the loop above, stated on the key lists: `km` and
      `ex` are the keys before, `km'` the keys after, `ks` the keys still
      to come. */
  lemma PutKeysStep<K>(km: seq<K>, ex: set<K>, km': seq<K>, k0: K, ks: seq<K>)
    requires k0 !in ks
    requires k0 in km <==> k0 in ex
    requires km' == if k0 in km then km else km + [k0]
    ensures km' + Without(ks, ex + {k0}) == km + Without([k0] + ks, ex)
  {
    var w := Without(ks, ex);
    WithoutIgnoresAbsent(ks, ex, k0);
    WithoutCons(k0, ks, ex);
    if k0 !in km {
      assert km + [k0] + w == km + ([k0] + w);
    } else {
      assert ex + {k0} == ex;
    }
  }

  lemma KeySetOfPut<K, V>(m: OMap<K, V>, k: K, v: V)
    ensures KeySet(Put(m, k, v)) == KeySet(m) + {k}
  {
    KeysOfPut(m, k, v);
  }

  lemma WithoutCons<T>(x: T, s: seq<T>, ex: set<T>)
    ensures Without([x] + s, ex) == if x in ex then Without(s, ex) else [x] + Without(s, ex)
  {
    assert ([x] + s)[0] == x && ([x] + s)[1..] == s;
  }

  /** ... and every key reads as the last assignment to it left it. */
  lemma {:induction false} PutAllGet<K, V>(m: OMap<K, V>, entries: OMap<K, V>, k: K)
    requires UniqueKeys(entries)
    ensures Get(PutAll(m, entries), k) == if k in Keys(entries) then Get(entries, k) else Get(m, k)
    decreases |entries|
  {
    if |entries| > 0 {
      var rest := entries[1..];
      assert Keys(entries) == [entries[0].0] + Keys(rest);
      assert entries == [entries[0]] + rest;
      UniqueTail(entries);
      GetAppend([entries[0]], rest, k);
      PutAllGet(Put(m, entries[0].0, entries[0].1), rest, k);
      GetPut(m, entries[0].0, entries[0].1, k);
    }
  }

  /** Assigning fresh, distinct keys one by one appends them in order. */
  lemma {:induction false} PutAllFresh<K, V>(m: OMap<K, V>, entries: OMap<K, V>)
    requires UniqueKeys(entries)
    requires forall i :: 0 <= i < |entries| ==> entries[i].0 !in Keys(m)
    ensures PutAll(m, entries) == m + entries
    decreases |entries|
  {
    if |entries| > 0 {
      var e0 := entries[0];
      var rest := entries[1..];
      UniqueTail(entries);
      assert Keys(entries) == [e0.0] + Keys(rest);
      KeysAppend(m, [e0]);
      forall i | 0 <= i < |rest| ensures rest[i].0 !in Keys(m + [e0]) {
        assert rest[i] == entries[i + 1];
        assert Keys(rest)[i] == rest[i].0;
      }
      PutAllFresh(m + [e0], rest);
      assert (m + [e0]) + rest == m + entries;
    }
  }

  /** Two duplicate-free maps with the same key order and the same lookups are equal. */
  lemma Extensionality<K, V>(a: OMap<K, V>, b: OMap<K, V>)
    requires UniqueKeys(a) && UniqueKeys(b)
    requires Keys(a) == Keys(b)
    requires forall k :: Get(a, k) == Get(b, k)
    ensures a == b
  {
    assert |a| == |Keys(a)|;
    forall i | 0 <= i < |a|
      ensures a[i] == b[i]
    {
      assert Keys(a)[i] == a[i].0 && Keys(b)[i] == b[i].0;
      GetAt(a, i);
      GetAt(b, i);
    }
  }

  lemma {:induction false} WithoutIgnoresAbsent<T>(s: seq<T>, ex: set<T>, x: T)
    requires x !in s
    ensures Without(s, ex + {x}) == Without(s, ex)
  {
    if |s| > 0 {
      WithoutIgnoresAbsent(s[1..], ex, x);
    }
  }

  lemma {:induction false} WithoutIgnoresDisjoint<T>(s: seq<T>, ex: set<T>, xs: set<T>)
    requires forall i :: 0 <= i < |s| ==> s[i] !in xs
    ensures Without(s, ex + xs) == Without(s, ex)
  {
    if |s| > 0 {
      WithoutIgnoresDisjoint(s[1..], ex, xs);
    }
  }

  lemma {:induction false} WithoutAppend<T>(s: seq<T>, t: seq<T>, ex: set<T>)
    ensures Without(s + t, ex) == Without(s, ex) + Without(t, ex)
  {
    if |s| > 0 {
      assert (s + t)[1..] == s[1..] + t;
      WithoutAppend(s[1..], t, ex);
    } else {
      assert s + t == t;
    }
  }

  lemma {:induction false} WithoutMembers<T>(s: seq<T>, ex: set<T>, x: T)
    ensures x in Without(s, ex) <==> x in s && x !in ex
  {
    if |s| > 0 {
      WithoutMembers(s[1..], ex, x);
      assert s == [s[0]] + s[1..];
    }
  }

  lemma {:induction false} WithoutCovered<T>(s: seq<T>, ex: set<T>)
    requires forall i :: 0 <= i < |s| ==> s[i] in ex
    ensures Without(s, ex) == []
  {
    if |s| > 0 {
      WithoutCovered(s[1..], ex);
    }
  }

  /** Dropping `x` and the survivors of `a` from `a + b`, when `a + b` has
      no duplicates, leaves the survivors of `b`. */
  lemma WithoutExtension<T>(a: seq<T>, b: seq<T>, x: T)
    requires Distinct(a + b)
    ensures Without(a + b, {x} + (set k | k in Without(a, {x}))) == Without(b, {x})
  {
    var ex := {x} + (set k | k in Without(a, {x}));
    forall i | 0 <= i < |a| ensures a[i] in ex {
      WithoutMembers(a, {x}, a[i]);
    }
    WithoutCovered(a, ex);
    WithoutAppend(a, b, ex);
    forall i | 0 <= i < |b| ensures b[i] !in set k | k in Without(a, {x}) {
      assert b[i] == (a + b)[|a| + i];
      WithoutMembers(a, {x}, b[i]);
      if b[i] in a {
        var j :| 0 <= j < |a| && a[j] == b[i];
        assert (a + b)[j] == a[j];
      }
    }
    WithoutIgnoresDisjoint(b, {x}, set k | k in Without(a, {x}));
  }

  lemma DistinctAppend<T>(s: seq<T>, t: seq<T>)
    requires Distinct(s) && Distinct(t)
    requires forall x :: x in s ==> x !in t
    ensures Distinct(s + t)
  {
    forall i, j | 0 <= i < j < |s + t|
      ensures (s + t)[i] != (s + t)[j]
    {
      if i < |s| && j >= |s| {
        assert (s + t)[i] in s && (s + t)[j] == t[j - |s|];
      }
    }
  }

  /** In a duplicate-free map, a pair that occurs in it is what `Get` finds. */
  lemma GetMember<K, V>(m: OMap<K, V>, k: K, v: V)
    requires UniqueKeys(m) && (k, v) in m
    ensures Get(m, k) == Some(v)
  {
    var i :| 0 <= i < |m| && m[i] == (k, v);
    GetAt(m, i);
  }

  lemma GetAbsent<K, V>(m: OMap<K, V>, k: K)
    requires forall p :: p in m ==> p.0 != k
    ensures Get(m, k) == None
  {
    forall i | 0 <= i < |m|
      ensures Keys(m)[i] != k
    {
      assert m[i] in m;
    }
  }
}
