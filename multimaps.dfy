/** Set-per-key multimaps, the way Guava's HashMultimap keeps them: a key is
    present exactly when at least one value is stored under it, and the values
    under one key form a set, so storing the same pair twice keeps one copy. */
module Multimaps {

  type Multimap<K, V> = map<K, set<V>>

  /** No key maps to an empty set: the table forgets a key with its last value. */
  ghost predicate WellFormed<K(!new), V>(m: Multimap<K, V>)
  {
    forall k :: k in m ==> m[k] != {}
  }

  /** The values stored under `k` (`get(key)`); empty for an absent key. */
  function Get<K(!new), V>(m: Multimap<K, V>, k: K): set<V>
  {
    if k in m then m[k] else {}
  }

  /** Every value stored under some key (`values()`, taken as a set). */
  function AllValues<K(!new), V>(m: Multimap<K, V>): set<V>
  {
    set k, v | k in m && v in m[k] :: v
  }

  /** Two well-formed multimaps that agree on every key are the same table. */
  lemma Extensionality<K(!new), V>(a: Multimap<K, V>, b: Multimap<K, V>)
    requires WellFormed(a) && WellFormed(b)
    requires forall k :: Get(a, k) == Get(b, k)
    ensures a == b
  {
    forall k | k in a ensures k in b && a[k] == b[k] {
      assert Get(a, k) == a[k];
    }
    forall k | k in b ensures k in a {
      assert Get(b, k) == b[k];
    }
  }

  /** `put(key, value)`: adds the pair, keeping every value already stored
      under `k` and under every other key. */
  function Put<K(!new), V>(m: Multimap<K, V>, k: K, v: V): (r: Multimap<K, V>)
    ensures WellFormed(m) ==> WellFormed(r)
    ensures forall k' :: Get(r, k') == if k' == k then Get(m, k') + {v} else Get(m, k')
    ensures r.Keys == m.Keys + {k}
    ensures AllValues(r) == AllValues(m) + {v}
  {
    var r := m[k := Get(m, k) + {v}];
    assert v in r[k];
    assert AllValues(r) == AllValues(m) + {v} by {
      forall u | u in AllValues(m) ensures u in AllValues(r) {
        var k' :| k' in m && u in m[k'];
        assert u in r[k'];
      }
    }
    r
  }

  /** `remove(key, value)`: drops the one pair, and the key with it when that
      was its last value. */
  function Remove<K(!new), V>(m: Multimap<K, V>, k: K, v: V): (r: Multimap<K, V>)
    ensures WellFormed(m) ==> WellFormed(r)
    ensures forall k' :: Get(r, k') == if k' == k then Get(m, k') - {v} else Get(m, k')
  {
    if k !in m then m
    else if m[k] - {v} == {} then m - {k}
    else m[k := m[k] - {v}]
  }

  /** `removeAll(key)`: forgets every value stored under `k`, and nothing else. */
  function RemoveAll<K(!new), V>(m: Multimap<K, V>, k: K): (r: Multimap<K, V>)
    ensures WellFormed(m) ==> WellFormed(r)
    ensures forall k' :: Get(r, k') == if k' == k then {} else Get(m, k')
    ensures r.Keys == m.Keys - {k}
    ensures AllValues(r) <= AllValues(m)
  {
    m - {k}
  }

  /** Picks the key a loop over a key snapshot visits next. */
  method NextKey<K>(ks: set<K>) returns (k: K)
    requires ks != {}
    ensures k in ks
  {
    k :| k in ks;
  }

  /** Draining a table key by key: when `done` and the values left make up
      `all`, draining `id` moves the values under `id` from the table to
      `done`. */
  lemma DrainKey<K(!new), V>(m: Multimap<K, V>, id: K, done: set<V>, all: set<V>)
    requires done + AllValues(m) == all && done !! AllValues(m)
    ensures done !! Get(m, id)
    ensures (done + Get(m, id)) + AllValues(RemoveValues(RemoveAll(m, id), Get(m, id))) == all
    ensures (done + Get(m, id)) !! AllValues(RemoveValues(RemoveAll(m, id), Get(m, id)))
  {
    ValuesUnderKey(m, id);
    RemoveAllThenValuesAll(m, id);
  }

  /** The values under one key are among all the values. */
  lemma ValuesUnderKey<K(!new), V>(m: Multimap<K, V>, k: K)
    ensures Get(m, k) <= AllValues(m)
  {
  }

  /** Removes every value of `vs` from every key, dropping the keys left empty. */
  function RemoveValues<K(!new), V>(m: Multimap<K, V>, vs: set<V>): (r: Multimap<K, V>)
    ensures WellFormed(r)
    ensures forall k :: Get(r, k) == Get(m, k) - vs
    ensures r.Keys <= m.Keys
    ensures AllValues(r) == AllValues(m) - vs
  {
    var r := map k | k in m && m[k] - vs != {} :: m[k] - vs;
    assert forall k :: Get(r, k) == Get(m, k) - vs;
    assert AllValues(r) == AllValues(m) - vs by {
      forall u | u in AllValues(m) - vs ensures u in AllValues(r) {
        var k :| k in m && u in m[k];
        assert u in m[k] - vs;
        assert u in r[k];
      }
    }
    r
  }

  /** Removes the value `v` from the keys of `ks` only: what a loop over a
      snapshot of the key set has done after visiting `ks`. */
  function RemoveValueAt<K(!new), V>(m: Multimap<K, V>, ks: set<K>, v: V): (r: Multimap<K, V>)
    ensures WellFormed(m) ==> WellFormed(r)
    ensures forall k :: Get(r, k) == if k in ks then Get(m, k) - {v} else Get(m, k)
  {
    map k | k in m && (k !in ks || m[k] - {v} != {}) :: if k in ks then m[k] - {v} else m[k]
  }

  /** One more step of the key-snapshot loop: removing `v` under `k` extends
      the set of visited keys by `k`. */
  lemma RemoveValueAtStep<K(!new), V>(m: Multimap<K, V>, ks: set<K>, k: K, v: V)
    requires WellFormed(m)
    ensures Remove(RemoveValueAt(m, ks, v), k, v) == RemoveValueAt(m, ks + {k}, v)
  {
    Extensionality(Remove(RemoveValueAt(m, ks, v), k, v), RemoveValueAt(m, ks + {k}, v));
  }

  /** The loop that visits every key of a snapshot removes `v` from the whole
      table: no key keeps it and every other value stays where it was. */
  lemma RemoveValueAtEveryKey<K(!new), V>(m: Multimap<K, V>, v: V)
    requires WellFormed(m)
    ensures RemoveValueAt(m, m.Keys, v) == RemoveValues(m, {v})
  {
    Extensionality(RemoveValueAt(m, m.Keys, v), RemoveValues(m, {v}));
  }

  /** Removing no value changes nothing. */
  lemma RemoveNoValues<K(!new), V>(m: Multimap<K, V>)
    requires WellFormed(m)
    ensures RemoveValues(m, {}) == m
  {
    Extensionality(RemoveValues(m, {}), m);
  }

  /** Removing values in two rounds is removing their union at once. */
  lemma RemoveValuesTwice<K(!new), V>(m: Multimap<K, V>, a: set<V>, b: set<V>)
    ensures RemoveValues(RemoveValues(m, a), b) == RemoveValues(m, a + b)
  {
    Extensionality(RemoveValues(RemoveValues(m, a), b), RemoveValues(m, a + b));
  }

  /** Adds the handles of `vs` under `k`, one `put` per handle, in order. */
  function PutAll<K(!new), V>(m: Multimap<K, V>, k: K, vs: seq<V>): Multimap<K, V>
    decreases |vs|
  {
    if vs == [] then m else PutAll(Put(m, k, vs[0]), k, vs[1..])
  }

  /** A run of `put`s under one key keeps everything that was there and adds
      every value of the run, under `k` and nowhere else. */
  lemma {:induction false} PutAllKeepsEvery<K(!new), V>(m: Multimap<K, V>, k: K, vs: seq<V>)
    ensures Get(PutAll(m, k, vs), k) == Get(m, k) + set v | v in vs
    ensures forall k' :: k' != k ==> Get(PutAll(m, k, vs), k') == Get(m, k')
    decreases |vs|
  {
    if vs != [] {
      PutAllKeepsEvery(Put(m, k, vs[0]), k, vs[1..]);
      assert vs == [vs[0]] + vs[1..];
      assert (set v | v in vs) == {vs[0]} + set v | v in vs[1..];
    }
  }

  /** No deduplication of distinct handles: `n` distinct handles added under a
      key that held none of them grow that key by exactly `n`. */
  lemma {:induction false} PutAllCount<K(!new), V>(m: Multimap<K, V>, k: K, vs: seq<V>)
    requires forall i, j :: 0 <= i < j < |vs| ==> vs[i] != vs[j]
    requires forall i :: 0 <= i < |vs| ==> vs[i] !in Get(m, k)
    ensures |Get(PutAll(m, k, vs), k)| == |Get(m, k)| + |vs|
    decreases |vs|
  {
    if vs != [] {
      var m' := Put(m, k, vs[0]);
      assert Get(m', k) == Get(m, k) + {vs[0]};
      forall i | 0 <= i < |vs[1..]| ensures vs[1..][i] !in Get(m', k) {
        assert vs[1..][i] == vs[i + 1];
      }
      PutAllCount(m', k, vs[1..]);
    }
  }

  /** What `removeAll(id)` followed by closing each removed handle leaves:
      every other key loses only handles that were also stored under `id`,
      and a key that shared none of them keeps all of its handles. */
  lemma RemoveAllThenValues<K(!new), V>(m: Multimap<K, V>, id: K, k: K)
    requires k != id
    ensures Get(RemoveValues(RemoveAll(m, id), Get(m, id)), k) == Get(m, k) - Get(m, id)
    ensures Get(m, k) !! Get(m, id) ==> Get(RemoveValues(RemoveAll(m, id), Get(m, id)), k) == Get(m, k)
    ensures Get(RemoveValues(RemoveAll(m, id), Get(m, id)), id) == {}
  {
  }

  /** The handles left in the table after that step are those that were not
      under `id`. */
  lemma RemoveAllThenValuesAll<K(!new), V>(m: Multimap<K, V>, id: K)
    ensures AllValues(RemoveValues(RemoveAll(m, id), Get(m, id))) == AllValues(m) - Get(m, id)
  {
    var r := RemoveAll(m, id);
    assert AllValues(m) - Get(m, id) <= AllValues(r) by {
      forall u | u in AllValues(m) - Get(m, id) ensures u in AllValues(r) {
        var k :| k in m && u in m[k];
        assert k != id;
        assert u in r[k];
      }
    }
  }
}
