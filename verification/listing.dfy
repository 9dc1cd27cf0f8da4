/**
 * Reading a whole store: every (id, record) entry exactly once, either in the
 * store's own order or sorted by a timestamp key, most recent first.
 */
module Listing {

  /** The entries of a store, as (id, record) pairs. */
  ghost function Entries<K, V>(m: map<K, V>): set<(K, V)> {
    set k | k in m :: (k, m[k])
  }

  /** `r` lists every entry of `m` exactly once, in some order. */
  ghost predicate Lists<K, V>(r: seq<(K, V)>, m: map<K, V>) {
    multiset(r) == multiset(Entries(m))
  }

  /** Most recent first: keys never increase along the sequence. */
  predicate SortedDesc<K, V>(r: seq<(K, V)>, key: V -> int) {
    forall i, j :: 0 <= i < j < |r| ==> key(r[i].1) >= key(r[j].1)
  }

  /** Places `e` after every entry whose key is at least its own. */
  function Insert<K, V>(r: seq<(K, V)>, e: (K, V), key: V -> int): (r': seq<(K, V)>)
    requires SortedDesc(r, key)
    ensures SortedDesc(r', key)
    ensures multiset(r') == multiset(r) + multiset{e}
    decreases |r|
  {
    if |r| == 0 || key(r[0].1) < key(e.1) then
      [e] + r
    else
      var tail := Insert(r[1..], e, key);
      assert r == [r[0]] + r[1..];
      HeadAbove(r, e, tail, key);
      [r[0]] + tail
  }

  /** The head of a sorted sequence stays in front of anything built from its tail and `e`. */
  lemma HeadAbove<K, V>(r: seq<(K, V)>, e: (K, V), tail: seq<(K, V)>, key: V -> int)
    requires |r| > 0 && SortedDesc(r, key) && key(r[0].1) >= key(e.1)
    requires SortedDesc(tail, key)
    requires multiset(tail) == multiset(r[1..]) + multiset{e}
    ensures SortedDesc([r[0]] + tail, key)
  {
    var s := [r[0]] + tail;
    forall j | 0 < j < |s| ensures key(s[0].1) >= key(s[j].1) {
      assert s[j] == tail[j - 1];
      assert s[j] in multiset(tail);
      if s[j] != e {
        assert s[j] in multiset(r[1..]);
        var k :| 0 <= k < |r[1..]| && r[1..][k] == s[j];
        assert r[k + 1] == s[j];
      }
    }
  }

  /** Removing one key takes exactly its entry out of the entries. */
  lemma EntriesRemove<K, V>(m: map<K, V>, k: K)
    requires k in m
    ensures Entries(m) == Entries(m - {k}) + {(k, m[k])}
    ensures (k, m[k]) !in Entries(m - {k})
    ensures multiset(Entries(m)) == multiset(Entries(m - {k})) + multiset{(k, m[k])}
  {
    var rest := Entries(m - {k});
    forall e | e in Entries(m) ensures e in rest + {(k, m[k])} {
      var k' :| k' in m && e == (k', m[k']);
      if k' != k {
        assert k' in m - {k};
      }
    }
    assert Entries(m) == rest + {(k, m[k])};
  }

  /** A listing of a store in the store's own, unspecified order. */
  method Enumerate<K, V>(m: map<K, V>) returns (r: seq<(K, V)>)
    ensures Lists(r, m)
  {
    r := [];
    var rest := m;
    while rest != map[]
      invariant multiset(r) + multiset(Entries(rest)) == multiset(Entries(m))
      decreases |rest|
    {
      var k :| k in rest;
      EntriesRemove(rest, k);
      r := r + [(k, rest[k])];
      rest := rest - {k};
    }
    assert Entries(rest) == {};
  }

  /** A listing of a store sorted by `key`, largest first. */
  method ListSorted<K, V>(m: map<K, V>, key: V -> int) returns (r: seq<(K, V)>)
    ensures Lists(r, m)
    ensures SortedDesc(r, key)
  {
    r := [];
    var rest := m;
    while rest != map[]
      invariant multiset(r) + multiset(Entries(rest)) == multiset(Entries(m))
      invariant SortedDesc(r, key)
      decreases |rest|
    {
      var k :| k in rest;
      EntriesRemove(rest, k);
      r := Insert(r, (k, rest[k]), key);
      rest := rest - {k};
    }
    assert Entries(rest) == {};
  }

  /**
   * What a listing tells a reader: each listed record is the one stored under
   * its id, no id is listed twice, and every stored id is listed.
   */
  lemma ListsMeans<K, V>(r: seq<(K, V)>, m: map<K, V>)
    requires Lists(r, m)
    ensures forall i :: 0 <= i < |r| ==> r[i].0 in m && m[r[i].0] == r[i].1
    ensures forall i, j :: 0 <= i < j < |r| ==> r[i].0 != r[j].0
    ensures forall k :: k in m ==> exists i :: 0 <= i < |r| && r[i] == (k, m[k])
    ensures |r| == |m|
  {
    forall i | 0 <= i < |r| ensures r[i].0 in m && m[r[i].0] == r[i].1 {
      assert r[i] in multiset(r);
    }
    forall i, j | 0 <= i < j < |r| ensures r[i].0 != r[j].0 {
      TwoCopies(r, i, j);
    }
    forall k | k in m ensures exists i :: 0 <= i < |r| && r[i] == (k, m[k]) {
      assert (k, m[k]) in Entries(m);
      assert (k, m[k]) in multiset(r);
    }
    assert |r| == |multiset(r)| == |Entries(m)|;
    assert |Entries(m)| == |m.Keys| by { EntriesCard(m); }
  }

  /** Equal elements at two positions are two copies in the multiset. */
  lemma TwoCopies<T>(r: seq<T>, i: int, j: int)
    requires 0 <= i < j < |r|
    ensures r[i] == r[j] ==> multiset(r)[r[i]] >= 2
  {
    assert r == r[..i] + [r[i]] + r[i+1..j] + [r[j]] + r[j+1..];
  }

  /** A store has as many entries as ids. */
  lemma EntriesCard<K, V>(m: map<K, V>)
    ensures |Entries(m)| == |m.Keys|
    decreases |m.Keys|
  {
    if m != map[] {
      var k :| k in m;
      var m' := m - {k};
      EntriesCard(m');
      EntriesRemove(m, k);
      assert m.Keys == m'.Keys + {k};
    } else {
      assert Entries(m) == {};
    }
  }
}
