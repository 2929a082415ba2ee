/** Insertion-ordered dictionaries: JavaScript's `Map` (section 24.1.3 of ECMA-262, 2023
    edition) and Python's `dict`.  Setting a key that is present keeps its position. */
module Dictionaries {
  import opened Sequences

  datatype Entry<K, V> = Entry(key: K, value: V)

  type Dict<K, V> = seq<Entry<K, V>>

  function Find<K(==), V>(d: Dict<K, V>, k: K): Option<V> {
    if d == [] then None else if d[0].key == k then Some(d[0].value) else Find(d[1..], k)
  }

  function Put<K(==), V>(d: Dict<K, V>, k: K, v: V): Dict<K, V> {
    if d == [] then [Entry(k, v)]
    else if d[0].key == k then [Entry(k, v)] + d[1..]
    else [d[0]] + Put(d[1..], k, v)
  }

  function Remove<K(==), V>(d: Dict<K, V>, k: K): Dict<K, V> {
    if d == [] then [] else if d[0].key == k then d[1..] else [d[0]] + Remove(d[1..], k)
  }

  ghost predicate Distinct<K, V>(d: Dict<K, V>) {
    forall i, j :: 0 <= i < j < |d| ==> d[i].key != d[j].key
  }

  lemma {:induction false} FindHit<K, V>(d: Dict<K, V>, k: K)
    ensures Find(d, k).Some? ==> Entry(k, Find(d, k).value) in d
    ensures Find(d, k).None? ==> forall i :: 0 <= i < |d| ==> d[i].key != k
  {
    if d != [] && d[0].key != k {
      FindHit(d[1..], k);
      assert forall i :: 1 <= i < |d| ==> d[i] == d[1..][i - 1];
    }
  }

  lemma FindNone<K, V>(d: Dict<K, V>, k: K)
    requires forall i :: 0 <= i < |d| ==> d[i].key != k
    ensures Find(d, k) == None
  {
  }

  lemma FindUnique<K, V>(d: Dict<K, V>, i: nat)
    requires Distinct(d) && i < |d|
    ensures Find(d, d[i].key) == Some(d[i].value)
  {
    if i > 0 {
      assert d[0].key != d[i].key;
      FindUnique(d[1..], i - 1);
    }
  }

  /** A write changes the one entry of its key in place, or appends one. */
  lemma {:induction false} PutShape<K, V>(d: Dict<K, V>, k: K, v: V)
    requires Distinct(d)
    ensures |Put(d, k, v)| == |d| + if Find(d, k).Some? then 0 else 1
    ensures forall i :: 0 <= i < |d| ==> Put(d, k, v)[i] == if d[i].key == k then Entry(k, v) else d[i]
    ensures Find(d, k).None? ==> Put(d, k, v) == d + [Entry(k, v)]
  {
    if d != [] {
      assert forall i :: 1 <= i < |d| ==> d[i] == d[1..][i - 1] && d[i].key != d[0].key;
      if d[0].key != k {
        PutShape(d[1..], k, v);
      }
    }
  }

  lemma {:induction false} PutFacts<K, V>(d: Dict<K, V>, k: K, v: V)
    requires Distinct(d)
    ensures Distinct(Put(d, k, v))
    ensures |Put(d, k, v)| == |d| + if Find(d, k).Some? then 0 else 1
    ensures Find(d, k).None? ==> Put(d, k, v) == d + [Entry(k, v)]
  {
    hide Find, Put;
    PutShape(d, k, v);
    FindHit(d, k);
  }

  lemma FindPut<K, V>(d: Dict<K, V>, k: K, v: V, j: K)
    ensures Find(Put(d, k, v), j) == if j == k then Some(v) else Find(d, j)
  {
  }

  lemma {:induction false} RemoveAt<K, V>(d: Dict<K, V>, k: K, i: nat) returns (j: nat)
    requires i < |Remove(d, k)|
    ensures i <= j < |d| && Remove(d, k)[i] == d[j]
  {
    if d[0].key == k {
      j := i + 1;
    } else if i == 0 {
      j := 0;
    } else {
      j := RemoveAt(d[1..], k, i - 1);
      j := j + 1;
    }
  }

  lemma {:induction false} RemoveFacts<K, V>(d: Dict<K, V>, k: K)
    requires Distinct(d)
    ensures Distinct(Remove(d, k))
    ensures |Remove(d, k)| == |d| - if Find(d, k).Some? then 1 else 0
  {
    if d != [] && d[0].key != k {
      RemoveFacts(d[1..], k);
      forall i | 0 <= i < |Remove(d[1..], k)| ensures Remove(d[1..], k)[i].key != d[0].key {
        var j := RemoveAt(d[1..], k, i);
        assert d[1..][j] == d[j + 1];
      }
    }
  }

  lemma FindRemove<K, V>(d: Dict<K, V>, k: K, j: K)
    requires Distinct(d)
    ensures Find(Remove(d, k), j) == if j == k then None else Find(d, j)
  {
    if d != [] && d[0].key == k {
      assert forall i :: 0 <= i < |d[1..]| ==> d[1..][i].key == d[i + 1].key != d[0].key;
      FindNone(d[1..], k);
    } else if d != [] {
      FindRemove(d[1..], k, j);
    }
  }

  // ---------------------------------------------------------------- trimming

  function TrimLimit(maxEntries: int): (n: nat)
    ensures n >= 1
  {
    if maxEntries < 1 then 1 else maxEntries
  }

  function Trimmed<K, V>(d: Dict<K, V>, maxEntries: int): Dict<K, V> {
    LastN(d, TrimLimit(maxEntries))
  }

  /** The entries a trim throws away. */
  function Dropped<K, V>(d: Dict<K, V>, maxEntries: int): Dict<K, V> {
    d[..|d| - |Trimmed(d, maxEntries)|]
  }

  lemma FindConcat<K, V>(a: Dict<K, V>, b: Dict<K, V>, k: K)
    ensures Find(a + b, k) == if Find(a, k).Some? then Find(a, k) else Find(b, k)
  {
    if a == [] {
      assert a + b == b;
    } else {
      assert (a + b)[1..] == a[1..] + b;
    }
  }

  lemma FindTrimmed<K, V>(d: Dict<K, V>, maxEntries: int, k: K)
    requires Distinct(d)
    ensures Find(Trimmed(d, maxEntries), k)
            == if Find(Dropped(d, maxEntries), k).Some? then None else Find(d, k)
    ensures Distinct(Trimmed(d, maxEntries)) && Distinct(Dropped(d, maxEntries))
  {
    var a, b := Dropped(d, maxEntries), Trimmed(d, maxEntries);
    assert d == a + b;
    FindConcat(a, b, k);
    if Find(a, k).Some? {
      FindHit(a, k);
      assert forall i, j :: 0 <= i < |a| && 0 <= j < |b| ==> a[i].key != b[j].key;
      FindNone(b, k);
    }
  }

  /** A map whose keys all come from a set is no larger than the set. */
  lemma {:induction false} SizeByKeys<K, V>(d: Dict<K, V>, keys: set<K>)
    requires Distinct(d) && forall k :: Find(d, k).Some? ==> k in keys
    ensures |d| <= |keys|
  {
    var ks := seq(|d|, i requires 0 <= i < |d| => d[i].key);
    forall i | 0 <= i < |d| ensures ks[i] in keys {
      FindUnique(d, i);
    }
    Cardinality(ks);
    var used := set k | k in ks;
    assert keys == used + (keys - used);
  }

  /** A write of one of the keys trims nothing when the limit has room for all of them. */
  lemma {:induction false} WriteTrimsNothing<K(!new), V>(c: Dict<K, V>, key: K, value: V, limit: int, keys: set<K>)
    requires Distinct(c) && key in keys && |keys| <= TrimLimit(limit)
    requires forall k :: Find(c, k).Some? ==> k in keys
    ensures var full := Put(c, key, value); Trimmed(full, limit) == full && Dropped(full, limit) == []
    ensures forall k :: Find(Put(c, key, value), k).Some? ==> k in keys
  {
    hide Find, Put;
    PutFacts(c, key, value);
    forall k { FindPut(c, key, value, k); }
    SizeByKeys(Put(c, key, value), keys);
  }

  /** In a map within its limit, a write followed by a trim keeps the limit and the entry. */
  lemma {:induction false} PutThenTrim<K, V>(d: Dict<K, V>, k: K, v: V, limit: int)
    requires Distinct(d) && |d| <= TrimLimit(limit)
    ensures var after := Trimmed(Put(d, k, v), limit);
      |after| <= TrimLimit(limit) && Find(after, k) == Some(v)
  {
    var full := Put(d, k, v);
    PutFacts(d, k, v);
    FindPut(d, k, v, k);
    FindTrimmed(full, limit, k);
    if |full| > TrimLimit(limit) {
      assert Dropped(full, limit) == [d[0]];
      FindHit(d, k);
    } else {
      assert Dropped(full, limit) == [];
    }
  }

  /** The map object: every mutation is one of the functions above. */
  class LinkedMap<K(==), V> {
    var entries: Dict<K, V>

    constructor ()
      ensures entries == []
    {
      entries := [];
    }

    method Get(k: K) returns (v: Option<V>)
      ensures v == Find(entries, k)
    {
      var i := 0;
      while i < |entries|
        invariant i <= |entries|
        invariant Find(entries, k) == Find(entries[i..], k)
      {
        if entries[i].key == k {
          return Some(entries[i].value);
        }
        i := i + 1;
      }
      v := None;
    }

    method Set(k: K, v: V)
      modifies this
      ensures entries == Put(old(entries), k, v)
    {
      entries := Put(entries, k, v);
    }

    method Delete(k: K)
      modifies this
      ensures entries == Remove(old(entries), k)
    {
      entries := Remove(entries, k);
    }

    /** `trimMap`: deletes the oldest entry until the map fits. */
    method Trim(maxEntries: int)
      modifies this
      ensures entries == Trimmed(old(entries), maxEntries)
    {
      var limit := if maxEntries == 0 then 1 else maxEntries;
      if limit < 1 {
        limit := 1;
      }
      while |entries| > limit
        invariant |entries| <= |old(entries)|
        invariant entries == old(entries)[|old(entries)| - |entries|..]
        invariant |entries| < |old(entries)| ==> |entries| >= limit
      {
        var oldest := entries[0].key;
        Delete(oldest);
      }
    }
  }
}
