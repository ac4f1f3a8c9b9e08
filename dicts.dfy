/** Python's `dict`: a finite map that also remembers the order in which its keys
    were first inserted. Assigning to a key that is already present changes its
    value but not its position. */
module Dicts {

  datatype Dict<K, V> = Dict(keys: seq<K>, values: map<K, V>)

  /** Keys are listed once each, and exactly the keys of the map are listed. */
  ghost predicate Valid<K, V>(d: Dict<K, V>) {
    && (forall i, j :: 0 <= i < j < |d.keys| ==> d.keys[i] != d.keys[j])
    && (forall i :: 0 <= i < |d.keys| ==> d.keys[i] in d.values)
    && (forall k :: k in d.values ==> k in d.keys)
  }

  function Empty<K, V>(): (d: Dict<K, V>)
    ensures Valid(d) && d.values == map[]
  {
    Dict([], map[])
  }

  /** `d[k] = v`. */
  function Put<K, V>(d: Dict<K, V>, k: K, v: V): (r: Dict<K, V>)
    requires Valid(d)
    ensures Valid(r)
    ensures r.values == d.values[k := v]
    ensures k in d.values ==> r.keys == d.keys
    ensures k !in d.values ==> r.keys == d.keys + [k]
  {
    if k in d.values then Dict(d.keys, d.values[k := v])
    else Dict(d.keys + [k], d.values[k := v])
  }

  /** `for k, v in entries: d[k] = v`, entries taken in order. */
  function PutAll<K, V>(d: Dict<K, V>, entries: seq<(K, V)>): (r: Dict<K, V>)
    requires Valid(d)
    ensures Valid(r)
    decreases |entries|
  {
    if entries == [] then d
    else
      var last := entries[|entries| - 1];
      Put(PutAll(d, entries[..|entries| - 1]), last.0, last.1)
  }

  /** After `PutAll`, the keys are the old keys and the entries' keys, and no other. */
  lemma {:induction false} PutAllKeys<K, V>(d: Dict<K, V>, entries: seq<(K, V)>)
    requires Valid(d)
    ensures forall k :: k in PutAll(d, entries).values <==>
                        (k in d.values || exists j :: 0 <= j < |entries| && entries[j].0 == k)
    decreases |entries|
  {
    if entries != [] {
      var init := entries[..|entries| - 1];
      PutAllKeys(d, init);
      forall k
        ensures k in PutAll(d, entries).values <==>
                (k in d.values || exists j :: 0 <= j < |entries| && entries[j].0 == k)
      {
        if exists j :: 0 <= j < |init| && init[j].0 == k {
          var j :| 0 <= j < |init| && init[j].0 == k;
          assert entries[j].0 == k;
        }
        if exists j :: 0 <= j < |entries| && entries[j].0 == k {
          var j :| 0 <= j < |entries| && entries[j].0 == k;
          if j < |init| { assert init[j].0 == k; }
        }
      }
    }
  }

  /** The last entry written for a key decides its value: later writes overwrite
      earlier ones, and keys not written keep their old values. */
  lemma {:induction false} PutAllLastWins<K, V>(d: Dict<K, V>, entries: seq<(K, V)>, j: nat)
    requires Valid(d)
    requires j < |entries|
    requires forall l :: j < l < |entries| ==> entries[l].0 != entries[j].0
    ensures entries[j].0 in PutAll(d, entries).values
    ensures PutAll(d, entries).values[entries[j].0] == entries[j].1
    decreases |entries|
  {
    if j < |entries| - 1 {
      var init := entries[..|entries| - 1];
      PutAllLastWins(d, init, j);
    }
  }

  /** A key that no entry writes keeps the value it had. */
  lemma {:induction false} PutAllUntouched<K, V>(d: Dict<K, V>, entries: seq<(K, V)>, k: K)
    requires Valid(d) && k in d.values
    requires forall l :: 0 <= l < |entries| ==> entries[l].0 != k
    ensures k in PutAll(d, entries).values && PutAll(d, entries).values[k] == d.values[k]
    decreases |entries|
  {
    if entries != [] {
      PutAllUntouched(d, entries[..|entries| - 1], k);
    }
  }

  /** `PutAll` never reorders: the old keys stay a prefix of the new ones. */
  lemma {:induction false} PutAllKeepsOrder<K, V>(d: Dict<K, V>, entries: seq<(K, V)>)
    requires Valid(d)
    ensures d.keys <= PutAll(d, entries).keys
    decreases |entries|
  {
    if entries != [] {
      PutAllKeepsOrder(d, entries[..|entries| - 1]);
    }
  }
  /** Writing one more entry is one more `d[k] = v`. */
  lemma PutAllSnoc<K, V>(d: Dict<K, V>, entries: seq<(K, V)>, k: K, v: V)
    requires Valid(d)
    ensures PutAll(d, entries + [(k, v)]) == Put(PutAll(d, entries), k, v)
  {
    assert (entries + [(k, v)])[..|entries|] == entries;
  }

  /** A key some entry writes ends up holding the value of one of the entries
      that write it (the last one). */
  lemma PutAllWritten<K, V>(d: Dict<K, V>, entries: seq<(K, V)>, k: K)
    requires Valid(d)
    requires exists p :: p in entries && p.0 == k
    ensures k in PutAll(d, entries).values
    ensures (k, PutAll(d, entries).values[k]) in entries
  {
    var p :| p in entries && p.0 == k;
    var j :| 0 <= j < |entries| && entries[j] == p;
    while exists l :: j < l < |entries| && entries[l].0 == k
      invariant 0 <= j < |entries| && entries[j].0 == k
      decreases |entries| - j
    {
      var l :| j < l < |entries| && entries[l].0 == k;
      j := l;
    }
    PutAllLastWins(d, entries, j);
  }
  /** Writing two lists of entries is writing their concatenation. */
  lemma {:induction false} PutAllConcat<K, V>(d: Dict<K, V>, a: seq<(K, V)>, b: seq<(K, V)>)
    requires Valid(d)
    ensures PutAll(d, a + b) == PutAll(PutAll(d, a), b)
    decreases |b|
  {
    if b == [] {
      assert a + b == a;
    } else {
      var init := b[..|b| - 1];
      PutAllConcat(d, a, init);
      assert (a + b)[..|a + b| - 1] == a + init;
    }
  }
}
