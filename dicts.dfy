/**
 * Python's `dict` as a value: the keys in insertion order and the map
 * they index. Assigning to a present key keeps its position; a new key
 * goes to the end.
 */
module Dicts {

  datatype Dict<K(==), V> = Dict(keys: seq<K>, at: map<K, V>) {

    /** Every key listed exactly once, and exactly the keys of the map. */
    predicate Valid()
    {
      && (forall i, j :: 0 <= i < j < |keys| ==> keys[i] != keys[j])
      && (forall k :: k in at ==> k in keys)
      && (forall i :: 0 <= i < |keys| ==> keys[i] in at)
    }
  }

  function Empty<K(==), V>(): (d: Dict<K, V>)
    ensures d.Valid() && d.keys == [] && d.at == map[]
  {
    Dict([], map[])
  }

  /**
   * `d[k] = v`: the entry for `k` becomes `v`, every other entry is kept,
   * and a key already present is overwritten in place without a second
   * copy of it being listed.
   */
  function Put<K(==), V>(d: Dict<K, V>, k: K, v: V): (r: Dict<K, V>)
    ensures d.Valid() ==> r.Valid()
    ensures k in r.at && r.at[k] == v
    ensures forall k' :: k' in r.at ==> k' == k || k' in d.at
    ensures forall k' :: k' in d.at && k' != k ==> k' in r.at && r.at[k'] == d.at[k']
    ensures k in d.at ==> r.keys == d.keys
    ensures k !in d.at ==> r.keys == d.keys + [k]
  {
    if k in d.at then Dict(d.keys, d.at[k := v]) else Dict(d.keys + [k], d.at[k := v])
  }

  /** The key/value pairs assigned one after the other, from the first. */
  function PutAll<K(==), V>(d: Dict<K, V>, kvs: seq<(K, V)>): (r: Dict<K, V>)
    requires d.Valid()
    ensures r.Valid()
    decreases |kvs|
  {
    if |kvs| == 0 then d
    else
      var last := kvs[|kvs| - 1];
      Put(PutAll(d, kvs[..|kvs| - 1]), last.0, last.1)
  }

  /** Assigning a first pair and then the rest is assigning them all in order. */
  lemma {:induction false} PutAllCons<K, V>(d: Dict<K, V>, k: K, v: V, rest: seq<(K, V)>)
    requires d.Valid()
    ensures PutAll(d, [(k, v)] + rest) == PutAll(Put(d, k, v), rest)
    decreases |rest|
  {
    var all := [(k, v)] + rest;
    if |rest| == 0 {
      assert all[..0] == [];
    } else {
      assert all[..|all| - 1] == [(k, v)] + rest[..|rest| - 1];
      assert all[|all| - 1] == rest[|rest| - 1];
      PutAllCons(d, k, v, rest[..|rest| - 1]);
    }
  }

  /** Whether `k` is assigned somewhere in `kvs`. */
  predicate Assigns<K(==), V>(kvs: seq<(K, V)>, k: K)
  {
    exists i :: 0 <= i < |kvs| && kvs[i].0 == k
  }

  /** The value last assigned to `k` in `kvs`. */
  function LastValue<K(==), V>(kvs: seq<(K, V)>, k: K): V
    requires Assigns(kvs, k)
    decreases |kvs|
  {
    var last := kvs[|kvs| - 1];
    if last.0 == k then last.1
    else
      var i :| 0 <= i < |kvs| && kvs[i].0 == k;
      assert kvs[..|kvs| - 1][i].0 == k;
      LastValue(kvs[..|kvs| - 1], k)
  }

  lemma AssignsLast<K, V>(kvs: seq<(K, V)>, k: K)
    requires |kvs| > 0
    ensures Assigns(kvs, k) <==> Assigns(kvs[..|kvs| - 1], k) || kvs[|kvs| - 1].0 == k
  {
    var init := kvs[..|kvs| - 1];
    if Assigns(kvs, k) && kvs[|kvs| - 1].0 != k {
      var i :| 0 <= i < |kvs| && kvs[i].0 == k;
      assert init[i].0 == k;
    }
    if Assigns(init, k) {
      var i :| 0 <= i < |init| && init[i].0 == k;
      assert kvs[i].0 == k;
    }
  }

  /**
   * After a run of assignments exactly the old keys and the assigned ones
   * are present, and the keys already present keep their order at the front.
   */
  lemma {:induction false} PutAllKeys<K, V>(d: Dict<K, V>, kvs: seq<(K, V)>)
    requires d.Valid()
    ensures forall k :: k in PutAll(d, kvs).at <==> k in d.at || Assigns(kvs, k)
    ensures |PutAll(d, kvs).keys| >= |d.keys| && PutAll(d, kvs).keys[..|d.keys|] == d.keys
    decreases |kvs|
  {
    if |kvs| > 0 {
      PutAllKeys(d, kvs[..|kvs| - 1]);
      forall k ensures Assigns(kvs, k) <==> Assigns(kvs[..|kvs| - 1], k) || kvs[|kvs| - 1].0 == k {
        AssignsLast(kvs, k);
      }
    }
  }

  /**
   * After a run of assignments each key holds the value it was last
   * assigned, or its old value if it was not assigned at all.
   */
  lemma {:induction false} PutAllValues<K, V>(d: Dict<K, V>, kvs: seq<(K, V)>, k: K)
    requires d.Valid()
    requires k in d.at || Assigns(kvs, k)
    ensures k in PutAll(d, kvs).at && PutAll(d, kvs).at[k] == if Assigns(kvs, k) then LastValue(kvs, k) else d.at[k]
    decreases |kvs|
  {
    PutAllKeys(d, kvs);
    if |kvs| > 0 {
      var init := kvs[..|kvs| - 1];
      AssignsLast(kvs, k);
      if kvs[|kvs| - 1].0 != k {
        PutAllValues(d, init, k);
      }
    }
  }

  /** Assigning keys that are all present already leaves the key order alone. */
  lemma {:induction false} PutAllPresentKeys<K, V>(d: Dict<K, V>, kvs: seq<(K, V)>)
    requires d.Valid()
    requires forall i :: 0 <= i < |kvs| ==> kvs[i].0 in d.at
    ensures PutAll(d, kvs).keys == d.keys
    decreases |kvs|
  {
    if |kvs| > 0 {
      var init := kvs[..|kvs| - 1];
      PutAllPresentKeys(d, init);
    }
  }

  /** Replaying the assignments over their own result gives each key the same value again. */
  lemma PutAllAgainValue<K, V>(d: Dict<K, V>, kvs: seq<(K, V)>, k: K)
    requires d.Valid()
    requires k in PutAll(d, kvs).at
    ensures k in PutAll(PutAll(d, kvs), kvs).at
    ensures PutAll(PutAll(d, kvs), kvs).at[k] == PutAll(d, kvs).at[k]
  {
    var once := PutAll(d, kvs);
    PutAllValues(once, kvs, k);
    if Assigns(kvs, k) {
      PutAllValues(d, kvs, k);
    }
  }

  /**
   * Replaying the same assignments over their own result changes nothing:
   * no key is listed twice and every entry keeps its value.
   */
  lemma PutAllIdempotent<K, V>(d: Dict<K, V>, kvs: seq<(K, V)>)
    requires d.Valid()
    ensures PutAll(PutAll(d, kvs), kvs) == PutAll(d, kvs)
  {
    var once := PutAll(d, kvs);
    var twice := PutAll(once, kvs);
    assert twice.keys == once.keys by {
      forall i | 0 <= i < |kvs| ensures kvs[i].0 in once.at {
        assert Assigns(kvs, kvs[i].0);
        PutAllKeys(d, kvs);
      }
      PutAllPresentKeys(once, kvs);
    }
    assert twice.at == once.at by {
      forall k ensures k in twice.at <==> k in once.at {
        PutAllKeys(d, kvs);
        PutAllKeys(once, kvs);
      }
      forall k | k in once.at ensures twice.at[k] == once.at[k] {
        PutAllAgainValue(d, kvs, k);
      }
    }
  }
  /** `d.items()`: each listed key with its value, in key order. */
  function Items<K(==), V>(d: Dict<K, V>): (r: seq<(K, V)>)
    ensures d.Valid() ==> |r| == |d.keys| && forall i :: 0 <= i < |r| ==> r[i] == (d.keys[i], d.at[d.keys[i]])
    ensures forall i :: 0 <= i < |r| ==> r[i].0 in d.at && r[i].1 == d.at[r[i].0]
  {
    ItemsOf(d.keys, d.at)
  }

  function ItemsOf<K(==), V>(keys: seq<K>, at: map<K, V>): (r: seq<(K, V)>)
    ensures (forall i :: 0 <= i < |keys| ==> keys[i] in at) ==> |r| == |keys| && forall i :: 0 <= i < |r| ==> r[i] == (keys[i], at[keys[i]])
    ensures forall i :: 0 <= i < |r| ==> r[i].0 in at && r[i].1 == at[r[i].0]
    decreases |keys|
  {
    if |keys| == 0 then []
    else
      var rest := ItemsOf(keys[1..], at);
      if keys[0] in at then [(keys[0], at[keys[0]])] + rest else rest
  }
}
