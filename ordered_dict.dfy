/**
 * Python dictionaries as the source uses them: keys iterate in the order in
 * which they were first inserted, and assigning to a present key replaces its
 * value without moving it.
 */
module OrderedDict {

  datatype ODict<K(==, !new), V> = ODict(keys: seq<K>, entries: map<K, V>) {

    /** Keys are listed once each, and exactly the keys of `entries` are listed. */
    ghost predicate Valid() {
      && (forall i, j :: 0 <= i < j < |keys| ==> keys[i] != keys[j])
      && (forall k :: k in entries <==> k in keys)
    }

    /** `d[k] = v` */
    function Put(k: K, v: V): (d: ODict<K, V>)
      requires Valid()
      ensures d.Valid()
      ensures k in d.entries && d.entries[k] == v
      ensures forall k' :: k' != k ==> (k' in d.entries <==> k' in entries)
      ensures forall k' :: k' != k && k' in entries ==> d.entries[k'] == entries[k']
      ensures k in entries ==> d.keys == keys
      ensures k !in entries ==> d.keys == keys + [k]
    {
      ODict(if k in entries then keys else keys + [k], entries[k := v])
    }

    /** `list(d.values())`: the values in key order. */
    function Values(): (vs: seq<V>)
      requires Valid()
      ensures |vs| == |keys|
      ensures forall i :: 0 <= i < |keys| ==> vs[i] == entries[keys[i]]
    {
      seq(|keys|, i requires 0 <= i < |keys| => entries[keys[i]])
    }
  }

  function Empty<K(==, !new), V>(): (d: ODict<K, V>)
    ensures d.Valid() && d.keys == [] && d.entries == map[]
  {
    ODict([], map[])
  }

  /** `d = {}; for k, v in ps: d[k] = v` */
  function FromPairs<K(==, !new), V>(ps: seq<(K, V)>): (d: ODict<K, V>)
    ensures d.Valid()
  {
    if ps == [] then Empty() else FromPairs(ps[..|ps| - 1]).Put(ps[|ps| - 1].0, ps[|ps| - 1].1)
  }

  /** Index of the first pair whose key is `k`, or `|ps|` when there is none. */
  function FirstAt<K(==, !new), V>(ps: seq<(K, V)>, k: K): (i: nat)
    ensures i <= |ps|
    ensures i < |ps| ==> ps[i].0 == k
    ensures forall j :: 0 <= j < i ==> ps[j].0 != k
  {
    if ps == [] then 0 else if ps[0].0 == k then 0 else 1 + FirstAt(ps[1..], k)
  }

  /** No pair after index `i` has the key of pair `i`. */
  ghost predicate LastFor<K(!new), V>(ps: seq<(K, V)>, i: int)
    requires 0 <= i < |ps|
  {
    forall j :: i < j < |ps| ==> ps[j].0 != ps[i].0
  }

  lemma FirstAtAppend<K(!new), V>(ps: seq<(K, V)>, p: (K, V), k: K)
    requires FirstAt(ps, k) < |ps|
    ensures FirstAt(ps + [p], k) == FirstAt(ps, k)
  {
    var i := FirstAt(ps, k);
    var j := FirstAt(ps + [p], k);
    assert (ps + [p])[i] == ps[i];
  }

  /** Exactly the keys that occur in `ps` are present. */
  lemma {:induction false} FromPairsKeys<K(!new), V>(ps: seq<(K, V)>)
    ensures forall k :: k in FromPairs(ps).entries <==> FirstAt(ps, k) < |ps|
  {
    if ps != [] {
      var init := ps[..|ps| - 1];
      FromPairsKeys(init);
      forall k ensures k in FromPairs(ps).entries <==> FirstAt(ps, k) < |ps| {
        if FirstAt(init, k) < |init| {
          FirstAtAppend(init, ps[|ps| - 1], k);
          assert ps == init + [ps[|ps| - 1]];
        } else if k != ps[|ps| - 1].0 {
          assert forall j :: 0 <= j < |ps| ==> ps[j].0 != k by {
            forall j | 0 <= j < |ps| ensures ps[j].0 != k {
              if j < |init| { assert ps[j] == init[j]; }
            }
          }
        }
      }
    }
  }

  /** The value kept for a key is the one of the last pair with that key. */
  lemma {:induction false} FromPairsLastWins<K(!new), V>(ps: seq<(K, V)>)
    ensures forall i :: 0 <= i < |ps| && LastFor(ps, i) ==>
      ps[i].0 in FromPairs(ps).entries && FromPairs(ps).entries[ps[i].0] == ps[i].1
  {
    if ps != [] {
      var init := ps[..|ps| - 1];
      FromPairsLastWins(init);
      forall i | 0 <= i < |ps| && LastFor(ps, i)
        ensures ps[i].0 in FromPairs(ps).entries && FromPairs(ps).entries[ps[i].0] == ps[i].1
      {
        if i < |init| {
          assert ps[i] == init[i];
          assert LastFor(init, i) by {
            forall j | i < j < |init| ensures init[j].0 != init[i].0 {
              assert init[j] == ps[j];
            }
          }
        }
      }
    }
  }

  /** Keys are listed in the order in which they first occur in `ps`. */
  lemma {:induction false} FromPairsFirstOrder<K(!new), V>(ps: seq<(K, V)>)
    ensures forall a, b :: 0 <= a < b < |FromPairs(ps).keys| ==>
      FirstAt(ps, FromPairs(ps).keys[a]) < FirstAt(ps, FromPairs(ps).keys[b])
  {
    if ps != [] {
      var init := ps[..|ps| - 1];
      var last := ps[|ps| - 1];
      assert ps == init + [last];
      FromPairsFirstOrder(init);
      FromPairsKeys(init);
      var d := FromPairs(init);
      forall k | k in d.keys ensures FirstAt(ps, k) == FirstAt(init, k) {
        FirstAtAppend(init, last, k);
      }
      if last.0 !in d.entries {
        assert FirstAt(ps, last.0) == |init| by {
          assert ps[|init|].0 == last.0;
        }
      }
    }
  }

  /** Every value kept comes from a pair of `ps` with its key. */
  lemma {:induction false} FromPairsValuesFrom<K(!new), V>(ps: seq<(K, V)>)
    ensures forall k :: k in FromPairs(ps).entries ==>
      exists i :: 0 <= i < |ps| && ps[i] == (k, FromPairs(ps).entries[k])
  {
    if ps != [] {
      var init := ps[..|ps| - 1];
      var last := ps[|ps| - 1];
      FromPairsValuesFrom(init);
      assert FromPairs(ps) == FromPairs(init).Put(last.0, last.1);
      forall k | k in FromPairs(ps).entries
        ensures exists i :: 0 <= i < |ps| && ps[i] == (k, FromPairs(ps).entries[k])
      {
        if k == last.0 {
          assert ps[|ps| - 1] == (k, FromPairs(ps).entries[k]);
        } else {
          var i :| 0 <= i < |init| && init[i] == (k, FromPairs(init).entries[k]);
          assert ps[i] == init[i];
        }
      }
    }
  }
}
