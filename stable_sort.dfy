/**
 * Python's `list.sort(key=..., reverse=True)` and `sorted(..., reverse=True)`:
 * a stable sort into descending key order. Every sort key the source uses is
 * a float, an int, or a (float, int) tuple compared lexicographically, so
 * keys are modelled as a pair of a real and an int.
 */
module StableSort {

  datatype Key = Key(primary: real, secondary: int)

  /** Tuple comparison `a >= b`. */
  predicate Ge(a: Key, b: Key) {
    a.primary > b.primary || (a.primary == b.primary && a.secondary >= b.secondary)
  }

  ghost predicate SortedDesc<T>(s: seq<T>, key: T -> Key) {
    forall i, j :: 0 <= i < j < |s| ==> Ge(key(s[i]), key(s[j]))
  }

  /** The elements of `s` whose key is `k`, in their order in `s`. */
  function WithKey<T>(s: seq<T>, key: T -> Key, k: Key): seq<T> {
    if s == [] then []
    else (if key(s[0]) == k then [s[0]] else []) + WithKey(s[1..], key, k)
  }

  /**
   * Stability: two sequences agree on the relative order of equal-key
   * elements when, for every key, they list the same elements in the same order.
   */
  ghost predicate SameOrderPerKey<T>(r: seq<T>, s: seq<T>, key: T -> Key) {
    forall k :: WithKey(r, key, k) == WithKey(s, key, k)
  }

  /** Puts `x` after every element whose key is at least `key(x)`. */
  function Insert<T>(x: T, r: seq<T>, key: T -> Key): (r': seq<T>)
    ensures multiset(r') == multiset(r) + multiset{x}
    ensures |r'| == |r| + 1
  {
    if r == [] then [x]
    else if !Ge(key(r[0]), key(x)) then [x] + r
    else
      assert r == [r[0]] + r[1..];
      [r[0]] + Insert(x, r[1..], key)
  }

  lemma {:induction false} InsertSorted<T>(x: T, r: seq<T>, key: T -> Key)
    requires SortedDesc(r, key)
    ensures SortedDesc(Insert(x, r, key), key)
  {
    if r != [] && Ge(key(r[0]), key(x)) {
      var tail := Insert(x, r[1..], key);
      InsertSorted(x, r[1..], key);
      forall i | 0 <= i < |tail| ensures Ge(key(r[0]), key(tail[i])) {
        assert tail[i] in multiset(tail);
        if tail[i] != x {
          assert tail[i] in multiset(r[1..]);
          var j :| 0 <= j < |r[1..]| && r[1..][j] == tail[i];
          assert r[j + 1] == tail[i];
        }
      }
      var r' := [r[0]] + tail;
      forall i, j | 0 <= i < j < |r'| ensures Ge(key(r'[i]), key(r'[j])) {
        if i > 0 { assert r'[i] == tail[i - 1] && r'[j] == tail[j - 1]; }
        else { assert r'[j] == tail[j - 1]; }
      }
    } else if r != [] {
      var r' := [x] + r;
      forall i, j | 0 <= i < j < |r'| ensures Ge(key(r'[i]), key(r'[j])) {
        if i > 0 { assert r'[i] == r[i - 1] && r'[j] == r[j - 1]; }
        else { assert r'[j] == r[j - 1]; assert Ge(key(r[0]), key(r[j - 1])) || j == 1; }
      }
    }
  }

  /** Insertion sort that inserts each element after the ones already placed. */
  function SortDesc<T>(s: seq<T>, key: T -> Key): (r: seq<T>)
    ensures multiset(r) == multiset(s)
    ensures |r| == |s|
  {
    if s == [] then []
    else
      assert s == s[..|s| - 1] + [s[|s| - 1]];
      Insert(s[|s| - 1], SortDesc(s[..|s| - 1], key), key)
  }

  /** `s[:n]` */
  function Take<T>(s: seq<T>, n: nat): (r: seq<T>)
    ensures |r| == if |s| < n then |s| else n
    ensures r <= s
  {
    if |s| <= n then s else s[..n]
  }

  lemma {:induction false} WithKeyAppend<T>(a: seq<T>, b: seq<T>, key: T -> Key, k: Key)
    ensures WithKey(a + b, key, k) == WithKey(a, key, k) + WithKey(b, key, k)
  {
    if a == [] {
      assert a + b == b;
    } else {
      assert (a + b)[1..] == a[1..] + b;
      WithKeyAppend(a[1..], b, key, k);
    }
  }

  lemma {:induction false} WithKeyNone<T>(s: seq<T>, key: T -> Key, k: Key)
    requires forall i :: 0 <= i < |s| ==> key(s[i]) != k
    ensures WithKey(s, key, k) == []
  {
    if s != [] {
      WithKeyNone(s[1..], key, k);
    }
  }

  /** The case where `x` goes in front of everything. */
  lemma WithKeyInsertFront<T>(x: T, r: seq<T>, key: T -> Key, k: Key)
    requires SortedDesc(r, key)
    requires r == [] || !Ge(key(r[0]), key(x))
    ensures WithKey(Insert(x, r, key), key, k)
         == WithKey(r, key, k) + (if key(x) == k then [x] else [])
  {
    var tag := if key(x) == k then [x] else [];
    assert Insert(x, r, key) == [x] + r;
    if key(x) == k {
      assert forall i :: 0 <= i < |r| ==> key(r[i]) != k by {
        forall i | 0 <= i < |r| ensures key(r[i]) != k {
          if i > 0 { assert Ge(key(r[0]), key(r[i])); }
        }
      }
      WithKeyNone(r, key, k);
    }
    WithKeyAppend([x], r, key, k);
    assert WithKey([x], key, k) == tag + WithKey([x][1..], key, k);
  }

  lemma {:induction false} WithKeyInsert<T>(x: T, r: seq<T>, key: T -> Key, k: Key)
    requires SortedDesc(r, key)
    ensures WithKey(Insert(x, r, key), key, k)
         == WithKey(r, key, k) + (if key(x) == k then [x] else [])
  {
    if r == [] || !Ge(key(r[0]), key(x)) {
      WithKeyInsertFront(x, r, key, k);
    } else {
      var tag := if key(x) == k then [x] else [];
      var rest := r[1..];
      var head := if key(r[0]) == k then [r[0]] else [];
      assert SortedDesc(rest, key) by {
        forall i, j | 0 <= i < j < |rest| ensures Ge(key(rest[i]), key(rest[j])) {
          assert rest[i] == r[i + 1] && rest[j] == r[j + 1];
        }
      }
      assert Insert(x, r, key) == [r[0]] + Insert(x, rest, key);
      WithKeyInsert(x, rest, key, k);
      calc {
        WithKey(Insert(x, r, key), key, k);
        WithKey([r[0]] + Insert(x, rest, key), key, k);
        { assert ([r[0]] + Insert(x, rest, key))[0] == r[0];
          assert ([r[0]] + Insert(x, rest, key))[1..] == Insert(x, rest, key); }
        head + WithKey(Insert(x, rest, key), key, k);
        head + (WithKey(rest, key, k) + tag);
        (head + WithKey(rest, key, k)) + tag;
        WithKey(r, key, k) + tag;
      }
    }
  }

  lemma {:induction false} SortDescSorted<T>(s: seq<T>, key: T -> Key)
    ensures SortedDesc(SortDesc(s, key), key)
  {
    if s != [] {
      SortDescSorted(s[..|s| - 1], key);
      InsertSorted(s[|s| - 1], SortDesc(s[..|s| - 1], key), key);
    }
  }

  lemma {:induction false} SortDescStableAt<T>(s: seq<T>, key: T -> Key, k: Key)
    ensures WithKey(SortDesc(s, key), key, k) == WithKey(s, key, k)
  {
    if s != [] {
      var init, x := s[..|s| - 1], s[|s| - 1];
      var sortedInit := SortDesc(init, key);
      var tag := if key(x) == k then [x] else [];
      SortDescSorted(init, key);
      calc {
        WithKey(SortDesc(s, key), key, k);
        WithKey(Insert(x, sortedInit, key), key, k);
        { WithKeyInsert(x, sortedInit, key, k); }
        WithKey(sortedInit, key, k) + tag;
        { SortDescStableAt(init, key, k); }
        WithKey(init, key, k) + tag;
        { assert WithKey([x], key, k) == tag + WithKey([x][1..], key, k); }
        WithKey(init, key, k) + WithKey([x], key, k);
        { WithKeyAppend(init, [x], key, k); }
        WithKey(init + [x], key, k);
        { assert s == init + [x]; }
        WithKey(s, key, k);
      }
    }
  }

  /** The sort is stable: equal keys keep their input order. */
  lemma SortDescStable<T>(s: seq<T>, key: T -> Key)
    ensures SameOrderPerKey(SortDesc(s, key), s, key)
  {
    forall k ensures WithKey(SortDesc(s, key), key, k) == WithKey(s, key, k) {
      SortDescStableAt(s, key, k);
    }
  }
}
