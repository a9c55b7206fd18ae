/** Python's `sorted(xs, key=key)` on integer keys: a stable sort, written as an insertion
    sort over a key function. */
module Sorting {
  import opened Wrappers

  predicate SortedBy<T>(key: T -> int, xs: seq<T>) {
    forall i, j :: 0 <= i < j < |xs| ==> key(xs[i]) <= key(xs[j])
  }

  /** The elements whose key is `k`, in their order in `xs`. */
  function WithKey<T>(key: T -> int, xs: seq<T>, k: int): seq<T> {
    if xs == [] then []
    else (if key(xs[0]) == k then [xs[0]] else []) + WithKey(key, xs[1..], k)
  }

  /** Puts `x` in front of the first element whose key is not smaller. */
  function Insert<T>(key: T -> int, x: T, xs: seq<T>): seq<T> {
    if xs == [] then [x]
    else if key(x) <= key(xs[0]) then [x] + xs
    else [xs[0]] + Insert(key, x, xs[1..])
  }

  /** Each element, front to back, inserted into the sorted rest. */
  function Sort<T>(key: T -> int, xs: seq<T>): seq<T> {
    if xs == [] then [] else Insert(key, xs[0], Sort(key, xs[1..]))
  }

  lemma {:induction false} InsertPermutes<T>(key: T -> int, x: T, xs: seq<T>)
    ensures multiset(Insert(key, x, xs)) == multiset(xs) + multiset{x}
  {
    if xs != [] && key(x) > key(xs[0]) {
      InsertPermutes(key, x, xs[1..]);
      assert xs == [xs[0]] + xs[1..];
    }
  }

  lemma {:induction false} SortPermutes<T>(key: T -> int, xs: seq<T>)
    ensures multiset(Sort(key, xs)) == multiset(xs)
  {
    if xs != [] {
      SortPermutes(key, xs[1..]);
      InsertPermutes(key, xs[0], Sort(key, xs[1..]));
      assert xs == [xs[0]] + xs[1..];
    }
  }

  lemma {:induction false} InsertSorted<T>(key: T -> int, x: T, xs: seq<T>)
    requires SortedBy(key, xs)
    ensures SortedBy(key, Insert(key, x, xs))
  {
    if xs != [] && key(xs[0]) < key(x) {
      var rest := Insert(key, x, xs[1..]);
      InsertSorted(key, x, xs[1..]);
      InsertPermutes(key, x, xs[1..]);
      var r := [xs[0]] + rest;
      forall j | 0 <= j < |rest| ensures key(xs[0]) <= key(rest[j]) {
        assert rest[j] in multiset(rest);
        assert rest[j] == x || rest[j] in xs[1..];
      }
      forall i, j | 0 <= i < j < |r| ensures key(r[i]) <= key(r[j]) {
        assert r[j] == rest[j - 1];
        if i > 0 {
          assert r[i] == rest[i - 1];
        }
      }
    }
  }

  lemma {:induction false} SortSorted<T>(key: T -> int, xs: seq<T>)
    ensures SortedBy(key, Sort(key, xs))
  {
    if xs != [] {
      SortSorted(key, xs[1..]);
      InsertSorted(key, xs[0], Sort(key, xs[1..]));
    }
  }

  lemma WithKeyCons<T>(key: T -> int, y: T, ys: seq<T>, k: int)
    ensures WithKey(key, [y] + ys, k) == (if key(y) == k then [y] else []) + WithKey(key, ys, k)
  {
    var r := [y] + ys;
    assert r[0] == y && r[1..] == ys;
  }

  /** The elements `Insert` passes over have keys below `key(x)`, so `x` joins the elements
      with its key in front of them. */
  lemma {:induction false} InsertStable<T>(key: T -> int, x: T, xs: seq<T>, k: int)
    ensures WithKey(key, Insert(key, x, xs), k) == (if key(x) == k then [x] else []) + WithKey(key, xs, k)
  {
    if xs == [] {
      assert Insert(key, x, xs) == [x] + [];
      WithKeyCons(key, x, [], k);
    } else if key(x) <= key(xs[0]) {
      assert Insert(key, x, xs) == [x] + xs;
      WithKeyCons(key, x, xs, k);
    } else {
      var own := if key(x) == k then [x] else [];
      var head := if key(xs[0]) == k then [xs[0]] else [];
      var rest := Insert(key, x, xs[1..]);
      assert Insert(key, x, xs) == [xs[0]] + rest;
      WithKeyCons(key, xs[0], rest, k);
      InsertStable(key, x, xs[1..], k);
      assert xs == [xs[0]] + xs[1..];
      WithKeyCons(key, xs[0], xs[1..], k);
      assert head == [] || own == [];
      assert head + (own + WithKey(key, xs[1..], k)) == own + (head + WithKey(key, xs[1..], k));
    }
  }

  /** Elements with equal keys keep their relative order. */
  lemma {:induction false} SortStable<T>(key: T -> int, xs: seq<T>, k: int)
    ensures WithKey(key, Sort(key, xs), k) == WithKey(key, xs, k)
  {
    if xs != [] {
      SortStable(key, xs[1..], k);
      InsertStable(key, xs[0], Sort(key, xs[1..]), k);
    }
  }

  /** The sorted sequence is an ascending, stable permutation of its input. */
  lemma SortSpec<T>(key: T -> int, xs: seq<T>)
    ensures multiset(Sort(key, xs)) == multiset(xs)
    ensures |Sort(key, xs)| == |xs|
    ensures SortedBy(key, Sort(key, xs))
    ensures forall k :: WithKey(key, Sort(key, xs), k) == WithKey(key, xs, k)
  {
    SortPermutes(key, xs);
    assert |multiset(Sort(key, xs))| == |multiset(xs)|;
    SortSorted(key, xs);
    forall k ensures WithKey(key, Sort(key, xs), k) == WithKey(key, xs, k) {
      SortStable(key, xs, k);
    }
  }

  /** Every element has a key. */
  predicate AllKeyed<T>(key: T -> Option<int>, xs: seq<T>) {
    forall i :: 0 <= i < |xs| ==> key(xs[i]).Some?
  }

  /** The first element without a key: the one whose key computation raises first. */
  function FirstUnkeyed<T>(key: T -> Option<int>, xs: seq<T>): (i: nat)
    requires !AllKeyed(key, xs)
    ensures i < |xs| && key(xs[i]).None? && AllKeyed(key, xs[..i])
  {
    if key(xs[0]).None? then 0
    else
      assert !AllKeyed(key, xs[1..]) by {
        var j :| 0 <= j < |xs| && key(xs[j]).None?;
        assert xs[1..][j - 1] == xs[j];
      }
      var i := FirstUnkeyed(key, xs[1..]);
      1 + i
  }
}
