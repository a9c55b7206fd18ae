/** Sequence helpers shared by the parser, the renderer and the stream loops. */
module Seqs {
  import opened Wrappers

  function Last<T>(s: seq<T>): T
    requires |s| > 0
  {
    s[|s| - 1]
  }

  function DropLast<T>(s: seq<T>): seq<T>
    requires |s| > 0
  {
    s[..|s| - 1]
  }

  /** Python's `xs[:n]` for n >= 0: the first n elements, or all of them when there are fewer. */
  function Take<T>(s: seq<T>, n: nat): (r: seq<T>)
    ensures |r| == if n <= |s| then n else |s|
    ensures forall i :: 0 <= i < |r| ==> r[i] == s[i]
  {
    if n <= |s| then s[..n] else s
  }

  /** Python's `[f(x) for x in xs]`. */
  function Map<A, B>(f: A -> B, s: seq<A>): (r: seq<B>)
    ensures |r| == |s|
    ensures forall i :: 0 <= i < |s| ==> r[i] == f(s[i])
  {
    seq(|s|, i requires 0 <= i < |s| => f(s[i]))
  }

  lemma MapSnoc<A, B>(f: A -> B, s: seq<A>, x: A)
    ensures Map(f, s + [x]) == Map(f, s) + [f(x)]
  {
    assert Map(f, s + [x])[|s|] == f(x);
  }

  lemma PrefixSnoc<T>(s: seq<T>, i: nat)
    requires i < |s|
    ensures s[..i + 1] == s[..i] + [s[i]]
  {
  }

  /** Appending the next element of `s` to `acc + s[..i]` extends the slice by one. */
  lemma AppendNext<T>(acc: seq<T>, s: seq<T>, i: nat)
    requires i < |s|
    ensures (acc + s[..i]) + [s[i]] == acc + s[..i + 1]
  {
    assert s[..i + 1] == s[..i] + [s[i]];
  }

  lemma MapPrefix<A, B>(f: A -> B, s: seq<A>, i: nat)
    requires i < |s|
    ensures Map(f, s[..i + 1]) == Map(f, s[..i]) + [f(s[i])]
  {
    assert s[..i + 1] == s[..i] + [s[i]];
    MapSnoc(f, s[..i], s[i]);
  }

  /** Mapping distributes over concatenation. */
  lemma MapConcat<A, B>(f: A -> B, s: seq<A>, t: seq<A>)
    ensures Map(f, s + t) == Map(f, s) + Map(f, t)
  {
    var l := Map(f, s + t);
    var r := Map(f, s) + Map(f, t);
    forall i | 0 <= i < |l| ensures l[i] == r[i] {
      if i < |s| {
        assert (s + t)[i] == s[i];
      } else {
        assert (s + t)[i] == t[i - |s|];
      }
    }
  }

  /** Taking the first `n` of a longer sequence extends what is taken from its prefix, and
      changes nothing once the prefix already has `n` elements. */
  lemma TakePrefix<T>(s: seq<T>, t: seq<T>, n: nat)
    requires s <= t
    ensures Take(s, n) <= Take(t, n)
    ensures n <= |s| ==> Take(t, n) == Take(s, n)
  {
    if n <= |s| {
      assert Take(t, n) == t[..n] == s[..n];
    }
  }

  /** Appending `x` grows the first `n` elements by `x` exactly when there were fewer than `n`. */
  lemma TakeSnoc<T>(s: seq<T>, x: T, n: nat)
    ensures Take(s + [x], n) == if |s| < n then Take(s, n) + [x] else Take(s, n)
  {
    if |s| < n {
      assert Take(s + [x], n) == s + [x];
    } else {
      assert (s + [x])[..n] == s[..n];
    }
  }

  /** A loop that applies `f` to each element in turn and stops at the first failure:
      the results gathered so far, and the error that stopped it. */
  function MapUntilError<X, T, E>(f: X -> Result<T, E>, xs: seq<X>): (seq<T>, Option<E>) {
    if xs == [] then ([], None)
    else
      var r := MapUntilError(f, DropLast(xs));
      if r.1.Some? then r
      else match f(Last(xs))
        case Success(h) => (r.0 + [h], None)
        case Failure(x) => (r.0, Some(x))
  }
  /** Everything before the stop succeeded, in order; the stop is the first failure. */
  lemma {:induction false} MapUntilErrorSpec<X, T, E>(f: X -> Result<T, E>, xs: seq<X>)
    ensures |MapUntilError(f, xs).0| <= |xs|
    ensures forall i :: 0 <= i < |MapUntilError(f, xs).0| ==> f(xs[i]) == Success(MapUntilError(f, xs).0[i])
    ensures MapUntilError(f, xs).1.None? ==> |MapUntilError(f, xs).0| == |xs|
    ensures MapUntilError(f, xs).1.Some? ==>
      |MapUntilError(f, xs).0| < |xs| && f(xs[|MapUntilError(f, xs).0|]) == Failure(MapUntilError(f, xs).1.value)
  {
    if xs != [] {
      var pre := DropLast(xs);
      MapUntilErrorSpec(f, pre);
      var r := MapUntilError(f, pre);
      assert forall i :: 0 <= i < |pre| ==> pre[i] == xs[i];
      if r.1.None? {
        assert |r.0| == |pre| && xs[|pre|] == Last(xs);
        match f(Last(xs))
        case Success(h) =>
          var done := r.0 + [h];
          assert MapUntilError(f, xs) == (done, None);
          forall i | 0 <= i < |done| ensures f(xs[i]) == Success(done[i]) {
            if i < |pre| {
              assert done[i] == r.0[i];
            }
          }
        case Failure(x) =>
          assert MapUntilError(f, xs) == (r.0, Some(x));
      } else {
        assert MapUntilError(f, xs) == r;
      }
    }
  }

  /** `for x in xs: acc.append(f(x))`. */
  method AppendMapped<A, B>(acc: seq<B>, f: A -> B, xs: seq<A>) returns (r: seq<B>)
    ensures r == acc + Map(f, xs)
  {
    r := acc;
    for i := 0 to |xs|
      invariant r == acc + Map(f, xs[..i])
    {
      MapPrefix(f, xs, i);
      r := r + [f(xs[i])];
    }
    assert xs[..|xs|] == xs;
  }

  /** A loop that renders each element under its 1-based number, concatenating the parts
      and stopping at the first failure. */
  function ConcatNumbered<X, T, E>(f: (X, nat) -> Result<seq<T>, E>, xs: seq<X>): Result<seq<T>, E> {
    if xs == [] then Success([])
    else
      var before :- ConcatNumbered(f, DropLast(xs));
      var last :- f(Last(xs), |xs|);
      Success(before + last)
  }

  predicate OkAt<X, T, E>(f: (X, nat) -> Result<seq<T>, E>, xs: seq<X>, i: nat)
    requires i < |xs|
  {
    f(xs[i], i + 1).Success?
  }

  /** The concatenation succeeds exactly when every element renders under its number; a
      failure is the error of the first element that does not. */
  lemma {:induction false} ConcatNumberedSpec<X, T, E>(f: (X, nat) -> Result<seq<T>, E>, xs: seq<X>)
    ensures ConcatNumbered(f, xs).Success? <==> forall i :: 0 <= i < |xs| ==> OkAt(f, xs, i)
    ensures ConcatNumbered(f, xs).Failure? ==>
      exists i :: 0 <= i < |xs| && f(xs[i], i + 1) == Failure(ConcatNumbered(f, xs).error)
        && forall j :: 0 <= j < i ==> OkAt(f, xs, j)
  {
    if xs != [] {
      var pre := DropLast(xs);
      ConcatNumberedSpec(f, pre);
      assert forall i :: 0 <= i < |pre| ==> pre[i] == xs[i];
      assert forall i :: 0 <= i < |pre| ==> (OkAt(f, pre, i) <==> OkAt(f, xs, i));
      if ConcatNumbered(f, pre).Failure? {
        var i :| 0 <= i < |pre| && f(pre[i], i + 1) == Failure(ConcatNumbered(f, pre).error)
          && forall j :: 0 <= j < i ==> OkAt(f, pre, j);
        assert f(xs[i], i + 1) == Failure(ConcatNumbered(f, xs).error);
      } else if f(Last(xs), |xs|).Failure? {
        assert !OkAt(f, xs, |pre|);
        assert f(xs[|pre|], |pre| + 1) == Failure(ConcatNumbered(f, xs).error);
      }
    }
  }

  /** One more successful step extends the gathered results. */
  lemma MapUntilErrorStep<X, T, E>(f: X -> Result<T, E>, xs: seq<X>, i: nat)
    requires i < |xs| && MapUntilError(f, xs[..i]).1.None? && f(xs[i]).Success?
    ensures MapUntilError(f, xs[..i + 1]) == (MapUntilError(f, xs[..i]).0 + [f(xs[i]).value], None)
  {
    assert DropLast(xs[..i + 1]) == xs[..i];
  }

  /** A failure at step `i`, after `i` successes, is where the whole run stops. */
  lemma {:induction false} MapUntilErrorStops<X, T, E>(f: X -> Result<T, E>, xs: seq<X>, i: nat)
    requires i < |xs| && MapUntilError(f, xs[..i]).1.None? && f(xs[i]).Failure?
    ensures MapUntilError(f, xs) == (MapUntilError(f, xs[..i]).0, Some(f(xs[i]).error))
    decreases |xs|
  {
    assert DropLast(xs[..i + 1]) == xs[..i];
    if |xs| == i + 1 {
      assert xs[..i + 1] == xs;
    } else {
      var pre := DropLast(xs);
      assert pre[..i] == xs[..i] && pre[i] == xs[i];
      MapUntilErrorStops(f, pre, i);
    }
  }

  /** A failure at element `i`, after `i` successes, is where the concatenation stops. */
  lemma {:induction false} ConcatNumberedStops<X, T, E>(f: (X, nat) -> Result<seq<T>, E>, xs: seq<X>, i: nat)
    requires i < |xs| && ConcatNumbered(f, xs[..i]).Success? && f(xs[i], i + 1).Failure?
    ensures ConcatNumbered(f, xs) == Failure(f(xs[i], i + 1).error)
    decreases |xs|
  {
    assert DropLast(xs[..i + 1]) == xs[..i];
    if |xs| == i + 1 {
      assert xs[..i + 1] == xs;
    } else {
      var pre := DropLast(xs);
      assert pre[..i] == xs[..i] && pre[i] == xs[i];
      ConcatNumberedStops(f, pre, i);
    }
  }

  /** A header followed by one mapped element per line, in order. */
  lemma Listing<A, B>(header: B, f: A -> B, s: seq<A>)
    ensures var r := [header] + Map(f, s);
      |r| == |s| + 1 && r[0] == header && forall i :: 0 <= i < |s| ==> r[i + 1] == f(s[i])
  {
  }

  /** Where the parts of `a + b + c` sit. */
  lemma ThreeParts<T>(a: seq<T>, b: seq<T>, c: seq<T>)
    ensures var r := a + b + c;
      && |r| == |a| + |b| + |c|
      && (forall i :: 0 <= i < |a| ==> r[i] == a[i])
      && (forall i :: 0 <= i < |b| ==> r[|a| + i] == b[i])
      && (forall i :: 0 <= i < |c| ==> r[|a| + |b| + i] == c[i])
  {
    var ab := a + b;
    var r := ab + c;
    forall i | 0 <= i < |b| ensures r[|a| + i] == b[i] {
      assert r[|a| + i] == ab[|a| + i];
    }
    forall i | 0 <= i < |a| ensures r[i] == a[i] {
      assert r[i] == ab[i];
    }
  }

  /** A header, one mapped element per line, then trailing lines. */
  lemma ListingThen<A, B>(header: B, f: A -> B, s: seq<A>, trailer: seq<B>)
    ensures var r := [header] + Map(f, s) + trailer;
      && |r| == |s| + 1 + |trailer| && r[0] == header
      && (forall i :: 0 <= i < |s| ==> r[i + 1] == f(s[i]))
      && (forall j :: 0 <= j < |trailer| ==> r[|s| + 1 + j] == trailer[j])
  {
    var l := [header] + Map(f, s);
    Listing(header, f, s);
    var r := l + trailer;
    forall i | 0 <= i < |s| ensures r[i + 1] == f(s[i]) {
      assert r[i + 1] == l[i + 1];
    }
  }

  /** `[f(x) for x in xs]` where `f` can raise: every result, or the first error. */
  function MapResult<X, T, E>(f: X -> Result<T, E>, xs: seq<X>): Result<seq<T>, E> {
    if xs == [] then Success([])
    else
      var before :- MapResult(f, DropLast(xs));
      var last :- f(Last(xs));
      Success(before + [last])
  }

  /** The comprehension succeeds exactly when every element does, and then holds each
      element's result in order. */
  lemma {:induction false} MapResultSpec<X, T, E>(f: X -> Result<T, E>, xs: seq<X>)
    ensures MapResult(f, xs).Success? <==> forall i :: 0 <= i < |xs| ==> f(xs[i]).Success?
    ensures MapResult(f, xs).Success? ==>
      |MapResult(f, xs).value| == |xs| && forall i :: 0 <= i < |xs| ==> f(xs[i]) == Success(MapResult(f, xs).value[i])
  {
    if xs != [] {
      var pre := DropLast(xs);
      MapResultSpec(f, pre);
      assert forall i :: 0 <= i < |pre| ==> pre[i] == xs[i];
      if MapResult(f, pre).Success? && f(Last(xs)).Success? {
        var r := MapResult(f, pre).value + [f(Last(xs)).value];
        assert MapResult(f, xs) == Success(r);
        forall i | 0 <= i < |xs| ensures f(xs[i]) == Success(r[i]) {
          if i < |pre| {
            assert r[i] == MapResult(f, pre).value[i];
          }
        }
      } else if MapResult(f, pre).Failure? {
        var i :| 0 <= i < |pre| && f(pre[i]).Failure?;
        assert f(xs[i]).Failure?;
      } else {
        assert f(xs[|pre|]).Failure?;
      }
    }
  }

  /** One more successful element extends the results. */
  lemma MapResultStep<X, T, E>(f: X -> Result<T, E>, xs: seq<X>, i: nat)
    requires i < |xs| && MapResult(f, xs[..i]).Success? && f(xs[i]).Success?
    ensures MapResult(f, xs[..i + 1]) == Success(MapResult(f, xs[..i]).value + [f(xs[i]).value])
  {
    assert DropLast(xs[..i + 1]) == xs[..i];
  }

  /** A failure at element `i`, after `i` successes, is the error of the whole comprehension. */
  lemma {:induction false} MapResultStops<X, T, E>(f: X -> Result<T, E>, xs: seq<X>, i: nat)
    requires i < |xs| && MapResult(f, xs[..i]).Success? && f(xs[i]).Failure?
    ensures MapResult(f, xs) == Failure(f(xs[i]).error)
    decreases |xs|
  {
    assert DropLast(xs[..i + 1]) == xs[..i];
    if |xs| == i + 1 {
      assert xs[..i + 1] == xs;
    } else {
      var pre := DropLast(xs);
      assert pre[..i] == xs[..i] && pre[i] == xs[i];
      MapResultStops(f, pre, i);
    }
  }
}
