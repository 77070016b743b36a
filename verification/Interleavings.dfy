/** Interleavings of concurrent threads of events under an arbitrary scheduler. */
module Interleavings {
  /** The part of `x` contributed by thread `i`, where `tags[k]` names the thread of `x[k]`. */
  function Project<T>(x: seq<T>, tags: seq<nat>, i: nat): seq<T>
    requires |x| == |tags|
  {
    if x == [] then []
    else
      var n := |x| - 1;
      Project(x[..n], tags[..n], i) + (if tags[n] == i then [x[n]] else [])
  }

  ghost predicate Interleaving<T>(x: seq<T>, tags: seq<nat>, threads: seq<seq<T>>) {
    && |x| == |tags|
    && (forall k :: 0 <= k < |tags| ==> tags[k] < |threads|)
    && (forall i :: 0 <= i < |threads| ==> Project(x, tags, i) == threads[i])
  }

  lemma ProjectSnoc<T>(x: seq<T>, tags: seq<nat>, e: T, j: nat, i: nat)
    requires |x| == |tags|
    ensures Project(x + [e], tags + [j], i) == Project(x, tags, i) + (if i == j then [e] else [])
  {
    assert (x + [e])[..|x|] == x && (tags + [j])[..|x|] == tags;
  }

  function Union<T>(threads: seq<seq<T>>): multiset<T> {
    if threads == [] then multiset{}
    else Union(threads[..|threads| - 1]) + multiset(threads[|threads| - 1])
  }

  lemma UnionOneMore<T>(threads: seq<seq<T>>, thread: seq<T>)
    ensures Union(threads + [thread]) == Union(threads) + multiset(thread)
  {
    assert (threads + [thread])[..|threads|] == threads;
  }

  function Projections<T>(x: seq<T>, tags: seq<nat>, n: nat): seq<seq<T>>
    requires |x| == |tags|
  {
    seq(n, i requires 0 <= i < n => Project(x, tags, i))
  }

  lemma {:induction false} UnionUnfold<T>(x: seq<T>, tags: seq<nat>, n: nat)
    requires |x| == |tags| && n > 0
    ensures Union(Projections(x, tags, n))
         == Union(Projections(x, tags, n - 1)) + multiset(Project(x, tags, n - 1))
  {
    assert Projections(x, tags, n)[..n - 1] == Projections(x, tags, n - 1);
  }

  lemma CountOneMore<T>(u: multiset<T>, v: seq<T>, e: T)
    ensures u + multiset(v + [e]) == u + multiset(v) + multiset{e}
    ensures u + multiset{e} + multiset(v + []) == u + multiset(v) + multiset{e}
    ensures u + multiset{} + multiset(v + []) == u + multiset(v) + multiset{}
    ensures u + multiset{} + multiset(v + [e]) == u + multiset(v) + multiset{e}
  {
    assert v + [] == v;
  }

  lemma {:induction false} UnionSnoc<T>(x: seq<T>, tags: seq<nat>, e: T, j: nat, n: nat)
    requires |x| == |tags|
    ensures Union(Projections(x + [e], tags + [j], n))
         == Union(Projections(x, tags, n)) + (if j < n then multiset{e} else multiset{})
  {
    if n > 0 {
      UnionSnoc(x, tags, e, j, n - 1);
      ProjectSnoc(x, tags, e, j, n - 1);
      UnionUnfold(x, tags, n);
      UnionUnfold(x + [e], tags + [j], n);
      CountOneMore(Union(Projections(x, tags, n - 1)), Project(x, tags, n - 1), e);
    }
  }

  lemma {:induction false} UnionEmpty<T>(n: nat)
    ensures Union(Projections<T>([], [], n)) == multiset{}
  {
    if n > 0 {
      UnionEmpty<T>(n - 1);
      assert Projections<T>([], [], n)[..n - 1] == Projections<T>([], [], n - 1);
    }
  }

  lemma {:induction false} ProjectionsCover<T>(x: seq<T>, tags: seq<nat>, n: nat)
    requires |x| == |tags|
    requires forall k :: 0 <= k < |tags| ==> tags[k] < n
    ensures multiset(x) == Union(Projections(x, tags, n))
  {
    if x == [] {
      UnionEmpty<T>(n);
    } else {
      var m := |x| - 1;
      var e, j, before, tagsBefore := x[m], tags[m], x[..m], tags[..m];
      assert x == before + [e] && tags == tagsBefore + [j];
      ProjectionsCover(before, tagsBefore, n);
      UnionSnoc(before, tagsBefore, e, j, n);
      assert multiset(before + [e]) == multiset(before) + multiset{e};
    }
  }

  /** No scheduler loses, repeats or invents an event. */
  lemma InterleavingConserves<T>(x: seq<T>, tags: seq<nat>, threads: seq<seq<T>>)
    requires Interleaving(x, tags, threads)
    ensures multiset(x) == Union(threads)
  {
    ProjectionsCover(x, tags, |threads|);
    assert Projections(x, tags, |threads|) == threads;
  }

  lemma {:induction false} ProjectPrefix<T>(x: seq<T>, tags: seq<nat>, m: nat, i: nat)
    requires |x| == |tags| && m <= |x|
    ensures Project(x[..m], tags[..m], i) <= Project(x, tags, i)
  {
    var n := |x| - 1;
    if m == |x| {
      assert x[..m] == x && tags[..m] == tags;
    } else {
      ProjectPrefix(x[..n], tags[..n], m, i);
      assert x[..n][..m] == x[..m] && tags[..n][..m] == tags[..m];
    }
  }

  /** An element of the interleaving belongs to some thread. */
  lemma {:induction false} InterleavingElement<T>(x: seq<T>, tags: seq<nat>, k: nat)
    requires |x| == |tags| && k < |x|
    ensures x[k] in Project(x, tags, tags[k])
  {
    var n := |x| - 1;
    if k < n {
      InterleavingElement(x[..n], tags[..n], k);
    }
  }

  lemma {:induction false} ProjectElement<T>(x: seq<T>, tags: seq<nat>, i: nat, e: T)
    requires |x| == |tags| && e in Project(x, tags, i)
    ensures e in x
  {
    var n := |x| - 1;
    if e in Project(x[..n], tags[..n], i) {
      ProjectElement(x[..n], tags[..n], i, e);
    }
  }
}
