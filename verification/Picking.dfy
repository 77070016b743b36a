/** Counting the elements of a sequence at the positions that are, or are not, in a given set. */
module Picking {
  function Picked<T>(xs: seq<T>, marked: set<nat>, inside: bool): multiset<T> {
    if xs == [] then multiset{}
    else
      var n := |xs| - 1;
      Picked(xs[..n], marked, inside) + (if (n in marked) == inside then multiset{xs[n]} else multiset{})
  }

  lemma PickSnoc<T>(xs: seq<T>, x: T, marked: set<nat>, inside: bool)
    ensures Picked(xs + [x], marked, inside)
         == Picked(xs, marked, inside) + (if (|xs| in marked) == inside then multiset{x} else multiset{})
  {
    assert (xs + [x])[..|xs|] == xs;
  }

  lemma {:induction false} PickSame<T>(xs: seq<T>, a: set<nat>, k: nat, inside: bool)
    requires k >= |xs|
    ensures Picked(xs, a + {k}, inside) == Picked(xs, a, inside)
  {
    if xs != [] {
      PickSame(xs[..|xs| - 1], a, k, inside);
    }
  }

  lemma CountSwap<T>(u: multiset<T>, v: multiset<T>, w: multiset<T>)
    ensures u + v + w == u + w + v
  {
  }

  /** Marking one more position moves its element from the outside to the inside. */
  lemma {:induction false} PickMore<T>(xs: seq<T>, a: set<nat>, k: nat)
    requires k < |xs| && k !in a
    ensures Picked(xs, a + {k}, true) == Picked(xs, a, true) + multiset{xs[k]}
    ensures Picked(xs, a, false) == Picked(xs, a + {k}, false) + multiset{xs[k]}
  {
    var n := |xs| - 1;
    var rest := xs[..n];
    if k == n {
      PickSame(rest, a, k, true);
      PickSame(rest, a, k, false);
      assert Picked(rest, a + {k}, false) + multiset{} == Picked(rest, a, false);
    } else {
      PickMore(rest, a, k);
      var e := multiset{xs[k]};
      CountSwap(Picked(rest, a, true), e, if n in a then multiset{xs[n]} else multiset{});
      CountSwap(Picked(rest, a + {k}, false), e, if n in a then multiset{} else multiset{xs[n]});
    }
  }

  lemma {:induction false} PickAll<T>(xs: seq<T>, marked: set<nat>)
    requires forall k: nat :: k < |xs| ==> k in marked
    ensures Picked(xs, marked, false) == multiset{}
    ensures Picked(xs, marked, true) == multiset(xs)
  {
    if xs != [] {
      var n := |xs| - 1;
      PickAll(xs[..n], marked);
      assert xs == xs[..n] + [xs[n]];
    }
  }
}
