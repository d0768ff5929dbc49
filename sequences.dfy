/** Mapping a function over a sequence, as a Java stream `map` does. */
module Sequences {
  function Map<A, B>(xs: seq<A>, f: A -> B): (r: seq<B>)
    ensures |r| == |xs|
  {
    if xs == [] then [] else [f(xs[0])] + Map(xs[1..], f)
  }

  lemma {:induction false} MapAt<A, B>(xs: seq<A>, f: A -> B, i: nat)
    requires i < |xs|
    ensures Map(xs, f)[i] == f(xs[i])
  {
    if i > 0 {
      MapAt(xs[1..], f, i - 1);
    }
  }

  lemma MapAll<A, B>(xs: seq<A>, f: A -> B)
    ensures forall i | 0 <= i < |xs| :: Map(xs, f)[i] == f(xs[i])
  {
    forall i | 0 <= i < |xs| ensures Map(xs, f)[i] == f(xs[i]) {
      MapAt(xs, f, i);
    }
  }

  lemma {:induction false} MapAppend<A, B>(xs: seq<A>, ys: seq<A>, f: A -> B)
    ensures Map(xs + ys, f) == Map(xs, f) + Map(ys, f)
  {
    if xs != [] {
      assert (xs + ys)[1..] == xs[1..] + ys;
      MapAppend(xs[1..], ys, f);
    } else {
      assert xs + ys == ys;
    }
  }

  /** Removing the same element from both sides of a permutation leaves a permutation. */
  lemma RemoveMatched<A>(xs: seq<A>, ys: seq<A>, k: nat)
    requires multiset(xs) == multiset(ys) && |xs| > 0 && k < |ys| && ys[k] == xs[0]
    ensures multiset(xs[1..]) == multiset(ys[..k] + ys[k + 1..])
  {
    assert xs == [xs[0]] + xs[1..];
    assert ys == ys[..k] + [ys[k]] + ys[k + 1..];
    calc {
      multiset(xs[1..]);
      multiset(xs) - multiset{xs[0]};
      multiset(ys) - multiset{xs[0]};
      multiset(ys[..k] + ys[k + 1..]);
    }
  }

  lemma MapAround<A, B>(ys: seq<A>, k: nat, f: A -> B)
    requires k < |ys|
    ensures Map(ys, f) == Map(ys[..k], f) + [f(ys[k])] + Map(ys[k + 1..], f)
    ensures Map(ys[..k] + ys[k + 1..], f) == Map(ys[..k], f) + Map(ys[k + 1..], f)
  {
    var front, back := ys[..k], ys[k + 1..];
    assert ys == (front + [ys[k]]) + back;
    MapAppend(front + [ys[k]], back, f);
    MapAppend(front, [ys[k]], f);
    assert Map([ys[k]], f) == [f(ys[k])];
    MapAppend(front, back, f);
  }

  /** Mapping a permutation gives a permutation of the images. */
  lemma {:induction false} MapPermutation<A, B>(xs: seq<A>, ys: seq<A>, f: A -> B)
    requires multiset(xs) == multiset(ys)
    ensures multiset(Map(xs, f)) == multiset(Map(ys, f))
    decreases |xs|
  {
    if xs == [] {
      assert |ys| == |multiset(ys)| == 0;
    } else {
      assert xs[0] in multiset(ys);
      var k :| 0 <= k < |ys| && ys[k] == xs[0];
      RemoveMatched(xs, ys, k);
      MapPermutation(xs[1..], ys[..k] + ys[k + 1..], f);
      MapAround(ys, k, f);
      assert Map(xs, f) == [f(xs[0])] + Map(xs[1..], f);
    }
  }
}
