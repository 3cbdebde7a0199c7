/** Sequences made from sequences, element by element. */
module Sequences {

  /** What `f` makes of the elements, one after the other. */
  function FlatMap<A, B>(f: A -> seq<B>, xs: seq<A>): seq<B> {
    if xs == [] then [] else FlatMap(f, xs[..|xs| - 1]) + f(xs[|xs| - 1])
  }

  lemma FlatMapMore<A, B>(f: A -> seq<B>, xs: seq<A>, x: A)
    ensures FlatMap(f, xs + [x]) == FlatMap(f, xs) + f(x)
  {
    assert (xs + [x])[..|xs|] == xs;
  }

  lemma {:induction false} FlatMapJoins<A, B>(f: A -> seq<B>, xs: seq<A>, ys: seq<A>)
    ensures FlatMap(f, xs + ys) == FlatMap(f, xs) + FlatMap(f, ys)
  {
    if ys == [] {
      assert xs + ys == xs;
    } else {
      var n := |ys| - 1;
      FlatMapJoins(f, xs, ys[..n]);
      assert (xs + ys)[..|xs| + n] == xs + ys[..n];
    }
  }

  lemma FlatMapOne<A, B>(f: A -> seq<B>, x: A)
    ensures FlatMap(f, [x]) == f(x)
  {
    assert [x][..0] == [];
    assert [] + f(x) == f(x);
  }

  lemma FlatMapFirst<A, B>(f: A -> seq<B>, xs: seq<A>)
    requires xs != []
    ensures FlatMap(f, xs) == f(xs[0]) + FlatMap(f, xs[1..])
  {
    assert xs == [xs[0]] + xs[1..];
    FlatMapJoins(f, [xs[0]], xs[1..]);
    FlatMapOne(f, xs[0]);
  }

  function Without<A>(xs: seq<A>, k: nat): (rest: seq<A>)
    requires k < |xs|
    ensures |rest| == |xs| - 1
  {
    xs[..k] + xs[k + 1..]
  }

  lemma TakenOut<A, B>(f: A -> seq<B>, xs: seq<A>, k: nat)
    requires k < |xs|
    ensures multiset(FlatMap(f, xs)) == multiset(FlatMap(f, Without(xs, k))) + multiset(f(xs[k]))
    ensures multiset(xs) == multiset(Without(xs, k)) + multiset{xs[k]}
  {
    var front, back := xs[..k], xs[k + 1..];
    assert xs == front + ([xs[k]] + back);
    FlatMapJoins(f, front, [xs[k]] + back);
    FlatMapJoins(f, [xs[k]], back);
    FlatMapOne(f, xs[k]);
    FlatMapJoins(f, front, back);
  }

  /** The order of the elements does not matter to what there is of their images. */
  lemma {:induction false} FlatMapInAnyOrder<A, B>(f: A -> seq<B>, xs: seq<A>, ys: seq<A>)
    requires multiset(xs) == multiset(ys)
    ensures multiset(FlatMap(f, xs)) == multiset(FlatMap(f, ys))
    decreases |xs|
  {
    if xs == [] {
      NoneInNothing(ys);
    } else {
      var k := Find(ys, xs[0]);
      TakenOut(f, xs, 0);
      TakenOut(f, ys, k);
      Cancel(multiset(Without(xs, 0)), multiset(Without(ys, k)), multiset{xs[0]});
      FlatMapInAnyOrder(f, Without(xs, 0), Without(ys, k));
    }
  }

  lemma NoneInNothing<A>(ys: seq<A>)
    requires multiset(ys) == multiset{}
    ensures ys == []
  {
    if ys != [] { FirstIsIn(ys); }
  }

  lemma FirstIsIn<A>(ys: seq<A>)
    requires ys != []
    ensures ys[0] in multiset(ys)
  {
  }

  lemma Find<A>(ys: seq<A>, x: A) returns (k: nat)
    requires x in multiset(ys)
    ensures k < |ys| && ys[k] == x
  {
    k :| k < |ys| && ys[k] == x;
  }

  lemma Cancel<A>(a: multiset<A>, b: multiset<A>, c: multiset<A>)
    requires a + c == b + c
    ensures a == b
  {
    forall x: A
      ensures a[x] == b[x]
    {
      assert (a + c)[x] == a[x] + c[x] && (b + c)[x] == b[x] + c[x];
    }
  }

  lemma {:induction false} FlatMapHas<A, B>(f: A -> seq<B>, xs: seq<A>, y: B)
    ensures y in FlatMap(f, xs) <==> exists x :: x in xs && y in f(x)
  {
    if xs != [] {
      FlatMapHas(f, xs[..|xs| - 1], y);
      assert xs == xs[..|xs| - 1] + [xs[|xs| - 1]];
    }
  }

  lemma Uncons<A>(xs: seq<A>, ys: seq<A>)
    requires xs != []
    ensures xs + ys == [xs[0]] + (xs[1..] + ys)
  {
  }
}
