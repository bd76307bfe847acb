/** Lists that are built by appending in a loop. */
module Sequences {

  ghost predicate NoDuplicates<T>(s: seq<T>) {
    forall i, j :: 0 <= i < j < |s| ==> s[i] != s[j]
  }

  /** What a loop over `xs` collects if it appends `f(x)` in every round. */
  function FlatMap<X, Y>(xs: seq<X>, f: X -> seq<Y>): seq<Y> {
    if xs == [] then []
    else
      var n := |xs| - 1;
      FlatMap(xs[..n], f) + f(xs[n])
  }

  lemma {:induction false} InFlatMap<X, Y>(xs: seq<X>, f: X -> seq<Y>, y: Y)
    ensures y in FlatMap(xs, f) <==> exists x <- xs :: y in f(x)
  {
    if xs != [] {
      var n := |xs| - 1;
      InFlatMap(xs[..n], f, y);
      if y in FlatMap(xs[..n], f) {
        var x :| x in xs[..n] && y in f(x);
        assert x in xs;
      } else if y in f(xs[n]) {
        assert xs[n] in xs;
      } else if x :| x in xs && y in f(x) {
        assert x in xs[..n];
      }
    }
  }

  /** No two elements have the same value of `g`. */
  ghost predicate DistinctBy<Y, Z>(ys: seq<Y>, g: Y -> Z) {
    forall i, j :: 0 <= i < j < |ys| ==> g(ys[i]) != g(ys[j])
  }

  lemma DistinctConcat<Y, Z>(ys: seq<Y>, zs: seq<Y>, g: Y -> Z)
    requires DistinctBy(ys, g) && DistinctBy(zs, g)
    requires forall y <- ys, z <- zs :: g(y) != g(z)
    ensures DistinctBy(ys + zs, g)
  {
  }

  lemma {:induction false} DistinctFlatMap<X, Y, Z>(xs: seq<X>, f: X -> seq<Y>, g: Y -> Z)
    requires NoDuplicates(xs)
    requires forall x <- xs :: DistinctBy(f(x), g)
    requires forall i, j :: 0 <= i < j < |xs| ==> forall y <- f(xs[i]), z <- f(xs[j]) :: g(y) != g(z)
    ensures DistinctBy(FlatMap(xs, f), g)
  {
    if xs != [] {
      var n := |xs| - 1;
      DistinctFlatMap(xs[..n], f, g);
      forall y <- FlatMap(xs[..n], f), z <- f(xs[n]) ensures g(y) != g(z) {
        InFlatMap(xs[..n], f, y);
        var x :| x in xs[..n] && y in f(x);
        var i :| 0 <= i < n && xs[i] == x;
      }
      DistinctConcat(FlatMap(xs[..n], f), f(xs[n]), g);
    }
  }
}
