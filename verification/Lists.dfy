/** Sequences read as sets. */
module Lists {
  function Members<T>(s: seq<T>): set<T> { set x | x in s }

  predicate Distinct<T(==)>(s: seq<T>) { forall i, j :: 0 <= i < j < |s| ==> s[i] != s[j] }

  lemma {:induction false} MembersCount<T>(s: seq<T>)
    requires Distinct(s)
    ensures |Members(s)| == |s|
  {
    if s != [] {
      MembersCount(s[1..]);
      assert Members(s) == {s[0]} + Members(s[1..]);
      assert s[0] !in Members(s[1..]);
    }
  }

  /** A nested-loop join: what f yields for each element, in order. */
  function FlatMap<A, B>(xs: seq<A>, f: A -> seq<B>): seq<B> {
    if xs == [] then [] else f(xs[0]) + FlatMap(xs[1..], f)
  }

  /** The one law of nested loops that histories need: elements that yield what they yielded, and new ones
      that yield nothing, leave the join as it was. */
  lemma {:induction false} FlatMapExtends<A, B>(xs: seq<A>, ys: seq<A>, f: A -> seq<B>, g: A -> seq<B>)
    requires |xs| <= |ys|
    requires forall i :: 0 <= i < |xs| ==> g(ys[i]) == f(xs[i])
    requires forall i :: |xs| <= i < |ys| ==> g(ys[i]) == []
    ensures FlatMap(ys, g) == FlatMap(xs, f)
    decreases |ys|
  {
    if ys != [] {
      FlatMapExtends(if xs == [] then [] else xs[1..], ys[1..], f, g);
    }
  }

  /** What holds of everything each element yields holds of the join. */
  lemma {:induction false} FlatMapAll<A, B>(xs: seq<A>, f: A -> seq<B>, p: B -> bool)
    requires forall x, b :: x in xs && b in f(x) ==> p(b)
    ensures forall b :: b in FlatMap(xs, f) ==> p(b)
  {
    if xs != [] {
      assert xs[0] in xs && forall x :: x in xs[1..] ==> x in xs;
      FlatMapAll(xs[1..], f, p);
    }
  }
}
