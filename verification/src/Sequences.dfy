/** Options, results and the few sequence operations the model is written with. */
module Sequences {

  datatype Option<+T> = None | Some(value: T)

  datatype Result<+T, +E> = Success(value: T) | Failure(error: E)

  /** The concatenation of `f(x)` over `xs`, in order: map, filter and projection in one. */
  function Collect<A, B>(xs: seq<A>, f: A -> seq<B>): (ys: seq<B>)
  {
    if xs == [] then [] else f(xs[0]) + Collect(xs[1..], f)
  }

  lemma AppendNothing<A>(xs: seq<A>)
    ensures xs + [] == xs && [] + xs == xs
  {
  }

  lemma Associative<A>(xs: seq<A>, ys: seq<A>, zs: seq<A>)
    ensures (xs + ys) + zs == xs + (ys + zs)
  {
  }

  lemma TailAppend<A>(xs: seq<A>, ys: seq<A>)
    requires xs != []
    ensures (xs + ys)[0] == xs[0] && (xs + ys)[1..] == xs[1..] + ys
  {
  }

  lemma SplitAt<A>(xs: seq<A>, at: nat)
    requires at < |xs|
    ensures xs == (xs[..at] + [xs[at]]) + xs[at + 1..]
    ensures xs[..at + 1] == xs[..at] + [xs[at]]
  {
  }

  lemma LastSplit<A>(xs: seq<A>)
    requires xs != []
    ensures xs == xs[..|xs| - 1] + [xs[|xs| - 1]]
  {
  }

  lemma {:induction false} CollectAppend<A, B>(xs: seq<A>, ys: seq<A>, f: A -> seq<B>)
    ensures Collect(xs + ys, f) == Collect(xs, f) + Collect(ys, f)
  {
    if xs == [] {
      AppendNothing(ys);
      AppendNothing(Collect(ys, f));
    } else {
      CollectAppend(xs[1..], ys, f);
      TailAppend(xs, ys);
      Associative(f(xs[0]), Collect(xs[1..], f), Collect(ys, f));
    }
  }

  lemma CollectOne<A, B>(x: A, f: A -> seq<B>)
    ensures Collect([x], f) == f(x)
  {
    assert [x][1..] == [];
  }

  lemma CollectSnoc<A, B>(xs: seq<A>, x: A, f: A -> seq<B>)
    ensures Collect(xs + [x], f) == Collect(xs, f) + f(x)
  {
    CollectAppend(xs, [x], f);
    CollectOne(x, f);
  }

  lemma {:induction false} CollectNothing<A, B>(xs: seq<A>, f: A -> seq<B>)
    requires forall i :: 0 <= i < |xs| ==> f(xs[i]) == []
    ensures Collect(xs, f) == []
  {
    if xs != [] {
      assert xs[0] == xs[0];
      CollectNothing(xs[1..], f);
    }
  }

  lemma {:induction false} CollectWithout<A, B>(xs: seq<A>, at: nat, f: A -> seq<B>)
    requires at < |xs|
    ensures Collect(xs, f) == Collect(xs[..at], f) + f(xs[at]) + Collect(xs[at + 1..], f)
    ensures Collect(xs[..at] + xs[at + 1..], f) == Collect(xs[..at], f) + Collect(xs[at + 1..], f)
  {
    SplitAt(xs, at);
    CollectAppend(xs[..at] + [xs[at]], xs[at + 1..], f);
    CollectSnoc(xs[..at], xs[at], f);
    CollectAppend(xs[..at], xs[at + 1..], f);
  }

  /** The sum of `f(x)` over `xs`. */
  function Total<A>(xs: seq<A>, f: A -> nat): nat
  {
    if xs == [] then 0 else f(xs[0]) + Total(xs[1..], f)
  }

  lemma {:induction false} TotalAppend<A>(xs: seq<A>, ys: seq<A>, f: A -> nat)
    ensures Total(xs + ys, f) == Total(xs, f) + Total(ys, f)
  {
    if xs == [] {
      assert xs + ys == ys;
    } else {
      TotalAppend(xs[1..], ys, f);
      assert (xs + ys)[1..] == xs[1..] + ys;
    }
  }

  lemma TotalSnoc<A>(xs: seq<A>, x: A, f: A -> nat)
    ensures Total(xs + [x], f) == Total(xs, f) + f(x)
  {
    TotalAppend(xs, [x], f);
    assert [x][1..] == [];
  }

  lemma {:induction false} TotalUpdate<A>(xs: seq<A>, i: nat, x: A, f: A -> nat)
    requires i < |xs|
    ensures Total(xs[i := x], f) == Total(xs, f) - f(xs[i]) + f(x)
  {
    if i > 0 {
      TotalUpdate(xs[1..], i - 1, x, f);
      assert xs[i := x][1..] == xs[1..][i - 1 := x];
    } else {
      assert xs[i := x][1..] == xs[1..];
    }
  }

  /** How often `x` occurs in `xs`. */
  function Occurrences<A(==)>(xs: seq<A>, x: A): nat
  {
    if xs == [] then 0 else (if xs[0] == x then 1 else 0) + Occurrences(xs[1..], x)
  }

  lemma {:induction false} OccurrencesAppend<A>(xs: seq<A>, ys: seq<A>, x: A)
    ensures Occurrences(xs + ys, x) == Occurrences(xs, x) + Occurrences(ys, x)
  {
    if xs == [] {
      assert xs + ys == ys;
    } else {
      OccurrencesAppend(xs[1..], ys, x);
      assert (xs + ys)[1..] == xs[1..] + ys;
    }
  }

  lemma {:induction false} OccurrencesIn<A>(xs: seq<A>, x: A)
    ensures Occurrences(xs, x) > 0 <==> x in xs
  {
    if xs != [] {
      OccurrencesIn(xs[1..], x);
    }
  }

  ghost predicate Increasing(at: seq<nat>) {
    forall i, j :: 0 <= i < j < |at| ==> at[i] < at[j]
  }

  /** `sub` is found in `whole`, in order, at the positions `at`. */
  ghost predicate EmbedsAt<A(!new)>(sub: seq<A>, whole: seq<A>, at: seq<nat>) {
    && |at| == |sub|
    && Increasing(at)
    && forall k :: 0 <= k < |at| ==> at[k] < |whole| && whole[at[k]] == sub[k]
  }
}
