/** Folding a sequence from the left, as a loop over it does. */
module Folds {
  function Folded<S, T>(f: (S, T) -> S, start: S, items: seq<T>): S
    decreases |items|
  {
    if items == [] then start
    else f(Folded(f, start, items[..|items| - 1]), items[|items| - 1])
  }

  lemma {:induction false} FoldedGoesOn<S, T>(f: (S, T) -> S, start: S, items: seq<T>, at: nat)
    requires at < |items|
    ensures Folded(f, start, items[..at + 1]) == f(Folded(f, start, items[..at]), items[at])
  {
    assert items[..at + 1][..at] == items[..at];
  }

  ghost predicate Commutes<S(!new), T(!new)>(f: (S, T) -> S) {
    forall state, x, y :: f(f(state, x), y) == f(f(state, y), x)
  }

  function Without<T>(items: seq<T>, at: nat): seq<T>
    requires at < |items|
  {
    items[..at] + items[at + 1..]
  }

  /** Where effects commute, an item may as well have come last. */
  lemma {:induction false} MayComeLast<S(!new), T(!new)>(f: (S, T) -> S, start: S, items: seq<T>, at: nat)
    requires Commutes(f) && at < |items|
    ensures Folded(f, start, items) == f(Folded(f, start, Without(items, at)), items[at])
    decreases |items|
  {
    var last := |items| - 1;
    if at == last {
      assert Without(items, at) == items[..last];
    } else {
      var front := items[..last];
      MayComeLast(f, start, front, at);
      assert Without(items, at)[..last - 1] == Without(front, at);
      var before := Folded(f, start, Without(front, at));
      assert f(f(before, items[at]), items[last]) == f(f(before, items[last]), items[at]);
    }
  }

  lemma {:induction false} WithoutHolds<T>(items: seq<T>, at: nat)
    requires at < |items|
    ensures multiset(items) == multiset(Without(items, at)) + multiset{items[at]}
  {
    assert items == items[..at] + ([items[at]] + items[at + 1..]);
  }

  lemma {:induction false} SameRest<T>(some: multiset<T>, others: multiset<T>, item: T)
    requires some + multiset{item} == others + multiset{item}
    ensures some == others
  {
    assert some == (some + multiset{item}) - multiset{item};
    assert others == (others + multiset{item}) - multiset{item};
  }

  /** Where effects commute, only what is folded counts, not its order. */
  lemma {:induction false} OrderDoesNotMatter<S(!new), T(!new)>(f: (S, T) -> S, start: S, items: seq<T>, others: seq<T>)
    requires Commutes(f) && multiset(items) == multiset(others)
    ensures Folded(f, start, items) == Folded(f, start, others)
    decreases |items|
  {
    if items == [] {
      assert others == [] by { assert |multiset(others)| == 0; }
    } else {
      var last := |items| - 1;
      assert items[last] in multiset(others);
      var at :| 0 <= at < |others| && others[at] == items[last];
      WithoutHolds(items, last);
      WithoutHolds(others, at);
      assert Without(items, last) == items[..last];
      SameRest(multiset(items[..last]), multiset(Without(others, at)), items[last]);
      OrderDoesNotMatter(f, start, items[..last], Without(others, at));
      MayComeLast(f, start, others, at);
    }
  }
}
