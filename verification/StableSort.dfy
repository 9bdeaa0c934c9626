/**
 The stable sort of Rust's `sort_by` and `sort_by_key`, used for routes, network events and
 trace steps.
 */
module StableSort {

  ghost predicate TotalPreorder<T(!new)>(leq: (T, T) -> bool) {
    && (forall a, b :: leq(a, b) || leq(b, a))
    && (forall a, b, c :: leq(a, b) && leq(b, c) ==> leq(a, c))
  }

  ghost predicate Sorted<T>(xs: seq<T>, leq: (T, T) -> bool) {
    forall i, j :: 0 <= i < j < |xs| ==> leq(xs[i], xs[j])
  }

  /** Inserts `x` before every equal element, so that earlier elements stay earlier. */
  function Insert<T>(x: T, xs: seq<T>, leq: (T, T) -> bool): seq<T> {
    if xs == [] || leq(x, xs[0]) then [x] + xs else [xs[0]] + Insert(x, xs[1..], leq)
  }

  function Sort<T>(xs: seq<T>, leq: (T, T) -> bool): seq<T> {
    if xs == [] then [] else Insert(xs[0], Sort(xs[1..], leq), leq)
  }

  lemma {:induction false} InsertAdds<T>(x: T, xs: seq<T>, leq: (T, T) -> bool)
    ensures multiset(Insert(x, xs, leq)) == multiset(xs) + multiset{x}
    ensures forall y :: y in Insert(x, xs, leq) <==> y == x || y in xs
  {
    if xs != [] && !leq(x, xs[0]) {
      InsertAdds(x, xs[1..], leq);
      assert xs == [xs[0]] + xs[1..];
    }
  }

  lemma SortedCons<T(!new)>(x: T, xs: seq<T>, leq: (T, T) -> bool)
    requires Sorted(xs, leq) && forall y :: y in xs ==> leq(x, y)
    ensures Sorted([x] + xs, leq)
  {
  }

  lemma LeastBefore<T(!new)>(x: T, xs: seq<T>, leq: (T, T) -> bool)
    requires TotalPreorder(leq) && Sorted(xs, leq) && xs != [] && leq(x, xs[0])
    ensures forall y :: y in xs ==> leq(x, y)
  {
    forall i | 0 <= i < |xs|
      ensures leq(x, xs[i])
    {
      if i > 0 {
        assert leq(xs[0], xs[i]);
      }
    }
  }

  lemma {:induction false} InsertSorted<T(!new)>(x: T, xs: seq<T>, leq: (T, T) -> bool)
    requires TotalPreorder(leq) && Sorted(xs, leq)
    ensures Sorted(Insert(x, xs, leq), leq)
  {
    hide TotalPreorder;
    if xs != [] {
      if leq(x, xs[0]) {
        LeastBefore(x, xs, leq);
        SortedCons(x, xs, leq);
      } else {
        InsertSorted(x, xs[1..], leq);
        InsertAdds(x, xs[1..], leq);
        OneOrTheOther(x, xs[0], leq);
        SortedCons(xs[0], Insert(x, xs[1..], leq), leq);
      }
    }
  }

  lemma OneOrTheOther<T(!new)>(a: T, b: T, leq: (T, T) -> bool)
    requires TotalPreorder(leq) && !leq(a, b)
    ensures leq(b, a)
  {
  }

  lemma {:induction false} SortCorrect<T(!new)>(xs: seq<T>, leq: (T, T) -> bool)
    requires TotalPreorder(leq)
    ensures Sorted(Sort(xs, leq), leq)
    ensures multiset(Sort(xs, leq)) == multiset(xs)
  {
    hide TotalPreorder;
    if xs != [] {
      SortCorrect(xs[1..], leq);
      InsertSorted(xs[0], Sort(xs[1..], leq), leq);
      InsertAdds(xs[0], Sort(xs[1..], leq), leq);
      assert xs == [xs[0]] + xs[1..];
    }
  }

  /** Sorting a list that is already in order leaves it alone. */
  lemma {:induction false} SortOfSorted<T(!new)>(xs: seq<T>, leq: (T, T) -> bool)
    requires Sorted(xs, leq)
    ensures Sort(xs, leq) == xs
  {
    if xs != [] {
      SortOfSorted(xs[1..], leq);
      if |xs| > 1 {
        assert leq(xs[0], xs[1]);
      }
    }
  }

  function Select<T>(xs: seq<T>, p: T -> bool): seq<T> {
    if xs == [] then [] else (if p(xs[0]) then [xs[0]] else []) + Select(xs[1..], p)
  }

  lemma {:induction false} InsertIsStable<T>(x: T, xs: seq<T>, leq: (T, T) -> bool, p: T -> bool)
    requires forall y :: y in xs && p(x) && p(y) ==> leq(x, y)
    ensures Select(Insert(x, xs, leq), p) == Select([x] + xs, p)
  {
    assert ([x] + xs)[1..] == xs;
    if xs != [] && !leq(x, xs[0]) {
      assert xs[0] in xs;
      InsertIsStable(x, xs[1..], leq, p);
      assert ([x] + xs[1..])[1..] == xs[1..];
    }
  }

  /** The sort is stable: elements that are pairwise equivalent keep their order. */
  lemma {:induction false} SortIsStable<T(!new)>(xs: seq<T>, leq: (T, T) -> bool, p: T -> bool)
    requires TotalPreorder(leq)
    requires forall x, y :: p(x) && p(y) ==> leq(x, y)
    ensures Select(Sort(xs, leq), p) == Select(xs, p)
  {
    hide TotalPreorder;
    if xs != [] {
      SortIsStable(xs[1..], leq, p);
      InsertIsStable(xs[0], Sort(xs[1..], leq), leq, p);
      assert ([xs[0]] + Sort(xs[1..], leq))[1..] == Sort(xs[1..], leq);
    }
  }
}
