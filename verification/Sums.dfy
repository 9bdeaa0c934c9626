/** Sums of a weight over a finite set. */
module Sums {

  ghost function Sum<T(!new)>(s: set<T>, f: T -> nat): nat {
    if s == {} then 0 else var x :| x in s; f(x) + Sum(s - {x}, f)
  }

  lemma {:induction false} SumWithout<T(!new)>(s: set<T>, x: T, f: T -> nat)
    requires x in s
    ensures Sum(s, f) == f(x) + Sum(s - {x}, f)
    decreases s
  {
    var y :| y in s && Sum(s, f) == f(y) + Sum(s - {y}, f);
    if y != x {
      SumWithout(s - {y}, x, f);
      SumWithout(s - {x}, y, f);
      assert s - {y} - {x} == s - {x} - {y};
    }
  }

  lemma SumWith<T(!new)>(s: set<T>, x: T, f: T -> nat)
    requires x !in s
    ensures Sum(s + {x}, f) == f(x) + Sum(s, f)
  {
    SumWithout(s + {x}, x, f);
    assert s + {x} - {x} == s;
  }

  lemma {:induction false} SumSame<T(!new)>(s: set<T>, f: T -> nat, g: T -> nat)
    requires forall x :: x in s ==> f(x) == g(x)
    ensures Sum(s, f) == Sum(s, g)
    decreases s
  {
    if s != {} {
      var x :| x in s;
      SumWithout(s, x, f);
      SumWithout(s, x, g);
      SumSame(s - {x}, f, g);
    }
  }

  /** Changing the weight of one element changes the sum by the difference. */
  lemma SumChange<T(!new)>(s: set<T>, x: T, f: T -> nat, g: T -> nat)
    requires x in s
    requires forall y :: y in s && y != x ==> f(y) == g(y)
    ensures Sum(s, g) + f(x) == Sum(s, f) + g(x)
  {
    SumWithout(s, x, f);
    SumWithout(s, x, g);
    SumSame(s - {x}, f, g);
  }

  lemma {:induction false} SumZero<T(!new)>(s: set<T>, f: T -> nat)
    requires forall x :: x in s ==> f(x) == 0
    ensures Sum(s, f) == 0
    decreases s
  {
    if s != {} {
      var x :| x in s;
      SumWithout(s, x, f);
      SumZero(s - {x}, f);
    }
  }

  /** Two sums are equal when their elements correspond one to one and contribute the same. */
  lemma {:induction false} SumReindexed<S(!new), T(!new)>(s: set<S>, t: set<T>, to: map<S, T>, f: S -> nat, g: T -> nat)
    requires forall x :: x in s ==> x in to && to[x] in t && f(x) == g(to[x])
    requires forall x, y :: x in s && y in s && to[x] == to[y] ==> x == y
    requires forall y :: y in t ==> exists x :: x in s && to[x] == y
    ensures Sum(s, f) == Sum(t, g)
    decreases s
  {
    if s == {} {
      assert t == {};
    } else {
      var x :| x in s;
      SumWithout(s, x, f);
      SumWithout(t, to[x], g);
      forall y | y in t - {to[x]}
        ensures exists z :: z in s - {x} && to[z] == y
      {
        var z :| z in s && to[z] == y;
        assert z in s - {x};
      }
      SumReindexed(s - {x}, t - {to[x]}, to, f, g);
    }
  }
}
