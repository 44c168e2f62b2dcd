/** Sums of multisets over a finite set: the order-free way to state what a loop over a Go map
    produces, since Go leaves the iteration order of a map unspecified. */
module Multisets {

  /** The multiset union of `f(x)` over every `x` in `s`. */
  ghost function SumOver<T, U>(s: set<T>, f: T -> multiset<U>): multiset<U>
    decreases s
  {
    if s == {} then multiset{} else
      var x :| x in s;
      SumOver(s - {x}, f) + f(x)
  }

  /** The sum does not depend on which element is taken out first. */
  lemma {:induction false} SumOverRemove<T, U>(s: set<T>, f: T -> multiset<U>, x: T)
    requires x in s
    ensures SumOver(s, f) == SumOver(s - {x}, f) + f(x)
    decreases s
  {
    var y :| y in s && SumOver(s, f) == SumOver(s - {y}, f) + f(y);
    if y != x {
      SumOverRemove(s - {y}, f, x);
      SumOverRemove(s - {x}, f, y);
      assert s - {y} - {x} == s - {x} - {y};
    }
  }

  /** Adding one element not yet summed adds its term. */
  lemma SumOverAdd<T, U>(s: set<T>, f: T -> multiset<U>, x: T)
    requires x !in s
    ensures SumOver(s + {x}, f) == SumOver(s, f) + f(x)
  {
    SumOverRemove(s + {x}, f, x);
    assert s + {x} - {x} == s;
  }

  /** An element is in the sum exactly when it is in the term of some member of the set. */
  lemma {:induction false} SumOverMember<T, U>(s: set<T>, f: T -> multiset<U>, u: U)
    ensures u in SumOver(s, f) <==> exists x :: x in s && u in f(x)
    decreases s
  {
    if s != {} {
      var x :| x in s;
      SumOverRemove(s, f, x);
      SumOverMember(s - {x}, f, u);
      if u in f(x) {
        assert x in s && u in f(x);
      }
    }
  }

  /** Two term functions that agree on the set give the same sum. */
  lemma {:induction false} SumOverCongruent<T, U>(s: set<T>, f: T -> multiset<U>, g: T -> multiset<U>)
    requires forall x :: x in s ==> f(x) == g(x)
    ensures SumOver(s, f) == SumOver(s, g)
    decreases s
  {
    if s != {} {
      var x :| x in s;
      SumOverRemove(s, f, x);
      SumOverRemove(s, g, x);
      SumOverCongruent(s - {x}, f, g);
    }
  }
}
