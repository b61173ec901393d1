/** Listing the elements of a set in some order, as a loop over a hashed container does. */
module Enumeration {

  /** `order` lists the elements of `elements`, each of them once. */
  ghost predicate Enumerates<T(!new)>(order: seq<T>, elements: set<T>) {
    && (forall x :: x in elements <==> x in order)
    && (forall i, j :: 0 <= i < j < |order| ==> order[i] != order[j])
  }

  lemma Extend<T(!new)>(order: seq<T>, elements: set<T>, x: T)
    requires Enumerates(order, elements) && x !in elements
    ensures Enumerates(order + [x], elements + {x})
  {
  }

  /** An enumeration holds every element exactly once and nothing else. */
  lemma {:induction false} AsMultiset<T(!new)>(order: seq<T>, elements: set<T>)
    requires Enumerates(order, elements)
    ensures multiset(order) == multiset(elements)
  {
    if order != [] {
      var x := order[|order| - 1];
      var front := order[..|order| - 1];
      var rest := elements - {x};
      assert Enumerates(front, rest) by {
        assert order == front + [x];
      }
      AsMultiset(front, rest);
      calc {
        multiset(order);
        { assert order == front + [x]; }
        multiset(front) + multiset{x};
        multiset(rest) + multiset{x};
        { assert rest + {x} == elements && x !in rest; }
        multiset(elements);
      }
    }
  }
}
