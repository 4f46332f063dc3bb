/** Small types and functions shared by the other modules. */
module Wrappers {

  datatype Option<+T> = None | Some(value: T)

  function Min(a: int, b: int): int { if a <= b then a else b }
  function Max(a: int, b: int): int { if a >= b then a else b }

  /** xs lists the elements of s, each once. */
  ghost predicate Lists<T(!new)>(xs: seq<T>, s: set<T>) {
    && (forall i, j :: 0 <= i < j < |xs| ==> xs[i] != xs[j])
    && (forall i :: 0 <= i < |xs| ==> xs[i] in s) && (forall x :: x in s ==> x in xs)
  }

  lemma ListsOneMore<T(!new)>(xs: seq<T>, s: set<T>, x: T)
    requires Lists(xs, s) && x !in s
    ensures Lists(xs + [x], s + {x})
  {
    assert forall y :: y in xs ==> y in xs + [x];
    assert x in xs + [x];
  }
}
