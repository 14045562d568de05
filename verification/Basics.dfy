/** Small facts about sets and sequences, and a way to keep a definition folded. */
module Basics {

  /** A fact that a predicate states behind this trigger stays folded until `Unfold` is
      asserted of the value it is about. */
  ghost predicate Unfold<T>(x: T) {
    true
  }

  lemma Fewer<T>(a: set<T>, b: set<T>)
    requires a <= b
    ensures |a| <= |b|
  {
    assert a + (b - a) == b;
  }

  lemma Regroup<T>(a: seq<T>, b: seq<T>, c: seq<T>)
    ensures a + b + c == a + (b + c)
  {
  }
}
