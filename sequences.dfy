/** Facts about sequences shared by the registries of constants. */
module Sequences {

  /** No element of `s` occurs twice. */
  predicate PairwiseDistinct<T(==)>(s: seq<T>) {
    forall i, j :: 0 <= i < j < |s| ==> s[i] != s[j]
  }
}
