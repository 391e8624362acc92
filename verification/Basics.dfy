/** Shared vocabulary. */
module Basics {

  datatype Option<T> = None | Some(value: T)

  function Min(a: int, b: int): int { if a <= b then a else b }

  ghost predicate NoRepeats<K>(keys: seq<K>) { forall i, j :: 0 <= i < j < |keys| ==> keys[i] != keys[j] }
}
