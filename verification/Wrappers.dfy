/** The optional value used for every `T | null` and `T | undefined` of the source. */
module Wrappers {

  datatype Option<+T> = None | Some(value: T)

  /** `b` keeps every entry of `a` and may add others. */
  ghost predicate Extends<K(!new), V>(a: map<K, V>, b: map<K, V>) {
    forall k {:trigger k in a} {:trigger b[k]} ::
      k in a ==> k in b && b[k] == a[k]
  }
}
