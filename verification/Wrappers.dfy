/** What several modules share. */
module Wrappers {
  datatype Option<+T> = None | Some(value: T)

  datatype Result<+T, +E> = Ok(value: T) | Err(error: E)

  function Flag(b: bool): nat {
    if b then 1 else 0
  }

  // every key once, in some order: how Go ranges over a map
  ghost predicate Enumerates<K>(order: seq<K>, keys: set<K>) {
    && (forall i :: 0 <= i < |order| ==> order[i] in keys)
    && (forall i, j :: 0 <= i < j < |order| ==> order[i] != order[j])
    && (forall k :: k in keys ==> k in order)
  }
}
