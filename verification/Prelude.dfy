/** Small datatypes shared by every module. */
module Prelude {
  datatype Option<+T> = None | Some(value: T)

  datatype Result<+T, +E> = Ok(value: T) | Err(error: E)

  lemma Regroup<T>(a: seq<T>, b: seq<T>, c: seq<T>)
    ensures a + (b + c) == a + b + c
    ensures a + [] == a && [] + c == c && b + [] == b
  {
  }

  lemma MoveFirst<T>(a: seq<T>, s: seq<T>)
    requires s != []
    ensures a + [s[0]] + s[1..] == a + s
  {
  }

  /** Thread identifiers.  A model holds a map from these to program counters; the map may have any size. */
  type Tid = nat
}
