/** Option, used for the source's optional fields, nullable squares and null/undefined results. */
module Wrappers {
  datatype Option<+T> = None | Some(value: T)
}

/** Facts about sequence concatenation, stated once so that long proofs can cite them. */
module Sequences {
  lemma AppendEmpty<T>(a: seq<T>)
    ensures a + [] == a
  {
  }

  lemma AppendAssociates<T>(a: seq<T>, b: seq<T>, c: seq<T>)
    ensures (a + b) + c == a + (b + c)
  {
  }
}
