/** Small value types and one sequence fact shared by the other modules. */
module Common {

  /** Python's `X | None`. */
  datatype Option<+T> = None | Some(value: T)

  /** The outcome of a foreign call whose return value the worker does not use:
      it either returns normally or raises an exception. */
  datatype Call = Returned | Raised

  /** Regrouping a concatenation, stated once so that the proofs that
      build traces and lists piece by piece need not prove it each time. */
  lemma AppendAssoc<T>(a: seq<T>, b: seq<T>, c: seq<T>)
    ensures a + (b + c) == (a + b) + c
  {
  }
}
