/**
 * Generic helpers: the optional value used wherever the source has
 * `null`/`undefined`, and a fact about sequence concatenation.
 */
module Wrappers {

  datatype Option<+T> = None | Some(value: T) {

    /** The value held, or `default` when there is none. */
    function GetOr(default: T): T
    {
      match this
      case Some(v) => v
      case None => default
    }
  }

  /** Concatenation is associative; stated once, so that proofs can name the step. */
  lemma AppendAssociates<T>(a: seq<T>, b: seq<T>, c: seq<T>)
    ensures a + (b + c) == (a + b) + c
  {
  }
}
