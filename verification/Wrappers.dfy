// Small types and functions shared by the models.
module Wrappers {
  datatype Option<+T> = None | Some(value: T)

  /** A multipart message: its frames. */
  type Message = seq<string>

  function Without<T>(q: seq<T>, i: nat): seq<T>
    requires i < |q|
  {
    q[..i] + q[i + 1..]
  }

  lemma ConcatAssoc<T>(a: seq<T>, b: seq<T>, c: seq<T>)
    ensures a + (b + c) == (a + b) + c
  {
  }
}
