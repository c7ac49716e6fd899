/** What every part of the model uses. */
module Basics {
  datatype Option<+T> = None | Some(value: T)

  /** n zero elements. */
  function Zeros(n: nat): seq<int> {
    seq(n, i => 0)
  }
}
