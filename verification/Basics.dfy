// Small things that every part of the model uses.
module Basics {
  datatype Option<+T> = None | Some(value: T)

  function Max(a: nat, b: nat): (m: nat) { if a < b then b else a }
}
