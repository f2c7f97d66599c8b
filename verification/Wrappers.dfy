// Small shared vocabulary: an optional value and facts about sequences.

module Wrappers {
  datatype Option<+T> = None | Some(value: T)

  function Min(a: nat, b: nat): nat {
    if a <= b then a else b
  }

  function Max(a: nat, b: nat): nat {
    if a >= b then a else b
  }

  /** Truncating subtraction on naturals (`saturating_sub`). */
  function Monus(a: nat, b: nat): nat {
    if a >= b then a - b else 0
  }
}
