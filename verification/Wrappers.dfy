/** Optional values and other small helpers. */
module Wrappers {
  datatype Option<+T> = None | Some(value: T)

  function Max(a: nat, b: nat): nat { if a < b then b else a }
}
