/** What several modules share: an optional value, and a truth value as a count. */
module Wrappers {

  datatype Option<T> = None | Some(value: T)

  function Flag(b: bool): nat {
    if b then 1 else 0
  }
}
