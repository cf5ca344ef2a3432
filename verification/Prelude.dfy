/** What several modules share: an optional value, and a condition counted as a number. */
module Prelude {

  datatype Option<+T> = None | Some(value: T)

  function One(b: bool): nat { if b then 1 else 0 }
}
