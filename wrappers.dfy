/** The optional value used for a track's `length` and for the queue's `current` slot. */
module Wrappers {

  /** `None` stands for both `null` and `undefined`: the queue treats them alike. */
  datatype Option<+T> = None | Some(value: T)
}
