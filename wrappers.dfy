/** The optional value used wherever the calculator can refuse a key. */
module Wrappers {

  /** `None` stands for a refused input (the source throws IllegalArgumentException or a hook returns null). */
  datatype Option<+T> = None | Some(value: T)
}
