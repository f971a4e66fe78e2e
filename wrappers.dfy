/** The optional value used for grid cells and for the factory's result. */
module Wrappers {
  /** `None` stands for the JavaScript `null`/`undefined` of an empty cell. */
  datatype Option<+T> = None | Some(value: T)
}
