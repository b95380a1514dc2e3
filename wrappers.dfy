/** The optional value used for the client's nullable fields (`null`/`undefined` become `None`). */
module Wrappers {
  datatype Option<+T> = None | Some(value: T)
}
