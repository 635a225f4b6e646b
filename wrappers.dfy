/** An optional value: a state field that is absent (`undefined`) or holds a value. */
module Wrappers {

  datatype Option<+T> = None | Some(value: T)

}
