/** The optional value used for absent application fields and absent messages. */
module Wrappers {

  datatype Option<+T> = None | Some(value: T)
}
