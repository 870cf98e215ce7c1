/** The optional value used for C# nullable structs such as `Point?`. */
module Wrappers {
  datatype Option<T> = None | Some(value: T)
}
