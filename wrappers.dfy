/** Option type used for the values that C# code may leave null or fail to produce. */
module Wrappers {
  datatype Option<+T> = None | Some(value: T)
}
