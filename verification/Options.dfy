/** The Some/None datatype that stands for a nullable column or a possibly absent argument. */
module Options {
  datatype Option<+T> = None | Some(value: T)
}
