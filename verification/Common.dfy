/** Small shared definitions. */
module Common {
  datatype Option<+T> = None | Some(value: T)
}
