/** A pointer that may be null, or a function object that may be empty. */
module Options {

  datatype Option<+T> = None | Some(value: T)
}
