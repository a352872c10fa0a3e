/** The optional value that stands for Go's nil pointers and JavaScript's undefined. */
module Options {
  datatype Option<+T> = None | Some(value: T)
}
