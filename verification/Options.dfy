/** A value that may be absent: the source's nil pointers, blank results and second return values. */
module Options {

  datatype Option<+T> = None | Some(value: T)
}
