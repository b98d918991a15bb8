/** The optional value used wherever the source returns `undefined` or leaves a slot empty. */
module Options {

  datatype Option<+T> = None | Some(value: T)
}
