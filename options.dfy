/** The optional value used for a ball's number and for the result of a search. */
module Options {
  datatype Option<T> = None | Some(value: T)
}
