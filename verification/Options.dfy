// An optional value: a key that may be absent from a row, or an oracle that may have no answer.
module Options {
  datatype Option<+T> = None | Some(value: T)
}
