/** The entries of the log: what is recorded is opaque here, except that a NOOP changes nothing. */
module Edits {
  datatype StatusEdit = Noop | Change(what: int)

  datatype Option<T> = None | Some(value: T)
}
