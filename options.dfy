/** The optional value used wherever the source has `X | null`. */
module Options {

  datatype Option<+T> = None | Some(value: T)
}
