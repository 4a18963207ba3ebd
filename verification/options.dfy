/** The optional value used for fallible parses and loads. */
module Options {

  datatype Option<+T> = None | Some(value: T)
}
