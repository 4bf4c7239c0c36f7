/** The optional value used for absent keys, failed parses and unset settings. */
module Options {
  datatype Option<+T> = None | Some(value: T)
}
