/** The optional value used for nullable columns, pointers and missing keys. */
module Options {

  datatype Option<+T> = None | Some(value: T)
}
