/** The usual optional value, for JavaScript's `null`/`undefined` and for lookups that can miss. */
module Optional {

  datatype Option<+T> = None | Some(value: T)
}
