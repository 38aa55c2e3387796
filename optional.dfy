/** The optional values the Swift code writes as `T?`. */
module Optional {

  datatype Option<+T> = None | Some(value: T)
}
