/** The optional value used wherever the Swift code has an `Int?` or an
    optional that a caller unwraps. */
module Optional {

  datatype Option<+T> = None | Some(value: T)
}
