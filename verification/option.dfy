/** An optional value: Java's `null`, and the undefined result of a
    division by a zero count. */
module Options {

  datatype Option<+T> = None | Some(value: T)
}
