/** An optional value, as Swift's `T?`. */
module Optional {
  datatype Option<T> = None | Some(value: T)
}
