/** An optional value, for the arguments that default to `None`. */
module Optional {

  datatype Option<+T> = None | Some(value: T)
}
