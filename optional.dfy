/** An optional value: a temperature reading that may be missing. */
module Optional {

  datatype Option<+T> = None | Some(value: T)
}
