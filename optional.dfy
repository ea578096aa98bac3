/** The nil-or-value shape that Go expresses with nil pointers and nil errors. */
module Optional {

  datatype Option<+T> = None | Some(value: T)
}
