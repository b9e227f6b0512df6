/** The optional value used wherever a rule may leave something unset. */
module Options {

  datatype Option<+T> = None | Some(value: T)
}
