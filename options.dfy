/** The optional value used wherever the program throws instead of returning. */
module Options {

  datatype Option<+T> = None | Some(value: T)
}
