/** The optional-value datatype used for partial operations of the model. */
module Options {

  datatype Option<+T> = None | Some(value: T)
}
