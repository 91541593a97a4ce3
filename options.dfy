/** The optional value used for Python's `None` throughout the model. */
module Options {

  datatype Option<+T> = None | Some(value: T)

}
