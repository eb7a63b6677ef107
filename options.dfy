/** The optional value used across the model: a JavaScript value that may be `null`. */
module Options {

  datatype Option<+T> = None | Some(value: T)
}
