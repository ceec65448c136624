/** Small value wrappers shared by every module of the model. */
module Common {

  /** An optional value: JavaScript's `undefined`/`null` and Python's `None`. */
  datatype Option<+T> = None | Some(value: T)
}
