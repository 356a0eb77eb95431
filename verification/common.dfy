/** Failure-carrying wrappers shared by the evaluator and the transformer. */
module Common {

  datatype Option<+T> = None | Some(value: T)

  /** The outcome of an operation that the source may abort with an exception. */
  datatype Result<+T, +E> = Ok(value: T) | Err(error: E)

  /**
   * The exceptions the modelled code lets escape: a dictionary lookup of an
   * absent key, a division by zero, and a clinical-trial report file that
   * does not exist.
   */
  datatype Error = KeyError(key: string) | ZeroDivisionError | CTRError(ctrId: string)
}
