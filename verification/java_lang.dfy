/** Values the modelled Java code passes around to signal absence and failure. */
module JavaLang {

  /** A nullable reference: `None` stands for Java's `null`. */
  datatype Option<+T> = None | Some(value: T)

  /** The exceptions the modelled code throws or lets through. */
  datatype Failure =
    | IOException(message: string)
    | TagAttributeException(message: string)
    | NullPointerException
    | RuntimeException(message: string)

  /** How a call that returns a value ends: with a value or with an exception. */
  datatype Outcome<+T> = Returned(value: T) | Threw(failure: Failure)

  /** How a `void` call ends: normally or with an exception. */
  datatype Completion = Normal | Abrupt(failure: Failure)
}
