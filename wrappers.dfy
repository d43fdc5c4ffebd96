/** Failure-compatible wrappers shared by every module of the model: `Option` stands for a Java
    reference that may be null, `Result` for a call that may end in an exception. */
module Wrappers {

  /** A Java reference that may be `null` (`None`). */
  datatype Option<+T> = None | Some(value: T) {
    predicate IsFailure() { None? }

    function PropagateFailure<U>(): Option<U>
      requires None?
    {
      None
    }

    function Extract(): T
      requires Some?
    {
      value
    }

    /** The value, or `default` when this is `None`. */
    function GetOr(default: T): T {
      match this
      case Some(v) => v
      case None => default
    }
  }

  /** The exceptions that the modelled code throws, by class. */
  datatype Exn =
    | FlatwormParserException
    | FlatwormConversionException
    | FlatwormConfigurationException(messages: seq<string>)
    | FlatwormConfigurationValueException(message: string)
    | FlatwormInvalidRecordException
    | FlatwormInputLineLengthException
    | FlatwormUnsetFieldValueException
    | NullPointerException
    | IndexOutOfBoundsException
    // An array index past the end; `IndexOutOfBoundsException` stands for the other index errors.
    | ArrayIndexOutOfBoundsException
    | NumberFormatException
    | ClassCastException
    // The JVM's error for a call chain nested deeper than the stack allows.
    | StackOverflowError

  /** The outcome of a call that either returns a value or throws. */
  datatype Result<+T> = Ok(value: T) | Err(error: Exn) {
    predicate IsFailure() { Err? }

    function PropagateFailure<U>(): Result<U>
      requires Err?
    {
      Err(error)
    }

    function Extract(): T
      requires Ok?
    {
      value
    }
  }
}
