/** Option and Outcome, used for Java's null and for the errors an operation throws. */
module Wrappers {

  /** None stands for a Java null reference. */
  datatype Option<T> = None | Some(value: T)

  /** Pass for normal completion, Fail for an exception thrown to the caller. */
  datatype Outcome<E> = Pass | Fail(error: E)
}
