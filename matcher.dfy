/** The Matcher interface: a predicate over values, the type it accepts, and its description. */
module Matchers {
  import opened JavaTypes

  /** `matches`, `getType` and the printable description of one matcher. */
  datatype Matcher<!T> = Matcher(test: T -> bool, valueType: Cls, text: string)
}
