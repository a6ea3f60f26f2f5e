/**
 * The per-mock ledger the handlers work on: intercepted calls with their
 * global call numbers, method matchers, registered stubs, and the two error
 * kinds the core throws.
 */
module Mock {
  import opened JavaTypes

  /**
   * A java.lang.reflect.Method as a key: its declaring class, name, parameter
   * types (by name) and return type, so overloads are distinct methods.
   */
  datatype Method = Method(declaringClass: string, name: string, params: seq<string>, returnType: ReturnType)

  /**
   * One intercepted invocation. `number` is its place in the global call
   * sequence; `text` stands for MethodCall.toString() and `stackTrace` for
   * the rendered getStackTrace(), both produced outside the core.
   */
  datatype MethodCall = MethodCall(number: int, target: Method, args: seq<Value>, text: string, stackTrace: string)

  /**
   * A method plus its argument matchers. `accepts` stands for
   * MethodMatcher.matches(call) and `text` for its toString().
   */
  datatype MethodMatcher = MethodMatcher(target: Method, accepts: MethodCall -> bool, text: string)

  /** A canned return value installed for the calls a matcher selects. */
  datatype MethodStub = MethodStub(returnValue: Value, matcher: MethodMatcher)

  datatype Error = UsageError(message: string) | VerificationError(message: string)

  /** The ledger invariant: call numbers strictly increase along the ledger. */
  predicate CallNumbersIncreasing(calls: seq<MethodCall>) {
    forall i, j :: 0 <= i < j < |calls| ==> calls[i].number < calls[j].number
  }

  /** MockData: the calls recorded for one mock and its stubs, per method. */
  class MockData {
    var calls: seq<MethodCall>
    var stubs: map<Method, seq<MethodStub>>

    constructor ()
      ensures calls == [] && stubs == map[]
    {
      calls := [];
      stubs := map[];
    }

    /** getExpectations(method): the method's stub list, empty until the first stub is added. */
    function Expectations(m: Method): seq<MethodStub>
      reads this
    {
      if m in stubs then stubs[m] else []
    }
  }
}
