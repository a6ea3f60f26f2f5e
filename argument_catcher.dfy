/**
 * ArgumentCatcher: a matcher that remembers the last value it was asked
 * about and answers exactly as its delegate does. Not thread-safe; one
 * catcher serves one assertion.
 */
module ArgumentCatchers {
  import opened JavaTypes
  import opened Matchers

  class ArgumentCatcher {
    const delegate: Matcher<Value>
    var value: Value

    /** `new ArgumentCatcher(delegate)` / `create(delegate)`: the field starts as null. */
    constructor (delegate: Matcher<Value>)
      ensures this.delegate == delegate && value == Null
    {
      this.delegate := delegate;
      value := Null;
    }

    /** `matches`: record the value, then return the delegate's verdict. */
    method Matches(v: Value) returns (b: bool)
      modifies this
      ensures value == v
      ensures b == delegate.test(v)
    {
      value := v;
      b := delegate.test(v);
    }

    /** `getType`: the delegate's accepted type. */
    function GetType(): (t: Cls)
      ensures t == delegate.valueType
    {
      delegate.valueType
    }

    /** `getValue`: the last value matched, or null before the first. */
    method GetValue() returns (v: Value)
      ensures v == value
    {
      v := value;
    }
  }

  /** Two matches in a row: each verdict is the delegate's, and only the second value is kept. */
  method MatchTwice(c: ArgumentCatcher, first: Value, second: Value) returns (b1: bool, b2: bool, caught: Value)
    modifies c
    ensures b1 == c.delegate.test(first) && b2 == c.delegate.test(second)
    ensures caught == second
  {
    b1 := c.Matches(first);
    b2 := c.Matches(second);
    caught := c.GetValue();
  }
}
