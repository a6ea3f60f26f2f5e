/**
 * Stub registration for `stubReturn(value)`: the return-type guard that keeps
 * a canned value type-safe, and the append of one MethodStub to the method's
 * stub list when the guard passes.
 */
module StubReturn {
  import opened Wrappers
  import opened JavaTypes
  import opened Mock

  /** Which values a method with return type `rt` may be stubbed with, case by case. */
  predicate Compatible(rt: ReturnType, v: Value) {
    match rt
    case VoidType => v.Null?
    case PrimitiveType(_, boxed) => v.Ref? && v.cls == boxed
    case ReferenceType(t) => v.Null? || IsAssignableFrom(t, v.cls)
  }

  /** The type-mismatch text of `error(returnType)`. */
  function MismatchMessage(rt: ReturnType, v: Value): string
    requires v.Ref?
  {
    "Expected a return value of type " + SimpleName(rt) + " but was " + v.cls.simpleName
  }

  /** The guard in `match`, branch by branch as the handler tests it. */
  function CheckReturnValue(rt: ReturnType, v: Value): (r: Outcome<Error>)
    ensures r.Pass? <==> Compatible(rt, v)
    ensures rt.VoidType? && v.Ref? ==> r == Fail(UsageError("Void methods must return null"))
    ensures rt.PrimitiveType? && v.Null? ==>
      r == Fail(UsageError("Expected a return value of type " + rt.primitiveName + " but was null"))
    ensures !rt.VoidType? && v.Ref? && !Compatible(rt, v) ==> r == Fail(UsageError(MismatchMessage(rt, v)))
  {
    if rt.VoidType? then
      if v.Ref? then Fail(UsageError("Void methods must return null")) else Pass
    else if v.Null? then
      if IsPrimitive(rt) then Fail(UsageError("Expected a return value of type " + SimpleName(rt) + " but was null"))
      else Pass
    else if IsPrimitive(rt) then
      if v.cls != rt.boxed then Fail(UsageError(MismatchMessage(rt, v))) else Pass
    else
      if !IsAssignableFrom(rt.cls, v.cls) then Fail(UsageError(MismatchMessage(rt, v))) else Pass
  }

  /**
   * The two branches test different relations: the primitive branch compares
   * the value's class with the boxed class exactly, the reference branch asks
   * for assignability. In this type model, which does not represent class
   * finality, a class declaring the boxed class as a supertype tells them
   * apart. Java's boxed classes are final, so no such class exists there; see
   * FinalBoxedClassBranchesAgree.
   */
  lemma PrimitiveNeedsExactBoxedClass(id: nat)
    ensures var sub := Cls("example.SubInteger", "SubInteger", {IntegerClass.name, "java.lang.Number", "java.lang.Object"});
      var v := Ref(sub, id);
      IsAssignableFrom(IntegerClass, sub)
      && CheckReturnValue(IntType, v) == Fail(UsageError("Expected a return value of type int but was SubInteger"))
      && CheckReturnValue(ReferenceType(IntegerClass), v) == Pass
  {
    var sub := Cls("example.SubInteger", "SubInteger", {IntegerClass.name, "java.lang.Number", "java.lang.Object"});
    var v := Ref(sub, id);
    assert IntegerClass.name in sub.supertypes;
    assert v.cls != IntType.boxed;
    assert SimpleName(IntType) == "int";
    assert MismatchMessage(IntType, v) == "Expected a return value of type int but was SubInteger";
  }

  /**
   * When the boxed class is final (no class names it as a supertype) and a
   * class name identifies one class, a non-null value passes the primitive
   * branch exactly when it passes the reference branch for the boxed class.
   */
  lemma FinalBoxedClassBranchesAgree(primitiveName: string, boxed: Cls, v: Value)
    requires v.Ref?
    requires boxed.name !in v.cls.supertypes
    requires v.cls.name == boxed.name ==> v.cls == boxed
    ensures CheckReturnValue(PrimitiveType(primitiveName, boxed), v).Pass?
        <==> CheckReturnValue(ReferenceType(boxed), v).Pass?
  {
  }

  /** StubReturnHandler: `stubReturn(returnValue).on(mock)` for one mock's data. */
  class StubReturnHandler {
    const returnValue: Value
    const data: MockData

    constructor (returnValue: Value, data: MockData)
      ensures this.returnValue == returnValue && this.data == data
    {
      this.returnValue := returnValue;
      this.data := data;
    }

    /** `match`: check the value against the method's return type, then append one stub. */
    method Match(matcher: MethodMatcher) returns (r: Outcome<Error>)
      modifies data`stubs
      ensures r == CheckReturnValue(matcher.target.returnType, returnValue)
      ensures r.Pass? ==> data.stubs == old(data.stubs)[matcher.target := old(data.Expectations(matcher.target)) + [MethodStub(returnValue, matcher)]]
      ensures r.Fail? ==> data.stubs == old(data.stubs)
      ensures forall m :: m != matcher.target ==> data.Expectations(m) == old(data.Expectations(m))
    {
      var returnType := matcher.target.returnType;
      if returnType.VoidType? {
        if returnValue.Ref? {
          return Fail(UsageError("Void methods must return null"));
        }
      } else {
        if returnValue.Null? {
          if IsPrimitive(returnType) {
            return Fail(UsageError("Expected a return value of type " + SimpleName(returnType) + " but was null"));
          }
        } else {
          if IsPrimitive(returnType) {
            if returnValue.cls != returnType.boxed {
              r := Error(returnType);
              return;
            }
          } else {
            if !IsAssignableFrom(returnType.cls, returnValue.cls) {
              r := Error(returnType);
              return;
            }
          }
        }
      }
      data.stubs := data.stubs[matcher.target := data.Expectations(matcher.target) + [MethodStub(returnValue, matcher)]];
      r := Pass;
    }

    /** `error(returnType)`: the usage error naming the expected and the actual simple names. */
    method Error(returnType: ReturnType) returns (r: Outcome<Error>)
      requires returnValue.Ref?
      ensures r == Fail(UsageError("Expected a return value of type " + SimpleName(returnType) + " but was " + returnValue.cls.simpleName))
    {
      r := Fail(UsageError(MismatchMessage(returnType, returnValue)));
    }
  }
}
