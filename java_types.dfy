/**
 * The part of Java's reflection the core relies on, as a small abstract model:
 * a class is a name, a simple name and the names of all its supertypes; an
 * object is a reference to an instance of a class; a method's return type is
 * void, a primitive with its boxed class, or a reference type.
 */
module JavaTypes {

  datatype Cls = Cls(name: string, simpleName: string, supertypes: set<string>)

  /** A runtime value: null, or a reference to an object of class `cls` (`id` tells objects apart). */
  datatype Value = Null | Ref(cls: Cls, id: nat)

  /** The declared return type of a method, as `Method.getReturnType()` reports it. */
  datatype ReturnType =
    | VoidType
    | PrimitiveType(primitiveName: string, boxed: Cls)
    | ReferenceType(cls: Cls)

  /** `t.isAssignableFrom(c)`: c is t or a subtype of t. */
  predicate IsAssignableFrom(t: Cls, c: Cls) {
    t.name == c.name || t.name in c.supertypes
  }

  /** `t.isInstance(v)`: false for null, otherwise assignability of v's class. */
  predicate IsInstance(t: Cls, v: Value) {
    v.Ref? && IsAssignableFrom(t, v.cls)
  }

  /** `returnType.isPrimitive()`; `void.class` is not treated as primitive here, it has its own case. */
  predicate IsPrimitive(rt: ReturnType) {
    rt.PrimitiveType?
  }

  /** `returnType.getSimpleName()`. */
  function SimpleName(rt: ReturnType): string {
    match rt
    case VoidType => "void"
    case PrimitiveType(p, _) => p
    case ReferenceType(c) => c.simpleName
  }

  const NumberSupertypes: set<string> := {"java.lang.Number", "java.lang.Object"}

  const StringClass := Cls("java.lang.String", "String", {"java.lang.Object"})
  const IntegerClass := Cls("java.lang.Integer", "Integer", NumberSupertypes)
  const LongClass := Cls("java.lang.Long", "Long", NumberSupertypes)
  const ShortClass := Cls("java.lang.Short", "Short", NumberSupertypes)
  const ByteClass := Cls("java.lang.Byte", "Byte", NumberSupertypes)
  const DoubleClass := Cls("java.lang.Double", "Double", NumberSupertypes)
  const FloatClass := Cls("java.lang.Float", "Float", NumberSupertypes)
  const BooleanClass := Cls("java.lang.Boolean", "Boolean", {"java.lang.Object"})

  /** `int`, with `Primitives.getRealClass(int.class) == Integer.class`. */
  const IntType := PrimitiveType("int", IntegerClass)
}
