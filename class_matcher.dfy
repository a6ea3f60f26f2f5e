/**
 * ClassMatcher: accepts a value when it is an instance of the primary class
 * or of one of the extra classes, which carry the numeric widenings of the
 * `any*` factories; getType() is always the primary class.
 */
module ClassMatchers {
  import opened JavaTypes
  import Formatting

  datatype ClassMatcher = ClassMatcher(clazz: Cls, classes: seq<Cls>)

  /** The matcher's verdict: an instance of the primary class or of any extra class. */
  predicate Accepts(m: ClassMatcher, v: Value) {
    IsInstance(m.clazz, v) || exists i :: 0 <= i < |m.classes| && IsInstance(m.classes[i], v)
  }

  /** `matches`: test the primary class, then each extra class in order, returning at the first hit. */
  method Matches(m: ClassMatcher, value: Value) returns (b: bool)
    ensures b == Accepts(m, value)
    ensures value.Null? ==> !b
  {
    if IsInstance(m.clazz, value) {
      return true;
    }
    for i := 0 to |m.classes|
      invariant forall j :: 0 <= j < i ==> !IsInstance(m.classes[j], value)
    {
      if IsInstance(m.classes[i], value) {
        return true;
      }
    }
    return false;
  }

  /** `getType`: the primary class; every instance of it is accepted, though the matcher may accept more. */
  function GetType(m: ClassMatcher): (t: Cls)
    ensures t == m.clazz
    ensures forall v :: IsInstance(t, v) ==> Accepts(m, v)
  {
    m.clazz
  }

  /** `anyInt`: Integer only. */
  function AnyInt(): (m: ClassMatcher)
    ensures GetType(m) == IntegerClass
    ensures forall v :: Accepts(m, v) <==> IsInstance(IntegerClass, v)
  {
    ClassMatcher(IntegerClass, [])
  }

  /** `anyLong`: Long, and Integer by widening. */
  function AnyLong(): (m: ClassMatcher)
    ensures GetType(m) == LongClass
    ensures forall v :: Accepts(m, v) <==> IsInstance(LongClass, v) || IsInstance(IntegerClass, v)
  {
    var m := ClassMatcher(LongClass, [IntegerClass]);
    assert forall v :: IsInstance(IntegerClass, v) ==> IsInstance(m.classes[0], v);
    m
  }

  /** `anyDouble`: Double only. */
  function AnyDouble(): (m: ClassMatcher)
    ensures GetType(m) == DoubleClass
    ensures forall v :: Accepts(m, v) <==> IsInstance(DoubleClass, v)
  {
    ClassMatcher(DoubleClass, [])
  }

  /** `anyFloat`: Float, and Double by widening. */
  function AnyFloat(): (m: ClassMatcher)
    ensures GetType(m) == FloatClass
    ensures forall v :: Accepts(m, v) <==> IsInstance(FloatClass, v) || IsInstance(DoubleClass, v)
  {
    var m := ClassMatcher(FloatClass, [DoubleClass]);
    assert forall v :: IsInstance(DoubleClass, v) ==> IsInstance(m.classes[0], v);
    m
  }

  /** `anyShort`: Short, and Integer by widening. */
  function AnyShort(): (m: ClassMatcher)
    ensures GetType(m) == ShortClass
    ensures forall v :: Accepts(m, v) <==> IsInstance(ShortClass, v) || IsInstance(IntegerClass, v)
  {
    var m := ClassMatcher(ShortClass, [IntegerClass]);
    assert forall v :: IsInstance(IntegerClass, v) ==> IsInstance(m.classes[0], v);
    m
  }

  /** `anyByte`: Byte, and Integer by widening. */
  function AnyByte(): (m: ClassMatcher)
    ensures GetType(m) == ByteClass
    ensures forall v :: Accepts(m, v) <==> IsInstance(ByteClass, v) || IsInstance(IntegerClass, v)
  {
    var m := ClassMatcher(ByteClass, [IntegerClass]);
    assert forall v :: IsInstance(IntegerClass, v) ==> IsInstance(m.classes[0], v);
    m
  }

  /** `anyBoolean`: Boolean only. */
  function AnyBoolean(): (m: ClassMatcher)
    ensures GetType(m) == BooleanClass
    ensures forall v :: Accepts(m, v) <==> IsInstance(BooleanClass, v)
  {
    ClassMatcher(BooleanClass, [])
  }

  /**
   * The widening goes one way only: the wider matcher accepts the narrower
   * boxed value, never the reverse.
   */
  lemma WideningIsOneWay(id: nat)
    ensures Accepts(AnyLong(), Ref(IntegerClass, id)) && !Accepts(AnyInt(), Ref(LongClass, id))
    ensures Accepts(AnyFloat(), Ref(DoubleClass, id)) && !Accepts(AnyDouble(), Ref(FloatClass, id))
    ensures Accepts(AnyShort(), Ref(IntegerClass, id)) && !Accepts(AnyInt(), Ref(ShortClass, id))
    ensures Accepts(AnyByte(), Ref(IntegerClass, id)) && !Accepts(AnyInt(), Ref(ByteClass, id))
    ensures !Accepts(AnyBoolean(), Ref(IntegerClass, id))
  {
  }

  /** The simple names `list()` writes: the primary class, then each extra class in order. */
  function SimpleNames(m: ClassMatcher): (r: seq<string>)
    ensures |r| == |m.classes| + 1
  {
    [m.clazz.simpleName] + seq(|m.classes|, i requires 0 <= i < |m.classes| => m.classes[i].simpleName)
  }

  /** `toString`: the simple names separated by "," inside "<create:" and ">". */
  function Describe(m: ClassMatcher): string {
    "<create:" + Formatting.Interleave(",", SimpleNames(m)) + ">"
  }

  /** `list()`: the primary simple name, then "," and each extra simple name. */
  method List(m: ClassMatcher) returns (s: string)
    ensures s == Formatting.Interleave(",", SimpleNames(m))
  {
    ghost var names := SimpleNames(m);
    var builder := m.clazz.simpleName;
    for i := 0 to |m.classes|
      invariant builder == Formatting.Interleave(",", names[..i + 1])
    {
      builder := builder + ",";
      builder := builder + m.classes[i].simpleName;
      Formatting.InterleaveSnoc(",", names[..i + 1], m.classes[i].simpleName);
      assert names[..i + 2] == names[..i + 1] + [m.classes[i].simpleName];
    }
    assert names[..|m.classes| + 1] == names;
    s := builder;
  }

  /** `toString`. */
  method ToString(m: ClassMatcher) returns (s: string)
    ensures s == Describe(m)
  {
    var list := List(m);
    s := "<create:" + list + ">";
  }

  /** The descriptions of the widening factories. */
  lemma FactoryDescriptions()
    ensures Describe(AnyInt()) == "<create:Integer>"
    ensures Describe(AnyLong()) == "<create:Long,Integer>"
    ensures Describe(AnyFloat()) == "<create:Float,Double>"
  {
    assert SimpleNames(AnyLong()) == ["Long", "Integer"];
    assert SimpleNames(AnyFloat()) == ["Float", "Double"];
  }

  /** The description has one "," per extra class: its length is the names' plus |classes| + 9. */
  lemma DescribeLength(m: ClassMatcher)
    ensures |Describe(m)| == Formatting.TotalLength(SimpleNames(m)) + |m.classes| + 9
  {
    Formatting.InterleaveLength(",", SimpleNames(m));
  }
}
