/**
 * Runtime values and heap objects. A value is a closed tagged union; an
 * object is a heap cell holding its class id and a positional field vector
 * that every holder of the reference reads and writes in place.
 */
module Values {
  import opened Wrappers
  import opened FieldTypes
  import opened Classes

  newtype i32 = x: int | -0x8000_0000 <= x < 0x8000_0000
  newtype i64 = x: int | -0x8000_0000_0000_0000 <= x < 0x8000_0000_0000_0000

  /**
   * Floating-point payloads are kept as their IEEE-754 bit patterns; nothing
   * in the core computes with them, and the bit pattern 0 is positive zero.
   */
  datatype Value =
    | Uninitialized
    | Int(intValue: i32)
    | Long(longValue: i64)
    | Float(floatBits: bv32)
    | Double(doubleBits: bv64)
    | Object(obj: ObjectValue)
    | Null
    | Array(elementType: FieldType, elements: array<Value>)

  /** The default value, used for local slots nobody has written yet. */
  const DEFAULT_VALUE: Value := Uninitialized

  /** The value a freshly allocated field of declared type `t` holds. */
  function ZeroValue(t: FieldType): (v: Value)
    ensures IsIntStored(t) <==> v == Value.Int(0)
    ensures t == Base(BaseType.Long) <==> v == Value.Long(0)
    ensures t == Base(BaseType.Float) <==> v == Value.Float(0)
    ensures t == Base(BaseType.Double) <==> v == Value.Double(0)
    ensures IsReference(t) <==> v == Null
  {
    match t
    case Base(b) =>
      (match b
       case Byte => Value.Int(0)
       case Char => Value.Int(0)
       case Double => Value.Double(0)
       case Float => Value.Float(0)
       case Int => Value.Int(0)
       case Long => Value.Long(0)
       case Short => Value.Int(0)
       case Boolean => Value.Int(0))
    case Object(_) => Null
    case Array(_) => Null
  }

  /** The zero-initialised field vector for a field layout, slot by slot. */
  function ZeroFields(layout: seq<FieldType>): (r: seq<Value>)
    ensures |r| == |layout|
    ensures forall i :: 0 <= i < |r| ==> r[i] == ZeroValue(layout[i])
  {
    if layout == [] then [] else [ZeroValue(layout[0])] + ZeroFields(layout[1..])
  }

  /** No slot of a new object is left `Uninitialized`, and exactly its reference-typed slots are `Null`. */
  lemma ZeroFieldsAreInitialized(layout: seq<FieldType>, i: nat)
    requires i < |layout|
    ensures !ZeroFields(layout)[i].Uninitialized?
    ensures ZeroFields(layout)[i].Null? <==> IsReference(layout[i])
  {
  }

  /** A heap instance: its class identity and its field vector. */
  class ObjectValue {
    const classId: ClassId
    var fields: seq<Value>

    constructor (c: Class)
      ensures classId == c.id
      ensures fields == ZeroFields(c.fieldTypes)
    {
      classId := c.id;
      fields := ZeroFields(c.fieldTypes);
    }

    method SetField(index: nat, value: Value)
      requires index < |fields|
      modifies this
      ensures |fields| == |old(fields)|
      ensures fields[index] == value
      ensures forall j :: 0 <= j < |fields| && j != index ==> fields[j] == old(fields[j])
    {
      fields := fields[index := value];
    }

    method GetField(index: nat) returns (v: Value)
      requires index < |fields|
      ensures v == fields[index]
    {
      v := fields[index];
    }
  }

  /**
   * Whether a value may stand where type `expected` is declared. The
   * resolver maps an object's class id to its class, if it is known.
   */
  function MatchesType(v: Value, expected: FieldType, resolver: ClassId -> Option<Class>): (r: bool)
    ensures v.Uninitialized? || v.Null? ==> !r
    ensures v.Int? ==> (r <==> expected == Base(BaseType.Int))
    ensures v.Long? ==> (r <==> expected == Base(BaseType.Long))
    ensures v.Float? ==> (r <==> expected == Base(BaseType.Float))
    ensures v.Double? ==> (r <==> expected == Base(BaseType.Double))
    ensures v.Object? ==>
              (r <==> expected.Object? && resolver(v.obj.classId).Some?
                      && resolver(v.obj.classId).value.name == expected.className)
    ensures v.Array? ==> (r <==> expected == FieldType.Array(v.elementType))
  {
    match v
    case Uninitialized => false
    case Int(_) => expected.Base? && expected.baseType == BaseType.Int
    case Long(_) => expected.Base? && expected.baseType == BaseType.Long
    case Float(_) => expected.Base? && expected.baseType == BaseType.Float
    case Double(_) => expected.Base? && expected.baseType == BaseType.Double
    case Object(o) =>
      (match expected
       case Object(className) =>
         (match resolver(o.classId)
          case Some(c) => c.name == className
          case None => false)
       case _ => false)
    case Null => false
    case Array(elementType, _) => expected.Array? && elementType == expected.elementType
  }

  /**
   * The one declared type a value carries, if any: an independent
   * reading of the matching rules above.
   */
  function TypeOf(v: Value, resolver: ClassId -> Option<Class>): Option<FieldType> {
    match v
    case Uninitialized => None
    case Int(_) => Some(Base(BaseType.Int))
    case Long(_) => Some(Base(BaseType.Long))
    case Float(_) => Some(Base(BaseType.Float))
    case Double(_) => Some(Base(BaseType.Double))
    case Object(o) =>
      (match resolver(o.classId)
       case Some(c) => Some(FieldType.Object(c.name))
       case None => None)
    case Null => None
    case Array(elementType, _) => Some(FieldType.Array(elementType))
  }

  /** A value matches exactly one type (the one it carries), or none at all. */
  lemma MatchesExactlyTypeOf(v: Value, expected: FieldType, resolver: ClassId -> Option<Class>)
    ensures MatchesType(v, expected, resolver) <==> TypeOf(v, resolver) == Some(expected)
  {
  }

  /** The default value matches no type. */
  lemma DefaultMatchesNothing(expected: FieldType, resolver: ClassId -> Option<Class>)
    ensures !MatchesType(DEFAULT_VALUE, expected, resolver)
  {
  }

  /**
   * Without widening, the zero a field starts with matches the field's own
   * type only for int, long, float and double fields: byte, char, short and
   * boolean fields start as an `Int`, and reference fields as `Null`.
   */
  lemma ZeroMatchesOwnType(t: FieldType, resolver: ClassId -> Option<Class>)
    ensures MatchesType(ZeroValue(t), t, resolver) <==>
              t in {Base(BaseType.Int), Base(BaseType.Long), Base(BaseType.Float), Base(BaseType.Double)}
  {
  }
}
