/**
 * Field descriptors as the class-file reader hands them to the VM: a base
 * (primitive) type, an object type named by its class, or an array type
 * named by its element type.
 */
module FieldTypes {
  datatype BaseType = Byte | Char | Double | Float | Int | Long | Short | Boolean

  datatype FieldType =
    | Base(baseType: BaseType)
    | Object(className: string)
    | Array(elementType: FieldType)

  /** Object and array types hold references; every other type is primitive. */
  predicate IsReference(t: FieldType) {
    t.Object? || t.Array?
  }

  /** Base types whose values the VM stores as a 32-bit `Int`. */
  predicate IsIntStored(t: FieldType) {
    t.Base? && t.baseType in {BaseType.Byte, BaseType.Char, BaseType.Short, BaseType.Boolean, BaseType.Int}
  }
}
