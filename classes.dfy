/**
 * The resolved class descriptors the orchestrator consumes. Class-file
 * parsing and linking happen elsewhere; a class reaches the VM with its
 * flattened field layout (own and inherited fields, by position) and its
 * methods.
 */
module Classes {
  import opened Wrappers
  import opened FieldTypes

  type ClassId = nat

  datatype Method = Method(name: string, typeDescriptor: string, isNative: bool)

  /** `fieldTypes` is the flattened layout: inherited and own fields, by position. */
  datatype Class = Class(id: ClassId, name: string, fieldTypes: seq<FieldType>, methods: seq<Method>)

  /** The unit of dispatch: a resolved class and one of its methods. */
  datatype ClassAndMethod = ClassAndMethod(owner: Class, callee: Method)

  predicate Declares(m: Method, name: string, descriptor: string) {
    m.name == name && m.typeDescriptor == descriptor
  }

  /** Finds the first method with the given name and type descriptor. */
  function FindMethod(methods: seq<Method>, name: string, descriptor: string): (r: Option<Method>)
    ensures r.Some? ==> r.value in methods && Declares(r.value, name, descriptor)
    ensures r.None? <==> forall m :: m in methods ==> !Declares(m, name, descriptor)
  {
    if methods == [] then None
    else if Declares(methods[0], name, descriptor) then Some(methods[0])
    else FindMethod(methods[1..], name, descriptor)
  }
}
