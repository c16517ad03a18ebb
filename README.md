# rjvm orchestration core in Dafny

This project models the orchestration core of rjvm, a small JVM-style
virtual machine written in Rust, and proves properties of that model. It
covers three source files:

- `vm/src/value.rs`: runtime values and heap objects (module `Values`). A
  `Value` is a closed tagged union whose default is `Uninitialized`. An
  `ObjectValue` is a heap cell holding a class id and a positional field
  vector. A new object's fields are zero-initialised from each field's
  declared type. `matches_type` decides whether a value may stand where a
  type is declared.
- `vm/src/vm.rs`: the `Vm` orchestrator (module `VirtualMachine`). It is a
  class with three pieces of state:
  - the `statics` map, holding one static instance per class;
  - the native-method `registry`, keyed by class name, method name and type
    descriptor;
  - the diagnostic `printed` buffer.

  Its operations are class resolution with class initialisation, method
  dispatch (`Invoke`), method lookup and object creation.
- `vm/src/exceptions.rs`: the failure taxonomy `MethodCallFailed` and its two
  conversions (module `Exceptions`).

The collaborators whose code lies outside these files enter the model as
follows:

- **Class manager.** Its answer to a resolution request is a parameter of
  type `Result<ResolvedClass, VmError>`. A class resolved for the first time
  comes with the ordered batch of classes to initialise.
- **Object allocator.** It is Dafny's `new`: every allocation is a fresh
  reference.
- **Call stack.** Module `CallStacks` holds a sequence of frames. Pushing a
  frame fails when an opaque `frameCheck` says so. Popping fails only on an
  empty stack.
- **Frame execution.** It is an uninterpreted function `execute` from the
  call stack's frames, with the new frame on top, to a result. So execution
  sees the frame it runs in, pushed before it starts.
- **Host clock.** It is a fixed reading, `HostClock`.

Modules `FieldTypes` and `Classes` hold the field descriptors and resolved
classes these files consume.

Two ghost devices carry the ordering properties:

- The `events` log of `Vm` records static-instance insertions and
  invocations, in order. `Invoke` itself appends each invocation, together
  with the set of classes that have a static instance when the call begins.
  So the log's claim that a class's instance exists before its `<clinit>`
  runs is read off the actual `statics` map.
- The functions `InitSchedule`, `ClinitOutcomes`, `FirstFailure` and
  `ResolveOutcome` state what a batch initialisation does and returns. The
  methods are proved against them.

## Model

| member | source | states |
|---|---|---|
| Values.ZeroValue | vm/src/value.rs:38-51 | Byte, Char, Short, Boolean and Int fields start as `Int(0)`, Long as `Long(0)`, Float as `Float(0)` and Double as `Double(0)`; object and array fields start as `Null`. Each rule is an if-and-only-if. |
| Values.ZeroFields | vm/src/value.rs:35-53 | The zeroed field vector has one slot per declared field, and slot `i` is the zero of field `i`'s type. |
| Values.ZeroFieldsAreInitialized | vm/src/value.rs:38-51 | No slot of a new object is `Uninitialized`, and a slot is `Null` exactly when its field has a reference type. |
| Values.ObjectValue.constructor | vm/src/value.rs:34-58 | A new object carries the class's id and its zero-initialised field vector, one slot per field of the class's layout (`num_total_fields` of them). |
| Values.ObjectValue.SetField | vm/src/value.rs:60-62 | After writing slot `index`, that slot holds the value, every other slot is unchanged, and the length is unchanged. |
| Values.ObjectValue.GetField | vm/src/value.rs:64-66 | Reading slot `index` returns what the slot holds, so it returns the value last written there. |
| Values.MatchesType | vm/src/value.rs:73-119 | `Uninitialized` and `Null` match nothing. Int, Long, Float and Double each match only their own exact base type, with no widening. An object matches `Object(n)` exactly when the resolver knows its class and that class is named `n`, so an unknown class never matches. An array matches exactly an array type of an equal element type. |
| Values.MatchesExactlyTypeOf | vm/src/value.rs:77-118 | Matching agrees with an independent reading (`TypeOf`): a value matches a type exactly when that is the one type it carries. So a value matches at most one type. |
| Values.DefaultMatchesNothing | vm/src/value.rs:13-14 | The default value is `Uninitialized`, and it matches no expected type. |
| Values.ZeroMatchesOwnType | vm/src/value.rs:38-94 | A field's initial zero matches the field's own type exactly for int, long, float and double fields. Byte, char, short, boolean, object and array fields do not match. |
| Exceptions.FromVmError | vm/src/exceptions.rs:9-13 | Converting a `VmError` gives `InternalError` carrying that same error. |
| Exceptions.FromValueStackError | vm/src/exceptions.rs:16-20 | Converting any value-stack error gives `InternalError(ValidationException)`. |
| Exceptions.ConversionsNeverThrow | vm/src/exceptions.rs:9-20 | Neither conversion produces `ExceptionThrown`. |
| Exceptions.ValueStackErrorsCollapse | vm/src/exceptions.rs:16-20 | All value-stack errors convert to the same result, the one `ValidationException` converts to. |
| Exceptions.FromVmErrorInjective | vm/src/exceptions.rs:9-13 | Distinct engine errors stay distinct after conversion. |
| Classes.FindMethod | vm/src/vm.rs:134-137 | A method found by name and descriptor is one of the class's methods and has that name and descriptor. Nothing is found exactly when no method has both. |
| CallStacks.CallStack.constructor | vm/src/vm.rs:142-144 | A new call stack is empty. |
| CallStacks.CallStack.AddFrame | vm/src/vm.rs:168 | A push either fails with the frame check's error and leaves the frames alone, or appends exactly the new frame and returns it. |
| CallStacks.CallStack.PopFrame | vm/src/vm.rs:170 | A pop fails with `ValidationException` on an empty stack. Otherwise it returns and removes the top frame. |
| VirtualMachine.BuiltinNatives | vm/src/vm.rs:45-81 | A new VM's registry holds exactly the print native and four entries: `Object.registerNatives()V` and `System.registerNatives()V` do nothing, and `System.nanoTime()J` and `System.currentTimeMillis()J` read the clock. The print native is at its own key unless a later registration overwrote that key. |
| VirtualMachine.LookupMethod | vm/src/vm.rs:133-138 | Lookup fails exactly when the resolved class has no method with that name and descriptor, and then fails with `ClassNotFoundException(class_name)`. Otherwise it returns that class paired with a method it declares under that name and descriptor. |
| VirtualMachine.ClinitsInBatchOrder | vm/src/vm.rs:98-113 | The invocations that initialising a batch performs are exactly the `<clinit>()V` methods of the batch's classes, one per class that has one, in batch order. |
| VirtualMachine.InsertionPrecedesClinit | vm/src/vm.rs:99-113 | In the initialisation schedule, every `<clinit>` invocation comes immediately after the insertion of its own class's static instance, and it is that class's `<clinit>()V`. When the invocation begins, its own class and every class that had an instance before the batch have a static instance. |
| VirtualMachine.NewClassOutcome | vm/src/vm.rs:97-118 | Resolving a new class succeeds, with the resolved class, exactly when every `<clinit>` of its batch succeeds. Otherwise it fails with the error of the first failing `<clinit>`, and all earlier ones succeeded. |
| VirtualMachine.Vm.constructor | vm/src/vm.rs:39-43 | A new VM has empty statics, an empty print buffer and the built-in native registry. |
| VirtualMachine.Vm.Register | vm/src/vm.rs:57-62 | Registering a native binds its key to the callback, overwriting any earlier binding, and changes nothing else. |
| VirtualMachine.Vm.GetStaticInstance | vm/src/vm.rs:83-85 | There is a static instance for a class id exactly when one was inserted for it. The instance returned belongs to that class. |
| VirtualMachine.Vm.AllocateCallStack | vm/src/vm.rs:142-144 | Allocating a call stack gives a fresh, empty stack. |
| VirtualMachine.Vm.TempPrintNative | vm/src/vm.rs:47-55 | With no arguments, the print native fails with `ValidationException` and leaves `printed` unchanged. Otherwise it appends exactly the first argument to `printed` and returns `Ok(None)`. |
| VirtualMachine.Vm.CallNative | vm/src/vm.rs:46-80 | A callback returns its own outcome. The no-op natives return `Ok(None)`, the clock natives return the clock reading as a `Long`, and only the print native touches `printed`. |
| VirtualMachine.Vm.Invoke | vm/src/vm.rs:146-172 | An unregistered native gives `Err(NotImplemented)`; a registered native gives exactly its callback's result. A non-native whose frame cannot be built gives that error without executing; otherwise the frame is pushed, executed on the stack with that frame on top, and popped whatever the result was, and the execution's result is returned. In every case the call stack ends as it began. The invocation is logged with the classes that have a static instance at the call. |
| VirtualMachine.Vm.NewObjectOfClass | vm/src/vm.rs:183-186 | Allocation gives a fresh object of the class, with zeroed fields. |
| VirtualMachine.Vm.InitializeClass | vm/src/vm.rs:99-114 | Initialising one class inserts a fresh, zero-initialised static instance under the class's id and changes no other entry of `statics`. Then it invokes the class's `<clinit>()V` if it has one. The insertion comes before the invocation: the logged invocation sees the old keys plus the class's own id. The result is that invocation's. |
| VirtualMachine.Vm.InitializeClasses | vm/src/vm.rs:97-116 | The batch is processed in order up to and including the first failing `<clinit>`, and that failure's error is returned. Exactly the processed classes get a statics entry, so the failing class keeps its entry. Every entry outside the processed prefix keeps its instance. The events are exactly the schedule of the processed prefix. |
| VirtualMachine.Vm.GetOrResolveClass | vm/src/vm.rs:91-119 | The result agrees with `ResolveOutcome`: the class manager's error, the known class, or the batch's first `<clinit>` failure. An already-known class or a failed resolution leaves `statics` and the events alone. A new class extends `statics` by exactly the processed prefix of its batch, every other entry keeps its instance, and the events gain that prefix's schedule (`ResolutionEffect`). So statics only grow. The call stack and `printed` are unchanged. |
| VirtualMachine.Vm.ResolveClassMethod | vm/src/vm.rs:125-139 | A resolution failure is returned as is. Otherwise the result is the method lookup in the resolved class. The VM's state changes exactly as resolution changes it (`ResolutionEffect`), so the call stack and `printed` are unchanged. |
| VirtualMachine.Vm.NewObject | vm/src/vm.rs:174-181 | Creating an object fails exactly when resolution fails, and with the same error. Otherwise it gives a fresh, zero-initialised object of the resolved class. The VM's state changes exactly as resolution changes it (`ResolutionEffect`), so the call stack and `printed` are unchanged. |

## Left out

- `append_class_path`, `find_class_by_id`, `debug_stats`, logging and the
  `Debug` formatting are not modelled. They are class-path plumbing or
  output only.
- The class manager, class-path parsing, the object allocator and garbage
  collector, the native registry internals (`native_methods.rs`) and
  `vm_error.rs` are not part of this model:
  - the class manager's answer is a parameter;
  - `VmError` spells out only the kinds the orchestrator raises.
- `call_stack.rs` is not part of this model. A frame that cannot be built is
  decided by an opaque `frameCheck`, and a pop fails only on an empty stack.
  That a failed pop reports `ValidationException` is a modelling choice.
- Frame execution is a pure function `execute` of the call stack's frames. What executing
  bytecode does to the VM is not modelled, such as nested invocations,
  resolutions, static-field writes or prints.
- The clock natives return the fixed reading `HostClock`, not a live host
  time.
- `Float` and `Double` payloads are IEEE-754 bit patterns. Rust's
  floating-point equality, where `0.0 == -0.0` and NaN differs from itself,
  is not modelled.
- Rust's derived equality on `Value::Object`, `Value::Array` and
  `JavaException` compares the referenced objects' or arrays' contents.
  Dafny compares the references.
- Arrays are Dafny arrays; aliasing through `Rc<RefCell<…>>` is modelled as
  reference sharing, with no borrow checks.
- `register_temp_print` lives in `native_methods.rs`, which is not part of this
  model, so the key of the print native is a constructor parameter.
- That `<clinit>` runs once per class over the VM's lifetime depends on the
  class manager reporting a class as new only once. That is not modelled.
- VirtualMachine.Vm.InitializeClasses: the batch-level contract states which
  ids gain entries and that every other entry is kept. It does not state that
  each new entry is a fresh, zeroed instance; that is stated per class by
  `VirtualMachine.Vm.InitializeClass`.
- VirtualMachine.Vm.CallNative and VirtualMachine.Vm.Invoke: native callbacks
  form a closed set. A callback an embedder registers (`Fixed`) is known only
  by a constant outcome: it ignores its arguments and receiver, and it cannot
  touch `printed`, `statics` or the call stack. In the Rust code every
  callback gets the VM and the call stack mutably. So "only the print native
  touches `printed`" and "the call stack ends as it began" hold for natives
  only under this restriction.
- VirtualMachine.Vm.ResolveClassMethod takes the class manager's answer and
  the class name as separate parameters. It assumes that answer is the one
  for `className`; in the Rust code one name serves both.
- Values.ObjectValue.constructor: a class is modelled as its flattened field
  layout, so its total field count is the layout's length by definition. The
  panic the Rust code raises when a class reports more fields than it can
  produce is not modelled.
- Values.ObjectValue.GetField and Values.ObjectValue.SetField require an
  in-range index. An out-of-range index makes the Rust code panic, and that
  is not modelled.
- Classes.FindMethod does not state that the first matching method is the
  one returned. The class's own lookup is not part of this model.
