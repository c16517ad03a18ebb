/**
 * The VM orchestrator: the table of static instances, the native-method
 * registry and the diagnostic print buffer, together with class
 * initialisation and method dispatch.
 *
 * Collaborators enter as follows: the class manager's answer to a
 * resolution request is a parameter; the object allocator is Dafny's `new`;
 * bytecode execution of a pushed frame is the function `execute` of the
 * frames on the call stack, the new frame on top; the host
 * clock is the reading `clock`.
 */
module VirtualMachine {
  import opened Wrappers
  import opened Classes
  import opened Values
  import opened Exceptions
  import opened CallStacks

  type InvokeResult = Result<Option<Value>, VmError>

  /** Natives are registered under (class name, method name, type descriptor). */
  datatype NativeKey = NativeKey(className: string, methodName: string, descriptor: string)

  function KeyOf(target: ClassAndMethod): NativeKey {
    NativeKey(target.owner.name, target.callee.name, target.callee.typeDescriptor)
  }

  /**
   * Host callbacks: the built-in ones, and `Fixed` for a callback an
   * embedder registers, which the model knows only by its outcome.
   */
  datatype NativeCallback =
    | TempPrint
    | NoOp
    | NanoTime
    | CurrentTimeMillis
    | Fixed(outcome: InvokeResult)

  datatype HostClock = HostClock(nanos: i64, millis: i64)

  /**
   * The class manager's answer: a class resolved for the first time comes
   * with the ordered batch of classes to initialise (superclasses first).
   */
  datatype ResolvedClass =
    | NewClass(toInitialize: seq<Class>, resolved: Class)
    | AlreadyLoaded(resolved: Class)

  /**
   * The observable steps of the orchestrator, in the order they happen. An
   * invocation records the classes that had a static instance when it began.
   */
  datatype Event = StaticsInserted(id: ClassId) | Invoked(target: ClassAndMethod, keys: set<ClassId>)

  const OBJECT_REGISTER_NATIVES := NativeKey("java/lang/Object", "registerNatives", "()V")
  const SYSTEM_REGISTER_NATIVES := NativeKey("java/lang/System", "registerNatives", "()V")
  const NANO_TIME := NativeKey("java/lang/System", "nanoTime", "()J")
  const CURRENT_TIME_MILLIS := NativeKey("java/lang/System", "currentTimeMillis", "()J")

  const CLINIT_NAME: string := "<clinit>"
  const CLINIT_DESCRIPTOR: string := "()V"

  /**
   * The registry a new VM starts with, registered in this order: the
   * diagnostic print under `tempPrintKey`, then the four fixed entries.
   */
  function BuiltinNatives(tempPrintKey: NativeKey): (r: map<NativeKey, NativeCallback>)
    ensures r.Keys == {tempPrintKey, OBJECT_REGISTER_NATIVES, SYSTEM_REGISTER_NATIVES, NANO_TIME, CURRENT_TIME_MILLIS}
    ensures r[OBJECT_REGISTER_NATIVES] == NoOp && r[SYSTEM_REGISTER_NATIVES] == NoOp
    ensures r[NANO_TIME] == NanoTime && r[CURRENT_TIME_MILLIS] == CurrentTimeMillis
    ensures tempPrintKey !in {OBJECT_REGISTER_NATIVES, SYSTEM_REGISTER_NATIVES, NANO_TIME, CURRENT_TIME_MILLIS} ==>
              r[tempPrintKey] == TempPrint
  {
    map[tempPrintKey := TempPrint]
      [OBJECT_REGISTER_NATIVES := NoOp]
      [SYSTEM_REGISTER_NATIVES := NoOp]
      [NANO_TIME := NanoTime]
      [CURRENT_TIME_MILLIS := CurrentTimeMillis]
  }

  /** What a native callback returns. */
  function NativeOutcome(cb: NativeCallback, args: seq<Value>, clock: HostClock): InvokeResult {
    match cb
    case TempPrint => if |args| == 0 then Err(ValidationException) else Ok(None)
    case NoOp => Ok(None)
    case NanoTime => Ok(Some(Value.Long(clock.nanos)))
    case CurrentTimeMillis => Ok(Some(Value.Long(clock.millis)))
    case Fixed(outcome) => outcome
  }

  /** The print buffer after a native callback ran. */
  function PrintedAfter(cb: NativeCallback, args: seq<Value>, printed: seq<Value>): seq<Value> {
    if cb.TempPrint? && |args| > 0 then printed + [args[0]] else printed
  }

  /** A failing pop takes precedence over the result of the execution it follows. */
  function AfterPop(popped: Result<Frame, VmError>, result: InvokeResult): InvokeResult {
    if popped.Err? then Err(popped.error) else result
  }

  /**
   * Looks a method up in a resolved class. A missing method is reported as
   * a missing class, under the requested class name.
   */
  function LookupMethod(c: Class, className: string, methodName: string, descriptor: string)
    : (r: Result<ClassAndMethod, VmError>)
    ensures r.Err? <==> forall m :: m in c.methods ==> !Declares(m, methodName, descriptor)
    ensures r.Ok? ==> r.value.owner == c && r.value.callee in c.methods
                      && Declares(r.value.callee, methodName, descriptor)
    ensures r.Err? ==> r.error == ClassNotFoundException(className)
  {
    match FindMethod(c.methods, methodName, descriptor)
    case Some(m) => Ok(ClassAndMethod(c, m))
    case None => Err(ClassNotFoundException(className))
  }

  function ClinitOf(c: Class): Option<Method> {
    FindMethod(c.methods, CLINIT_NAME, CLINIT_DESCRIPTOR)
  }

  /**
   * The steps initialising one class takes when the classes `keys` already
   * have static instances: insert its statics, then run its `<clinit>`, if
   * it has one, with its own instance in place.
   */
  function InitEvents(c: Class, keys: set<ClassId>): seq<Event> {
    [StaticsInserted(c.id)] + match ClinitOf(c)
                              case Some(m) => [Invoked(ClassAndMethod(c, m), keys + {c.id})]
                              case None => []
  }

  /** The steps initialising a batch takes, class after class in batch order. */
  function InitSchedule(keys: set<ClassId>, cs: seq<Class>): seq<Event> {
    if cs == [] then []
    else
      var front := cs[..|cs| - 1];
      InitSchedule(keys, front) + InitEvents(cs[|cs| - 1], keys + ClassIds(front))
  }

  function ClassIds(cs: seq<Class>): set<ClassId> {
    if cs == [] then {} else ClassIds(cs[..|cs| - 1]) + {cs[|cs| - 1].id}
  }

  /** The `<clinit>` calls a batch calls for, in batch order. */
  function ClinitCalls(cs: seq<Class>): seq<ClassAndMethod> {
    if cs == [] then []
    else
      var last := cs[|cs| - 1];
      ClinitCalls(cs[..|cs| - 1]) + match ClinitOf(last)
                                    case Some(m) => [ClassAndMethod(last, m)]
                                    case None => []
  }

  /** The invocations in a sequence of events, in order. */
  function InvokedTargets(es: seq<Event>): seq<ClassAndMethod> {
    if es == [] then []
    else (if es[0].Invoked? then [es[0].target] else []) + InvokedTargets(es[1..])
  }

  lemma {:induction false} InvokedTargetsAppend(a: seq<Event>, b: seq<Event>)
    ensures InvokedTargets(a + b) == InvokedTargets(a) + InvokedTargets(b)
  {
    if a == [] {
      assert a + b == b;
    } else {
      assert (a + b)[0] == a[0];
      assert (a + b)[1..] == a[1..] + b;
      InvokedTargetsAppend(a[1..], b);
    }
  }

  /** Initialising a batch runs exactly the batch's `<clinit>` methods, once each, in batch order. */
  lemma {:induction false} ClinitsInBatchOrder(keys: set<ClassId>, cs: seq<Class>)
    ensures InvokedTargets(InitSchedule(keys, cs)) == ClinitCalls(cs)
  {
    if cs != [] {
      var front, last := cs[..|cs| - 1], cs[|cs| - 1];
      var keysBefore := keys + ClassIds(front);
      ClinitsInBatchOrder(keys, front);
      InvokedTargetsAppend(InitSchedule(keys, front), InitEvents(last, keysBefore));
      var tail := match ClinitOf(last)
                  case Some(m) => [Invoked(ClassAndMethod(last, m), keysBefore + {last.id})]
                  case None => [];
      InvokedTargetsAppend([StaticsInserted(last.id)], tail);
      assert InvokedTargets([StaticsInserted(last.id)]) == [];
    }
  }

  /**
   * Every `<clinit>` invocation in a batch's schedule comes right after the
   * insertion of its class's static instance, and it is that class's
   * `<clinit>()V`. When it begins, its own class and every class that had
   * a static instance before the batch have one.
   */
  lemma {:induction false} InsertionPrecedesClinit(keys: set<ClassId>, cs: seq<Class>, i: nat)
    requires i < |InitSchedule(keys, cs)|
    requires InitSchedule(keys, cs)[i].Invoked?
    ensures 0 < i
    ensures InitSchedule(keys, cs)[i - 1] == StaticsInserted(InitSchedule(keys, cs)[i].target.owner.id)
    ensures ClinitOf(InitSchedule(keys, cs)[i].target.owner) == Some(InitSchedule(keys, cs)[i].target.callee)
    ensures InitSchedule(keys, cs)[i].target.owner.id in InitSchedule(keys, cs)[i].keys
    ensures keys <= InitSchedule(keys, cs)[i].keys
  {
    var front, last := cs[..|cs| - 1], cs[|cs| - 1];
    var prefix := InitSchedule(keys, front);
    assert InitSchedule(keys, cs) == prefix + InitEvents(last, keys + ClassIds(front));
    if i < |prefix| {
      InsertionPrecedesClinit(keys, front, i);
    } else {
      assert InitSchedule(keys, cs)[i] == InitEvents(last, keys + ClassIds(front))[i - |prefix|];
      assert i - |prefix| == 1;
    }
  }

  /** Extending a batch prefix by one class extends its schedule and its ids by that class's. */
  lemma PrefixStep(batch: seq<Class>, i: nat, keys0: set<ClassId>, events0: seq<Event>,
                   keysBefore: set<ClassId>, keysAfter: set<ClassId>,
                   eventsBefore: seq<Event>, eventsAfter: seq<Event>)
    requires i < |batch|
    requires keysBefore == keys0 + ClassIds(batch[..i]) && keysAfter == keysBefore + {batch[i].id}
    requires eventsBefore == events0 + InitSchedule(keys0, batch[..i])
    requires eventsAfter == eventsBefore + InitEvents(batch[i], keysBefore)
    ensures keysAfter == keys0 + ClassIds(batch[..i + 1])
    ensures eventsAfter == events0 + InitSchedule(keys0, batch[..i + 1])
  {
    assert batch[..i + 1][..i] == batch[..i];
    assert eventsAfter == events0 + (InitSchedule(keys0, batch[..i]) + InitEvents(batch[i], keysBefore));
  }

  /**
   * Filing one more class of a batch prefix keeps every entry outside the
   * extended prefix as it was.
   */
  lemma KeepStep(batch: seq<Class>, i: nat, statics0: map<ClassId, ObjectValue>,
                 before: map<ClassId, ObjectValue>, after: map<ClassId, ObjectValue>)
    requires i < |batch|
    requires forall id :: id in statics0 && id !in ClassIds(batch[..i]) ==> id in before && before[id] == statics0[id]
    requires batch[i].id in after && after == before[batch[i].id := after[batch[i].id]]
    ensures forall id :: id in statics0 && id !in ClassIds(batch[..i + 1]) ==> id in after && after[id] == statics0[id]
  {
    assert batch[..i + 1][..i] == batch[..i];
  }

  /**
   * Everything the outcome of a call depends on: the native registry, the
   * host clock, bytecode execution, and the call stack's frame check.
   */
  datatype Dispatcher = Dispatcher(
    registry: map<NativeKey, NativeCallback>,
    clock: HostClock,
    execute: seq<Frame> -> InvokeResult,
    frameCheck: Frame -> Option<VmError>,
    frames: seq<Frame>)

  /** What invoking `target` returns. */
  function InvokeOutcome(d: Dispatcher, target: ClassAndMethod, receiver: Option<ObjectValue>, args: seq<Value>)
    : InvokeResult
  {
    if target.callee.isNative then
      if KeyOf(target) in d.registry then NativeOutcome(d.registry[KeyOf(target)], args, d.clock)
      else Err(NotImplemented)
    else
      match d.frameCheck(Frame(target, receiver, args))
      case Some(e) => Err(e)
      case None => d.execute(d.frames + [Frame(target, receiver, args)])
  }

  /** What running the `<clinit>()V` of `c`, if it has one, returns. */
  function ClinitOutcome(d: Dispatcher, c: Class): InvokeResult {
    match ClinitOf(c)
    case Some(m) => InvokeOutcome(d, ClassAndMethod(c, m), None, [])
    case None => Ok(None)
  }

  /** The outcomes of the `<clinit>` calls of a batch, class by class. */
  function ClinitOutcomes(d: Dispatcher, cs: seq<Class>): (rs: seq<InvokeResult>)
    ensures |rs| == |cs|
  {
    if cs == [] then [] else [ClinitOutcome(d, cs[0])] + ClinitOutcomes(d, cs[1..])
  }

  lemma {:induction false} ClinitOutcomesAt(d: Dispatcher, cs: seq<Class>, j: nat)
    requires j < |cs|
    ensures ClinitOutcomes(d, cs)[j] == ClinitOutcome(d, cs[j])
  {
    if j > 0 {
      ClinitOutcomesAt(d, cs[1..], j - 1);
    }
  }

  /** The position of the first failure in `rs`, or `|rs|` when there is none. */
  function FirstFailure(rs: seq<InvokeResult>): (k: nat)
    ensures k <= |rs|
    ensures forall j :: 0 <= j < k ==> rs[j].Ok?
    ensures k < |rs| ==> rs[k].Err?
  {
    if rs == [] then 0
    else if rs[0].Err? then 0
    else 1 + FirstFailure(rs[1..])
  }

  /** The first failure is at `i` when everything before `i` succeeded and `rs[i]`, if any, failed. */
  lemma FirstFailureAt(rs: seq<InvokeResult>, i: nat)
    requires i <= |rs|
    requires forall j :: 0 <= j < i ==> rs[j].Ok?
    requires i < |rs| ==> rs[i].Err?
    ensures FirstFailure(rs) == i
  {
  }

  /** How many classes of a batch initialisation reaches: up to and including the first failure. */
  function Processed(rs: seq<InvokeResult>): (n: nat)
    ensures n <= |rs|
  {
    var k := FirstFailure(rs);
    if k < |rs| then k + 1 else |rs|
  }

  /** What resolving a class returns, given the class manager's answer. */
  function ResolveOutcome(d: Dispatcher, resolution: Result<ResolvedClass, VmError>): Result<Class, VmError> {
    match resolution
    case Err(e) => Err(e)
    case Ok(AlreadyLoaded(c)) => Ok(c)
    case Ok(NewClass(batch, c)) =>
      var rs := ClinitOutcomes(d, batch);
      var k := FirstFailure(rs);
      if k < |rs| then Err(rs[k].error) else Ok(c)
  }

  /**
   * Resolving a new class succeeds exactly when every `<clinit>` of its batch
   * succeeds; otherwise it fails with the error of the first one that fails.
   */
  lemma NewClassOutcome(d: Dispatcher, batch: seq<Class>, c: Class)
    ensures ResolveOutcome(d, Ok(NewClass(batch, c))).Ok? <==>
            forall j :: 0 <= j < |batch| ==> ClinitOutcome(d, batch[j]).Ok?
    ensures ResolveOutcome(d, Ok(NewClass(batch, c))).Ok? ==> ResolveOutcome(d, Ok(NewClass(batch, c))).value == c
    ensures ResolveOutcome(d, Ok(NewClass(batch, c))).Err? ==>
            exists k :: 0 <= k < |batch| && ClinitOutcome(d, batch[k]) == Err(ResolveOutcome(d, Ok(NewClass(batch, c))).error)
                        && forall j :: 0 <= j < k ==> ClinitOutcome(d, batch[j]).Ok?
  {
    var rs := ClinitOutcomes(d, batch);
    forall j | 0 <= j < |batch|
      ensures rs[j] == ClinitOutcome(d, batch[j])
    {
      ClinitOutcomesAt(d, batch, j);
    }
  }

  class Vm {
    /** One static instance per initialised (or initialising) class. */
    var statics: map<ClassId, ObjectValue>
    var registry: map<NativeKey, NativeCallback>
    /** Values passed to the diagnostic print native, in order. */
    var printed: seq<Value>
    const clock: HostClock
    /** Bytecode execution of the frame on top of the given call stack. */
    const execute: seq<Frame> -> InvokeResult
    ghost var events: seq<Event>

    /** Every static instance belongs to the class it is filed under. */
    predicate StaticsValid()
      reads this`statics
    {
      forall id :: id in statics ==> statics[id].classId == id
    }

    constructor (tempPrintKey: NativeKey, clock: HostClock, execute: seq<Frame> -> InvokeResult)
      ensures statics == map[] && printed == [] && events == []
      ensures registry == BuiltinNatives(tempPrintKey)
      ensures this.clock == clock && this.execute == execute
      ensures StaticsValid()
    {
      statics := map[];
      registry := BuiltinNatives(tempPrintKey);
      printed := [];
      this.clock := clock;
      this.execute := execute;
      events := [];
    }

    method Register(key: NativeKey, cb: NativeCallback)
      modifies this`registry
      ensures registry == old(registry)[key := cb]
    {
      registry := registry[key := cb];
    }

    function GetStaticInstance(id: ClassId): (r: Option<ObjectValue>)
      reads this`statics
      requires StaticsValid()
      ensures r.Some? <==> id in statics
      ensures r.Some? ==> r.value == statics[id] && r.value.classId == id
    {
      if id in statics then Some(statics[id]) else None
    }

    /** The dispatcher this VM uses for calls on `stack`. */
    function DispatcherFor(stack: CallStack): Dispatcher
      reads this`registry, stack`frames
    {
      Dispatcher(registry, clock, execute, stack.frameCheck, stack.frames)
    }

    method AllocateCallStack(frameCheck: Frame -> Option<VmError>) returns (stack: CallStack)
      ensures fresh(stack) && stack.frames == [] && stack.frameCheck == frameCheck
    {
      stack := new CallStack(frameCheck);
    }

    /** The diagnostic print native: records its first argument. */
    method TempPrintNative(args: seq<Value>) returns (r: InvokeResult)
      modifies this`printed
      ensures |args| == 0 ==> r == Err(ValidationException) && printed == old(printed)
      ensures |args| > 0 ==> r == Ok(None) && printed == old(printed) + [args[0]]
    {
      if |args| == 0 {
        r := Err(ValidationException);
        return;
      }
      printed := printed + [args[0]];
      r := Ok(None);
    }

    method CallNative(cb: NativeCallback, args: seq<Value>) returns (r: InvokeResult)
      modifies this`printed
      ensures r == NativeOutcome(cb, args, clock)
      ensures printed == PrintedAfter(cb, args, old(printed))
    {
      match cb
      case TempPrint =>
        r := TempPrintNative(args);
      case NoOp =>
        r := Ok(None);
      case NanoTime =>
        r := Ok(Some(Value.Long(clock.nanos)));
      case CurrentTimeMillis =>
        r := Ok(Some(Value.Long(clock.millis)));
      case Fixed(outcome) =>
        r := outcome;
    }

    /**
     * Dispatches a call. A native goes to its registered callback, or fails
     * with `NotImplemented`, without touching the call stack; any other
     * method runs in a frame that is pushed, executed and popped again,
     * whether the execution succeeded or failed.
     */
    method Invoke(stack: CallStack, target: ClassAndMethod, receiver: Option<ObjectValue>, args: seq<Value>)
      returns (r: InvokeResult)
      modifies this`printed, this`events, stack`frames
      ensures r == InvokeOutcome(DispatcherFor(stack), target, receiver, args)
      ensures stack.frames == old(stack.frames)
      ensures events == old(events) + [Invoked(target, statics.Keys)]
      ensures printed == if target.callee.isNative && KeyOf(target) in registry
                         then PrintedAfter(registry[KeyOf(target)], args, old(printed))
                         else old(printed)
    {
      events := events + [Invoked(target, statics.Keys)];
      if target.callee.isNative {
        var key := KeyOf(target);
        if key in registry {
          r := CallNative(registry[key], args);
        } else {
          r := Err(NotImplemented);
        }
        return;
      }
      var pushed := stack.AddFrame(target, receiver, args);
      if pushed.Err? {
        r := Err(pushed.error);
        return;
      }
      var result := execute(stack.frames);
      var popped := stack.PopFrame();
      r := AfterPop(popped, result);
    }

    method NewObjectOfClass(c: Class) returns (o: ObjectValue)
      ensures fresh(o)
      ensures o.classId == c.id && o.fields == ZeroFields(c.fieldTypes)
    {
      o := new ObjectValue(c);
    }

    /**
     * Initialises one class: files a fresh static instance for it, then runs
     * its `<clinit>()V` if it has one.
     */
    method InitializeClass(stack: CallStack, c: Class, ghost d: Dispatcher) returns (outcome: InvokeResult)
      requires StaticsValid()
      requires d == DispatcherFor(stack)
      modifies this`statics, this`printed, this`events, stack`frames
      ensures StaticsValid()
      ensures outcome == ClinitOutcome(d, c)
      ensures stack.frames == old(stack.frames)
      ensures printed == old(printed)
      ensures c.id in statics && fresh(statics[c.id])
      ensures statics[c.id].fields == ZeroFields(c.fieldTypes)
      ensures statics == old(statics)[c.id := statics[c.id]]
      ensures statics.Keys == old(statics).Keys + {c.id}
      ensures events == old(events) + InitEvents(c, old(statics).Keys)
    {
      var instance := NewObjectOfClass(c);
      statics := statics[c.id := instance];
      events := events + [StaticsInserted(c.id)];
      var clinit := ClinitOf(c);
      if clinit.Some? {
        outcome := Invoke(stack, ClassAndMethod(c, clinit.value), None, []);
      } else {
        outcome := Ok(None);
      }
    }

    /**
     * Initialises a batch of newly resolved classes, class after class in
     * batch order; the first failing `<clinit>` ends the batch and its error
     * is returned.
     */
    method InitializeClasses(stack: CallStack, batch: seq<Class>, ghost d: Dispatcher) returns (failure: Option<VmError>)
      requires StaticsValid()
      requires d == DispatcherFor(stack)
      modifies this`statics, this`printed, this`events, stack`frames
      ensures StaticsValid()
      ensures var rs := ClinitOutcomes(d, batch);
              var n := Processed(rs);
              && (failure.None? <==> FirstFailure(rs) == |batch|)
              && (failure.Some? ==> failure.value == rs[FirstFailure(rs)].error)
              && statics.Keys == old(statics).Keys + ClassIds(batch[..n])
              && events == old(events) + InitSchedule(old(statics).Keys, batch[..n])
      ensures var n := Processed(ClinitOutcomes(d, batch));
              forall id :: id in old(statics) && id !in ClassIds(batch[..n]) ==> id in statics && statics[id] == old(statics)[id]
      ensures stack.frames == old(stack.frames)
      ensures printed == old(printed)
    {
      ghost var rs := ClinitOutcomes(d, batch);
      var i := 0;
      failure := None;
      while i < |batch| && failure.None?
        invariant i <= |batch|
        invariant forall j :: 0 <= j < i ==> (j < i - 1 || failure.None?) ==> rs[j].Ok?
        invariant failure.Some? ==> 0 < i && rs[i - 1] == Err(failure.value)
        invariant stack.frames == old(stack.frames)
        invariant printed == old(printed)
        invariant StaticsValid()
        invariant statics.Keys == old(statics).Keys + ClassIds(batch[..i])
        invariant events == old(events) + InitSchedule(old(statics).Keys, batch[..i])
        invariant forall id :: id in old(statics) && id !in ClassIds(batch[..i]) ==> id in statics && statics[id] == old(statics)[id]
      {
        ghost var staticsBefore, keysBefore, eventsBefore := statics, statics.Keys, events;
        var outcome := InitializeClass(stack, batch[i], d);
        ClinitOutcomesAt(d, batch, i);
        PrefixStep(batch, i, old(statics).Keys, old(events), keysBefore, statics.Keys, eventsBefore, events);
        KeepStep(batch, i, old(statics), staticsBefore, statics);
        if outcome.Err? {
          failure := Some(outcome.error);
        }
        i := i + 1;
      }
      if failure.Some? {
        FirstFailureAt(rs, i - 1);
        assert Processed(rs) == i;
      } else {
        FirstFailureAt(rs, i);
        assert batch[..i] == batch;
        assert Processed(rs) == i;
      }
    }

    /**
     * What resolving a class does to the VM. Nothing but `statics` and the
     * event log changes. A class resolved for the first time gains statics
     * entries for exactly the processed prefix of its batch, every other
     * entry keeps its instance, and the log gains that prefix's schedule.
     * Any other answer changes nothing.
     */
    twostate predicate ResolutionEffect(stack: CallStack, resolution: Result<ResolvedClass, VmError>)
      reads this, stack
    {
      && stack.frames == old(stack.frames)
      && printed == old(printed)
      && if resolution.Ok? && resolution.value.NewClass? then
           var batch := resolution.value.toInitialize;
           var n := Processed(ClinitOutcomes(DispatcherFor(stack), batch));
           && statics.Keys == old(statics).Keys + ClassIds(batch[..n])
           && (forall id :: id in old(statics) && id !in ClassIds(batch[..n]) ==> statics[id] == old(statics)[id])
           && events == old(events) + InitSchedule(old(statics).Keys, batch[..n])
         else
           statics == old(statics) && events == old(events)
    }

    /**
     * Resolves a class. A class resolved for the first time has its batch
     * initialised; a class already known leaves `statics` alone and runs
     * nothing.
     */
    method GetOrResolveClass(stack: CallStack, resolution: Result<ResolvedClass, VmError>)
      returns (r: Result<Class, VmError>)
      requires StaticsValid()
      modifies this`statics, this`printed, this`events, stack`frames
      ensures StaticsValid()
      ensures r == ResolveOutcome(DispatcherFor(stack), resolution)
      ensures ResolutionEffect(stack, resolution)
      ensures old(statics).Keys <= statics.Keys
    {
      if resolution.Err? {
        r := Err(resolution.error);
        return;
      }
      match resolution.value
      case AlreadyLoaded(c) =>
        r := Ok(c);
      case NewClass(batch, c) =>
        var failure := InitializeClasses(stack, batch, DispatcherFor(stack));
        if failure.Some? {
          r := Err(failure.value);
        } else {
          r := Ok(c);
        }
    }

    /** Resolves a class, then looks one of its methods up. */
    method ResolveClassMethod(stack: CallStack, resolution: Result<ResolvedClass, VmError>,
                              className: string, methodName: string, descriptor: string)
      returns (r: Result<ClassAndMethod, VmError>)
      requires StaticsValid()
      modifies this`statics, this`printed, this`events, stack`frames
      ensures StaticsValid()
      ensures ResolutionEffect(stack, resolution)
      ensures old(statics).Keys <= statics.Keys
      ensures r == match ResolveOutcome(DispatcherFor(stack), resolution)
                   case Err(e) => Err(e)
                   case Ok(c) => LookupMethod(c, className, methodName, descriptor)
    {
      var resolved := GetOrResolveClass(stack, resolution);
      match resolved
      case Err(e) =>
        r := Err(e);
      case Ok(c) =>
        r := LookupMethod(c, className, methodName, descriptor);
    }

    /** Resolves a class, then allocates a zero-initialised instance of it. */
    method NewObject(stack: CallStack, resolution: Result<ResolvedClass, VmError>)
      returns (r: Result<ObjectValue, VmError>)
      requires StaticsValid()
      modifies this`statics, this`printed, this`events, stack`frames
      ensures StaticsValid()
      ensures ResolutionEffect(stack, resolution)
      ensures old(statics).Keys <= statics.Keys
      ensures r.Ok? <==> ResolveOutcome(DispatcherFor(stack), resolution).Ok?
      ensures r.Err? ==> r.error == ResolveOutcome(DispatcherFor(stack), resolution).error
      ensures r.Ok? ==> fresh(r.value) && r.value.classId == ResolveOutcome(DispatcherFor(stack), resolution).value.id
                        && r.value.fields == ZeroFields(ResolveOutcome(DispatcherFor(stack), resolution).value.fieldTypes)
    {
      var resolved := GetOrResolveClass(stack, resolution);
      match resolved
      case Err(e) =>
        r := Err(e);
      case Ok(c) =>
        var o := NewObjectOfClass(c);
        r := Ok(o);
    }
  }
}
