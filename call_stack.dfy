/**
 * The call stack the orchestrator pushes frames onto. Its own code is not
 * part of this model: building a frame may fail for reasons the stack
 * decides (`frameCheck`), and popping fails only on an empty stack.
 */
module CallStacks {
  import opened Wrappers
  import opened Classes
  import opened Values
  import opened Exceptions

  /** One method activation: what is called, on which receiver, with which arguments. */
  datatype Frame = Frame(target: ClassAndMethod, receiver: Option<ObjectValue>, args: seq<Value>)

  class CallStack {
    var frames: seq<Frame>
    /** `None` when a frame can be built for the call, otherwise the error building it raises. */
    const frameCheck: Frame -> Option<VmError>

    constructor (frameCheck: Frame -> Option<VmError>)
      ensures frames == []
      ensures this.frameCheck == frameCheck
    {
      frames := [];
      this.frameCheck := frameCheck;
    }

    method AddFrame(target: ClassAndMethod, receiver: Option<ObjectValue>, args: seq<Value>)
      returns (r: Result<Frame, VmError>)
      modifies this`frames
      ensures var f := Frame(target, receiver, args);
              match frameCheck(f)
              case Some(e) => r == Err(e) && frames == old(frames)
              case None => r == Ok(f) && frames == old(frames) + [f]
    {
      var f := Frame(target, receiver, args);
      match frameCheck(f)
      case Some(e) =>
        r := Err(e);
      case None =>
        frames := frames + [f];
        r := Ok(f);
    }

    method PopFrame() returns (r: Result<Frame, VmError>)
      modifies this`frames
      ensures old(frames) == [] ==> r == Err(ValidationException) && frames == []
      ensures old(frames) != [] ==>
                r == Ok(old(frames)[|old(frames)| - 1]) && frames == old(frames)[..|old(frames)| - 1]
    {
      if frames == [] {
        r := Err(ValidationException);
      } else {
        r := Ok(frames[|frames| - 1]);
        frames := frames[..|frames| - 1];
      }
    }
  }
}
