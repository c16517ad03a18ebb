/**
 * The two failure channels: an internal engine error (`VmError`) and a
 * guest-level thrown exception, unified by `MethodCallFailed`.
 */
module Exceptions {
  import opened Values

  /**
   * Internal engine failures. The three kinds the orchestrator raises are
   * spelled out; `Other` stands for the remaining kinds of vm_error.rs,
   * which is not part of this model.
   */
  datatype VmError =
    | ClassNotFoundException(className: string)
    | NotImplemented
    | ValidationException
    | Other(detail: string)

  /** A failure of the operand-value stack; its kinds are not part of this model. */
  datatype ValueStackError = ValueStackError(kind: nat)

  /** A thrown guest exception: the reference to the thrown heap object. */
  datatype JavaException = JavaException(javaExceptionObject: ObjectValue)

  datatype MethodCallFailed =
    | InternalError(error: VmError)
    | ExceptionThrown(exception: JavaException)

  /** An engine error becomes an internal failure carrying that same error. */
  function FromVmError(e: VmError): (r: MethodCallFailed)
    ensures r.InternalError? && r.error == e
  {
    InternalError(e)
  }

  /** Every value-stack failure is folded into an internal validation failure. */
  function FromValueStackError(e: ValueStackError): (r: MethodCallFailed)
    ensures r.InternalError? && r.error == ValidationException
  {
    InternalError(ValidationException)
  }

  /** Neither conversion produces a guest exception. */
  lemma ConversionsNeverThrow(e: VmError, s: ValueStackError)
    ensures !FromVmError(e).ExceptionThrown? && !FromValueStackError(s).ExceptionThrown?
  {
  }

  /**
   * Converting a value-stack failure loses the failure: all of them give
   * the same result, the one a validation error converts to.
   */
  lemma ValueStackErrorsCollapse(a: ValueStackError, b: ValueStackError)
    ensures FromValueStackError(a) == FromValueStackError(b)
    ensures FromValueStackError(a) == FromVmError(ValidationException)
  {
  }

  /** Converting engine errors loses nothing: distinct errors stay distinct. */
  lemma FromVmErrorInjective(a: VmError, b: VmError)
    ensures FromVmError(a) == FromVmError(b) ==> a == b
  {
  }
}
