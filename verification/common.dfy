/**
 * Error kinds and the result wrappers shared by every module.
 *
 * Each `Error` constructor stands for the .NET exception type the modelled
 * code throws; messages are not modelled.
 */
module Common {

  datatype Error =
    | InvalidQuery          // InvalidQueryException
    | NotSupported          // NotSupportedException
    | MethodNotSupported    // QueryMethod.ThrowMethodNotSupported
    | NotImplemented        // NotImplementedException
    | EvaluationFailed      // EvaluateException
    | InvalidData           // InvalidDataException
    | InvalidOperation      // InvalidOperationException
    | InvalidCast           // InvalidCastException (a failed downcast or unboxing)
    | IndexOutOfRange       // IndexOutOfRangeException (array or span index)
    | ArgumentOutOfRange    // ArgumentOutOfRangeException (List<T> index, enum switch)
    | NullReference         // NullReferenceException
    | RachisApply           // RachisApplyException
    | Collaborator          // an error raised by code that is not part of this model

  datatype Result<T> = Ok(value: T) | Err(error: Error)
  {
    predicate IsFailure() { Err? }

    function PropagateFailure<U>(): Result<U>
      requires Err?
    {
      Err(error)
    }

    function Extract(): T
      requires Ok?
    {
      value
    }
  }

  datatype Option<T> = None | Some(value: T)
}
