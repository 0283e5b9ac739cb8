/**
 * The value types an AsyncOp reports its input, output and results in:
 * a present-or-absent value, the three reasons a value can be absent, the
 * three-way result handed to a pipeline's final handler, the four-way result
 * status, the library's own error kinds and the instruction a precondition
 * evaluator returns. All of it is pure data with total functions.
 */
module AsyncOpTypes {

  /** Swift's Optional (`T?`); named apart from AsyncOpValue's None/Some. */
  datatype Maybe<T> = Nothing | Just(value: T)

  /**
   * Swift's untyped `ErrorType`, closed over the kinds this library produces.
   * `Custom` stands for an application's own error, compared by value.
   * The library's errors and an absent value's reason are errors too
   * (`getValue` throws an AsyncOpValueErrorType).
   */
  datatype Error =
    | Custom(code: int)
    | OpError(opError: AsyncOpError)
    | ValueError(kind: AsyncOpValueErrorType)

  /** The library's own error kinds; `Multiple` aggregates several failures in order. */
  datatype AsyncOpError =
    | Unspecified
    | NoResultBecauseOperationNotFinished
    | UnimplementedOperation
    | Multiple(errors: seq<Error>)
    | PreconditionFailure

  /** Why a value is absent: never produced, cancelled, or failed with an error. */
  datatype AsyncOpValueErrorType = NoValue | Cancelled | Failed(error: Error)
  {
    /** The error kind's `cancelled` property. */
    predicate IsCancelled()
      ensures IsCancelled() ==> !this.Failed? && !this.NoValue?
    {
      match this
      case Cancelled => true
      case _ => false
    }

    /** The error kind's `failed` property. */
    predicate IsFailed()
      ensures IsFailed() ==> !IsCancelled()
    {
      match this
      case Failed(_) => true
      case _ => false
    }

    /** The error kind's `failureError` property: the wrapped error of a failure, nil otherwise. */
    function FailureError(): (r: Maybe<Error>)
      ensures r.Just? <==> IsFailed()
      ensures r.Just? ==> this == AsyncOpValueErrorType.Failed(r.value)
    {
      match this
      case Failed(e) => Just(e)
      case _ => Nothing
    }
  }

  /** What `getValue` either returns or throws. */
  datatype Result<T> = Success(value: T) | Failure(error: Error)

  /** A present value, or an absent one with its reason. */
  datatype AsyncOpValue<V> = None(reason: AsyncOpValueErrorType) | Some(value: V)
  {
    /** `getValue`: the value when present; throws NoValue for every absent value, whatever its reason. */
    function GetValue(): (r: Result<V>)
      ensures r.Success? <==> Some?
      ensures r.Success? ==> r.value == value
      ensures r.Failure? ==> r.error == ValueError(NoValue)
    {
      match this
      case None(_) => Failure(ValueError(NoValue))
      case Some(v) => Success(v)
    }

    /** The `value` property: non-nil exactly when `getValue` returns. */
    function Value(): (r: Maybe<V>)
      ensures r.Just? <==> GetValue().Success?
      ensures r.Just? ==> r.value == GetValue().value
    {
      match this
      case None(_) => Nothing
      case Some(v) => Just(v)
    }

    /** The `noneError` property: the reason of an absent value, nil for a present one. */
    function NoneError(): (r: Maybe<AsyncOpValueErrorType>)
      ensures r.Just? <==> Value().Nothing?
      ensures r.Just? ==> this == None(r.value)
    {
      match this
      case None(reason) => Just(reason)
      case Some(_) => Nothing
    }

    /** A value used as an input provider provides itself. */
    function ProvideAsyncOpInput(): (r: AsyncOpValue<V>)
      ensures r == this
    {
      this
    }
  }

  /** What a pipeline's `finally` handler receives. */
  datatype AsyncOpResult<V> = Succeeded(value: V) | Failed(error: Error) | Cancelled
  {
    /** The result's `succeeded` property: a succeeded result is neither failed nor cancelled. */
    predicate IsSucceeded()
      ensures IsSucceeded() ==> !this.Failed? && !this.Cancelled?
    {
      match this
      case Succeeded(_) => true
      case _ => false
    }
  }

  /** `AsyncOpResult(asyncOpValue:)`: classify a value (AsyncOpTypes.swift, the initialiser). */
  function ResultOf<V>(v: AsyncOpValue<V>): (r: AsyncOpResult<V>)
    ensures r.Succeeded? <==> v.Some?
    ensures r.Succeeded? ==> r.value == v.value
    ensures r == AsyncOpResult.Cancelled <==> v == None(AsyncOpValueErrorType.Cancelled)
    ensures v == None(NoValue) ==> r == AsyncOpResult.Failed(OpError(NoResultBecauseOperationNotFinished))
    ensures forall e :: v == None(AsyncOpValueErrorType.Failed(e)) ==> r == AsyncOpResult.Failed(e)
  {
    match v
    case Some(x) => AsyncOpResult.Succeeded(x)
    case None(reason) =>
      match reason
      case NoValue => AsyncOpResult.Failed(OpError(NoResultBecauseOperationNotFinished))
      case Cancelled => AsyncOpResult.Cancelled
      case Failed(e) => AsyncOpResult.Failed(e)
  }

  /**
   * Classification is injective except for one pair: a value that was never
   * produced and a failure with NoResultBecauseOperationNotFinished are
   * reported alike.
   */
  lemma ResultOfConflatesOnlyNoValue<V>(v1: AsyncOpValue<V>, v2: AsyncOpValue<V>)
    requires ResultOf(v1) == ResultOf(v2)
    requires v1 != v2
    ensures {v1, v2} == {None(NoValue), None(AsyncOpValueErrorType.Failed(OpError(NoResultBecauseOperationNotFinished)))}
  {
    match v1
    case Some(x) =>
    case None(r1) =>
      match v2
      case Some(_) =>
      case None(r2) =>
        match r1
        case NoValue =>
        case Cancelled =>
        case Failed(e1) =>
    }

  /** The `succeeded` flag of a classified value holds exactly for a present value. */
  lemma SucceededIffPresent<V>(v: AsyncOpValue<V>)
    ensures ResultOf(v).IsSucceeded() <==> v.Some?
    ensures ResultOf(v).IsSucceeded() <==> v.Value().Just?
  {
  }

  /** The four-way status an AsyncOp reports. */
  datatype AsyncOpResultStatus = Pending | Succeeded | Cancelled | Failed

  /** What one precondition evaluator tells the operation to do. */
  datatype AsyncOpPreconditionInstruction = Continue | Cancel | Fail(error: Error)

  /**
   * `AsyncOpPreconditionInstruction(errors:)`: a failure over the given
   * errors, the single error itself when there is exactly one, otherwise
   * all of them (in order) wrapped in a Multiple.
   */
  function InstructionFromErrors(errors: seq<Error>): (r: AsyncOpPreconditionInstruction)
    ensures r.Fail?
    ensures |errors| == 1 ==> r.error == errors[0]
    ensures |errors| != 1 ==> r.error == OpError(Multiple(errors))
  {
    if |errors| == 1 then Fail(errors[0]) else Fail(OpError(Multiple(errors)))
  }

  /** How a consumer reads back the list of failures a failure error carries. */
  function ReportedErrors(e: Error): seq<Error>
  {
    match e
    case OpError(Multiple(es)) => es
    case _ => [e]
  }

  /**
   * Building an instruction from errors loses neither an error nor their
   * order: reading the failure back gives exactly the errors it was built
   * from, unless the only error is itself an aggregate.
   */
  lemma InstructionFromErrorsKeepsErrors(errors: seq<Error>)
    requires |errors| == 1 ==> !(errors[0].OpError? && errors[0].opError.Multiple?)
    ensures ReportedErrors(InstructionFromErrors(errors).error) == errors
  {
  }
}
