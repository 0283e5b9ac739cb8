/**
 * Complete runs of a single AsyncOp, driven the way an operation queue drives
 * it: configure while Initial, start once, possibly finish later. Each run
 * builds its own operation and states what a caller observes afterwards.
 */
module AsyncOpScenarios {
  import opened AsyncOpTypes
  import opened AsyncOpModel

  /** A completion handler registered before start sees the output the body finished with. */
  method WhenFinishedBeforeStart(x: int) returns (seen: seq<AsyncOpResult<int>>, status: AsyncOpResultStatus)
    ensures seen == [AsyncOpResult.Succeeded(x)]
    ensures status == AsyncOpResultStatus.Succeeded
  {
    var op := new AsyncOp<int>();
    op.OnStart(FinishWith(Some(x)));
    op.WhenFinished();
    op.Start();
    seen := op.completionResults;
    status := op.ResultStatus();
  }

  /** A completion handler registered after the operation finished fires at once, with the same output. */
  method WhenFinishedAfterFinish(x: int) returns (seen: seq<AsyncOpResult<int>>)
    ensures seen == [AsyncOpResult.Succeeded(x)]
  {
    var op := new AsyncOp<int>();
    op.OnStart(FinishWith(Some(x)));
    op.Start();
    op.WhenFinished();
    seen := op.completionResults;
  }

  /**
   * With a completion handler stored, finishing clears the cancellation
   * handler; without one the cancellation handler stays stored.
   */
  method FinishClearsHandlers(x: int, withCompletion: bool) returns (cancellationHandlerStored: bool)
    ensures cancellationHandlerStored == !withCompletion
  {
    var op := new AsyncOp<int>();
    op.OnStart(FinishWith(Some(x)));
    op.OnCancel();
    if withCompletion {
      op.WhenFinished();
    }
    op.Start();
    cancellationHandlerStored := op.cancellationHandler;
  }

  /**
   * An operation cancelled while queued never runs its body; its cancellation
   * handler runs once and it finishes with a Cancelled output.
   */
  method CancelledBeforeStart(x: bool)
    returns (bodyRuns: nat, cancellationHandlerRuns: nat, output: AsyncOpValue<bool>,
             status: AsyncOpResultStatus, seen: seq<AsyncOpResult<bool>>)
    ensures bodyRuns == 0 && cancellationHandlerRuns == 1
    ensures output == None(AsyncOpValueErrorType.Cancelled)
    ensures status == AsyncOpResultStatus.Cancelled
    ensures seen == [AsyncOpResult.Cancelled]
  {
    var op := new AsyncOp<bool>();
    op.OnStart(FinishWith(Some(x)));
    op.OnCancel();
    op.WhenFinished();
    op.Cancel();
    op.Start();
    bodyRuns, cancellationHandlerRuns, output := op.bodyRuns, op.cancellationHandlerRuns, op.output;
    status, seen := op.ResultStatus(), op.completionResults;
  }

  /**
   * A precondition that fails with PreconditionFailure skips the body and
   * cancels the operation; its output is a failure with that error, and
   * because the operation is cancelled its status is Cancelled.
   */
  method PreconditionFailureCancels(x: int)
    returns (cancelled: bool, bodyRuns: nat, output: AsyncOpValue<int>, status: AsyncOpResultStatus)
    ensures cancelled && bodyRuns == 0
    ensures output == None(AsyncOpValueErrorType.Failed(OpError(PreconditionFailure)))
    ensures output.NoneError().Just? && output.NoneError().value.FailureError() == Just(OpError(PreconditionFailure))
    ensures status == AsyncOpResultStatus.Cancelled
  {
    var op := new AsyncOp<int>();
    op.OnStart(FinishWith(Some(x)));
    op.AddPreconditionEvaluator(Returns(Fail(OpError(PreconditionFailure))));
    ErrorsOfSnoc([], Returned(Fail(OpError(PreconditionFailure))));
    AppendOutcome([], Returned(Fail(OpError(PreconditionFailure))));
    assert [] + [Returned(Fail(OpError(PreconditionFailure)))] == Outcomes(op.preconditionEvaluators, op.input);
    op.Start();
    cancelled, bodyRuns, output, status := op.cancelled, op.bodyRuns, op.output, op.ResultStatus();
  }

  /** A precondition that cancels gives a cancelled operation with a Cancelled output. */
  method PreconditionCancelCancels(x: int)
    returns (cancelled: bool, bodyRuns: nat, output: AsyncOpValue<int>, status: AsyncOpResultStatus)
    ensures cancelled && bodyRuns == 0
    ensures output == None(AsyncOpValueErrorType.Cancelled)
    ensures status == AsyncOpResultStatus.Cancelled
  {
    var op := new AsyncOp<int>();
    op.OnStart(FinishWith(Some(x)));
    op.AddPreconditionEvaluator(Returns(AsyncOpPreconditionInstruction.Cancel));
    ErrorsOfSnoc([], Returned(AsyncOpPreconditionInstruction.Cancel));
    AppendOutcome([], Returned(AsyncOpPreconditionInstruction.Cancel));
    assert [] + [Returned(AsyncOpPreconditionInstruction.Cancel)] == Outcomes(op.preconditionEvaluators, op.input);
    op.Start();
    cancelled, bodyRuns, output, status := op.cancelled, op.bodyRuns, op.output, op.ResultStatus();
  }

  /** A body that throws finishes the operation with a failure carrying the thrown error, status Failed. */
  method ThrowingBodyFails(e: Error) returns (output: AsyncOpValue<bool>, status: AsyncOpResultStatus)
    ensures output == None(AsyncOpValueErrorType.Failed(e))
    ensures status == AsyncOpResultStatus.Failed
  {
    var op := new AsyncOp<bool>();
    op.OnStart(Throw(e));
    op.OnCancel();
    op.WhenFinished();
    op.Start();
    output, status := op.output, op.ResultStatus();
  }

  /** An operation without a body fails as unimplemented. */
  method MissingBodyFails() returns (output: AsyncOpValue<int>, status: AsyncOpResultStatus)
    ensures output == None(AsyncOpValueErrorType.Failed(OpError(UnimplementedOperation)))
    ensures status == AsyncOpResultStatus.Failed
  {
    var op := new AsyncOp<int>();
    op.Start();
    output, status := op.output, op.ResultStatus();
  }

  /** While the body has not yet finished, the status is Pending and no result has been delivered. */
  method UnfinishedIsPending() returns (status: AsyncOpResultStatus, result: AsyncOpResult<int>,
                                        seen: seq<AsyncOpResult<int>>)
    ensures status == AsyncOpResultStatus.Pending
    ensures result == AsyncOpResult.Failed(OpError(NoResultBecauseOperationNotFinished))
    ensures seen == []
  {
    var op := new AsyncOp<int>();
    op.OnStart(ReturnWithoutFinishing);
    op.WhenFinished();
    op.Start();
    status, result, seen := op.ResultStatus(), op.Result(), op.completionResults;
  }

  /** Finishing twice keeps the first output, and the completion handler fires once. */
  method FinishTwiceKeepsFirst(x: int, y: int) returns (output: AsyncOpValue<int>, seen: seq<AsyncOpResult<int>>)
    ensures output == Some(x)
    ensures seen == [AsyncOpResult.Succeeded(x)]
  {
    var op := new AsyncOp<int>();
    op.OnStart(ReturnWithoutFinishing);
    op.WhenFinished();
    op.Start();
    op.FinishWithValue(x);
    op.FinishWithValue(y);
    output, seen := op.output, op.completionResults;
  }

  /** An input set before start reaches the body. */
  method InputSetBeforeStart(x: int) returns (output: AsyncOpValue<int>)
    ensures output == Some(x)
  {
    var op := new AsyncOp<int>();
    op.OnStart(FinishWithInput);
    op.SetInputValue(x, false);
    op.Start();
    output := op.output;
  }

  /** An input set after start is ignored: the operation keeps the input it started with. */
  method InputSetAfterStart(x: int) returns (input: AsyncOpValue<int>)
    ensures input == None(NoValue)
  {
    var op := new AsyncOp<int>();
    op.OnStart(FinishWithInput);
    op.Start();
    op.SetInputValue(x, false);
    input := op.input;
  }

  /** A paused operation is not ready; setting its input with resume makes it ready again. */
  method PausedUntilInputResumes(x: int) returns (readyWhilePaused: bool, readyAfterResume: bool, input: AsyncOpValue<int>)
    ensures !readyWhilePaused && readyAfterResume
    ensures input == Some(x)
  {
    var op := new AsyncOp<int>();
    op.Pause();
    readyWhilePaused := op.Ready(true);
    op.SetInputValue(x, true);
    readyAfterResume := op.Ready(true);
    input := op.input;
  }
}
