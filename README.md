# AsyncOpKit, modelled in Dafny

AsyncOpKit is a Swift library of asynchronous `NSOperation` subclasses.

- **AsyncOp** (`AsyncOp.swift`, `AsyncOpTypes.swift`) is the main type. It has a typed input and output. On start it pulls its input from a provider, then runs its precondition evaluators in order and merges what they say into one instruction: continue, cancel, or fail with the errors gathered. It then runs its body, or cancels, or fails. It finishes at most once, and a completion handler registered with `whenFinished` fires once with the result.
- **AsyncOpGroup** (`AsyncOpGroup.swift`) chains AsyncOps into a linear pipeline with `beginWith`, `then` and `finally`.
  - Each stage takes its input from the previous stage.
  - Each stage is gated by an injected evaluator: it continues on a present input, cancels on a missing or cancelled one, and fails with the upstream error.
  - `finally` adds a stage that hands the last result to the caller.
  - `cancelGroup` cancels every stage, and `addAsyncOpGroup` submits the stages to a queue.
- **AsyncOperation** (`AsyncOpKit/AsyncOperation.swift`) is a Ready → Executing → Finished state machine. Its state observer fires the completion handler once, on entering Finished.
- **JDAsyncOperation** (`Pod/Classes/AsyncOpKit.swift`) is an older base class.
  - It keeps two private flags, executing and finished.
  - `start` hands `main` to a dispatch queue.
  - `cancel` finishes an executing operation.
  - `finish` is idempotent and fires the completion handler once, with the caller's results or default results.
  - Its subclass JDAsyncClosureOperation runs a dictionary of closures one after another. Each closure starts when the previous one marks itself finished.

The Dafny files, one module each:

| file | module | models |
|---|---|---|
| `async_op_types.dfy` | `AsyncOpTypes` | values, reasons, results, statuses, errors, instructions |
| `async_op.dfy` | `AsyncOpModel` | the merge rule for evaluators, and the class `AsyncOp` |
| `async_op_group.dfy` | `AsyncOpGroupModel` | connector, group, queue submission |
| `async_op_scenarios.dfy` | `AsyncOpScenarios` | complete runs of one AsyncOp, following the library's tests |
| `async_op_group_scenarios.dfy` | `AsyncOpGroupScenarios` | complete two- and three-stage pipelines |
| `async_operation.dfy` | `AsyncOperationModel` | the class `AsyncOperation` |
| `jd_async_operation.dfy` | `JDAsyncOperationModel` | `JDAsyncOperation`, its default results, `JDAsyncClosureOperation` |

Where the state changes in place, the model uses classes with `modifies` frames. The closures callers hand in are modelled as data.
- An evaluator either returns an instruction, throws, or is the injected one that reads the input.
- A body either finishes with a value, throws, returns and leaves the operation executing, or finishes with its input.
- A handler is a slot. Firing it is recorded:
  - for AsyncOp, by appending the result it observes;
  - for AsyncOperation, by a counter;
  - for JDAsyncOperation, by appending the results object it is given.

The rule for merging evaluators is stated as a function, `MergedInstruction`. The source's loop (`EvaluatePreconditions`) is proved to compute it.

### Behaviour of the code worth knowing
- `AsyncOp.start` has no guard. A second call would put a finished operation back into Executing. The model therefore requires a single start from Initial, which is the guarantee an operation queue gives.
- When an evaluator says Fail, `main` also cancels the operation. `resultStatus` checks `cancelled` before it looks at the output, so an operation stopped by a failing precondition reports Cancelled, not Failed. Its output is still the failure.
- `finish` clears the body, the cancellation handler, the input provider and the evaluators only when a completion handler is stored.
- The `completionHandler == nil` check in `whenFinished` always passes, because it sits inside the once-block. The once-token in `finish` is used exactly when the state becomes Finished, so the `executing` check already decides everything. The model drops both checks and says why in the doc comments.
- `AsyncOperation.start` checks its state with `assert`. The model turns those checks into preconditions.

## Model

| member | source | states |
|---|---|---|
| AsyncOpTypes.AsyncOpValueErrorType.IsFailed | AsyncOpTypes.swift:140-147 | a failed reason is never also a cancelled one |
| AsyncOpTypes.AsyncOpValueErrorType.FailureError | AsyncOpTypes.swift:149-156 | an error is present exactly for a failure, and it is the wrapped error |
| AsyncOpTypes.AsyncOpValueErrorType.IsCancelled | AsyncOpTypes.swift:131-138 | a cancelled reason is neither a failure nor NoValue |
| AsyncOpTypes.AsyncOpValue.GetValue | AsyncOpTypes.swift:100-107 | returns exactly for a present value, giving that value; every absent value throws NoValue, whatever its reason |
| AsyncOpTypes.AsyncOpValue.Value | AsyncOpTypes.swift:109-116 | non-nil exactly when `getValue` returns, and equal to what it returns |
| AsyncOpTypes.AsyncOpValue.NoneError | AsyncOpTypes.swift:118-125 | present exactly when `value` is nil, and it is the absent value's reason |
| AsyncOpTypes.AsyncOpValue.ProvideAsyncOpInput | AsyncOpTypes.swift:86-89 | a value used as an input provider provides itself |
| AsyncOpTypes.ResultOf | AsyncOpTypes.swift:15-29 | Succeeded exactly for a present value, with that value; Cancelled exactly for a cancelled value; a missing value becomes NoResultBecauseOperationNotFinished; a failure keeps its error |
| AsyncOpTypes.ResultOfConflatesOnlyNoValue | AsyncOpTypes.swift:15-29 | two different values get the same result only when they are the missing value and a failure with NoResultBecauseOperationNotFinished |
| AsyncOpTypes.AsyncOpResult.IsSucceeded | AsyncOpTypes.swift:31-38 | a succeeded result is neither failed nor cancelled |
| AsyncOpTypes.SucceededIffPresent | AsyncOpTypes.swift:31-38 | `succeeded` of a classified value holds exactly for a present value |
| AsyncOpTypes.InstructionFromErrors | AsyncOpTypes.swift:173-179 | always Fail; one error is kept as itself; any other number is wrapped in Multiple, in order |
| AsyncOpTypes.InstructionFromErrorsKeepsErrors | AsyncOpTypes.swift:173-179 | reading the failure back gives exactly the errors it was built from (unless a single error is itself an aggregate) |
| AsyncOpModel.InputInstruction | AsyncOpGroup.swift:20-33 | the injected evaluator continues exactly on a present input, cancels exactly on a missing or cancelled one, and fails exactly on a failure, with the upstream error |
| AsyncOpModel.MergedInstruction | AsyncOp.swift:56-82 | the declarative merge rule; with no evaluators the operation continues, and it fails exactly when some error accumulated |
| AsyncOpModel.AppendOutcome | AsyncOp.swift:61-77 | one more evaluator outcome sets the "some evaluator cancelled" and "some evaluator failed" flags by its own kind |
| AsyncOpModel.ErrorsOfSnoc | AsyncOp.swift:67-75 | one more outcome adds its own error, if it has one, after the earlier errors |
| AsyncOpModel.ErrorsOfConcat | AsyncOp.swift:61-77 | the errors of two runs of evaluators are those of the first run followed by those of the second |
| AsyncOpModel.ErrorsOfCountsFailures | AsyncOp.swift:61-77 | errors accumulate exactly when some evaluator failed or threw, and there are never more errors than evaluators |
| AsyncOpModel.MergeRule | AsyncOp.swift:56-82 | Fail over exactly the accumulated errors whenever any evaluator failed or threw, whatever Cancel came before; otherwise Cancel exactly when one cancelled; otherwise Continue |
| AsyncOpModel.NoFailureNoErrors | AsyncOp.swift:65-71 | outcomes none of which fails accumulate no error |
| AsyncOpModel.SingleFailureKeepsItsError | Tests/AsyncOpTests/AsyncOpPreconditionEvaluatorTests.swift:161-194 | when exactly one evaluator fails, the operation fails with that evaluator's own error, not an aggregate |
| AsyncOpModel.CancelThenFailFails | Tests/AsyncOpTests/AsyncOpPreconditionEvaluatorTests.swift:196-229 | Continue ×3, Cancel, Fail(PreconditionFailure) fails with PreconditionFailure |
| AsyncOpModel.ThreeFailuresAfterCancel | Tests/AsyncOpTests/AsyncOpPreconditionEvaluatorTests.swift:231-266 | three failures after a Cancel accumulate all three errors, in order |
| AsyncOpModel.CancelThenThreeFailuresAggregate | Tests/AsyncOpTests/AsyncOpPreconditionEvaluatorTests.swift:231-266 | Continue ×3, Cancel, Fail ×3 fails with Multiple of the three errors |
| AsyncOpModel.InjectedEvaluatorAlone | AsyncOpGroup.swift:20-33 | a stage whose only evaluator is the injected one merges to exactly that evaluator's instruction on its input |
| AsyncOpModel.BodyFinish | AsyncOp.swift:84-95 | a body leaves its operation unfinished exactly when it returns without finishing; a present output comes only from a body that finishes with a value or with its input |
| AsyncOpModel.DispatchedFinish | AsyncOp.swift:100-111 | the operation stays unfinished exactly when Continue ran a body that returns without finishing; Cancel and Fail always finish it with an absent value |
| AsyncOpModel.PresentOutputNeedsBody | AsyncOp.swift:84-111 | a present output can only come from a body that ran after the instruction Continue (one that finished with that value or with its input) |
| AsyncOpModel.AsyncOp.constructor | AsyncOp.swift:159-170 | a new operation is Initial and unpaused, with missing input and output and no handlers |
| AsyncOpModel.AsyncOp.IsExecuting | AsyncOp.swift:155 | an executing operation is not finished, and its status is still Pending |
| AsyncOpModel.AsyncOp.IsFinished | AsyncOp.swift:156 | no completion handler has seen a result while the operation is unfinished |
| AsyncOpModel.AsyncOp.Ready | AsyncOp.swift:157 | always ready once out of Initial; while Initial, unready when paused, otherwise as the base class says |
| AsyncOpModel.AsyncOp.ResultStatus | AsyncOp.swift:310-319 | Pending exactly while unfinished; Cancelled exactly when finished and cancelled; otherwise Succeeded exactly for a present output and Failed exactly for an absent one |
| AsyncOpModel.AsyncOp.Result | AsyncOpTypes.swift:43-45 | Succeeded exactly for a present output; Cancelled exactly for a cancelled output |
| AsyncOpModel.AsyncOp.ProvideAsyncOpInput | AsyncOp.swift:289-292 | an operation provides its output, which is still missing while it has not started |
| AsyncOpModel.AsyncOp.PreconditionInstructionByEvaluatingOutput | AsyncOp.swift:267-279 | Continue exactly on a present output, Cancel exactly on a missing or cancelled one, and otherwise Fail with the output's error |
| AsyncOpModel.AsyncOp.AssignInput | AsyncOp.swift:18-26 | the input changes only while Initial |
| AsyncOpModel.AsyncOp.SetInput | AsyncOp.swift:298-304 | only while Initial: sets the input, and resumes when asked |
| AsyncOpModel.AsyncOp.SetInputValue | AsyncOp.swift:294-296 | a plain value is set as a present input, only while Initial |
| AsyncOpModel.AsyncOp.SetInputProvider | AsyncOp.swift:281-287 | only while Initial: the last provider wins, and an operation used as a provider also becomes a dependency |
| AsyncOpModel.AsyncOp.AddPreconditionEvaluator | AsyncOp.swift:262-265 | only while Initial: the evaluator is appended after the existing ones |
| AsyncOpModel.AsyncOp.OnStart | AsyncOp.swift:176-179 | only while Initial: the body becomes the given one |
| AsyncOpModel.AsyncOp.OnCancel | AsyncOp.swift:195-198 | only while Initial: a cancellation handler is stored |
| AsyncOpModel.AsyncOp.WhenFinished | AsyncOp.swift:181-193 | only the first call has an effect: on a finished operation the handler fires at once with its result, otherwise it is stored |
| AsyncOpModel.AsyncOp.Pause | AsyncOp.swift:249-251 | the operation is paused |
| AsyncOpModel.AsyncOp.Resume | AsyncOp.swift:254-256 | the operation is not paused |
| AsyncOpModel.AsyncOp.Cancel | AsyncOp.swift:115-121 | the flag is set; the stored cancellation handler runs and is cleared on the first call only; with the model's handler, which never finishes, the operation is not finished by it |
| AsyncOpModel.AsyncOp.Finish | AsyncOp.swift:225-242 | no effect unless Executing; otherwise the output is stored once and the state becomes Finished; with a completion handler stored, every handler slot is cleared and the handler fires once with the result |
| AsyncOpModel.AsyncOp.ReleaseHandlers | AsyncOp.swift:230-241 | clears the body, cancellation handler, input provider and evaluators, and fires the completion handler with the result |
| AsyncOpModel.AsyncOp.FinishWithValue | AsyncOp.swift:213-215 | finishing with a plain value finishes with it present |
| AsyncOpModel.AsyncOp.FinishWithReason | AsyncOp.swift:217-219 | finishing with a reason finishes with an absent value for that reason |
| AsyncOpModel.AsyncOp.FinishWithError | AsyncOp.swift:221-223 | finishing with an error finishes with a failure carrying it, which a handler sees as Failed with that error |
| AsyncOpModel.AsyncOp.PrepareInput | AsyncOp.swift:49-54 | the input becomes what the registered provider provides, and the provider is dropped |
| AsyncOpModel.AsyncOp.EvaluatePreconditions | AsyncOp.swift:56-82 | the source's loop computes the merge rule over all evaluators' outcomes in order; the evaluators are then discarded |
| AsyncOpModel.AsyncOp.PerformImplementation | AsyncOp.swift:84-95 | the body is detached and runs once; a throwing body fails with its error; without a body the operation fails as unimplemented |
| AsyncOpModel.AsyncOp.Dispatch | AsyncOp.swift:100-111 | Continue runs the body; Cancel drops the body, cancels and finishes Cancelled; Fail cancels, drops the body and finishes with the error (the cancellation handler, as modelled, does not finish the operation itself) |
| AsyncOpModel.AsyncOp.RunMain | AsyncOp.swift:47-113 | input, merge and dispatch together: what runs, whether it is cancelled, and what it finishes with, all as functions of the evaluators, body and provided input |
| AsyncOpModel.AsyncOp.Start | AsyncOp.swift:36-45 | an operation cancelled beforehand finishes Cancelled without running its body, and with a completion handler stored its cancellation handler and input provider are cleared; otherwise the effect of the whole of `main`, including what happens to every handler slot |
| AsyncOpScenarios.WhenFinishedBeforeStart | Tests/AsyncOpTests/AsyncOpWhenFinished.swift:23-42 | a handler registered before start sees the value the body finished with |
| AsyncOpScenarios.WhenFinishedAfterFinish | Tests/AsyncOpTests/AsyncOpWhenFinished.swift:72-99 | a handler registered after finish fires once, with the same value |
| AsyncOpScenarios.FinishClearsHandlers | AsyncOp.swift:225-242 | after a normal run the cancellation handler is cleared exactly when a completion handler was stored |
| AsyncOpScenarios.CancelledBeforeStart | Tests/AsyncOpTests/AsyncOpTests.swift:135-172 | cancelled while queued: the body never runs, the cancellation handler runs once, the output is Cancelled, and the handler sees Cancelled |
| AsyncOpScenarios.PreconditionFailureCancels | Tests/AsyncOpTests/AsyncOpPreconditionEvaluatorTests.swift:75-95 | a failing precondition cancels the operation without running the body; the output is a failure with its error |
| AsyncOpScenarios.PreconditionCancelCancels | Tests/AsyncOpTests/AsyncOpPreconditionEvaluatorTests.swift:56-73 | a cancelling precondition gives a cancelled operation with a Cancelled output |
| AsyncOpScenarios.ThrowingBodyFails | Tests/AsyncOpTests/AsyncOpThrowTests.swift:17-44 | a body that throws gives a failed output carrying the thrown error |
| AsyncOpScenarios.MissingBodyFails | AsyncOp.swift:92-94 | without a body the operation fails as unimplemented |
| AsyncOpScenarios.UnfinishedIsPending | Tests/AsyncOpTests/AsyncOpResultStatusTests.swift:36-50 | before the body finishes, the status is Pending, the result is NoResultBecauseOperationNotFinished, and nothing has been delivered |
| AsyncOpScenarios.FinishTwiceKeepsFirst | AsyncOp.swift:225-242 | a second finish changes neither the output nor what the handler saw |
| AsyncOpScenarios.InputSetBeforeStart | Tests/AsyncOpTests/AsyncOpManualInputTests.swift:43-54 | an input set before start appears in the body |
| AsyncOpScenarios.InputSetAfterStart | Tests/AsyncOpTests/AsyncOpManualInputTests.swift:56-74 | an input set after start is ignored |
| AsyncOpScenarios.PausedUntilInputResumes | Tests/AsyncOpTests/AsyncOpManualInputTests.swift:76-95 | paused, the operation is not ready; setting the input with resume makes it ready with that input |
| AsyncOpGroupModel.AsyncOpConnector.Then | AsyncOpGroup.swift:16-35 | the next stage takes this stage as provider and dependency, gets the injected evaluator last, and is appended to the group |
| AsyncOpGroupModel.AsyncOpConnector.Finally | AsyncOpGroup.swift:37-44 | appends a fresh pass-through stage fed by this stage, with its completion handler registered |
| AsyncOpGroupModel.OperationToProvideResults | AsyncOpGroup.swift:46-52 | a fresh operation whose body finishes with its input |
| AsyncOpGroupModel.AsyncOpGroup.constructor | AsyncOpGroup.swift:58-68 | a new group holds no operations |
| AsyncOpGroupModel.AsyncOpGroup.BeginWith | AsyncOpGroup.swift:62-66 | the operation is appended, and the connector points at it |
| AsyncOpGroupModel.AsyncOpGroup.Then | AsyncOpGroup.swift:75-78 | the operation is appended, and the connector points at it |
| AsyncOpGroupModel.AsyncOpGroup.Finally | AsyncOpGroup.swift:80-83 | the operation is appended, and the group is returned |
| AsyncOpGroupModel.AsyncOpGroup.CancelGroup | AsyncOpGroup.swift:71-73 | every operation in the group is cancelled, each one's handler running on its first cancellation only |
| AsyncOpGroupModel.OperationQueue.AddAsyncOpGroup | AsyncOpGroup.swift:88-91 | submits the group's operations in order; a nil group submits nothing |
| AsyncOpGroupScenarios.BuildPipeline | Tests/AsyncOpTests/AsyncOpGroupTests.swift:39-68 | beginWith, then and finally give three stages, wired stage by stage, that are submitted in order |
| AsyncOpGroupScenarios.PipelineDeliversResult | Tests/AsyncOpTests/AsyncOpGroupTests.swift:70-78 | each stage's output becomes the next stage's input, and the final handler receives the last stage's value |
| AsyncOpGroupScenarios.PipelineStopsAtFailure | AsyncOpGroup.swift:20-34 | a stage that throws stops the pipeline: the next body never runs, that stage is cancelled, and the final handler receives the thrown error |
| AsyncOpGroupScenarios.BuildThreeStagePipeline | AsyncOpGroup.swift:16-44 | beginWith, then, then and finally give four stages, each fed by and gated on the one before, submitted in order |
| AsyncOpGroupScenarios.ThreeStagePipelineStopsAtFailure | AsyncOpGroup.swift:20-34 | a failure in the first of three stages propagates: neither later body runs, both later stages are cancelled, and the final handler receives the first stage's error |
| AsyncOpGroupScenarios.CancelledPipeline | Tests/AsyncOpTests/AsyncOpGroupTests.swift:80-84 | a group cancelled before it runs runs no body, and the final handler receives Cancelled |
| AsyncOperationModel.AsyncOperation.constructor | AsyncOpKit/AsyncOperation.swift:12 | a new operation is Ready, with no handler |
| AsyncOperationModel.AsyncOperation.IsExecuting | AsyncOpKit/AsyncOperation.swift:71-73 | an executing operation is not finished, and its handler has not fired |
| AsyncOperationModel.AsyncOperation.IsFinished | AsyncOpKit/AsyncOperation.swift:75-77 | the completion handler has not fired while the operation is unfinished |
| AsyncOperationModel.AsyncOperation.SetCompletionHandler | AsyncOpKit/AsyncOperation.swift:36 | a completion handler is stored |
| AsyncOperationModel.AsyncOperation.Cancel | AsyncOpKit/AsyncOperation.swift:63 | the cancelled flag that `start` reads is set; nothing else changes |
| AsyncOperationModel.AsyncOperation.SetState | AsyncOpKit/AsyncOperation.swift:12-31 | the handler is cleared and fires once exactly when the state actually changes into Finished with a handler stored |
| AsyncOperationModel.AsyncOperation.Finish | AsyncOpKit/AsyncOperation.swift:79-83 | enters Finished; the handler fires only if the operation was not finished already |
| AsyncOperationModel.AsyncOperation.RunMain | AsyncOpKit/AsyncOperation.swift:41-45 | the default `main` finishes at once; a subclass's `main` leaves the operation executing |
| AsyncOperationModel.AsyncOperation.Start | AsyncOpKit/AsyncOperation.swift:58-69 | a cancelled operation finishes without running `main`; otherwise it becomes Executing and `main` runs once |
| AsyncOperationModel.CancelledBeforeStart | AsyncOpKit/AsyncOperation.swift:58-69 | cancelled before start: `main` never runs, the operation finishes, and the handler fires once |
| AsyncOperationModel.FinishLaterThenAgain | AsyncOpKit/AsyncOperation.swift:79-83 | a subclass's operation executes until it finishes; the handler fires once, however often finish is called |
| AsyncOperationModel.HandlerStoredAfterFinish | AsyncOpKit/AsyncOperation.swift:20-31 | a handler stored after the operation finished is never fired |
| JDAsyncOperationModel.DefaultAsyncOperationResults.constructor | Pod/Classes/AsyncOpKit.swift:166-178 | default results belong to the operation they were made for |
| JDAsyncOperationModel.DefaultAsyncOperationResults.Error | Pod/Classes/AsyncOpKit.swift:168-172 | the default results never carry an error |
| JDAsyncOperationModel.DefaultAsyncOperationResults.Cancelled | Pod/Classes/AsyncOpKit.swift:174-176 | the default results are cancelled exactly when their operation is, at the time they are asked |
| JDAsyncOperationModel.JDAsyncOperation.constructor | Pod/Classes/AsyncOpKit.swift:161-164 | a new operation is neither executing, finished nor cancelled |
| JDAsyncOperationModel.JDAsyncOperation.SetCompletionHandler | Pod/Classes/AsyncOpKit.swift:61 | a completion handler is stored |
| JDAsyncOperationModel.JDAsyncOperation.Finish | Pod/Classes/AsyncOpKit.swift:132-159 | a no-op once finished; otherwise a stored handler is cleared and given the caller's results, or default results for this operation, once; the operation ends finished and not executing |
| JDAsyncOperationModel.JDAsyncOperation.HandleCancellation | Pod/Classes/AsyncOpKit.swift:63-69 | the default cancellation handling finishes with the default results |
| JDAsyncOperationModel.JDAsyncOperation.Cancel | Pod/Classes/AsyncOpKit.swift:75-82 | a no-op once cancelled; otherwise sets the flag, and an executing operation is finished; an idle one is not |
| JDAsyncOperationModel.JDAsyncOperation.Start | Pod/Classes/AsyncOpKit.swift:88-110 | a cancelled operation finishes at once; a finished one is untouched; otherwise one block is handed to the queue and the operation is executing |
| JDAsyncOperationModel.JDAsyncOperation.RunDispatchedBlock | Pod/Classes/AsyncOpKit.swift:100-106 | `main` runs exactly when the operation is neither finished nor cancelled by then; otherwise it is finished |
| JDAsyncOperationModel.JDAsyncOperation.RunMain | Pod/Classes/AsyncOpKit.swift:112-118 | the default `main` finishes with the default results |
| JDAsyncOperationModel.JDAsyncOperation.RunStartBlock | Pod/Classes/AsyncOpKit.swift:100-106 | with the default `main`, the dispatched block always leaves the operation finished |
| JDAsyncOperationModel.JDAsyncOperation.GetResults | Pod/Classes/AsyncOpKit.swift:128-130 | default results for this operation, with no error |
| JDAsyncOperationModel.JDAsyncClosureOperation.constructor | Pod/Classes/AsyncOpKit.swift:19-21 | a new closure operation holds no closures |
| JDAsyncOperationModel.JDAsyncClosureOperation.AddAsyncClosure | Pod/Classes/AsyncOpKit.swift:23-26 | the closure is stored under the number of closures stored, replacing any closure there |
| JDAsyncOperationModel.JDAsyncClosureOperation.PerformClosureWithIdentifier | Pod/Classes/AsyncOpKit.swift:36-45 | a stored closure is removed, then invoked; with none under the identifier the operation finishes |
| JDAsyncOperationModel.JDAsyncClosureOperation.MarkClosureWithIdentifierFinished | Pod/Classes/AsyncOpKit.swift:28-30 | performs the closure with the next identifier |
| JDAsyncOperationModel.JDAsyncClosureOperation.RunMain | Pod/Classes/AsyncOpKit.swift:32-34 | performs closure 0 |
| JDAsyncOperationModel.JDAsyncClosureOperation.RunStartBlock | Pod/Classes/AsyncOpKit.swift:100-106 | the dispatched block with this subclass's `main`: invokes closure 0 when the operation may run and has one, otherwise finishes |
| JDAsyncOperationModel.PendingFromSize | Pod/Classes/AsyncOpKit.swift:23-26 | the closures stored from an identifier on number as many as the identifiers left, so the next key is the count |
| JDAsyncOperationModel.ClosureOperationWith | Pod/Classes/AsyncOpKit.swift:23-26 | closures added one by one to an idle operation are stored under 0, 1, … in order |
| JDAsyncOperationModel.DrainClosures | Pod/Classes/AsyncOpKit.swift:28-45 | each invoked closure marking itself finished starts the next, and the operation finishes after the last one |
| JDAsyncOperationModel.RunClosuresInOrder | Pod/Classes/AsyncOpKit.swift:23-45 | closures run in the order they were added, each exactly once, and the operation then finishes with none left |
| JDAsyncOperationModel.AddAfterPerformReplacesPending | Pod/Classes/AsyncOpKit.swift:23-26 | a closure added after another one ran takes a key still in use and replaces the closure waiting there |
| JDAsyncOperationModel.StartThenRun | Example/Tests/Tests.swift:26-89 | started normally, the operation is executing and not finished; then it ends finished and not executing, and the handler got results about this operation once |
| JDAsyncOperationModel.CancelBeforeStart | Example/Tests/Tests.swift:44-64 | cancelled before start: the operation finishes without a queued block, and its results say cancelled, with no error |
| JDAsyncOperationModel.StartAfterFinished | Example/Tests/Tests.swift:91-106 | start on a finished operation leaves it finished and not executing |
| JDAsyncOperationModel.CancelWhileExecuting | Example/Tests/Tests.swift:108-124 | cancelled while executing, the operation is finished at once, and the handler fires once |
| JDAsyncOperationModel.DefaultResultsFollowCancellation | Pod/Classes/AsyncOpKit.swift:174-176 | default results read the operation's cancelled flag when asked, so they report a later cancellation |

## Left out

- AsyncOp has one type parameter, used for both input and output. Swift's separate input and output types are only static typing. Stages of different types in one group would need a type the model does not have.
- KVO notifications, dispatch queues, locks, `autoreleasepool` and thread races are left out. Every method runs to completion before the next starts. The operation queue's scheduling is not modelled: the scenarios start operations in dependency order.
- The closures callers pass in are modelled as the data kinds listed above, not as arbitrary code.
  - A body that reads its input with `getValue` and throws on an absent input is modelled by `FinishWithInput`, or by a body that throws.
- The completion handler queues are not modelled. Delivering a result is recorded at the moment it is dispatched.
- Which `NSOperation` of the base class counts as ready, and its dependency bookkeeping, are not modelled. `dependencies` records only what `setInputProvider` adds.
- The weak-reference `nil` branch of the injected evaluator, where the stage was deallocated, is left out. Memory management is not modelled.
- The `waitUntilFinished` parameter of `addAsyncOpGroup` is left out because it concerns blocking.
- `finishWithSuccess` for `AsyncVoidConvertible` outputs is left out. It is `finish(with: .Some(void))`, which `FinishWithValue` covers.
- The `value` and `error` storage properties of AsyncOperation, and `result` and `error` of JDAsyncOperation, are left out. Nothing in the core reads them.
- JDAsyncClosureOperation's `currentClosureIdentifier` and `numberOfClosures` are left out because nothing uses them.
- The NSQualityOfService helpers are left out. These are `Pod/Classes/AsyncOpKit.swift:182-202` and the queue creation in AsyncOperation.
- The AsyncClosuresOperation variants, and the copies of AsyncOperation under `Legacy/` and `Pod/Classes/AsyncOperation.swift`, are not part of this model.
- A subclass's `handleCancellation` override is left out. Only the default one, which finishes, is modelled.
- AsyncOperationModel.AsyncOperation.Start: Swift's `assert` on the state is a debug-only check. The model makes it a precondition, so a release build's behaviour on a second start is not modelled.
- AsyncOpModel.AsyncOp.Cancel, AsyncOpModel.AsyncOp.Dispatch, AsyncOpModel.AsyncOp.Start: the cancellation handler is recorded by a counter and never finishes the operation. A handler that itself finishes, as the library's tests install, would pre-empt `main`'s own finish: a failing precondition would then end with a Cancelled output instead of the failure, and `cancelGroup` would finish an executing stage. The model does not capture that.
- The `debugPrint` warnings, that `AsyncOp.swift` prints when an input, provider or evaluator is set after start, and the `println` in JDAsyncOperation's default `main` (`Pod/Classes/AsyncOpKit.swift:112-118`), are left out. They are logging only; the guards they accompany and the finish that follows are modelled.
- AsyncOpModel.AsyncOp.Start: requires a single start from Initial. The source's behaviour on a repeated start, which resets the state to Executing, is not modelled.
- AsyncOpModel.AsyncOp.ProvideAsyncOpInput: states that the result is the output, not the type-level link between an operation and its provider's output type.
