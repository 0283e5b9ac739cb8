/**
 * AsyncOp: an operation with a typed input and output that gathers its input,
 * evaluates its precondition evaluators, then runs its body or short-circuits,
 * and finishes at most once.
 *
 * The closures the caller hands to an AsyncOp are modelled as data:
 * a precondition evaluator returns an instruction, throws an error, or is the
 * evaluator a pipeline injects, which inspects the operation's own input; a
 * body finishes with a value, throws, returns leaving the operation executing,
 * or finishes with its input (the pipeline's pass-through body). A
 * cancellation or completion handler is a slot; firing it is recorded by a
 * counter, and a completion handler records the result it observes.
 */
module AsyncOpModel {
  import opened AsyncOpTypes

  datatype AsyncOpState = Initial | Executing | Finished

  /** A precondition evaluator (`() throws -> AsyncOpPreconditionInstruction`). */
  datatype Evaluator =
    | Returns(instruction: AsyncOpPreconditionInstruction)
    | Throws(error: Error)
    | InspectInput   // the evaluator AsyncOpConnector.then injects: it reads the operation's input

  /** What calling one evaluator gave. */
  datatype EvaluatorOutcome = Returned(instruction: AsyncOpPreconditionInstruction) | Threw(error: Error)

  /** A body (`onStart` handler), by what it does when invoked. */
  datatype Body<V> =
    | FinishWith(value: AsyncOpValue<V>)   // calls finish(with:) before returning
    | Throw(error: Error)                   // throws
    | ReturnWithoutFinishing               // hands the work off; someone calls finish later
    | FinishWithInput                      // finish(with: asyncOp.input), the pass-through body

  /** Where an operation pulls its input from when it starts (`setInputProvider`). */
  datatype InputSource<V(==)> = NoSource | FromValue(value: AsyncOpValue<V>) | FromOp(op: AsyncOp<V>)

  /**
   * The injected evaluator's decision (AsyncOpGroup.swift, `then`): continue on a
   * present input, cancel when the upstream value is missing or cancelled, and
   * fail with the upstream error when it failed.
   */
  function InputInstruction<V>(input: AsyncOpValue<V>): (r: AsyncOpPreconditionInstruction)
    ensures r == Continue <==> input.Some?
    ensures r == Cancel <==> input == None(NoValue) || input == None(AsyncOpValueErrorType.Cancelled)
    ensures r.Fail? <==> input.None? && input.reason.Failed?
    ensures r.Fail? ==> input == None(AsyncOpValueErrorType.Failed(r.error))
  {
    match input
    case Some(_) => Continue
    case None(reason) =>
      match reason
      case NoValue => Cancel
      case Cancelled => Cancel
      case Failed(e) => Fail(e)
  }

  /** Calling one evaluator while the operation's input is `input`. */
  function Evaluate<V>(ev: Evaluator, input: AsyncOpValue<V>): EvaluatorOutcome
  {
    match ev
    case Returns(i) => Returned(i)
    case Throws(e) => Threw(e)
    case InspectInput => Returned(InputInstruction(input))
  }

  /** The outcomes of calling every evaluator, in registration order. */
  function Outcomes<V>(evs: seq<Evaluator>, input: AsyncOpValue<V>): seq<EvaluatorOutcome>
  {
    seq(|evs|, k requires 0 <= k < |evs| => Evaluate(evs[k], input))
  }

  /** An outcome that makes the operation fail: a Fail instruction or a thrown error. */
  predicate IsFailure(o: EvaluatorOutcome)
  {
    o.Threw? || o.instruction.Fail?
  }

  /** The error a failing outcome contributes (none for the others). */
  function OutcomeErrors(o: EvaluatorOutcome): seq<Error>
  {
    match o
    case Threw(e) => [e]
    case Returned(Fail(e)) => [e]
    case Returned(_) => []
  }

  /** The errors of all failing outcomes, in evaluator order. */
  function ErrorsOf(outs: seq<EvaluatorOutcome>): seq<Error>
    decreases |outs|
  {
    if outs == [] then [] else ErrorsOf(outs[..|outs| - 1]) + OutcomeErrors(outs[|outs| - 1])
  }

  predicate AnyFailure(outs: seq<EvaluatorOutcome>)
  {
    exists k :: 0 <= k < |outs| && IsFailure(outs[k])
  }

  predicate AnyCancel(outs: seq<EvaluatorOutcome>)
  {
    exists k :: 0 <= k < |outs| && outs[k] == Returned(Cancel)
  }

  /**
   * The merge rule, stated declaratively: a failure over all accumulated
   * errors if there are any, otherwise Cancel if some evaluator cancelled,
   * otherwise Continue. EvaluatePreconditions computes it with the source's loop.
   */
  function MergedInstruction(outs: seq<EvaluatorOutcome>): (r: AsyncOpPreconditionInstruction)
    ensures outs == [] ==> r == Continue
    ensures r.Fail? <==> ErrorsOf(outs) != []
  {
    if ErrorsOf(outs) != [] then InstructionFromErrors(ErrorsOf(outs))
    else if AnyCancel(outs) then Cancel
    else Continue
  }

  /** One more outcome adds its own error, if any, at the end. */
  lemma ErrorsOfSnoc(outs: seq<EvaluatorOutcome>, o: EvaluatorOutcome)
    ensures ErrorsOf(outs + [o]) == ErrorsOf(outs) + OutcomeErrors(o)
  {
    assert (outs + [o])[..|outs|] == outs;
  }

  /** One more outcome sets the cancel and failure flags by its own kind. */
  lemma AppendOutcome(outs: seq<EvaluatorOutcome>, o: EvaluatorOutcome)
    ensures AnyCancel(outs + [o]) <==> AnyCancel(outs) || o == Returned(Cancel)
    ensures AnyFailure(outs + [o]) <==> AnyFailure(outs) || IsFailure(o)
  {
    if AnyCancel(outs) {
      var k :| 0 <= k < |outs| && outs[k] == Returned(Cancel);
      assert (outs + [o])[k] == outs[k];
    }
    if AnyFailure(outs) {
      var k :| 0 <= k < |outs| && IsFailure(outs[k]);
      assert (outs + [o])[k] == outs[k];
    }
    assert (outs + [o])[|outs|] == o;
  }

  /** The accumulated errors of two runs of evaluators are the errors of each, first run first. */
  lemma {:induction false} ErrorsOfConcat(a: seq<EvaluatorOutcome>, b: seq<EvaluatorOutcome>)
    ensures ErrorsOf(a + b) == ErrorsOf(a) + ErrorsOf(b)
    decreases |b|
  {
    if b == [] {
      assert a + b == a;
    } else {
      var b', last := b[..|b| - 1], b[|b| - 1];
      assert a + b == (a + b') + [last];
      ErrorsOfSnoc(a + b', last);
      ErrorsOfConcat(a, b');
    }
  }

  /** Errors accumulate exactly when some evaluator failed or threw; one error per failure. */
  lemma {:induction false} ErrorsOfCountsFailures(outs: seq<EvaluatorOutcome>)
    ensures ErrorsOf(outs) != [] <==> AnyFailure(outs)
    ensures |ErrorsOf(outs)| <= |outs|
    decreases |outs|
  {
    if outs != [] {
      var init := outs[..|outs| - 1];
      var last := outs[|outs| - 1];
      assert outs == init + [last];
      ErrorsOfSnoc(init, last);
      AppendOutcome(init, last);
      ErrorsOfCountsFailures(init);
    }
  }

  /**
   * The merge rule: Fail over exactly the accumulated errors whenever any
   * evaluator failed or threw, wherever a Cancel appears; otherwise Cancel
   * when some evaluator cancelled; otherwise Continue.
   */
  lemma MergeRule(outs: seq<EvaluatorOutcome>)
    ensures MergedInstruction(outs).Fail? <==> AnyFailure(outs)
    ensures AnyFailure(outs) ==> MergedInstruction(outs) == InstructionFromErrors(ErrorsOf(outs))
    ensures MergedInstruction(outs) == Cancel <==> !AnyFailure(outs) && AnyCancel(outs)
    ensures MergedInstruction(outs) == Continue <==> !AnyFailure(outs) && !AnyCancel(outs)
  {
    ErrorsOfCountsFailures(outs);
  }

  /** Outcomes none of which fails accumulate no error. */
  lemma NoFailureNoErrors(outs: seq<EvaluatorOutcome>)
    requires forall j :: 0 <= j < |outs| ==> !IsFailure(outs[j])
    ensures ErrorsOf(outs) == []
  {
    ErrorsOfCountsFailures(outs);
  }

  /** With a single failing evaluator, the operation fails with that evaluator's own error. */
  lemma SingleFailureKeepsItsError(outs: seq<EvaluatorOutcome>, k: nat)
    requires k < |outs| && IsFailure(outs[k])
    requires forall j :: 0 <= j < |outs| && j != k ==> !IsFailure(outs[j])
    ensures MergedInstruction(outs) == Fail(OutcomeErrors(outs[k])[0])
  {
    var pre, o, post := outs[..k], outs[k], outs[k + 1..];
    assert outs == pre + [o] + post;
    forall j | 0 <= j < |pre| ensures !IsFailure(pre[j]) { assert pre[j] == outs[j]; }
    forall j | 0 <= j < |post| ensures !IsFailure(post[j]) { assert post[j] == outs[k + 1 + j]; }
    NoFailureNoErrors(pre);
    NoFailureNoErrors(post);
    ErrorsOfSnoc(pre, o);
    ErrorsOfConcat(pre + [o], post);
    assert ErrorsOf(outs) == OutcomeErrors(o);
  }

  /**
   * Evaluators Continue, Continue, Continue, Cancel, Fail(PreconditionFailure)
   * fail with PreconditionFailure: the failure wins over the earlier Cancel.
   */
  lemma CancelThenFailFails(input: AsyncOpValue<int>)
    ensures var pf := OpError(PreconditionFailure);
      MergedInstruction(Outcomes([Returns(Continue), Returns(Continue), Returns(Continue),
                                  Returns(Cancel), Returns(Fail(pf))], input)) == Fail(pf)
  {
    var pf := OpError(PreconditionFailure);
    var c, x, f := Returned(Continue), Returned(Cancel), Returned(Fail(pf));
    var prefix := [c, c, c, x];
    NoFailureNoErrors(prefix);
    ErrorsOfSnoc(prefix, f);
    var evs := [Returns(Continue), Returns(Continue), Returns(Continue), Returns(Cancel), Returns(Fail(pf))];
    assert Outcomes(evs, input) == prefix + [f];
  }

  /** Three failures after a cancel accumulate all three errors, in order. */
  lemma ThreeFailuresAfterCancel(pf: Error)
    ensures var c, x, f := Returned(Continue), Returned(Cancel), Returned(Fail(pf));
      ErrorsOf([c, c, c, x, f, f, f]) == [pf, pf, pf]
  {
    var c, x, f := Returned(Continue), Returned(Cancel), Returned(Fail(pf));
    var prefix := [c, c, c, x];
    NoFailureNoErrors(prefix);
    var p1 := prefix + [f];
    ErrorsOfSnoc(prefix, f);
    var p2 := p1 + [f];
    ErrorsOfSnoc(p1, f);
    var p3 := p2 + [f];
    ErrorsOfSnoc(p2, f);
    assert p3 == [c, c, c, x, f, f, f];
  }

  /** With three such failures after the Cancel, the operation fails with all three, aggregated in order. */
  lemma CancelThenThreeFailuresAggregate(input: AsyncOpValue<int>)
    ensures var pf := OpError(PreconditionFailure);
      MergedInstruction(Outcomes([Returns(Continue), Returns(Continue), Returns(Continue), Returns(Cancel),
                                  Returns(Fail(pf)), Returns(Fail(pf)), Returns(Fail(pf))], input))
        == Fail(OpError(Multiple([pf, pf, pf])))
  {
    var pf := OpError(PreconditionFailure);
    var c, x, f := Returned(Continue), Returned(Cancel), Returned(Fail(pf));
    ThreeFailuresAfterCancel(pf);
    var evs := [Returns(Continue), Returns(Continue), Returns(Continue), Returns(Cancel),
                Returns(Fail(pf)), Returns(Fail(pf)), Returns(Fail(pf))];
    assert Outcomes(evs, input) == [c, c, c, x, f, f, f];
  }

  /**
   * A pipeline stage whose only evaluator is the injected one continues
   * exactly on a present input, fails with the upstream error, and cancels
   * on a missing or cancelled upstream value.
   */
  lemma InjectedEvaluatorAlone<V>(input: AsyncOpValue<V>)
    ensures MergedInstruction(Outcomes([InspectInput], input)) == InputInstruction(input)
  {
    var o := Evaluate(InspectInput, input);
    assert Outcomes([InspectInput], input) == [o];
    assert [o][..0] == [];
    assert ErrorsOf([o]) == OutcomeErrors(o);
    assert AnyCancel([o]) <==> o == Returned(Cancel) by {
      assert [o][0] == o;
    }
  }

  /** What a body passes to finish when invoked on input `input`; Nothing when it returns without finishing. */
  function BodyFinish<V>(b: Body<V>, input: AsyncOpValue<V>): (r: Maybe<AsyncOpValue<V>>)
    ensures r.Nothing? <==> b.ReturnWithoutFinishing?
    ensures r.Just? && r.value.Some? ==> b.FinishWith? || b.FinishWithInput?
  {
    match b
    case FinishWith(v) => Just(v)
    case Throw(e) => Just(None(AsyncOpValueErrorType.Failed(e)))
    case ReturnWithoutFinishing => Nothing
    case FinishWithInput => Just(input)
  }

  /**
   * Step 3 of main: what finish is called with after the merged instruction,
   * the body slot and the input are known; Nothing when the body leaves the
   * operation executing.
   */
  function DispatchedFinish<V>(instruction: AsyncOpPreconditionInstruction, body: Maybe<Body<V>>,
                               input: AsyncOpValue<V>): (r: Maybe<AsyncOpValue<V>>)
    ensures r.Nothing? <==> instruction == Continue && body.Just? && body.value.ReturnWithoutFinishing?
    ensures instruction != Continue ==> r.Just? && r.value.None?
  {
    match instruction
    case Continue =>
      (match body
       case Nothing => Just(None(AsyncOpValueErrorType.Failed(OpError(UnimplementedOperation))))
       case Just(b) => BodyFinish(b, input))
    case Cancel => Just(None(AsyncOpValueErrorType.Cancelled))
    case Fail(e) => Just(None(AsyncOpValueErrorType.Failed(e)))
  }

  /** A present output comes only from a body that ran after every evaluator let it continue. */
  lemma PresentOutputNeedsBody<V>(instruction: AsyncOpPreconditionInstruction, body: Maybe<Body<V>>,
                                  input: AsyncOpValue<V>, x: V)
    requires DispatchedFinish(instruction, body, input) == Just(Some(x))
    ensures instruction == Continue && body.Just?
    ensures body.value == FinishWith(Some(x)) || (body.value == FinishWithInput && input == Some(x))
  {
  }

  class AsyncOp<V(==)> {
    var state: AsyncOpState
    var paused: bool
    var cancelled: bool                          // NSOperation's cancelled flag
    var input: AsyncOpValue<V>                   // _input
    var output: AsyncOpValue<V>
    var inputSource: InputSource<V>              // handlerForAsyncOpInputRequest
    var dependencies: set<object>                // NSOperation dependencies declared by setInputProvider
    var preconditionEvaluators: seq<Evaluator>
    var implementationHandler: Maybe<Body<V>>
    var cancellationHandler: bool                // a cancellation handler is stored
    var completionHandler: bool                  // a completion handler (and its queue) is stored
    var finishOnce: bool                         // the dispatch_once tokens, as "already ran"
    var whenFinishedOnce: bool
    var cancelOnce: bool
    var bodyRuns: nat                            // invocations of the body
    var cancellationHandlerRuns: nat             // invocations of the cancellation handler
    var completionResults: seq<AsyncOpResult<V>> // op.result as each completion handler invocation sees it

    /** The object invariant: the one-shot tokens agree with the state, and every handler fired at most once. */
    ghost predicate Valid()
      reads this
    {
      && cancelOnce == cancelled
      && finishOnce == (state == Finished)
      && (state == Initial ==> output == None(NoValue) && bodyRuns == 0)
      && (state != Finished ==> completionResults == [])
      && (completionHandler ==> whenFinishedOnce)
      && |completionResults| + (if completionHandler then 1 else 0) <= (if whenFinishedOnce then 1 else 0)
      && bodyRuns <= 1
      && (bodyRuns != 0 ==> implementationHandler == Nothing)
      && cancellationHandlerRuns <= 1
      && (cancellationHandlerRuns == 1 ==> cancelled)
    }

    constructor ()
      ensures Valid()
      ensures state == Initial && !paused && !cancelled
      ensures input == None(NoValue) && output == None(NoValue)
      ensures inputSource == NoSource && dependencies == {} && preconditionEvaluators == []
      ensures implementationHandler == Nothing && !cancellationHandler && !completionHandler
      ensures !whenFinishedOnce && bodyRuns == 0 && cancellationHandlerRuns == 0 && completionResults == []
    {
      state := Initial;
      paused := false;
      cancelled := false;
      input := None(NoValue);
      output := None(NoValue);
      inputSource := NoSource;
      dependencies := {};
      preconditionEvaluators := [];
      implementationHandler := Nothing;
      cancellationHandler := false;
      completionHandler := false;
      finishOnce := false;
      whenFinishedOnce := false;
      cancelOnce := false;
      bodyRuns := 0;
      cancellationHandlerRuns := 0;
      completionResults := [];
    }

    // ---- Derived properties ----

    /** `executing`: an executing operation is not finished, and its status is still Pending. */
    predicate IsExecuting()
      reads this
      ensures IsExecuting() ==> !IsFinished() && ResultStatus() == AsyncOpResultStatus.Pending
    {
      state == AsyncOpState.Executing
    }

    /** `finished`: no completion handler has seen a result before the operation finished. */
    predicate IsFinished()
      reads this
      ensures Valid() && !IsFinished() ==> completionResults == []
    {
      state == AsyncOpState.Finished
    }

    /** `ready`: a paused operation is not ready while Initial; once it left Initial it is always ready. */
    function Ready(superReady: bool): (r: bool)
      reads this
      ensures state != Initial ==> r
      ensures state == Initial && paused ==> !r
      ensures state == Initial && !paused ==> r == superReady
    {
      (!paused && superReady) || state != Initial
    }

    /** `resultStatus`. */
    function ResultStatus(): (r: AsyncOpResultStatus)
      reads this
      ensures r == AsyncOpResultStatus.Pending <==> state != Finished
      ensures r == AsyncOpResultStatus.Cancelled <==> state == Finished && cancelled
      ensures state == Finished && !cancelled ==>
                (r == AsyncOpResultStatus.Succeeded <==> ResultOf(output).IsSucceeded())
      ensures state == Finished && !cancelled ==> (r == AsyncOpResultStatus.Failed <==> output.None?)
    {
      if state != Finished then AsyncOpResultStatus.Pending
      else if cancelled then AsyncOpResultStatus.Cancelled
      else match output
        case None(_) => AsyncOpResultStatus.Failed
        case Some(_) => AsyncOpResultStatus.Succeeded
    }

    /** `result` (AsyncOpTypes.swift, the AsyncOp extension): the classified output. */
    function Result(): (r: AsyncOpResult<V>)
      reads this
      ensures r.Succeeded? <==> output.Some?
      ensures r == AsyncOpResult.Cancelled <==> output == None(AsyncOpValueErrorType.Cancelled)
    {
      ResultOf(output)
    }

    /** As an input provider, an operation provides its current output. */
    function ProvideAsyncOpInput(): (r: AsyncOpValue<V>)
      reads this
      ensures state != Finished && Valid() ==> r == None(NoValue) || state == Executing
      ensures r == output
    {
      output
    }

    /**
     * `preconditionInstructionByEvaluatingOutput`: what a downstream evaluator
     * concludes from this operation's output.
     */
    function PreconditionInstructionByEvaluatingOutput(): (r: AsyncOpPreconditionInstruction)
      reads this
      ensures r == Continue <==> output.Some?
      ensures r == AsyncOpPreconditionInstruction.Cancel <==> output == None(NoValue) || output == None(AsyncOpValueErrorType.Cancelled)
      ensures r.Fail? ==> output == None(AsyncOpValueErrorType.Failed(r.error))
    {
      match output
      case None(reason) =>
        (match reason
         case Cancelled => AsyncOpPreconditionInstruction.Cancel
         case NoValue => AsyncOpPreconditionInstruction.Cancel
         case Failed(e) => Fail(e))
      case Some(_) => Continue
    }

    /** The input the operation will pull from its source when it starts. */
    ghost function ProvidedInput(): AsyncOpValue<V>
      reads this, if inputSource.FromOp? then {inputSource.op} else {}
    {
      match inputSource
      case NoSource => input
      case FromValue(v) => v.ProvideAsyncOpInput()
      case FromOp(p) => p.ProvideAsyncOpInput()
    }

    // ---- Configuration, accepted only while Initial ----

    /** The `input` setter. */
    method AssignInput(v: AsyncOpValue<V>)
      requires Valid()
      modifies this`input
      ensures Valid()
      ensures input == if old(state) == Initial then v else old(input)
    {
      if state != Initial { return; }
      input := v;
    }

    /** `setInput(_: AsyncOpValue, andResume:)`. */
    method SetInput(v: AsyncOpValue<V>, andResume: bool)
      requires Valid()
      modifies this`input, this`paused
      ensures Valid()
      ensures input == if old(state) == Initial then v else old(input)
      ensures paused == if old(state) == Initial && andResume then false else old(paused)
    {
      if state != Initial { return; }
      AssignInput(v);
      if andResume {
        Resume();
      }
    }

    /** `setInput(_: InputType, andResume:)`: a plain value is set as a present input. */
    method SetInputValue(x: V, andResume: bool)
      requires Valid()
      modifies this`input, this`paused
      ensures Valid()
      ensures input == if old(state) == Initial then Some(x) else old(input)
      ensures paused == if old(state) == Initial && andResume then false else old(paused)
    {
      SetInput(Some(x), andResume);
    }

    /**
     * `setInputProvider`: the last registration wins; an operation used as a
     * provider also becomes a dependency.
     */
    method SetInputProvider(source: InputSource<V>)
      requires Valid()
      modifies this`inputSource, this`dependencies
      ensures Valid()
      ensures old(state) == Initial ==> inputSource == source
      ensures old(state) == Initial ==>
                dependencies == old(dependencies) + (if source.FromOp? then {source.op} else {})
      ensures old(state) != Initial ==> inputSource == old(inputSource) && dependencies == old(dependencies)
    {
      if state != Initial { return; }
      if source.FromOp? {
        dependencies := dependencies + {source.op};
      }
      inputSource := source;
    }

    method AddPreconditionEvaluator(ev: Evaluator)
      requires Valid()
      modifies this`preconditionEvaluators
      ensures Valid()
      ensures preconditionEvaluators ==
                if old(state) == Initial then old(preconditionEvaluators) + [ev] else old(preconditionEvaluators)
    {
      if state != Initial { return; }
      preconditionEvaluators := preconditionEvaluators + [ev];
    }

    method OnStart(body: Body<V>)
      requires Valid()
      modifies this`implementationHandler
      ensures Valid()
      ensures implementationHandler == if old(state) == Initial then Just(body) else old(implementationHandler)
    {
      if state != Initial { return; }
      implementationHandler := Just(body);
    }

    method OnCancel()
      requires Valid()
      modifies this`cancellationHandler
      ensures Valid()
      ensures cancellationHandler == (old(state) == Initial || old(cancellationHandler))
    {
      if state != Initial { return; }
      cancellationHandler := true;
    }

    /**
     * `whenFinished`: only the first call has any effect; on a finished
     * operation the handler fires at once, otherwise it is stored for finish.
     * The source's check that no handler is stored yet always passes inside
     * the once-block (Valid: a stored handler implies the block ran).
     */
    method WhenFinished()
      requires Valid()
      modifies this`whenFinishedOnce, this`completionHandler, this`completionResults
      ensures Valid()
      ensures whenFinishedOnce
      ensures old(whenFinishedOnce) ==>
                completionHandler == old(completionHandler) && completionResults == old(completionResults)
      ensures !old(whenFinishedOnce) && state == Finished ==>
                !completionHandler && completionResults == old(completionResults) + [Result()]
      ensures !old(whenFinishedOnce) && state != Finished ==>
                completionHandler && completionResults == old(completionResults)
    {
      if whenFinishedOnce { return; }
      whenFinishedOnce := true;
      if state == Finished {
        completionResults := completionResults + [ResultOf(output)];
      } else {
        completionHandler := true;
      }
    }

    /** `pause`: only readiness observes the flag, and only while Initial. */
    method Pause()
      modifies this`paused
      ensures paused
    {
      paused := true;
    }

    method Resume()
      modifies this`paused
      ensures !paused
    {
      paused := false;
    }

    // ---- Cancelling and finishing ----

    /** What a call of cancel did: the flag is set, and the handler ran only on the first call. */
    twostate predicate CancelTookEffect()
      reads this
    {
      && cancelled && cancelOnce
      && (old(cancelOnce) ==>
            cancellationHandler == old(cancellationHandler) &&
            cancellationHandlerRuns == old(cancellationHandlerRuns))
      && (!old(cancelOnce) ==>
            !cancellationHandler &&
            cancellationHandlerRuns == old(cancellationHandlerRuns) + (if old(cancellationHandler) then 1 else 0))
    }

    /** `cancel`: the effect runs once however often it is called; it does not finish the operation. */
    method Cancel()
      requires Valid()
      modifies this`cancelled, this`cancelOnce, this`cancellationHandler, this`cancellationHandlerRuns
      ensures Valid()
      ensures CancelTookEffect()
    {
      if cancelOnce { return; }
      cancelOnce := true;
      cancelled := true;
      if cancellationHandler {
        cancellationHandlerRuns := cancellationHandlerRuns + 1;
      }
      cancellationHandler := false;
    }

    /**
     * `finish(with: AsyncOpValue)`: takes effect only while Executing, once
     * (the once-token is used exactly when the state is Finished, so the
     * Executing check subsumes it). The output is stored and the state
     * becomes Finished; only when a
     * completion handler is stored are the other handler slots cleared and
     * the completion handler detached and fired.
     */
    method Finish(v: AsyncOpValue<V>)
      requires Valid()
      modifies this`output, this`state, this`finishOnce, this`completionHandler, this`implementationHandler,
               this`cancellationHandler, this`inputSource, this`preconditionEvaluators, this`completionResults
      ensures Valid()
      ensures old(state) != Executing ==> unchanged(this)
      ensures old(state) == Executing ==> output == v && state == Finished && !completionHandler
      ensures old(state) == Executing && old(completionHandler) ==>
                && implementationHandler == Nothing && !cancellationHandler
                && inputSource == NoSource && preconditionEvaluators == []
                && completionResults == old(completionResults) + [ResultOf(v)]
      ensures old(state) == Executing && !old(completionHandler) ==>
                && implementationHandler == old(implementationHandler)
                && cancellationHandler == old(cancellationHandler)
                && inputSource == old(inputSource) && preconditionEvaluators == old(preconditionEvaluators)
                && completionResults == old(completionResults)
    {
      if state != Executing { return; }
      finishOnce := true;
      output := v;
      state := Finished;
      if completionHandler {
        ReleaseHandlers();
      }
    }

    /**
     * The tail of finish when a completion handler is stored: every other
     * handler slot is cleared, and the completion handler is detached and
     * fired with the operation's result.
     */
    method ReleaseHandlers()
      requires Valid() && state == Finished && completionHandler
      modifies this`completionHandler, this`implementationHandler, this`cancellationHandler, this`inputSource,
               this`preconditionEvaluators, this`completionResults
      ensures Valid()
      ensures !completionHandler && implementationHandler == Nothing && !cancellationHandler
      ensures inputSource == NoSource && preconditionEvaluators == []
      ensures completionResults == old(completionResults) + [Result()]
    {
      completionHandler := false;
      implementationHandler := Nothing;
      cancellationHandler := false;
      inputSource := NoSource;
      preconditionEvaluators := [];
      completionResults := completionResults + [ResultOf(output)];
    }

    /** `finish(with: OutputType)`. */
    method FinishWithValue(x: V)
      requires Valid()
      modifies this`output, this`state, this`finishOnce, this`completionHandler, this`implementationHandler,
               this`cancellationHandler, this`inputSource, this`preconditionEvaluators, this`completionResults
      ensures Valid()
      ensures old(state) != Executing ==> unchanged(this)
      ensures old(state) == Executing ==> output == Some(x) && state == Finished
      ensures old(state) == Executing ==>
                completionResults == old(completionResults) + (if old(completionHandler) then [ResultOf(Some(x))] else [])
    {
      Finish(Some(x));
    }

    /** `finish(with: AsyncOpValueErrorType)`. */
    method FinishWithReason(reason: AsyncOpValueErrorType)
      requires Valid()
      modifies this`output, this`state, this`finishOnce, this`completionHandler, this`implementationHandler,
               this`cancellationHandler, this`inputSource, this`preconditionEvaluators, this`completionResults
      ensures Valid()
      ensures old(state) != Executing ==> unchanged(this)
      ensures old(state) == Executing ==> output == None(reason) && state == Finished && !completionHandler
      ensures old(state) == Executing && old(completionHandler) ==>
                && implementationHandler == Nothing && !cancellationHandler
                && inputSource == NoSource && preconditionEvaluators == []
                && completionResults == old(completionResults) + [ResultOf(None(reason))]
      ensures old(state) == Executing && !old(completionHandler) ==>
                && implementationHandler == old(implementationHandler)
                && cancellationHandler == old(cancellationHandler)
                && inputSource == old(inputSource) && preconditionEvaluators == old(preconditionEvaluators)
                && completionResults == old(completionResults)
    {
      Finish(None(reason));
    }

    /** `finish(with: ErrorType)`: a failure with that error. */
    method FinishWithError(e: Error)
      requires Valid()
      modifies this`output, this`state, this`finishOnce, this`completionHandler, this`implementationHandler,
               this`cancellationHandler, this`inputSource, this`preconditionEvaluators, this`completionResults
      ensures Valid()
      ensures old(state) != Executing ==> unchanged(this)
      ensures old(state) == Executing ==>
                output == None(AsyncOpValueErrorType.Failed(e)) && state == Finished && !completionHandler
      ensures old(state) == Executing && old(completionHandler) ==>
                && implementationHandler == Nothing && !cancellationHandler
                && inputSource == NoSource && preconditionEvaluators == []
                && completionResults == old(completionResults) + [AsyncOpResult.Failed(e)]
      ensures old(state) == Executing && !old(completionHandler) ==>
                && implementationHandler == old(implementationHandler)
                && cancellationHandler == old(cancellationHandler)
                && inputSource == old(inputSource) && preconditionEvaluators == old(preconditionEvaluators)
                && completionResults == old(completionResults)
    {
      FinishWithReason(AsyncOpValueErrorType.Failed(e));
    }

    // ---- Starting ----

    /** main, step 1: pull the input once from the registered source. */
    method PrepareInput()
      modifies this`input, this`inputSource
      ensures input == old(ProvidedInput())
      ensures inputSource == NoSource
    {
      match inputSource
      case NoSource =>
      case FromValue(v) =>
        input := v.ProvideAsyncOpInput();
        inputSource := NoSource;
      case FromOp(p) =>
        input := p.ProvideAsyncOpInput();
        inputSource := NoSource;
    }

    /**
     * main, step 2: call every evaluator in order, accumulating errors, then
     * discard the evaluators. The result is the declarative merge rule.
     */
    method EvaluatePreconditions() returns (instruction: AsyncOpPreconditionInstruction)
      modifies this`preconditionEvaluators
      ensures preconditionEvaluators == []
      ensures instruction == MergedInstruction(Outcomes(old(preconditionEvaluators), input))
    {
      var evaluators := preconditionEvaluators;
      ghost var outs := Outcomes(evaluators, input);
      var errors: seq<Error> := [];
      instruction := Continue;
      for i := 0 to |evaluators|
        invariant errors == ErrorsOf(outs[..i])
        invariant instruction == MergedInstruction(outs[..i])
      {
        assert outs[..i + 1] == outs[..i] + [outs[i]];
        ErrorsOfSnoc(outs[..i], outs[i]);
        AppendOutcome(outs[..i], outs[i]);
        match Evaluate(evaluators[i], input)
        case Returned(Cancel) =>
          if |errors| == 0 {
            instruction := AsyncOpPreconditionInstruction.Cancel;
          }
        case Returned(Fail(e)) =>
          errors := errors + [e];
          instruction := InstructionFromErrors(errors);
        case Returned(Continue) =>
        case Threw(e) =>
          errors := errors + [e];
          instruction := InstructionFromErrors(errors);
      }
      assert outs[..|evaluators|] == outs;
      preconditionEvaluators := [];
    }

    /** main, step 3 on Continue: detach and run the body, or fail as unimplemented. */
    method PerformImplementation()
      requires Valid() && state == Executing
      modifies this`implementationHandler, this`bodyRuns, this`output, this`state, this`finishOnce,
               this`completionHandler, this`cancellationHandler, this`inputSource,
               this`preconditionEvaluators, this`completionResults
      ensures Valid()
      ensures implementationHandler == Nothing
      ensures bodyRuns == old(bodyRuns) + (if old(implementationHandler).Just? then 1 else 0)
      ensures DispatchedFinish(Continue, old(implementationHandler), input).Nothing? ==>
                unchanged(this`output, this`state, this`completionHandler, this`cancellationHandler,
                          this`inputSource, this`preconditionEvaluators, this`completionResults)
      ensures DispatchedFinish(Continue, old(implementationHandler), input).Just? ==>
                var v := DispatchedFinish(Continue, old(implementationHandler), input).value;
                && output == v && state == Finished && !completionHandler
                && completionResults == old(completionResults) + (if old(completionHandler) then [ResultOf(v)] else [])
                && cancellationHandler == (old(cancellationHandler) && !old(completionHandler))
                && (old(completionHandler) ==> inputSource == NoSource && preconditionEvaluators == [])
                && (!old(completionHandler) ==>
                      inputSource == old(inputSource) && preconditionEvaluators == old(preconditionEvaluators))
    {
      match implementationHandler
      case Just(body) =>
        implementationHandler := Nothing;
        bodyRuns := bodyRuns + 1;
        match body {
          case FinishWith(v) => Finish(v);
          case Throw(e) => FinishWithError(e);
          case ReturnWithoutFinishing =>
          case FinishWithInput => Finish(input);
        }
      case Nothing =>
        FinishWithError(OpError(UnimplementedOperation));
    }

    /**
     * main, step 3: run the body on Continue; on Cancel, drop the body, cancel
     * and finish Cancelled; on Fail, cancel, drop the body and finish with the error.
     */
    method Dispatch(instruction: AsyncOpPreconditionInstruction)
      requires Valid() && state == Executing && !cancelled
      requires preconditionEvaluators == [] && inputSource == NoSource
      modifies this`implementationHandler, this`bodyRuns, this`output, this`state, this`finishOnce,
               this`completionHandler, this`cancellationHandler, this`inputSource, this`preconditionEvaluators,
               this`completionResults, this`cancelled, this`cancelOnce, this`cancellationHandlerRuns
      ensures Valid()
      ensures preconditionEvaluators == [] && implementationHandler == Nothing && inputSource == NoSource
      ensures var finishedWith := DispatchedFinish(instruction, old(implementationHandler), input);
              && bodyRuns == old(bodyRuns) + (if instruction == Continue && old(implementationHandler).Just? then 1 else 0)
              && cancelled == !instruction.Continue?
              && cancellationHandlerRuns ==
                   old(cancellationHandlerRuns) + (if !instruction.Continue? && old(cancellationHandler) then 1 else 0)
              && (finishedWith.Nothing? ==>
                    && state == Executing && output == old(output)
                    && completionHandler == old(completionHandler) && completionResults == old(completionResults)
                    && cancellationHandler == old(cancellationHandler))
              && (finishedWith.Just? ==>
                    && state == Finished && output == finishedWith.value && !completionHandler
                    && completionResults ==
                         old(completionResults) + (if old(completionHandler) then [ResultOf(output)] else [])
                    && cancellationHandler == (old(cancellationHandler) && instruction.Continue? && !old(completionHandler)))
    {
      match instruction
      case Continue =>
        PerformImplementation();
      case Cancel =>
        implementationHandler := Nothing;
        Cancel();
        FinishWithReason(AsyncOpValueErrorType.Cancelled);
      case Fail(e) =>
        Cancel();
        implementationHandler := Nothing;
        FinishWithError(e);
    }

    /**
     * main: prepare the input, merge the evaluators' outcomes, then run the
     * body (Continue) or cancel and finish with Cancelled (Cancel) or with
     * the error (Fail).
     */
    method RunMain()
      requires Valid() && state == Executing && !cancelled
      modifies this`input, this`inputSource, this`preconditionEvaluators, this`implementationHandler,
               this`bodyRuns, this`output, this`state, this`finishOnce, this`completionHandler,
               this`cancellationHandler, this`completionResults, this`cancelled, this`cancelOnce,
               this`cancellationHandlerRuns
      ensures Valid()
      ensures input == old(ProvidedInput())
      ensures preconditionEvaluators == [] && implementationHandler == Nothing && inputSource == NoSource
      ensures var instruction := MergedInstruction(Outcomes(old(preconditionEvaluators), input));
              var finishedWith := DispatchedFinish(instruction, old(implementationHandler), input);
              && bodyRuns == old(bodyRuns) + (if instruction == Continue && old(implementationHandler).Just? then 1 else 0)
              && cancelled == !instruction.Continue?
              && cancellationHandlerRuns ==
                   old(cancellationHandlerRuns) + (if !instruction.Continue? && old(cancellationHandler) then 1 else 0)
              && (finishedWith.Nothing? ==>
                    && state == Executing && output == old(output)
                    && completionHandler == old(completionHandler) && completionResults == old(completionResults)
                    && cancellationHandler == old(cancellationHandler))
              && (finishedWith.Just? ==>
                    && state == Finished && output == finishedWith.value && !completionHandler
                    && completionResults ==
                         old(completionResults) + (if old(completionHandler) then [ResultOf(output)] else [])
                    && cancellationHandler == (old(cancellationHandler) && instruction.Continue? && !old(completionHandler)))
    {
      PrepareInput();
      var instruction := EvaluatePreconditions();
      Dispatch(instruction);
    }

    /**
     * `start`. The source has no guard: called again on a finished operation
     * it would set the state back to Executing, so the model demands what the
     * scheduler guarantees, a single start from Initial. An operation cancelled
     * beforehand drops its evaluators and body unrun and finishes Cancelled.
     */
    method Start()
      requires Valid() && state == Initial
      modifies this`state, this`input, this`inputSource, this`preconditionEvaluators, this`implementationHandler,
               this`bodyRuns, this`output, this`finishOnce, this`completionHandler, this`cancellationHandler,
               this`completionResults, this`cancelled, this`cancelOnce, this`cancellationHandlerRuns
      ensures Valid()
      ensures state != Initial
      ensures preconditionEvaluators == [] && implementationHandler == Nothing
      ensures old(cancelled) ==>
                && state == Finished && output == None(AsyncOpValueErrorType.Cancelled)
                && ResultStatus() == AsyncOpResultStatus.Cancelled
                && bodyRuns == 0 && input == old(input)
                && cancellationHandlerRuns == old(cancellationHandlerRuns)
                && completionResults == (if old(completionHandler) then [AsyncOpResult.Cancelled] else [])
                && cancelled && !completionHandler
      ensures old(cancelled) && old(completionHandler) ==> !cancellationHandler && inputSource == NoSource
      ensures old(cancelled) && !old(completionHandler) ==>
                cancellationHandler == old(cancellationHandler) && inputSource == old(inputSource)
      ensures !old(cancelled) ==>
                && input == old(ProvidedInput()) && inputSource == NoSource
                && var instruction := MergedInstruction(Outcomes(old(preconditionEvaluators), input));
                   var finishedWith := DispatchedFinish(instruction, old(implementationHandler), input);
                   && (bodyRuns == 1 <==> instruction == Continue && old(implementationHandler).Just?)
                   && cancelled == !instruction.Continue?
                   && cancellationHandlerRuns ==
                        old(cancellationHandlerRuns) + (if !instruction.Continue? && old(cancellationHandler) then 1 else 0)
                   && (finishedWith.Nothing? ==> state == Executing && output == None(NoValue) &&
                                                 completionHandler == old(completionHandler) && completionResults == [] &&
                                                 cancellationHandler == old(cancellationHandler))
                   && (finishedWith.Just? ==> state == Finished && output == finishedWith.value && !completionHandler &&
                                              completionResults == (if old(completionHandler) then [ResultOf(output)] else []) &&
                                              cancellationHandler ==
                                                (old(cancellationHandler) && instruction.Continue? && !old(completionHandler)))
    {
      state := Executing;
      if !cancelled {
        RunMain();
      } else {
        preconditionEvaluators := [];
        implementationHandler := Nothing;
        FinishWithReason(AsyncOpValueErrorType.Cancelled);
      }
    }
  }
}
