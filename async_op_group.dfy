/**
 * AsyncOpGroup: a linear pipeline of AsyncOps. `beginWith` opens it, each
 * `then` appends a stage that pulls its input from the previous stage and is
 * gated by an injected evaluator on that input, and `finally` appends a
 * pass-through stage whose completion handler receives the last result.
 * The group only collects the operations; an operation queue starts them.
 */
module AsyncOpGroupModel {
  import opened AsyncOpTypes
  import opened AsyncOpModel

  /** The handle `beginWith` and `then` return: the group and the last stage added. */
  datatype AsyncOpConnector<V(==)> = AsyncOpConnector(group: AsyncOpGroup<V>, op: AsyncOp<V>)
  {
    /**
     * `then`: the next stage takes its input from this stage (which also
     * becomes its dependency), gets the injected evaluator after its own, and
     * is appended to the group.
     */
    method Then(next: AsyncOp<V>) returns (c: AsyncOpConnector<V>)
      requires next.Valid()
      modifies group`operations, next`inputSource, next`dependencies, next`preconditionEvaluators
      ensures next.Valid()
      ensures c == AsyncOpConnector(group, next)
      ensures group.operations == old(group.operations) + [next]
      ensures old(next.state) == Initial ==>
                && next.inputSource == FromOp(op)
                && next.dependencies == old(next.dependencies) + {op}
                && next.preconditionEvaluators == old(next.preconditionEvaluators) + [InspectInput]
      ensures old(next.state) != Initial ==>
                unchanged(next`inputSource, next`dependencies, next`preconditionEvaluators)
    {
      next.SetInputProvider(FromOp(op));
      next.AddPreconditionEvaluator(InspectInput);
      c := group.Then(next);
    }

    /**
     * `finally`: appends a fresh pass-through stage fed by this stage, whose
     * completion handler is registered; returns the group.
     */
    method Finally() returns (g: AsyncOpGroup<V>)
      modifies group`operations
      ensures g == group
      ensures |group.operations| == |old(group.operations)| + 1
      ensures group.operations[..|old(group.operations)|] == old(group.operations)
      ensures var t := group.operations[|old(group.operations)|];
              && fresh(t) && t.Valid() && t.state == Initial && !t.cancelled && !t.paused
              && t.implementationHandler == Just(FinishWithInput)
              && t.inputSource == FromOp(op) && t.dependencies == {op}
              && t.preconditionEvaluators == [] && !t.cancellationHandler
              && t.completionHandler && t.completionResults == [] && t.bodyRuns == 0
    {
      var t := OperationToProvideResults();
      t.SetInputProvider(FromOp(op));
      t.WhenFinished();
      g := group.Finally(t);
    }
  }

  /** `operationToProvideResults`: a fresh operation whose body finishes with its input. */
  method OperationToProvideResults<V(==)>() returns (t: AsyncOp<V>)
    ensures fresh(t) && t.Valid() && t.state == Initial && !t.cancelled && !t.paused
    ensures t.implementationHandler == Just(FinishWithInput)
    ensures t.inputSource == NoSource && t.dependencies == {} && t.preconditionEvaluators == []
    ensures !t.cancellationHandler && !t.completionHandler && !t.whenFinishedOnce
    ensures t.completionResults == [] && t.bodyRuns == 0 && t.cancellationHandlerRuns == 0
  {
    t := new AsyncOp<V>();
    t.OnStart(FinishWithInput);
  }

  class AsyncOpGroup<V(==)> {
    var operations: seq<AsyncOp<V>>

    constructor ()
      ensures operations == []
    {
      operations := [];
    }

    /** `beginWith`: the operation becomes the group's first stage (appended, as in the source). */
    method BeginWith(op: AsyncOp<V>) returns (c: AsyncOpConnector<V>)
      modifies this`operations
      ensures operations == old(operations) + [op]
      ensures c == AsyncOpConnector(this, op)
    {
      operations := operations + [op];
      c := AsyncOpConnector(this, op);
    }

    /** The group's private `then`. */
    method Then(op: AsyncOp<V>) returns (c: AsyncOpConnector<V>)
      modifies this`operations
      ensures operations == old(operations) + [op]
      ensures c == AsyncOpConnector(this, op)
    {
      operations := operations + [op];
      c := AsyncOpConnector(this, op);
    }

    /** The group's private `finally`. */
    method Finally(op: AsyncOp<V>) returns (g: AsyncOpGroup<V>)
      modifies this`operations
      ensures operations == old(operations) + [op]
      ensures g == this
    {
      operations := operations + [op];
      g := this;
    }

    /**
     * `cancelGroup`: cancels every operation in the group; each one's
     * cancellation handler runs on its first cancellation only. Nothing but
     * the cancellation state of the group's operations changes.
     */
    method CancelGroup()
      requires forall i :: 0 <= i < |operations| ==> operations[i].Valid()
      modifies (set op | op in operations)`cancelled, (set op | op in operations)`cancelOnce,
               (set op | op in operations)`cancellationHandler, (set op | op in operations)`cancellationHandlerRuns
      ensures forall i :: 0 <= i < |operations| ==> operations[i].Valid()
      ensures forall i :: 0 <= i < |operations| ==> operations[i].CancelTookEffect()
    {
      for i := 0 to |operations|
        invariant forall j :: 0 <= j < |operations| ==> operations[j].Valid()
        invariant forall j :: 0 <= j < i ==> operations[j].CancelTookEffect()
        invariant forall j :: 0 <= j < |operations| && operations[j] !in operations[..i] ==>
                    unchanged(operations[j])
      {
        operations[i].Cancel();
      }
    }
  }

  /** The part of an operation queue a group is handed to: the operations submitted, in order. */
  class OperationQueue<V(==)> {
    var submitted: seq<AsyncOp<V>>

    constructor ()
      ensures submitted == []
    {
      submitted := [];
    }

    /** `addAsyncOpGroup`: submits all of the group's operations; a nil group submits nothing. */
    method AddAsyncOpGroup(group: AsyncOpGroup?<V>)
      modifies this`submitted
      ensures submitted == old(submitted) + (if group == null then [] else group.operations)
    {
      if group == null { return; }
      submitted := submitted + group.operations;
    }
  }
}
