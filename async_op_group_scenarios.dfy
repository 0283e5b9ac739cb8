/**
 * Two- and three-stage pipelines built with beginWith/then/finally and submitted with
 * addAsyncOpGroup. The queue starts the submitted operations in submission
 * order, each after the one it depends on has finished; that is the order
 * these runs start them in.
 */
module AsyncOpGroupScenarios {
  import opened AsyncOpTypes
  import opened AsyncOpModel
  import opened AsyncOpGroupModel

  /** A fresh operation with the given input and body, as a stage provider returns it. */
  method NewStage(input: AsyncOpValue<int>, body: Body<int>) returns (op: AsyncOp<int>)
    ensures fresh(op) && op.Valid() && op.state == Initial
    ensures !op.cancelled && !op.cancellationHandler && !op.completionHandler
    ensures op.input == input && op.inputSource == NoSource && op.preconditionEvaluators == []
    ensures op.implementationHandler == Just(body)
  {
    op := new AsyncOp<int>();
    op.AssignInput(input);
    op.OnStart(body);
  }

  /** group.beginWith(first).then(second), where first's input is x and the stages' bodies are given. */
  method BuildStages(x: int, firstBody: Body<int>, secondBody: Body<int>)
    returns (c: AsyncOpConnector<int>, first: AsyncOp<int>, second: AsyncOp<int>)
    ensures fresh(c.group) && fresh(first) && fresh(second) && first != second
    ensures c.op == second && c.group.operations == [first, second]
    ensures first.Valid() && first.state == Initial && second.Valid() && second.state == Initial
    ensures !first.cancelled && !first.cancellationHandler && !second.cancelled && !second.cancellationHandler
    ensures first.input == Some(x) && first.inputSource == NoSource && first.preconditionEvaluators == []
    ensures first.implementationHandler == Just(firstBody) && !first.completionHandler
    ensures second.inputSource == FromOp(first) && second.preconditionEvaluators == [InspectInput]
    ensures second.implementationHandler == Just(secondBody) && !second.completionHandler
  {
    var group := new AsyncOpGroup<int>();
    first := NewStage(Some(x), firstBody);
    var c1 := group.BeginWith(first);
    second := NewStage(None(NoValue), secondBody);
    c := c1.Then(second);
  }

  /** The two stages closed with `finally`: the group holds both stages and the pass-through stage. */
  method BuildGroup(x: int, firstBody: Body<int>, secondBody: Body<int>)
    returns (group: AsyncOpGroup<int>, first: AsyncOp<int>, second: AsyncOp<int>)
    ensures fresh(group) && fresh(first) && fresh(second) && first != second
    ensures |group.operations| == 3 && group.operations[0] == first && group.operations[1] == second
    ensures fresh(group.operations[2]) && group.operations[2] != first && group.operations[2] != second
    ensures forall i :: 0 <= i < 3 ==> group.operations[i].Valid() && group.operations[i].state == Initial
    ensures forall i :: 0 <= i < 3 ==> !group.operations[i].cancelled && !group.operations[i].cancellationHandler
    ensures first.input == Some(x) && first.inputSource == NoSource && first.preconditionEvaluators == []
    ensures first.implementationHandler == Just(firstBody) && !first.completionHandler
    ensures second.inputSource == FromOp(first) && second.preconditionEvaluators == [InspectInput]
    ensures second.implementationHandler == Just(secondBody) && !second.completionHandler
    ensures var t := group.operations[2];
            && t.inputSource == FromOp(second) && t.preconditionEvaluators == []
            && t.implementationHandler == Just(FinishWithInput) && t.completionHandler && t.completionResults == []
  {
    var c;
    c, first, second := BuildStages(x, firstBody, secondBody);
    group := c.Finally();
  }

  /** The group built by BuildGroup, cancelled first when `cancelFirst` holds, submitted to a fresh queue. */
  method BuildPipeline(x: int, firstBody: Body<int>, secondBody: Body<int>, cancelFirst: bool)
    returns (queue: OperationQueue<int>, first: AsyncOp<int>, second: AsyncOp<int>)
    ensures fresh(queue) && fresh(first) && fresh(second) && first != second
    ensures |queue.submitted| == 3 && queue.submitted[0] == first && queue.submitted[1] == second
    ensures fresh(queue.submitted[2]) && queue.submitted[2] != first && queue.submitted[2] != second
    ensures forall i :: 0 <= i < 3 ==> queue.submitted[i].Valid() && queue.submitted[i].state == Initial
    ensures forall i :: 0 <= i < 3 ==>
              queue.submitted[i].cancelled == cancelFirst && !queue.submitted[i].cancellationHandler
    ensures first.input == Some(x) && first.inputSource == NoSource && first.preconditionEvaluators == []
    ensures first.implementationHandler == Just(firstBody) && !first.completionHandler
    ensures second.inputSource == FromOp(first) && second.preconditionEvaluators == [InspectInput]
    ensures second.implementationHandler == Just(secondBody) && !second.completionHandler
    ensures var t := queue.submitted[2];
            && t.inputSource == FromOp(second) && t.preconditionEvaluators == []
            && t.implementationHandler == Just(FinishWithInput) && t.completionHandler && t.completionResults == []
  {
    var group;
    group, first, second := BuildGroup(x, firstBody, secondBody);
    if cancelFirst {
      group.CancelGroup();
    }
    queue := new OperationQueue<int>();
    queue.AddAsyncOpGroup(group);
  }

  /** Each stage's output feeds the next, and the final handler receives the last stage's value. */
  method PipelineDeliversResult(x: int, y: int)
    returns (secondInput: AsyncOpValue<int>, delivered: seq<AsyncOpResult<int>>)
    ensures secondInput == Some(x)
    ensures delivered == [AsyncOpResult.Succeeded(y)]
  {
    var queue, first, second := BuildPipeline(x, FinishWithInput, FinishWith(Some(y)), false);
    var last := queue.submitted[2];
    first.Start();
    InjectedEvaluatorAlone(first.output);
    second.Start();
    InjectedEvaluatorAlone<int>(second.output);
    assert Outcomes([], second.output) == [];
    last.Start();
    secondInput, delivered := second.input, last.completionResults;
  }

  /**
   * A stage that throws stops the pipeline: the next stage's body never runs,
   * it is cancelled, and the final handler receives the thrown error.
   */
  method PipelineStopsAtFailure(x: int, y: int, e: Error)
    returns (secondBodyRuns: nat, secondCancelled: bool, delivered: seq<AsyncOpResult<int>>)
    ensures secondBodyRuns == 0 && secondCancelled
    ensures delivered == [AsyncOpResult.Failed(e)]
  {
    var queue, first, second := BuildPipeline(x, Throw(e), FinishWith(Some(y)), false);
    var last := queue.submitted[2];
    first.Start();
    InjectedEvaluatorAlone(first.output);
    second.Start();
    assert Outcomes([], second.output) == [];
    last.Start();
    secondBodyRuns, secondCancelled, delivered := second.bodyRuns, second.cancelled, last.completionResults;
  }

  /** Cancelling the group before submitting it: no body runs, and the final handler receives Cancelled. */
  method CancelledPipeline(x: int, y: int)
    returns (bodyRuns: nat, delivered: seq<AsyncOpResult<int>>)
    ensures bodyRuns == 0
    ensures delivered == [AsyncOpResult.Cancelled]
  {
    var queue, first, second := BuildPipeline(x, FinishWithInput, FinishWith(Some(y)), true);
    var last := queue.submitted[2];
    first.Start();
    second.Start();
    last.Start();
    bodyRuns := first.bodyRuns + second.bodyRuns + last.bodyRuns;
    delivered := last.completionResults;
  }

  /** group.beginWith(a).then(b).then(c), where a's input is x and the stages' bodies are given. */
  method BuildThreeStages(x: int, aBody: Body<int>, bBody: Body<int>, cBody: Body<int>)
    returns (conn: AsyncOpConnector<int>, a: AsyncOp<int>, b: AsyncOp<int>, c: AsyncOp<int>)
    ensures fresh(conn.group) && fresh(a) && fresh(b) && fresh(c) && a != b && b != c && a != c
    ensures conn.op == c && conn.group.operations == [a, b, c]
    ensures a.Valid() && a.state == Initial && b.Valid() && b.state == Initial && c.Valid() && c.state == Initial
    ensures !a.cancelled && !a.cancellationHandler && !b.cancelled && !b.cancellationHandler
    ensures !c.cancelled && !c.cancellationHandler
    ensures a.input == Some(x) && a.inputSource == NoSource && a.preconditionEvaluators == []
    ensures a.implementationHandler == Just(aBody) && !a.completionHandler
    ensures b.inputSource == FromOp(a) && b.preconditionEvaluators == [InspectInput]
    ensures b.implementationHandler == Just(bBody) && !b.completionHandler
    ensures c.inputSource == FromOp(b) && c.preconditionEvaluators == [InspectInput]
    ensures c.implementationHandler == Just(cBody) && !c.completionHandler
  {
    var conn1;
    conn1, a, b := BuildStages(x, aBody, bBody);
    c := NewStage(None(NoValue), cBody);
    conn := conn1.Then(c);
  }

  /** group.beginWith(a).then(b).then(c).finally, where a's input is x, submitted to a fresh queue. */
  method BuildThreeStagePipeline(x: int, aBody: Body<int>, bBody: Body<int>, cBody: Body<int>)
    returns (queue: OperationQueue<int>, a: AsyncOp<int>, b: AsyncOp<int>, c: AsyncOp<int>)
    ensures fresh(queue) && fresh(a) && fresh(b) && fresh(c) && a != b && b != c && a != c
    ensures |queue.submitted| == 4 && queue.submitted[0] == a && queue.submitted[1] == b && queue.submitted[2] == c
    ensures fresh(queue.submitted[3]) && queue.submitted[3] != a && queue.submitted[3] != b && queue.submitted[3] != c
    ensures forall i :: 0 <= i < 4 ==> queue.submitted[i].Valid() && queue.submitted[i].state == Initial
    ensures forall i :: 0 <= i < 4 ==> !queue.submitted[i].cancelled && !queue.submitted[i].cancellationHandler
    ensures a.input == Some(x) && a.inputSource == NoSource && a.preconditionEvaluators == []
    ensures a.implementationHandler == Just(aBody) && !a.completionHandler
    ensures b.inputSource == FromOp(a) && b.preconditionEvaluators == [InspectInput]
    ensures b.implementationHandler == Just(bBody) && !b.completionHandler
    ensures c.inputSource == FromOp(b) && c.preconditionEvaluators == [InspectInput]
    ensures c.implementationHandler == Just(cBody) && !c.completionHandler
    ensures var t := queue.submitted[3];
            && t.inputSource == FromOp(c) && t.preconditionEvaluators == []
            && t.implementationHandler == Just(FinishWithInput) && t.completionHandler && t.completionResults == []
  {
    var conn;
    conn, a, b, c := BuildThreeStages(x, aBody, bBody, cBody);
    var group := conn.Finally();
    queue := new OperationQueue<int>();
    queue.AddAsyncOpGroup(group);
  }

  /** Starts three chained stages in order when the first one throws `e`. */
  method RunFailingStages(a: AsyncOp<int>, b: AsyncOp<int>, c: AsyncOp<int>, e: Error)
    requires a != b && b != c && a != c
    requires a.Valid() && a.state == Initial && b.Valid() && b.state == Initial && c.Valid() && c.state == Initial
    requires !a.cancelled && !b.cancelled && !c.cancelled
    requires a.inputSource == NoSource && a.preconditionEvaluators == [] && a.implementationHandler == Just(Throw(e))
    requires b.inputSource == FromOp(a) && b.preconditionEvaluators == [InspectInput] && b.implementationHandler.Just?
    requires c.inputSource == FromOp(b) && c.preconditionEvaluators == [InspectInput] && c.implementationHandler.Just?
    modifies a, b, c
    ensures a.Valid() && b.Valid() && c.Valid()
    ensures b.bodyRuns == 0 && c.bodyRuns == 0 && b.cancelled && c.cancelled
    ensures a.state == Finished && b.state == Finished && c.state == Finished
    ensures c.output == None(AsyncOpValueErrorType.Failed(e))
  {
    a.Start();
    InjectedEvaluatorAlone(a.output);
    b.Start();
    InjectedEvaluatorAlone(b.output);
    c.Start();
  }

  /**
   * A failure propagates down the whole pipeline: after the first of three
   * stages throws, each later stage's injected evaluator fails it on its
   * input, neither later body runs, and the final handler receives the
   * first stage's error.
   */
  method ThreeStagePipelineStopsAtFailure(x: int, y: int, z: int, e: Error)
    returns (laterBodyRuns: nat, bCancelled: bool, cCancelled: bool, delivered: seq<AsyncOpResult<int>>)
    ensures laterBodyRuns == 0 && bCancelled && cCancelled
    ensures delivered == [AsyncOpResult.Failed(e)]
  {
    var queue, a, b, c := BuildThreeStagePipeline(x, Throw(e), FinishWith(Some(y)), FinishWith(Some(z)));
    var last := queue.submitted[3];
    RunFailingStages(a, b, c, e);
    assert Outcomes([], c.output) == [];
    last.Start();
    laterBodyRuns, bCancelled, cCancelled := b.bodyRuns + c.bodyRuns, b.cancelled, c.cancelled;
    delivered := last.completionResults;
  }
}
