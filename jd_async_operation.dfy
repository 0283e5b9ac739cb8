/**
 * JDAsyncOperation and JDAsyncClosureOperation (Pod/Classes/AsyncOpKit.swift):
 * an asynchronous NSOperation kept by two private flags, `_executing` and
 * `_finished`, whose `start` hands `main` to a dispatch queue; and a subclass
 * whose `main` runs a dictionary of closures one after another, each one
 * started when the previous one marks itself finished.
 *
 * The dispatch queue is modelled by a count of blocks handed to it and a
 * method that runs one; the completion queue by a log of the results each
 * completion handler was given.
 */
module JDAsyncOperationModel {
  import opened AsyncOpTypes

  /** Results an operation's subclass passes to `finish`: the JDAsyncOperationResults protocol's error and cancelled flag. */
  datatype SuppliedResults = SuppliedResults(error: Maybe<Error>, cancelled: bool)

  /** What a completion handler was given: the caller's results, or default results built for the operation. */
  datatype DeliveredResults = Supplied(results: SuppliedResults) | Default(defaults: DefaultAsyncOperationResults)

  /** `DefaultAsyncOperationResults`: no error, and a cancelled flag read from the operation whenever it is asked. */
  class DefaultAsyncOperationResults {
    const operation: JDAsyncOperation

    constructor (op: JDAsyncOperation)
      ensures operation == op
    {
      operation := op;
    }

    /** The default results never carry an error. */
    function Error(): (r: Maybe<AsyncOpTypes.Error>)
      ensures r.Nothing?
    {
      Nothing
    }

    /** Read from the operation each time: the default results are cancelled exactly when their operation is. */
    predicate Cancelled()
      reads operation
      ensures Cancelled() <==> operation.cancelled
    {
      operation.cancelled
    }
  }

  class JDAsyncOperation {
    var cancelled: bool            // NSOperation's cancelled flag
    var executing: bool            // `_executing`
    var finished: bool             // `_finished`
    var completionHandler: bool    // a completion handler is stored
    var delivered: seq<DeliveredResults>
    var pendingBlocks: nat         // blocks `start` handed to the dispatch queue that have not run yet

    /** The handler fires at most once, and only once the operation finished; a finished operation is not executing. */
    ghost predicate Valid()
      reads this
    {
      && |delivered| <= (if finished then 1 else 0)
      && (finished ==> !executing)
    }

    constructor ()
      ensures Valid()
      ensures !cancelled && !executing && !finished && !completionHandler
      ensures delivered == [] && pendingBlocks == 0
    {
      cancelled := false;
      executing := false;
      finished := false;
      completionHandler := false;
      delivered := [];
      pendingBlocks := 0;
    }

    /** The completion handler, given `results` (nothing: the default results), is what `d` shows. */
    predicate DeliveredAs(d: DeliveredResults, results: Maybe<SuppliedResults>)
    {
      match results {
        case Just(r) => d == Supplied(r)
        case Nothing => d.Default? && d.defaults.operation == this
      }
    }

    /**
     * What `finish(results)` leaves: the operation finished and not
     * executing; if it was finished already, nothing else changed; otherwise a
     * stored handler was cleared and given `results` exactly once.
     */
    twostate predicate FinishTookEffect(results: Maybe<SuppliedResults>)
      reads this
    {
      && finished && !executing
      && (old(finished) ==> completionHandler == old(completionHandler) && delivered == old(delivered))
      && (!old(finished) ==> !completionHandler)
      && (!old(finished) && !old(completionHandler) ==> delivered == old(delivered))
      && (!old(finished) && old(completionHandler) ==>
            |delivered| == |old(delivered)| + 1
            && delivered[..|old(delivered)|] == old(delivered)
            && DeliveredAs(delivered[|old(delivered)|], results))
    }

    method SetCompletionHandler()
      modifies this`completionHandler
      ensures completionHandler
    {
      completionHandler := true;
    }

    /** `finish(operationResults)`: a no-op once finished; otherwise fires a stored handler once and finishes. */
    method Finish(results: Maybe<SuppliedResults>)
      requires Valid()
      modifies this`executing, this`finished, this`completionHandler, this`delivered
      ensures Valid()
      ensures FinishTookEffect(results)
      ensures old(finished) ==> unchanged(this)
    {
      if finished { return; }
      if completionHandler {
        completionHandler := false;
        var d: DeliveredResults;
        match results {
          case Just(r) => d := Supplied(r);
          case Nothing => var defaults := new DefaultAsyncOperationResults(this); d := Default(defaults);
        }
        delivered := delivered + [d];
      }
      executing := false;
      finished := true;
    }

    /** The default `handleCancellation`: finish with the default results. */
    method HandleCancellation()
      requires Valid()
      modifies this`executing, this`finished, this`completionHandler, this`delivered
      ensures Valid()
      ensures FinishTookEffect(Nothing)
    {
      Finish(Nothing);
    }

    /**
     * `cancel`: a no-op once cancelled; otherwise sets the flag and, if the
     * operation is executing, handles the cancellation (which finishes it).
     */
    method Cancel()
      requires Valid()
      modifies this`cancelled, this`executing, this`finished, this`completionHandler, this`delivered
      ensures Valid()
      ensures cancelled
      ensures old(cancelled) ==> unchanged(this)
      ensures !old(cancelled) && old(executing) ==> FinishTookEffect(Nothing)
      ensures !old(cancelled) && !old(executing) ==>
                unchanged(this`executing, this`finished, this`completionHandler, this`delivered)
    {
      if cancelled { return; }
      cancelled := true;
      if executing {
        HandleCancellation();
      }
    }

    /**
     * `start`: a cancelled operation finishes at once; a finished one is left
     * alone; otherwise one block is handed to the dispatch queue and the
     * operation becomes executing.
     */
    method Start()
      requires Valid()
      modifies this`executing, this`finished, this`completionHandler, this`delivered, this`pendingBlocks
      ensures Valid()
      ensures old(cancelled) ==> FinishTookEffect(Nothing) && pendingBlocks == old(pendingBlocks)
      ensures !old(cancelled) && old(finished) ==> unchanged(this)
      ensures !old(cancelled) && !old(finished) ==>
                && executing && pendingBlocks == old(pendingBlocks) + 1
                && unchanged(this`finished, this`completionHandler, this`delivered)
    {
      if cancelled {
        Finish(Nothing);
        return;
      }
      if finished { return; }
      pendingBlocks := pendingBlocks + 1;
      executing := true;
    }

    /**
     * The dispatched block, up to the call of `main`: if the operation is
     * neither finished nor cancelled by now, it asks for `main` to run
     * (`runMain`, run by the caller, since subclasses replace `main`);
     * otherwise it finishes the operation.
     */
    method RunDispatchedBlock() returns (runMain: bool)
      requires Valid() && pendingBlocks > 0
      modifies this`executing, this`finished, this`completionHandler, this`delivered, this`pendingBlocks
      ensures Valid()
      ensures pendingBlocks == old(pendingBlocks) - 1
      ensures runMain <==> !old(finished) && !old(cancelled)
      ensures runMain ==> unchanged(this`executing, this`finished, this`completionHandler, this`delivered)
      ensures !runMain ==> FinishTookEffect(Nothing)
    {
      pendingBlocks := pendingBlocks - 1;
      runMain := !finished && !cancelled;
      if !runMain {
        Finish(Nothing);
      }
    }

    /** The default `main`: finish with the default results. */
    method RunMain()
      requires Valid()
      modifies this`executing, this`finished, this`completionHandler, this`delivered
      ensures Valid()
      ensures FinishTookEffect(Nothing)
    {
      Finish(Nothing);
    }

    /** The whole dispatched block of an operation that keeps the default `main`: it always ends finished. */
    method RunStartBlock()
      requires Valid() && pendingBlocks > 0
      modifies this`executing, this`finished, this`completionHandler, this`delivered, this`pendingBlocks
      ensures Valid()
      ensures pendingBlocks == old(pendingBlocks) - 1
      ensures FinishTookEffect(Nothing)
    {
      var runMain := RunDispatchedBlock();
      if runMain {
        RunMain();
      }
    }

    /** `getResults`: default results for this operation, with no error. */
    method GetResults() returns (r: DefaultAsyncOperationResults)
      ensures r.operation == this && r.Error() == Nothing
    {
      r := new DefaultAsyncOperationResults(this);
    }
  }

  /** The consecutive identifiers 0, 1, ..., n - 1. */
  function Identifiers(n: nat): (ids: seq<int>)
    ensures |ids| == n && forall i :: 0 <= i < n ==> ids[i] == i
  {
    seq(n, i => i)
  }

  /** The closures of `cs` whose identifier is at least `from`, keyed by their identifier. */
  function PendingFrom<C>(cs: seq<C>, from: nat): (m: map<int, C>)
    ensures forall k :: k in m <==> from <= k < |cs|
    ensures forall k :: from <= k < |cs| ==> m[k] == cs[k]
  {
    map k | from <= k < |cs| :: cs[k]
  }

  /**
   * `JDAsyncClosureOperation`: the JDAsyncOperation part is `base`. Closures
   * are data; `invoked` lists the identifiers closures were invoked with, in
   * order. An invoked closure signals its end by calling
   * `MarkClosureWithIdentifierFinished` with its identifier.
   */
  class JDAsyncClosureOperation<C> {
    const base: JDAsyncOperation
    var closures: map<int, C>
    var invoked: seq<int>

    constructor ()
      ensures fresh(base) && base.Valid()
      ensures !base.cancelled && !base.executing && !base.finished && !base.completionHandler
      ensures base.delivered == [] && base.pendingBlocks == 0
      ensures closures == map[] && invoked == []
    {
      base := new JDAsyncOperation();
      closures := map[];
      invoked := [];
    }

    /** `addAsyncClosure`: stores the closure under the current number of stored closures, replacing any closure there. */
    method AddAsyncClosure(c: C)
      modifies this`closures
      ensures closures == old(closures)[|old(closures)| := c]
    {
      var key := |closures|;
      closures := closures[key := c];
    }

    /**
     * `performClosureWithIdentifier`: a stored closure is removed and then
     * invoked; with none under that identifier, the operation finishes.
     */
    method PerformClosureWithIdentifier(id: int)
      requires base.Valid()
      modifies this`closures, this`invoked,
               base`executing, base`finished, base`completionHandler, base`delivered
      ensures base.Valid()
      ensures id in old(closures) ==>
                && closures == old(closures) - {id} && invoked == old(invoked) + [id]
                && unchanged(base)
      ensures id !in old(closures) ==>
                && closures == old(closures) && invoked == old(invoked)
                && base.FinishTookEffect(Nothing)
    {
      if id in closures {
        closures := closures - {id};
        invoked := invoked + [id];
      } else {
        base.Finish(Nothing);
      }
    }

    /** `markClosureWithIdentifierFinished`: performs the closure after the one that finished. */
    method MarkClosureWithIdentifierFinished(id: int)
      requires base.Valid()
      modifies this`closures, this`invoked,
               base`executing, base`finished, base`completionHandler, base`delivered
      ensures base.Valid()
      ensures id + 1 in old(closures) ==>
                && closures == old(closures) - {id + 1} && invoked == old(invoked) + [id + 1]
                && unchanged(base)
      ensures id + 1 !in old(closures) ==>
                && closures == old(closures) && invoked == old(invoked)
                && base.FinishTookEffect(Nothing)
    {
      PerformClosureWithIdentifier(id + 1);
    }

    /** `main`: performs closure 0. */
    method RunMain()
      requires base.Valid()
      modifies this`closures, this`invoked,
               base`executing, base`finished, base`completionHandler, base`delivered
      ensures base.Valid()
      ensures 0 in old(closures) ==>
                && closures == old(closures) - {0} && invoked == old(invoked) + [0]
                && unchanged(base)
      ensures 0 !in old(closures) ==>
                && closures == old(closures) && invoked == old(invoked)
                && base.FinishTookEffect(Nothing)
    {
      PerformClosureWithIdentifier(0);
    }

    /** The dispatched block of `start`, with this subclass's `main`. */
    method RunStartBlock()
      requires base.Valid() && base.pendingBlocks > 0
      modifies this`closures, this`invoked, base
      ensures base.Valid()
      ensures base.pendingBlocks == old(base.pendingBlocks) - 1
      ensures base.cancelled == old(base.cancelled)
      ensures !old(base.finished) && !old(base.cancelled) && 0 in old(closures) ==>
                && closures == old(closures) - {0} && invoked == old(invoked) + [0]
                && base.executing == old(base.executing) && !base.finished
                && base.completionHandler == old(base.completionHandler) && base.delivered == old(base.delivered)
      ensures !(!old(base.finished) && !old(base.cancelled) && 0 in old(closures)) ==>
                && closures == old(closures) && invoked == old(invoked)
                && base.FinishTookEffect(Nothing)
    {
      var runMain := base.RunDispatchedBlock();
      if runMain {
        RunMain();
      }
    }
  }

  /** Started normally, an operation is executing and not finished; its block then finishes it and fires the handler once. */
  method StartThenRun() returns (executingAfterStart: bool, finishedAfterStart: bool,
                                 executing: bool, finished: bool, deliveredCount: nat, aboutThisOperation: bool)
    ensures executingAfterStart && !finishedAfterStart
    ensures !executing && finished && deliveredCount == 1 && aboutThisOperation
  {
    var op := new JDAsyncOperation();
    op.SetCompletionHandler();
    op.Start();
    executingAfterStart, finishedAfterStart := op.executing, op.finished;
    op.RunStartBlock();
    executing, finished, deliveredCount := op.executing, op.finished, |op.delivered|;
    aboutThisOperation := op.delivered[0].Default? && op.delivered[0].defaults.operation == op;
  }

  /**
   * Cancelled before start, an operation finishes on start without handing
   * anything to the queue; the handler is given default results for it,
   * which say it was cancelled and carry no error.
   */
  method CancelBeforeStart() returns (cancelled: bool, finished: bool, executing: bool,
                                      blocks: nat, reportsCancelled: bool, reportsError: bool)
    ensures cancelled && finished && !executing && blocks == 0
    ensures reportsCancelled && !reportsError
  {
    var op := new JDAsyncOperation();
    op.SetCompletionHandler();
    op.Cancel();
    op.Start();
    cancelled, finished, executing, blocks := op.cancelled, op.finished, op.executing, op.pendingBlocks;
    var d := op.delivered[0];
    reportsCancelled, reportsError := d.defaults.Cancelled(), d.defaults.Error().Just?;
  }

  /** Starting an operation that already finished changes nothing: it stays finished and not executing. */
  method StartAfterFinished() returns (finished: bool, executing: bool, blocks: nat, deliveredCount: nat)
    ensures finished && !executing && blocks == 0 && deliveredCount == 1
  {
    var op := new JDAsyncOperation();
    op.SetCompletionHandler();
    op.Start();
    op.RunStartBlock();
    op.Start();
    finished, executing, blocks, deliveredCount := op.finished, op.executing, op.pendingBlocks, |op.delivered|;
  }

  /**
   * Cancelled while executing, an operation is finished at once by the
   * default cancellation handling; the block still queued then finds it
   * finished and changes nothing more.
   */
  method CancelWhileExecuting() returns (finished: bool, executing: bool, deliveredCount: nat)
    ensures finished && !executing && deliveredCount == 1
  {
    var op := new JDAsyncOperation();
    op.SetCompletionHandler();
    op.Start();
    op.Cancel();
    op.RunStartBlock();
    finished, executing, deliveredCount := op.finished, op.executing, |op.delivered|;
  }

  /** Default results obtained before a cancellation report it afterwards: their cancelled flag is read live. */
  method DefaultResultsFollowCancellation() returns (before: bool, after: bool)
    ensures !before && after
  {
    var op := new JDAsyncOperation();
    var r := op.GetResults();
    before := r.Cancelled();
    op.Cancel();
    after := r.Cancelled();
  }

  /**
   * Closures added while the operation is idle get the identifiers 0, 1, ...
   * in order; once started, each closure marking itself finished starts the
   * next, so they run in the order they were added, and the operation
   * finishes after the last one.
   */
  method RunClosuresInOrder<C>(cs: seq<C>) returns (ran: seq<int>, finished: bool, pending: nat)
    ensures ran == Identifiers(|cs|)
    ensures finished && pending == 0
  {
    var op := ClosureOperationWith(cs);
    op.base.Start();
    op.RunStartBlock();
    if |cs| > 0 {
      assert op.closures == PendingFrom(cs, 1);
    }
    DrainClosures(op, cs);
    ran, finished, pending := op.invoked, op.base.finished, |op.closures|;
  }

  /** A fresh closure operation to which the closures of `cs` were added in order: closure i is stored under i. */
  method ClosureOperationWith<C>(cs: seq<C>) returns (op: JDAsyncClosureOperation<C>)
    ensures fresh(op) && fresh(op.base) && op.base.Valid()
    ensures !op.base.cancelled && !op.base.executing && !op.base.finished && op.base.pendingBlocks == 0
    ensures op.closures == PendingFrom(cs, 0) && op.invoked == []
  {
    op := new JDAsyncClosureOperation<C>();
    for i := 0 to |cs|
      modifies op
      invariant op.closures == PendingFrom(cs[..i], 0) && op.invoked == []
    {
      PendingFromSize(cs[..i], 0);
      op.AddAsyncClosure(cs[i]);
      assert cs[..i + 1][..i] == cs[..i];
    }
    assert cs[..|cs|] == cs;
  }

  /**
   * Each invoked closure marking itself finished, in turn: the rest of
   * `cs` runs in order after closure 0, and the operation then finishes.
   */
  method DrainClosures<C>(op: JDAsyncClosureOperation<C>, cs: seq<C>)
    requires op.base.Valid() && op.base.pendingBlocks == 0
    requires |cs| > 0 ==> op.invoked == [0] && op.closures == PendingFrom(cs, 1) && !op.base.finished
    requires |cs| == 0 ==> op.invoked == [] && op.closures == map[] && op.base.finished
    modifies op, op.base
    ensures op.invoked == Identifiers(|cs|) && op.closures == map[] && op.base.finished
  {
    var n := 0;
    while n < |cs|
      invariant 0 <= n <= |cs|
      invariant op.base.Valid() && op.base.pendingBlocks == 0
      invariant n < |cs| ==> op.invoked == Identifiers(n + 1) && op.closures == PendingFrom(cs, n + 1) && !op.base.finished
      invariant n == |cs| ==> op.invoked == Identifiers(|cs|) && op.closures == map[] && op.base.finished
    {
      op.MarkClosureWithIdentifierFinished(n);
      n := n + 1;
    }
  }

  /** The closures of `cs` from identifier `from` on number |cs| - from. */
  lemma {:induction false} PendingFromSize<C>(cs: seq<C>, from: nat)
    requires from <= |cs|
    ensures |PendingFrom(cs, from)| == |cs| - from
    decreases |cs| - from
  {
    if from < |cs| {
      PendingFromSize(cs, from + 1);
      assert PendingFrom(cs, from).Keys == PendingFrom(cs, from + 1).Keys + {from};
    } else {
      assert PendingFrom(cs, from).Keys == {};
    }
  }

  /**
   * Adding a closure after another one ran reuses an identifier still in
   * use: with closures 0 and 1 stored and 0 performed, the next closure is
   * stored under 1 and replaces the closure that was waiting there.
   */
  method AddAfterPerformReplacesPending<C>(a: C, b: C, c: C) returns (stored: map<int, C>)
    ensures stored == map[1 := c]
  {
    var op := new JDAsyncClosureOperation<C>();
    op.AddAsyncClosure(a);
    op.AddAsyncClosure(b);
    op.PerformClosureWithIdentifier(0);
    assert op.closures == map[1 := b];
    op.AddAsyncClosure(c);
    stored := op.closures;
  }
}
