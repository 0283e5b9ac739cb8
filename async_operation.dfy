/**
 * AsyncOperation (AsyncOpKit/AsyncOperation.swift): an NSOperation whose
 * state moves Ready -> Executing -> Finished, and whose completion handler is
 * fired once, by the state's observer, when the state changes into Finished.
 * The completion queue is not modelled: firing the handler is recorded by a
 * counter.
 */
module AsyncOperationModel {

  datatype AsyncOperationState = Ready | Executing | Finished

  /** What the operation's `main` does: the default one finishes at once; a subclass's returns and finishes later. */
  datatype MainBehaviour = FinishAtOnce | FinishLater

  class AsyncOperation {
    var state: AsyncOperationState
    var cancelled: bool                // NSOperation's cancelled flag
    var completionHandler: bool        // a completion handler is stored
    var completionCalls: nat           // invocations of the completion handler
    var mainRuns: nat                  // invocations of main
    const mainBehaviour: MainBehaviour

    /** Finished is final, and the completion handler fired at most once, on entering Finished. */
    ghost predicate Valid()
      reads this
    {
      && completionCalls <= 1
      && (state != Finished ==> completionCalls == 0 && mainRuns <= 1)
      && mainRuns <= 1
      && (state == Ready ==> mainRuns == 0)
    }

    constructor (mainBehaviour: MainBehaviour)
      ensures Valid()
      ensures state == Ready && !cancelled && !completionHandler && completionCalls == 0 && mainRuns == 0
      ensures this.mainBehaviour == mainBehaviour
    {
      state := Ready;
      cancelled := false;
      completionHandler := false;
      completionCalls := 0;
      mainRuns := 0;
      this.mainBehaviour := mainBehaviour;
    }

    /** `executing`: an executing operation is not finished, and its handler has not fired. */
    predicate IsExecuting()
      reads this
      ensures IsExecuting() ==> !IsFinished()
      ensures Valid() && IsExecuting() ==> completionCalls == 0
    {
      state == AsyncOperationState.Executing
    }

    /** `finished`: the completion handler fires only once the operation is finished. */
    predicate IsFinished()
      reads this
      ensures Valid() && !IsFinished() ==> completionCalls == 0
    {
      state == AsyncOperationState.Finished
    }

    /** Storing a completion handler (the public property's setter). */
    method SetCompletionHandler()
      modifies this`completionHandler
      ensures completionHandler
    {
      completionHandler := true;
    }

    /** NSOperation's `cancel`: sets the flag only. */
    method Cancel()
      modifies this`cancelled
      ensures cancelled
    {
      cancelled := true;
    }

    /**
     * Assigning `state`, with its observer: when the state actually changes
     * into Finished, a stored completion handler is cleared, then fired.
     * Callers never leave Finished.
     */
    method SetState(newState: AsyncOperationState)
      requires Valid()
      requires state == Finished ==> newState == Finished
      requires newState == Ready ==> state == Ready
      modifies this`state, this`completionHandler, this`completionCalls
      ensures Valid()
      ensures state == newState
      ensures old(state) != Finished && newState == Finished && old(completionHandler) ==>
                !completionHandler && completionCalls == old(completionCalls) + 1
      ensures !(old(state) != Finished && newState == Finished && old(completionHandler)) ==>
                completionHandler == old(completionHandler) && completionCalls == old(completionCalls)
    {
      var oldState := state;
      state := newState;
      if oldState != state && state == Finished && completionHandler {
        completionHandler := false;
        completionCalls := completionCalls + 1;
      }
    }

    /** `finish`: enter Finished; the handler fires only if the operation was not finished already. */
    method Finish()
      requires Valid()
      modifies this`state, this`completionHandler, this`completionCalls
      ensures Valid()
      ensures state == Finished
      ensures old(state) != Finished && old(completionHandler) ==>
                !completionHandler && completionCalls == old(completionCalls) + 1
      ensures !(old(state) != Finished && old(completionHandler)) ==>
                completionHandler == old(completionHandler) && completionCalls == old(completionCalls)
    {
      SetState(Finished);
    }

    /** `main`: the default finishes at once; a subclass's main returns and leaves the operation executing. */
    method RunMain()
      requires Valid() && state == Executing && mainRuns == 0
      modifies this`state, this`completionHandler, this`completionCalls, this`mainRuns
      ensures Valid()
      ensures mainRuns == 1
      ensures mainBehaviour == FinishAtOnce ==>
                state == Finished && !completionHandler &&
                completionCalls == old(completionCalls) + (if old(completionHandler) then 1 else 0)
      ensures mainBehaviour == FinishLater ==>
                state == Executing && completionHandler == old(completionHandler) &&
                completionCalls == old(completionCalls)
    {
      mainRuns := mainRuns + 1;
      if mainBehaviour == FinishAtOnce {
        Finish();
      }
    }

    /**
     * `start`: must be called on a Ready operation. A cancelled operation
     * goes straight to Finished without running main; otherwise it becomes
     * Executing and runs main.
     */
    method Start()
      requires Valid() && state == Ready
      modifies this`state, this`completionHandler, this`completionCalls, this`mainRuns
      ensures Valid()
      ensures mainRuns == (if cancelled then 0 else 1)
      ensures state == (if !cancelled && mainBehaviour == FinishLater then Executing else Finished)
      ensures state == Finished ==>
                !completionHandler && completionCalls == (if old(completionHandler) then 1 else 0)
      ensures state == Executing ==> completionHandler == old(completionHandler) && completionCalls == 0
    {
      if !cancelled {
        SetState(Executing);
        RunMain();
      } else {
        Finish();
      }
    }
  }

  /** A cancelled operation finishes without running main, and its completion handler fires once. */
  method CancelledBeforeStart(mainBehaviour: MainBehaviour)
    returns (mainRuns: nat, finished: bool, executing: bool, completionCalls: nat)
    ensures mainRuns == 0 && finished && !executing && completionCalls == 1
  {
    var op := new AsyncOperation(mainBehaviour);
    op.SetCompletionHandler();
    op.Cancel();
    op.Start();
    mainRuns, finished, executing, completionCalls := op.mainRuns, op.IsFinished(), op.IsExecuting(), op.completionCalls;
  }

  /**
   * A subclass's main returns with the operation executing; its later
   * finish fires the handler once, and finishing again fires nothing more.
   */
  method FinishLaterThenAgain() returns (executingAfterStart: bool, finished: bool, completionCalls: nat)
    ensures executingAfterStart && finished && completionCalls == 1
  {
    var op := new AsyncOperation(FinishLater);
    op.SetCompletionHandler();
    op.Start();
    executingAfterStart := op.IsExecuting();
    op.Finish();
    op.Finish();
    finished, completionCalls := op.IsFinished(), op.completionCalls;
  }

  /** A handler stored after the operation finished is never fired by a later finish. */
  method HandlerStoredAfterFinish() returns (completionCalls: nat, stillStored: bool)
    ensures completionCalls == 0 && stillStored
  {
    var op := new AsyncOperation(FinishAtOnce);
    op.Start();
    op.SetCompletionHandler();
    op.Finish();
    completionCalls, stillStored := op.completionCalls, op.completionHandler;
  }
}
