// The single in-flight refresh slot the auth middleware shares between
// requests. Concurrent callers are modelled as calls that interleave with
// the in-flight task's completion: a call either finds the slot occupied
// and waits for that task, or fills it with a task that runs the handler.
module RefreshSlot {
  import opened Wrappers

  class TokenRefreshState {
    var isRefreshing: bool
    /** The in-flight task, by id. */
    var refreshTask: Option<nat>
    /** The id the next task gets. */
    var nextTask: nat
    /** The value each finished task returned to everyone awaiting it. */
    var results: map<nat, bool>
    /** How many times the refresh handler has been started. */
    ghost var handlerRuns: nat

    ghost predicate Valid()
      reads this
    {
      (refreshTask.Some? ==> refreshTask.value < nextTask && refreshTask.value !in results) &&
      (forall t :: t in results ==> t < nextTask) &&
      isRefreshing == refreshTask.Some? &&
      handlerRuns == nextTask
    }

    constructor()
      ensures Valid() && refreshTask.None? && !isRefreshing && results == map[] && handlerRuns == 0
    {
      isRefreshing := false;
      refreshTask := None;
      nextTask := 0;
      results := map[];
      handlerRuns := 0;
    }

    /** `refreshToken(handler:)` up to its `await`: returns the refresh task the
      * caller waits for, and whether this call started it. */
    method RefreshToken() returns (task: nat, started: bool)
      requires Valid()
      modifies this
      ensures Valid()
      ensures started <==> old(refreshTask).None?
      ensures !started ==>
        task == old(refreshTask).value && handlerRuns == old(handlerRuns) &&
        refreshTask == old(refreshTask) && nextTask == old(nextTask)
      ensures started ==>
        task == old(nextTask) && refreshTask == Some(task) && isRefreshing &&
        handlerRuns == old(handlerRuns) + 1
      ensures results == old(results)
    {
      if refreshTask.Some? {
        return refreshTask.value, false;
      }
      task := nextTask;
      nextTask := nextTask + 1;
      refreshTask := Some(task);
      isRefreshing := true;
      handlerRuns := handlerRuns + 1;
      started := true;
    }

    /** The in-flight task's handler returns: its `defer` empties the slot,
      * and every caller awaiting that task receives `outcome`. */
    method Complete(outcome: bool)
      requires Valid() && refreshTask.Some?
      modifies this
      ensures Valid()
      ensures refreshTask.None? && !isRefreshing
      ensures results == old(results)[old(refreshTask).value := outcome]
      ensures handlerRuns == old(handlerRuns) && nextTask == old(nextTask)
    {
      results := results[refreshTask.value := outcome];
      refreshTask := None;
      isRefreshing := false;
    }

    /** What an awaiting caller receives once its task has finished. */
    function AwaitedValue(task: nat): (v: Option<bool>)
      reads this
      ensures v.Some? <==> task in results
    {
      if task in results then Some(results[task]) else None
    }
  }

  /** Two callers that overlap share one task and one handler run, both
    * receive that task's value, and the slot is empty afterwards. */
  method OverlappingCallers(outcome: bool) returns (first: nat, second: nat, state: TokenRefreshState)
    ensures first == second
    ensures state.handlerRuns == 1
    ensures state.AwaitedValue(first) == Some(outcome) && state.AwaitedValue(second) == Some(outcome)
    ensures state.refreshTask.None? && !state.isRefreshing
  {
    state := new TokenRefreshState();
    var startedFirst, startedSecond;
    first, startedFirst := state.RefreshToken();
    second, startedSecond := state.RefreshToken();
    state.Complete(outcome);
  }

  /** A caller arriving after completion starts a new task and runs the
    * handler again. */
  method SequentialCallers(firstOutcome: bool, secondOutcome: bool) returns (first: nat, second: nat, state: TokenRefreshState)
    ensures first != second
    ensures state.handlerRuns == 2
    ensures state.AwaitedValue(first) == Some(firstOutcome) && state.AwaitedValue(second) == Some(secondOutcome)
  {
    state := new TokenRefreshState();
    var started;
    first, started := state.RefreshToken();
    state.Complete(firstOutcome);
    second, started := state.RefreshToken();
    state.Complete(secondOutcome);
  }
}
