/** `IPipeConsumer`: the state that `Done` and `Abort` compete to leave CONSUMING for. */
module ConsumerStates {
  import opened Wrappers
  import opened NotifyModel

  /** The state after others have tried to change it from CONSUMING, one after the other: the first
      settles it. */
  function Settled(state: ConsumerState, tries: seq<ConsumerState>): ConsumerState {
    if state.Consuming? && tries != [] then tries[0] else state
  }

  class PipeConsumer {
    var state: ConsumerState
    var notified: nat // calls of OnStateChange

    constructor ()
      ensures state == Consuming && notified == 0
    {
      state, notified := Consuming, 0;
    }

    /** Other threads' compare-exchanges, when `k` of this thread's are done. */
    method Meanwhile(schedule: seq<seq<ConsumerState>>, k: nat)
      requires Finals(schedule)
      modifies this`state
      ensures state == if k < |schedule| then Settled(old(state), schedule[k]) else old(state)
    {
      if k < |schedule| && state == Consuming && schedule[k] != [] {
        state := schedule[k][0];
      }
    }

    /** The compare-exchange is repeated until it fails: success leaves `current` as it was, so the loop
        looks once more and then finds the new state. */
    method ChangeState(to: ConsumerState, schedule: seq<seq<ConsumerState>>) returns (ok: bool)
      requires to != Consuming && Finals(schedule)
      modifies this
      ensures state != Consuming && (old(state) != Consuming ==> state == old(state))
      ensures old(state) == Consuming ==>
        state == if |schedule| > 0 && schedule[0] != [] then schedule[0][0] else to
      ensures ok <==> state == to
      ensures notified == old(notified) + if ok then 1 else 0
    {
      var from, current, k := Consuming, Consuming, 0;
      while current == from
        invariant notified == old(notified)
        invariant k == 0 ==> state == old(state) && current == from
        invariant k > 0 ==> state != Consuming && (current == from || current == state)
        invariant old(state) != Consuming ==> state == old(state)
        invariant k > 0 && old(state) == Consuming ==>
          state == if |schedule| > 0 && schedule[0] != [] then schedule[0][0] else to
        decreases current == from, state == Consuming, k == 0
      {
        Meanwhile(schedule, k);
        if state == current { state := to; } else { current := state; }
        k := k + 1;
      }
      ok := current == to;
      if ok {
        notified := notified + 1; // OnStateChange()
      }
    }

    /** Loses only to a client that has aborted first, and then changes nothing. */
    method Done(schedule: seq<seq<ConsumerState>>)
      requires Finals(schedule)
      modifies this
      ensures state == Finished || state == Aborting
      ensures old(state) != Consuming ==> state == old(state)
      ensures notified == old(notified) + if state == Finished then 1 else 0
    {
      var _ := ChangeState(Finished, schedule);
    }

    method Abort(schedule: seq<seq<ConsumerState>>)
      requires Finals(schedule)
      modifies this
      ensures state == Finished || state == Aborting
      ensures old(state) != Consuming ==> state == old(state)
      ensures notified == old(notified) + if state == Aborting then 1 else 0
    {
      var _ := ChangeState(Aborting, schedule);
    }
  }

  predicate Finals(schedule: seq<seq<ConsumerState>>) {
    forall i, j :: 0 <= i < |schedule| && 0 <= j < |schedule[i]| ==> schedule[i][j] != Consuming
  }
}
