/** `HandleUpdates` as it stands: a loop that pops a slice of messages while the publisher goes on, and
    then posts the job that will install the next trigger. */
module Consuming {
  import opened Wrappers
  import opened NotifyModel
  import opened PipeSubscribers
  import opened WorkerThreads
  import Composition
  import W = WorkerModel

  lemma PublisherLeavesClient(s: State, a: Action)
    requires Composition.OfPublisher(a)
    ensures Apply(s, a).cli == s.cli && Apply(s, a).h.popped == s.h.popped && Apply(s, a).data.cap == s.data.cap
  {
  }

  /** The publisher thread runs for a while. */
  method PublisherRuns(client: PipeSubscriber, actions: seq<Action>)
    requires client.Valid() && client.Alive()
    modifies client
    ensures client.Valid() && client.Alive() && client.cli == old(client.cli) && client.h.popped == old(client.h.popped)
  {
    for i := 0 to |actions|
      invariant client.Valid() && client.Alive() && client.cli == old(client.cli)
                && client.h.popped == old(client.h.popped)
    {
      if Composition.OfPublisher(actions[i]) {
        var s := Apply(client.Now(), actions[i]);
        PublisherLeavesClient(client.Now(), actions[i]);
        if !HasThrown(s) { client.Become(s, actions[i]); }
      }
    }
  }

  /** `handled` is what the user's task was called with.  Either the slice is full or the queue was found
      empty.  `schedule` says what the publisher does before each `GetNextMessage`. */
  method HandleUpdates(client: PipeSubscriber, worker: WorkerThread, maxSliceSize: nat, schedule: seq<seq<Action>>)
    returns (handled: seq<Message>)
    requires client.Valid() && client.Alive() && AtUserCode(client.cli)
    requires W.Valid(worker.Now()) && !worker.destroyed
    modifies client, worker
    ensures client.Valid() && client.Alive() && client.cli == old(client.cli)
    ensures client.h.popped == old(client.h.popped) + handled
    ensures |handled| <= maxSliceSize && (|handled| < maxSliceSize ==> client.messages == [])
    ensures W.Valid(worker.Now()) && worker.Now() == W.Post(old(worker.Now()), false)
    ensures worker.workQueue == old(worker.workQueue)
            + if old(worker.state) == W.Aborted then [] else [W.Job(|old(worker.accepted)|, false)]
  {
    handled := [];
    var count := 0;
    while count < maxSliceSize
      invariant count == |handled| <= maxSliceSize
      invariant client.Valid() && client.Alive() && client.cli == old(client.cli)
      invariant client.h.popped == old(client.h.popped) + handled
      invariant worker.Now() == old(worker.Now()) && !worker.destroyed
    {
      if count < |schedule| { PublisherRuns(client, schedule[count]); }
      var m := client.GetNextMessage();
      if m.None? { break; }
      handled := handled + [m.value];
      count := count + 1;
    }
    var _ := worker.PostTask(false);
  }
}
