/** Two runs in which `WaitForMessage` returns false against its documentation. */
module WaitWitness {
  import opened Wrappers
  import opened NotifyModel
  import opened WaitForMessage
  import W = NotifyWitness

  /** A script of happenings, played from the front. */
  datatype Story = End | Then(e: Happening, rest: Story)

  function Tell(w: Waiter, story: Story): Waiter
    decreases story
  {
    match story
    case End => w
    case Then(e, rest) => Tell(Happen(w, e), rest)
  }

  function Events(story: Story): seq<Happening>
    decreases story
  {
    match story
    case End => []
    case Then(e, rest) => [e] + Events(rest)
  }

  function Pub(n: nat, rest: Story): Story {
    if n == 0 then rest else Then(PubMove, Pub(n - 1, rest))
  }

  function Cli(n: nat, rest: Story): Story {
    if n == 0 then rest else Then(CliMove, Cli(n - 1, rest))
  }

  lemma {:induction false} RunCat(w: Waiter, a: seq<Happening>, b: seq<Happening>)
    ensures Run(w, a + b) == Run(Run(w, a), b)
    decreases |b|
  {
    if b == [] {
      assert a + b == a;
    } else {
      assert (a + b)[..|a + b| - 1] == a + b[..|b| - 1];
      RunCat(w, a, b[..|b| - 1]);
    }
  }

  lemma {:induction false} TellIsRun(w: Waiter, story: Story)
    ensures Tell(w, story) == Run(w, Events(story))
    decreases story
  {
    if story.Then? {
      TellIsRun(Happen(w, story.e), story.rest);
      RunCat(w, [story.e], Events(story.rest));
      assert [story.e][..0] == [];
      assert Run(w, [story.e]) == Happen(Run(w, []), story.e);
    }
  }

  lemma Continue(w: Waiter, events: seq<Happening>, story: Story) returns (all: seq<Happening>)
    ensures Run(w, all) == Tell(Run(w, events), story)
  {
    all := events + Events(story);
    RunCat(w, events, Events(story));
    TellIsRun(Run(w, events), story);
  }

  const BEGIN: Waiter := Waiter(W.START, Outside, None)

  const ASKING: Waiter := Waiter(State(
    Shared(Disabled, None, false, None, false, false, false, false), Data([], 8, Consuming, false),
    W.IDLE,
    Local(InNotifyRequested(ReadFirst), Disabled, false, FromInstall, 0, 0, false),
    History(1, multiset{}, {}, [], [], 0, 0, 0, 0, 0, false, false, false)), Arming, None)

  const ARMING: Waiter := Waiter(State(
    Shared(Configuring, Some(0), false, None, false, false, false, false), Data([], 8, Consuming, false),
    W.IDLE,
    Local(InNotifyConfigured(ReadNow), Disabled, false, FromInstall, 0, 0, false),
    History(1, multiset{}, {}, [], [], 0, 0, 0, 1, 0, false, false, false)), Arming, None)

  const TESTED: Waiter := Waiter(State(
    Shared(Configuring, Some(0), false, None, false, false, false, false), Data([], 8, Consuming, false),
    W.IDLE,
    Local(InNotifyConfigured(TryTested), Configuring, true, FromInstall, 0, 0, false),
    History(1, multiset{}, {}, [], [], 0, 0, 0, 1, 0, false, false, false)), Arming, None)

  /** The trigger of the first call is live. */
  const ARMED: Waiter := Waiter(State(
    Shared(NothingToNotify, Some(0), false, None, false, false, false, false), Data([], 8, Consuming, false),
    W.IDLE,
    Local(Idle, Configuring, true, FromInstall, 0, 0, false),
    History(1, multiset{}, {}, [], [], 0, 0, 0, 2, 0, false, false, false)), SecondPop, None)

  /** A message arrives in the interim; its PushComplete has not started. */
  const PUSHED: Waiter := Waiter(State(
    Shared(NothingToNotify, Some(0), false, None, false, false, false, false), Data([1], 8, Consuming, false),
    Local(InPushComplete(Read), Disabled, false, FromPush, 0, 0, false),
    Local(Idle, Configuring, true, FromInstall, 0, 0, false),
    History(1, multiset{}, {}, [1], [], 0, 0, 0, 2, 0, false, false, false)), SecondPop, None)

  /** The first call returns it. */
  const READ: Waiter := Waiter(State(
    Shared(NothingToNotify, Some(0), false, None, false, false, false, false), Data([], 8, Consuming, false),
    Local(InPushComplete(Read), Disabled, false, FromPush, 0, 0, false),
    Local(Idle, Configuring, true, FromInstall, 0, 0, false),
    History(1, multiset{}, {}, [1], [1], 0, 0, 0, 2, 0, false, false, false)), Outside, Some(true))

  /** The client calls again. */
  const ASKINGAGAIN: Waiter := Waiter(State(
    Shared(NothingToNotify, Some(0), false, None, false, false, false, false), Data([], 8, Consuming, false),
    Local(InPushComplete(Read), Disabled, false, FromPush, 0, 0, false),
    Local(InNotifyRequested(ReadFirst), Configuring, true, FromInstall, 0, 1, false),
    History(2, multiset{}, {}, [1], [1], 0, 0, 0, 2, 0, false, false, false)), Arming, Some(true))

  const STORING: Waiter := Waiter(State(
    Shared(Configuring, Some(0), false, None, false, false, false, false), Data([], 8, Consuming, false),
    Local(InPushComplete(Read), Disabled, false, FromPush, 0, 0, false),
    Local(InOnNextLive(WriteFn), NothingToNotify, true, FromInstall, 0, 1, false),
    History(2, multiset{}, {}, [1], [1], 0, 0, 0, 3, 0, false, false, false)), Arming, Some(true))

  const REARMING: Waiter := Waiter(State(
    Shared(Configuring, Some(1), false, None, false, false, false, false), Data([], 8, Consuming, false),
    Local(InPushComplete(Read), Disabled, false, FromPush, 0, 0, false),
    Local(InNotifyConfigured(ReadNow), NothingToNotify, true, FromInstall, 0, 1, false),
    History(2, multiset{}, {0}, [1], [1], 0, 0, 0, 3, 0, false, false, false)), Arming, Some(true))

  const RETESTED: Waiter := Waiter(State(
    Shared(Configuring, Some(1), false, None, false, false, false, false), Data([], 8, Consuming, false),
    Local(InPushComplete(Read), Disabled, false, FromPush, 0, 0, false),
    Local(InNotifyConfigured(TryTested), Configuring, true, FromInstall, 0, 1, false),
    History(2, multiset{}, {0}, [1], [1], 0, 0, 0, 3, 0, false, false, false)), Arming, Some(true))

  const REARMED: Waiter := Waiter(State(
    Shared(NothingToNotify, Some(1), false, None, false, false, false, false), Data([], 8, Consuming, false),
    Local(InPushComplete(Read), Disabled, false, FromPush, 0, 0, false),
    Local(Idle, Configuring, true, FromInstall, 0, 1, false),
    History(2, multiset{}, {0}, [1], [1], 0, 0, 0, 4, 0, false, false, false)), Arming, Some(true))

  /** The second call waits on its promise. */
  const WAITING: Waiter := Waiter(State(
    Shared(NothingToNotify, Some(1), false, None, false, false, false, false), Data([], 8, Consuming, false),
    Local(InPushComplete(Read), Disabled, false, FromPush, 0, 0, false),
    Local(Idle, Configuring, true, FromInstall, 0, 1, false),
    History(2, multiset{}, {0}, [1], [1], 0, 0, 0, 4, 0, false, false, false)), Waiting, Some(true))

  const STALE: Waiter := Waiter(State(
    Shared(Publishing, Some(1), false, None, false, false, false, false), Data([], 8, Consuming, false),
    Local(InPublishNext(Call), NothingToNotify, false, FromPush, 0, 0, false),
    Local(Idle, Configuring, true, FromInstall, 0, 1, false),
    History(2, multiset{}, {0}, [1], [1], 0, 1, 0, 4, 0, false, false, false)), Waiting, Some(true))

  /** The PushComplete of the message read long ago fires the new trigger. */
  const FIRED: Waiter := Waiter(State(
    Shared(Publishing, Some(1), false, None, false, false, false, false), Data([], 8, Consuming, false),
    Local(InPublishNext(Running), NothingToNotify, false, FromPush, 0, 0, false),
    Local(Idle, Configuring, true, FromInstall, 0, 1, false),
    History(2, multiset{1}, {0}, [1], [1], 1, 1, 0, 4, 0, false, false, false)), FinalPop, Some(true))

  /** The second check of a call has found nothing. */
  const CAUGHT: Waiter := Waiter(State(
    Shared(NothingToNotify, Some(0), false, None, false, false, false, false), Data([], 8, Consuming, false),
    W.IDLE,
    Local(Idle, Configuring, true, FromInstall, 0, 0, false),
    History(1, multiset{}, {}, [], [], 0, 0, 0, 2, 0, false, false, false)), AskAgain, None)

  const ARRIVED: Waiter := Waiter(State(
    Shared(Publishing, Some(0), false, None, false, false, false, false), Data([1], 8, Consuming, false),
    Local(InPublishNext(Running), NothingToNotify, false, FromPush, 0, 0, false),
    Local(Idle, Configuring, true, FromInstall, 0, 0, false),
    History(1, multiset{0}, {}, [1], [], 1, 1, 0, 2, 0, false, false, false)), AskAgain, None)

  const RETIRED: Waiter := Waiter(State(
    Shared(Publishing, None, false, None, false, false, false, false), Data([1], 8, Consuming, false),
    Local(InPublishComplete(Try), Publishing, false, FromPush, 0, 0, false),
    Local(Idle, Configuring, true, FromInstall, 0, 0, false),
    History(1, multiset{0}, {}, [1], [], 1, 1, 0, 2, 0, false, false, false)), AskAgain, None)

  /** A message and Done arrive before the client asks whether all is done. */
  const OVER: Waiter := Waiter(State(
    Shared(Disabled, None, false, None, false, false, false, false), Data([1], 8, Finished, false),
    Local(InPushComplete(Read), Publishing, false, FromDone, 0, 0, false),
    Local(Idle, Configuring, true, FromInstall, 0, 0, false),
    History(1, multiset{0}, {}, [1], [], 1, 2, 0, 2, 0, false, false, false)), AskAgain, None)

  lemma AskingAfter()
    ensures Tell(BEGIN, Then(StartWait, Cli(3, End))) == ASKING
  {
  }

  lemma ArmingAfter()
    ensures Tell(ASKING, Cli(4, End)) == ARMING
  {
  }

  lemma ArmedAfter()
    ensures Tell(TESTED, Cli(3, End)) == ARMED
  {
  }

  lemma TestedAfter()
    ensures Tell(ARMING, Cli(2, End)) == TESTED
  {
  }

  lemma PushedAfter()
    ensures Tell(ARMED, Then(Publish(1), End)) == PUSHED
  {
  }

  lemma ReadAfter()
    ensures Tell(PUSHED, Cli(1, End)) == READ
  {
  }

  lemma AskingagainAfter()
    ensures Tell(READ, Then(StartWait, Cli(3, End))) == ASKINGAGAIN
  {
  }

  lemma RearmingAfter()
    ensures Tell(STORING, Cli(2, End)) == REARMING
  {
  }

  lemma StoringAfter()
    ensures Tell(ASKINGAGAIN, Cli(2, End)) == STORING
  {
  }

  lemma RetestedAfter()
    ensures Tell(REARMING, Cli(2, End)) == RETESTED
  {
  }

  lemma RearmedAfter()
    ensures Tell(RETESTED, Cli(2, End)) == REARMED
  {
  }

  lemma WaitingAfter()
    ensures Tell(REARMED, Cli(3, End)) == WAITING
  {
  }

  lemma StaleAfter()
    ensures Tell(WAITING, Pub(3, End)) == STALE
  {
  }

  lemma FiredAfter()
    ensures Tell(STALE, Pub(1, Cli(1, End))) == FIRED
  {
  }

  lemma CaughtAfter()
    ensures Tell(ARMED, Cli(1, End)) == CAUGHT
  {
  }

  lemma ArrivedAfter()
    ensures Tell(CAUGHT, Then(Publish(1), Pub(4, End))) == ARRIVED
  {
  }

  lemma RetiredAfter()
    ensures Tell(ARRIVED, Pub(3, End)) == RETIRED
  {
  }

  lemma OverAfter()
    ensures Tell(RETIRED, Pub(2, Then(Done, End))) == OVER
  {
  }

  /** False, although the publisher is not done: the promise was set by the PushComplete of a
      message the previous call had already read. */
  lemma FalseThoughNotDone() returns (events: seq<Happening>)
    ensures var e := Run(BEGIN, events);
      e.at == Outside && e.returned == Some(false) && e.s.data.consumer == Consuming
  {
    events := Continue(BEGIN, [], Then(StartWait, Cli(3, End)));
    AskingAfter();
    events := Continue(BEGIN, events, Cli(4, End));
    ArmingAfter();
    events := Continue(BEGIN, events, Cli(2, End));
    TestedAfter();
    events := Continue(BEGIN, events, Cli(3, End));
    ArmedAfter();
    events := Continue(BEGIN, events, Then(Publish(1), End));
    PushedAfter();
    events := Continue(BEGIN, events, Cli(1, End));
    ReadAfter();
    events := Continue(BEGIN, events, Then(StartWait, Cli(3, End)));
    AskingagainAfter();
    events := Continue(BEGIN, events, Cli(2, End));
    StoringAfter();
    events := Continue(BEGIN, events, Cli(2, End));
    RearmingAfter();
    events := Continue(BEGIN, events, Cli(2, End));
    RetestedAfter();
    events := Continue(BEGIN, events, Cli(2, End));
    RearmedAfter();
    events := Continue(BEGIN, events, Cli(3, End));
    WaitingAfter();
    events := Continue(BEGIN, events, Pub(3, End));
    StaleAfter();
    events := Continue(BEGIN, events, Pub(1, Cli(1, End)));
    FiredAfter();
    events := Continue(BEGIN, events, Cli(1, End));
    FiredReturns();
  }

  lemma FiredReturns()
    ensures var e := Tell(FIRED, Cli(1, End));
      e.at == Outside && e.returned == Some(false) && e.s.data.consumer == Consuming
  {
  }

  /** False, although a message is waiting to be read: it and Done arrived between the second look
      at the queue and the second look at the state. */
  lemma FalseThoughUnread() returns (events: seq<Happening>)
    ensures var e := Run(BEGIN, events);
      e.at == Outside && e.returned == Some(false) && e.s.data.queue == [1]
  {
    events := Continue(BEGIN, [], Then(StartWait, Cli(3, End)));
    AskingAfter();
    events := Continue(BEGIN, events, Cli(4, End));
    ArmingAfter();
    events := Continue(BEGIN, events, Cli(2, End));
    TestedAfter();
    events := Continue(BEGIN, events, Cli(3, End));
    ArmedAfter();
    events := Continue(BEGIN, events, Cli(1, End));
    CaughtAfter();
    events := Continue(BEGIN, events, Then(Publish(1), Pub(4, End)));
    ArrivedAfter();
    events := Continue(BEGIN, events, Pub(3, End));
    RetiredAfter();
    events := Continue(BEGIN, events, Pub(2, Then(Done, End)));
    OverAfter();
    events := Continue(BEGIN, events, Cli(1, End));
    OverReturns();
  }

  lemma OverReturns()
    ensures var e := Tell(OVER, Cli(1, End));
      e.at == Outside && e.returned == Some(false) && e.s.data.queue == [1]
  {
  }
}
