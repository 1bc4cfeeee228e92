/** Short runs that reach what the comments of the source say cannot happen, one for each throw
    `NotifySafety` leaves open, and two that end with a client nobody will wake or notify. */
module NotifyWitness {
  import opened Wrappers
  import opened NotifyModel
  import opened NotifyInvariant
  import opened NotifySafety

  /** A script of actions, played from the front. */
  datatype Script = End | Then(a: Action, rest: Script)

  function Play(s: State, script: Script): State
    decreases script
  {
    match script
    case End => s
    case Then(a, rest) => Play(Apply(s, a), rest)
  }

  function Actions(script: Script): seq<Action>
    decreases script
  {
    match script
    case End => []
    case Then(a, rest) => [a] + Actions(rest)
  }

  /** `n` steps of one thread. */
  function Pub(n: nat, rest: Script): Script {
    if n == 0 then rest else Then(PubStep, Pub(n - 1, rest))
  }

  function Cli(n: nat, rest: Script): Script {
    if n == 0 then rest else Then(CliStep, Cli(n - 1, rest))
  }

  lemma {:induction false} PlayIsExec(s: State, script: Script)
    ensures Play(s, script) == Exec(s, Actions(script))
    decreases script
  {
    if script.Then? {
      PlayIsExec(Apply(s, script.a), script.rest);
      ExecCat(s, [script.a], Actions(script.rest));
      assert [script.a][..0] == [];
      assert Exec(s, [script.a]) == Apply(Exec(s, []), script.a);
    }
  }

  /** `actions` leads from `s` to some state; playing `script` from there leads further. */
  lemma Continue(s: State, actions: seq<Action>, script: Script) returns (all: seq<Action>)
    ensures Exec(s, all) == Play(Exec(s, actions), script)
  {
    all := actions + Actions(script);
    ExecCat(s, actions, Actions(script));
    PlayIsExec(Exec(s, actions), script);
  }

  const IDLE: Local := Local(Idle, Disabled, false, FromInstall, 0, 0, false)
  const START: State := State(
    Shared(Disabled, None, false, None, false, false, false, false),
    Data([], 8, Consuming, false), IDLE, IDLE,
    History(0, multiset{}, {}, [], [], 0, 0, 0, 0, 0, false, false, false))

  const ARMING: State := State(
    Shared(Configuring, Some(0), false, None, false, false, false, false), Data([], 8, Consuming, false),
    IDLE,
    Local(InNotifyConfigured(ReadNow), Disabled, false, FromInstall, 0, 0, false),
    History(1, multiset{}, {}, [], [], 0, 0, 0, 1, 0, false, false, false))

  /** Trigger 0 is live. */
  const ARMED: State := State(
    Shared(NothingToNotify, Some(0), false, None, false, false, false, false), Data([], 8, Consuming, false),
    IDLE,
    Local(Idle, Configuring, true, FromInstall, 0, 0, false),
    History(1, multiset{}, {}, [], [], 0, 0, 0, 2, 0, false, false, false))

  /** Trigger 1 has been stored over it ... */
  const REPLACING: State := State(
    Shared(Configuring, Some(1), false, None, false, false, false, false), Data([], 8, Consuming, false),
    IDLE,
    Local(InOnNextLive(WriteTarget), NothingToNotify, true, FromInstall, 0, 1, false),
    History(2, multiset{}, {0}, [], [], 0, 0, 0, 3, 0, false, false, false))

  const TESTING: State := State(
    Shared(Configuring, Some(1), false, None, false, false, false, false), Data([], 8, Consuming, false),
    IDLE,
    Local(InNotifyConfigured(TryTested), Configuring, true, FromInstall, 0, 1, false),
    History(2, multiset{}, {0}, [], [], 0, 0, 0, 3, 0, false, false, false))

  /** ... and is live. */
  const REPLACED: State := State(
    Shared(NothingToNotify, Some(1), false, None, false, false, false, false), Data([], 8, Consuming, false),
    IDLE,
    Local(Idle, Configuring, true, FromInstall, 0, 1, false),
    History(2, multiset{}, {0}, [], [], 0, 0, 0, 4, 0, false, false, false))

  /** Message 1 has been pushed and the publisher is about to fire trigger 0. */
  const FIRING: State := State(
    Shared(Publishing, Some(0), false, None, false, false, false, false), Data([1], 8, Consuming, false),
    Local(InPublishNext(Test), NothingToNotify, false, FromPush, 0, 0, false),
    Local(Idle, Configuring, true, FromInstall, 0, 0, false),
    History(1, multiset{}, {}, [1], [], 0, 1, 0, 2, 0, false, false, false))

  const PREPARING: State := State(
    Shared(PreparingPubReconfigure, Some(0), false, Some(1), false, false, false, false),
    Data([1], 8, Consuming, false),
    Local(InPublishNext(Test), NothingToNotify, false, FromPush, 0, 0, false),
    Local(InOnNextPending(WriteTarget), Publishing, true, FromInstall, 0, 1, false),
    History(2, multiset{}, {}, [1], [], 0, 1, 0, 3, 0, false, false, false))

  const LEAVING: State := State(
    Shared(PreparingPubReconfigure, Some(0), false, Some(1), false, false, false, false),
    Data([1], 8, Consuming, false),
    Local(InPublishNext(Test), NothingToNotify, false, FromPush, 0, 0, false),
    Local(InNotifyPending(Try), PreparingPubReconfigure, true, FromInstall, 0, 1, false),
    History(2, multiset{}, {}, [1], [], 0, 1, 0, 3, 0, false, false, false))

  /** Meanwhile the client has left trigger 1 in the pending slot. */
  const PENDING: State := State(
    Shared(PubWillReconfigure, Some(0), false, Some(1), false, false, false, false), Data([1], 8, Consuming, false),
    Local(InPublishNext(Test), NothingToNotify, false, FromPush, 0, 0, false),
    Local(Idle, PreparingPubReconfigure, true, FromInstall, 0, 1, false),
    History(2, multiset{}, {}, [1], [], 0, 1, 0, 4, 0, false, false, false))

  const FIRED: State := State(
    Shared(PubWillReconfigure, Some(0), false, Some(1), false, false, false, false), Data([1], 8, Consuming, false),
    Local(InPublishNext(ClearFn), NothingToNotify, false, FromPush, 0, 0, false),
    Local(Idle, PreparingPubReconfigure, true, FromInstall, 0, 1, false),
    History(2, multiset{0}, {}, [1], [], 1, 1, 0, 4, 0, false, false, false))

  /** Trigger 0 has fired and the publisher is about to make trigger 1 live. */
  const MOVING: State := State(
    Shared(PubReconfiguring, None, false, Some(1), false, false, false, false), Data([1], 8, Consuming, false),
    Local(InConfigurePending(MoveFn), PubWillReconfigure, false, FromPush, 0, 0, false),
    Local(Idle, PreparingPubReconfigure, true, FromInstall, 0, 1, false),
    History(2, multiset{0}, {}, [1], [], 1, 2, 0, 4, 0, false, false, false))

  /** The client, installing trigger 2, is about to wait for the publisher. */
  const PARKING: State := State(
    Shared(SubWakeupRequired, None, false, Some(1), false, false, true, false), Data([1], 8, Consuming, false),
    Local(InConfigurePending(MoveFn), PubWillReconfigure, false, FromPush, 0, 0, false),
    Local(InNotifyRequested(Park), PubReconfiguring, true, FromInstall, 0, 2, false),
    History(3, multiset{0}, {}, [1], [], 1, 2, 0, 5, 0, false, false, false))

  /** ... and waits. */
  const BLOCKED: State := State(
    Shared(SubWakeupRequired, None, false, Some(1), false, true, true, false), Data([1], 8, Consuming, false),
    Local(InConfigurePending(MoveFn), PubWillReconfigure, false, FromPush, 0, 0, false),
    Local(InNotifyRequested(Parked), PubReconfiguring, true, FromInstall, 0, 2, false),
    History(3, multiset{0}, {}, [1], [], 1, 2, 0, 5, 0, false, false, false))

  /** The waiting client has woken by itself. */
  const WOKEN: State := State(
    Shared(SubWakeupRequired, None, false, Some(1), false, false, true, false), Data([1], 8, Consuming, false),
    Local(InConfigurePending(MoveFn), PubWillReconfigure, false, FromPush, 0, 0, false),
    Local(InNotifyRequested(TryNext), PubReconfiguring, true, FromInstall, 0, 2, false),
    History(3, multiset{0}, {}, [1], [], 1, 2, 0, 5, 0, false, false, false))

  const HANDING: State := State(
    Shared(SubWakeupRequired, Some(1), false, None, false, true, true, false), Data([1], 8, Consuming, false),
    Local(InConfigurePending(MoveTarget), PubWillReconfigure, false, FromPush, 0, 0, false),
    Local(InNotifyRequested(Parked), PubReconfiguring, true, FromInstall, 0, 2, false),
    History(3, multiset{0}, {}, [1], [], 1, 2, 0, 5, 0, false, false, false))

  const MOVED: State := State(
    Shared(SubWakeupRequired, Some(1), false, None, false, true, true, false), Data([1], 8, Consuming, false),
    Local(InNotifyConfigured(ReadNow), PubWillReconfigure, false, FromPush, 0, 0, false),
    Local(InNotifyRequested(Parked), PubReconfiguring, true, FromInstall, 0, 2, false),
    History(3, multiset{0}, {}, [1], [], 1, 2, 0, 5, 0, false, false, false))

  const WAKING: State := State(
    Shared(Configuring, Some(1), false, None, false, true, true, false), Data([1], 8, Consuming, false),
    Local(InNotifyConfigured(Wake), SubWakeupRequired, false, FromPush, 0, 0, false),
    Local(InNotifyRequested(Parked), PubReconfiguring, true, FromInstall, 0, 2, false),
    History(3, multiset{0}, {}, [1], [], 1, 3, 0, 5, 0, false, false, false))

  /** The publisher has released and notified the waiting client, and returned. */
  const RELEASED: State := State(
    Shared(Configuring, Some(1), false, None, false, false, true, false), Data([1], 8, Consuming, false),
    Local(Idle, SubWakeupRequired, false, FromPush, 0, 0, false),
    Local(InNotifyRequested(Parked), PubReconfiguring, true, FromInstall, 0, 2, false),
    History(3, multiset{0}, {}, [1], [], 1, 3, 0, 5, 0, false, false, false))

  /** It has pushed again before the client ran. */
  const OVERTAKEN: State := State(
    Shared(PullRequired, Some(1), false, None, false, false, true, false), Data([1, 2], 8, Consuming, false),
    Local(Finish, Configuring, false, FromPush, 0, 0, false),
    Local(InNotifyRequested(Parked), PubReconfiguring, true, FromInstall, 0, 2, false),
    History(3, multiset{0}, {}, [1, 2], [], 1, 4, 0, 5, 0, true, false, false))

  /** The client comes back too late. */
  const RESUMED: State := State(
    Shared(PullRequired, Some(1), false, None, false, false, true, false), Data([1, 2], 8, Consuming, false),
    Local(Finish, Configuring, false, FromPush, 0, 0, false),
    Local(InNotifyRequested(TryNext), PubReconfiguring, true, FromInstall, 0, 2, false),
    History(3, multiset{0}, {}, [1, 2], [], 1, 4, 0, 5, 0, true, false, false))

  const SETTLING: State := State(
    Shared(SubWakeupRequired, Some(1), false, None, false, false, true, false), Data([1], 8, Consuming, false),
    Local(InConfigurePending(DropTarget), PubWillReconfigure, false, FromPush, 0, 0, false),
    Local(InNotifyRequested(Park), PubReconfiguring, true, FromInstall, 0, 2, false),
    History(3, multiset{0}, {}, [1], [], 1, 2, 0, 5, 0, false, false, false))

  const MISSING: State := State(
    Shared(SubWakeupRequired, Some(1), false, None, false, false, true, false), Data([1], 8, Consuming, false),
    Local(InNotifyConfigured(Switch), SubWakeupRequired, false, FromPush, 0, 0, false),
    Local(InNotifyRequested(Park), PubReconfiguring, true, FromInstall, 0, 2, false),
    History(3, multiset{0}, {}, [1], [], 1, 2, 0, 5, 0, false, false, false))

  /** The publisher has notified before the client began to wait. */
  const MISSED: State := State(
    Shared(Configuring, Some(1), false, None, false, false, true, false), Data([1], 8, Consuming, false),
    Local(Finish, SubWakeupRequired, false, FromPush, 0, 0, false),
    Local(InNotifyRequested(Park), PubReconfiguring, true, FromInstall, 0, 2, false),
    History(3, multiset{0}, {}, [1], [], 1, 3, 0, 5, 0, false, false, false))

  const TRANSFERRED: State := State(
    Shared(PubReconfiguring, Some(1), false, None, false, false, false, false), Data([1], 8, Consuming, false),
    Local(InConfigurePending(MoveTarget), PubWillReconfigure, false, FromPush, 0, 0, false),
    Local(Idle, PreparingPubReconfigure, true, FromInstall, 0, 1, false),
    History(2, multiset{0}, {}, [1], [], 1, 2, 0, 4, 0, false, false, false))

  const RELIVING: State := State(
    Shared(PubReconfiguring, Some(1), false, None, false, false, false, false), Data([1], 8, Consuming, false),
    Local(InNotifyConfigured(ReadNow), PubWillReconfigure, false, FromPush, 0, 0, false),
    Local(Idle, PreparingPubReconfigure, true, FromInstall, 0, 1, false),
    History(2, multiset{0}, {}, [1], [], 1, 2, 0, 4, 0, false, false, false))

  /** Trigger 1 is live, message 1 is unread, both threads are done. */
  const RELIVED: State := State(
    Shared(NothingToNotify, Some(1), false, None, false, false, false, false), Data([1], 8, Consuming, false),
    Local(Idle, PubReconfiguring, false, FromPush, 0, 0, false),
    Local(Idle, PreparingPubReconfigure, true, FromInstall, 0, 1, false),
    History(2, multiset{0}, {}, [1], [], 1, 3, 0, 4, 0, false, false, false))

  /** Message 1 is pushed before any trigger exists. */
  const PUSHED: State := State(
    Shared(Disabled, None, false, None, false, false, false, false), Data([1], 8, Consuming, false),
    Local(Idle, Disabled, false, FromPush, 0, 0, false),
    IDLE,
    History(0, multiset{}, {}, [1], [], 0, 0, 0, 0, 0, false, false, false))

  const ASKING: State := State(
    Shared(Configuring, None, false, None, false, false, false, false), Data([1], 8, Consuming, false),
    Local(Idle, Disabled, false, FromPush, 0, 0, false),
    Local(InOnNextLive(WriteFn), Disabled, false, FromInstall, 0, 0, false),
    History(1, multiset{}, {}, [1], [], 0, 0, 0, 1, 0, false, false, false))

  const INSTALLING: State := State(
    Shared(Configuring, Some(0), false, None, false, false, false, false), Data([1], 8, Consuming, false),
    Local(Idle, Disabled, false, FromPush, 0, 0, false),
    Local(InNotifyConfigured(ReadNow), Disabled, false, FromInstall, 0, 0, false),
    History(1, multiset{}, {}, [1], [], 0, 0, 0, 1, 0, false, false, false))

  const PULLING: State := State(
    Shared(Configuring, Some(0), false, None, false, false, false, false), Data([1], 8, Consuming, false),
    Local(Idle, Disabled, false, FromPush, 0, 0, false),
    Local(InNotifyConfigured(TryTested), Configuring, false, FromInstall, 0, 0, false),
    History(1, multiset{}, {}, [1], [], 0, 0, 0, 1, 0, false, false, false))

  const CALLING: State := State(
    Shared(Pulling, Some(0), false, None, false, false, false, false), Data([1], 8, Consuming, false),
    Local(Idle, Disabled, false, FromPush, 0, 0, false),
    Local(InPullNext(Test), Configuring, false, FromInstall, 0, 0, false),
    History(1, multiset{}, {}, [1], [], 0, 0, 0, 2, 0, false, false, false))

  /** Trigger 0 is running inside the client's pull. */
  const PULLED: State := State(
    Shared(Pulling, Some(0), false, None, false, false, false, false), Data([1], 8, Consuming, false),
    Local(Idle, Disabled, false, FromPush, 0, 0, false),
    Local(InPullNext(Running), Configuring, false, FromInstall, 1, 0, false),
    History(1, multiset{0}, {}, [1], [], 1, 0, 0, 2, 0, false, false, false))

  const NESTING: State := State(
    Shared(ReconfigureRequired, Some(0), false, Some(1), false, false, false, false), Data([1], 8, Consuming, false),
    Local(Idle, Disabled, false, FromPush, 0, 0, false),
    Local(InOnNextPending(WriteTarget), Pulling, false, FromInstall, 1, 1, false),
    History(2, multiset{0}, {}, [1], [], 1, 0, 0, 3, 0, false, false, true))

  // ---------------------------------------------------------------- from one to the next

  lemma ArmingAfter()
    ensures Play(START, Then(CliInstall(false), Cli(4, End))) == ARMING
  {
  }

  lemma ReplacingAfter()
    ensures Play(ARMED, Then(CliInstall(false), Cli(3, End))) == REPLACING
  {
  }

  lemma ReplacedAfter()
    ensures Play(TESTING, Cli(2, End)) == REPLACED
  {
  }

  lemma TestingAfter()
    ensures Play(REPLACING, Cli(3, End)) == TESTING
  {
  }

  lemma CalledAfter()
    ensures var e := Play(REPLACED, Then(PubPush(1), Pub(4, End))); e.h.replaced == {0} && e.h.fired == multiset{1}
  {
  }

  lemma ArmedAfter()
    ensures Play(ARMING, Cli(4, End)) == ARMED
  {
  }

  lemma FiringAfter()
    ensures Play(ARMED, Then(PubPush(1), Pub(2, End))) == FIRING
  {
  }

  lemma PreparingAfter()
    ensures Play(FIRING, Then(CliInstall(false), Cli(3, End))) == PREPARING
  {
  }

  lemma PendingAfter()
    ensures Play(LEAVING, Cli(2, End)) == PENDING
  {
  }

  lemma LeavingAfter()
    ensures Play(PREPARING, Cli(2, End)) == LEAVING
  {
  }

  lemma FiredAfter()
    ensures Play(PENDING, Pub(3, End)) == FIRED
  {
  }

  lemma MovingAfter()
    ensures Play(FIRED, Pub(3, End)) == MOVING
  {
  }

  lemma ParkingAfter()
    ensures Play(MOVING, Then(CliInstall(false), Cli(2, End))) == PARKING
  {
  }

  lemma BlockedAfter()
    ensures Play(PARKING, Cli(1, End)) == BLOCKED
  {
  }

  lemma WokenAfter()
    ensures Play(BLOCKED, Then(SpuriousWake, Cli(1, End))) == WOKEN
  {
  }

  lemma HandingAfter()
    ensures Play(BLOCKED, Pub(1, End)) == HANDING
  {
  }

  lemma MovedAfter()
    ensures Play(HANDING, Pub(2, End)) == MOVED
  {
  }

  lemma WakingAfter()
    ensures Play(MOVED, Pub(2, End)) == WAKING
  {
  }

  lemma ReleasedAfter()
    ensures Play(WAKING, Pub(2, End)) == RELEASED
  {
  }

  lemma OvertakenAfter()
    ensures Play(RELEASED, Then(PubPush(2), Pub(2, End))) == OVERTAKEN
  {
  }

  lemma MissingAfter()
    ensures Play(SETTLING, Pub(2, End)) == MISSING
  {
  }

  lemma SettlingAfter()
    ensures Play(PARKING, Pub(2, End)) == SETTLING
  {
  }

  lemma MissedAfter()
    ensures Play(MISSING, Pub(2, End)) == MISSED
  {
  }

  lemma TransferredAfter()
    ensures Play(MOVING, Pub(1, End)) == TRANSFERRED
  {
  }

  lemma RelivingAfter()
    ensures Play(TRANSFERRED, Pub(2, End)) == RELIVING
  {
  }

  lemma RelivedAfter()
    ensures Play(RELIVING, Pub(3, End)) == RELIVED
  {
  }

  lemma PushedAfter()
    ensures Play(START, Then(PubPush(1), Pub(3, End))) == PUSHED
  {
  }

  lemma InstallingAfter()
    ensures Play(ASKING, Cli(2, End)) == INSTALLING
  {
  }

  lemma AskingAfter()
    ensures Play(PUSHED, Then(CliInstall(false), Cli(2, End))) == ASKING
  {
  }

  lemma PulledAfter()
    ensures Play(CALLING, Cli(2, End)) == PULLED
  {
  }

  lemma CallingAfter()
    ensures Play(PULLING, Cli(1, End)) == CALLING
  {
  }

  lemma PullingAfter()
    ensures Play(INSTALLING, Cli(2, End)) == PULLING
  {
  }

  lemma NestingAfter()
    ensures Play(PULLED, Then(CliInstall(false), Cli(3, End))) == NESTING
  {
  }

  lemma StartIsInit()
    ensures Init(START)
  {
  }

  lemma MovingReached() returns (actions: seq<Action>)
    ensures Exec(START, actions) == MOVING
  {
    actions := Continue(START, [], Then(CliInstall(false), Cli(4, End)));
    ArmingAfter();
    actions := Continue(START, actions, Cli(4, End));
    ArmedAfter();
    actions := Continue(START, actions, Then(PubPush(1), Pub(2, End)));
    FiringAfter();
    actions := Continue(START, actions, Then(CliInstall(false), Cli(3, End)));
    PreparingAfter();
    actions := Continue(START, actions, Cli(2, End));
    LeavingAfter();
    actions := Continue(START, actions, Cli(2, End));
    PendingAfter();
    actions := Continue(START, actions, Pub(3, End));
    FiredAfter();
    actions := Continue(START, actions, Pub(3, End));
    MovingAfter();
  }

  // ---------------------------------------------------------------- the three throws

  /** A trigger that re-arms itself while it is being pulled. */
  lemma {:induction false} RearmInPullThrows() returns (actions: seq<Action>)
    ensures Init(START) && var e := Exec(START, actions);
      e.cli.pc == Threw(NotifyPendingConfigured) && e.cli.cur == ReconfigureRequired
  {
    StartIsInit();
    actions := Continue(START, [], Then(PubPush(1), Pub(3, End)));
    PushedAfter();
    actions := Continue(START, actions, Then(CliInstall(false), Cli(2, End)));
    AskingAfter();
    actions := Continue(START, actions, Cli(2, End));
    InstallingAfter();
    actions := Continue(START, actions, Cli(2, End));
    PullingAfter();
    actions := Continue(START, actions, Cli(1, End));
    CallingAfter();
    actions := Continue(START, actions, Cli(2, End));
    PulledAfter();
    actions := Continue(START, actions, Then(CliInstall(false), Cli(3, End)));
    NestingAfter();
    actions := Continue(START, actions, Cli(3, End));
    NestingThrows();
  }

  lemma NestingThrows()
    ensures var e := Play(NESTING, Cli(3, End));
      e.cli.pc == Threw(NotifyPendingConfigured) && e.cli.cur == ReconfigureRequired
  {
  }

  /** A second push completes before the client parked by the first has resumed. */
  lemma OvertakenHandoffThrows() returns (actions: seq<Action>)
    ensures var e := Exec(START, actions);
      e.cli.pc == Threw(NotifyRequested) && e.cli.cur == PullRequired
  {
    actions := MovingReached();
    actions := Continue(START, actions, Then(CliInstall(false), Cli(2, End)));
    ParkingAfter();
    actions := Continue(START, actions, Cli(1, End));
    BlockedAfter();
    actions := Continue(START, actions, Pub(1, End));
    HandingAfter();
    actions := Continue(START, actions, Pub(2, End));
    MovedAfter();
    actions := Continue(START, actions, Pub(2, End));
    WakingAfter();
    actions := Continue(START, actions, Pub(2, End));
    ReleasedAfter();
    actions := Continue(START, actions, Then(PubPush(2), Pub(2, End)));
    OvertakenAfter();
    actions := Continue(START, actions, Cli(1, End));
    ResumedAfter();
    actions := Continue(START, actions, Cli(2, End));
    OvertakenThrows();
  }

  lemma ResumedAfter()
    ensures Play(OVERTAKEN, Cli(1, End)) == RESUMED
  {
  }

  lemma OvertakenThrows()
    ensures var e := Play(RESUMED, Cli(2, End));
      e.cli.pc == Threw(NotifyRequested) && e.cli.cur == PullRequired
  {
  }

  /** The parked client wakes by itself. */
  lemma SpuriousWakeThrows() returns (actions: seq<Action>)
    ensures var e := Exec(START, actions);
      e.cli.pc == Threw(NotifyRequested) && e.cli.cur == SubWakeupRequired
  {
    actions := MovingReached();
    actions := Continue(START, actions, Then(CliInstall(false), Cli(2, End)));
    ParkingAfter();
    actions := Continue(START, actions, Cli(1, End));
    BlockedAfter();
    actions := Continue(START, actions, Then(SpuriousWake, Cli(1, End)));
    WokenAfter();
    actions := Continue(START, actions, Cli(2, End));
    WokenThrows();
  }

  lemma WokenThrows()
    ensures var e := Play(WOKEN, Cli(2, End));
      e.cli.pc == Threw(NotifyRequested) && e.cli.cur == SubWakeupRequired
  {
  }

  // ---------------------------------------------------------------- a client left alone

  /** The publisher notifies between the client's exchange and its wait; by `MissedWakeHangs`
      the client never returns. */
  lemma {:induction false} EarlyNotifyIsMissed() returns (actions: seq<Action>)
    ensures WakeMissed(Exec(START, actions))
  {
    actions := MovingReached();
    actions := Continue(START, actions, Then(CliInstall(false), Cli(2, End)));
    ParkingAfter();
    actions := Continue(START, actions, Pub(2, End));
    SettlingAfter();
    actions := Continue(START, actions, Pub(2, End));
    MissingAfter();
    actions := Continue(START, actions, Pub(2, End));
    MissedAfter();
  }

  /** The pending trigger goes live over a message that was notified but not read, and both
      threads are done. */
  lemma {:induction false} ReconfiguringLeavesMessagesUnread() returns (actions: seq<Action>)
    ensures var e := Exec(START, actions);
      e.sh.ns == NothingToNotify && e.pub.pc == Idle && e.cli.pc == Idle && e.data.queue == [1]
  {
    actions := MovingReached();
    actions := Continue(START, actions, Pub(1, End));
    TransferredAfter();
    actions := Continue(START, actions, Pub(2, End));
    RelivingAfter();
    actions := Continue(START, actions, Pub(3, End));
    RelivedAfter();
  }

  /** Trigger 0 is live when trigger 1 is installed over it.  By `ReplacedNeverFires` it is never called,
      although a message is pushed and trigger 1 is. */
  lemma ReplacedTriggerIsNeverCalled() returns (actions: seq<Action>)
    ensures Init(START) && var e := Exec(START, actions); e.h.replaced == {0} && e.h.fired == multiset{1}
  {
    StartIsInit();
    actions := Continue(START, [], Then(CliInstall(false), Cli(4, End)));
    ArmingAfter();
    actions := Continue(START, actions, Cli(4, End));
    ArmedAfter();
    actions := Continue(START, actions, Then(CliInstall(false), Cli(3, End)));
    ReplacingAfter();
    actions := Continue(START, actions, Cli(3, End));
    TestingAfter();
    actions := Continue(START, actions, Cli(2, End));
    ReplacedAfter();
    actions := Continue(START, actions, Then(PubPush(1), Pub(4, End)));
    CalledAfter();
  }
}
