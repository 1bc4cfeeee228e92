/** The notification protocol of `PipeSubscriber`, as a machine of atomic steps.

    Two threads run the same code against shared fields.  Every atomic load, every
    compare-exchange, every queue push, pop and `empty()` test, every write of a trigger
    slot and every condition-variable operation is one step.  Nothing here says which
    thread may be where: both threads may stand at any location, and a `switch` case
    that throws is a step to `Threw`.  What is reachable is proved in `NotifyInvariant`. */
module NotifyModel {
  import opened Wrappers

  /** Messages matter only by identity. */
  type Message = nat

  datatype Thread = Publisher | Client

  datatype NotifyState =
    | Disabled
    | NothingToNotify
    | Configuring
    | PullRequired
    | Pulling
    | ReconfigureRequired
    | Publishing
    | SubWakeupRequired
    | PreparingPubReconfigure
    | PubWillReconfigure
    | ClientWillReconfigure
    | PubReconfiguring

  /** `ABORTED` is declared by the source but never assigned. */
  datatype ConsumerState = Consuming | Finished | Aborting

  /** Where a `ThreadingViolation` comes from.  `Invoke` is the use of an empty trigger slot;
      `Retry` is `PullComplete` reconfiguring after a compare-exchange that failed, which the
      `switch` inside its loop would do; here it ends the run, and is proved not to happen. */
  datatype Loop =
    | PushComplete
    | PublishComplete
    | NotifyRequested
    | NotifyConfigured
    | NotifyPendingConfigured
    | PullComplete
    | Invoke
    | Retry

  // Code locations, named by the step about to be taken.
  datatype LoopAt = Read | Try
  datatype FireAt = Test | Post | Call | Running | ClearTarget | ClearFn
  datatype RequestAt = ReadFirst | TryNext | Park | Parked
  datatype WriteAt = WriteFn | WriteTarget
  datatype ConfigAt = ReadNow | Switch | TryTested | Wake
  datatype MoveAt = MoveFn | MoveTarget | DropTarget

  /** Which function of `PipeSubscriber` a thread is in, and where.  Calls are in tail position
      everywhere except for a trigger called by a pull, so no stack is needed. */
  datatype Pc =
    | Idle
    | InPushComplete(loopAt: LoopAt)
    | InPublishNext(fireAt: FireAt)
    | InPublishComplete(loopAt: LoopAt)
    | InNotifyRequested(requestAt: RequestAt)
    | InOnNextLive(writeAt: WriteAt)
    | InOnNextPending(writeAt: WriteAt)
    | InNotifyConfigured(configAt: ConfigAt)
    | InConfigurePending(moveAt: MoveAt)
    | InNotifyPending(loopAt: LoopAt)
    | InPullNext(fireAt: FireAt)
    | InPullComplete(loopAt: LoopAt)
    | Finish
    | Threw(loop: Loop)

  /** Which public operation is being executed. */
  datatype Origin = FromPush | FromEndBatch | FromDone | FromInstall

  /** The locals of one thread: `cur` is the loop's `currentState`, `sawEmpty` the answer of
      `messages.empty()`, `fn` and `posted` the arguments of `OnNextMessage`, and `depth` the
      number of triggers this thread is running from inside a pull. */
  datatype Local = Local(
    pc: Pc,
    cur: NotifyState,
    sawEmpty: bool,
    origin: Origin,
    depth: int,
    fn: int,
    posted: bool)

  /** The fields the protocol works on.  `waiter` is set while a thread is blocked in
      `onNotifyFlag.wait`.  `handoff` is history, not a field of the source: it is set from the
      client's exchange PubReconfiguring -> SubWakeupRequired to its next read of `notifyState`. */
  datatype Shared = Shared(
    ns: NotifyState,
    onNotify: Option<int>,
    target: bool,
    pendingFn: Option<int>,
    pendingTarget: bool,
    waiter: bool,
    handoff: bool,
    batching: bool)

  /** The bounded FIFO, the consumer state and the client's `aborted` flag. */
  datatype Data = Data(queue: seq<Message>, cap: nat, consumer: ConsumerState, aborted: bool)

  /** What happened so far.  No step reads it to decide anything; it exists to state properties. */
  datatype History = History(
    issued: int,              // triggers handed to OnNextMessage; the next one gets this number
    fired: multiset<int>,     // triggers called or posted, with multiplicity
    replaced: set<int>,       // triggers overwritten in a slot before firing
    pushed: seq<Message>,     // initial data, then everything ever pushed
    popped: seq<Message>,     // everything ever popped
    covered: int,             // how many messages had been pushed when a trigger last fired
    pubWon: int, pubLost: int, // compare-exchanges on notifyState by the publisher thread
    cliWon: int, cliLost: int, // ... and by the client thread
    overtaken: bool,          // a PushComplete turned Configuring into PullRequired during a hand-off
    wokenEarly: bool,         // a woken client found SubWakeupRequired still in place
    nested: bool)             // a trigger called OnNextMessage from inside its own pull

  /** What one step adds to the history. */
  datatype Event = Quiet | Won | WonOvertaking | Lost | LostEarly | Fired(id: int) | Dropped(slot: Option<int>)

  datatype State = State(sh: Shared, data: Data, pub: Local, cli: Local, h: History)

  /** The result of a step: shared fields, locals of the thread, history. */
  datatype Outcome = Outcome(sh: Shared, l: Local, e: Event)

  // ---------------------------------------------------------------- the functions of PipeSubscriber.hpp

  /** A compare-exchange of `notifyState`: go to `ok` on success; on failure `currentState` takes the
      value found and the loop goes round to `again`. */
  function Exchange(sh: Shared, l: Local, next: NotifyState, ok: Pc, again: Pc): Outcome {
    if sh.ns == l.cur then Outcome(sh.(ns := next), l.(pc := ok), Won)
    else Outcome(sh, l.(cur := sh.ns, pc := again), Lost)
  }

  function Goto(sh: Shared, l: Local, pc: Pc): Outcome { Outcome(sh, l.(pc := pc), Quiet) }

  function Load(sh: Shared, l: Local, pc: Pc): Outcome { Outcome(sh, l.(cur := sh.ns, pc := pc), Quiet) }

  function StepPushComplete(sh: Shared, l: Local, at: LoopAt): Outcome {
    if at.Read? then Load(sh, l, InPushComplete(Try))
    else match l.cur
      case Disabled | PullRequired | ClientWillReconfigure | Pulling | ReconfigureRequired => Goto(sh, l, Finish)
      case NothingToNotify => Exchange(sh, l, Publishing, InPublishNext(Test), l.pc)
      case Configuring =>
        var o := Exchange(sh, l, PullRequired, Finish, l.pc);
        if o.e.Won? && sh.handoff then o.(e := WonOvertaking) else o
      case SubWakeupRequired | Publishing | PubWillReconfigure | PubReconfiguring | PreparingPubReconfigure =>
        Goto(sh, l, Threw(PushComplete))
  }

  /** The trigger in the live slot is called, or posted to its target. */
  function Fire(sh: Shared, l: Local, pc: Pc): Outcome {
    if sh.onNotify.None? then Goto(sh, l, Threw(Invoke))
    else Outcome(sh, l.(pc := pc), Fired(sh.onNotify.value))
  }

  function StepPublishNext(sh: Shared, l: Local, at: FireAt): Outcome {
    match at
    case Test => Goto(sh, l, InPublishNext(if sh.target then Post else Call))
    case Post => Fire(sh, l, InPublishNext(ClearTarget))
    case Call => Fire(sh, l, InPublishNext(Running))
    case Running => Goto(sh, l, InPublishNext(ClearFn))
    case ClearTarget => Goto(sh.(target := false), l, InPublishNext(ClearFn))
    case ClearFn => Goto(sh.(onNotify := None), l, InPublishComplete(Read))
  }

  function StepPublishComplete(sh: Shared, l: Local, at: LoopAt): Outcome {
    if at.Read? then Load(sh, l, InPublishComplete(Try))
    else match l.cur
      case Publishing => Exchange(sh, l, Disabled, Finish, l.pc)
      case PreparingPubReconfigure => Exchange(sh, l, ClientWillReconfigure, Finish, l.pc)
      case PubWillReconfigure => Exchange(sh, l, PubReconfiguring, InConfigurePending(MoveFn), l.pc)
      case _ => Goto(sh, l, Threw(PublishComplete))
  }

  /** A compare-exchange of `NotifyRequested`; reading `notifyState` again ends a hand-off. */
  function ExchangeRequest(sh: Shared, l: Local, next: NotifyState, ok: Pc): Outcome {
    var o := Exchange(sh, l, next, ok, l.pc);
    if o.e.Won? then o.(sh := o.sh.(handoff := l.cur.PubReconfiguring?))
    else Outcome(o.sh.(handoff := false), o.l, if sh.handoff && sh.ns.SubWakeupRequired? then LostEarly else Lost)
  }

  function StepNotifyRequested(sh: Shared, l: Local, at: RequestAt): Outcome {
    match at
    case ReadFirst => Load(sh, l, InNotifyRequested(TryNext))
    case Park => Goto(sh.(waiter := true), l, InNotifyRequested(Parked))
    case Parked => Goto(sh, l, InNotifyRequested(TryNext)) // currentState still holds PubReconfiguring
    case TryNext =>
      match l.cur
      case Disabled | NothingToNotify => ExchangeRequest(sh, l, Configuring, InOnNextLive(WriteFn))
      case Publishing | PubWillReconfigure =>
        ExchangeRequest(sh, l, PreparingPubReconfigure, InOnNextPending(WriteFn))
      case PubReconfiguring => ExchangeRequest(sh, l, SubWakeupRequired, InNotifyRequested(Park))
      case Configuring => Goto(sh, l, InOnNextLive(WriteFn))
      case Pulling => ExchangeRequest(sh, l, ReconfigureRequired, InOnNextPending(WriteFn))
      case ReconfigureRequired => Goto(sh, l, InOnNextPending(WriteFn))
      case SubWakeupRequired | PreparingPubReconfigure | PullRequired | ClientWillReconfigure =>
        Goto(sh, l, Threw(NotifyRequested))
  }

  function StepOnNextLive(sh: Shared, l: Local, at: WriteAt): Outcome {
    if at.WriteFn? then
      Outcome(sh.(onNotify := Some(l.fn)), l.(pc := InOnNextLive(WriteTarget)), Dropped(sh.onNotify))
    else Goto(sh.(target := l.posted), l, InNotifyConfigured(ReadNow))
  }

  function StepOnNextPending(sh: Shared, l: Local, at: WriteAt): Outcome {
    if at.WriteFn? then
      Outcome(sh.(pendingFn := Some(l.fn)), l.(pc := InOnNextPending(WriteTarget)), Dropped(sh.pendingFn))
    else Goto(sh.(pendingTarget := l.posted), l, InNotifyPending(Read))
  }

  /** `empty` is what `messages.empty()` answers.  `Wake` is notify_one, which is lost when
      nobody waits yet. */
  function StepNotifyConfigured(sh: Shared, l: Local, at: ConfigAt, empty: bool): Outcome {
    match at
    case ReadNow => Load(sh, l, InNotifyConfigured(Switch))
    case Switch =>
      (match l.cur
       case Configuring => Outcome(sh, l.(sawEmpty := empty, pc := InNotifyConfigured(TryTested)), Quiet)
       case PullRequired => Exchange(sh, l, Pulling, InPullNext(Test), l.pc)
       case PubReconfiguring => Exchange(sh, l, NothingToNotify, Finish, l.pc)
       case SubWakeupRequired => Exchange(sh, l, Configuring, InNotifyConfigured(Wake), l.pc)
       case _ => Goto(sh, l, Threw(NotifyConfigured)))
    case TryTested =>
      if l.sawEmpty then Exchange(sh, l, NothingToNotify, Finish, InNotifyConfigured(Switch))
      else Exchange(sh, l, Pulling, InPullNext(Test), InNotifyConfigured(Switch))
    case Wake => Goto(sh.(waiter := false), l, Finish)
  }

  function StepConfigurePending(sh: Shared, l: Local, at: MoveAt): Outcome {
    match at
    case MoveFn =>
      Outcome(sh.(onNotify := sh.pendingFn, pendingFn := None), l.(pc := InConfigurePending(MoveTarget)),
              Dropped(sh.onNotify))
    case MoveTarget => Goto(sh.(target := sh.pendingTarget), l, InConfigurePending(DropTarget))
    case DropTarget => Goto(sh.(pendingTarget := false), l, InNotifyConfigured(ReadNow))
  }

  function StepNotifyPending(sh: Shared, l: Local, at: LoopAt): Outcome {
    if at.Read? then Load(sh, l, InNotifyPending(Try))
    else match l.cur
      case PreparingPubReconfigure => Exchange(sh, l, PubWillReconfigure, Finish, l.pc)
      case ClientWillReconfigure => Exchange(sh, l, Configuring, InConfigurePending(MoveFn), l.pc)
      case _ => Goto(sh, l, Threw(NotifyPendingConfigured))
  }

  function StepPullNext(sh: Shared, l: Local, at: FireAt): Outcome {
    match at
    case Test => Goto(sh, l, InPullNext(if sh.target then Post else Call))
    case Post => Fire(sh, l, InPullNext(ClearTarget))
    case Call => Fire(sh, l.(depth := l.depth + 1), InPullNext(Running))
    case Running => Goto(sh, l.(depth := l.depth - 1), InPullNext(ClearFn))
    case ClearTarget => Goto(sh.(target := false), l, InPullNext(ClearFn))
    case ClearFn => Goto(sh.(onNotify := None), l, InPullComplete(Read))
  }

  function StepPullComplete(sh: Shared, l: Local, at: LoopAt): Outcome {
    if at.Read? then Load(sh, l, InPullComplete(Try))
    else match l.cur
      case Pulling => Exchange(sh, l, Disabled, Finish, l.pc)
      case ReconfigureRequired =>
        // ConfigurePendingNotify is called inside the loop, whether or not the exchange succeeded
        Exchange(sh, l, PullRequired, InConfigurePending(MoveFn), Threw(Retry))
      case _ => Goto(sh, l, Threw(PullComplete))
  }

  /** Control is back in the public operation: `EndBatch` clears `batching` last; an
      `OnNextMessage` made by a trigger returns to that trigger. */
  function StepFinish(sh: Shared, l: Local): Outcome {
    Goto(if l.origin.FromEndBatch? then sh.(batching := false) else sh, l,
         if l.depth > 0 then InPullNext(Running) else Idle)
  }

  predicate CanStep(sh: Shared, l: Local) {
    !l.pc.Idle? && !l.pc.Threw? && (l.pc == InNotifyRequested(Parked) ==> !sh.waiter)
  }

  /** The next atomic step of a thread. */
  function Step(sh: Shared, l: Local, empty: bool): Outcome {
    match l.pc
    case InPushComplete(at) => StepPushComplete(sh, l, at)
    case InPublishNext(at) => StepPublishNext(sh, l, at)
    case InPublishComplete(at) => StepPublishComplete(sh, l, at)
    case InNotifyRequested(at) => StepNotifyRequested(sh, l, at)
    case InOnNextLive(at) => StepOnNextLive(sh, l, at)
    case InOnNextPending(at) => StepOnNextPending(sh, l, at)
    case InNotifyConfigured(at) => StepNotifyConfigured(sh, l, at, empty)
    case InConfigurePending(at) => StepConfigurePending(sh, l, at)
    case InNotifyPending(at) => StepNotifyPending(sh, l, at)
    case InPullNext(at) => StepPullNext(sh, l, at)
    case InPullComplete(at) => StepPullComplete(sh, l, at)
    case Finish => StepFinish(sh, l)
    case Idle | Threw(_) => Goto(sh, l, l.pc)
  }

  function CountWon(h: History, t: Thread): History {
    if t.Publisher? then h.(pubWon := h.pubWon + 1) else h.(cliWon := h.cliWon + 1)
  }

  function CountLost(h: History, t: Thread): History {
    if t.Publisher? then h.(pubLost := h.pubLost + 1) else h.(cliLost := h.cliLost + 1)
  }

  function Record(h: History, t: Thread, e: Event): History {
    match e
    case Quiet => h
    case Won => CountWon(h, t)
    case WonOvertaking => CountWon(h, t).(overtaken := true)
    case Lost => CountLost(h, t)
    case LostEarly => CountLost(h, t).(wokenEarly := true)
    case Fired(id) => h.(fired := h.fired + multiset{id}, covered := |h.pushed|)
    case Dropped(slot) => if slot.None? then h else h.(replaced := h.replaced + {slot.value})
  }

  function LocalOf(s: State, t: Thread): Local {
    if t.Publisher? then s.pub else s.cli
  }

  /** The whole system after the next atomic step of thread `t`. */
  function Take(s: State, t: Thread): State {
    var o := Step(s.sh, LocalOf(s, t), s.data.queue == []);
    if t.Publisher? then s.(sh := o.sh, pub := o.l, h := Record(s.h, t, o.e))
    else s.(sh := o.sh, cli := o.l, h := Record(s.h, t, o.e))
  }

  // ---------------------------------------------------------------- runs

  /** What can happen next.  `PubPop` and the client operations inside a pull are things a
      trigger does while it runs on that thread. */
  datatype Action =
    | PubPush(m: Message) | PubStartBatch | PubEndBatch | PubDone | PubPop | PubStep
    | CliInstall(posted: bool) | CliPop | CliAbort | CliStep
    | SpuriousWake

  predicate HasThrown(s: State) { s.pub.pc.Threw? || s.cli.pc.Threw? }

  function Pop(s: State): State
    requires s.data.queue != []
  {
    s.(data := s.data.(queue := s.data.queue[1..]), h := s.h.(popped := s.h.popped + [s.data.queue[0]]))
  }

  function EnterPushComplete(l: Local, origin: Origin): Local { l.(pc := InPushComplete(Read), origin := origin) }

  predicate AtUserCode(l: Local) { l.pc.Idle? || l.pc == InPullNext(Running) }

  /** One action.  An action that is not possible now changes nothing, and nothing happens
      after a throw.  A push to a full queue throws to the publisher's caller and changes
      nothing either. */
  function Apply(s: State, a: Action): State {
    if HasThrown(s) then s else
    match a
    case PubPush(m) =>
      if s.pub.pc.Idle? && |s.data.queue| < s.data.cap then
        s.(data := s.data.(queue := s.data.queue + [m]), h := s.h.(pushed := s.h.pushed + [m]),
           pub := if s.sh.batching then s.pub else EnterPushComplete(s.pub, FromPush))
      else s
    case PubStartBatch => if s.pub.pc.Idle? then s.(sh := s.sh.(batching := true)) else s
    case PubEndBatch =>
      if s.pub.pc.Idle? && s.sh.batching then s.(pub := EnterPushComplete(s.pub, FromEndBatch)) else s
    case PubDone =>
      if s.pub.pc.Idle? && !s.data.consumer.Aborting? then
        s.(data := s.data.(consumer := Finished), pub := EnterPushComplete(s.pub, FromDone))
      else s
    case PubPop => if s.pub.pc == InPublishNext(Running) && s.data.queue != [] then Pop(s) else s
    case PubStep => if CanStep(s.sh, s.pub) then Take(s, Publisher) else s
    case CliInstall(posted) =>
      if AtUserCode(s.cli) && !s.data.aborted then
        s.(cli := s.cli.(pc := InNotifyRequested(ReadFirst), origin := FromInstall, fn := s.h.issued, posted := posted),
           h := s.h.(issued := s.h.issued + 1, nested := s.h.nested || !s.cli.pc.Idle?))
      else s
    case CliPop => if AtUserCode(s.cli) && s.data.queue != [] then Pop(s) else s
    case CliAbort =>
      if AtUserCode(s.cli) && !s.data.consumer.Finished? then
        s.(data := s.data.(consumer := Aborting, aborted := true))
      else s
    case CliStep => if CanStep(s.sh, s.cli) then Take(s, Client) else s
    case SpuriousWake => s.(sh := s.sh.(waiter := false))
  }

  /** The state after a sequence of actions. */
  function Exec(s: State, actions: seq<Action>): State
    decreases |actions|
  {
    if actions == [] then s else Apply(Exec(s, actions[..|actions| - 1]), actions[|actions| - 1])
  }

  /** A newly constructed subscriber, already holding its initial data.  The source does not
      initialise `pending_targetToNotify`, so it may hold anything. */
  predicate Init(s: State) {
    && s.sh == Shared(Disabled, None, false, None, s.sh.pendingTarget, false, false, false)
    && |s.data.queue| <= s.data.cap && s.data.consumer == Consuming && !s.data.aborted
    && s.h == History(0, multiset{}, {}, s.data.queue, [], 0, 0, 0, 0, 0, false, false, false)
    && s.pub.pc.Idle? && s.pub.depth == 0 && s.cli.pc.Idle? && s.cli.depth == 0
  }
}
