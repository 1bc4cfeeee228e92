/** `PipeSubscriber` as a class: the fields it changes in place, its six compare-exchange loops and
    the calls between them, run against whatever the other thread does in between.

    The abstract value `Now()` is the state of the step machine, and `Valid()` says that it is the
    state after `trace`, the actions performed since construction.  So everything proved about
    `Exec` holds of the object.  The loops decide by their own `currentState`; the machine's
    program counters are kept beside them, and are read only to see that a turn has thrown. */
module PipeSubscribers {
  import opened Wrappers
  import opened NotifyModel
  import I = NotifyInvariant
  import opened NotifySafety
  import NotifyDelivery
  import L = NotifyLedger
  import R = NotifyReplacement
  import P = WaitForMessage
  import F = WaitRefines

  /** What happens elsewhere while a thread is between two of its atomic operations; and, when that
      is inside a trigger called by a pull, whether the trigger then calls `OnNextMessage`. */
  datatype Gap = Gap(actions: seq<Action>, reinstall: Option<bool>)

  type Schedule = seq<Gap>

  /** How a call ends: by returning, by throwing ThreadingViolation, or not at all, blocked in
      `WaitForWake` when nobody is left to wake it. */
  datatype Ending = Returned | Violated | Hung

  datatype Configured = Settled | MustPull | MustWake

  function StepOf(t: Thread): Action { if t.Publisher? then PubStep else CliStep }

  /** An action of the other thread; or a pop or abort by the user's trigger, while thread `t`, with
      program counter `pc`, runs one. */
  predicate Elsewhere(t: Thread, pc: Pc, a: Action) {
    match a
    case PubPush(_) | PubStartBatch | PubEndBatch | PubDone | PubStep => t.Client?
    case PubPop => t.Client? || pc == InPublishNext(Running)
    case CliInstall(_) | CliStep => t.Publisher?
    case CliPop | CliAbort => t.Publisher? || pc == InPullNext(Running)
    case SpuriousWake => true
  }

  lemma ElsewhereLeavesThread(s: State, t: Thread, a: Action)
    requires Elsewhere(t, LocalOf(s, t).pc, a)
    ensures LocalOf(Apply(s, a), t) == LocalOf(s, t)
    ensures t.Publisher? ==> Apply(s, a).h.pushed == s.h.pushed
    ensures t.Client? ==> Apply(s, a).h.issued == s.h.issued
    ensures s.data.aborted ==> Apply(s, a).data.aborted
    ensures Apply(s, a).data.cap == s.data.cap
  {
  }

  lemma ExecMore(s: State, actions: seq<Action>, a: Action)
    ensures Exec(s, actions + [a]) == Apply(Exec(s, actions), a)
  {
    assert (actions + [a])[..|actions + [a]| - 1] == actions;
  }

  /** A trigger whose client is not inside OnNextMessage is not being installed; and the latest is not replaced. */
  lemma StatusLands(s: State, id: int, st: L.Status)
    requires R.Latest(s) && AtUserCode(s.cli) && id < s.h.issued && L.Has(s, id, st)
    ensures !st.Installing? && (st.Replaced? ==> id < s.h.issued - 1)
  {
  }

  /** However a run goes on, triggers are only ever added, and Done is final. */
  lemma {:induction false} RunOnwards(s: State, actions: seq<Action>)
    ensures var e := Exec(s, actions);
      && e.h.issued >= s.h.issued && (s.data.consumer.Finished? ==> e.data.consumer.Finished?)
      && (s.data.aborted ==> e.data.aborted)
    decreases |actions|
  {
    if actions != [] {
      RunOnwards(s, actions[..|actions| - 1]);
      ApplyOnwards(Exec(s, actions[..|actions| - 1]), actions[|actions| - 1]);
      hide Apply;
    }
  }

  /** An aborted client is aborting for good. */
  lemma {:induction false} RunAborting(s: State, actions: seq<Action>)
    requires Init(s)
    ensures var e := Exec(s, actions); e.data.aborted ==> e.data.consumer.Aborting?
    decreases |actions|
  {
    if actions != [] {
      RunAborting(s, actions[..|actions| - 1]);
      hide Step, Record;
    }
  }

  lemma ApplyOnwards(s: State, a: Action)
    ensures var n := Apply(s, a);
      && n.h.issued >= s.h.issued && (s.data.consumer.Finished? ==> n.data.consumer.Finished?)
      && (s.data.aborted ==> n.data.aborted)
  {
    if a.PubStep? { R.TakeIssues(s, Publisher); hide Step; }
    if a.CliStep? { R.TakeIssues(s, Client); hide Step; }
  }

  /** A thread here can go on at once: it is not idle, finished by a throw, or asleep. */
  predicate Able(pc: Pc) { !pc.Idle? && !pc.Threw? && pc != InNotifyRequested(Parked) }

  // What the next step of a thread with locals `l` will be, whatever the fields then hold.

  ghost predicate WillLoad(l: Local, pc: Pc) {
    forall sh: Shared, empty: bool :: Step(sh, l, empty) == Load(sh, l, pc)
  }

  ghost predicate WillGo(l: Local, to: Local) {
    forall sh: Shared, empty: bool :: Step(sh, l, empty) == Outcome(sh, to, Quiet)
  }

  ghost predicate WillTry(l: Local, newState: NotifyState, ok: Pc, again: Pc) {
    forall sh: Shared, empty: bool :: Tries(Step(sh, l, empty), sh, l, newState, ok, again)
  }

  predicate Tries(o: Outcome, sh: Shared, l: Local, newState: NotifyState, ok: Pc, again: Pc) {
    && o.sh == sh.(ns := if sh.ns == l.cur then newState else sh.ns, handoff := o.sh.handoff)
    && o.l == if sh.ns == l.cur then l.(pc := ok) else l.(cur := sh.ns, pc := again)
  }

  ghost predicate WillStore(l: Local, w: Write, pc: Pc) {
    forall sh: Shared, empty: bool :: Step(sh, l, empty).sh == Written(sh, w) && Step(sh, l, empty).l == l.(pc := pc)
  }

  ghost predicate WillInvoke(l: Local, to: Local) {
    forall sh: Shared, empty: bool :: Step(sh, l, empty) == Fire(sh, to, to.pc)
  }

  ghost predicate WillBranch(l: Local, post: Pc, call: Pc) {
    forall sh: Shared, empty: bool :: Step(sh, l, empty) == Goto(sh, l, if sh.target then post else call)
  }

  ghost predicate WillTestEmpty(l: Local, pc: Pc) {
    forall sh: Shared, empty: bool :: Step(sh, l, empty) == Outcome(sh, l.(sawEmpty := empty, pc := pc), Quiet)
  }

  /** One atomic write to a trigger slot or flag. */
  datatype Write =
    | OnNotify(fn: Option<int>) | TargetToNotify(posted: bool)
    | PendingOnNotify(fn: Option<int>) | PendingTarget(posted: bool)
    | MovePendingFn | MovePendingTarget
    | Waiting(on: bool) | Batching(on: bool)

  function Written(sh: Shared, w: Write): Shared {
    match w
    case OnNotify(fn) => sh.(onNotify := fn)
    case TargetToNotify(posted) => sh.(target := posted)
    case PendingOnNotify(fn) => sh.(pendingFn := fn)
    case PendingTarget(posted) => sh.(pendingTarget := posted)
    case MovePendingFn => sh.(onNotify := sh.pendingFn, pendingFn := None)
    case MovePendingTarget => sh.(target := sh.pendingTarget)
    case Waiting(on) => sh.(waiter := on)
    case Batching(on) => sh.(batching := on)
  }

  // The switch of each loop and the straight-line steps, case by case.

  lemma PushCompleteSwitch(l: Local)
    requires l.pc.InPushComplete?
    ensures l.pc.loopAt.Read? ==> WillLoad(l, InPushComplete(Try))
    ensures l.pc.loopAt.Try? ==>
      match l.cur
      case Disabled | PullRequired | ClientWillReconfigure | Pulling | ReconfigureRequired =>
        WillGo(l, l.(pc := Finish))
      case NothingToNotify => WillTry(l, Publishing, InPublishNext(Test), l.pc)
      case Configuring => WillTry(l, PullRequired, Finish, l.pc)
      case SubWakeupRequired | Publishing | PubWillReconfigure | PubReconfiguring | PreparingPubReconfigure =>
        WillGo(l, l.(pc := Threw(PushComplete)))
  {
  }

  lemma PublishNextSteps(l: Local)
    requires l.pc.InPublishNext?
    ensures match l.pc.fireAt
      case Test => WillBranch(l, InPublishNext(Post), InPublishNext(Call))
      case Post => WillInvoke(l, l.(pc := InPublishNext(ClearTarget)))
      case Call => WillInvoke(l, l.(pc := InPublishNext(Running)))
      case Running => WillGo(l, l.(pc := InPublishNext(ClearFn)))
      case ClearTarget => WillStore(l, TargetToNotify(false), InPublishNext(ClearFn))
      case ClearFn => WillStore(l, OnNotify(None), InPublishComplete(Read))
  {
  }

  lemma PublishCompleteSwitch(l: Local)
    requires l.pc.InPublishComplete?
    ensures l.pc.loopAt.Read? ==> WillLoad(l, InPublishComplete(Try))
    ensures l.pc.loopAt.Try? ==>
      match l.cur
      case Publishing => WillTry(l, Disabled, Finish, l.pc)
      case PreparingPubReconfigure => WillTry(l, ClientWillReconfigure, Finish, l.pc)
      case PubWillReconfigure => WillTry(l, PubReconfiguring, InConfigurePending(MoveFn), l.pc)
      case _ => WillGo(l, l.(pc := Threw(PublishComplete)))
  {
  }

  lemma NotifyRequestedSwitch(l: Local)
    requires l.pc.InNotifyRequested?
    ensures l.pc.requestAt.ReadFirst? ==> WillLoad(l, InNotifyRequested(TryNext))
    ensures l.pc.requestAt.Park? ==> WillStore(l, Waiting(true), InNotifyRequested(Parked))
    ensures l.pc.requestAt.Parked? ==> WillGo(l, l.(pc := InNotifyRequested(TryNext)))
    ensures l.pc.requestAt.TryNext? ==>
      match l.cur
      case Disabled | NothingToNotify => WillTry(l, Configuring, InOnNextLive(WriteFn), l.pc)
      case Publishing | PubWillReconfigure => WillTry(l, PreparingPubReconfigure, InOnNextPending(WriteFn), l.pc)
      case PubReconfiguring => WillTry(l, SubWakeupRequired, InNotifyRequested(Park), l.pc)
      case Configuring => WillGo(l, l.(pc := InOnNextLive(WriteFn)))
      case Pulling => WillTry(l, ReconfigureRequired, InOnNextPending(WriteFn), l.pc)
      case ReconfigureRequired => WillGo(l, l.(pc := InOnNextPending(WriteFn)))
      case SubWakeupRequired | PreparingPubReconfigure | PullRequired | ClientWillReconfigure =>
        WillGo(l, l.(pc := Threw(NotifyRequested)))
  {
  }

  lemma OnNextSteps(l: Local)
    requires l.pc.InOnNextLive? || l.pc.InOnNextPending?
    ensures l.pc.InOnNextLive? ==>
      if l.pc.writeAt.WriteFn? then WillStore(l, OnNotify(Some(l.fn)), InOnNextLive(WriteTarget))
      else WillStore(l, TargetToNotify(l.posted), InNotifyConfigured(ReadNow))
    ensures l.pc.InOnNextPending? ==>
      if l.pc.writeAt.WriteFn? then WillStore(l, PendingOnNotify(Some(l.fn)), InOnNextPending(WriteTarget))
      else WillStore(l, PendingTarget(l.posted), InNotifyPending(Read))
  {
  }

  lemma NotifyConfiguredSwitch(l: Local)
    requires l.pc.InNotifyConfigured?
    ensures l.pc.configAt.ReadNow? ==> WillLoad(l, InNotifyConfigured(Switch))
    ensures l.pc.configAt.TryTested? ==>
      if l.sawEmpty then WillTry(l, NothingToNotify, Finish, InNotifyConfigured(Switch))
      else WillTry(l, Pulling, InPullNext(Test), InNotifyConfigured(Switch))
    ensures l.pc.configAt.Wake? ==> WillStore(l, Waiting(false), Finish)
    ensures l.pc.configAt.Switch? ==>
      match l.cur
      case Configuring => WillTestEmpty(l, InNotifyConfigured(TryTested))
      case PullRequired => WillTry(l, Pulling, InPullNext(Test), l.pc)
      case PubReconfiguring => WillTry(l, NothingToNotify, Finish, l.pc)
      case SubWakeupRequired => WillTry(l, Configuring, InNotifyConfigured(Wake), l.pc)
      case _ => WillGo(l, l.(pc := Threw(NotifyConfigured)))
  {
  }

  lemma ConfigurePendingSteps(l: Local)
    requires l.pc.InConfigurePending?
    ensures match l.pc.moveAt
      case MoveFn => WillStore(l, MovePendingFn, InConfigurePending(MoveTarget))
      case MoveTarget => WillStore(l, MovePendingTarget, InConfigurePending(DropTarget))
      case DropTarget => WillStore(l, PendingTarget(false), InNotifyConfigured(ReadNow))
  {
  }

  lemma NotifyPendingSwitch(l: Local)
    requires l.pc.InNotifyPending?
    ensures l.pc.loopAt.Read? ==> WillLoad(l, InNotifyPending(Try))
    ensures l.pc.loopAt.Try? ==>
      match l.cur
      case PreparingPubReconfigure => WillTry(l, PubWillReconfigure, Finish, l.pc)
      case ClientWillReconfigure => WillTry(l, Configuring, InConfigurePending(MoveFn), l.pc)
      case _ => WillGo(l, l.(pc := Threw(NotifyPendingConfigured)))
  {
  }

  lemma PullNextSteps(l: Local)
    requires l.pc.InPullNext?
    ensures match l.pc.fireAt
      case Test => WillBranch(l, InPullNext(Post), InPullNext(Call))
      case Post => WillInvoke(l, l.(pc := InPullNext(ClearTarget)))
      case Call => WillInvoke(l, l.(pc := InPullNext(Running), depth := l.depth + 1))
      case Running => WillGo(l, l.(pc := InPullNext(ClearFn), depth := l.depth - 1))
      case ClearTarget => WillStore(l, TargetToNotify(false), InPullNext(ClearFn))
      case ClearFn => WillStore(l, OnNotify(None), InPullComplete(Read))
  {
  }

  lemma PullCompleteSwitch(l: Local)
    requires l.pc.InPullComplete?
    ensures l.pc.loopAt.Read? ==> WillLoad(l, InPullComplete(Try))
    ensures l.pc.loopAt.Try? ==>
      match l.cur
      case Pulling => WillTry(l, Disabled, Finish, l.pc)
      case ReconfigureRequired => WillTry(l, PullRequired, InConfigurePending(MoveFn), Threw(Retry))
      case _ => WillGo(l, l.(pc := Threw(PullComplete)))
  {
  }

  lemma FinishSteps(l: Local)
    requires l.pc.Finish?
    ensures var back := if l.depth > 0 then InPullNext(Running) else Idle;
      if l.origin.FromEndBatch? then WillStore(l, Batching(false), back) else WillGo(l, l.(pc := back))
  {
  }

  /** How `WaitForMessage` ends: with a message; returning false; blocked on the promise that trigger
      `promise` is to set; or not returning from `OnNextMessage`. */
  datatype Waited = Got(m: Message) | Nothing | Blocked(promise: int) | Failed

  class PipeSubscriber {
    var notifyState: NotifyState
    var onNotify: Option<int>
    var targetToNotify: bool
    var pendingOnNotify: Option<int>
    var pendingTarget: bool
    var waiting: bool                    // a thread is blocked on onNotifyFlag
    var batching: bool
    var messages: seq<Message>
    const capacity: nat
    var state: ConsumerState
    var aborted: bool

    // Where each thread is, and what has happened.
    var pub: Local
    var cli: Local
    var handoff: bool
    var h: History
    ghost const start: State
    ghost var trace: seq<Action>

    function Fields(): Shared
      reads this
    {
      Shared(notifyState, onNotify, targetToNotify, pendingOnNotify, pendingTarget, waiting, handoff, batching)
    }

    function Now(): State
      reads this
    {
      State(Fields(), Data(messages, capacity, state, aborted), pub, cli, h)
    }

    function Here(t: Thread): Local
      reads this
    {
      if t.Publisher? then pub else cli
    }

    /** The machine's next step of thread `t`. */
    function Next(t: Thread): Outcome
      reads this
    {
      Step(Fields(), Here(t), messages == [])
    }

    ghost predicate Valid()
      reads this
    {
      Init(start) && Now() == Exec(start, trace)
    }

    predicate Alive()
      reads this
    {
      !pub.pc.Threw? && !cli.pc.Threw?
    }

    /** What a call leaves alone in the caller's frame. */
    ghost predicate Kept(t: Thread, was: Local)
      reads this
    {
      Here(t).depth == was.depth && Here(t).origin == was.origin
    }

    /** A step or call by `t` is over, and time has gone on to `next`. */
    ghost predicate Onward(schedule: Schedule, k: nat, next: nat, l: Local, t: Thread)
      reads this
    {
      && Valid() && Here(t) == l && (Alive() <==> !l.pc.Threw?)
      && k <= next <= |schedule| && (next == k ==> k == |schedule|)
    }

    /** Still in the same call of `OnNextMessage`. */
    ghost predicate SameCall(was: Local)
      reads this
    {
      Kept(Client, was) && cli.fn == was.fn && cli.posted == was.posted
    }

    ghost predicate Ended(t: Thread, end: Ending, was: Local)
      reads this
    {
      && Valid()
      && match end
         case Returned => At(t, Finish) && Kept(t, was)
         case Violated => Here(t).pc.Threw?
         case Hung => t.Client? && At(t, InNotifyRequested(Parked)) && waiting
    }

    ghost predicate At(t: Thread, pc: Pc)
      reads this
    {
      && Valid() && Alive() && Here(t).pc == pc
      && Here(t).depth >= 0 && (t.Client? ==> Here(t).origin.FromInstall?)
    }

    constructor (maxSize: nat, initialData: seq<Message>, uninitialised: bool)
      requires |initialData| <= maxSize
      ensures Valid() && Init(Now()) && trace == [] && messages == initialData && capacity == maxSize
    {
      var sh := Shared(Disabled, None, false, None, uninitialised, false, false, false);
      var idle := Local(Idle, Disabled, false, FromInstall, 0, 0, false);
      var none := History(0, multiset{}, {}, initialData, [], 0, 0, 0, 0, 0, false, false, false);
      notifyState, onNotify, targetToNotify, pendingOnNotify := Disabled, None, false, None;
      pendingTarget, waiting, batching, state, aborted := uninitialised, false, false, Consuming, false;
      messages, capacity := initialData, maxSize;
      handoff, pub, cli, h, trace := false, idle, idle, none, [];
      start := State(sh, Data(initialData, maxSize, Consuming, false), idle, idle, none);
    }

    // ------------------------------------------------------------ atomic operations

    /** Keep the books after a step whose effect on the fields has been made. */
    method Moved(t: Thread, o: Outcome, ghost was: State)
      requires Init(start) && was == Exec(start, trace) && Alive() && CanStep(was.sh, LocalOf(was, t))
      requires Now() == was.(sh := Fields())
      requires o == Step(was.sh, LocalOf(was, t), was.data.queue == []) && Fields() == o.sh
      modifies this`pub, this`cli, this`h, this`trace
      ensures old(trace) <= trace
      ensures Valid() && Here(t) == o.l && (Alive() <==> !o.l.pc.Threw?)
      ensures h.pushed == old(h.pushed)
    {
      hide Init, Step, Exec;
      if t.Publisher? { pub := o.l; } else { cli := o.l; }
      h := Record(h, t, o.e);
      ExecMore(start, trace, StepOf(t));
      trace := trace + [StepOf(t)];
    }

    /** A load of `notifyState`. */
    method Load(t: Thread, schedule: Schedule, k: nat, ghost pc: Pc) returns (currentState: NotifyState, next: nat)
      requires Valid() && Alive() && Able(Here(t).pc) && WillLoad(Here(t), pc) && k <= |schedule|
      modifies this
      ensures old(trace) <= trace
      ensures Onward(schedule, k, next, old(Here(t)).(pc := pc, cur := currentState), t)
      ensures k == |schedule| ==> notifyState == old(notifyState)
      ensures t.Publisher? ==> h.pushed == old(h.pushed)
    {
      hide Exec, Init, F.NoInstall;
      next := Meanwhile(t, schedule, k);
      ghost var was := Now();
      var o := Next(t);
      currentState := notifyState;
      Moved(t, o, was);
    }

    /** A compare-exchange of `notifyState`: on failure `currentState` takes the value found. */
    method Exchange(t: Thread, schedule: Schedule, k: nat, currentState: NotifyState, newState: NotifyState,
                    ghost ok: Pc, ghost again: Pc)
      returns (handled: bool, found: NotifyState, next: nat)
      requires Valid() && Alive() && Able(Here(t).pc) && Here(t).cur == currentState && k <= |schedule|
      requires WillTry(Here(t), newState, ok, again)
      modifies this
      ensures old(trace) <= trace
      ensures Onward(schedule, k, next,
                     if handled then old(Here(t)).(pc := ok) else old(Here(t)).(cur := found, pc := again), t)
      ensures if k < |schedule| then k < next else
                handled == (old(notifyState) == currentState) && found == old(notifyState)
      ensures notifyState == (if handled then newState else found) && (handled ==> found == currentState)
      ensures t.Publisher? ==> h.pushed == old(h.pushed)
    {
      hide Exec, Init, F.NoInstall;
      next := Meanwhile(t, schedule, k);
      handled, found := Swap(t, currentState, newState, ok, again);
    }

    method Swap(t: Thread, currentState: NotifyState, newState: NotifyState, ghost ok: Pc, ghost again: Pc)
      returns (handled: bool, found: NotifyState)
      requires Valid() && Alive() && Able(Here(t).pc) && Here(t).cur == currentState
      requires Tries(Next(t), Fields(), Here(t), newState, ok, again)
      modifies this
      ensures old(trace) <= trace
      ensures Valid() && Alive() == !Here(t).pc.Threw? && h.pushed == old(h.pushed)
      ensures Here(t) == if handled then old(Here(t)).(pc := ok) else old(Here(t)).(cur := found, pc := again)
      ensures handled == (old(notifyState) == currentState) && found == old(notifyState)
      ensures notifyState == (if handled then newState else found) && (handled ==> found == currentState)
    {
      hide Exec, Init, Step;
      ghost var was := Now();
      var o := Next(t);
      handled, found := notifyState == currentState, notifyState;
      if handled { notifyState := newState; }
      handoff := o.sh.handoff;
      Moved(t, o, was);
    }

    /** A step within the thread: a branch, a return, a throw. */
    method Pass(t: Thread, ghost to: Local)
      requires Valid() && Alive() && CanStep(Fields(), Here(t)) && WillGo(Here(t), to)
      modifies this
      ensures old(trace) <= trace
      ensures Valid() && Here(t) == to && (Alive() <==> !to.pc.Threw?)
      ensures notifyState == old(notifyState) && h.pushed == old(h.pushed)
    {
      hide Exec, Init, F.NoInstall;
      ghost var was := Now();
      var o := Next(t);
      Moved(t, o, was);
    }

    /** An atomic write to a slot or flag. */
    method Store(t: Thread, schedule: Schedule, k: nat, w: Write, ghost pc: Pc) returns (next: nat)
      requires Valid() && Alive() && Able(Here(t).pc) && WillStore(Here(t), w, pc) && !pc.Threw? && k <= |schedule|
      modifies this
      ensures old(trace) <= trace
      ensures Onward(schedule, k, next, old(Here(t)).(pc := pc), t)
      ensures w.Waiting? ==> waiting == w.on
      ensures k == |schedule| ==> notifyState == old(notifyState)
      ensures t.Publisher? ==> h.pushed == old(h.pushed)
    {
      hide Exec, Init, F.NoInstall;
      next := Meanwhile(t, schedule, k);
      StoreNow(t, w, pc);
    }

    method StoreNow(t: Thread, w: Write, ghost pc: Pc)
      requires Valid() && Alive() && Able(Here(t).pc) && !pc.Threw?
      requires Next(t).sh == Written(Fields(), w) && Next(t).l == Here(t).(pc := pc)
      modifies this
      ensures old(trace) <= trace
      ensures Valid() && Alive() && Here(t) == old(Here(t)).(pc := pc) && Fields() == Written(old(Fields()), w)
      ensures notifyState == old(notifyState) && h.pushed == old(h.pushed)
    {
      hide Exec, Init, Step;
      ghost var was := Now();
      var o := Next(t);
      Assign(w);
      Moved(t, o, was);
    }

    method Assign(w: Write)
      modifies this`onNotify, this`targetToNotify, this`pendingOnNotify, this`pendingTarget, this`waiting, this`batching
      ensures Fields() == Written(old(Fields()), w)
    {
      match w {
        case OnNotify(fn) => onNotify := fn;
        case TargetToNotify(posted) => targetToNotify := posted;
        case PendingOnNotify(fn) => pendingOnNotify := fn;
        case PendingTarget(posted) => pendingTarget := posted;
        case MovePendingFn => onNotify := pendingOnNotify; pendingOnNotify := None;
        case MovePendingTarget => targetToNotify := pendingTarget;
        case Waiting(on) => waiting := on;
        case Batching(on) => batching := on;
      }
    }

    /** `if (targetToNotify)`. */
    method Posting(t: Thread, schedule: Schedule, k: nat, ghost post: Pc, ghost call: Pc)
      returns (posting: bool, next: nat)
      requires Valid() && Alive() && Able(Here(t).pc) && WillBranch(Here(t), post, call) && k <= |schedule|
      requires !post.Threw? && !call.Threw?
      modifies this
      ensures old(trace) <= trace
      ensures Onward(schedule, k, next, old(Here(t)).(pc := if posting then post else call), t)
      ensures k == |schedule| ==> notifyState == old(notifyState)
      ensures t.Publisher? ==> h.pushed == old(h.pushed)
    {
      hide Exec, Init, F.NoInstall;
      next := Meanwhile(t, schedule, k);
      posting := targetToNotify;
      ghost var was := Now();
      var o := Next(t);
      Moved(t, o, was);
    }

    /** `messages.empty()`. */
    method Empty(t: Thread, schedule: Schedule, k: nat, ghost pc: Pc) returns (empty: bool, next: nat)
      requires Valid() && Alive() && Able(Here(t).pc) && WillTestEmpty(Here(t), pc) && !pc.Threw? && k <= |schedule|
      modifies this
      ensures old(trace) <= trace
      ensures Onward(schedule, k, next, old(Here(t)).(sawEmpty := empty, pc := pc), t)
      ensures k == |schedule| ==> notifyState == old(notifyState)
      ensures t.Publisher? ==> h.pushed == old(h.pushed)
    {
      hide Exec, Init, F.NoInstall;
      next := Meanwhile(t, schedule, k);
      empty := messages == [];
      ghost var was := Now();
      var o := Next(t);
      Moved(t, o, was);
    }

    /** Call the live trigger, or post it; using an empty slot is a violation. */
    method Invoke(t: Thread, schedule: Schedule, k: nat, ghost to: Local) returns (end: Ending, next: nat)
      requires Valid() && Alive() && Able(Here(t).pc) && WillInvoke(Here(t), to) && !to.pc.Threw? && k <= |schedule|
      modifies this
      ensures old(trace) <= trace
      ensures match end
        case Returned => Onward(schedule, k, next, to, t)
        case Violated => Valid() && k <= next <= |schedule| && Here(t).pc.Threw?
        case Hung => false
      ensures k == |schedule| ==> notifyState == old(notifyState)
      ensures t.Publisher? ==> h.pushed == old(h.pushed)
    {
      hide Exec, Init, F.NoInstall;
      next := Meanwhile(t, schedule, k);
      end := if onNotify.Some? then Returned else Violated;
      ghost var was := Now();
      var o := Next(t);
      Moved(t, o, was);
    }

    method Overwrite(sh: Shared)
      modifies this`notifyState, this`onNotify, this`targetToNotify, this`pendingOnNotify, this`pendingTarget,
               this`waiting, this`handoff, this`batching
      ensures Fields() == sh
    {
      notifyState, onNotify, targetToNotify := sh.ns, sh.onNotify, sh.target;
      pendingOnNotify, pendingTarget := sh.pendingFn, sh.pendingTarget;
      waiting, handoff, batching := sh.waiter, sh.handoff, sh.batching;
    }

    /** Keep the books after a user's operation has changed the fields. */
    method Did(a: Action, ghost was: State)
      requires Init(start) && was == Exec(start, trace) && Now() == Apply(was, a)
      modifies this`trace
      ensures Valid() && trace == old(trace) + [a]
    {
      hide Init, Apply, Exec;
      ExecMore(start, trace, a);
      trace := trace + [a];
    }

    /** The effect of an action by someone else. */
    method Become(s: State, a: Action)
      requires Valid() && s == Apply(Now(), a) && s.data.cap == capacity
      modifies this
      ensures old(trace) <= trace
      ensures Valid() && Now() == s && trace == old(trace) + [a]
    {
      hide Init, Apply, Exec;
      ExecMore(start, trace, a);
      Overwrite(s.sh);
      messages, state, aborted := s.data.queue, s.data.consumer, s.data.aborted;
      pub, cli, h := s.pub, s.cli, s.h;
      trace := trace + [a];
    }

    /** Time passes for thread `t`: the next gap of the schedule, and nothing once it is used up.
        When the other thread comes to a throw it is left standing there. */
    method Meanwhile(t: Thread, schedule: Schedule, k: nat) returns (next: nat)
      requires Valid() && Alive() && k <= |schedule|
      modifies this
      ensures old(trace) <= trace
      ensures Valid() && Alive() && Here(t) == old(Here(t))
      ensures next == if k < |schedule| then k + 1 else k
      ensures k == |schedule| ==> Now() == old(Now()) && notifyState == old(notifyState)
      ensures t.Publisher? ==> h.pushed == old(h.pushed)
      ensures t.Client? ==> h.issued == old(h.issued) && F.NoInstall(trace, |old(trace)|, |trace|)
      ensures old(aborted) ==> aborted
    {
      next := k;
      if k < |schedule| {
        next := k + 1;
        var actions := schedule[k].actions;
        for i := 0 to |actions|
          invariant old(trace) <= trace
          invariant Valid() && Alive() && Here(t) == old(Here(t))
          invariant t.Publisher? ==> h.pushed == old(h.pushed)
          invariant t.Client? ==> h.issued == old(h.issued) && F.NoInstall(trace, |old(trace)|, |trace|)
          invariant old(aborted) ==> aborted
        {
          if Elsewhere(t, Here(t).pc, actions[i]) {
            var s := Apply(Now(), actions[i]);
            ElsewhereLeavesThread(Now(), t, actions[i]);
            if !HasThrown(s) { Become(s, actions[i]); }
          }
        }
      }
    }

    // ------------------------------------------------------------ the publisher's loops

    method PushComplete(schedule: Schedule, k: nat) returns (end: Ending, next: nat)
      requires At(Publisher, InPushComplete(Read)) && k <= |schedule|
      modifies this
      ensures old(trace) <= trace
      ensures Ended(Publisher, end, old(pub)) && k <= next <= |schedule|
      ensures h.pushed == old(h.pushed)
    {
      hide Exec, Init, PipeSubscriber.Valid;
      PushCompleteSwitch(pub);
      var currentState;
      currentState, next := Load(Publisher, schedule, k, InPushComplete(Try));
      var handled, publish := false, false;
      while !handled
        invariant old(trace) <= trace
        invariant At(Publisher, if !handled then InPushComplete(Try)
                                else if publish then InPublishNext(Test) else Finish)
        invariant !handled ==> pub.cur == currentState
        invariant k <= next <= |schedule| && h.pushed == old(h.pushed)
        invariant Kept(Publisher, old(pub))
        decreases !handled, |schedule| - next, notifyState != currentState
      {
        handled, currentState, publish, next := PushCompleteOnce(schedule, next, currentState);
        if pub.pc.Threw? { return Violated, next; }
      }
      end := Returned;
      if publish {
        end, next := PublishNextMessage(schedule, next);
      }
    }

    /** One turn of the loop in `PushComplete`. */
    method PushCompleteOnce(schedule: Schedule, k: nat, currentState: NotifyState)
      returns (handled: bool, found: NotifyState, publish: bool, next: nat)
      requires At(Publisher, InPushComplete(Try)) && k <= |schedule| && pub.cur == currentState
      modifies this
      ensures old(trace) <= trace && h.pushed == old(h.pushed) && k <= next <= |schedule|
      ensures if pub.pc.Threw? then Valid() else
                && At(Publisher, if !handled then InPushComplete(Try)
                                 else if publish then InPublishNext(Test) else Finish)
                && Kept(Publisher, old(pub)) && (!handled ==> pub.cur == found)
                && (handled || k < next || (old(notifyState) != currentState && notifyState == found))
    {
      hide Exec, Init, PipeSubscriber.Valid;
      PushCompleteSwitch(pub);
      handled, found, publish, next := true, currentState, false, k;
      match currentState {
        case Disabled | PullRequired | ClientWillReconfigure | Pulling | ReconfigureRequired =>
          Pass(Publisher, pub.(pc := Finish));
        case NothingToNotify =>
          handled, found, next :=
            Exchange(Publisher, schedule, k, currentState, Publishing, InPublishNext(Test), pub.pc);
          publish := true;
        case Configuring =>
          handled, found, next := Exchange(Publisher, schedule, k, currentState, PullRequired, Finish, pub.pc);
        case SubWakeupRequired | Publishing | PubWillReconfigure | PubReconfiguring | PreparingPubReconfigure =>
          Pass(Publisher, pub.(pc := Threw(Loop.PushComplete)));
      }
    }

    method PublishNextMessage(schedule: Schedule, k: nat) returns (end: Ending, next: nat)
      requires At(Publisher, InPublishNext(Test)) && k <= |schedule|
      modifies this
      ensures old(trace) <= trace
      ensures Ended(Publisher, end, old(pub)) && k <= next <= |schedule|
      ensures h.pushed == old(h.pushed)
    {
      hide Exec, Init, PipeSubscriber.Valid;
      end, next := PublishLive(schedule, k);
      if end.Violated? { return; }
      PublishNextSteps(pub);
      next := Store(Publisher, schedule, next, OnNotify(None), InPublishComplete(Read));
      end, next := PublishComplete(schedule, next);
    }

    /** Post the live trigger to its target, or call it. */
    method PublishLive(schedule: Schedule, k: nat) returns (end: Ending, next: nat)
      requires At(Publisher, InPublishNext(Test)) && k <= |schedule|
      modifies this
      ensures old(trace) <= trace && h.pushed == old(h.pushed) && k <= next <= |schedule|
      ensures if end.Returned? then At(Publisher, InPublishNext(ClearFn)) && Kept(Publisher, old(pub))
              else end.Violated? && Valid() && pub.pc.Threw?
    {
      hide Exec, Init, PipeSubscriber.Valid;
      var posting;
      PublishNextSteps(pub);
      posting, next := Posting(Publisher, schedule, k, InPublishNext(Post), InPublishNext(Call));
      PublishNextSteps(pub);
      if posting {
        end, next := Invoke(Publisher, schedule, next, pub.(pc := InPublishNext(ClearTarget)));
        if end.Violated? { return; }
        PublishNextSteps(pub);
        next := Store(Publisher, schedule, next, TargetToNotify(false), InPublishNext(ClearFn));
      } else {
        end, next := Invoke(Publisher, schedule, next, pub.(pc := InPublishNext(Running)));
        if end.Violated? { return; }
        next := Meanwhile(Publisher, schedule, next); // the trigger runs
        PublishNextSteps(pub);
        Pass(Publisher, pub.(pc := InPublishNext(ClearFn)));
      }
    }

    method PublishComplete(schedule: Schedule, k: nat) returns (end: Ending, next: nat)
      requires At(Publisher, InPublishComplete(Read)) && k <= |schedule|
      modifies this
      ensures old(trace) <= trace
      ensures Ended(Publisher, end, old(pub)) && k <= next <= |schedule|
      ensures h.pushed == old(h.pushed)
    {
      hide Exec, Init, PipeSubscriber.Valid;
      PublishCompleteSwitch(pub);
      var currentState;
      currentState, next := Load(Publisher, schedule, k, InPublishComplete(Try));
      var handled, reconfigure := false, false;
      while !handled
        invariant old(trace) <= trace
        invariant At(Publisher, if !handled then InPublishComplete(Try)
                                else if reconfigure then InConfigurePending(MoveFn) else Finish)
        invariant !handled ==> pub.cur == currentState
        invariant k <= next <= |schedule| && h.pushed == old(h.pushed)
        invariant Kept(Publisher, old(pub))
        decreases !handled, |schedule| - next, notifyState != currentState
      {
        handled, currentState, reconfigure, next := PublishCompleteOnce(schedule, next, currentState);
        if pub.pc.Threw? { return Violated, next; }
      }
      end := Returned;
      if reconfigure {
        end, next := ConfigurePendingNotify(Publisher, schedule, next);
      }
    }

    /** One turn of the loop in `PublishComplete`. */
    method PublishCompleteOnce(schedule: Schedule, k: nat, currentState: NotifyState)
      returns (handled: bool, found: NotifyState, reconfigure: bool, next: nat)
      requires At(Publisher, InPublishComplete(Try)) && k <= |schedule| && pub.cur == currentState
      modifies this
      ensures old(trace) <= trace && h.pushed == old(h.pushed) && k <= next <= |schedule|
      ensures if pub.pc.Threw? then Valid() else
                && At(Publisher, if !handled then InPublishComplete(Try)
                                 else if reconfigure then InConfigurePending(MoveFn) else Finish)
                && Kept(Publisher, old(pub)) && (!handled ==> pub.cur == found)
                && (handled || k < next || (old(notifyState) != currentState && notifyState == found))
    {
      hide Exec, Init, PipeSubscriber.Valid;
      PublishCompleteSwitch(pub);
      handled, found, reconfigure, next := true, currentState, false, k;
      match currentState {
        case Publishing =>
          handled, found, next := Exchange(Publisher, schedule, k, currentState, Disabled, Finish, pub.pc);
        case PreparingPubReconfigure =>
          handled, found, next :=
            Exchange(Publisher, schedule, k, currentState, NotifyState.ClientWillReconfigure, Finish, pub.pc);
        case PubWillReconfigure =>
          handled, found, next :=
            Exchange(Publisher, schedule, k, currentState, PubReconfiguring, InConfigurePending(MoveFn), pub.pc);
          reconfigure := true;
        case _ =>
          Pass(Publisher, pub.(pc := Threw(Loop.PublishComplete)));
      }
    }

    // ------------------------------------------------------------ configuring

    method ConfigurePendingNotify(t: Thread, schedule: Schedule, k: nat) returns (end: Ending, next: nat)
      requires At(t, InConfigurePending(MoveFn)) && k <= |schedule|
      modifies this
      ensures old(trace) <= trace
      ensures Ended(t, end, old(Here(t))) && k <= next <= |schedule|
      ensures t.Publisher? ==> h.pushed == old(h.pushed)
      decreases |schedule| - k, notifyState == ReconfigureRequired, 5
    {
      hide Exec, Init, PipeSubscriber.Valid;
      ConfigurePendingSteps(Here(t));
      next := Store(t, schedule, k, MovePendingFn, InConfigurePending(MoveTarget));
      ConfigurePendingSteps(Here(t));
      next := Store(t, schedule, next, MovePendingTarget, InConfigurePending(DropTarget));
      ConfigurePendingSteps(Here(t));
      next := Store(t, schedule, next, PendingTarget(false), InNotifyConfigured(ReadNow));
      end, next := NotifyConfigured(t, schedule, next);
    }

    method NotifyConfigured(t: Thread, schedule: Schedule, k: nat) returns (end: Ending, next: nat)
      requires At(t, InNotifyConfigured(ReadNow)) && k <= |schedule|
      modifies this
      ensures old(trace) <= trace
      ensures Ended(t, end, old(Here(t))) && k <= next <= |schedule|
      ensures t.Publisher? ==> h.pushed == old(h.pushed)
      decreases |schedule| - k, notifyState == ReconfigureRequired, 4
    {
      hide Exec, Init, PipeSubscriber.Valid;
      NotifyConfiguredSwitch(Here(t));
      var currentState;
      currentState, next := Load(t, schedule, k, InNotifyConfigured(Switch));
      var handled, action := false, Settled;
      while !handled
        invariant old(trace) <= trace
        invariant At(t, if !handled then InNotifyConfigured(Switch)
                        else match action case Settled => Finish
                                          case MustPull => InPullNext(Test)
                                          case MustWake => InNotifyConfigured(Wake))
        invariant !handled ==> Here(t).cur == currentState
        invariant k <= next <= |schedule| && (t.Publisher? ==> h.pushed == old(h.pushed))
        invariant Kept(t, old(Here(t)))
        invariant handled && action == MustPull ==> notifyState == Pulling
        decreases !handled, |schedule| - next, notifyState != currentState
      {
        handled, currentState, action, next := NotifyConfiguredOnce(t, schedule, next, currentState);
        if Here(t).pc.Threw? { end := Violated; return; }
      }
      end := Returned;
      match action {
        case Settled =>
        case MustWake =>
          NotifyConfiguredSwitch(Here(t));
          next := Store(t, schedule, next, Waiting(false), Finish); // notify_one
        case MustPull =>
          end, next := PullNextMessage(t, schedule, next);
      }
    }

    /** The CONFIGURING case: prime the trigger, unless there is something to pull already. */
    method PrimeOrPull(t: Thread, schedule: Schedule, k: nat, currentState: NotifyState)
      returns (handled: bool, found: NotifyState, action: Configured, next: nat)
      requires At(t, InNotifyConfigured(Switch)) && k <= |schedule| && Here(t).cur == currentState == Configuring
      modifies this
      ensures old(trace) <= trace
      ensures k <= next <= |schedule| && Kept(t, old(Here(t)))
      ensures At(t, if !handled then InNotifyConfigured(Switch)
                    else if action == MustPull then InPullNext(Test) else Finish)
      ensures action != MustWake && (!handled ==> Here(t).cur == found)
      ensures handled || k < next || (old(notifyState) != currentState && notifyState == found)
      ensures handled && action == MustPull ==> notifyState == Pulling
      ensures t.Publisher? ==> h.pushed == old(h.pushed)
    {
      hide Exec, Init, PipeSubscriber.Valid;
      var empty;
      NotifyConfiguredSwitch(Here(t));
      empty, next := Empty(t, schedule, k, InNotifyConfigured(TryTested));
      NotifyConfiguredSwitch(Here(t));
      if !empty {
        handled, found, next :=
          Exchange(t, schedule, next, currentState, Pulling, InPullNext(Test), InNotifyConfigured(Switch));
        action := MustPull;
      } else {
        handled, found, next :=
          Exchange(t, schedule, next, currentState, NothingToNotify, Finish, InNotifyConfigured(Switch));
        action := Settled;
      }
    }

    /** One turn of the loop in `NotifyConfigured`. */
    method NotifyConfiguredOnce(t: Thread, schedule: Schedule, k: nat, currentState: NotifyState)
      returns (handled: bool, found: NotifyState, action: Configured, next: nat)
      requires At(t, InNotifyConfigured(Switch)) && k <= |schedule| && Here(t).cur == currentState
      modifies this
      ensures old(trace) <= trace
      ensures Valid() && k <= next <= |schedule|
      ensures Here(t).pc.Threw? ||
        (&& At(t, if !handled then InNotifyConfigured(Switch)
                  else match action case Settled => Finish
                                    case MustPull => InPullNext(Test)
                                    case MustWake => InNotifyConfigured(Wake))
         && (!handled ==> Here(t).cur == found) && Kept(t, old(Here(t)))
         && (handled || k < next || (old(notifyState) != currentState && notifyState == found))
         && (handled && action == MustPull ==> notifyState == Pulling))
      ensures t.Publisher? ==> h.pushed == old(h.pushed)
    {
      hide Exec, Init, PipeSubscriber.Valid;
      NotifyConfiguredSwitch(Here(t));
      handled, found, action, next := false, currentState, Settled, k;
      match currentState {
        case Configuring =>
          handled, found, action, next := PrimeOrPull(t, schedule, next, currentState);
        case PullRequired =>
          handled, found, next := Exchange(t, schedule, next, currentState, Pulling, InPullNext(Test), Here(t).pc);
          action := MustPull;
        case PubReconfiguring =>
          handled, found, next := Exchange(t, schedule, next, currentState, NothingToNotify, Finish, Here(t).pc);
        case SubWakeupRequired =>
          handled, found, next :=
            Exchange(t, schedule, next, currentState, Configuring, InNotifyConfigured(Wake), Here(t).pc);
          action := MustWake;
        case _ =>
          Pass(t, Here(t).(pc := Threw(Loop.NotifyConfigured)));
      }
    }

    // ------------------------------------------------------------ the client's loops

    method PullNextMessage(t: Thread, schedule: Schedule, k: nat) returns (end: Ending, next: nat)
      requires At(t, InPullNext(Test)) && k <= |schedule|
      modifies this
      ensures old(trace) <= trace
      ensures Ended(t, end, old(Here(t))) && k <= next <= |schedule|
      ensures t.Publisher? ==> h.pushed == old(h.pushed)
      decreases |schedule| - k, notifyState == ReconfigureRequired, 3
    {
      hide Exec, Init, PipeSubscriber.Valid;
      var posting;
      PullNextSteps(Here(t));
      posting, next := Posting(t, schedule, k, InPullNext(Post), InPullNext(Call));
      if posting {
        end, next := PostLive(t, schedule, next);
      } else {
        end, next := CallLive(t, schedule, next);
      }
      if !end.Returned? { return; }
      PullNextSteps(Here(t));
      next := Store(t, schedule, next, OnNotify(None), InPullComplete(Read));
      end, next := PullComplete(t, schedule, next);
    }

    /** The live trigger is posted to its target, which is then dropped. */
    method PostLive(t: Thread, schedule: Schedule, k: nat) returns (end: Ending, next: nat)
      requires At(t, InPullNext(Post)) && k <= |schedule|
      modifies this
      ensures old(trace) <= trace
      ensures k <= next <= |schedule|
      ensures if end.Returned? then At(t, InPullNext(ClearFn)) && Kept(t, old(Here(t)))
              else Ended(t, end, old(Here(t)))
      ensures end.Returned? && next == k ==> notifyState == old(notifyState)
      ensures t.Publisher? ==> h.pushed == old(h.pushed)
    {
      hide Exec, Init, PipeSubscriber.Valid;
      PullNextSteps(Here(t));
      end, next := Invoke(t, schedule, k, Here(t).(pc := InPullNext(ClearTarget)));
      if end.Violated? { return; }
      PullNextSteps(Here(t));
      next := Store(t, schedule, next, TargetToNotify(false), InPullNext(ClearFn));
    }

    /** `onNotify();` */
    method CallLive(t: Thread, schedule: Schedule, k: nat) returns (end: Ending, next: nat)
      requires At(t, InPullNext(Call)) && k <= |schedule|
      modifies this
      ensures old(trace) <= trace
      ensures k <= next <= |schedule|
      ensures if end.Returned? then At(t, InPullNext(ClearFn)) && Kept(t, old(Here(t)))
              else Ended(t, end, old(Here(t)))
      ensures end.Returned? && next == k ==> notifyState == old(notifyState)
      ensures t.Publisher? ==> h.pushed == old(h.pushed)
      decreases |schedule| - k, notifyState == ReconfigureRequired, 2
    {
      hide Exec, Init, PipeSubscriber.Valid;
      PullNextSteps(Here(t));
      end, next := Invoke(t, schedule, k, Here(t).(pc := InPullNext(Running), depth := Here(t).depth + 1));
      if end.Violated? { return; }
      end, next := RunTrigger(t, schedule, next);
      if !end.Returned? { return; }
      PullNextSteps(Here(t));
      Pass(t, Here(t).(pc := InPullNext(ClearFn), depth := Here(t).depth - 1));
    }

    /** The user's trigger, run inside a pull: it may pop, abort, and install further triggers. */
    method RunTrigger(t: Thread, schedule: Schedule, k: nat) returns (end: Ending, next: nat)
      requires At(t, InPullNext(Running)) && Here(t).depth > 0 && k <= |schedule|
      modifies this
      ensures old(trace) <= trace
      ensures k <= next <= |schedule|
      ensures if end.Returned? then At(t, InPullNext(Running)) && Kept(t, old(Here(t)))
              else Ended(t, end, old(Here(t)))
      ensures end.Returned? && next == k ==> notifyState == old(notifyState)
      ensures t.Publisher? ==> h.pushed == old(h.pushed)
      decreases |schedule| - k, notifyState == ReconfigureRequired, 1
    {
      hide Exec, Init, PipeSubscriber.Valid;
      end := Returned;
      next := Meanwhile(t, schedule, k);
      while t.Client? && next < |schedule| && schedule[next].reinstall.Some?
        invariant old(trace) <= trace
        invariant k <= next <= |schedule| && (k < |schedule| ==> k < next)
        invariant end.Returned? && At(t, InPullNext(Running)) && Kept(t, old(Here(t)))
        invariant next == k ==> notifyState == old(notifyState)
        invariant t.Publisher? ==> h.pushed == old(h.pushed)
      {
        var posted := schedule[next].reinstall.value;
        next := Meanwhile(t, schedule, next);
        end, next := OnNextMessage(posted, schedule, next);
        if !end.Returned? { return; }
      }
    }

    method PullComplete(t: Thread, schedule: Schedule, k: nat) returns (end: Ending, next: nat)
      requires At(t, InPullComplete(Read)) && k <= |schedule|
      modifies this
      ensures old(trace) <= trace
      ensures Ended(t, end, old(Here(t))) && k <= next <= |schedule|
      ensures t.Publisher? ==> h.pushed == old(h.pushed)
      decreases |schedule| - k, notifyState == ReconfigureRequired, 2
    {
      hide Exec, Init, PipeSubscriber.Valid;
      PullCompleteSwitch(Here(t));
      var currentState;
      currentState, next := Load(t, schedule, k, InPullComplete(Try));
      var handled := false;
      while !handled
        invariant old(trace) <= trace
        invariant At(t, if handled then Finish else InPullComplete(Try))
        invariant !handled ==> Here(t).cur == currentState
        invariant k <= next <= |schedule| && (t.Publisher? ==> h.pushed == old(h.pushed))
        invariant Kept(t, old(Here(t)))
        invariant !handled && next == k ==> notifyState == old(notifyState)
        decreases !handled, |schedule| - next, notifyState != currentState
      {
        var reconfigure;
        handled, currentState, reconfigure, next := PullCompleteOnce(t, schedule, next, currentState);
        if Here(t).pc.Threw? { return Violated, next; }
        if reconfigure {
          end, next := ConfigurePendingNotify(t, schedule, next);
          return;
        }
      }
      end := Returned;
    }

    /** One turn of the loop in `PullComplete`. */
    method PullCompleteOnce(t: Thread, schedule: Schedule, k: nat, currentState: NotifyState)
      returns (handled: bool, found: NotifyState, reconfigure: bool, next: nat)
      requires At(t, InPullComplete(Try)) && k <= |schedule| && Here(t).cur == currentState
      modifies this
      ensures old(trace) <= trace && k <= next <= |schedule| && (t.Publisher? ==> h.pushed == old(h.pushed))
      ensures if Here(t).pc.Threw? then Valid() else
                && At(t, if !handled then InPullComplete(Try)
                         else if reconfigure then InConfigurePending(MoveFn) else Finish)
                && Kept(t, old(Here(t))) && (!handled ==> Here(t).cur == found && !reconfigure)
                && (reconfigure ==> notifyState == PullRequired)
                && (reconfigure && k == next ==> old(notifyState) == ReconfigureRequired)
                && (handled || k < next
                    || (old(notifyState) != currentState && notifyState == found == old(notifyState)))
    {
      hide Exec, Init, PipeSubscriber.Valid;
      PullCompleteSwitch(Here(t));
      handled, found, reconfigure, next := true, currentState, false, k;
      match currentState {
        case Pulling =>
          handled, found, next := Exchange(t, schedule, k, currentState, Disabled, Finish, Here(t).pc);
        case ReconfigureRequired =>
          handled, found, next :=
            Exchange(t, schedule, k, currentState, PullRequired, InConfigurePending(MoveFn), Threw(Retry));
          reconfigure := true;
        case _ =>
          Pass(t, Here(t).(pc := Threw(Loop.PullComplete)));
      }
    }

    /** Arm a trigger, called or posted to a target when there is news.  Called by the client, or by
        a trigger of its own while a pull runs it. */
    method OnNextMessage(posted: bool, schedule: Schedule, k: nat) returns (end: Ending, next: nat)
      requires Valid() && Alive() && AtUserCode(cli) && k <= |schedule|
      requires if cli.pc.Idle? then cli.depth == 0 else cli.depth > 0 && cli.origin.FromInstall?
      modifies this
      ensures old(trace) <= trace
      ensures k <= next <= |schedule|
      ensures if end.Returned? then Valid() && Alive() && cli.pc == old(cli.pc) && cli.depth == old(cli.depth)
              else Ended(Client, end, old(cli))
      ensures end.Returned? && !old(aborted) ==> cli.origin.FromInstall?
      ensures old(aborted) ==> Now() == old(Now()) && end == Returned && next == k
      ensures !old(aborted) && old(cli.pc).Idle? && !end.Hung? ==> (end.Violated? <==> ProvisoBroken(h))
      ensures !old(aborted) ==> BeginsWith(|old(trace)|, CliInstall(posted)) && h.issued > old(h.issued)
      ensures end.Returned? && !old(aborted) ==> Lands(old(h.issued))
      decreases |schedule| - k, true, 9
    {
      hide Exec, Init, PipeSubscriber.Valid, ClientDoomed, PipeSubscriber.Lands;
      end, next := Returned, k;
      Counted();
      if !aborted {
        end, next := Install(posted, schedule, next);
        Doomed();
        if end.Returned? { HasLanded(old(h.issued)); }
      }
    }

    lemma Counted()
      requires Valid()
      ensures h.issued >= 0
    {
      RunOnwards(start, trace);
      hide Exec;
    }

    lemma Doomed()
      requires Valid()
      ensures AtUserCode(cli) ==> !ProvisoBroken(h)
      ensures cli.pc.Threw? ==> ProvisoBroken(h)
    {
      DoomedIffProvisoBroken(start, trace);
      hide Exec, Init;
    }

    /** The actions performed from some point on begin with `a`. */
    ghost predicate BeginsWith(from: nat, a: Action)
      reads this
    {
      from < |trace| && trace[from] == a
    }

    /** Trigger `id` is pending, live or has fired; or it was replaced, by one installed since. */
    ghost predicate Lands(id: int)
      reads this
    {
      L.Has(Now(), id, L.Pending) || L.Has(Now(), id, L.Live) || L.Has(Now(), id, L.HasFired)
      || (L.Has(Now(), id, L.Replaced) && id < h.issued - 1)
    }

    lemma HasLanded(id: int)
      requires Valid() && Alive() && AtUserCode(cli) && 0 <= id < h.issued
      ensures Lands(id)
    {
      L.OneStatusPerTrigger(start, trace, id);
      R.LatestKept(start, trace);
      hide Exec, Init, L.Has, R.Latest;
      var st :| L.Has(Now(), id, st);
      StatusLands(Now(), id, st);
    }

    /** Nothing takes back what an earlier state of the object's run has settled. */
    lemma Onwards(from: nat)
      requires Valid() && from <= |trace|
      ensures h.issued >= Exec(start, trace[..from]).h.issued
      ensures Exec(start, trace[..from]).data.consumer.Finished? ==> state == Finished
    {
      assert trace == trace[..from] + trace[from..];
      I.ExecCat(start, trace[..from], trace[from..]);
      RunOnwards(Exec(start, trace[..from]), trace[from..]);
      hide Exec, Init;
    }

    method Install(posted: bool, schedule: Schedule, k: nat) returns (end: Ending, next: nat)
      requires Valid() && Alive() && AtUserCode(cli) && !aborted && k <= |schedule|
      requires if cli.pc.Idle? then cli.depth == 0 else cli.depth > 0
      modifies this
      ensures old(trace) <= trace
      ensures k <= next <= |schedule|
      ensures if end.Returned?
              then Valid() && Alive() && cli == cli.(pc := old(cli.pc), depth := old(cli.depth), origin := FromInstall)
              else Ended(Client, end, old(cli))
      ensures BeginsWith(|old(trace)|, CliInstall(posted)) && h.issued > old(h.issued)
      decreases |schedule| - k, true, 8
    {
      hide Exec, Init, PipeSubscriber.Valid;
      ghost var user, from := cli, |trace|;
      var fn := StartInstall(posted);
      ghost var begun := trace;
      assert begun[..from + 1] == begun;
      end, next := Configure(fn, posted, schedule, k);
      if end.Returned? { BackTo(user.pc); }
      assert trace[..from + 1] == begun;
      Onwards(from + 1);
    }

    /** The client asks for a slot and configures the one it gets. */
    method Configure(fn: int, posted: bool, schedule: Schedule, k: nat) returns (end: Ending, next: nat)
      requires At(Client, InNotifyRequested(ReadFirst)) && cli.fn == fn && cli.posted == posted && k <= |schedule|
      modifies this
      ensures old(trace) <= trace
      ensures Ended(Client, end, old(cli)) && k <= next <= |schedule|
      decreases |schedule| - k, true, 7
    {
      hide Exec, Init, PipeSubscriber.Valid;
      var live;
      end, live, next := NotifyRequested(schedule, k);
      if end.Returned? {
        if live {
          end, next := MakeLive(fn, posted, schedule, next);
        } else {
          end, next := MakePending(fn, posted, schedule, next);
        }
      }
    }

    /** The client is back where it called OnNextMessage. */
    method BackTo(ghost pc: Pc)
      requires At(Client, Finish) && pc == if cli.depth > 0 then InPullNext(Running) else Idle
      modifies this
      ensures old(trace) <= trace && Valid() && Alive() && cli == old(cli).(pc := pc)
    {
      hide Exec, Init;
      FinishSteps(cli);
      Pass(Client, cli.(pc := pc));
    }

    /** The call begins; the trigger gets its number. */
    method StartInstall(posted: bool) returns (fn: int)
      requires Valid() && Alive() && AtUserCode(cli) && !aborted
      modifies this
      ensures old(trace) <= trace
      ensures Valid() && Alive() && fn == old(h.issued) && notifyState == old(notifyState)
      ensures trace == old(trace) + [CliInstall(posted)] && Exec(start, trace).h.issued == fn + 1
      ensures cli == old(cli).(pc := InNotifyRequested(ReadFirst), origin := FromInstall, fn := fn, posted := posted)
    {
      ghost var was := Now();
      fn := h.issued;
      h := h.(issued := fn + 1, nested := h.nested || !cli.pc.Idle?);
      cli := cli.(pc := InNotifyRequested(ReadFirst), origin := FromInstall, fn := fn, posted := posted);
      Did(CliInstall(posted), was);
    }

    /** The client writes the live slot and makes it known. */
    method MakeLive(fn: int, posted: bool, schedule: Schedule, k: nat) returns (end: Ending, next: nat)
      requires At(Client, InOnNextLive(WriteFn)) && cli.fn == fn && cli.posted == posted && k <= |schedule|
      modifies this
      ensures old(trace) <= trace
      ensures Ended(Client, end, old(cli)) && k <= next <= |schedule|
      decreases |schedule| - k, true, 6
    {
      hide Exec, Init, PipeSubscriber.Valid;
      OnNextSteps(cli);
      next := Store(Client, schedule, k, OnNotify(Some(fn)), InOnNextLive(WriteTarget));
      OnNextSteps(cli);
      next := Store(Client, schedule, next, TargetToNotify(posted), InNotifyConfigured(ReadNow));
      end, next := NotifyConfigured(Client, schedule, next);
    }

    /** The client writes the pending slot and makes it known. */
    method MakePending(fn: int, posted: bool, schedule: Schedule, k: nat) returns (end: Ending, next: nat)
      requires At(Client, InOnNextPending(WriteFn)) && cli.fn == fn && cli.posted == posted && k <= |schedule|
      modifies this
      ensures old(trace) <= trace
      ensures Ended(Client, end, old(cli)) && k <= next <= |schedule|
      decreases |schedule| - k, true, 6
    {
      hide Exec, Init, PipeSubscriber.Valid;
      OnNextSteps(cli);
      next := Store(Client, schedule, k, PendingOnNotify(Some(fn)), InOnNextPending(WriteTarget));
      OnNextSteps(cli);
      next := Store(Client, schedule, next, PendingTarget(posted), InNotifyPending(Read));
      end, next := NotifyPendingConfigured(schedule, next);
    }

    /** Ask for a slot to put a trigger in: the live one if true, else the pending one. */
    method NotifyRequested(schedule: Schedule, k: nat) returns (end: Ending, live: bool, next: nat)
      requires At(Client, InNotifyRequested(ReadFirst)) && k <= |schedule|
      modifies this
      ensures old(trace) <= trace
      ensures k <= next <= |schedule|
      ensures if end.Returned?
              then At(Client, if live then InOnNextLive(WriteFn) else InOnNextPending(WriteFn)) && SameCall(old(cli))
              else Ended(Client, end, old(cli))
    {
      hide Exec, Init, PipeSubscriber.Valid;
      NotifyRequestedSwitch(cli);
      var currentState;
      currentState, next := Load(Client, schedule, k, InNotifyRequested(TryNext));
      var handled := false;
      end, live := Returned, false;
      while !handled
        invariant old(trace) <= trace
        invariant end.Returned? && k <= next <= |schedule| && SameCall(old(cli))
        invariant At(Client, if !handled then InNotifyRequested(TryNext)
                             else if live then InOnNextLive(WriteFn) else InOnNextPending(WriteFn))
        invariant !handled ==> cli.cur == currentState
        decreases !handled, |schedule| - next, notifyState != currentState
      {
        end, handled, live, currentState, next := RequestOnce(schedule, next, currentState);
        if !end.Returned? { return; }
      }
    }

    /** One turn of the loop in `NotifyRequested`. */
    method RequestOnce(schedule: Schedule, k: nat, currentState: NotifyState)
      returns (end: Ending, handled: bool, live: bool, found: NotifyState, next: nat)
      requires At(Client, InNotifyRequested(TryNext)) && k <= |schedule| && cli.cur == currentState
      modifies this
      ensures old(trace) <= trace
      ensures k <= next <= |schedule|
      ensures if end.Returned?
              then (&& At(Client, if !handled then InNotifyRequested(TryNext)
                                  else if live then InOnNextLive(WriteFn) else InOnNextPending(WriteFn))
                    && SameCall(old(cli)) && (!handled ==> cli.cur == found)
                    && (handled || k < next || (old(notifyState) != currentState && notifyState == found)))
              else Ended(Client, end, old(cli))
    {
      hide Exec, Init, PipeSubscriber.Valid;
      NotifyRequestedSwitch(cli);
      end, handled, live, found, next := Returned, false, false, currentState, k;
      match currentState {
        case Disabled | NothingToNotify =>
          handled, found, next :=
            Exchange(Client, schedule, next, currentState, Configuring, InOnNextLive(WriteFn), cli.pc);
          live := true;
        case Publishing | PubWillReconfigure =>
          handled, found, next :=
            Exchange(Client, schedule, next, currentState, PreparingPubReconfigure, InOnNextPending(WriteFn), cli.pc);
        case Pulling =>
          handled, found, next := Exchange(Client, schedule, next, currentState,
                                           NotifyState.ReconfigureRequired, InOnNextPending(WriteFn), cli.pc);
        case PubReconfiguring =>
          end, found, next := WaitForPublisher(schedule, next, currentState);
        case Configuring =>
          Pass(Client, cli.(pc := InOnNextLive(WriteFn)));
          handled, live := true, true;
        case ReconfigureRequired =>
          Pass(Client, cli.(pc := InOnNextPending(WriteFn)));
          handled := true;
        case SubWakeupRequired | PreparingPubReconfigure | PullRequired | ClientWillReconfigure =>
          Pass(Client, cli.(pc := Threw(Loop.NotifyRequested)));
          end := Violated;
      }
    }

    /** The PUB_RECONFIGURING case: ask the publisher for a wake-up and wait for it. */
    method WaitForPublisher(schedule: Schedule, k: nat, currentState: NotifyState)
      returns (end: Ending, found: NotifyState, next: nat)
      requires At(Client, InNotifyRequested(TryNext)) && k <= |schedule| && cli.cur == currentState == PubReconfiguring
      modifies this
      ensures old(trace) <= trace
      ensures k <= next <= |schedule|
      ensures match end
        case Returned => At(Client, InNotifyRequested(TryNext)) && SameCall(old(cli)) && cli.cur == found
                         && (k < next || (old(notifyState) != currentState && notifyState == found))
        case Violated => false
        case Hung => Ended(Client, end, old(cli))
    {
      hide Exec, Init, PipeSubscriber.Valid;
      NotifyRequestedSwitch(cli);
      var parking;
      end := Returned;
      parking, found, next :=
        Exchange(Client, schedule, k, currentState, SubWakeupRequired, InNotifyRequested(Park), cli.pc);
      if parking {
        end, next := WaitForWake(schedule, next);
      }
    }

    /** Block until notified.  There is no predicate to wait for: a notification sent before the
        wait begins is missed. */
    method WaitForWake(schedule: Schedule, k: nat) returns (end: Ending, next: nat)
      requires At(Client, InNotifyRequested(Park)) && k <= |schedule|
      modifies this
      ensures old(trace) <= trace
      ensures k <= next <= |schedule| && SameCall(old(cli)) && cli.cur == old(cli.cur)
      ensures match end
        case Returned => k < next && At(Client, InNotifyRequested(TryNext))
        case Violated => false
        case Hung => At(Client, InNotifyRequested(Parked)) && waiting && next == |schedule|
    {
      hide Exec, Init, PipeSubscriber.Valid;
      NotifyRequestedSwitch(cli);
      next := Store(Client, schedule, k, Waiting(true), InNotifyRequested(Parked));
      while waiting && next < |schedule|
        invariant old(trace) <= trace
        invariant k <= next <= |schedule| && At(Client, InNotifyRequested(Parked))
        invariant SameCall(old(cli)) && cli.cur == old(cli.cur)
        invariant waiting || k < next
      {
        next := Meanwhile(Client, schedule, next);
      }
      if waiting { return Hung, next; }
      NotifyRequestedSwitch(cli);
      Pass(Client, cli.(pc := InNotifyRequested(TryNext)));
      end := Returned;
    }

    method NotifyPendingConfigured(schedule: Schedule, k: nat) returns (end: Ending, next: nat)
      requires At(Client, InNotifyPending(Read)) && k <= |schedule|
      modifies this
      ensures old(trace) <= trace
      ensures Ended(Client, end, old(cli)) && k <= next <= |schedule|
      decreases |schedule| - k, true, 5
    {
      hide Exec, Init, PipeSubscriber.Valid;
      NotifyPendingSwitch(cli);
      var currentState;
      currentState, next := Load(Client, schedule, k, InNotifyPending(Try));
      var handled, reconfigure := false, false;
      while !handled
        invariant old(trace) <= trace
        invariant At(Client, if !handled then InNotifyPending(Try)
                             else if reconfigure then InConfigurePending(MoveFn) else Finish)
        invariant !handled ==> cli.cur == currentState
        invariant handled && reconfigure ==> notifyState == Configuring
        invariant k <= next <= |schedule| && Kept(Client, old(cli))
        decreases !handled, |schedule| - next, notifyState != currentState
      {
        handled, currentState, reconfigure, next := NotifyPendingOnce(schedule, next, currentState);
        if cli.pc.Threw? { return Violated, next; }
      }
      end := Returned;
      if reconfigure {
        end, next := ConfigurePendingNotify(Client, schedule, next);
      }
    }

    /** One turn of the loop in `NotifyPendingConfigured`. */
    method NotifyPendingOnce(schedule: Schedule, k: nat, currentState: NotifyState)
      returns (handled: bool, found: NotifyState, reconfigure: bool, next: nat)
      requires At(Client, InNotifyPending(Try)) && k <= |schedule| && cli.cur == currentState
      modifies this
      ensures old(trace) <= trace && k <= next <= |schedule|
      ensures if cli.pc.Threw? then Valid() else
                && At(Client, if !handled then InNotifyPending(Try)
                              else if reconfigure then InConfigurePending(MoveFn) else Finish)
                && Kept(Client, old(cli)) && (!handled ==> cli.cur == found)
                && (handled && reconfigure ==> notifyState == Configuring)
                && (handled || k < next || (old(notifyState) != currentState && notifyState == found))
    {
      hide Exec, Init, PipeSubscriber.Valid;
      NotifyPendingSwitch(cli);
      handled, found, reconfigure, next := true, currentState, false, k;
      match currentState {
        case PreparingPubReconfigure =>
          handled, found, next := Exchange(Client, schedule, k, currentState, PubWillReconfigure, Finish, cli.pc);
        case ClientWillReconfigure =>
          handled, found, next :=
            Exchange(Client, schedule, k, currentState, Configuring, InConfigurePending(MoveFn), cli.pc);
          reconfigure := true;
        case _ =>
          Pass(Client, cli.(pc := Threw(Loop.NotifyPendingConfigured)));
      }
    }

    // ------------------------------------------------------------ the rest of the public interface

    /** Push a message and, unless a batch is open, see to the notification.  The publisher is never
        thrown a ThreadingViolation; a full queue is reported and changes nothing. */
    method PushMessage(m: Message, schedule: Schedule) returns (full: bool)
      requires Valid() && Alive() && pub.pc.Idle? && pub.depth == 0
      modifies this
      ensures old(trace) <= trace
      ensures Valid() && Alive() && pub.pc.Idle? && pub.depth == 0
      ensures full <==> old(|messages|) >= capacity
      ensures full ==> Now() == old(Now())
      ensures !full ==> BeginsWith(|old(trace)|, PubPush(m)) && h.pushed == old(h.pushed) + [m]
      ensures !full && old(batching) ==> messages == old(messages) + [m] && notifyState == old(notifyState)
    {
      hide Exec, Init, Step;
      full := |messages| >= capacity;
      if !full {
        ghost var was, from := Now(), |trace|;
        messages := messages + [m];
        h := h.(pushed := h.pushed + [m]);
        if !batching { pub := EnterPushComplete(pub, FromPush); }
        Did(PubPush(m), was);
        ghost var begun := trace;
        assert begun[from] == PubPush(m);
        if !batching {
          Complete(schedule);
        }
      }
    }

    /** `PushComplete()` and the return from it, as the last thing a public operation does. */
    method Complete(schedule: Schedule)
      requires At(Publisher, InPushComplete(Read)) && pub.depth == 0
      modifies this
      ensures old(trace) <= trace
      ensures Valid() && Alive() && pub.pc.Idle? && pub.depth == 0
      ensures h.pushed == old(h.pushed)
      ensures old(pub).origin.FromEndBatch? ==> !batching
    {
      var end, next := PushComplete(schedule, 0);
      OnlyThreeThrows(start, trace);
      FinishSteps(pub);
      if pub.origin.FromEndBatch? {
        StoreNow(Publisher, Batching(false), Idle);
      } else {
        Pass(Publisher, pub.(pc := Idle));
      }
    }

    method StartBatch()
      requires Valid() && Alive() && pub.pc.Idle? && pub.depth == 0
      modifies this
      ensures old(trace) <= trace
      ensures Valid() && Now() == old(Now()).(sh := old(Fields()).(batching := true))
    {
      hide Exec, Init, Step;
      ghost var was := Now();
      batching := true;
      Did(PubStartBatch, was);
    }

    method EndBatch(schedule: Schedule)
      requires Valid() && Alive() && pub.pc.Idle? && pub.depth == 0
      modifies this
      ensures old(trace) <= trace
      ensures Valid() && Alive() && pub.pc.Idle? && pub.depth == 0 && !batching
      ensures h.pushed == old(h.pushed)
      ensures !old(batching) ==> Now() == old(Now())
    {
      hide Exec, Init, Step;
      if batching {
        ghost var was := Now();
        pub := EnterPushComplete(pub, FromEndBatch);
        Did(PubEndBatch, was);
        Complete(schedule);
      }
    }

    /** `Done`, with the client told of it as of a message.  Nothing happens after an abort. */
    method Done(schedule: Schedule)
      requires Valid() && Alive() && pub.pc.Idle? && pub.depth == 0
      modifies this
      ensures old(trace) <= trace
      ensures Valid() && Alive() && pub.pc.Idle? && pub.depth == 0
      ensures h.pushed == old(h.pushed)
      ensures old(state) == Aborting ==> Now() == old(Now())
      ensures old(state) != Aborting ==> state == Finished && BeginsWith(|old(trace)|, PubDone)
    {
      hide Exec, Init, Step;
      if state != Aborting {
        ghost var was, from := Now(), |trace|;
        state := Finished;
        pub := EnterPushComplete(pub, FromDone); // OnStateChange()
        Did(PubDone, was);
        ghost var begun := trace;
        assert begun[..from + 1] == begun;
        Complete(schedule);
        assert trace[..from + 1] == begun;
        Onwards(from + 1);
      }
    }

    method GetNextMessage() returns (msg: Option<Message>)
      requires Valid() && Alive() && AtUserCode(cli)
      modifies this
      ensures old(trace) <= trace
      ensures Valid() && Alive() && cli == old(cli)
      ensures msg.None? <==> old(messages) == []
      ensures msg.None? ==> Now() == old(Now()) && trace == old(trace)
      ensures msg.Some? ==> trace == old(trace) + [CliPop]
      ensures h.issued == old(h.issued) && h.fired == old(h.fired) && aborted == old(aborted) && state == old(state)
      ensures msg.Some? ==> old(messages) == [msg.value] + messages && h.popped == old(h.popped) + [msg.value]
    {
      hide Exec, Init, Step;
      msg := None;
      if messages != [] {
        ghost var was := Now();
        msg := Some(messages[0]);
        messages := messages[1..];
        h := h.(popped := h.popped + [msg.value]);
        Did(CliPop, was);
      }
    }

    /** Block until there is a message or the publisher is done.  `looked` is how much had happened when the
        queue was last looked at.  Returning false means that it was empty then; if anything has happened
        since, that the publisher has finished; and in any case that it has, or that the trigger of this call
        has fired.  The call is one of the program of module `WaitForMessage`, which goes through `events`. */
    method WaitForMessage(schedule: Schedule, ghost last: Option<bool>)
      returns (r: Waited, next: nat, ghost looked: nat, ghost events: seq<P.Happening>)
      requires Valid() && Alive() && cli.pc.Idle? && cli.depth == 0
      modifies this
      ensures old(trace) <= trace && Valid() && next <= |schedule|
      ensures Says(r, |old(trace)|, looked)
      ensures r.Nothing? ==> state == Finished || old(h.issued) in h.fired
      ensures r.Blocked? ==> next == |schedule| && r.promise == old(h.issued)
      ensures old(aborted) ==> r.Got? || r.Blocked?
      ensures IsProgram(r, F.Wait(|old(trace)|, P.Waiter(old(Now()), P.FirstPop, last)), events)
    {
      hide Exec, Init, F.Follows, F.Ends;
      ghost var c := F.Wait(|trace|, P.Waiter(Now(), P.FirstPop, last));
      F.BeginFollows(start, trace, c.begun);
      Counted();
      next := 0;
      var msg;
      msg, looked, events := Look(c, [], P.FirstPop);
      if msg.Some? { r := Got(msg.value); return; }
      ghost var seen := trace;
      next, events := Pause(schedule, 0, c, events, P.AskComplete);
      assert trace[..looked] == seen;
      AbortedNotFinished();
      events := F.AskFollows(start, trace, c, events, P.AskComplete);
      if state == Finished {
        ghost var asked := trace;
        next, events := Pause(schedule, next, c, events, P.LastPop);
        assert trace[..|asked|] == asked;
        Onwards(|asked|);
        r, looked, events := LastTry(c, events, P.LastPop);
      } else {
        r, next, looked, events := ArmAndAwait(schedule, next, c, events, looked);
      }
    }

    /** A look at the queue, when `looked` actions had been performed, found it empty. */
    ghost predicate FoundEmpty(from: nat, looked: nat)
      reads this
    {
      from <= looked <= |trace| && Exec(start, trace[..looked]).data.queue == []
    }

    /** What the result says of a call that began when `from` actions had been performed.  A message was
        popped last of all, or the last look found the queue empty.  A promise not set is that of a trigger of
        this call, or of none if the client had aborted. */
    ghost predicate Says(r: Waited, from: nat, looked: nat)
      reads this
    {
      match r
      case Got(m) =>
        && Alive() && cli.pc.Idle? && from < |trace| && trace[|trace| - 1] == CliPop
        && h.popped != [] && h.popped[|h.popped| - 1] == m
      case Nothing =>
        Alive() && cli.pc.Idle? && FoundEmpty(from, looked) && (looked == |trace| || state == Finished)
      case Blocked(promise) =>
        && Alive() && cli.pc.Idle? && FoundEmpty(from, looked)
        && promise !in h.fired && (aborted || (promise < h.issued && Lands(promise)))
      case Failed =>
        && FoundEmpty(from, looked)
        && ((cli.pc.Threw? && ProvisoBroken(h)) || (At(Client, InNotifyRequested(Parked)) && waiting))
    }

    /** The program comes to the same end, if the call is one it provides for. */
    ghost predicate IsProgram(r: Waited, c: F.Wait, events: seq<P.Happening>)
      reads this
    {
      match r
      case Got(_) =>
        trace != [] && F.Ends(start, trace[..|trace| - 1], c, events, P.Waiter(Now(), P.Outside, Some(true)))
      case Nothing => F.Ends(start, trace, c, events, P.Waiter(Now(), P.Outside, Some(false)))
      case Blocked(_) => F.Follows(start, trace, c, events, P.Waiting)
      case Failed => F.Follows(start, trace, c, events, P.Arming)
    }

    /** The rest of `WaitForMessage`, when the publisher is not done. */
    method ArmAndAwait(schedule: Schedule, k: nat, ghost c: F.Wait, ghost before: seq<P.Happening>, ghost last: nat)
      returns (r: Waited, next: nat, ghost looked: nat, ghost events: seq<P.Happening>)
      requires Valid() && Alive() && cli.pc.Idle? && cli.depth == 0 && k <= |schedule|
      requires 0 <= h.issued == c.begun.s.h.issued && FoundEmpty(c.from, last)
      requires F.Follows(start, trace, c, before, P.Arm)
      modifies this
      ensures old(trace) <= trace && Valid() && next <= |schedule| && Says(r, c.from, looked)
      ensures r.Nothing? ==> state == Finished || old(h.issued) in h.fired
      ensures r.Blocked? ==> next == |schedule| && r.promise == old(h.issued)
      ensures old(aborted) ==> r.Got? || r.Blocked?
      ensures IsProgram(r, c, events)
    {
      hide Exec, Init, F.Follows, F.Ends, PipeSubscriber.Lands, ProvisoBroken;
      var promise := h.issued;
      ghost var asked := trace;
      var end;
      end, next := OnNextMessage(false, schedule, k);
      assert trace[..|asked|] == asked;
      events := F.ArmsFollows(start, trace, |asked|, c, before);
      if end.Returned? {
        r, next, looked, events := AwaitPromise(promise, schedule, next, c, events);
      } else {
        assert trace[..last] == asked[..last];
        r, looked := Failed, last;
      }
    }

    /** The rest of `WaitForMessage`, once the trigger that sets the promise is installed. */
    method AwaitPromise(promise: int, schedule: Schedule, k: nat, ghost c: F.Wait, ghost before: seq<P.Happening>)
      returns (r: Waited, next: nat, ghost looked: nat, ghost events: seq<P.Happening>)
      requires Valid() && Alive() && cli.pc.Idle? && cli.depth == 0 && k <= |schedule|
      requires c.from <= |trace| && (aborted || 0 <= promise < h.issued)
      requires 0 <= promise == c.begun.s.h.issued && F.Follows(start, trace, c, before, P.Arming)
      modifies this
      ensures old(trace) <= trace && Valid() && next <= |schedule| && Says(r, c.from, looked)
      ensures r.Nothing? ==> state == Finished || promise in h.fired
      ensures r.Blocked? ==> next == |schedule| && r.promise == promise
      ensures old(aborted) && promise >= old(h.issued) ==> r.Got? || r.Blocked?
      ensures IsProgram(r, c, events)
    {
      hide Exec, Init, F.Follows, F.Ends, R.Latest;
      next, events := Pause(schedule, k, c, before, P.Arming);
      R.LatestKept(start, trace);
      events := F.GoOnFollows(start, trace, c, events, P.Arming);
      var msg;
      msg, looked, events := Look(c, events, P.SecondPop);
      if msg.Some? { r := Got(msg.value); return; }
      ghost var seen := trace;
      next, events := Pause(schedule, next, c, events, P.AskAgain);
      events := F.AskFollows(start, trace, c, events, P.AskAgain);
      AbortedNotFinished();
      if state == Finished {
        assert trace[..looked] == seen;
        r := Nothing;
        return;
      }
      while promise !in h.fired && next < |schedule|    // blocked on the promise
        invariant old(trace) <= seen <= trace && Valid() && Alive() && cli.pc.Idle? && cli.depth == 0
                  && next <= |schedule|
        invariant (old(aborted) ==> aborted) && (aborted || 0 <= promise < h.issued) && h.issued == old(h.issued)
        invariant F.Follows(start, trace, c, events, P.Waiting)
      {
        next, events := Pause(schedule, next, c, events, P.Waiting);
      }
      assert trace[..looked] == seen;
      if promise !in h.fired {
        if !aborted { HasLanded(promise); }
        r := Blocked(promise);
      } else {
        OnlyIssuedFires(promise);
        R.LatestKept(start, trace);
        events := F.GoOnFollows(start, trace, c, events, P.Waiting);
        r, looked, events := LastTry(c, events, P.FinalPop);
      }
    }

    /** Time passes between two operations of the client's. */
    method Pause(schedule: Schedule, k: nat, ghost c: F.Wait, ghost before: seq<P.Happening>, ghost at: P.At)
      returns (next: nat, ghost events: seq<P.Happening>)
      requires Valid() && Alive() && cli.pc.Idle? && k <= |schedule| && F.Follows(start, trace, c, before, at)
      modifies this
      ensures old(trace) <= trace && Valid() && Alive() && cli == old(cli)
      ensures next == if k < |schedule| then k + 1 else k
      ensures h.issued == old(h.issued) && (old(aborted) ==> aborted)
      ensures F.Follows(start, trace, c, events, at)
    {
      hide Exec, Init, F.Follows, PipeSubscriber.Valid;
      ghost var was := trace;
      next := Meanwhile(Client, schedule, k);
      assert trace[..|was|] == was;
      events := F.StaysFollows(start, trace, |was|, c, before, at);
    }

    /** `GetNextMessage`, noting when; the queue was empty then if there is no message. */
    method Look(ghost c: F.Wait, ghost before: seq<P.Happening>, ghost at: P.At)
      returns (msg: Option<Message>, ghost looked: nat, ghost events: seq<P.Happening>)
      requires Valid() && Alive() && cli.pc.Idle? && F.Follows(start, trace, c, before, at) && P.Pops(at)
      modifies this
      ensures old(trace) <= trace && Valid() && Alive() && cli == old(cli)
      ensures h.issued == old(h.issued) && h.fired == old(h.fired) && aborted == old(aborted) && state == old(state)
      ensures looked == |trace|
      ensures msg.None? ==> trace == old(trace) && messages == [] && Exec(start, trace).data.queue == []
      ensures msg.Some? ==> trace == old(trace) + [CliPop] && h.popped == old(h.popped) + [msg.value]
      ensures msg.Some? ==> IsProgram(Got(msg.value), c, events)
      ensures msg.None? ==>
        match at
        case FirstPop => F.Follows(start, trace, c, events, P.AskComplete)
        case SecondPop => F.Follows(start, trace, c, events, P.AskAgain)
        case _ => IsProgram(Nothing, c, events)
    {
      hide Exec, Init, F.Follows, F.Ends;
      ghost var was := trace;
      if messages == [] {
        events := F.LookFollows(start, was, c, before, at);
      } else {
        events := F.PopFollows(start, was, c, before, at);
      }
      msg := GetNextMessage();
      looked := |trace|;
      assert msg.Some? ==> trace[..|trace| - 1] == was;
    }

    method LastTry(ghost c: F.Wait, ghost before: seq<P.Happening>, ghost at: P.At)
      returns (r: Waited, ghost looked: nat, ghost events: seq<P.Happening>)
      requires Valid() && Alive() && cli.pc.Idle? && cli.depth == 0 && c.from <= |trace|
      requires F.Follows(start, trace, c, before, at) && (at.LastPop? || at.FinalPop?)
      modifies this
      ensures old(trace) <= trace && Valid() && Says(r, c.from, looked) && (r.Got? || r.Nothing?)
      ensures h.fired == old(h.fired) && state == old(state) && IsProgram(r, c, events)
    {
      hide Exec, Init, PipeSubscriber.Valid, PipeSubscriber.IsProgram, F.Follows;
      var msg;
      msg, looked, events := Look(c, before, at);
      assert trace[..|trace|] == trace;
      r := if msg.Some? then Got(msg.value) else Nothing;
    }

    /** The publisher's Done finds an aborted client aborting. */
    lemma AbortedNotFinished()
      requires Valid()
      ensures aborted ==> state == Aborting
    {
      RunAborting(start, trace);
      hide Exec;
    }

    lemma OnlyIssuedFires(id: int)
      requires Valid() && id in h.fired
      ensures 0 <= id < h.issued
    {
      assert L.Has(Now(), id, L.HasFired);
      L.OneStatusPerTrigger(start, trace, id);
      hide Exec, Init;
    }

    method Abort()
      requires Valid() && Alive() && AtUserCode(cli)
      modifies this
      ensures old(trace) <= trace
      ensures Valid() && Alive() && messages == old(messages) && h == old(h)
      ensures if old(state) == Finished then Now() == old(Now()) else state == Aborting && aborted
    {
      if state != Finished {
        ghost var was := Now();
        state, aborted := Aborting, true; // OnStateChange()
        Did(CliAbort, was);
      }
    }

    /** What is proved of runs holds of the object: nothing is lost or reordered; while it is idle with a
        trigger armed everything unread was there when a trigger last fired; the publisher is never
        thrown a violation, and the client has met one only if a proviso was broken. */
    lemma Delivers()
      requires Valid()
      ensures h.pushed == h.popped + messages
      ensures notifyState == NothingToNotify && pub.pc.Idle? && cli.pc.Idle? && !batching && messages != [] ==>
                h.fired != multiset{} && h.covered == |h.pushed|
      ensures !pub.pc.Threw? && (cli.pc.Threw? ==> ProvisoBroken(h))
    {
      NotifyDelivery.NoLostNotification(start, trace);
      OnlyThreeThrows(start, trace);
      DoomedIffProvisoBroken(start, trace);
      hide Exec, Init;
    }
  }
}
