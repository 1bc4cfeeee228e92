/** Who may touch the trigger slots, and how often a compare-exchange can fail. */
module NotifyOwnership {
  import opened Wrappers
  import opened NotifyModel
  import opened NotifyInvariant

  // ---------------------------------------------------------------- slots

  /** The next step reads or writes `onNotify` or `targetToNotify`.  A trigger that is running is
      the function object in the live slot, so running it counts. */
  predicate TouchesLive(pc: Pc) {
    match pc
    case InPublishNext(_) | InPullNext(_) | InOnNextLive(_) => true
    case InConfigurePending(at) => !at.DropTarget?
    case _ => false
  }

  /** The next step reads or writes `pending_onNotify` or `pending_targetToNotify`. */
  predicate TouchesPending(pc: Pc) {
    pc.InOnNextPending? || pc.InConfigurePending?
  }

  /** The thread `notifyState` alone entitles to the live slot. */
  function LiveOwner(ns: NotifyState): Option<Thread> {
    match ns
    case Configuring | PullRequired | Pulling => Some(Client)
    case Publishing | PreparingPubReconfigure | PubWillReconfigure | PubReconfiguring | SubWakeupRequired =>
      Some(Publisher)
    case Disabled | NothingToNotify | ReconfigureRequired | ClientWillReconfigure => None
  }

  /** The thread `notifyState` alone entitles to the pending slot. */
  function PendingOwner(ns: NotifyState): Option<Thread> {
    match ns
    case PreparingPubReconfigure | ClientWillReconfigure | ReconfigureRequired | Configuring | PullRequired =>
      Some(Client)
    case PubReconfiguring | SubWakeupRequired => Some(Publisher)
    case Disabled | NothingToNotify | Pulling | Publishing | PubWillReconfigure => None
  }

  predicate Entitled(s: State) {
    && (TouchesLive(s.pub.pc) ==> LiveOwner(s.sh.ns) == Some(Publisher))
    && (TouchesLive(s.cli.pc) ==> LiveOwner(s.sh.ns) == Some(Client))
    && (TouchesPending(s.pub.pc) ==> PendingOwner(s.sh.ns) == Some(Publisher))
    && (TouchesPending(s.cli.pc) ==> PendingOwner(s.sh.ns) == Some(Client))
  }

  lemma BothEntitled(s: State)
    requires !HasThrown(s) && Both(s.sh, s.pub, s.cli)
    ensures Entitled(s)
  {
  }

  /** In every run, a thread about to touch a slot is the one thread `notifyState` entitles to it;
      so the two threads never touch the same slot at the same time. */
  lemma {:induction false} SlotsNeverShared(s: State, actions: seq<Action>)
    requires Init(s)
    ensures var e := Exec(s, actions);
      !HasThrown(e) ==>
        && Entitled(e)
        && !(TouchesLive(e.pub.pc) && TouchesLive(e.cli.pc))
        && !(TouchesPending(e.pub.pc) && TouchesPending(e.cli.pc))
  {
    InitInvariant(s);
    ExecKeeps(s, actions);
    if !HasThrown(Exec(s, actions)) { BothEntitled(Exec(s, actions)); }
  }

  // ---------------------------------------------------------------- progress

  /** The thread is inside one of the six loops, holding a `currentState`. */
  predicate InLoop(pc: Pc) {
    match pc
    case InPushComplete(at) => at.Try?
    case InPublishComplete(at) => at.Try?
    case InNotifyRequested(at) => !at.ReadFirst?
    case InNotifyConfigured(at) => at.Switch? || at.TryTested?
    case InNotifyPending(at) => at.Try?
    case InPullComplete(at) => at.Try?
    case _ => false
  }

  /** Its next compare-exchange is bound to fail, because the other thread has moved on.  A client
      waiting for its hand-off is not, until the publisher releases it. */
  predicate Stale(sh: Shared, l: Local) {
    InLoop(l.pc) && l.cur != sh.ns && !(l.pc.InNotifyRequested? && sh.handoff && sh.ns.SubWakeupRequired?)
  }

  function Count(b: bool): int { if b then 1 else 0 }

  predicate StaleEvent(sh: Shared, l: Local, o: Outcome) {
    match o.e
    case Won | WonOvertaking => !Stale(o.sh, o.l)
    case Lost | LostEarly => Stale(sh, l) && !Stale(o.sh, o.l) && o.sh.ns == sh.ns
    case _ => o.sh.ns == sh.ns && (Stale(o.sh, o.l) ==> Stale(sh, l))
  }

  lemma PushStale(sh: Shared, l: Local)
    requires l.pc.InPushComplete?
    ensures StaleEvent(sh, l, StepPushComplete(sh, l, l.pc.loopAt))
  {
  }

  lemma PublishCompleteStale(sh: Shared, l: Local)
    requires l.pc.InPublishComplete?
    ensures StaleEvent(sh, l, StepPublishComplete(sh, l, l.pc.loopAt))
  {
  }

  lemma ClientLoopsStale(sh: Shared, l: Local)
    requires l.pc.InNotifyPending? || l.pc.InPullComplete?
    ensures StaleEvent(sh, l, Step(sh, l, false))
  {
  }

  lemma ConfiguredStale(sh: Shared, l: Local, empty: bool)
    requires l.pc.InNotifyConfigured? && !l.pc.configAt.TryTested?
    ensures StaleEvent(sh, l, StepNotifyConfigured(sh, l, l.pc.configAt, empty))
  {
  }

  lemma TestedStale(sh: Shared, l: Local, empty: bool)
    requires l.pc == InNotifyConfigured(TryTested)
    ensures StaleEvent(sh, l, StepNotifyConfigured(sh, l, TryTested, empty))
  {
  }

  lemma RequestStale(sh: Shared, cli: Local, p: PubPhase)
    requires CliSide(sh, cli, p) && CanStep(sh, cli) && cli.pc.InNotifyRequested?
    requires !cli.pc.requestAt.TryNext? || sh.ns == cli.cur
    ensures StaleEvent(sh, cli, StepNotifyRequested(sh, cli, cli.pc.requestAt))
  {
  }

  lemma RequestAgainStale(sh: Shared, cli: Local, p: PubPhase)
    requires CliSide(sh, cli, p) && cli.pc == InNotifyRequested(TryNext) && sh.ns != cli.cur
    requires !(sh.handoff && sh.ns.SubWakeupRequired?)
    ensures StaleEvent(sh, cli, StepNotifyRequested(sh, cli, TryNext))
  {
  }

  lemma OutsideLoopsFresh(sh: Shared, l: Local)
    requires l.pc.InPublishNext? || l.pc.InPullNext? || l.pc.InOnNextLive? || l.pc.InOnNextPending?
             || l.pc.InConfigurePending? || l.pc.Finish? || l.pc.Idle? || l.pc.Threw?
    ensures StaleEvent(sh, l, Step(sh, l, false))
  {
  }

  /** Without spurious wake-ups a client does not come back from a hand-off still in progress. */
  predicate WaitsProperly(sh: Shared, cli: Local) {
    sh.handoff && sh.ns.SubWakeupRequired? ==>
      cli.pc == InNotifyRequested(Park) || (cli.pc == InNotifyRequested(Parked) && sh.waiter)
  }

  lemma PubStale(sh: Shared, pub: Local, c: CliPhase, empty: bool)
    requires PubSide(sh, pub, c)
    ensures StaleEvent(sh, pub, Step(sh, pub, empty))
  {
    hide StaleEvent, StepPushComplete, StepPublishComplete, StepNotifyConfigured;
    match pub.pc {
      case InPushComplete(_) => PushStale(sh, pub);
      case InPublishComplete(_) => PublishCompleteStale(sh, pub);
      case InNotifyConfigured(at) => ConfiguredStale(sh, pub, empty);
      case _ => OutsideLoopsFresh(sh, pub);
    }
  }

  lemma CliStale(sh: Shared, cli: Local, p: PubPhase, empty: bool)
    requires CliSide(sh, cli, p) && CanStep(sh, cli) && WaitsProperly(sh, cli)
    ensures StaleEvent(sh, cli, Step(sh, cli, empty))
  {
    hide StaleEvent, StepNotifyConfigured, StepNotifyRequested;
    match cli.pc {
      case InNotifyPending(_) | InPullComplete(_) => ClientLoopsStale(sh, cli);
      case InNotifyConfigured(at) =>
        if at.TryTested? { TestedStale(sh, cli, empty); } else { ConfiguredStale(sh, cli, empty); }
      case InNotifyRequested(at) =>
        if at.TryNext? && sh.ns != cli.cur { RequestAgainStale(sh, cli, p); } else { RequestStale(sh, cli, p); }
      case _ => OutsideLoopsFresh(sh, cli);
    }
  }

  predicate Patient(s: State) {
    Invariant(s) && (!HasThrown(s) ==> WaitsProperly(s.sh, s.cli))
  }

  lemma PubWaits(sh: Shared, pub: Local, cli: Local, empty: bool)
    requires Both(sh, pub, cli) && WaitsProperly(sh, cli)
    ensures WaitsProperly(Step(sh, pub, empty).sh, cli)
  {
    StepFrame(sh, pub, empty);
    PubStepKeeps(sh, pub, CliPhaseOf(sh.handoff, cli), empty);
    if pub.pc != InNotifyConfigured(Wake) { WaiterKept(sh, pub, empty); }
  }

  lemma LoopKeepsWaiter(sh: Shared, l: Local)
    requires l.pc.InPushComplete? || l.pc.InPublishComplete?
    ensures Step(sh, l, false).sh.waiter == sh.waiter
  {
  }

  lemma ConfiguredKeepsWaiter(sh: Shared, l: Local, empty: bool)
    requires l.pc.InNotifyConfigured? && !l.pc.configAt.Wake?
    ensures StepNotifyConfigured(sh, l, l.pc.configAt, empty).sh.waiter == sh.waiter
  {
  }

  /** Only the publisher's notify_one ends a wait. */
  lemma WaiterKept(sh: Shared, pub: Local, empty: bool)
    requires !pub.pc.InNotifyRequested? && !pub.pc.InOnNextLive? && !pub.pc.InOnNextPending?
    requires !pub.pc.InNotifyPending? && !pub.pc.InPullNext? && !pub.pc.InPullComplete?
    requires pub.pc != InNotifyConfigured(Wake)
    ensures sh.waiter ==> Step(sh, pub, empty).sh.waiter
  {
    hide StepNotifyConfigured, StepPushComplete, StepPublishComplete;
    match pub.pc {
      case InPushComplete(_) | InPublishComplete(_) => LoopKeepsWaiter(sh, pub);
      case InNotifyConfigured(_) => ConfiguredKeepsWaiter(sh, pub, empty);
      case _ =>
    }
  }

  lemma RequestWaits(sh: Shared, cli: Local, p: PubPhase)
    requires CliSide(sh, cli, p) && CanStep(sh, cli) && WaitsProperly(sh, cli) && cli.pc.InNotifyRequested?
    ensures var o := StepNotifyRequested(sh, cli, cli.pc.requestAt); !o.l.pc.Threw? ==> WaitsProperly(o.sh, o.l)
  {
  }

  lemma PatientKeeps(s: State, a: Action)
    requires Patient(s) && !a.SpuriousWake?
    ensures Patient(Apply(s, a))
  {
    ApplyKeeps(s, a);
    if HasThrown(s) {
    } else if a.PubStep? && CanStep(s.sh, s.pub) {
      PubWaits(s.sh, s.pub, s.cli, s.data.queue == []);
    } else if a.CliStep? && CanStep(s.sh, s.cli) {
      if s.cli.pc.InNotifyRequested? { RequestWaits(s.sh, s.cli, PubPhaseOf(s.pub)); }
      else { StepFrame(s.sh, s.cli, s.data.queue == []); }
    }
  }

  /** From `s` to `e`, each thread lost at most as many exchanges as the other won; one more only
      if it was already bound to lose at the start. */
  predicate LossesPaid(s: State, e: State) {
    && e.h.pubLost - s.h.pubLost + Count(Stale(e.sh, e.pub)) <= e.h.cliWon - s.h.cliWon + Count(Stale(s.sh, s.pub))
    && e.h.cliLost - s.h.cliLost + Count(Stale(e.sh, e.cli)) <= e.h.pubWon - s.h.pubWon + Count(Stale(s.sh, s.cli))
  }

  /** A step that fails an exchange makes a stale thread fresh; one that succeeds may make the other stale. */
  lemma StepPaid(sh: Shared, l: Local, other: Local, o: Outcome)
    requires StaleEvent(sh, l, o) && (other.pc.InNotifyRequested? ==> o.sh.handoff == sh.handoff)
    ensures Count(Stale(o.sh, o.l)) + Count(o.e.Lost? || o.e.LostEarly?) <= Count(Stale(sh, l))
    ensures Count(Stale(o.sh, other)) <= Count(Stale(sh, other)) + Count(o.e.Won? || o.e.WonOvertaking?)
  {
  }

  lemma RecordCounts(h: History, t: Thread, e: Event)
    ensures var r := Record(h, t, e);
      var won, lost := Count(e.Won? || e.WonOvertaking?), Count(e.Lost? || e.LostEarly?);
      && r.pubWon == h.pubWon + (if t.Publisher? then won else 0)
      && r.pubLost == h.pubLost + (if t.Publisher? then lost else 0)
      && r.cliWon == h.cliWon + (if t.Client? then won else 0)
      && r.cliLost == h.cliLost + (if t.Client? then lost else 0)
  {
  }

  lemma PubTakePaid(s: State)
    requires Patient(s) && !HasThrown(s)
    ensures LossesPaid(s, Take(s, Publisher))
  {
    var o := Step(s.sh, s.pub, s.data.queue == []);
    PubStale(s.sh, s.pub, CliPhaseOf(s.sh.handoff, s.cli), s.data.queue == []);
    StepFrame(s.sh, s.pub, s.data.queue == []);
    StepPaid(s.sh, s.pub, s.cli, o);
    RecordCounts(s.h, Publisher, o.e);
    hide Step, Stale, StaleEvent, Record;
  }

  lemma CliTakePaid(s: State)
    requires Patient(s) && !HasThrown(s) && CanStep(s.sh, s.cli)
    ensures LossesPaid(s, Take(s, Client))
  {
    var o := Step(s.sh, s.cli, s.data.queue == []);
    CliStale(s.sh, s.cli, PubPhaseOf(s.pub), s.data.queue == []);
    StepPaid(s.sh, s.cli, s.pub, o);
    RecordCounts(s.h, Client, o.e);
    hide Step, Stale, StaleEvent, Record;
  }

  lemma OneStepPaid(s: State, a: Action)
    requires Patient(s) && !a.SpuriousWake?
    ensures LossesPaid(s, Apply(s, a))
  {
    if HasThrown(s) {
    } else if a.PubStep? && CanStep(s.sh, s.pub) {
      PubTakePaid(s);
    } else if a.CliStep? && CanStep(s.sh, s.cli) {
      CliTakePaid(s);
    }
  }

  /** Between any two points of a run without spurious wake-ups, a thread's compare-exchanges on
      `notifyState` fail no more often than the other thread's succeed (plus the one it may have
      been about to lose).  In particular a loop fails at most once more after the other thread
      stops changing the state, so it ends. */
  lemma {:induction false} FailuresPaidBySuccesses(s: State, actions: seq<Action>)
    requires Patient(s)
    requires forall i :: 0 <= i < |actions| ==> !actions[i].SpuriousWake?
    ensures Patient(Exec(s, actions)) && LossesPaid(s, Exec(s, actions))
    decreases |actions|
  {
    if actions != [] {
      var most := actions[..|actions| - 1];
      FailuresPaidBySuccesses(s, most);
      PatientKeeps(Exec(s, most), actions[|actions| - 1]);
      OneStepPaid(Exec(s, most), actions[|actions| - 1]);
    }
  }

  lemma FailuresBounded(s: State, actions: seq<Action>)
    requires Init(s)
    requires forall i :: 0 <= i < |actions| ==> !actions[i].SpuriousWake?
    ensures var h := Exec(s, actions).h; h.pubLost <= h.cliWon && h.cliLost <= h.pubWon
  {
    InitInvariant(s);
    FailuresPaidBySuccesses(s, actions);
  }
}
