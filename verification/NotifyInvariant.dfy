/** Which thread may be where: the inductive invariant behind every `ThreadingViolation`
    claim, for all interleavings and without any assumption about the callers. */
module NotifyInvariant {
  import opened Wrappers
  import opened NotifyModel

  /** What the publisher thread is doing with the protocol. */
  datatype PubPhase = PubAway | PubFiring | PubMoving | PubLost

  /** What the client thread is doing with the protocol. */
  datatype CliPhase = CliAway | CliWaiting | CliLive | CliPending | CliPulling | CliNested | CliLost

  function PubPhaseOf(l: Local): PubPhase {
    match l.pc
    case Idle | InPushComplete(_) | Finish => PubAway
    case InPublishNext(_) | InPublishComplete(_) => PubFiring
    case InConfigurePending(_) => PubMoving
    case InNotifyConfigured(at) => if at.Wake? then PubAway else if at.TryTested? then PubLost else PubMoving
    case _ => PubLost
  }

  function CliPhaseOf(handoff: bool, l: Local): CliPhase {
    match l.pc
    case Idle | Finish => CliAway
    case InNotifyRequested(_) =>
      if l.depth != 0 then CliPulling
      else if handoff then CliWaiting
      else (match l.cur
            case SubWakeupRequired => if l.pc.requestAt.ReadFirst? then CliAway else CliWaiting
            case Configuring | PullRequired => if l.pc.requestAt.ReadFirst? then CliAway else CliLive
            case _ => CliAway)
    case InOnNextLive(_) | InConfigurePending(_) => CliLive
    case InNotifyConfigured(at) => if at.Wake? then CliLost else CliLive
    case InOnNextPending(_) | InNotifyPending(_) => if l.depth == 0 then CliPending else CliNested
    case InPullNext(_) | InPullComplete(_) => CliPulling
    case _ => CliLost
  }

  /** Which phases `notifyState` allows. */
  predicate Allows(p: PubPhase, c: CliPhase, ns: NotifyState) {
    match ns
    case Disabled | NothingToNotify => p.PubAway? && c.CliAway?
    case Configuring | PullRequired => p.PubAway? && (c.CliWaiting? || c.CliLive?)
    case ClientWillReconfigure => p.PubAway? && c.CliPending?
    case Pulling => p.PubAway? && c.CliPulling?
    case ReconfigureRequired => p.PubAway? && c.CliNested?
    case Publishing | PubWillReconfigure => p.PubFiring? && c.CliAway?
    case PreparingPubReconfigure => p.PubFiring? && c.CliPending?
    case PubReconfiguring => p.PubMoving? && c.CliAway?
    case SubWakeupRequired => p.PubMoving? && c.CliWaiting?
  }

  /** States only a publisher inside the protocol leaves. */
  predicate PublisherOwned(ns: NotifyState) {
    ns.SubWakeupRequired? || ns.Publishing? || ns.PubWillReconfigure? || ns.PubReconfiguring?
    || ns.PreparingPubReconfigure?
  }

  /** The publisher's `currentState` was legal when it was read. */
  predicate PubLocalOk(l: Local) {
    && l.depth == 0
    && match l.pc
       case InPushComplete(at) => at.Try? ==> !PublisherOwned(l.cur)
       case InPublishComplete(at) =>
         at.Try? ==> l.cur.Publishing? || l.cur.PreparingPubReconfigure? || l.cur.PubWillReconfigure?
       case InNotifyConfigured(at) => at.Switch? ==> l.cur.PubReconfiguring? || l.cur.SubWakeupRequired?
       case _ => true
  }

  /** The client's `currentState` was legal when it was read, and its trigger depth fits. */
  predicate CliLocalOk(handoff: bool, waiter: bool, l: Local) {
    && (waiter ==> l.pc.InNotifyRequested? && l.pc.requestAt.Parked?)
    && (handoff ==> l.pc.InNotifyRequested? && !l.pc.requestAt.ReadFirst? && l.cur.PubReconfiguring? && l.depth == 0)
    && match l.pc
       case InNotifyRequested(at) =>
         && (at.Park? || at.Parked? ==> handoff)
         && (l.depth == 0 || l.depth == 1)
         && (at.TryNext? ==>
              if l.depth == 0 then
                !(l.cur.Pulling? || l.cur.ReconfigureRequired? || l.cur.PreparingPubReconfigure?
                  || l.cur.ClientWillReconfigure?)
              else l.cur.Pulling?)
       case InOnNextPending(_) => l.depth == 0 || l.depth == 1
       case InNotifyPending(at) =>
         && (l.depth == 0 || l.depth == 1)
         && (at.Try? ==>
              if l.depth == 0 then l.cur.PreparingPubReconfigure? || l.cur.ClientWillReconfigure?
              else l.cur.ReconfigureRequired?)
       case InPullNext(at) => l.depth == if at.Running? then 1 else 0
       case InNotifyConfigured(at) =>
         && l.depth == 0
         && (at.Switch? ==> l.cur.Configuring? || l.cur.PullRequired?)
         && (at.TryTested? ==> l.cur.Configuring?)
       case InPullComplete(at) => l.depth == 0 && (at.Try? ==> l.cur.Pulling?)
       case _ => l.depth == 0
  }

  /** A trigger the thread is about to call, post or make live is in the live slot. */
  predicate HoldsLive(l: Local) {
    match l.pc
    case InOnNextLive(at) => at.WriteTarget?
    case InConfigurePending(at) => !at.MoveFn?
    case InNotifyConfigured(at) => !at.Wake?
    case InPullNext(at) => at.Test? || at.Post? || at.Call?
    case InPublishNext(at) => at.Test? || at.Post? || at.Call?
    case _ => false
  }

  /** A trigger the thread has written, or is about to move, is in the pending slot. */
  predicate HoldsPending(l: Local) {
    match l.pc
    case InOnNextPending(at) => at.WriteTarget?
    case InNotifyPending(_) => true
    case InConfigurePending(at) => at.MoveFn?
    case _ => false
  }

  predicate Filled(sh: Shared, l: Local) {
    && (HoldsLive(l) ==> sh.onNotify.Some?)
    && (HoldsPending(l) ==> sh.pendingFn.Some?)
  }

  predicate StateFilled(sh: Shared) {
    && (sh.ns.NothingToNotify? ==> sh.onNotify.Some?)
    && (sh.ns.PubWillReconfigure? ==> sh.pendingFn.Some?)
  }

  /** What the publisher relies on and keeps, given the phase of the client. */
  predicate PubSide(sh: Shared, pub: Local, c: CliPhase) {
    PubLocalOk(pub) && Allows(PubPhaseOf(pub), c, sh.ns) && StateFilled(sh) && Filled(sh, pub)
  }

  /** What the client relies on and keeps, given the phase of the publisher. */
  predicate CliSide(sh: Shared, cli: Local, p: PubPhase) {
    && CliLocalOk(sh.handoff, sh.waiter, cli) && Allows(p, CliPhaseOf(sh.handoff, cli), sh.ns)
    && StateFilled(sh) && Filled(sh, cli)
  }

  predicate PubGoesOn(o: Outcome, c: CliPhase) {
    !o.l.pc.Threw? && PubSide(o.sh, o.l, c)
  }

  /** The only `throw`s that can be reached, named by loop and by the value of `currentState`. */
  predicate ReachableThrow(loop: Loop, cur: NotifyState) {
    || (loop.NotifyRequested? && (cur.SubWakeupRequired? || cur.PullRequired?))
    || (loop.NotifyPendingConfigured? && cur.ReconfigureRequired?)
  }

  predicate CliGoesOn(o: Outcome, p: PubPhase) {
    if o.l.pc.Threw? then ReachableThrow(o.l.pc.loop, o.l.cur) else CliSide(o.sh, o.l, p)
  }

  lemma PushCompleteWins(sh: Shared, pub: Local, c: CliPhase)
    requires PubSide(sh, pub, c) && pub.pc.InPushComplete? && pub.pc.loopAt.Try? && sh.ns == pub.cur
    ensures PubGoesOn(StepPushComplete(sh, pub, pub.pc.loopAt), c)
  {
  }

  lemma PushCompleteLoses(sh: Shared, pub: Local, c: CliPhase)
    requires PubSide(sh, pub, c) && pub.pc.InPushComplete? && (pub.pc.loopAt.Try? ==> sh.ns != pub.cur)
    ensures PubGoesOn(StepPushComplete(sh, pub, pub.pc.loopAt), c)
  {
  }

  lemma PublishCompleteWins(sh: Shared, pub: Local, c: CliPhase)
    requires PubSide(sh, pub, c) && pub.pc.InPublishComplete? && pub.pc.loopAt.Try? && sh.ns == pub.cur
    ensures PubGoesOn(StepPublishComplete(sh, pub, pub.pc.loopAt), c)
  {
  }

  lemma PublishCompleteLoses(sh: Shared, pub: Local, c: CliPhase)
    requires PubSide(sh, pub, c) && pub.pc.InPublishComplete? && (pub.pc.loopAt.Try? ==> sh.ns != pub.cur)
    ensures PubGoesOn(StepPublishComplete(sh, pub, pub.pc.loopAt), c)
  {
  }

  lemma PublishNextFires(sh: Shared, pub: Local, c: CliPhase)
    requires PubSide(sh, pub, c) && pub.pc.InPublishNext?
             && (pub.pc.fireAt.Test? || pub.pc.fireAt.Post? || pub.pc.fireAt.Call?)
    ensures PubGoesOn(StepPublishNext(sh, pub, pub.pc.fireAt), c)
  {
  }

  lemma PublishNextClears(sh: Shared, pub: Local, c: CliPhase)
    requires PubSide(sh, pub, c) && pub.pc.InPublishNext?
             && !(pub.pc.fireAt.Test? || pub.pc.fireAt.Post? || pub.pc.fireAt.Call?)
    ensures PubGoesOn(StepPublishNext(sh, pub, pub.pc.fireAt), c)
  {
  }

  lemma PubConfiguredWins(sh: Shared, pub: Local, c: CliPhase, empty: bool)
    requires PubSide(sh, pub, c) && pub.pc.InNotifyConfigured? && pub.pc.configAt.Switch? && sh.ns == pub.cur
    ensures PubGoesOn(StepNotifyConfigured(sh, pub, pub.pc.configAt, empty), c)
  {
  }

  lemma PubConfiguredLoses(sh: Shared, pub: Local, c: CliPhase, empty: bool)
    requires PubSide(sh, pub, c) && pub.pc == InNotifyConfigured(Switch) && sh.ns != pub.cur
    ensures PubGoesOn(StepNotifyConfigured(sh, pub, Switch, empty), c)
  {
  }

  lemma PubConfiguredGoesOn(sh: Shared, pub: Local, c: CliPhase, empty: bool)
    requires PubSide(sh, pub, c) && pub.pc.InNotifyConfigured? && !pub.pc.configAt.Switch?
    ensures PubGoesOn(StepNotifyConfigured(sh, pub, pub.pc.configAt, empty), c)
  {
  }

  lemma PubMovesFn(sh: Shared, pub: Local, c: CliPhase)
    requires PubSide(sh, pub, c) && pub.pc == InConfigurePending(MoveFn)
    ensures PubGoesOn(StepConfigurePending(sh, pub, MoveFn), c)
  {
  }

  lemma PubMoves(sh: Shared, pub: Local, c: CliPhase)
    requires PubSide(sh, pub, c) && pub.pc.InConfigurePending? && !pub.pc.moveAt.MoveFn?
    ensures PubGoesOn(StepConfigurePending(sh, pub, pub.pc.moveAt), c)
  {
  }

  lemma RequestStarts(sh: Shared, cli: Local, p: PubPhase)
    requires CliSide(sh, cli, p) && cli.pc.InNotifyRequested? && CanStep(sh, cli) && !cli.pc.requestAt.TryNext?
    ensures CliGoesOn(StepNotifyRequested(sh, cli, cli.pc.requestAt), p)
  {
  }

  lemma RequestWins(sh: Shared, cli: Local, p: PubPhase)
    requires CliSide(sh, cli, p) && cli.pc.InNotifyRequested? && cli.pc.requestAt.TryNext? && sh.ns == cli.cur
    ensures CliGoesOn(StepNotifyRequested(sh, cli, cli.pc.requestAt), p)
  {
  }

  lemma RequestLoses(sh: Shared, cli: Local, p: PubPhase)
    requires CliSide(sh, cli, p) && cli.pc.InNotifyRequested? && cli.pc.requestAt.TryNext? && sh.ns != cli.cur
             && !sh.handoff
    ensures CliGoesOn(StepNotifyRequested(sh, cli, cli.pc.requestAt), p)
  {
  }

  lemma RequestResumes(sh: Shared, cli: Local, p: PubPhase)
    requires CliSide(sh, cli, p) && cli.pc.InNotifyRequested? && cli.pc.requestAt.TryNext? && sh.ns != cli.cur
             && sh.handoff
    ensures CliGoesOn(StepNotifyRequested(sh, cli, cli.pc.requestAt), p)
  {
  }

  lemma LiveWrites(sh: Shared, cli: Local, p: PubPhase)
    requires CliSide(sh, cli, p) && cli.pc.InOnNextLive?
    ensures CliGoesOn(StepOnNextLive(sh, cli, cli.pc.writeAt), p)
  {
  }

  lemma PendingWrites(sh: Shared, cli: Local, p: PubPhase)
    requires CliSide(sh, cli, p) && cli.pc.InOnNextPending?
    ensures CliGoesOn(StepOnNextPending(sh, cli, cli.pc.writeAt), p)
  {
  }

  lemma CliTestedWins(sh: Shared, cli: Local, p: PubPhase, empty: bool)
    requires CliSide(sh, cli, p) && cli.pc == InNotifyConfigured(TryTested) && sh.ns == cli.cur
    ensures CliGoesOn(StepNotifyConfigured(sh, cli, TryTested, empty), p)
  {
  }

  lemma CliConfiguredWins(sh: Shared, cli: Local, p: PubPhase, empty: bool)
    requires CliSide(sh, cli, p) && cli.pc.InNotifyConfigured? && (cli.pc.configAt.Switch? || cli.pc.configAt.Wake?)
    requires sh.ns == cli.cur
    ensures CliGoesOn(StepNotifyConfigured(sh, cli, cli.pc.configAt, empty), p)
  {
  }

  lemma CliConfiguredLoses(sh: Shared, cli: Local, p: PubPhase, empty: bool)
    requires CliSide(sh, cli, p) && cli.pc.InNotifyConfigured? && (!cli.pc.configAt.ReadNow? ==> sh.ns != cli.cur)
    ensures CliGoesOn(StepNotifyConfigured(sh, cli, cli.pc.configAt, empty), p)
  {
  }

  lemma CliMoves(sh: Shared, cli: Local, p: PubPhase)
    requires CliSide(sh, cli, p) && cli.pc.InConfigurePending?
    ensures CliGoesOn(StepConfigurePending(sh, cli, cli.pc.moveAt), p)
  {
  }

  lemma NotifyPendingWins(sh: Shared, cli: Local, p: PubPhase)
    requires CliSide(sh, cli, p) && cli.pc.InNotifyPending? && cli.pc.loopAt.Try? && sh.ns == cli.cur
    ensures CliGoesOn(StepNotifyPending(sh, cli, cli.pc.loopAt), p)
  {
  }

  lemma NotifyPendingLoses(sh: Shared, cli: Local, p: PubPhase)
    requires CliSide(sh, cli, p) && cli.pc.InNotifyPending? && (cli.pc.loopAt.Try? ==> sh.ns != cli.cur)
    ensures CliGoesOn(StepNotifyPending(sh, cli, cli.pc.loopAt), p)
  {
  }

  lemma PullCalls(sh: Shared, cli: Local, p: PubPhase)
    requires CliSide(sh, cli, p) && cli.pc.InPullNext?
    requires cli.pc.fireAt.Test? || cli.pc.fireAt.Post? || cli.pc.fireAt.Call?
    ensures CliGoesOn(StepPullNext(sh, cli, cli.pc.fireAt), p)
  {
  }

  lemma PullClears(sh: Shared, cli: Local, p: PubPhase)
    requires CliSide(sh, cli, p) && cli.pc.InPullNext?
    requires cli.pc.fireAt.Running? || cli.pc.fireAt.ClearTarget? || cli.pc.fireAt.ClearFn?
    ensures CliGoesOn(StepPullNext(sh, cli, cli.pc.fireAt), p)
  {
  }

  lemma PullCompletes(sh: Shared, cli: Local, p: PubPhase)
    requires CliSide(sh, cli, p) && cli.pc.InPullComplete?
    ensures CliGoesOn(StepPullComplete(sh, cli, cli.pc.loopAt), p)
  {
  }

  // ---------------------------------------------------------------- one step of either thread

  /** The step writes the live slot's function. */
  predicate WritesLive(pc: Pc) {
    match pc
    case InPublishNext(at) => at.ClearFn?
    case InPullNext(at) => at.ClearFn?
    case InOnNextLive(at) => at.WriteFn?
    case InConfigurePending(at) => at.MoveFn?
    case _ => false
  }

  /** The step writes the pending slot's function. */
  predicate WritesPending(pc: Pc) {
    match pc
    case InOnNextPending(at) => at.WriteFn?
    case InConfigurePending(at) => at.MoveFn?
    case _ => false
  }

  /** The step calls or posts the live trigger. */
  predicate Fires(pc: Pc) {
    (pc.InPublishNext? || pc.InPullNext?) && (pc.fireAt.Post? || pc.fireAt.Call?)
  }

  /** What a step cannot touch. */
  predicate Frame(sh: Shared, l: Local, o: Outcome) {
    && (!l.pc.InNotifyRequested? ==> o.sh.handoff == sh.handoff && (o.sh.waiter ==> sh.waiter))
    && (!WritesLive(l.pc) ==> o.sh.onNotify == sh.onNotify)
    && (!WritesPending(l.pc) ==> o.sh.pendingFn == sh.pendingFn)
    && o.l.fn == l.fn && o.l.posted == l.posted && o.l.origin == l.origin
    && (!l.pc.InPullNext? ==> o.l.depth == l.depth)
    && (o.e.Fired? ==> Fires(l.pc))
    && (o.e.Dropped? ==> WritesLive(l.pc) || WritesPending(l.pc))
    && (o.e.WonOvertaking? ==> l.pc.InPushComplete?) && (o.e.LostEarly? ==> l.pc.InNotifyRequested?)
  }

  lemma PushFrame(sh: Shared, l: Local, empty: bool)
    requires l.pc.InPushComplete?
    ensures Frame(sh, l, Step(sh, l, empty))
  {
  }

  lemma NotifyPendingFrame(sh: Shared, l: Local, empty: bool)
    requires l.pc.InNotifyPending?
    ensures Frame(sh, l, Step(sh, l, empty))
  {
  }

  lemma PublishCompleteFrame(sh: Shared, l: Local, empty: bool)
    requires l.pc.InPublishComplete?
    ensures Frame(sh, l, Step(sh, l, empty))
  {
  }

  lemma PullCompleteFrame(sh: Shared, l: Local, empty: bool)
    requires l.pc.InPullComplete?
    ensures Frame(sh, l, Step(sh, l, empty))
  {
  }

  lemma PublishFrame(sh: Shared, l: Local, empty: bool)
    requires l.pc.InPublishNext?
    ensures Frame(sh, l, Step(sh, l, empty))
  {
  }

  lemma PullFrame(sh: Shared, l: Local, empty: bool)
    requires l.pc.InPullNext?
    ensures Frame(sh, l, Step(sh, l, empty))
  {
  }

  lemma StoreFrame(sh: Shared, l: Local, empty: bool)
    requires l.pc.InOnNextLive? || l.pc.InOnNextPending?
    ensures Frame(sh, l, Step(sh, l, empty))
  {
  }

  lemma MoveFrame(sh: Shared, l: Local, empty: bool)
    requires l.pc.InConfigurePending?
    ensures Frame(sh, l, Step(sh, l, empty))
  {
  }

  lemma RequestReadFrame(sh: Shared, l: Local, empty: bool)
    requires l.pc.InNotifyRequested? && !l.pc.requestAt.TryNext?
    ensures Frame(sh, l, Step(sh, l, empty))
  {
  }

  lemma RequestWinFrame(sh: Shared, l: Local, empty: bool)
    requires l.pc.InNotifyRequested? && l.pc.requestAt.TryNext? && sh.ns == l.cur
    ensures Frame(sh, l, Step(sh, l, empty))
  {
  }

  lemma RequestLossFrame(sh: Shared, l: Local, empty: bool)
    requires l.pc.InNotifyRequested? && l.pc.requestAt.TryNext? && sh.ns != l.cur
    ensures Frame(sh, l, Step(sh, l, empty))
  {
  }

  lemma SwitchWinFrame(sh: Shared, l: Local, empty: bool)
    requires l.pc == InNotifyConfigured(Switch) && sh.ns == l.cur
    ensures Frame(sh, l, Step(sh, l, empty))
  {
  }

  lemma SwitchLossFrame(sh: Shared, l: Local, empty: bool)
    requires l.pc == InNotifyConfigured(Switch) && sh.ns != l.cur
    ensures Frame(sh, l, Step(sh, l, empty))
  {
  }

  lemma ConfiguredFrame(sh: Shared, l: Local, empty: bool)
    requires l.pc.InNotifyConfigured? && !l.pc.configAt.Switch?
    ensures Frame(sh, l, Step(sh, l, empty))
  {
  }

  lemma RestFrame(sh: Shared, l: Local, empty: bool)
    requires l.pc.Idle? || l.pc.Finish? || l.pc.Threw?
    ensures Frame(sh, l, Step(sh, l, empty))
  {
  }

  lemma StepFrame(sh: Shared, l: Local, empty: bool)
    ensures Frame(sh, l, Step(sh, l, empty))
  {
    hide Step, Frame;
    match l.pc {
      case InPushComplete(_) => PushFrame(sh, l, empty);
      case InPublishNext(_) => PublishFrame(sh, l, empty);
      case InPublishComplete(_) => PublishCompleteFrame(sh, l, empty);
      case InNotifyPending(_) => NotifyPendingFrame(sh, l, empty);
      case InPullNext(_) => PullFrame(sh, l, empty);
      case InPullComplete(_) => PullCompleteFrame(sh, l, empty);
      case InOnNextLive(_) | InOnNextPending(_) => StoreFrame(sh, l, empty);
      case InConfigurePending(_) => MoveFrame(sh, l, empty);
      case InNotifyRequested(at) =>
        if !at.TryNext? { RequestReadFrame(sh, l, empty); }
        else if sh.ns == l.cur { RequestWinFrame(sh, l, empty); }
        else { RequestLossFrame(sh, l, empty); }
      case InNotifyConfigured(at) =>
        if !at.Switch? { ConfiguredFrame(sh, l, empty); }
        else if sh.ns == l.cur { SwitchWinFrame(sh, l, empty); }
        else { SwitchLossFrame(sh, l, empty); }
      case Idle | Finish | Threw(_) => RestFrame(sh, l, empty);
    }
  }

  lemma PubStepKeeps(sh: Shared, pub: Local, c: CliPhase, empty: bool)
    requires PubSide(sh, pub, c)
    ensures PubGoesOn(Step(sh, pub, empty), c)
  {
    match pub.pc {
      case InPushComplete(at) =>
        if at.Try? && sh.ns == pub.cur { PushCompleteWins(sh, pub, c); } else { PushCompleteLoses(sh, pub, c); }
      case InPublishComplete(at) =>
        if at.Try? && sh.ns == pub.cur { PublishCompleteWins(sh, pub, c); } else { PublishCompleteLoses(sh, pub, c); }
      case InPublishNext(at) =>
        if at.Test? || at.Post? || at.Call? { PublishNextFires(sh, pub, c); } else { PublishNextClears(sh, pub, c); }
      case InNotifyConfigured(at) =>
        if !at.Switch? { PubConfiguredGoesOn(sh, pub, c, empty); }
        else if sh.ns == pub.cur { PubConfiguredWins(sh, pub, c, empty); }
        else { PubConfiguredLoses(sh, pub, c, empty); }
      case InConfigurePending(at) => if at.MoveFn? { PubMovesFn(sh, pub, c); } else { PubMoves(sh, pub, c); }
      case _ =>
    }
  }

  lemma CliStepKeeps(sh: Shared, cli: Local, p: PubPhase, empty: bool)
    requires CliSide(sh, cli, p) && CanStep(sh, cli)
    ensures CliGoesOn(Step(sh, cli, empty), p)
  {
    match cli.pc {
      case InNotifyRequested(at) =>
        if !at.TryNext? { RequestStarts(sh, cli, p); }
        else if sh.ns == cli.cur { RequestWins(sh, cli, p); }
        else if sh.handoff { RequestResumes(sh, cli, p); }
        else { RequestLoses(sh, cli, p); }
      case InOnNextLive(at) => LiveWrites(sh, cli, p);
      case InOnNextPending(at) => PendingWrites(sh, cli, p);
      case InNotifyConfigured(at) =>
        if at.TryTested? && sh.ns == cli.cur { CliTestedWins(sh, cli, p, empty); }
        else if !at.ReadNow? && sh.ns == cli.cur { CliConfiguredWins(sh, cli, p, empty); }
        else { CliConfiguredLoses(sh, cli, p, empty); }
      case InConfigurePending(at) => CliMoves(sh, cli, p);
      case InNotifyPending(at) =>
        if at.Try? && sh.ns == cli.cur { NotifyPendingWins(sh, cli, p); } else { NotifyPendingLoses(sh, cli, p); }
      case InPullNext(at) =>
        if at.Test? || at.Post? || at.Call? { PullCalls(sh, cli, p); } else { PullClears(sh, cli, p); }
      case InPullComplete(at) => PullCompletes(sh, cli, p);
      case _ =>
    }
  }

  /** Where a thread that takes something out of a slot leaves the other one empty-handed. */
  lemma PhasesHoldNothing(sh: Shared, pub: Local, cli: Local)
    requires Both(sh, pub, cli)
    ensures WritesLive(pub.pc) ==> !HoldsLive(cli)
    ensures WritesPending(pub.pc) ==> !HoldsPending(cli)
    ensures WritesLive(cli.pc) ==> !HoldsLive(pub)
    ensures WritesPending(cli.pc) ==> !HoldsPending(pub)
  {
  }

  // ---------------------------------------------------------------- all runs

  predicate Both(sh: Shared, pub: Local, cli: Local) {
    PubSide(sh, pub, CliPhaseOf(sh.handoff, cli)) && CliSide(sh, cli, PubPhaseOf(pub))
  }

  /** The protocol's invariant: nothing has thrown and both threads are where they may be, or
      the client has thrown at one of the reachable places. */
  predicate Invariant(s: State) {
    && !s.pub.pc.Threw?
    && if s.cli.pc.Threw? then ReachableThrow(s.cli.pc.loop, s.cli.cur) else Both(s.sh, s.pub, s.cli)
  }

  lemma InitInvariant(s: State)
    requires Init(s)
    ensures Invariant(s)
  {
  }

  lemma PubTakeKeeps(s: State)
    requires Invariant(s) && !HasThrown(s) && CanStep(s.sh, s.pub)
    ensures Invariant(Take(s, Publisher))
  {
    var empty := s.data.queue == [];
    PubStepKeeps(s.sh, s.pub, CliPhaseOf(s.sh.handoff, s.cli), empty);
    StepFrame(s.sh, s.pub, empty);
    PhasesHoldNothing(s.sh, s.pub, s.cli);
  }

  lemma CliTakeKeeps(s: State)
    requires Invariant(s) && !HasThrown(s) && CanStep(s.sh, s.cli)
    ensures Invariant(Take(s, Client))
  {
    var empty := s.data.queue == [];
    CliStepKeeps(s.sh, s.cli, PubPhaseOf(s.pub), empty);
    StepFrame(s.sh, s.cli, empty);
    PhasesHoldNothing(s.sh, s.pub, s.cli);
  }

  lemma ApplyKeeps(s: State, a: Action)
    requires Invariant(s)
    ensures Invariant(Apply(s, a))
  {
    if HasThrown(s) {
    } else if a.PubStep? && CanStep(s.sh, s.pub) {
      PubTakeKeeps(s);
    } else if a.CliStep? && CanStep(s.sh, s.cli) {
      CliTakeKeeps(s);
    }
  }

  /** Every reachable state satisfies the invariant. */
  lemma {:induction false} ExecKeeps(s: State, actions: seq<Action>)
    requires Invariant(s)
    ensures Invariant(Exec(s, actions))
    decreases |actions|
  {
    if actions != [] {
      ExecKeeps(s, actions[..|actions| - 1]);
      ApplyKeeps(Exec(s, actions[..|actions| - 1]), actions[|actions| - 1]);
    }
  }

  lemma {:induction false} ExecCat(s: State, a: seq<Action>, b: seq<Action>)
    ensures Exec(s, a + b) == Exec(Exec(s, a), b)
    decreases |b|
  {
    if b == [] {
      assert a + b == a;
    } else {
      assert (a + b)[..|a + b| - 1] == a + b[..|b| - 1];
      ExecCat(s, a, b[..|b| - 1]);
    }
  }
}
