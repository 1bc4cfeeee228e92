/** `WaitForMessage` as the client's program over the notification protocol, with a publisher
    that does not batch and publishes nothing after Done. */
module WaitForMessage {
  import opened Wrappers
  import opened NotifyModel
  import opened NotifyInvariant
  import opened NotifyDelivery
  import opened NotifyLedger

  /** Where the client is in `WaitForMessage`, named by the step about to be taken. */
  datatype At =
    | Outside
    | FirstPop        // look at the queue
    | AskComplete     // ask whether the publisher is done
    | LastPop         // it is: look once more
    | Arm             // it is not: install a trigger that sets the promise
    | Arming
    | SecondPop       // look again, the trigger being in place
    | AskAgain        // ask again
    | Waiting         // blocked on the promise
    | FinalPop        // the promise is set: look for the last time

  /** `returned` is the result of the last call. */
  datatype Waiter = Waiter(s: State, at: At, returned: Option<bool>)

  datatype Happening = Publish(m: Message) | Done | PubMove | Get | StartWait | CliMove

  /** GetNextMessage inside the call: return true if it yields a message, else go on. */
  function PopOr(w: Waiter, otherwise: Waiter): Waiter {
    if w.s.data.queue != [] then Waiter(Apply(w.s, CliPop), Outside, Some(true)) else otherwise
  }

  function Return(w: Waiter, result: bool): Waiter { w.(at := Outside, returned := Some(result)) }

  /** The client is about to call GetNextMessage. */
  predicate Pops(at: At) { at.FirstPop? || at.LastPop? || at.SecondPop? || at.FinalPop? }

  /** The trigger of the present call has set the promise. */
  predicate PromiseSet(s: State) { s.cli.fn in s.h.fired }

  function ClientMove(w: Waiter): Waiter {
    match w.at
    case Outside => w
    case FirstPop => PopOr(w, w.(at := AskComplete))
    case AskComplete => w.(at := if w.s.data.consumer.Finished? then LastPop else Arm)
    case LastPop => PopOr(w, Return(w, false))
    case Arm => w.(s := Apply(w.s, CliInstall(false)), at := Arming)
    case Arming => if w.s.cli.pc.Idle? then w.(at := SecondPop) else w.(s := Apply(w.s, CliStep))
    case SecondPop => PopOr(w, w.(at := AskAgain))
    case AskAgain => if w.s.data.consumer.Finished? then Return(w, false) else w.(at := Waiting)
    case Waiting => if PromiseSet(w.s) then w.(at := FinalPop) else w
    case FinalPop => PopOr(w, Return(w, false))
  }

  function Happen(w: Waiter, e: Happening): Waiter {
    if HasThrown(w.s) then w else
    match e
    case Publish(m) => if w.s.data.consumer.Consuming? then w.(s := Apply(w.s, PubPush(m))) else w
    case Done => if w.s.data.consumer.Consuming? then w.(s := Apply(w.s, PubDone)) else w
    case PubMove => w.(s := Apply(w.s, PubStep))
    case Get => if w.at.Outside? then w.(s := Apply(w.s, CliPop)) else w
    case StartWait => if w.at.Outside? then w.(at := FirstPop) else w
    case CliMove => ClientMove(w)
  }

  function Run(w: Waiter, events: seq<Happening>): Waiter
    decreases |events|
  {
    if events == [] then w else Happen(Run(w, events[..|events| - 1]), events[|events| - 1])
  }

  // ---------------------------------------------------------------- the invariant

  /** No trigger of this call exists yet; one left over from an earlier call may be live. */
  predicate Before(at: At) {
    at.Outside? || at.FirstPop? || at.AskComplete? || at.LastPop?
  }

  /** The client is about to ask, or is asking, for a slot. */
  predicate Requesting(at: At, cli: Local) {
    at.Arm? || (at.Arming? && cli.pc.InNotifyRequested?)
  }

  /** The trigger of this call has been installed. */
  predicate Armed(at: At, cli: Local) {
    at.SecondPop? || at.AskAgain? || at.Waiting? || (at.Arming? && (cli.pc.Finish? || cli.pc.Idle?))
  }

  /** The client's side of the protocol while it runs this program. */
  predicate Program(sh: Shared, cli: Local, at: At) {
    && !sh.handoff && !sh.batching
    && (!at.Arming? ==> cli.pc.Idle?)
    && (cli.depth != 0 ==> cli.pc.InPullNext?)
    && (cli.pc.Idle? || cli.origin.FromInstall?)
    && (cli.pc.InNotifyRequested? && cli.pc.requestAt.TryNext? ==>
          cli.cur.Disabled? || cli.cur.NothingToNotify? || cli.cur.Publishing?)
  }

  /** A trigger left over from an earlier call is about to be fired, or nobody will ever wait again. */
  predicate LeftoverOk(sh: Shared, pub: Local, cli: Local, at: At, fin: bool) {
    sh.ns.NothingToNotify? && (Before(at) || Requesting(at, cli)) ==> WillNotify(sh, pub) || (fin && Before(at))
  }

  /** While an old trigger is live or being fired, nothing arrives behind the back of a client that
      found the queue empty. */
  predicate QuietOk(sh: Shared, pub: Local, cli: Local, at: At, unread: bool, fin: bool) {
    && (at.AskComplete? && (sh.ns.NothingToNotify? || PubPhaseOf(pub).PubFiring?) ==> !unread)
    && (Requesting(at, cli) && (sh.ns.NothingToNotify? || PubPhaseOf(pub).PubFiring?) ==> !unread && !fin)
    && (CliPhaseOf(sh.handoff, cli).CliPending? && PubPhaseOf(pub).PubFiring? ==> !unread && !fin)
  }

  /** The publisher only ever makes live a trigger the client is going to wait for. */
  predicate MovingOk(sh: Shared, pub: Local, cli: Local, at: At, unread: bool, fin: bool) {
    sh.ns.PubWillReconfigure? || PubPhaseOf(pub).PubMoving? ==> Armed(at, cli) && !unread && !fin
  }

  /** Data or Done that arrives after the trigger went live will fire it. */
  predicate ArmedOk(sh: Shared, pub: Local, cli: Local, at: At, unread: bool, fin: bool) {
    && (unread && ((Armed(at, cli) && sh.ns.NothingToNotify?) || AboutToRest(sh, cli)) ==> WillNotify(sh, pub))
    && (at.Waiting? && fin && sh.ns.NothingToNotify? ==> WillNotify(sh, pub))
  }

  /** Where the trigger of this call is until it fires. */
  predicate TriggerPlaced(sh: Shared, pub: Local, fn: int) {
    || (sh.ns.NothingToNotify? && Holds(sh.onNotify, fn))
    || (sh.ns.Publishing? && Holds(sh.onNotify, fn) && HoldsLive(pub))
    || (sh.ns.PubWillReconfigure? && Holds(sh.pendingFn, fn))
    || (PubPhaseOf(pub).PubMoving?
        && if pub.pc.InConfigurePending? && pub.pc.moveAt.MoveFn? then Holds(sh.pendingFn, fn)
           else Holds(sh.onNotify, fn))
  }

  predicate TriggerOk(sh: Shared, pub: Local, cli: Local, at: At, set_: bool) {
    && (Armed(at, cli) && !set_ ==> TriggerPlaced(sh, pub, cli.fn))
    && ((Armed(at, cli) && set_) || at.FinalPop? ==>
          !sh.ns.NothingToNotify? && !sh.ns.PubWillReconfigure? && !PubPhaseOf(pub).PubMoving?)
    && (at.Arming? && HoldsLive(cli) ==> Holds(sh.onNotify, cli.fn))
    && (at.Arming? && HoldsPending(cli) ==> Holds(sh.pendingFn, cli.fn))
    && (at.Arming? && (SpentBy(cli) || cli.pc.InPullComplete?) ==> set_)
  }

  predicate Quiet(sh: Shared, pub: Local, cli: Local, at: At, unread: bool, fin: bool) {
    && Program(sh, cli, at)
    && LeftoverOk(sh, pub, cli, at, fin) && QuietOk(sh, pub, cli, at, unread, fin)
    && MovingOk(sh, pub, cli, at, unread, fin) && ArmedOk(sh, pub, cli, at, unread, fin)
  }

  // ---------------------------------------------------------------- publisher steps

  lemma PushWinsQuiet(sh: Shared, pub: Local, cli: Local, at: At, unread: bool, fin: bool)
    requires Both(sh, pub, cli) && Quiet(sh, pub, cli, at, unread, fin)
    requires pub.pc.InPushComplete? && pub.pc.loopAt.Try? && sh.ns == pub.cur
    ensures var o := StepPushComplete(sh, pub, pub.pc.loopAt); Quiet(o.sh, o.l, cli, at, unread, fin)
  {
  }

  lemma PushLosesQuiet(sh: Shared, pub: Local, cli: Local, at: At, unread: bool, fin: bool)
    requires Both(sh, pub, cli) && Quiet(sh, pub, cli, at, unread, fin)
    requires pub.pc.InPushComplete? && (pub.pc.loopAt.Try? ==> sh.ns != pub.cur)
    ensures var o := StepPushComplete(sh, pub, pub.pc.loopAt); Quiet(o.sh, o.l, cli, at, unread, fin)
  {
  }

  lemma CompleteWinsQuiet(sh: Shared, pub: Local, cli: Local, at: At, unread: bool, fin: bool)
    requires Both(sh, pub, cli) && Quiet(sh, pub, cli, at, unread, fin)
    requires pub.pc == InPublishComplete(Try) && sh.ns == pub.cur
    ensures var o := StepPublishComplete(sh, pub, Try); Quiet(o.sh, o.l, cli, at, unread, fin)
  {
  }

  lemma CompleteLosesQuiet(sh: Shared, pub: Local, cli: Local, at: At, unread: bool, fin: bool)
    requires Both(sh, pub, cli) && Quiet(sh, pub, cli, at, unread, fin)
    requires pub.pc == InPublishComplete(Read) || (pub.pc == InPublishComplete(Try) && sh.ns != pub.cur)
    ensures var o := StepPublishComplete(sh, pub, pub.pc.loopAt); Quiet(o.sh, o.l, cli, at, unread, fin)
  {
  }

  lemma PubConfiguredQuiet(sh: Shared, pub: Local, cli: Local, at: At, unread: bool, fin: bool, empty: bool)
    requires Both(sh, pub, cli) && Quiet(sh, pub, cli, at, unread, fin)
    requires pub.pc.InNotifyConfigured?
    ensures var o := StepNotifyConfigured(sh, pub, pub.pc.configAt, empty); Quiet(o.sh, o.l, cli, at, unread, fin)
  {
  }

  lemma PublishQuiet(sh: Shared, pub: Local, cli: Local, at: At, unread: bool, fin: bool)
    requires Both(sh, pub, cli) && Quiet(sh, pub, cli, at, unread, fin)
    requires pub.pc.InPublishNext?
    ensures var o := StepPublishNext(sh, pub, pub.pc.fireAt); Quiet(o.sh, o.l, cli, at, unread, fin)
  {
  }

  lemma PubSlotQuiet(sh: Shared, pub: Local, cli: Local, at: At, unread: bool, fin: bool)
    requires Both(sh, pub, cli) && Quiet(sh, pub, cli, at, unread, fin)
    requires pub.pc.InConfigurePending? || pub.pc.Finish?
    ensures var o := Step(sh, pub, false); Quiet(o.sh, o.l, cli, at, unread, fin)
  {
  }

  // ---------------------------------------------------------------- client steps inside OnNextMessage

  lemma RequestStartsQuiet(sh: Shared, pub: Local, cli: Local, unread: bool, fin: bool)
    requires Both(sh, pub, cli) && Quiet(sh, pub, cli, Arming, unread, fin) && CanStep(sh, cli)
    requires cli.pc.InNotifyRequested? && !cli.pc.requestAt.TryNext?
    ensures var o := StepNotifyRequested(sh, cli, cli.pc.requestAt); Quiet(o.sh, pub, o.l, Arming, unread, fin)
  {
  }

  lemma RequestWinsQuiet(sh: Shared, pub: Local, cli: Local, unread: bool, fin: bool)
    requires Both(sh, pub, cli) && Quiet(sh, pub, cli, Arming, unread, fin) && CanStep(sh, cli)
    requires cli.pc.InNotifyRequested? && cli.pc.requestAt.TryNext? && sh.ns == cli.cur
    ensures var o := StepNotifyRequested(sh, cli, TryNext); Quiet(o.sh, pub, o.l, Arming, unread, fin)
  {
  }

  lemma RequestLosesQuiet(sh: Shared, pub: Local, cli: Local, unread: bool, fin: bool)
    requires Both(sh, pub, cli) && Quiet(sh, pub, cli, Arming, unread, fin) && CanStep(sh, cli)
    requires cli.pc.InNotifyRequested? && cli.pc.requestAt.TryNext? && sh.ns != cli.cur
    ensures var o := StepNotifyRequested(sh, cli, TryNext); Quiet(o.sh, pub, o.l, Arming, unread, fin)
  {
  }

  lemma WriteQuiet(sh: Shared, pub: Local, cli: Local, unread: bool, fin: bool)
    requires Both(sh, pub, cli) && Quiet(sh, pub, cli, Arming, unread, fin) && CanStep(sh, cli)
    requires cli.pc.InOnNextLive? || cli.pc.InOnNextPending? || cli.pc.InConfigurePending?
    ensures var o := Step(sh, cli, false); Quiet(o.sh, pub, o.l, Arming, unread, fin)
  {
  }

  lemma SwitchQuiet(sh: Shared, pub: Local, cli: Local, unread: bool, fin: bool)
    requires Both(sh, pub, cli) && Quiet(sh, pub, cli, Arming, unread, fin) && CanStep(sh, cli)
    requires cli.pc.InNotifyConfigured? && !cli.pc.configAt.TryTested?
    ensures var o := StepNotifyConfigured(sh, cli, cli.pc.configAt, !unread); Quiet(o.sh, pub, o.l, Arming, unread, fin)
  {
  }

  lemma TestedQuiet(sh: Shared, pub: Local, cli: Local, unread: bool, fin: bool)
    requires Both(sh, pub, cli) && Quiet(sh, pub, cli, Arming, unread, fin) && CanStep(sh, cli)
    requires cli.pc.InNotifyConfigured? && cli.pc.configAt.TryTested?
    ensures var o := StepNotifyConfigured(sh, cli, TryTested, !unread); Quiet(o.sh, pub, o.l, Arming, unread, fin)
  {
  }

  lemma NotifyPendingQuiet(sh: Shared, pub: Local, cli: Local, unread: bool, fin: bool)
    requires Both(sh, pub, cli) && Quiet(sh, pub, cli, Arming, unread, fin) && CanStep(sh, cli)
    requires cli.pc.InNotifyPending?
    ensures var o := StepNotifyPending(sh, cli, cli.pc.loopAt); Quiet(o.sh, pub, o.l, Arming, unread, fin)
  {
  }

  lemma PullQuiet(sh: Shared, pub: Local, cli: Local, unread: bool, fin: bool)
    requires Both(sh, pub, cli) && Quiet(sh, pub, cli, Arming, unread, fin) && CanStep(sh, cli)
    requires cli.pc.InPullNext? || cli.pc.InPullComplete? || cli.pc.Finish?
    ensures var o := Step(sh, cli, false); Quiet(o.sh, pub, o.l, Arming, unread, fin)
  {
  }


  // ---------------------------------------------------------------- where the trigger is

  /** The step fires trigger `fn`, which sets the promise. */
  predicate Sets(e: Event, fn: int) { e.Fired? && e.id == fn }

  /** It is in at most one place (from the trigger ledger). */
  predicate InOnePlace(sh: Shared, pub: Local, cli: Local, set_: bool) {
    var live := Holds(sh.onNotify, cli.fn) && !SpentBy(pub) && !SpentBy(cli);
    var pending := Holds(sh.pendingFn, cli.fn);
    !(live && pending) && !(set_ && (live || pending))
  }

  lemma PushPlaces(sh: Shared, pub: Local, cli: Local, at: At, set_: bool)
    requires Both(sh, pub, cli) && Program(sh, cli, at) && TriggerOk(sh, pub, cli, at, set_)
    requires InOnePlace(sh, pub, cli, set_)
    requires pub.pc.InPushComplete?
    ensures var o := StepPushComplete(sh, pub, pub.pc.loopAt); TriggerOk(o.sh, o.l, cli, at, set_ || Sets(o.e, cli.fn))
  {
  }

  lemma PublishPlaces(sh: Shared, pub: Local, cli: Local, at: At, set_: bool)
    requires Both(sh, pub, cli) && Program(sh, cli, at) && TriggerOk(sh, pub, cli, at, set_)
    requires InOnePlace(sh, pub, cli, set_)
    requires pub.pc.InPublishNext?
    ensures var o := StepPublishNext(sh, pub, pub.pc.fireAt); TriggerOk(o.sh, o.l, cli, at, set_ || Sets(o.e, cli.fn))
  {
  }

  lemma PublishCompletePlaces(sh: Shared, pub: Local, cli: Local, at: At, set_: bool)
    requires Both(sh, pub, cli) && Program(sh, cli, at) && TriggerOk(sh, pub, cli, at, set_)
    requires InOnePlace(sh, pub, cli, set_)
    requires pub.pc.InPublishComplete?
    ensures var o := StepPublishComplete(sh, pub, pub.pc.loopAt);
      TriggerOk(o.sh, o.l, cli, at, set_ || Sets(o.e, cli.fn))
  {
  }

  lemma PubConfiguredPlaces(sh: Shared, pub: Local, cli: Local, at: At, set_: bool, empty: bool)
    requires Both(sh, pub, cli) && Program(sh, cli, at) && TriggerOk(sh, pub, cli, at, set_)
    requires InOnePlace(sh, pub, cli, set_)
    requires pub.pc.InNotifyConfigured?
    ensures var o := StepNotifyConfigured(sh, pub, pub.pc.configAt, empty);
      TriggerOk(o.sh, o.l, cli, at, set_ || Sets(o.e, cli.fn))
  {
  }

  lemma PubMovePlaces(sh: Shared, pub: Local, cli: Local, at: At, set_: bool)
    requires Both(sh, pub, cli) && Program(sh, cli, at) && TriggerOk(sh, pub, cli, at, set_)
    requires InOnePlace(sh, pub, cli, set_)
    requires pub.pc.InConfigurePending? || pub.pc.Finish?
    ensures var o := Step(sh, pub, false); TriggerOk(o.sh, o.l, cli, at, set_ || Sets(o.e, cli.fn))
  {
  }

  lemma RequestPlaces(sh: Shared, pub: Local, cli: Local, set_: bool)
    requires Both(sh, pub, cli) && Program(sh, cli, Arming) && TriggerOk(sh, pub, cli, Arming, set_) && CanStep(sh, cli)
    requires InOnePlace(sh, pub, cli, set_)
    requires cli.pc.InNotifyRequested?
    ensures var o := StepNotifyRequested(sh, cli, cli.pc.requestAt);
      TriggerOk(o.sh, pub, o.l, Arming, set_ || Sets(o.e, cli.fn))
  {
  }

  lemma WritePlaces(sh: Shared, pub: Local, cli: Local, set_: bool)
    requires Both(sh, pub, cli) && Program(sh, cli, Arming) && TriggerOk(sh, pub, cli, Arming, set_) && CanStep(sh, cli)
    requires InOnePlace(sh, pub, cli, set_)
    requires cli.pc.InOnNextLive? || cli.pc.InOnNextPending? || cli.pc.InConfigurePending?
    ensures var o := Step(sh, cli, false); TriggerOk(o.sh, pub, o.l, Arming, set_ || Sets(o.e, cli.fn))
  {
  }

  lemma ConfiguredPlaces(sh: Shared, pub: Local, cli: Local, set_: bool, empty: bool)
    requires Both(sh, pub, cli) && Program(sh, cli, Arming) && TriggerOk(sh, pub, cli, Arming, set_) && CanStep(sh, cli)
    requires InOnePlace(sh, pub, cli, set_)
    requires cli.pc.InNotifyConfigured?
    ensures var o := StepNotifyConfigured(sh, cli, cli.pc.configAt, empty);
      TriggerOk(o.sh, pub, o.l, Arming, set_ || Sets(o.e, cli.fn))
  {
  }

  lemma NotifyPendingPlaces(sh: Shared, pub: Local, cli: Local, set_: bool)
    requires Both(sh, pub, cli) && Program(sh, cli, Arming) && TriggerOk(sh, pub, cli, Arming, set_) && CanStep(sh, cli)
    requires InOnePlace(sh, pub, cli, set_)
    requires cli.pc.InNotifyPending?
    ensures var o := StepNotifyPending(sh, cli, cli.pc.loopAt);
      TriggerOk(o.sh, pub, o.l, Arming, set_ || Sets(o.e, cli.fn))
  {
  }

  lemma PullPlaces(sh: Shared, pub: Local, cli: Local, set_: bool)
    requires Both(sh, pub, cli) && Program(sh, cli, Arming) && TriggerOk(sh, pub, cli, Arming, set_) && CanStep(sh, cli)
    requires InOnePlace(sh, pub, cli, set_)
    requires cli.pc.InPullNext? || cli.pc.InPullComplete? || cli.pc.Finish?
    ensures var o := Step(sh, cli, false); TriggerOk(o.sh, pub, o.l, Arming, set_ || Sets(o.e, cli.fn))
  {
  }


  lemma PubStepQuiet(sh: Shared, pub: Local, cli: Local, at: At, unread: bool, fin: bool, empty: bool)
    requires Both(sh, pub, cli) && Quiet(sh, pub, cli, at, unread, fin)
    ensures var o := Step(sh, pub, empty); Quiet(o.sh, o.l, cli, at, unread, fin)
  {
    hide Quiet, StepPushComplete, StepPublishNext, StepPublishComplete, StepNotifyConfigured;
    match pub.pc {
      case InPushComplete(pos) =>
        if pos.Try? && sh.ns == pub.cur { PushWinsQuiet(sh, pub, cli, at, unread, fin); }
        else { PushLosesQuiet(sh, pub, cli, at, unread, fin); }
      case InPublishNext(_) => PublishQuiet(sh, pub, cli, at, unread, fin);
      case InPublishComplete(pos) =>
        if pos.Try? && sh.ns == pub.cur { CompleteWinsQuiet(sh, pub, cli, at, unread, fin); }
        else { CompleteLosesQuiet(sh, pub, cli, at, unread, fin); }
      case InNotifyConfigured(_) => PubConfiguredQuiet(sh, pub, cli, at, unread, fin, empty);
      case Idle =>
      case _ => PubSlotQuiet(sh, pub, cli, at, unread, fin);
    }
  }

  lemma PubStepPlaces(sh: Shared, pub: Local, cli: Local, at: At, set_: bool, empty: bool)
    requires Both(sh, pub, cli) && Program(sh, cli, at) && TriggerOk(sh, pub, cli, at, set_)
    requires InOnePlace(sh, pub, cli, set_)
    ensures var o := Step(sh, pub, empty); TriggerOk(o.sh, o.l, cli, at, set_ || Sets(o.e, cli.fn))
  {
    match pub.pc {
      case InPushComplete(_) => PushPlaces(sh, pub, cli, at, set_);
      case InPublishNext(_) => PublishPlaces(sh, pub, cli, at, set_);
      case InPublishComplete(_) => PublishCompletePlaces(sh, pub, cli, at, set_);
      case InNotifyConfigured(_) => PubConfiguredPlaces(sh, pub, cli, at, set_, empty);
      case Idle =>
      case _ => PubMovePlaces(sh, pub, cli, at, set_);
    }
  }

  lemma CliStepQuiet(sh: Shared, pub: Local, cli: Local, unread: bool, fin: bool)
    requires Both(sh, pub, cli) && Quiet(sh, pub, cli, Arming, unread, fin) && CanStep(sh, cli)
    ensures var o := Step(sh, cli, !unread); Quiet(o.sh, pub, o.l, Arming, unread, fin)
  {
    hide Quiet, StepNotifyRequested, StepNotifyConfigured, StepNotifyPending;
    match cli.pc {
      case InNotifyRequested(pos) =>
        if !pos.TryNext? { RequestStartsQuiet(sh, pub, cli, unread, fin); }
        else if sh.ns == cli.cur { RequestWinsQuiet(sh, pub, cli, unread, fin); }
        else { RequestLosesQuiet(sh, pub, cli, unread, fin); }
      case InNotifyConfigured(pos) =>
        if pos.TryTested? { TestedQuiet(sh, pub, cli, unread, fin); } else { SwitchQuiet(sh, pub, cli, unread, fin); }
      case InNotifyPending(_) => NotifyPendingQuiet(sh, pub, cli, unread, fin);
      case InOnNextLive(_) | InOnNextPending(_) | InConfigurePending(_) => WriteQuiet(sh, pub, cli, unread, fin);
      case _ => PullQuiet(sh, pub, cli, unread, fin);
    }
  }

  lemma CliStepPlaces(sh: Shared, pub: Local, cli: Local, set_: bool, empty: bool)
    requires Both(sh, pub, cli) && Program(sh, cli, Arming) && TriggerOk(sh, pub, cli, Arming, set_) && CanStep(sh, cli)
    requires InOnePlace(sh, pub, cli, set_)
    ensures var o := Step(sh, cli, empty); TriggerOk(o.sh, pub, o.l, Arming, set_ || Sets(o.e, cli.fn))
  {
    match cli.pc {
      case InNotifyRequested(_) => RequestPlaces(sh, pub, cli, set_);
      case InNotifyConfigured(_) => ConfiguredPlaces(sh, pub, cli, set_, empty);
      case InNotifyPending(_) => NotifyPendingPlaces(sh, pub, cli, set_);
      case InOnNextLive(_) | InOnNextPending(_) | InConfigurePending(_) => WritePlaces(sh, pub, cli, set_);
      case _ => PullPlaces(sh, pub, cli, set_);
    }
  }

  /** Nothing in this program can lead to a throw. */
  lemma ProgramNeverThrows(sh: Shared, pub: Local, cli: Local, empty: bool)
    requires Both(sh, pub, cli) && Program(sh, cli, Arming) && CanStep(sh, cli)
    ensures !Step(sh, cli, empty).l.pc.Threw?
  {
    CliStepKeeps(sh, cli, PubPhaseOf(pub), empty);
    RequestOfProgram(sh, pub, cli);
  }

  lemma RequestOfProgram(sh: Shared, pub: Local, cli: Local)
    requires Both(sh, pub, cli) && Program(sh, cli, Arming)
    ensures cli.pc.InNotifyRequested? ==> !StepNotifyRequested(sh, cli, cli.pc.requestAt).l.pc.Threw?
    ensures cli.pc.InNotifyPending? ==> !StepNotifyPending(sh, cli, cli.pc.loopAt).l.pc.Threw?
  {
  }

  // ---------------------------------------------------------------- all runs

  predicate WaitInvariant(w: Waiter) {
    var s := w.s;
    && Fifo(s) && Invariant(s) && !HasThrown(s)
    && s.data.consumer != Aborting && !s.data.aborted
    && Quiet(s.sh, s.pub, s.cli, w.at, s.data.queue != [], s.data.consumer.Finished?)
    && TriggerOk(s.sh, s.pub, s.cli, w.at, PromiseSet(s))
  }

  lemma InOnePlaceOf(s: State)
    requires Accounted(s, s.cli.fn)
    ensures InOnePlace(s.sh, s.pub, s.cli, PromiseSet(s))
  {
  }

  lemma TakeSets(s: State, t: Thread, id: int)
    ensures (id in Take(s, t).h.fired) == (id in s.h.fired || Sets(Step(s.sh, LocalOf(s, t), s.data.queue == []).e, id))
  {
  }

  lemma PubMoveKeeps(w: Waiter)
    requires WaitInvariant(w) && Accounted(w.s, w.s.cli.fn) && CanStep(w.s.sh, w.s.pub)
    ensures WaitInvariant(w.(s := Take(w.s, Publisher)))
  {
    var s := w.s;
    PubTakeKeeps(s);
    InOnePlaceOf(s);
    TakeSets(s, Publisher, s.cli.fn);
    TakeKeepsFifo(s, Publisher);
    PubStepQuiet(s.sh, s.pub, s.cli, w.at, s.data.queue != [], s.data.consumer.Finished?, s.data.queue == []);
    PubStepPlaces(s.sh, s.pub, s.cli, w.at, PromiseSet(s), s.data.queue == []);
  }

  lemma ArmingKeeps(w: Waiter)
    requires WaitInvariant(w) && Accounted(w.s, w.s.cli.fn) && w.at.Arming? && CanStep(w.s.sh, w.s.cli)
    ensures WaitInvariant(w.(s := Take(w.s, Client)))
  {
    var s := w.s;
    CliTakeKeeps(s);
    InOnePlaceOf(s);
    TakeSets(s, Client, s.cli.fn);
    TakeKeepsFifo(s, Client);
    StepFrame(s.sh, s.cli, s.data.queue == []);
    ProgramNeverThrows(s.sh, s.pub, s.cli, s.data.queue == []);
    CliStepQuiet(s.sh, s.pub, s.cli, s.data.queue != [], s.data.consumer.Finished?);
    CliStepPlaces(s.sh, s.pub, s.cli, PromiseSet(s), s.data.queue == []);
  }

  lemma PublishKeeps(w: Waiter, m: Message)
    requires WaitInvariant(w) && w.s.data.consumer.Consuming?
    ensures WaitInvariant(w.(s := Apply(w.s, PubPush(m))))
  {
    ApplyKeeps(w.s, PubPush(m));
  }

  lemma DoneKeeps(w: Waiter)
    requires WaitInvariant(w) && w.s.data.consumer.Consuming?
    ensures WaitInvariant(w.(s := Apply(w.s, PubDone)))
  {
    ApplyKeeps(w.s, PubDone);
  }

  lemma PopKeeps(w: Waiter, returned: Option<bool>)
    requires WaitInvariant(w) && !w.at.Arm? && !w.at.Arming? && !w.at.AskComplete? && !w.at.AskAgain? && !w.at.Waiting?
    requires w.s.data.queue != []
    ensures WaitInvariant(Waiter(Apply(w.s, CliPop), Outside, returned))
  {
    ApplyKeeps(w.s, CliPop);
  }

  lemma ArmKeeps(w: Waiter)
    requires WaitInvariant(w) && w.at.Arm? && Accounted(w.s, w.s.h.issued)
    ensures WaitInvariant(w.(s := Apply(w.s, CliInstall(false)), at := Arming))
  {
    ApplyKeeps(w.s, CliInstall(false));
  }

  lemma ArmedKeeps(w: Waiter)
    requires WaitInvariant(w) && w.at.Arming? && w.s.cli.pc.Idle?
    ensures WaitInvariant(w.(at := SecondPop))
  {
  }

  lemma CliStepTakes(s: State)
    requires !HasThrown(s)
    ensures Apply(s, CliStep) == if CanStep(s.sh, s.cli) then Take(s, Client) else s
  {
    hide Take;
  }

  lemma ArmingMoveKeeps(w: Waiter)
    requires WaitInvariant(w) && w.at.Arming? && Accounted(w.s, w.s.cli.fn)
    ensures WaitInvariant(ClientMove(w))
  {
    NoThrow(w);
    CliStepTakes(w.s);
    hide WaitInvariant, Take, Accounted, Apply, CanStep;
    if w.s.cli.pc.Idle? { ArmedKeeps(w); }
    else if CanStep(w.s.sh, w.s.cli) { ArmingKeeps(w); }
  }

  /** The client's other decisions, which change nothing shared. */
  lemma FoundNothingKeeps(w: Waiter)
    requires WaitInvariant(w) && Pops(w.at) && w.s.data.queue == []
    ensures WaitInvariant(ClientMove(w))
  {
  }

  lemma DecisionKeeps(w: Waiter)
    requires WaitInvariant(w) && (w.at.Outside? || w.at.AskComplete? || w.at.AskAgain? || w.at.Waiting?)
    ensures WaitInvariant(ClientMove(w))
  {
  }

  lemma NoThrow(w: Waiter)
    requires WaitInvariant(w)
    ensures !HasThrown(w.s)
  {
  }

  lemma ClientMoveKeeps(w: Waiter)
    requires WaitInvariant(w) && Accounted(w.s, w.s.cli.fn) && Accounted(w.s, w.s.h.issued)
    ensures WaitInvariant(ClientMove(w))
  {
    hide WaitInvariant, Apply, Accounted;
    match w.at {
      case Arm => ArmKeeps(w);
      case Arming => ArmingMoveKeeps(w);
      case FirstPop | LastPop | SecondPop | FinalPop =>
        if w.s.data.queue != [] { PopKeeps(w, Some(true)); } else { FoundNothingKeeps(w); }
      case _ => DecisionKeeps(w);
    }
  }

  lemma HappenKeeps(w: Waiter, e: Happening)
    requires WaitInvariant(w) && Accounted(w.s, w.s.cli.fn) && Accounted(w.s, w.s.h.issued)
    ensures WaitInvariant(Happen(w, e))
  {
    NoThrow(w);
    hide WaitInvariant, Take, ClientMove, Accounted;
    match e {
      case Publish(m) => if w.s.data.consumer.Consuming? { PublishKeeps(w, m); }
      case Done => if w.s.data.consumer.Consuming? { DoneKeeps(w); }
      case PubMove => if CanStep(w.s.sh, w.s.pub) { PubMoveKeeps(w); }
      case Get => if w.at.Outside? && w.s.data.queue != [] { PopKeeps(w, w.returned); }
      case StartWait => StartKeeps(w);
      case CliMove => ClientMoveKeeps(w);
    }
  }

  lemma StartKeeps(w: Waiter)
    requires WaitInvariant(w)
    ensures WaitInvariant(Happen(w, StartWait))
  {
  }

  /** The protocol action behind each happening, if there is one. */
  function ActionOf(w: Waiter, e: Happening): seq<Action> {
    match e
    case Publish(m) => if w.s.data.consumer.Consuming? then [PubPush(m)] else []
    case Done => if w.s.data.consumer.Consuming? then [PubDone] else []
    case PubMove => [PubStep]
    case Get => if w.at.Outside? then [CliPop] else []
    case StartWait => []
    case CliMove =>
      if w.at.Arm? then [CliInstall(false)]
      else if w.at.Arming? && !w.s.cli.pc.Idle? then [CliStep]
      else if Pops(w.at) && w.s.data.queue != [] then [CliPop]
      else []
  }

  lemma HappenIsAction(w: Waiter, e: Happening)
    ensures Happen(w, e).s == Exec(w.s, ActionOf(w, e))
  {
    if ActionOf(w, e) != [] { assert ActionOf(w, e)[..0] == []; }
  }

  lemma {:induction false} RunKeeps(w: Waiter, events: seq<Happening>)
    requires Init(w.s) && w.at.Outside?
    ensures WaitInvariant(Run(w, events)) && forall id :: Accounted(Run(w, events).s, id)
    decreases |events|
  {
    if events == [] {
      InitInvariant(w.s);
    } else {
      var most := Run(w, events[..|events| - 1]);
      var e := events[|events| - 1];
      RunKeeps(w, events[..|events| - 1]);
      HappenKeeps(most, e);
      HappenIsAction(most, e);
      forall id ensures Accounted(Run(w, events).s, id) { RunAccounted(most.s, ActionOf(most, e), id); }
    }
  }

  /** In every run of such a client: no throw, no waiting for the publisher's reconfiguration, and
      a client waiting on its promise waits rightly.  If the promise is not set and the publisher is
      idle, the promise's trigger is live, there is nothing to read and Done has not been called; if
      there is data or Done, the publisher is still inside the operation that will set it. */
  lemma {:induction false} WaitsOnlyForNews(w: Waiter, events: seq<Happening>)
    requires Init(w.s) && w.at.Outside?
    ensures var e := Run(w, events);
      && !HasThrown(e.s) && !e.s.sh.handoff && !e.s.sh.ns.SubWakeupRequired?
      && (e.at.Waiting? && !PromiseSet(e.s) ==>
            && (e.s.pub.pc.Idle? ==>
                  && e.s.sh.ns.NothingToNotify? && e.s.sh.onNotify == Some(e.s.cli.fn)
                  && e.s.data.queue == [] && e.s.data.consumer.Consuming?)
            && (e.s.data.queue != [] || e.s.data.consumer.Finished? ==>
                  e.s.pub.pc.InPushComplete? || PubPhaseOf(e.s.pub).PubFiring?))
  {
    RunKeeps(w, events);
    WaitingIsRight(Run(w, events));
  }

  lemma WaitingIsRight(w: Waiter)
    requires WaitInvariant(w)
    ensures !w.s.sh.ns.SubWakeupRequired?
    ensures w.at.Waiting? && !PromiseSet(w.s) && w.s.pub.pc.Idle? ==>
              && w.s.sh.ns.NothingToNotify? && Holds(w.s.sh.onNotify, w.s.cli.fn)
              && w.s.data.queue == [] && w.s.data.consumer.Consuming?
    ensures w.at.Waiting? && !PromiseSet(w.s) && (w.s.data.queue != [] || w.s.data.consumer.Finished?) ==>
              w.s.pub.pc.InPushComplete? || PubPhaseOf(w.s.pub).PubFiring?
  {
  }

  /** From there the next push, or Done, sets the promise within four steps of the publisher. */
  lemma NextNewsSetsPromise(w: Waiter, a: Action)
    requires WaitInvariant(w) && w.at.Waiting? && !PromiseSet(w.s) && w.s.pub.pc.Idle?
    requires a.PubDone? || (a.PubPush? && |w.s.data.queue| < w.s.data.cap)
    ensures var s1 := Apply(w.s, a);
      var s2 := Apply(Apply(s1, PubStep), PubStep);
      s1.pub.pc == InPushComplete(Read) && s2.pub.pc == InPublishNext(Test)
      && PromiseSet(Apply(Apply(s2, PubStep), PubStep))
  {
    WaitingIsRight(w);
    var s1 := Apply(w.s, a);
    assert s1.sh == w.s.sh && s1.cli == w.s.cli && s1.pub.pc == InPushComplete(Read);
    ReadThenFires(s1);
  }

  lemma ReadThenFires(s: State)
    requires Invariant(s) && !HasThrown(s) && s.pub.pc == InPushComplete(Read)
    requires s.sh.ns.NothingToNotify? && Holds(s.sh.onNotify, s.cli.fn)
    ensures var s2 := Apply(Apply(s, PubStep), PubStep);
      s2.pub.pc == InPublishNext(Test) && PromiseSet(Apply(Apply(s2, PubStep), PubStep))
  {
    var s1 := Apply(s, PubStep);
    assert s1.pub.pc == InPushComplete(Try) && s1.pub.cur.NothingToNotify? && s1.sh == s.sh && s1.cli == s.cli;
    var s2 := Apply(s1, PubStep);
    assert s2.sh == s.sh.(ns := Publishing) && s2.cli == s.cli && s2.pub.pc == InPublishNext(Test);
    var s3 := Apply(s2, PubStep);
    assert s3.sh == s2.sh && s3.cli == s.cli && s3.pub.pc == InPublishNext(if s.sh.target then Post else Call);
    TakeSets(s3, Publisher, s.cli.fn);
  }
}
