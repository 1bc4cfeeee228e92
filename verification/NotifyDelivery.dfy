/** No notification is lost: what may be unread when the protocol is at rest. */
module NotifyDelivery {
  import opened Wrappers
  import opened NotifyModel
  import opened NotifyInvariant

  /** Some unread message was pushed after a trigger last fired.  The queue is a FIFO, so it is
      enough to ask that of the last message in it. */
  predicate Unnotified(s: State) {
    s.data.queue != [] && s.h.covered < |s.h.pushed|
  }

  /** The publisher has still to run a PushComplete: for a push just made, for an open batch, or
      for Done. */
  predicate Owes(sh: Shared, pub: Local) {
    match pub.pc
    case InPushComplete(_) => true
    case Idle => sh.batching
    case _ => sh.batching && !pub.origin.FromEndBatch?
  }

  /** That PushComplete will not settle for a `currentState` read before the client last looked
      at the queue. */
  predicate WillNotify(sh: Shared, pub: Local) {
    && Owes(sh, pub)
    && (pub.pc.InPushComplete? && pub.pc.loopAt.Try? && (!sh.batching || pub.origin.FromEndBatch?) ==>
          pub.cur.NothingToNotify? || pub.cur.Configuring?)
  }

  /** The publisher has fired in this PushComplete and not returned from it. */
  predicate HasJustFired(pub: Local) {
    match pub.pc
    case InPublishNext(at) => at.Running? || at.ClearTarget? || at.ClearFn?
    case InPublishComplete(_) | InConfigurePending(_) => true
    case InNotifyConfigured(at) => !at.Wake?
    case _ => false
  }

  /** The client has found the queue empty and is about to go to rest. */
  predicate AboutToRest(sh: Shared, cli: Local) {
    cli.pc.InNotifyConfigured? && cli.pc.configAt.TryTested? && cli.sawEmpty && sh.ns.Configuring?
  }

  /** `late` stands for "there is an unread message pushed after the last trigger fired", `all`
      for "everything pushed was there when the last trigger fired". */
  predicate Resting(sh: Shared, pub: Local, cli: Local, late: bool, all: bool) {
    && (all ==> !late)
    && (late && (sh.ns.NothingToNotify? || AboutToRest(sh, cli)) ==> WillNotify(sh, pub))
    && (HasJustFired(pub) ==> all)
  }

  lemma PushWinRests(sh: Shared, pub: Local, cli: Local, late: bool, all: bool)
    requires Both(sh, pub, cli) && Resting(sh, pub, cli, late, all)
    requires pub.pc == InPushComplete(Try) && sh.ns == pub.cur
    ensures var o := StepPushComplete(sh, pub, Try); Resting(o.sh, o.l, cli, late, all)
  {
  }

  lemma PushLossRests(sh: Shared, pub: Local, cli: Local, late: bool, all: bool)
    requires Both(sh, pub, cli) && Resting(sh, pub, cli, late, all)
    requires pub.pc == InPushComplete(Read) || (pub.pc == InPushComplete(Try) && sh.ns != pub.cur)
    ensures var o := StepPushComplete(sh, pub, pub.pc.loopAt); Resting(o.sh, o.l, cli, late, all)
  {
  }

  lemma PushRests(sh: Shared, pub: Local, cli: Local, late: bool, all: bool)
    requires Both(sh, pub, cli) && Resting(sh, pub, cli, late, all) && pub.pc.InPushComplete?
    ensures var o := StepPushComplete(sh, pub, pub.pc.loopAt); Resting(o.sh, o.l, cli, late, all)
  {
    hide Both, Resting, StepPushComplete;
    if pub.pc.loopAt.Try? && sh.ns == pub.cur { PushWinRests(sh, pub, cli, late, all); }
    else { PushLossRests(sh, pub, cli, late, all); }
  }

  lemma PublishRests(sh: Shared, pub: Local, cli: Local, late: bool, all: bool)
    requires Both(sh, pub, cli) && Resting(sh, pub, cli, late, all) && pub.pc.InPublishNext?
    ensures var o := StepPublishNext(sh, pub, pub.pc.fireAt);
      Resting(o.sh, o.l, cli, late && !o.e.Fired?, all || o.e.Fired?)
  {
  }

  lemma PublishCompleteRests(sh: Shared, pub: Local, cli: Local, late: bool, all: bool)
    requires Both(sh, pub, cli) && Resting(sh, pub, cli, late, all) && pub.pc.InPublishComplete?
    ensures var o := StepPublishComplete(sh, pub, pub.pc.loopAt); Resting(o.sh, o.l, cli, late, all)
  {
  }

  lemma PubConfiguredRests(sh: Shared, pub: Local, cli: Local, late: bool, all: bool, empty: bool)
    requires Both(sh, pub, cli) && Resting(sh, pub, cli, late, all) && pub.pc.InNotifyConfigured?
    ensures var o := StepNotifyConfigured(sh, pub, pub.pc.configAt, empty); Resting(o.sh, o.l, cli, late, all)
  {
  }

  lemma PubLeavesRests(sh: Shared, pub: Local, cli: Local, late: bool, all: bool, empty: bool)
    requires Both(sh, pub, cli) && Resting(sh, pub, cli, late, all)
    requires pub.pc.InConfigurePending? || pub.pc.Finish? || pub.pc.Idle? || pub.pc.Threw?
    ensures var o := Step(sh, pub, empty); Resting(o.sh, o.l, cli, late, all)
  {
  }

  lemma PubOtherRests(sh: Shared, pub: Local, cli: Local, late: bool, all: bool, empty: bool)
    requires Both(sh, pub, cli) && Resting(sh, pub, cli, late, all)
    requires !pub.pc.InPushComplete? && !pub.pc.InPublishNext?
    ensures var o := Step(sh, pub, empty); Resting(o.sh, o.l, cli, late, all) && !o.e.Fired?
  {
    StepFrame(sh, pub, empty);
    hide Resting, StepPublishComplete, StepNotifyConfigured;
    match pub.pc {
      case InPublishComplete(_) => PublishCompleteRests(sh, pub, cli, late, all);
      case InNotifyConfigured(_) => PubConfiguredRests(sh, pub, cli, late, all, empty);
      case _ => PubLeavesRests(sh, pub, cli, late, all, empty);
    }
  }

  lemma CliConfiguredRests(sh: Shared, pub: Local, cli: Local, late: bool, all: bool, empty: bool)
    requires Both(sh, pub, cli) && Resting(sh, pub, cli, late, all) && cli.pc.InNotifyConfigured?
    requires empty ==> !late
    ensures var o := StepNotifyConfigured(sh, cli, cli.pc.configAt, empty); Resting(o.sh, pub, o.l, late, all)
  {
  }

  /** Only NotifyConfigured puts the protocol to rest or looks at the queue. */
  predicate StaysBusy(sh: Shared, cli: Local, o: Outcome) {
    && (o.sh.ns.NothingToNotify? ==> sh.ns.NothingToNotify?)
    && !AboutToRest(o.sh, o.l)
    && o.sh.batching == sh.batching
  }

  lemma LoopStaysBusy(sh: Shared, cli: Local, p: PubPhase)
    requires CliSide(sh, cli, p) && (cli.pc.InNotifyPending? || cli.pc.InPullComplete?)
    ensures StaysBusy(sh, cli, Step(sh, cli, false))
  {
  }

  lemma RequestStaysBusy(sh: Shared, cli: Local, p: PubPhase)
    requires CliSide(sh, cli, p) && cli.pc.InNotifyRequested? && (!cli.pc.requestAt.TryNext? || sh.ns == cli.cur)
    ensures StaysBusy(sh, cli, StepNotifyRequested(sh, cli, cli.pc.requestAt))
  {
  }

  lemma RequestAgainStaysBusy(sh: Shared, cli: Local, p: PubPhase)
    requires CliSide(sh, cli, p) && cli.pc.InNotifyRequested? && cli.pc.requestAt.TryNext? && sh.ns != cli.cur
    ensures StaysBusy(sh, cli, StepNotifyRequested(sh, cli, TryNext))
  {
  }

  lemma SlotStaysBusy(sh: Shared, cli: Local, p: PubPhase)
    requires CliSide(sh, cli, p) && !cli.origin.FromEndBatch?
    requires cli.pc.InOnNextLive? || cli.pc.InOnNextPending? || cli.pc.InConfigurePending? || cli.pc.InPullNext?
             || cli.pc.Finish? || cli.pc.Idle?
    ensures StaysBusy(sh, cli, Step(sh, cli, false))
  {
  }

  /** The messages popped and those still queued are all that was ever pushed, in order; and the
      client is never in an EndBatch. */
  predicate Fifo(s: State) {
    && s.h.popped + s.data.queue == s.h.pushed
    && |s.data.queue| <= s.data.cap
    && 0 <= s.h.covered <= |s.h.pushed|
    && (s.h.fired == multiset{} ==> s.h.covered == 0)
    && (s.cli.pc.Idle? || s.cli.origin.FromInstall?)
  }

  predicate Delivering(s: State) {
    && Invariant(s) && Fifo(s)
    && (!HasThrown(s) ==> Resting(s.sh, s.pub, s.cli, Unnotified(s), s.h.covered == |s.h.pushed|))
  }

  predicate RestsAfter(o: Outcome, pub: Local, cli: Local, late: bool, all: bool) {
    Resting(o.sh, pub, cli, late && !o.e.Fired?, all || o.e.Fired?)
  }

  lemma PubStepRests(sh: Shared, pub: Local, cli: Local, late: bool, all: bool, empty: bool)
    requires Both(sh, pub, cli) && Resting(sh, pub, cli, late, all)
    ensures var o := Step(sh, pub, empty); RestsAfter(o, o.l, cli, late, all)
  {
    match pub.pc {
      case InPushComplete(_) => PushRests(sh, pub, cli, late, all); PushFrame(sh, pub, false);
      case InPublishNext(_) => PublishRests(sh, pub, cli, late, all);
      case _ => PubOtherRests(sh, pub, cli, late, all, empty);
    }
  }

  lemma BusyRests(sh: Shared, pub: Local, cli: Local, late: bool, all: bool, o: Outcome)
    requires Resting(sh, pub, cli, late, all) && StaysBusy(sh, cli, o)
    ensures RestsAfter(o, pub, o.l, late, all)
  {
  }

  lemma CliStaysBusy(sh: Shared, cli: Local, p: PubPhase)
    requires CliSide(sh, cli, p) && CanStep(sh, cli) && !cli.origin.FromEndBatch? && !cli.pc.InNotifyConfigured?
    ensures StaysBusy(sh, cli, Step(sh, cli, false))
  {
    match cli.pc {
      case InNotifyPending(_) | InPullComplete(_) => LoopStaysBusy(sh, cli, p);
      case InNotifyRequested(at) =>
        if at.TryNext? && sh.ns != cli.cur { RequestAgainStaysBusy(sh, cli, p); } else { RequestStaysBusy(sh, cli, p); }
      case _ => SlotStaysBusy(sh, cli, p);
    }
  }

  lemma CliStepRests(sh: Shared, pub: Local, cli: Local, late: bool, all: bool, empty: bool)
    requires Both(sh, pub, cli) && Resting(sh, pub, cli, late, all) && CanStep(sh, cli) && (empty ==> !late)
    requires !cli.origin.FromEndBatch?
    ensures var o := Step(sh, cli, empty); RestsAfter(o, pub, o.l, late, all)
  {
    if cli.pc.InNotifyConfigured? {
      CliConfiguredRests(sh, pub, cli, late, all, empty);
      StepFrame(sh, cli, empty);
    } else {
      CliStaysBusy(sh, cli, PubPhaseOf(pub));
      BusyRests(sh, pub, cli, late, all, Step(sh, cli, false));
      assert Step(sh, cli, empty) == Step(sh, cli, false);
    }
  }

  /** Steps add to the history only what fired, and keep the name of the public operation. */
  lemma TakeKeepsFifo(s: State, t: Thread)
    requires Fifo(s)
    ensures var e := Take(s, t);
      && e.data == s.data && e.h.pushed == s.h.pushed && e.h.popped == s.h.popped
      && 0 <= e.h.covered <= |e.h.pushed|
      && (e.h.fired == multiset{} ==> e.h.covered == 0)
      && (if Step(s.sh, LocalOf(s, t), s.data.queue == []).e.Fired? then e.h.covered == |e.h.pushed|
          else e.h.covered == s.h.covered)
  {
  }

  lemma PubTakeDelivers(s: State)
    requires Delivering(s) && !HasThrown(s) && CanStep(s.sh, s.pub)
    ensures Delivering(Take(s, Publisher))
  {
    PubTakeKeeps(s);
    TakeKeepsFifo(s, Publisher);
    PubStepRests(s.sh, s.pub, s.cli, Unnotified(s), s.h.covered == |s.h.pushed|, s.data.queue == []);
  }

  lemma CliTakeDelivers(s: State)
    requires Delivering(s) && !HasThrown(s) && CanStep(s.sh, s.cli)
    ensures Delivering(Take(s, Client))
  {
    CliTakeKeeps(s);
    TakeKeepsFifo(s, Client);
    StepFrame(s.sh, s.cli, s.data.queue == []);
    CliStepRests(s.sh, s.pub, s.cli, Unnotified(s), s.h.covered == |s.h.pushed|, s.data.queue == []);
  }

  lemma EnterDelivers(s: State, a: Action)
    requires Delivering(s) && !HasThrown(s) && !a.PubStep? && !a.CliStep?
    ensures Delivering(Apply(s, a))
  {
    ApplyKeeps(s, a);
    hide Invariant;
  }

  lemma ThrownDelivers(s: State, a: Action)
    requires Delivering(s) && HasThrown(s)
    ensures Delivering(Apply(s, a))
  {
  }

  lemma ApplyDelivers(s: State, a: Action)
    requires Delivering(s)
    ensures Delivering(Apply(s, a))
  {
    hide Delivering, Take;
    if HasThrown(s) {
      ThrownDelivers(s, a);
    } else {
      match a {
        case PubStep => if CanStep(s.sh, s.pub) { PubTakeDelivers(s); }
        case CliStep => if CanStep(s.sh, s.cli) { CliTakeDelivers(s); }
        case _ => EnterDelivers(s, a);
      }
    }
  }

  lemma {:induction false} RunDelivers(s: State, actions: seq<Action>)
    requires Delivering(s)
    ensures Delivering(Exec(s, actions))
    decreases |actions|
  {
    if actions != [] {
      RunDelivers(s, actions[..|actions| - 1]);
      ApplyDelivers(Exec(s, actions[..|actions| - 1]), actions[|actions| - 1]);
    }
  }

  /** In every run: messages come out in the order they went in and none is lost, and whenever the
      protocol is at rest with a live trigger and the publisher owes no PushComplete, every unread
      message had already been pushed when a trigger last fired - and nothing at all is unread if
      none has fired. */
  lemma {:induction false} NoLostNotification(s: State, actions: seq<Action>)
    requires Init(s)
    ensures var e := Exec(s, actions);
      && e.h.pushed == e.h.popped + e.data.queue
      && (!HasThrown(e) && e.sh.ns.NothingToNotify? && !Owes(e.sh, e.pub) ==>
            && (e.data.queue != [] ==> e.h.covered == |e.h.pushed|)
            && (e.h.fired == multiset{} ==> e.data.queue == []))
  {
    InitInvariant(s);
    RunDelivers(s, actions);
  }
}
