/** When `WaitForMessage` may return false although the publisher is not done, and when it does so although
    a message is waiting. */
module WaitExactly {
  import opened Wrappers
  import opened NotifyModel
  import opened NotifyInvariant
  import opened NotifyDelivery
  import opened NotifyLedger
  import opened WaitForMessage
  import opened WaitWitness

  /** A call as the client knows it: it has begun and done nothing yet. */
  predicate Begins(start: Waiter, before: seq<Happening>) {
    Init(start.s) && start.at.Outside? && Run(start, before).at.FirstPop?
  }

  predicate NoCallBegins(events: seq<Happening>) {
    forall i :: 0 <= i < |events| ==> !events[i].StartWait?
  }

  /** The call that has begun in `w` returns false with the last of `events`. */
  predicate ReturnsFalse(w: Waiter, events: seq<Happening>) {
    && events != [] && NoCallBegins(events)
    && !Run(w, events[..|events| - 1]).at.Outside?
    && Run(w, events).at.Outside? && Run(w, events).returned == Some(false)
  }

  /** The publisher is in a PushComplete that may still fire a trigger installed from now on. */
  predicate MayNotifyLate(pub: Local) {
    pub.pc.InPushComplete? && (pub.pc.loopAt.Try? ==> pub.cur.NothingToNotify? || pub.cur.Configuring?)
  }

  // ---------------------------------------------------------------- false means done

  /** The call's own trigger has been numbered. */
  predicate Numbered(at: At) { at.Arming? || at.SecondPop? || at.AskAgain? || at.Waiting? || at.FinalPop? }

  /** With neither data nor Done since the call began, nothing is on its way to fire the call's trigger. */
  predicate Still(sh: Shared, pub: Local, cli: Local, at: At, set_: bool) {
    && !MayNotifyLate(pub) && !sh.ns.PullRequired?
    && !cli.pc.InPullNext? && !cli.pc.InPullComplete?
    && (cli.pc.InNotifyConfigured? ==>
          && (cli.pc.configAt.Switch? ==> cli.cur.Configuring?) && (cli.pc.configAt.TryTested? ==> cli.sawEmpty))
    && (Numbered(at) ==>
          !set_ && !(PubPhaseOf(pub).PubFiring? && HoldsLive(pub) && Holds(sh.onNotify, cli.fn)))
  }

  lemma PushStill(sh: Shared, pub: Local, cli: Local, at: At, set_: bool, empty: bool)
    requires Both(sh, pub, cli) && Still(sh, pub, cli, at, set_)
    requires pub.pc.InPushComplete?
    ensures var o := Step(sh, pub, empty); Still(o.sh, o.l, cli, at, set_ || Sets(o.e, cli.fn))
  {
  }

  lemma FireStill(sh: Shared, pub: Local, cli: Local, at: At, set_: bool, empty: bool)
    requires Both(sh, pub, cli) && Still(sh, pub, cli, at, set_)
    requires pub.pc.InPublishNext? && (pub.pc.fireAt.Test? || pub.pc.fireAt.Post? || pub.pc.fireAt.Call?)
    ensures var o := Step(sh, pub, empty); Still(o.sh, o.l, cli, at, set_ || Sets(o.e, cli.fn))
  {
  }

  lemma ClearStill(sh: Shared, pub: Local, cli: Local, at: At, set_: bool, empty: bool)
    requires Both(sh, pub, cli) && Still(sh, pub, cli, at, set_)
    requires pub.pc.InPublishNext? && (pub.pc.fireAt.Running? || pub.pc.fireAt.ClearTarget? || pub.pc.fireAt.ClearFn?)
    ensures var o := Step(sh, pub, empty); Still(o.sh, o.l, cli, at, set_ || Sets(o.e, cli.fn))
  {
  }

  lemma PublishCompleteStill(sh: Shared, pub: Local, cli: Local, at: At, set_: bool, empty: bool)
    requires Both(sh, pub, cli) && Still(sh, pub, cli, at, set_)
    requires pub.pc.InPublishComplete?
    ensures var o := Step(sh, pub, empty); Still(o.sh, o.l, cli, at, set_ || Sets(o.e, cli.fn))
  {
  }

  lemma PubSwitchStill(sh: Shared, pub: Local, cli: Local, at: At, set_: bool, empty: bool)
    requires Both(sh, pub, cli) && Still(sh, pub, cli, at, set_) && pub.pc == InNotifyConfigured(Switch)
    ensures var o := Step(sh, pub, empty); Still(o.sh, o.l, cli, at, set_ || Sets(o.e, cli.fn))
  {
  }

  lemma PubConfiguredStill(sh: Shared, pub: Local, cli: Local, at: At, set_: bool, empty: bool)
    requires Both(sh, pub, cli) && Still(sh, pub, cli, at, set_)
    requires pub.pc.InNotifyConfigured? && !pub.pc.configAt.Switch?
    ensures var o := Step(sh, pub, empty); Still(o.sh, o.l, cli, at, set_ || Sets(o.e, cli.fn))
  {
  }

  lemma PubOtherStill(sh: Shared, pub: Local, cli: Local, at: At, set_: bool, empty: bool)
    requires Both(sh, pub, cli) && Still(sh, pub, cli, at, set_)
    requires !pub.pc.InPushComplete? && !pub.pc.InPublishNext? && !pub.pc.InPublishComplete?
             && !pub.pc.InNotifyConfigured?
    ensures var o := Step(sh, pub, empty); Still(o.sh, o.l, cli, at, set_ || Sets(o.e, cli.fn))
  {
  }

  lemma PubStepStill(sh: Shared, pub: Local, cli: Local, at: At, set_: bool, empty: bool)
    requires Both(sh, pub, cli) && Still(sh, pub, cli, at, set_)
    ensures var o := Step(sh, pub, empty); Still(o.sh, o.l, cli, at, set_ || Sets(o.e, cli.fn))
  {
    hide Step, Both, Still;
    match pub.pc {
      case InPushComplete(_) => PushStill(sh, pub, cli, at, set_, empty);
      case InPublishNext(pos) =>
        if pos.Test? || pos.Post? || pos.Call? { FireStill(sh, pub, cli, at, set_, empty); }
        else { ClearStill(sh, pub, cli, at, set_, empty); }
      case InPublishComplete(_) => PublishCompleteStill(sh, pub, cli, at, set_, empty);
      case InNotifyConfigured(pos) =>
        if pos.Switch? { PubSwitchStill(sh, pub, cli, at, set_, empty); }
        else { PubConfiguredStill(sh, pub, cli, at, set_, empty); }
      case _ => PubOtherStill(sh, pub, cli, at, set_, empty);
    }
  }

  lemma RequestStill(sh: Shared, pub: Local, cli: Local, set_: bool)
    requires Both(sh, pub, cli) && Still(sh, pub, cli, Arming, set_) && CanStep(sh, cli) && Program(sh, cli, Arming)
    requires cli.pc.InNotifyRequested?
    ensures var o := Step(sh, cli, true); Still(o.sh, pub, o.l, Arming, set_ || Sets(o.e, cli.fn))
  {
  }

  lemma ConfiguredStill(sh: Shared, pub: Local, cli: Local, set_: bool)
    requires Both(sh, pub, cli) && Still(sh, pub, cli, Arming, set_) && CanStep(sh, cli) && Program(sh, cli, Arming)
    requires cli.pc.InNotifyConfigured?
    ensures var o := Step(sh, cli, true); Still(o.sh, pub, o.l, Arming, set_ || Sets(o.e, cli.fn))
  {
  }

  lemma NotifyPendingStill(sh: Shared, pub: Local, cli: Local, set_: bool)
    requires Both(sh, pub, cli) && Still(sh, pub, cli, Arming, set_) && CanStep(sh, cli) && Program(sh, cli, Arming)
    requires cli.pc.InNotifyPending?
    ensures var o := Step(sh, cli, true); Still(o.sh, pub, o.l, Arming, set_ || Sets(o.e, cli.fn))
  {
  }

  lemma WriteStill(sh: Shared, pub: Local, cli: Local, set_: bool)
    requires Both(sh, pub, cli) && Still(sh, pub, cli, Arming, set_) && CanStep(sh, cli) && Program(sh, cli, Arming)
    requires cli.pc.InOnNextLive? || cli.pc.InOnNextPending? || cli.pc.InConfigurePending? || cli.pc.Finish?
    ensures var o := Step(sh, cli, true); Still(o.sh, pub, o.l, Arming, set_ || Sets(o.e, cli.fn))
  {
  }

  lemma CliStepStill(sh: Shared, pub: Local, cli: Local, set_: bool)
    requires Both(sh, pub, cli) && Still(sh, pub, cli, Arming, set_) && CanStep(sh, cli) && Program(sh, cli, Arming)
    ensures var o := Step(sh, cli, true); Still(o.sh, pub, o.l, Arming, set_ || Sets(o.e, cli.fn))
  {
    hide Step;
    match cli.pc {
      case InNotifyRequested(_) => RequestStill(sh, pub, cli, set_);
      case InNotifyConfigured(_) => ConfiguredStill(sh, pub, cli, set_);
      case InNotifyPending(_) => NotifyPendingStill(sh, pub, cli, set_);
      case _ => WriteStill(sh, pub, cli, set_);
    }
  }

  /** There has been neither data nor Done for the client to find. */
  predicate Silent(s: State) { s.data.queue == [] && !s.data.consumer.Finished? }

  predicate CallOk(w: Waiter) {
    && (Silent(w.s) ==> Still(w.s.sh, w.s.pub, w.s.cli, w.at, PromiseSet(w.s)))
    && (w.at.LastPop? ==> w.s.data.consumer.Finished?)
    && (w.at.FinalPop? ==> PromiseSet(w.s))
  }

  /** The call goes on in good order, or has returned; and with false only after Done. */
  predicate CallEndsOk(w: Waiter) {
    if w.at.Outside? then w.returned == Some(false) ==> w.s.data.consumer.Finished? else CallOk(w)
  }

  lemma PubMoveCall(w: Waiter)
    requires WaitInvariant(w) && CallOk(w) && !w.at.Outside? && CanStep(w.s.sh, w.s.pub)
    ensures CallOk(w.(s := Take(w.s, Publisher)))
  {
    var s := w.s;
    TakeSets(s, Publisher, s.cli.fn);
    TakeKeepsFifo(s, Publisher);
    if Silent(s) { PubStepStill(s.sh, s.pub, s.cli, w.at, PromiseSet(s), s.data.queue == []); }
    hide Step, WaitForMessage.Quiet, TriggerOk;
  }

  lemma ArmingCall(w: Waiter)
    requires WaitInvariant(w) && CallOk(w) && w.at.Arming? && CanStep(w.s.sh, w.s.cli)
    ensures CallOk(w.(s := Take(w.s, Client)))
  {
    var s := w.s;
    TakeSets(s, Client, s.cli.fn);
    TakeKeepsFifo(s, Client);
    StepFrame(s.sh, s.cli, s.data.queue == []);
    if Silent(s) { CliStepStill(s.sh, s.pub, s.cli, PromiseSet(s)); }
    hide Step, TriggerOk;
  }

  lemma ArmCall(w: Waiter)
    requires WaitInvariant(w) && CallOk(w) && w.at.Arm? && Accounted(w.s, w.s.h.issued)
    ensures CallOk(w.(s := Apply(w.s, CliInstall(false)), at := Arming))
  {
  }

  lemma DecisionCall(w: Waiter)
    requires WaitInvariant(w) && CallOk(w) && !w.at.Arm? && !w.at.Arming? && !w.at.Outside?
    ensures CallEndsOk(ClientMove(w))
  {
    hide WaitForMessage.Quiet, TriggerOk;
  }

  lemma ClientMoveCall(w: Waiter)
    requires WaitInvariant(w) && CallOk(w) && !w.at.Outside? && Accounted(w.s, w.s.h.issued)
    ensures CallEndsOk(ClientMove(w))
  {
    match w.at {
      case Arm => ArmCall(w);
      case Arming => if !w.s.cli.pc.Idle? && CanStep(w.s.sh, w.s.cli) { ArmingCall(w); }
      case _ => DecisionCall(w);
    }
  }

  lemma HappenCall(w: Waiter, e: Happening)
    requires WaitInvariant(w) && CallEndsOk(w) && Accounted(w.s, w.s.h.issued) && !e.StartWait?
    ensures CallEndsOk(Happen(w, e))
  {
    if w.at.Outside? {
      OutsideStays(w, e);
    } else {
      match e {
        case PubMove => if CanStep(w.s.sh, w.s.pub) { PubMoveCall(w); }
        case CliMove => ClientMoveCall(w);
        case _ => hide WaitForMessage.Quiet, TriggerOk;
      }
    }
  }

  /** Between calls nothing is returned, and Done is final. */
  lemma OutsideStays(w: Waiter, e: Happening)
    requires w.at.Outside? && !e.StartWait?
    ensures var n := Happen(w, e);
      n.at.Outside? && n.returned == w.returned && (w.s.data.consumer.Finished? ==> n.s.data.consumer.Finished?)
  {
  }

  lemma CallBegins(w: Waiter)
    requires WaitInvariant(w) && w.at.FirstPop?
    requires !Silent(w.s) || !MayNotifyLate(w.s.pub)
    ensures CallOk(w)
  {
  }

  lemma {:induction false} CallGoesOn(start: Waiter, before: seq<Happening>, events: seq<Happening>)
    requires Begins(start, before) && NoCallBegins(events)
    requires var w := Run(start, before); !Silent(w.s) || !MayNotifyLate(w.s.pub)
    ensures CallEndsOk(Run(Run(start, before), events))
    decreases |events|
  {
    var w := Run(start, before);
    RunKeeps(start, before);
    if events == [] {
      CallBegins(w);
    } else {
      var most, e := events[..|events| - 1], events[|events| - 1];
      CallGoesOn(start, before, most);
      RunCat(start, before, most);
      RunKeeps(start, before + most);
      assert !e.StartWait?;
      HappenCall(Run(w, most), e);
      hide Happen, WaitInvariant, CallEndsOk;
    }
  }

  /** A call that begins with something to read, or after Done, or while the publisher is not in the
      PushComplete of a message already read, keeps its word: false means that the publisher is done. */
  lemma {:induction false} FalseMeansDone(start: Waiter, before: seq<Happening>, events: seq<Happening>)
    requires Begins(start, before) && ReturnsFalse(Run(start, before), events)
    requires var w := Run(start, before); !Silent(w.s) || !MayNotifyLate(w.s.pub)
    ensures Run(Run(start, before), events).s.data.consumer.Finished?
  {
    CallGoesOn(start, before, events);
    hide Run;
  }

  // ---------------------------------------------------------------- and otherwise it need not

  /** Only the client has moved. */
  predicate ClientOnly(w: Waiter, e: Waiter) { e.s.pub == w.s.pub && e.s.data == w.s.data && !HasThrown(e.s) }

  lemma AsksAlone(w: Waiter)
    requires w.at.FirstPop? && Silent(w.s) && !w.s.data.aborted && w.s.cli.pc.Idle? && !HasThrown(w.s)
    ensures var e := Tell(w, Cli(3, End));
      && ClientOnly(w, e) && e.at.Arming? && e.s.sh == w.s.sh
      && e.s.cli == w.s.cli.(pc := InNotifyRequested(ReadFirst), origin := FromInstall, fn := w.s.h.issued,
                             posted := false)
  {
  }

  lemma RequestsAlone(w: Waiter)
    requires w.at.Arming? && w.s.cli.pc == InNotifyRequested(ReadFirst) && !HasThrown(w.s)
    requires w.s.sh.ns.Disabled? || w.s.sh.ns.NothingToNotify?
    ensures var e := Tell(w, Cli(2, End));
      && ClientOnly(w, e) && e.at.Arming? && e.s.sh.ns.Configuring?
      && e.s.cli == w.s.cli.(pc := InOnNextLive(WriteFn), cur := w.s.sh.ns)
  {
  }

  lemma StoresAlone(w: Waiter)
    requires w.at.Arming? && w.s.cli.pc == InOnNextLive(WriteFn) && !HasThrown(w.s)
    ensures var e := Tell(w, Cli(2, End));
      && ClientOnly(w, e) && e.at.Arming? && e.s.cli == w.s.cli.(pc := InNotifyConfigured(ReadNow))
      && e.s.sh == w.s.sh.(onNotify := Some(w.s.cli.fn), target := w.s.cli.posted)
  {
  }

  lemma TestsAlone(w: Waiter)
    requires w.at.Arming? && w.s.cli.pc == InNotifyConfigured(ReadNow) && !HasThrown(w.s)
    requires w.s.sh.ns.Configuring? && w.s.data.queue == []
    ensures var e := Tell(w, Cli(2, End));
      && ClientOnly(w, e) && e.at.Arming? && e.s.sh == w.s.sh
      && e.s.cli == w.s.cli.(pc := InNotifyConfigured(TryTested), cur := Configuring, sawEmpty := true)
  {
  }

  lemma RestsAlone(w: Waiter)
    requires w.at.Arming? && w.s.cli.pc == InNotifyConfigured(TryTested) && !HasThrown(w.s)
    requires w.s.sh.ns.Configuring? && w.s.cli.cur.Configuring? && w.s.cli.sawEmpty
    ensures var e := Tell(w, Cli(1, End));
      && ClientOnly(w, e) && e.at.Arming? && e.s.sh == w.s.sh.(ns := NothingToNotify)
      && e.s.cli == w.s.cli.(pc := Finish)
  {
  }

  lemma LooksAlone(w: Waiter)
    requires w.at.Arming? && w.s.cli.pc.Finish? && w.s.cli.depth == 0 && w.s.cli.origin.FromInstall? && !HasThrown(w.s)
    requires w.s.data.queue == []
    ensures var e := Tell(w, Cli(3, End));
      && ClientOnly(w, e) && e.at.AskAgain? && e.s.sh == w.s.sh && e.s.cli == w.s.cli.(pc := Idle)
  {
    var m := Tell(w, Cli(2, End));
    assert m == w.(s := m.s, at := SecondPop) && ClientOnly(w, m) && m.s.sh == w.s.sh
           && m.s.cli == w.s.cli.(pc := Idle);
    assert Tell(w, Cli(3, End)) == Happen(m, CliMove);
  }

  lemma WaitsAlone(w: Waiter)
    requires w.at.Arming? && w.s.cli.pc.Finish? && w.s.cli.depth == 0 && w.s.cli.origin.FromInstall? && !HasThrown(w.s)
    requires Silent(w.s)
    ensures var e := Tell(w, Cli(4, End));
      && ClientOnly(w, e) && e.at.Waiting? && e.s.sh == w.s.sh && e.s.cli == w.s.cli.(pc := Idle)
  {
    LooksAlone(w);
    assert Tell(w, Cli(4, End)) == Happen(Tell(w, Cli(3, End)), CliMove);
  }

  /** The late PushComplete finds the new trigger live ... */
  lemma FindsIt(w: Waiter) returns (n: nat)
    requires MayNotifyLate(w.s.pub) && w.s.sh.ns.NothingToNotify? && !HasThrown(w.s)
    ensures var e := Tell(w, Pub(n, End));
      && e.at == w.at && e.s.cli == w.s.cli && e.s.data == w.s.data && !HasThrown(e.s)
      && e.s.pub.pc == InPublishNext(Test) && e.s.sh == w.s.sh.(ns := Publishing)
  {
    n := if w.s.pub.pc.loopAt.Try? && w.s.pub.cur.NothingToNotify? then 1 else 2;
    if n == 1 { FindsAtOnce(w); } else { FindsAfterReading(w); }
  }

  lemma FindsAtOnce(w: Waiter)
    requires w.s.pub.pc == InPushComplete(Try) && w.s.pub.cur.NothingToNotify?
    requires w.s.sh.ns.NothingToNotify? && !HasThrown(w.s)
    ensures var e := Tell(w, Pub(1, End));
      && e.at == w.at && e.s.cli == w.s.cli && e.s.data == w.s.data && !HasThrown(e.s)
      && e.s.pub.pc == InPublishNext(Test) && e.s.sh == w.s.sh.(ns := Publishing)
  {
  }

  lemma FindsAfterReading(w: Waiter)
    requires w.s.pub.pc == InPushComplete(Read) || (w.s.pub.pc == InPushComplete(Try) && w.s.pub.cur.Configuring?)
    requires w.s.sh.ns.NothingToNotify? && !HasThrown(w.s)
    ensures var e := Tell(w, Pub(2, End));
      && e.at == w.at && e.s.cli == w.s.cli && e.s.data == w.s.data && !HasThrown(e.s)
      && e.s.pub.pc == InPublishNext(Test) && e.s.sh == w.s.sh.(ns := Publishing)
  {
    var m := Happen(w, PubMove);
    assert m == w.(s := m.s) && m.s.pub == w.s.pub.(pc := InPushComplete(Try), cur := NothingToNotify)
           && m.s.sh == w.s.sh;
    FindsAtOnce(m);
  }

  /** ... and calls it. */
  lemma CallsIt(w: Waiter)
    requires w.s.pub.pc == InPublishNext(Test) && Holds(w.s.sh.onNotify, w.s.cli.fn) && !w.s.sh.target
             && !HasThrown(w.s)
    ensures var e := Tell(w, Pub(2, End));
      e.at == w.at && e.s.cli == w.s.cli && e.s.data == w.s.data && !HasThrown(e.s) && PromiseSet(e.s)
  {
  }

  lemma LooksInVain(w: Waiter)
    requires w.at.Waiting? && PromiseSet(w.s) && Silent(w.s) && !HasThrown(w.s)
    ensures var m := Tell(w, Cli(1, End)); var e := Happen(m, CliMove);
      m.at.FinalPop? && e.at.Outside? && e.returned == Some(false) && e.s.data == w.s.data
  {
  }

  lemma PlainStories(n: nat)
    ensures NoCallBegins(Events(Cli(n, End))) && NoCallBegins(Events(Pub(n, End)))
  {
    if n > 0 { PlainStories(n - 1); }
  }

  /** The run goes on with moves of the client, or of the publisher. */
  lemma Extend(w: Waiter, events: seq<Happening>, client: bool, n: nat) returns (all: seq<Happening>)
    requires NoCallBegins(events)
    ensures NoCallBegins(all) && Run(w, all) == Tell(Run(w, events), if client then Cli(n, End) else Pub(n, End))
  {
    var story := if client then Cli(n, End) else Pub(n, End);
    PlainStories(n);
    all := events + Events(story);
    RunCat(w, events, Events(story));
    TellIsRun(Run(w, events), story);
  }

  /** The client arms its trigger, while the publisher does nothing. */
  lemma ArmsAlone(w: Waiter) returns (events: seq<Happening>)
    requires w.at.FirstPop? && Silent(w.s) && !w.s.data.aborted && !HasThrown(w.s)
    requires w.s.cli.pc.Idle? && w.s.cli.depth == 0 && (w.s.sh.ns.Disabled? || w.s.sh.ns.NothingToNotify?)
    ensures NoCallBegins(events)
    ensures var e := Run(w, events);
      && ClientOnly(w, e) && e.at.Arming? && e.s.sh.ns.NothingToNotify?
      && Holds(e.s.sh.onNotify, e.s.cli.fn) && !e.s.sh.target
      && e.s.cli.pc.Finish? && e.s.cli.depth == 0 && e.s.cli.origin.FromInstall?
  {
    events := Extend(w, [], true, 3);
    AsksAlone(w);
    events := Extend(w, events, true, 2);
    RequestsAlone(Tell(w, Cli(3, End)));
    hide Run, Tell;
    ghost var asked := Run(w, events);
    events := Extend(w, events, true, 2);
    StoresAlone(asked);
    ghost var stored := Run(w, events);
    events := Extend(w, events, true, 2);
    TestsAlone(stored);
    ghost var tested := Run(w, events);
    events := Extend(w, events, true, 1);
    RestsAlone(tested);
  }

  /** ... and goes on to wait. */
  lemma WaitsForLateNotify(w: Waiter) returns (events: seq<Happening>)
    requires w.at.FirstPop? && Silent(w.s) && !w.s.data.aborted && !HasThrown(w.s)
    requires w.s.cli.pc.Idle? && w.s.cli.depth == 0 && (w.s.sh.ns.Disabled? || w.s.sh.ns.NothingToNotify?)
    ensures NoCallBegins(events)
    ensures var e := Run(w, events);
      && ClientOnly(w, e) && e.at.Waiting? && e.s.sh.ns.NothingToNotify?
      && Holds(e.s.sh.onNotify, e.s.cli.fn) && !e.s.sh.target
  {
    events := ArmsAlone(w);
    hide Run, Tell;
    ghost var rested := Run(w, events);
    events := Extend(w, events, true, 4);
    WaitsAlone(rested);
  }

  /** Whenever the guard fails - nothing to read, not done, and the publisher in a PushComplete that can
      still fire - some continuation returns false although the publisher is not done. */
  lemma {:induction false} LateNotifyMisleads(start: Waiter, before: seq<Happening>) returns (events: seq<Happening>)
    requires Begins(start, before)
    requires var w := Run(start, before); Silent(w.s) && MayNotifyLate(w.s.pub)
    ensures ReturnsFalse(Run(start, before), events)
    ensures Run(Run(start, before), events).s.data.consumer.Consuming?
  {
    var w := Run(start, before);
    RunKeeps(start, before);
    CallsFromRest(w);
    events := WaitsForLateNotify(w);
    hide Run, Tell;
    ghost var waiting := Run(w, events);
    var n := FindsIt(waiting);
    events := Extend(w, events, false, n);
    ghost var found := Run(w, events);
    events := Extend(w, events, false, 2);
    CallsIt(found);
    ghost var called := Run(w, events);
    events := Extend(w, events, true, 1);
    LooksInVain(called);
    RunMore(w, events, CliMove);
    events := events + [CliMove];
  }

  lemma RunMore(w: Waiter, events: seq<Happening>, e: Happening)
    ensures (events + [e])[..|events + [e]| - 1] == events
    ensures Run(w, events + [e]) == Happen(Run(w, events), e)
  {
  }

  /** A call begins with the client outside the protocol and the publisher not reconfiguring. */
  lemma CallsFromRest(w: Waiter)
    requires WaitInvariant(w) && w.at.FirstPop? && MayNotifyLate(w.s.pub)
    ensures w.s.cli.pc.Idle? && w.s.cli.depth == 0 && !HasThrown(w.s) && !w.s.data.aborted
    ensures w.s.sh.ns.Disabled? || w.s.sh.ns.NothingToNotify?
  {
  }

  /** So exactly those calls can return false before Done. */
  lemma {:induction false} FalseMeansDoneExactly(start: Waiter, before: seq<Happening>)
    requires Begins(start, before)
    ensures var w := Run(start, before);
      (exists events :: ReturnsFalse(w, events) && !Run(w, events).s.data.consumer.Finished?)
      <==> Silent(w.s) && MayNotifyLate(w.s.pub)
  {
    var w := Run(start, before);
    if Silent(w.s) && MayNotifyLate(w.s.pub) {
      var events := LateNotifyMisleads(start, before);
    } else {
      forall events | ReturnsFalse(w, events) ensures Run(w, events).s.data.consumer.Finished? {
        FalseMeansDone(start, before, events);
      }
    }
  }

  // ---------------------------------------------------------------- false over a message

  /** With event `k` the client looks at the queue a second time and finds it empty. */
  predicate SecondLook(w: Waiter, events: seq<Happening>, k: nat)
    requires k < |events|
  {
    events[k].CliMove? && Run(w, events[..k]).at.SecondPop? && Run(w, events[..k]).s.data.queue == []
  }

  predicate NoMoves(events: seq<Happening>, from: nat, upto: nat)
    requires upto <= |events|
  {
    forall i :: from <= i < upto ==> !events[i].CliMove?
  }

  /** Event `k` is the second look, and after that the client does nothing before the last of `events`. */
  predicate LooksAgain(w: Waiter, events: seq<Happening>, k: nat)
    requires k < |events|
  {
    SecondLook(w, events, k) && NoMoves(events, k + 1, |events| - 1)
  }

  /** Between that look and the end a message was pushed and Done was called. */
  predicate MissesBoth(w: Waiter, events: seq<Happening>, k: nat)
    requires k < |events|
  {
    var then_, now := Run(w, events[..k + 1]), Run(w, events);
    && then_.s.data.consumer.Consuming? && now.s.data.consumer.Finished?
    && |then_.s.h.pushed| < |now.s.h.pushed|
  }

  /** The invariant holds at every point of a run from `w`. */
  predicate Lawful(w: Waiter, events: seq<Happening>) {
    forall i :: 0 <= i <= |events| ==> WaitInvariant(Run(w, events[..i]))
  }

  lemma RunsAreLawful(start: Waiter, before: seq<Happening>, events: seq<Happening>)
    requires Init(start.s) && start.at.Outside?
    ensures Lawful(Run(start, before), events)
  {
    forall i | 0 <= i <= |events| ensures WaitInvariant(Run(Run(start, before), events[..i])) {
      RunCat(start, before, events[..i]);
      RunKeeps(start, before + events[..i]);
    }
    hide WaitInvariant, Run;
  }

  lemma OneMore(w: Waiter, events: seq<Happening>, n: nat)
    requires n < |events|
    ensures Run(w, events[..n + 1]) == Happen(Run(w, events[..n]), events[n])
    ensures events[..|events|] == events
  {
    assert events[..n + 1][..n] == events[..n];
    hide Happen;
  }

  /** While the client does not move, the queue grows by what is pushed; and nothing is pushed after Done. */
  predicate Grows(w: Waiter, n: Waiter) {
    && n.at == w.at && n.s.h.popped == w.s.h.popped && |n.s.h.pushed| >= |w.s.h.pushed|
    && |n.s.data.queue| - |w.s.data.queue| == |n.s.h.pushed| - |w.s.h.pushed|
    && (w.s.data.consumer.Finished? ==> |n.s.h.pushed| == |w.s.h.pushed| && n.s.data.consumer.Finished?)
  }

  lemma HappenGrows(w: Waiter, e: Happening)
    requires !w.at.Outside? && !e.StartWait? && !e.CliMove? && WaitInvariant(w)
    ensures Grows(w, Happen(w, e))
  {
    if e.PubMove? && CanStep(w.s.sh, w.s.pub) {
      TakeKeepsFifo(w.s, Publisher);
      hide Take;
    }
    hide WaitForMessage.Quiet, TriggerOk, Invariant;
  }

  lemma GrowsOn(a: Waiter, b: Waiter, c: Waiter)
    requires Grows(a, b) && Grows(b, c)
    ensures Grows(a, c)
  {
  }

  lemma {:induction false} UnmovingGrows(w: Waiter, events: seq<Happening>, k: nat, n: nat)
    requires Lawful(w, events) && NoCallBegins(events) && k <= n <= |events| && NoMoves(events, k, n)
    requires !Run(w, events[..k]).at.Outside?
    ensures Grows(Run(w, events[..k]), Run(w, events[..n]))
    decreases n
  {
    hide Run, Happen, WaitInvariant;
    if k < n {
      UnmovingGrows(w, events, k, n - 1);
      assert !events[n - 1].CliMove? && !events[n - 1].StartWait?;
      HappenGrows(Run(w, events[..n - 1]), events[n - 1]);
      OneMore(w, events, n - 1);
      GrowsOn(Run(w, events[..k]), Run(w, events[..n - 1]), Run(w, events[..n]));
    }
  }

  lemma ArrivesAtAskAgain(m: Waiter, e: Happening)
    requires Happen(m, e).at.AskAgain? && !e.StartWait? && WaitInvariant(m)
    ensures if m.at.AskAgain? then !e.CliMove? else e.CliMove? && m.at.SecondPop? && m.s.data.queue == []
  {
    hide WaitForMessage.Quiet, TriggerOk, Invariant, Take;
  }

  lemma SecondLookFails(m: Waiter)
    requires m.at.SecondPop? && m.s.data.queue == [] && WaitInvariant(m)
    ensures Happen(m, CliMove) == m.(at := AskAgain)
  {
    hide WaitForMessage.Quiet, TriggerOk, Invariant;
  }

  /** A call that has got as far as asking whether all is done has looked a second time. */
  lemma {:induction false} LookedAgain(w: Waiter, events: seq<Happening>, n: nat) returns (k: nat)
    requires Lawful(w, events) && NoCallBegins(events) && n <= |events|
    requires w.at.FirstPop? && Run(w, events[..n]).at.AskAgain?
    ensures k < n && SecondLook(w, events, k) && NoMoves(events, k + 1, n)
    decreases n
  {
    hide Happen, WaitInvariant;
    assert n > 0;
    hide Run;
    var m, e := Run(w, events[..n - 1]), events[n - 1];
    OneMore(w, events, n - 1);
    ArrivesAtAskAgain(m, e);
    if m.at.AskAgain? {
      k := LookedAgain(w, events, n - 1);
    } else {
      k := n - 1;
    }
  }

  /** How a call returns false: from its last look, over an empty queue, or because all is done. */
  lemma ReturnsFrom(m: Waiter, e: Happening)
    requires !m.at.Outside? && Happen(m, e).at.Outside? && Happen(m, e).returned == Some(false)
    ensures e.CliMove? && Happen(m, e).s == m.s && !m.at.SecondPop?
    ensures m.s.data.queue == [] || (m.at.AskAgain? && m.s.data.consumer.Finished?)
  {
    hide Take;
  }

  /** The move with which a call returns false. */
  lemma LastMove(w: Waiter, events: seq<Happening>)
    requires ReturnsFalse(w, events)
    ensures var m := Run(w, events[..|events| - 1]);
      && NoCallBegins(events) && Run(w, events).s == m.s && !m.at.SecondPop? && !m.at.Outside?
      && (m.s.data.queue == [] || (m.at.AskAgain? && m.s.data.consumer.Finished?))
  {
    hide Run, Happen;
    OneMore(w, events, |events| - 1);
    ReturnsFrom(Run(w, events[..|events| - 1]), events[|events| - 1]);
  }

  /** From the second look to a later state that the client has not moved in. */
  lemma SinceTheLook(w: Waiter, events: seq<Happening>, k: nat, n: nat)
    requires Lawful(w, events) && NoCallBegins(events) && k < n <= |events|
    requires SecondLook(w, events, k) && NoMoves(events, k + 1, n)
    ensures var then_ := Run(w, events[..k + 1]);
      then_.at.AskAgain? && then_.s.data.queue == [] && WaitInvariant(then_) && Grows(then_, Run(w, events[..n]))
  {
    hide Run, Happen, WaitInvariant, Grows;
    OneMore(w, events, k);
    SecondLookFails(Run(w, events[..k]));
    UnmovingGrows(w, events, k + 1, n);
  }

  /** What is then unread was pushed since, and before Done. */
  lemma MissedSince(then_: Waiter, m: Waiter)
    requires then_.at.AskAgain? && then_.s.data.queue == [] && WaitInvariant(then_) && Grows(then_, m)
    ensures m.s.data.queue != [] <==>
              then_.s.data.consumer.Consuming? && |then_.s.h.pushed| < |m.s.h.pushed|
  {
    hide WaitForMessage.Quiet, TriggerOk, Invariant;
  }

  lemma UnreadOnlyIf(w: Waiter, events: seq<Happening>) returns (k: nat)
    requires w.at.FirstPop? && Lawful(w, events) && ReturnsFalse(w, events)
    requires Run(w, events).s.data.queue != []
    ensures k < |events| && LooksAgain(w, events, k) && MissesBoth(w, events, k)
  {
    LastMove(w, events);
    hide Run, ReturnsFalse, WaitInvariant, Grows, Lawful;
    var n := |events| - 1;
    k := LookedAgain(w, events, n);
    SinceTheLook(w, events, k, n);
    MissedSince(Run(w, events[..k + 1]), Run(w, events[..n]));
  }

  /** A second look over an empty queue is not the move the call returns with. */
  lemma LookIsNotLast(w: Waiter, events: seq<Happening>, k: nat)
    requires ReturnsFalse(w, events) && k < |events| && SecondLook(w, events, k)
    ensures k < |events| - 1
  {
    LastMove(w, events);
    hide Run, ReturnsFalse;
  }

  lemma UnreadIf(w: Waiter, events: seq<Happening>, k: nat)
    requires Lawful(w, events) && ReturnsFalse(w, events)
    requires k < |events| && LooksAgain(w, events, k) && MissesBoth(w, events, k)
    ensures Run(w, events).s.data.queue != []
  {
    hide Run, ReturnsFalse, WaitInvariant, Grows, Lawful, SecondLook, NoMoves;
    var then_, m := Run(w, events[..k + 1]), Run(w, events[..|events| - 1]);
    LastMove(w, events);
    LookIsNotLast(w, events, k);
    SinceTheLook(w, events, k, |events| - 1);
    MissedSince(then_, m);
  }

  /** A call returns false over a message if and only if it looked a second time before Done, and between
      that look and the end both a message was pushed and Done was called. */
  lemma {:induction false} UnreadExactly(start: Waiter, before: seq<Happening>, events: seq<Happening>)
    requires Begins(start, before) && ReturnsFalse(Run(start, before), events)
    ensures var w := Run(start, before);
      Run(w, events).s.data.queue != []
      <==> exists k: nat :: k < |events| && LooksAgain(w, events, k) && MissesBoth(w, events, k)
  {
    hide Run, ReturnsFalse, LooksAgain, MissesBoth, Lawful, Init;
    var w := Run(start, before);
    RunsAreLawful(start, before, events);
    if Run(w, events).s.data.queue != [] {
      var k := UnreadOnlyIf(w, events);
    }
    if k: nat :| k < |events| && LooksAgain(w, events, k) && MissesBoth(w, events, k) {
      UnreadIf(w, events, k);
    }
  }

  lemma {:induction false} FinishedStays(w: Waiter, events: seq<Happening>)
    requires w.s.data.consumer.Finished?
    ensures Run(w, events).s.data.consumer.Finished?
    decreases |events|
  {
    if events != [] {
      FinishedStays(w, events[..|events| - 1]);
      HappenFinished(Run(w, events[..|events| - 1]), events[|events| - 1]);
      hide Happen;
    }
  }

  lemma HappenFinished(w: Waiter, e: Happening)
    requires w.s.data.consumer.Finished?
    ensures Happen(w, e).s.data.consumer.Finished?
  {
  }

  /** A call begun after Done returns false only over an empty queue. */
  lemma {:induction false} DoneCallsReadAll(start: Waiter, before: seq<Happening>, events: seq<Happening>)
    requires Begins(start, before) && ReturnsFalse(Run(start, before), events)
    requires Run(start, before).s.data.consumer.Finished?
    ensures Run(Run(start, before), events).s.data.queue == []
  {
    hide Run, ReturnsFalse, LooksAgain, Begins;
    var w := Run(start, before);
    UnreadExactly(start, before, events);
    if k: nat :| k < |events| && LooksAgain(w, events, k) && MissesBoth(w, events, k) {
      FinishedStays(w, events[..k + 1]);
    }
  }

  // ---------------------------------------------------------------- which calls can leave a message

  /** How far the publisher is from the end of what it is doing, while the client does nothing. */
  function Distance(sh: Shared, pub: Local): nat {
    var late := if sh.ns == pub.cur then 0 else 1;
    match pub.pc
    case Idle | Threw(_) => 0
    case Finish => 1
    case InNotifyConfigured(at) => if at.Wake? then 2 else if at.Switch? then 3 + late else 5
    case InConfigurePending(at) => if at.DropTarget? then 6 else if at.MoveTarget? then 7 else 8
    case InPublishComplete(at) => if at.Try? then 9 + late else 11
    case InPublishNext(at) =>
      if at.ClearFn? then 12 else if at.Test? then 15 else if at.Post? || at.Call? then 14 else 13
    case InPushComplete(at) => if at.Try? then 16 + late else 18
    case _ => 0
  }

  /** Only the client goes by whether the queue is empty. */
  predicate TestsQueue(l: Local) {
    l.pc == InNotifyConfigured(TryTested) || (l.pc == InNotifyConfigured(Switch) && l.cur.Configuring?)
  }

  lemma PublisherTestsNothing(sh: Shared, pub: Local, c: CliPhase)
    requires PubSide(sh, pub, c)
    ensures !TestsQueue(pub) && !pub.pc.InNotifyRequested? && !pub.pc.InOnNextLive? && !pub.pc.InOnNextPending?
    ensures !pub.pc.InNotifyPending? && !pub.pc.InPullNext? && !pub.pc.InPullComplete? && !pub.pc.Threw?
  {
  }

  lemma PushWinsNearer(sh: Shared, pub: Local)
    requires pub.pc == InPushComplete(Try) && sh.ns == pub.cur
    ensures var o := StepPushComplete(sh, pub, Try); Distance(o.sh, o.l) < Distance(sh, pub)
  {
  }

  lemma PushLosesNearer(sh: Shared, pub: Local)
    requires pub.pc.InPushComplete? && (pub.pc.loopAt.Try? ==> sh.ns != pub.cur)
    ensures var o := StepPushComplete(sh, pub, pub.pc.loopAt); Distance(o.sh, o.l) < Distance(sh, pub)
  {
  }

  lemma CompleteWinsNearer(sh: Shared, pub: Local)
    requires pub.pc == InPublishComplete(Try) && sh.ns == pub.cur
    ensures var o := StepPublishComplete(sh, pub, Try); Distance(o.sh, o.l) < Distance(sh, pub)
  {
  }

  lemma CompleteLosesNearer(sh: Shared, pub: Local)
    requires pub.pc.InPublishComplete? && (pub.pc.loopAt.Try? ==> sh.ns != pub.cur)
    ensures var o := StepPublishComplete(sh, pub, pub.pc.loopAt); Distance(o.sh, o.l) < Distance(sh, pub)
  {
  }

  lemma PublishNearer(sh: Shared, pub: Local)
    requires pub.pc.InPublishNext?
    ensures var o := StepPublishNext(sh, pub, pub.pc.fireAt); Distance(o.sh, o.l) < Distance(sh, pub)
  {
  }

  lemma SwitchWinsNearer(sh: Shared, pub: Local, empty: bool)
    requires pub.pc == InNotifyConfigured(Switch) && !TestsQueue(pub) && sh.ns == pub.cur
    ensures var o := StepNotifyConfigured(sh, pub, Switch, empty); Distance(o.sh, o.l) < Distance(sh, pub)
  {
  }

  lemma SwitchLosesNearer(sh: Shared, pub: Local, empty: bool)
    requires pub.pc == InNotifyConfigured(Switch) && !TestsQueue(pub) && sh.ns != pub.cur
    ensures var o := StepNotifyConfigured(sh, pub, Switch, empty); Distance(o.sh, o.l) < Distance(sh, pub)
  {
  }

  lemma PubConfiguredNearer(sh: Shared, pub: Local, empty: bool)
    requires pub.pc.InNotifyConfigured? && !TestsQueue(pub) && !pub.pc.configAt.Switch?
    ensures var o := StepNotifyConfigured(sh, pub, pub.pc.configAt, empty); Distance(o.sh, o.l) < Distance(sh, pub)
  {
  }

  lemma PubLeavesNearer(sh: Shared, pub: Local)
    requires pub.pc.InConfigurePending? || pub.pc.Finish?
    ensures var o := Step(sh, pub, false); Distance(o.sh, o.l) < Distance(sh, pub)
  {
  }

  lemma PubStepNearer(sh: Shared, pub: Local, c: CliPhase, empty: bool)
    requires PubSide(sh, pub, c) && !pub.pc.Idle?
    ensures var o := Step(sh, pub, empty); Distance(o.sh, o.l) < Distance(sh, pub)
  {
    PublisherTestsNothing(sh, pub, c);
    hide PubSide, Distance, TestsQueue, StepPushComplete, StepPublishComplete, StepPublishNext, StepNotifyConfigured;
    match pub.pc {
      case InPushComplete(at) =>
        if at.Try? && sh.ns == pub.cur { PushWinsNearer(sh, pub); } else { PushLosesNearer(sh, pub); }
      case InPublishComplete(at) =>
        if at.Try? && sh.ns == pub.cur { CompleteWinsNearer(sh, pub); } else { CompleteLosesNearer(sh, pub); }
      case InPublishNext(_) => PublishNearer(sh, pub);
      case InNotifyConfigured(at) =>
        if !at.Switch? { PubConfiguredNearer(sh, pub, empty); }
        else if sh.ns == pub.cur { SwitchWinsNearer(sh, pub, empty); }
        else { SwitchLosesNearer(sh, pub, empty); }
      case _ => PubLeavesNearer(sh, pub);
    }
  }

  /** Only the publisher has moved, and it has settled nothing but the notification. */
  predicate PublisherOnly(w: Waiter, e: Waiter) {
    e == w.(s := e.s) && e.s.cli == w.s.cli && e.s.data == w.s.data && !HasThrown(e.s)
  }

  lemma PubMoveNearer(w: Waiter)
    requires WaitInvariant(w) && !w.s.pub.pc.Idle?
    ensures var e := Happen(w, PubMove);
      PublisherOnly(w, e) && Distance(e.s.sh, e.s.pub) < Distance(w.s.sh, w.s.pub)
  {
    var s := w.s;
    var empty := s.data.queue == [];
    hide WaitForMessage.Quiet, TriggerOk, Step, Distance, PubSide;
    PubStepKeeps(s.sh, s.pub, CliPhaseOf(s.sh.handoff, s.cli), empty);
    PubStepNearer(s.sh, s.pub, CliPhaseOf(s.sh.handoff, s.cli), empty);
  }

  /** Left to itself the publisher finishes what it is doing. */
  lemma {:induction false} PublisherSettles(start: Waiter, before: seq<Happening>) returns (events: seq<Happening>)
    requires Init(start.s) && start.at.Outside?
    ensures NoCallBegins(events)
    ensures var w, e := Run(start, before), Run(Run(start, before), events); PublisherOnly(w, e) && e.s.pub.pc.Idle?
    decreases Distance(Run(start, before).s.sh, Run(start, before).s.pub)
  {
    hide Happen, WaitInvariant, Distance, Run;
    var w := Run(start, before);
    RunKeeps(start, before);
    NoThrow(w);
    if w.s.pub.pc.Idle? {
      events := [];
      RunNone(w);
    } else {
      RunMore(start, before, PubMove);
      PubMoveNearer(w);
      var rest := PublisherSettles(start, before + [PubMove]);
      events := [PubMove] + rest;
      RunNone(w);
      RunMore(w, [], PubMove);
      assert [] + [PubMove] == [PubMove];
      RunCat(w, [PubMove], rest);
    }
  }

  lemma RunNone(w: Waiter)
    ensures Run(w, []) == w
  {
  }

  /** With both threads at rest a call can arm its trigger at once. */
  lemma RestsDisarmed(w: Waiter)
    requires WaitInvariant(w) && w.at.FirstPop? && w.s.pub.pc.Idle?
    ensures w.s.cli.pc.Idle? && w.s.cli.depth == 0 && !HasThrown(w.s) && !w.s.data.aborted
    ensures w.s.sh.ns.Disabled? || w.s.sh.ns.NothingToNotify?
  {
  }

  /** A push, and later Done, reach a client that has looked a second time. */
  lemma PushLate(w: Waiter)
    requires w.at.AskAgain? && Silent(w.s) && w.s.data.consumer.Consuming? && w.s.pub.pc.Idle? && w.s.data.cap > 0
    requires !HasThrown(w.s)
    ensures var e := Happen(w, Publish(0)); e.at.AskAgain? && e.s.data == w.s.data.(queue := [0]) && !HasThrown(e.s)
  {
  }

  lemma DoneLate(w: Waiter)
    requires w.at.AskAgain? && w.s.data.consumer.Consuming? && w.s.pub.pc.Idle? && !HasThrown(w.s)
    ensures var d := Happen(w, Done); var e := Happen(d, CliMove);
      !d.at.Outside? && e.at.Outside? && e.returned == Some(false) && e.s.data.queue == w.s.data.queue
  {
  }

  /** The client gets as far as asking again, the publisher having finished first. */
  lemma AsksAgain(start: Waiter, before: seq<Happening>) returns (events: seq<Happening>)
    requires Begins(start, before) && Silent(Run(start, before).s)
    ensures NoCallBegins(events)
    ensures var w, e := Run(start, before), Run(Run(start, before), events);
      e.at.AskAgain? && e.s.data == w.s.data && e.s.pub.pc.Idle? && !HasThrown(e.s)
  {
    hide Run, Tell;
    var w := Run(start, before);
    var first := PublisherSettles(start, before);
    var settled := Run(w, first);
    RunCat(start, before, first);
    RunKeeps(start, before + first);
    RestsDisarmed(settled);
    var second := ArmsAlone(settled);
    ghost var armed := Run(settled, second);
    LooksAlone(armed);
    var third := Extend(settled, second, true, 3);
    RunCat(w, first, third);
    events := first + third;
    hide WaitInvariant;
  }

  /** From any start with nothing to read, not done and room for a message, some continuation returns false
      over a message. */
  lemma {:induction false} LateMessageMisses(start: Waiter, before: seq<Happening>) returns (events: seq<Happening>)
    requires Begins(start, before)
    requires var w := Run(start, before); Silent(w.s) && w.s.data.cap > 0
    ensures ReturnsFalse(Run(start, before), events) && Run(Run(start, before), events).s.data.queue != []
  {
    hide Run, Tell, Happen, WaitInvariant;
    var w := Run(start, before);
    RunKeeps(start, before);
    NotAborting(w);
    events := AsksAgain(start, before);
    PushLate(Run(w, events));
    RunMore(w, events, Publish(0));
    events := events + [Publish(0)];
    RunCat(start, before, events);
    var rest := PublisherSettles(start, before + events);
    RunCat(w, events, rest);
    events := events + rest;
    DoneLate(Run(w, events));
    RunMore(w, events, Happening.Done);
    events := events + [Happening.Done];
    RunMore(w, events, CliMove);
    events := events + [CliMove];
  }

  lemma NotAborting(w: Waiter)
    requires WaitInvariant(w)
    ensures w.s.data.consumer.Consuming? || w.s.data.consumer.Finished?
  {
  }

  /** A call that begins with something to read returns it. */
  predicate ReadsFirst(w: Waiter) {
    (w.at.FirstPop? && w.s.data.queue != []) || (w.at.Outside? && w.returned == Some(true))
  }

  lemma HappenReadsFirst(w: Waiter, e: Happening)
    requires ReadsFirst(w) && !e.StartWait?
    ensures ReadsFirst(Happen(w, e))
  {
    hide Step, Record;
  }

  lemma {:induction false} RunReadsFirst(w: Waiter, events: seq<Happening>)
    requires ReadsFirst(w) && NoCallBegins(events)
    ensures ReadsFirst(Run(w, events))
    decreases |events|
  {
    if events != [] {
      var n := |events| - 1;
      RunReadsFirst(w, events[..n]);
      assert !events[n].StartWait?;
      HappenReadsFirst(Run(w, events[..n]), events[n]);
      hide Happen, ReadsFirst;
    }
  }

  lemma HappenKeepsCap(w: Waiter, e: Happening)
    ensures Happen(w, e).s.data.cap == w.s.data.cap
  {
    hide Step, Record;
  }

  lemma {:induction false} RunKeepsCap(w: Waiter, events: seq<Happening>)
    ensures Run(w, events).s.data.cap == w.s.data.cap
    decreases |events|
  {
    if events != [] {
      RunKeepsCap(w, events[..|events| - 1]);
      HappenKeepsCap(Run(w, events[..|events| - 1]), events[|events| - 1]);
      hide Happen;
    }
  }

  lemma NoRoomNoMessage(w: Waiter)
    requires WaitInvariant(w) && w.s.data.cap == 0
    ensures w.s.data.queue == []
  {
  }

  lemma OtherCallsReadAll(start: Waiter, before: seq<Happening>, events: seq<Happening>)
    requires Begins(start, before) && ReturnsFalse(Run(start, before), events)
    requires var w := Run(start, before); !(Silent(w.s) && w.s.data.cap > 0)
    ensures Run(Run(start, before), events).s.data.queue == []
  {
    hide Run, Happen, WaitInvariant;
    var w := Run(start, before);
    if w.s.data.consumer.Finished? {
      DoneCallsReadAll(start, before, events);
    } else if w.s.data.queue != [] {
      RunReadsFirst(w, events);
      assert false;
    } else {
      RunKeepsCap(w, events);
      RunCat(start, before, events);
      RunKeeps(start, before + events);
      NoRoomNoMessage(Run(w, events));
    }
  }

  /** A call can return false over a message if and only if it begins with an empty queue, before Done, and
      the queue can hold a message at all. */
  lemma {:induction false} UnreadCallsExactly(start: Waiter, before: seq<Happening>)
    requires Begins(start, before)
    ensures var w := Run(start, before);
      (exists events :: ReturnsFalse(w, events) && Run(w, events).s.data.queue != [])
      <==> Silent(w.s) && w.s.data.cap > 0
  {
    hide Run, ReturnsFalse, Begins;
    var w := Run(start, before);
    if Silent(w.s) && w.s.data.cap > 0 {
      var events := LateMessageMisses(start, before);
    } else {
      forall events | ReturnsFalse(w, events) ensures Run(w, events).s.data.queue == [] {
        OtherCallsReadAll(start, before, events);
      }
    }
  }
}
