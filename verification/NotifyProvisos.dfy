/** The three provisos as conditions on who does what where, and not on what is then found. */
module NotifyProvisos {
  import opened Wrappers
  import opened NotifyModel
  import opened NotifyInvariant
  import opened NotifySafety

  /** The parked client was woken spuriously in this hand-off and has not read `notifyState` since. */
  function WokenSpuriously(s: State, actions: seq<Action>): bool
    decreases |actions|
  {
    actions != [] &&
    (var most := actions[..|actions| - 1];
     WokenAfter(Exec(s, most), actions[|actions| - 1], WokenSpuriously(s, most)))
  }

  predicate WokenAfter(s: State, a: Action, woken: bool) {
    Apply(s, a).sh.handoff && (woken || (a.SpuriousWake? && s.sh.waiter && !HasThrown(s)))
  }

  /** A PushComplete that finds CONFIGURING makes its exchange before the released client goes on; a client
      woken spuriously makes its own while the publisher is still reconfiguring; or a trigger installs
      another from inside its pull. */
  predicate Breaks(s: State, woken: bool, a: Action) {
    && !HasThrown(s)
    && match a
       case PubStep => s.sh.handoff && s.pub.pc == InPushComplete(Try) && s.pub.cur == s.sh.ns == Configuring
       case CliStep => woken && s.cli.pc == InNotifyRequested(TryNext) && PubPhaseOf(s.pub).PubMoving?
       case CliInstall(_) => s.cli.pc == InPullNext(Running) && !s.data.aborted
       case _ => false
  }

  /** Unless woken spuriously, a client that waits for the publisher to let go is parked, or about to be. */
  predicate StaysParked(sh: Shared, cli: Local, woken: bool) {
    sh.handoff && sh.ns.SubWakeupRequired? && !woken ==>
      cli.pc == InNotifyRequested(Park) || (cli.pc == InNotifyRequested(Parked) && sh.waiter)
  }

  /** The publisher is reconfiguring under a hand-off exactly in SUB_WAKEUP_REQUIRED. */
  lemma MovingUnderHandoff(sh: Shared, pub: Local, cli: Local)
    requires Both(sh, pub, cli) && sh.handoff
    ensures PubPhaseOf(pub).PubMoving? <==> sh.ns.SubWakeupRequired?
  {
  }

  /** The step neither asks anyone to wait nor wakes anyone. */
  predicate LeavesWait(sh: Shared, o: Outcome) {
    o.sh.waiter == sh.waiter && (o.sh.ns.SubWakeupRequired? ==> sh.ns.SubWakeupRequired?)
  }

  lemma PushLeavesWait(sh: Shared, pub: Local, empty: bool)
    requires pub.pc.InPushComplete?
    ensures LeavesWait(sh, Step(sh, pub, empty))
  {
  }

  lemma CompleteLeavesWait(sh: Shared, pub: Local, empty: bool)
    requires pub.pc.InPublishComplete?
    ensures LeavesWait(sh, Step(sh, pub, empty))
  {
  }

  lemma SlotsLeaveWait(sh: Shared, pub: Local, empty: bool)
    requires pub.pc.InPublishNext? || pub.pc.InConfigurePending? || pub.pc.Finish? || pub.pc.Idle?
    ensures LeavesWait(sh, Step(sh, pub, empty))
  {
  }

  lemma ConfiguredKeepsParked(sh: Shared, pub: Local, cli: Local, woken: bool, empty: bool)
    requires Both(sh, pub, cli) && StaysParked(sh, cli, woken) && pub.pc.InNotifyConfigured?
    ensures StaysParked(Step(sh, pub, empty).sh, cli, woken)
  {
  }

  lemma PubKeepsParked(sh: Shared, pub: Local, cli: Local, woken: bool, empty: bool)
    requires Both(sh, pub, cli) && StaysParked(sh, cli, woken)
    ensures StaysParked(Step(sh, pub, empty).sh, cli, woken)
  {
    StepFrame(sh, pub, empty);
    hide Step;
    match pub.pc {
      case InPushComplete(_) => PushLeavesWait(sh, pub, empty);
      case InPublishComplete(_) => CompleteLeavesWait(sh, pub, empty);
      case InNotifyConfigured(_) => ConfiguredKeepsParked(sh, pub, cli, woken, empty);
      case _ => SlotsLeaveWait(sh, pub, empty);
    }
  }

  lemma RequestKeepsParked(sh: Shared, cli: Local, p: PubPhase, woken: bool)
    requires CliSide(sh, cli, p) && CanStep(sh, cli) && StaysParked(sh, cli, woken) && cli.pc.InNotifyRequested?
    ensures var o := StepNotifyRequested(sh, cli, cli.pc.requestAt); StaysParked(o.sh, o.l, woken)
  {
  }

  lemma CliKeepsParked(sh: Shared, cli: Local, p: PubPhase, woken: bool, empty: bool)
    requires CliSide(sh, cli, p) && CanStep(sh, cli) && StaysParked(sh, cli, woken)
    ensures var o := Step(sh, cli, empty); StaysParked(o.sh, o.l, woken)
  {
    if cli.pc.InNotifyRequested? {
      RequestKeepsParked(sh, cli, p, woken);
    } else {
      StepFrame(sh, cli, empty);
      hide Step;
    }
  }

  // ---------------------------------------------------------------- what sets the flags

  lemma PushEvent(sh: Shared, pub: Local, empty: bool)
    requires pub.pc.InPushComplete?
    ensures Step(sh, pub, empty).e.WonOvertaking?
            <==> sh.handoff && pub.pc.loopAt.Try? && pub.cur == sh.ns == Configuring
  {
  }

  lemma RequestEvent(sh: Shared, cli: Local, p: PubPhase, empty: bool)
    requires CliSide(sh, cli, p) && cli.pc.InNotifyRequested?
    ensures Step(sh, cli, empty).e.LostEarly?
            <==> cli.pc.requestAt.TryNext? && sh.handoff && sh.ns.SubWakeupRequired?
  {
  }

  lemma RecordFlags(h: History, t: Thread, e: Event)
    ensures var r := Record(h, t, e);
      && r.nested == h.nested && r.overtaken == (h.overtaken || e.WonOvertaking?)
      && r.wokenEarly == (h.wokenEarly || e.LostEarly?)
  {
  }

  predicate ProvisoOk(s: State, woken: bool) {
    && Invariant(s) && (!HasThrown(s) ==> StaysParked(s.sh, s.cli, woken))
    && (woken ==> s.sh.handoff)
  }

  lemma PubBreaks(s: State, woken: bool)
    requires ProvisoOk(s, woken) && !HasThrown(s) && CanStep(s.sh, s.pub)
    ensures ProvisoBroken(Take(s, Publisher).h) <==> ProvisoBroken(s.h) || Breaks(s, woken, PubStep)
    ensures StaysParked(Take(s, Publisher).sh, s.cli, woken)
  {
    var empty := s.data.queue == [];
    StepFrame(s.sh, s.pub, empty);
    if s.pub.pc.InPushComplete? { PushEvent(s.sh, s.pub, empty); }
    RecordFlags(s.h, Publisher, Step(s.sh, s.pub, empty).e);
    PubKeepsParked(s.sh, s.pub, s.cli, woken, empty);
    hide Step, Record, StaysParked;
  }

  lemma CliBreaks(s: State, woken: bool)
    requires ProvisoOk(s, woken) && !HasThrown(s) && CanStep(s.sh, s.cli)
    ensures ProvisoBroken(Take(s, Client).h) <==> ProvisoBroken(s.h) || Breaks(s, woken, CliStep)
    ensures StaysParked(Take(s, Client).sh, Take(s, Client).cli, woken)
  {
    var empty := s.data.queue == [];
    StepFrame(s.sh, s.cli, empty);
    if s.cli.pc.InNotifyRequested? { RequestEvent(s.sh, s.cli, PubPhaseOf(s.pub), empty); }
    if s.sh.handoff { MovingUnderHandoff(s.sh, s.pub, s.cli); }
    RecordFlags(s.h, Client, Step(s.sh, s.cli, empty).e);
    CliKeepsParked(s.sh, s.cli, PubPhaseOf(s.pub), woken, empty);
    hide Step, Record;
  }

  lemma ApplyBreaks(s: State, woken: bool, a: Action)
    requires ProvisoOk(s, woken)
    ensures ProvisoOk(Apply(s, a), WokenAfter(s, a, woken))
    ensures ProvisoBroken(Apply(s, a).h) <==> ProvisoBroken(s.h) || Breaks(s, woken, a)
  {
    ApplyKeeps(s, a);
    if HasThrown(s) {
    } else if a.PubStep? && CanStep(s.sh, s.pub) {
      PubBreaks(s, woken);
      hide Take;
    } else if a.CliStep? && CanStep(s.sh, s.cli) {
      CliBreaks(s, woken);
      hide Take;
    }
  }

  // ---------------------------------------------------------------- all runs

  /** Some action of the run broke a proviso. */
  ghost predicate BrokenIn(s: State, actions: seq<Action>) {
    exists i :: 0 <= i < |actions| && Breaks(Exec(s, actions[..i]), WokenSpuriously(s, actions[..i]), actions[i])
  }

  lemma BrokenInMore(s: State, actions: seq<Action>)
    requires actions != []
    ensures var n := |actions| - 1;
      BrokenIn(s, actions)
      <==> BrokenIn(s, actions[..n]) || Breaks(Exec(s, actions[..n]), WokenSpuriously(s, actions[..n]), actions[n])
  {
    hide Exec, WokenSpuriously, Breaks;
    var n := |actions| - 1;
    var most := actions[..n];
    assert forall i :: 0 <= i < n ==> most[..i] == actions[..i] && most[i] == actions[i];
    if BrokenIn(s, actions) {
      var i :| 0 <= i < |actions| && Breaks(Exec(s, actions[..i]), WokenSpuriously(s, actions[..i]), actions[i]);
      if i < n { assert Breaks(Exec(s, most[..i]), WokenSpuriously(s, most[..i]), most[i]); }
    }
    if BrokenIn(s, most) {
      var i :| 0 <= i < n && Breaks(Exec(s, most[..i]), WokenSpuriously(s, most[..i]), most[i]);
      assert Breaks(Exec(s, actions[..i]), WokenSpuriously(s, actions[..i]), actions[i]);
    }
  }

  lemma {:induction false} RunBreaks(s: State, actions: seq<Action>)
    requires Init(s)
    ensures ProvisoOk(Exec(s, actions), WokenSpuriously(s, actions))
    ensures ProvisoBroken(Exec(s, actions).h) <==> BrokenIn(s, actions)
    decreases |actions|
  {
    if actions == [] {
      InitInvariant(s);
    } else {
      var most, a := actions[..|actions| - 1], actions[|actions| - 1];
      RunBreaks(s, most);
      ApplyBreaks(Exec(s, most), WokenSpuriously(s, most), a);
      BrokenInMore(s, actions);
      hide Apply, Breaks, BrokenIn, ProvisoOk, WokenAfter, ProvisoBroken;
    }
  }

  /** In every run the client is bound to throw if and only if some action broke a proviso: an exchange of
      the publisher's during a hand-off, one of a spuriously woken client's while the publisher is still
      reconfiguring, or an install inside a pull. */
  lemma {:induction false} DoomedIffBroken(s: State, actions: seq<Action>)
    requires Init(s)
    ensures ClientDoomed(Exec(s, actions).sh, Exec(s, actions).cli) <==> BrokenIn(s, actions)
  {
    RunBreaks(s, actions);
    DoomedIffProvisoBroken(s, actions);
    hide Exec, BrokenIn, ClientDoomed;
  }
}
