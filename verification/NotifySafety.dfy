/** Which `ThreadingViolation`s can happen, and exactly when. */
module NotifySafety {
  import opened Wrappers
  import opened NotifyModel
  import opened NotifyInvariant

  /** Every run, whatever the callers do: of all the throws in the six loops only three can be
      reached, all of them in the client thread. */
  lemma OnlyThreeThrows(s: State, actions: seq<Action>)
    requires Init(s)
    ensures var e := Exec(s, actions);
      && !e.pub.pc.Threw?
      && (e.cli.pc.Threw? ==>
            || (e.cli.pc.loop, e.cli.cur) == (NotifyRequested, SubWakeupRequired)
            || (e.cli.pc.loop, e.cli.cur) == (NotifyRequested, PullRequired)
            || (e.cli.pc.loop, e.cli.cur) == (NotifyPendingConfigured, ReconfigureRequired))
  {
    InitInvariant(s);
    ExecKeeps(s, actions);
  }

  // ---------------------------------------------------------------- calm runs never throw

  /** The provisos under which the author's claims hold: the condition variable does not wake
      spuriously, no trigger installs another from inside its own pull, and the publisher does
      not start another PushComplete between releasing a parked client and that client's return. */
  predicate Calm(s: State, a: Action) {
    && !a.SpuriousWake?
    && (a.CliInstall? ==> s.cli.pc.Idle?)
    && (a.PubStep? && s.sh.handoff ==> s.pub.pc != InPushComplete(Read))
  }

  predicate CalmRun(s: State, actions: seq<Action>)
    decreases |actions|
  {
    actions == [] ||
    (var most := actions[..|actions| - 1];
     CalmRun(s, most) && Calm(Exec(s, most), actions[|actions| - 1]))
  }

  /** The client will throw before it returns from its present call, if it runs at all. */
  predicate ClientDoomed(sh: Shared, cli: Local) {
    match cli.pc
    case InNotifyRequested(at) =>
      || cli.depth != 0
      || (sh.handoff && sh.ns.PullRequired?)
      || (at.TryNext? && !sh.handoff && (cli.cur.PullRequired? || cli.cur.SubWakeupRequired?))
    case InOnNextPending(_) | InNotifyPending(_) => cli.depth != 0
    case Threw(_) => true
    case _ => false
  }

  /** A woken client cannot find SubWakeupRequired, and no PushComplete is under way meanwhile. */
  predicate HandoffOrderly(sh: Shared, pub: Local, cli: Local) {
    sh.handoff ==>
      && pub.pc != InPushComplete(Try)
      && (sh.ns.SubWakeupRequired? ==>
            cli.pc == InNotifyRequested(Park) || (cli.pc == InNotifyRequested(Parked) && sh.waiter))
  }

  predicate CalmInvariant(s: State) {
    Invariant(s) && !ClientDoomed(s.sh, s.cli) && HandoffOrderly(s.sh, s.pub, s.cli)
  }

  predicate Orderly(sh: Shared, pub: Local, cli: Local) {
    Both(sh, pub, cli) && !ClientDoomed(sh, cli) && HandoffOrderly(sh, pub, cli)
  }

  predicate StaysOrderly(sh: Shared, pub: Local, cli: Local) {
    !ClientDoomed(sh, cli) && HandoffOrderly(sh, pub, cli)
  }

  lemma PushCalm(sh: Shared, pub: Local, cli: Local)
    requires Orderly(sh, pub, cli) && pub.pc.InPushComplete? && (sh.handoff ==> !pub.pc.loopAt.Read?)
    ensures var o := StepPushComplete(sh, pub, pub.pc.loopAt); StaysOrderly(o.sh, o.l, cli)
  {
  }

  lemma PubConfiguredCalm(sh: Shared, pub: Local, cli: Local, empty: bool)
    requires Orderly(sh, pub, cli) && pub.pc.InNotifyConfigured?
    ensures var o := StepNotifyConfigured(sh, pub, pub.pc.configAt, empty); StaysOrderly(o.sh, o.l, cli)
  {
  }

  lemma PublishCalm(sh: Shared, pub: Local, cli: Local)
    requires Orderly(sh, pub, cli) && pub.pc.InPublishNext?
    ensures var o := StepPublishNext(sh, pub, pub.pc.fireAt); StaysOrderly(o.sh, o.l, cli)
  {
  }

  lemma PublishCompleteCalm(sh: Shared, pub: Local, cli: Local)
    requires Orderly(sh, pub, cli) && pub.pc.InPublishComplete?
    ensures var o := StepPublishComplete(sh, pub, pub.pc.loopAt); StaysOrderly(o.sh, o.l, cli)
  {
  }

  lemma PubOtherCalm(sh: Shared, pub: Local, cli: Local, empty: bool)
    requires Orderly(sh, pub, cli)
    requires pub.pc.InConfigurePending? || pub.pc.Finish? || pub.pc.Idle? || pub.pc.Threw?
    ensures var o := Step(sh, pub, empty); StaysOrderly(o.sh, o.l, cli)
  {
  }

  lemma PubKeepsCalm(sh: Shared, pub: Local, cli: Local, empty: bool)
    requires Orderly(sh, pub, cli) && (sh.handoff ==> pub.pc != InPushComplete(Read))
    ensures var o := Step(sh, pub, empty); StaysOrderly(o.sh, o.l, cli)
  {
    hide StaysOrderly, ClientDoomed, HandoffOrderly, StepPushComplete, StepPublishNext, StepPublishComplete,
         StepNotifyConfigured;
    match pub.pc {
      case InPushComplete(_) => PushCalm(sh, pub, cli);
      case InPublishNext(_) => PublishCalm(sh, pub, cli);
      case InPublishComplete(_) => PublishCompleteCalm(sh, pub, cli);
      case InNotifyConfigured(_) => PubConfiguredCalm(sh, pub, cli, empty);
      case _ => PubOtherCalm(sh, pub, cli, empty);
    }
  }

  lemma RequestCalm(sh: Shared, pub: Local, cli: Local)
    requires Orderly(sh, pub, cli) && CanStep(sh, cli) && cli.pc.InNotifyRequested?
    requires !cli.pc.requestAt.TryNext? || sh.ns == cli.cur
    ensures var o := StepNotifyRequested(sh, cli, cli.pc.requestAt); StaysOrderly(o.sh, pub, o.l)
  {
  }

  lemma RequestAgainCalm(sh: Shared, pub: Local, cli: Local)
    requires Orderly(sh, pub, cli) && cli.pc == InNotifyRequested(TryNext) && sh.ns != cli.cur
    ensures var o := StepNotifyRequested(sh, cli, TryNext); StaysOrderly(o.sh, pub, o.l)
  {
  }

  lemma CliKeepsCalm(sh: Shared, pub: Local, cli: Local, empty: bool)
    requires Orderly(sh, pub, cli) && CanStep(sh, cli)
    ensures var o := Step(sh, cli, empty); StaysOrderly(o.sh, pub, o.l)
  {
    if cli.pc.InNotifyRequested? {
      if cli.pc.requestAt.TryNext? && sh.ns != cli.cur { RequestAgainCalm(sh, pub, cli); }
      else { RequestCalm(sh, pub, cli); }
    } else {
      hide Step;
      CliStepKeeps(sh, cli, PubPhaseOf(pub), empty);
      StepFrame(sh, cli, empty);
    }
  }

  lemma CalmKeeps(s: State, a: Action)
    requires CalmInvariant(s) && Calm(s, a)
    ensures CalmInvariant(Apply(s, a))
  {
    ApplyKeeps(s, a);
    if a.PubStep? && CanStep(s.sh, s.pub) {
      PubKeepsCalm(s.sh, s.pub, s.cli, s.data.queue == []);
    } else if a.CliStep? && CanStep(s.sh, s.cli) {
      CliKeepsCalm(s.sh, s.pub, s.cli, s.data.queue == []);
    }
  }

  /** Under the three provisos no `throw` in the six loops is ever reached. */
  lemma {:induction false} CalmRunsNeverThrow(s: State, actions: seq<Action>)
    requires Init(s) && CalmRun(s, actions)
    ensures CalmInvariant(Exec(s, actions)) && !HasThrown(Exec(s, actions))
    decreases |actions|
  {
    if actions == [] {
      InitInvariant(s);
    } else {
      CalmRunsNeverThrow(s, actions[..|actions| - 1]);
      CalmKeeps(Exec(s, actions[..|actions| - 1]), actions[|actions| - 1]);
    }
  }

  // ---------------------------------------------------------------- and exactly the other runs do

  /** One of the provisos has been broken in a way that matters: a PushComplete overtook a parked
      client, a woken client came back before its hand-off, or a trigger installed another from
      inside its own pull.  Each flag is set by the step that does it. */
  predicate ProvisoBroken(h: History) {
    h.overtaken || h.wokenEarly || h.nested
  }

  predicate DoomedExactly(s: State) {
    ClientDoomed(s.sh, s.cli) == ProvisoBroken(s.h)
  }

  lemma PushDooms(sh: Shared, pub: Local, cli: Local)
    requires Both(sh, pub, cli) && pub.pc.InPushComplete?
    ensures var o := StepPushComplete(sh, pub, pub.pc.loopAt);
      ClientDoomed(o.sh, cli) == (ClientDoomed(sh, cli) || o.e.WonOvertaking?)
    ensures !StepPushComplete(sh, pub, pub.pc.loopAt).e.LostEarly?
  {
  }

  lemma PubDooms(sh: Shared, pub: Local, cli: Local, empty: bool)
    requires Both(sh, pub, cli)
    ensures var o := Step(sh, pub, empty);
      ClientDoomed(o.sh, cli) == (ClientDoomed(sh, cli) || o.e.WonOvertaking? || o.e.LostEarly?)
  {
    StepFrame(sh, pub, empty);
    match pub.pc {
      case InPushComplete(_) => PushDooms(sh, pub, cli);
      case _ =>
    }
  }

  lemma RequestDooms(sh: Shared, cli: Local, p: PubPhase)
    requires CliSide(sh, cli, p) && CanStep(sh, cli) && cli.pc.InNotifyRequested?
    requires !cli.pc.requestAt.TryNext? || sh.ns == cli.cur
    ensures var o := StepNotifyRequested(sh, cli, cli.pc.requestAt);
      && ClientDoomed(o.sh, o.l) == ClientDoomed(sh, cli)
      && !o.e.LostEarly? && !o.e.WonOvertaking?
  {
  }

  lemma RequestAgainDooms(sh: Shared, cli: Local, p: PubPhase)
    requires CliSide(sh, cli, p) && cli.pc == InNotifyRequested(TryNext) && sh.ns != cli.cur
    ensures var o := StepNotifyRequested(sh, cli, TryNext);
      && ClientDoomed(o.sh, o.l) == (ClientDoomed(sh, cli) || o.e.LostEarly?)
      && !o.e.WonOvertaking?
  {
  }

  lemma NestedStaysDoomed(sh: Shared, cli: Local, p: PubPhase)
    requires CliSide(sh, cli, p) && (cli.pc.InOnNextPending? || cli.pc.InNotifyPending?)
    ensures var o := Step(sh, cli, false);
      && ClientDoomed(o.sh, o.l) == ClientDoomed(sh, cli)
      && !o.e.LostEarly? && !o.e.WonOvertaking?
  {
  }

  lemma PullNeverDooms(sh: Shared, cli: Local, p: PubPhase)
    requires CliSide(sh, cli, p) && (cli.pc.InPullNext? || cli.pc.InPullComplete? || cli.pc.Finish? || cli.pc.Idle?)
    ensures var o := Step(sh, cli, false); !ClientDoomed(o.sh, o.l) && !o.e.LostEarly? && !o.e.WonOvertaking?
  {
  }

  lemma ConfigureNeverDooms(sh: Shared, cli: Local, p: PubPhase, empty: bool)
    requires CliSide(sh, cli, p) && (cli.pc.InOnNextLive? || cli.pc.InConfigurePending? || cli.pc.InNotifyConfigured?)
    ensures var o := Step(sh, cli, empty); !ClientDoomed(o.sh, o.l) && !o.e.LostEarly? && !o.e.WonOvertaking?
  {
  }

  lemma CliDooms(sh: Shared, cli: Local, p: PubPhase, empty: bool)
    requires CliSide(sh, cli, p) && CanStep(sh, cli)
    ensures var o := Step(sh, cli, empty);
      && ClientDoomed(o.sh, o.l) == (ClientDoomed(sh, cli) || o.e.LostEarly?)
      && !o.e.WonOvertaking?
  {
    match cli.pc {
      case InNotifyRequested(at) =>
        if at.TryNext? && sh.ns != cli.cur { RequestAgainDooms(sh, cli, p); } else { RequestDooms(sh, cli, p); }
      case InOnNextPending(_) | InNotifyPending(_) => NestedStaysDoomed(sh, cli, p);
      case InOnNextLive(_) | InConfigurePending(_) | InNotifyConfigured(_) => ConfigureNeverDooms(sh, cli, p, empty);
      case _ => PullNeverDooms(sh, cli, p);
    }
  }

  lemma DoomedExactlyKeeps(s: State, a: Action)
    requires Invariant(s) && DoomedExactly(s)
    ensures DoomedExactly(Apply(s, a))
  {
    if HasThrown(s) {
    } else if a.PubStep? && CanStep(s.sh, s.pub) {
      PubDooms(s.sh, s.pub, s.cli, s.data.queue == []);
    } else if a.CliStep? && CanStep(s.sh, s.cli) {
      CliDooms(s.sh, s.cli, PubPhaseOf(s.pub), s.data.queue == []);
    }
  }

  /** In every run, the client is lost to a throw exactly when one of the three provisos was
      broken: no other behaviour of either thread leads to a throw, and none of the three can be
      recovered from. */
  lemma {:induction false} DoomedIffProvisoBroken(s: State, actions: seq<Action>)
    requires Init(s)
    ensures var e := Exec(s, actions); Invariant(e) && (ClientDoomed(e.sh, e.cli) <==> ProvisoBroken(e.h))
    decreases |actions|
  {
    if actions == [] {
      InitInvariant(s);
    } else {
      var most := actions[..|actions| - 1];
      DoomedIffProvisoBroken(s, most);
      ApplyKeeps(Exec(s, most), actions[|actions| - 1]);
      DoomedExactlyKeeps(Exec(s, most), actions[|actions| - 1]);
    }
  }

  /** How many steps of its own a doomed client has left before it throws. */
  function StepsToThrow(l: Local): nat {
    match l.pc
    case InNotifyRequested(at) =>
      (match at
       case ReadFirst => 7
       case Park => 4
       case Parked => 3
       case TryNext => if l.depth != 0 then 6 else if l.cur.PubReconfiguring? then 2 else 1)
    case InOnNextPending(at) => if at.WriteFn? then 4 else 3
    case InNotifyPending(at) => if at.Read? then 2 else 1
    case _ => 0
  }

  lemma RequestNearsThrow(sh: Shared, cli: Local, p: PubPhase)
    requires CliSide(sh, cli, p) && ClientDoomed(sh, cli) && CanStep(sh, cli) && cli.pc.InNotifyRequested?
    ensures StepsToThrow(StepNotifyRequested(sh, cli, cli.pc.requestAt).l) < StepsToThrow(cli)
  {
  }

  /** A doomed client is inside a call and stays there; each step it takes brings the throw
      nearer, and nothing the publisher does puts it off. */
  lemma DoomedClientThrows(s: State, a: Action)
    requires Invariant(s) && ClientDoomed(s.sh, s.cli)
    ensures !AtUserCode(s.cli)
    ensures ClientDoomed(Apply(s, a).sh, Apply(s, a).cli)
    ensures StepsToThrow(s.cli) == 0 <==> HasThrown(s)
    ensures if a.CliStep? && CanStep(s.sh, s.cli) && !HasThrown(s)
            then StepsToThrow(Apply(s, a).cli) < StepsToThrow(s.cli)
            else Apply(s, a).cli == s.cli
  {
    if HasThrown(s) {
    } else if a.PubStep? && CanStep(s.sh, s.pub) {
      PubDooms(s.sh, s.pub, s.cli, s.data.queue == []);
    } else if a.CliStep? && CanStep(s.sh, s.cli) {
      CliDooms(s.sh, s.cli, PubPhaseOf(s.pub), s.data.queue == []);
      if s.cli.pc.InNotifyRequested? { RequestNearsThrow(s.sh, s.cli, PubPhaseOf(s.pub)); }
    }
  }

  // ---------------------------------------------------------------- the missed wake-up

  /** The publisher has released the hand-off and notified, but the client had not begun to wait,
      or is waiting for a notification that has already been sent. */
  predicate WakeMissed(s: State) {
    && !HasThrown(s) && s.sh.handoff && !s.sh.ns.SubWakeupRequired?
    && s.pub.pc != InNotifyConfigured(Wake)
    && (s.cli.pc == InNotifyRequested(Park) || (s.cli.pc == InNotifyRequested(Parked) && s.sh.waiter))
  }

  /** `notify_one` reaches a client that waits, and is missed by one that is about to. */
  lemma NotifyReachesOnlyAWaiter(s: State)
    requires Invariant(s) && !HasThrown(s) && s.pub.pc == InNotifyConfigured(Wake) && s.sh.handoff
    ensures var r := Apply(s, PubStep);
      && (s.cli.pc == InNotifyRequested(Park) <==> WakeMissed(r))
      && (s.cli.pc != InNotifyRequested(Park) ==> CanStep(r.sh, r.cli))
  {
  }

  lemma WakeMissedKeeps(s: State, a: Action)
    requires Invariant(s) && WakeMissed(s) && !a.SpuriousWake?
    ensures WakeMissed(Apply(s, a))
  {
    if a.PubStep? && CanStep(s.sh, s.pub) {
      PubStepKeeps(s.sh, s.pub, CliPhaseOf(s.sh.handoff, s.cli), s.data.queue == []);
      PubAwayStaysOut(s.sh, s.pub, s.data.queue == []);
    }
  }

  lemma PubAwayStaysOut(sh: Shared, pub: Local, empty: bool)
    requires PubLocalOk(pub) && PubPhaseOf(pub).PubAway? && pub.pc != InNotifyConfigured(Wake)
    requires sh.handoff && (sh.ns.Configuring? || sh.ns.PullRequired?)
    ensures var o := Step(sh, pub, empty);
      && o.sh.handoff && o.sh.waiter == sh.waiter && (o.sh.ns.Configuring? || o.sh.ns.PullRequired?)
      && o.l.pc != InNotifyConfigured(Wake) && !o.l.pc.Threw?
  {
  }

  /** A client that missed its wake-up is blocked in `OnNextMessage` for ever: without a spurious
      wake-up, nothing that either thread does lets it out. */
  lemma {:induction false} MissedWakeHangs(s: State, actions: seq<Action>)
    requires Invariant(s) && WakeMissed(s)
    requires forall i :: 0 <= i < |actions| ==> !actions[i].SpuriousWake?
    ensures Invariant(Exec(s, actions)) && WakeMissed(Exec(s, actions))
    decreases |actions|
  {
    if actions != [] {
      var most := actions[..|actions| - 1];
      MissedWakeHangs(s, most);
      ApplyKeeps(Exec(s, most), actions[|actions| - 1]);
      WakeMissedKeeps(Exec(s, most), actions[|actions| - 1]);
    }
  }
}
