/** Clients that always give a target: the trigger is then posted to it, and never called on the stack
    of the thread that fires it. */
module NotifyTargets {
  import opened Wrappers
  import opened NotifyModel
  import opened NotifyInvariant

  /** The live slot is half written or half cleared by this thread. */
  predicate Halfway(l: Local) {
    l.pc == InOnNextLive(WriteTarget) || l.pc == InConfigurePending(MoveTarget)
    || l.pc == InPublishNext(ClearFn) || l.pc == InPullNext(ClearFn)
  }

  /** The thread has not gone, and will not go, down the branch that calls the trigger. */
  predicate NeverCalls(l: Local) {
    && l.depth == 0
    && (l.pc.InPublishNext? || l.pc.InPullNext? ==> !l.pc.fireAt.Call? && !l.pc.fireAt.Running?)
  }

  predicate Moving(l: Local) { l.pc == InConfigurePending(MoveTarget) || l.pc == InConfigurePending(DropTarget) }

  /** What thread `l` needs of the slots. */
  predicate SeesTargets(sh: Shared, l: Local) {
    && NeverCalls(l)
    && (l.pc == InConfigurePending(MoveTarget) ==> sh.pendingTarget)
    && (Moving(l) ==> sh.pendingFn.None?)
  }

  predicate Targets(sh: Shared, pub: Local, cli: Local) {
    && SeesTargets(sh, pub) && SeesTargets(sh, cli)
    && (sh.onNotify.Some? ==> sh.target || Halfway(pub) || Halfway(cli))
    && (sh.pendingFn.Some? ==> sh.pendingTarget || cli.pc == InOnNextPending(WriteTarget))
    && (!cli.pc.Idle? ==> cli.posted)
  }

  /** A step that leaves the slots alone. */
  predicate LeavesSlots(sh: Shared, o: Outcome) {
    && o.sh.onNotify == sh.onNotify && o.sh.target == sh.target
    && o.sh.pendingFn == sh.pendingFn && o.sh.pendingTarget == sh.pendingTarget
  }

  /** A thread outside the straight-line code that works on the slots. */
  predicate Aloof(pc: Pc) {
    !pc.InPublishNext? && !pc.InPullNext? && !pc.InOnNextLive? && !pc.InOnNextPending? && !pc.InConfigurePending?
  }

  /** The slots are left alone, and that code is entered, if at all, at its start. */
  predicate StaysOut(sh: Shared, o: Outcome) {
    && LeavesSlots(sh, o) && o.l.depth == 0 && !Halfway(o.l) && !Moving(o.l) && o.l.pc != InOnNextPending(WriteTarget)
    && (o.l.pc.InPublishNext? || o.l.pc.InPullNext? ==> o.l.pc.fireAt.Test?)
  }

  lemma AloofStaysOut(sh: Shared, l: Local, empty: bool)
    requires Aloof(l.pc) && l.depth == 0
    ensures StaysOut(sh, Step(sh, l, empty))
  {
    hide Step, StaysOut;
    match l.pc {
      case InPushComplete(_) => PushStaysOut(sh, l, empty);
      case InNotifyPending(_) => NotifyPendingStaysOut(sh, l, empty);
      case InPublishComplete(_) => PublishCompleteStaysOut(sh, l, empty);
      case InPullComplete(_) => PullCompleteStaysOut(sh, l, empty);
      case InNotifyConfigured(at) =>
        if at.Switch? { SwitchStaysOut(sh, l, empty); } else { ConfiguredStaysOut(sh, l, empty); }
      case InNotifyRequested(at) =>
        if !at.TryNext? { RequestStaysOut(sh, l, empty); }
        else if sh.ns == l.cur { RequestWinStaysOut(sh, l, empty); }
        else { RequestLossStaysOut(sh, l, empty); }
      case Idle | Finish | Threw(_) => RestStaysOut(sh, l, empty);
    }
  }

  lemma PushStaysOut(sh: Shared, l: Local, empty: bool)
    requires l.pc.InPushComplete? && l.depth == 0
    ensures StaysOut(sh, Step(sh, l, empty))
  {
  }

  lemma NotifyPendingStaysOut(sh: Shared, l: Local, empty: bool)
    requires l.pc.InNotifyPending? && l.depth == 0
    ensures StaysOut(sh, Step(sh, l, empty))
  {
  }

  lemma PublishCompleteStaysOut(sh: Shared, l: Local, empty: bool)
    requires l.pc.InPublishComplete? && l.depth == 0
    ensures StaysOut(sh, Step(sh, l, empty))
  {
  }

  lemma PullCompleteStaysOut(sh: Shared, l: Local, empty: bool)
    requires l.pc.InPullComplete? && l.depth == 0
    ensures StaysOut(sh, Step(sh, l, empty))
  {
  }

  lemma SwitchWinStaysOut(sh: Shared, l: Local, empty: bool)
    requires l.pc == InNotifyConfigured(Switch) && sh.ns == l.cur && l.depth == 0
    ensures StaysOut(sh, StepNotifyConfigured(sh, l, Switch, empty))
  {
  }

  lemma SwitchLossStaysOut(sh: Shared, l: Local, empty: bool)
    requires l.pc == InNotifyConfigured(Switch) && sh.ns != l.cur && l.depth == 0
    ensures StaysOut(sh, StepNotifyConfigured(sh, l, Switch, empty))
  {
  }

  lemma SwitchStaysOut(sh: Shared, l: Local, empty: bool)
    requires l.pc == InNotifyConfigured(Switch) && l.depth == 0
    ensures StaysOut(sh, Step(sh, l, empty))
  {
    hide StaysOut, StepNotifyConfigured;
    if sh.ns == l.cur { SwitchWinStaysOut(sh, l, empty); } else { SwitchLossStaysOut(sh, l, empty); }
  }

  lemma ConfiguredStaysOut(sh: Shared, l: Local, empty: bool)
    requires l.pc.InNotifyConfigured? && !l.pc.configAt.Switch? && l.depth == 0
    ensures StaysOut(sh, Step(sh, l, empty))
  {
  }

  lemma RequestStaysOut(sh: Shared, l: Local, empty: bool)
    requires l.pc.InNotifyRequested? && !l.pc.requestAt.TryNext? && l.depth == 0
    ensures StaysOut(sh, Step(sh, l, empty))
  {
  }

  lemma RequestWinStaysOut(sh: Shared, l: Local, empty: bool)
    requires l.pc.InNotifyRequested? && l.pc.requestAt.TryNext? && sh.ns == l.cur && l.depth == 0
    ensures StaysOut(sh, Step(sh, l, empty))
  {
  }

  lemma RequestLossStaysOut(sh: Shared, l: Local, empty: bool)
    requires l.pc.InNotifyRequested? && l.pc.requestAt.TryNext? && sh.ns != l.cur && l.depth == 0
    ensures StaysOut(sh, Step(sh, l, empty))
  {
  }

  lemma RestStaysOut(sh: Shared, l: Local, empty: bool)
    requires (l.pc.Idle? || l.pc.Finish? || l.pc.Threw?) && l.depth == 0
    ensures StaysOut(sh, Step(sh, l, empty))
  {
  }

  lemma PubTargets(sh: Shared, pub: Local, cli: Local, empty: bool)
    requires Both(sh, pub, cli) && Targets(sh, pub, cli)
    ensures var o := Step(sh, pub, empty); Targets(o.sh, o.l, cli)
  {
    if Aloof(pub.pc) {
      AloofStaysOut(sh, pub, empty);
      hide Step;
    } else if pub.pc.InPublishNext? {
      PublishTargets(sh, pub, cli, empty);
    } else {
      PubMoveTargets(sh, pub, cli, empty);
    }
  }

  lemma PublishTargets(sh: Shared, pub: Local, cli: Local, empty: bool)
    requires Both(sh, pub, cli) && Targets(sh, pub, cli) && pub.pc.InPublishNext?
    ensures var o := Step(sh, pub, empty); Targets(o.sh, o.l, cli)
  {
  }

  lemma PubMoveTargets(sh: Shared, pub: Local, cli: Local, empty: bool)
    requires Both(sh, pub, cli) && Targets(sh, pub, cli) && pub.pc.InConfigurePending?
    ensures var o := Step(sh, pub, empty); Targets(o.sh, o.l, cli)
  {
  }

  lemma CliTargets(sh: Shared, pub: Local, cli: Local, empty: bool)
    requires Both(sh, pub, cli) && Targets(sh, pub, cli) && CanStep(sh, cli)
    ensures var o := Step(sh, cli, empty); Targets(o.sh, pub, o.l)
  {
    StepFrame(sh, cli, empty);
    if Aloof(cli.pc) {
      AloofStaysOut(sh, cli, empty);
      hide Step;
    } else if cli.pc.InPullNext? {
      PullTargets(sh, pub, cli, empty);
    } else if cli.pc.InConfigurePending? {
      CliMoveTargets(sh, pub, cli, empty);
    } else {
      WriteTargets(sh, pub, cli, empty);
    }
  }

  lemma PullTargets(sh: Shared, pub: Local, cli: Local, empty: bool)
    requires Both(sh, pub, cli) && Targets(sh, pub, cli) && cli.pc.InPullNext?
    ensures var o := Step(sh, cli, empty); Targets(o.sh, pub, o.l)
  {
  }

  lemma CliMoveTargets(sh: Shared, pub: Local, cli: Local, empty: bool)
    requires Both(sh, pub, cli) && Targets(sh, pub, cli) && cli.pc.InConfigurePending?
    ensures var o := Step(sh, cli, empty); Targets(o.sh, pub, o.l)
  {
  }

  lemma WriteTargets(sh: Shared, pub: Local, cli: Local, empty: bool)
    requires Both(sh, pub, cli) && Targets(sh, pub, cli) && (cli.pc.InOnNextLive? || cli.pc.InOnNextPending?)
    ensures var o := Step(sh, cli, empty); Targets(o.sh, pub, o.l)
  {
  }

  predicate Posted(a: Action) { a.CliInstall? ==> a.posted }

  lemma ApplyTargets(s: State, a: Action)
    requires Invariant(s) && !HasThrown(s) && Targets(s.sh, s.pub, s.cli) && Posted(a)
    ensures !HasThrown(Apply(s, a)) ==> Targets(Apply(s, a).sh, Apply(s, a).pub, Apply(s, a).cli)
  {
    var empty := s.data.queue == [];
    if a.PubStep? && CanStep(s.sh, s.pub) {
      PubTargets(s.sh, s.pub, s.cli, empty);
      hide Step;
    } else if a.CliStep? && CanStep(s.sh, s.cli) {
      CliTargets(s.sh, s.pub, s.cli, empty);
      hide Step;
    }
  }

  predicate PostedRun(actions: seq<Action>) {
    forall i :: 0 <= i < |actions| ==> Posted(actions[i])
  }

  /** In every run in which all triggers are given a target, none is ever called in place. */
  lemma {:induction false} TargetsAreHonoured(s: State, actions: seq<Action>)
    requires Init(s) && PostedRun(actions)
    ensures var e := Exec(s, actions);
      Invariant(e) && (!HasThrown(e) ==> Targets(e.sh, e.pub, e.cli) && NeverCalls(e.pub) && NeverCalls(e.cli))
    decreases |actions|
  {
    InitInvariant(s);
    ExecKeeps(s, actions);
    if actions != [] {
      var most := actions[..|actions| - 1];
      TargetsAreHonoured(s, most);
      ExecKeeps(s, most);
      assert Posted(actions[|actions| - 1]);
      if !HasThrown(Exec(s, most)) { ApplyTargets(Exec(s, most), actions[|actions| - 1]); }
    }
  }
}
