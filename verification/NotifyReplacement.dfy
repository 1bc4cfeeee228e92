/** Triggers that are never called: which step takes a trigger out of its slot before it has fired. */
module NotifyReplacement {
  import opened Wrappers
  import opened NotifyModel
  import opened NotifyInvariant
  import opened NotifyLedger
  import opened NotifyRearm

  /** The thread has cleared the live slot and not yet moved a pending trigger into it. */
  predicate HasCleared(l: Local) {
    l.pc.InPublishComplete? || l.pc.InPullComplete? || l.pc == InConfigurePending(MoveFn)
  }

  predicate MovesIntoEmpty(sh: Shared, pub: Local, cli: Local) {
    HasCleared(pub) || HasCleared(cli) || sh.ns.Disabled? || sh.ns.ClientWillReconfigure? ==> sh.onNotify.None?
  }

  // ---------------------------------------------------------------- a pending trigger moves into an empty slot

  lemma PublishKeepsEmpty(sh: Shared, pub: Local, cli: Local, empty: bool)
    requires Both(sh, pub, cli) && MovesIntoEmpty(sh, pub, cli)
    requires pub.pc.InPublishNext?
    ensures var o := Step(sh, pub, empty); MovesIntoEmpty(o.sh, o.l, cli)
  {
  }

  lemma PublishCompleteKeepsEmpty(sh: Shared, pub: Local, cli: Local, empty: bool)
    requires Both(sh, pub, cli) && MovesIntoEmpty(sh, pub, cli)
    requires pub.pc.InPublishComplete?
    ensures var o := Step(sh, pub, empty); MovesIntoEmpty(o.sh, o.l, cli)
  {
  }

  lemma PubMoveKeepsEmpty(sh: Shared, pub: Local, cli: Local, empty: bool)
    requires Both(sh, pub, cli) && MovesIntoEmpty(sh, pub, cli)
    requires pub.pc.InConfigurePending?
    ensures var o := Step(sh, pub, empty); MovesIntoEmpty(o.sh, o.l, cli)
  {
  }

  lemma PushKeepsEmpty(sh: Shared, pub: Local, cli: Local, empty: bool)
    requires Both(sh, pub, cli) && MovesIntoEmpty(sh, pub, cli)
    requires pub.pc.InPushComplete?
    ensures var o := Step(sh, pub, empty); MovesIntoEmpty(o.sh, o.l, cli)
  {
  }

  lemma PubSwitchKeepsEmpty(sh: Shared, pub: Local, cli: Local, empty: bool)
    requires Both(sh, pub, cli) && MovesIntoEmpty(sh, pub, cli)
    requires pub.pc == InNotifyConfigured(Switch)
    ensures var o := Step(sh, pub, empty); MovesIntoEmpty(o.sh, o.l, cli)
  {
  }

  lemma PubConfiguredKeepsEmpty(sh: Shared, pub: Local, cli: Local, empty: bool)
    requires Both(sh, pub, cli) && MovesIntoEmpty(sh, pub, cli)
    requires pub.pc.InNotifyConfigured? && !pub.pc.configAt.Switch?
    ensures var o := Step(sh, pub, empty); MovesIntoEmpty(o.sh, o.l, cli)
  {
  }

  lemma PubOtherKeepsEmpty(sh: Shared, pub: Local, cli: Local, empty: bool)
    requires Both(sh, pub, cli) && MovesIntoEmpty(sh, pub, cli)
    requires !pub.pc.InNotifyConfigured? && !pub.pc.InPublishNext? && !pub.pc.InPublishComplete?
             && !pub.pc.InConfigurePending? && !pub.pc.InPushComplete?
    ensures var o := Step(sh, pub, empty); MovesIntoEmpty(o.sh, o.l, cli)
  {
  }

  lemma PubKeepsEmpty(sh: Shared, pub: Local, cli: Local, empty: bool)
    requires Both(sh, pub, cli) && MovesIntoEmpty(sh, pub, cli)
    ensures var o := Step(sh, pub, empty); MovesIntoEmpty(o.sh, o.l, cli)
  {
    hide Step, Both, MovesIntoEmpty;
    match pub.pc {
      case InPublishNext(_) => PublishKeepsEmpty(sh, pub, cli, empty);
      case InPublishComplete(_) => PublishCompleteKeepsEmpty(sh, pub, cli, empty);
      case InConfigurePending(_) => PubMoveKeepsEmpty(sh, pub, cli, empty);
      case InPushComplete(_) => PushKeepsEmpty(sh, pub, cli, empty);
      case InNotifyConfigured(at) =>
        if at.Switch? { PubSwitchKeepsEmpty(sh, pub, cli, empty); }
        else { PubConfiguredKeepsEmpty(sh, pub, cli, empty); }
      case _ => PubOtherKeepsEmpty(sh, pub, cli, empty);
    }
  }

  lemma RequestKeepsEmpty(sh: Shared, pub: Local, cli: Local, empty: bool)
    requires Both(sh, pub, cli) && MovesIntoEmpty(sh, pub, cli)
    requires cli.pc.InNotifyRequested? && !cli.pc.requestAt.TryNext?
    ensures var o := Step(sh, cli, empty); MovesIntoEmpty(o.sh, pub, o.l)
  {
  }

  lemma RequestWinKeepsEmpty(sh: Shared, pub: Local, cli: Local, empty: bool)
    requires Both(sh, pub, cli) && MovesIntoEmpty(sh, pub, cli)
    requires cli.pc.InNotifyRequested? && cli.pc.requestAt.TryNext? && sh.ns == cli.cur
    ensures var o := Step(sh, cli, empty); MovesIntoEmpty(o.sh, pub, o.l)
  {
  }

  lemma RequestLossKeepsEmpty(sh: Shared, pub: Local, cli: Local, empty: bool)
    requires Both(sh, pub, cli) && MovesIntoEmpty(sh, pub, cli)
    requires cli.pc.InNotifyRequested? && cli.pc.requestAt.TryNext? && sh.ns != cli.cur
    ensures var o := Step(sh, cli, empty); MovesIntoEmpty(o.sh, pub, o.l)
  {
  }

  lemma WriteKeepsEmpty(sh: Shared, pub: Local, cli: Local, empty: bool)
    requires Both(sh, pub, cli) && MovesIntoEmpty(sh, pub, cli)
    requires cli.pc.InOnNextLive? || cli.pc.InOnNextPending?
    ensures var o := Step(sh, cli, empty); MovesIntoEmpty(o.sh, pub, o.l)
  {
  }

  lemma NotifyPendingKeepsEmpty(sh: Shared, pub: Local, cli: Local, empty: bool)
    requires Both(sh, pub, cli) && MovesIntoEmpty(sh, pub, cli)
    requires cli.pc.InNotifyPending?
    ensures var o := Step(sh, cli, empty); MovesIntoEmpty(o.sh, pub, o.l)
  {
  }

  lemma CliMoveKeepsEmpty(sh: Shared, pub: Local, cli: Local, empty: bool)
    requires Both(sh, pub, cli) && MovesIntoEmpty(sh, pub, cli)
    requires cli.pc.InConfigurePending?
    ensures var o := Step(sh, cli, empty); MovesIntoEmpty(o.sh, pub, o.l)
  {
  }

  lemma ConfiguredKeepsEmpty(sh: Shared, pub: Local, cli: Local, empty: bool)
    requires Both(sh, pub, cli) && MovesIntoEmpty(sh, pub, cli)
    requires cli.pc.InNotifyConfigured?
    ensures var o := Step(sh, cli, empty); MovesIntoEmpty(o.sh, pub, o.l)
  {
  }

  lemma PullKeepsEmpty(sh: Shared, pub: Local, cli: Local, empty: bool)
    requires Both(sh, pub, cli) && MovesIntoEmpty(sh, pub, cli)
    requires cli.pc.InPullNext?
    ensures var o := Step(sh, cli, empty); MovesIntoEmpty(o.sh, pub, o.l)
  {
  }

  lemma PullCompleteKeepsEmpty(sh: Shared, pub: Local, cli: Local, empty: bool)
    requires Both(sh, pub, cli) && MovesIntoEmpty(sh, pub, cli)
    requires cli.pc.InPullComplete?
    ensures var o := Step(sh, cli, empty); MovesIntoEmpty(o.sh, pub, o.l)
  {
  }

  lemma CliOtherKeepsEmpty(sh: Shared, pub: Local, cli: Local, empty: bool)
    requires Both(sh, pub, cli) && MovesIntoEmpty(sh, pub, cli)
    requires cli.pc.Idle? || cli.pc.Finish? || cli.pc.Threw? || cli.pc.InPushComplete? || cli.pc.InPublishNext?
             || cli.pc.InPublishComplete?
    ensures var o := Step(sh, cli, empty); MovesIntoEmpty(o.sh, pub, o.l)
  {
  }

  lemma CliKeepsEmpty(sh: Shared, pub: Local, cli: Local, empty: bool)
    requires Both(sh, pub, cli) && MovesIntoEmpty(sh, pub, cli)
    ensures var o := Step(sh, cli, empty); MovesIntoEmpty(o.sh, pub, o.l)
  {
    hide Step, Both, MovesIntoEmpty;
    match cli.pc {
      case InNotifyRequested(at) =>
        if !at.TryNext? { RequestKeepsEmpty(sh, pub, cli, empty); }
        else if sh.ns == cli.cur { RequestWinKeepsEmpty(sh, pub, cli, empty); }
        else { RequestLossKeepsEmpty(sh, pub, cli, empty); }
      case InOnNextLive(_) | InOnNextPending(_) => WriteKeepsEmpty(sh, pub, cli, empty);
      case InNotifyPending(_) => NotifyPendingKeepsEmpty(sh, pub, cli, empty);
      case InConfigurePending(_) => CliMoveKeepsEmpty(sh, pub, cli, empty);
      case InNotifyConfigured(_) => ConfiguredKeepsEmpty(sh, pub, cli, empty);
      case InPullNext(_) => PullKeepsEmpty(sh, pub, cli, empty);
      case InPullComplete(_) => PullCompleteKeepsEmpty(sh, pub, cli, empty);
      case _ => CliOtherKeepsEmpty(sh, pub, cli, empty);
    }
  }

  /** The client's next step stores a trigger over `id`. */
  predicate StoresOver(s: State, id: int) {
    || (s.cli.pc == InOnNextLive(WriteFn) && Holds(s.sh.onNotify, id))
    || (s.cli.pc == InOnNextPending(WriteFn) && Holds(s.sh.pendingFn, id))
  }

  predicate Replaces(s: State, a: Action, id: int) { !HasThrown(s) && a.CliStep? && StoresOver(s, id) }

  /** Only a store drops a trigger: a thread that moves the pending one finds the live slot empty. */
  lemma StepDrops(sh: Shared, l: Local, empty: bool)
    requires l.pc == InConfigurePending(MoveFn) ==> sh.onNotify.None?
    ensures var o := Step(sh, l, empty);
      o.e.Dropped? && o.e.slot.Some? ==>
        || (l.pc == InOnNextLive(WriteFn) && o.e.slot == sh.onNotify)
        || (l.pc == InOnNextPending(WriteFn) && o.e.slot == sh.pendingFn)
  {
    StepFrame(sh, l, empty);
  }

  lemma StoreDrops(sh: Shared, l: Local, empty: bool)
    ensures l.pc == InOnNextLive(WriteFn) ==> Step(sh, l, empty).e == Dropped(sh.onNotify)
    ensures l.pc == InOnNextPending(WriteFn) ==> Step(sh, l, empty).e == Dropped(sh.pendingFn)
  {
  }

  lemma RecordReplaces(h: History, t: Thread, e: Event)
    ensures Record(h, t, e).replaced
            == if e.Dropped? && e.slot.Some? then h.replaced + {e.slot.value} else h.replaced
  {
  }

  predicate Emptied(s: State) { !HasThrown(s) ==> MovesIntoEmpty(s.sh, s.pub, s.cli) }

  lemma PubReplacesNothing(s: State)
    requires Invariant(s) && !HasThrown(s) && CanStep(s.sh, s.pub) && MovesIntoEmpty(s.sh, s.pub, s.cli)
    ensures Take(s, Publisher).h.replaced == s.h.replaced
  {
    var empty := s.data.queue == [];
    StepDrops(s.sh, s.pub, empty);
    RecordReplaces(s.h, Publisher, Step(s.sh, s.pub, empty).e);
  }

  lemma CliReplaces(s: State, id: int)
    requires Invariant(s) && !HasThrown(s) && CanStep(s.sh, s.cli) && MovesIntoEmpty(s.sh, s.pub, s.cli)
    ensures id in Take(s, Client).h.replaced <==> id in s.h.replaced || StoresOver(s, id)
  {
    var empty := s.data.queue == [];
    StepDrops(s.sh, s.cli, empty);
    StoreDrops(s.sh, s.cli, empty);
    RecordReplaces(s.h, Client, Step(s.sh, s.cli, empty).e);
    hide Step, Record;
  }

  lemma ApplyReplaces(s: State, a: Action, id: int)
    requires Invariant(s) && Emptied(s)
    ensures Emptied(Apply(s, a))
    ensures id in Apply(s, a).h.replaced <==> id in s.h.replaced || Replaces(s, a, id)
  {
    var empty := s.data.queue == [];
    if HasThrown(s) {
    } else if a.PubStep? && CanStep(s.sh, s.pub) {
      PubReplacesNothing(s);
      PubKeepsEmpty(s.sh, s.pub, s.cli, empty);
      hide Step;
    } else if a.CliStep? && CanStep(s.sh, s.cli) {
      CliReplaces(s, id);
      CliKeepsEmpty(s.sh, s.pub, s.cli, empty);
      hide Step;
    }
  }

  // ---------------------------------------------------------------- all runs

  lemma {:induction false} RunEmptied(s: State, actions: seq<Action>)
    requires Init(s)
    ensures Invariant(Exec(s, actions)) && Emptied(Exec(s, actions))
    decreases |actions|
  {
    InitInvariant(s);
    if actions != [] {
      var most := actions[..|actions| - 1];
      RunEmptied(s, most);
      ApplyKeeps(Exec(s, most), actions[|actions| - 1]);
      ApplyReplaces(Exec(s, most), actions[|actions| - 1], 0);
    }
  }

  /** At some point of the run the client stored another trigger over `id`. */
  ghost predicate ReplacedIn(s: State, actions: seq<Action>, id: int) {
    exists i :: 0 <= i < |actions| && Replaces(Exec(s, actions[..i]), actions[i], id)
  }

  lemma ReplacedInMore(s: State, actions: seq<Action>, id: int)
    requires actions != []
    ensures var n := |actions| - 1;
      ReplacedIn(s, actions, id) <==> ReplacedIn(s, actions[..n], id) || Replaces(Exec(s, actions[..n]), actions[n], id)
  {
    hide Exec, Replaces;
    var n := |actions| - 1;
    var most := actions[..n];
    assert forall i :: 0 <= i < n ==> most[..i] == actions[..i] && most[i] == actions[i];
    if ReplacedIn(s, actions, id) {
      var i :| 0 <= i < |actions| && Replaces(Exec(s, actions[..i]), actions[i], id);
      if i < n { assert Replaces(Exec(s, most[..i]), most[i], id); }
    }
    if ReplacedIn(s, most, id) {
      var i :| 0 <= i < n && Replaces(Exec(s, most[..i]), most[i], id);
      assert Replaces(Exec(s, actions[..i]), actions[i], id);
    }
  }

  /** In every run a trigger is replaced if and only if the client at some point stored another one over
      it, in the live or the pending slot; the publisher never replaces any. */
  lemma {:induction false} ReplacedExactly(s: State, actions: seq<Action>, id: int)
    requires Init(s)
    ensures id in Exec(s, actions).h.replaced <==> ReplacedIn(s, actions, id)
    decreases |actions|
  {
    if actions != [] {
      var most, a := actions[..|actions| - 1], actions[|actions| - 1];
      ReplacedExactly(s, most, id);
      RunEmptied(s, most);
      ApplyReplaces(Exec(s, most), a, id);
      ReplacedInMore(s, actions, id);
      hide Apply, Replaces, ReplacedIn;
    }
  }

  predicate Latest(s: State) {
    s.h.issued - 1 !in s.h.replaced && (s.h.issued > 0 ==> s.cli.fn == s.h.issued - 1)
  }

  /** The trigger issued last has not been replaced. */
  lemma {:induction false} LatestKept(s: State, actions: seq<Action>)
    requires Init(s)
    ensures Latest(Exec(s, actions))
    decreases |actions|
  {
    hide Apply, Accounted, Invariant, Emptied;
    if actions != [] {
      var most, a := actions[..|actions| - 1], actions[|actions| - 1];
      var m := Exec(s, most);
      LatestKept(s, most);
      RunEmptied(s, most);
      AccountedSinceInit(s, most, m.h.issued);
      AccountedSinceInit(s, most, m.h.issued - 1);
      ApplyLatest(m, a);
      hide Latest;
    }
  }

  lemma AccountedSinceInit(s: State, actions: seq<Action>, id: int)
    requires Init(s)
    ensures Accounted(Exec(s, actions), id)
  {
    InitInvariant(s);
    RunAccounted(s, actions, id);
  }

  lemma ApplyLatest(s: State, a: Action)
    requires Invariant(s) && Emptied(s) && Accounted(s, s.h.issued) && Accounted(s, s.h.issued - 1)
    requires Latest(s)
    ensures Latest(Apply(s, a))
  {
    ApplyReplaces(s, a, s.h.issued - 1);
    LatestNotStoredOver(s);
    FreshNotReplaced(s);
    hide Accounted, Invariant, Emptied, StoresOver, Take;
    match a {
      case PubStep => TakeIssues(s, Publisher);
      case CliStep => TakeIssues(s, Client);
      case _ =>
    }
  }

  lemma LatestNotStoredOver(s: State)
    requires Invariant(s) && Accounted(s, s.h.issued - 1) && Latest(s)
    ensures !HasThrown(s) ==> !StoresOver(s, s.h.issued - 1)
  {
  }

  lemma FreshNotReplaced(s: State)
    requires Accounted(s, s.h.issued)
    ensures s.h.issued !in s.h.replaced
  {
  }

  lemma TakeIssues(s: State, t: Thread)
    ensures var n := Take(s, t); n.h.issued == s.h.issued && n.cli.fn == s.cli.fn
  {
    StepFrame(s.sh, LocalOf(s, t), s.data.queue == []);
    RecordIssues(s.h, t, Step(s.sh, LocalOf(s, t), s.data.queue == []).e);
    hide Step, Record;
  }

  lemma RecordIssues(h: History, t: Thread, e: Event)
    ensures Record(h, t, e).issued == h.issued
  {
  }

  // ---------------------------------------------------------------- what a caller can do about it

  lemma StoresOverNothing(s: State, id: int)
    requires Rearming(s) && forall i :: Accounted(s, i)
    ensures !StoresOver(s, id)
  {
    assert Accounted(s, s.cli.fn) && Accounted(s, id);
  }

  /** Whoever arms a trigger only when the last has fired, and never inside a pull, has none of them
      replaced. */
  lemma {:induction false} RearmingReplacesNone(s: State, actions: seq<Action>)
    requires Init(s) && RearmRun(s, actions)
    ensures Exec(s, actions).h.replaced == {}
    decreases |actions|
  {
    if actions != [] {
      var most, a := actions[..|actions| - 1], actions[|actions| - 1];
      var m := Exec(s, most);
      RearmingReplacesNone(s, most);
      RearmingClientsAreSafe(s, most);
      RunEmptied(s, most);
      forall id ensures Accounted(m, id) { AccountedSinceInit(s, most, id); }
      forall id ensures id !in Apply(m, a).h.replaced {
        StoresOverNothing(m, id);
        ApplyReplaces(m, a, id);
      }
    }
  }

  /** Whoever arms one while another is live and nothing has come for it, or while another is pending,
      loses that one unless the publisher gets in first: three steps of the client alone replace it. */
  lemma InstallOverUnfired(s: State, posted: bool, id: int)
    requires Invariant(s) && !HasThrown(s) && s.cli.pc.Idle? && !s.data.aborted
    requires (s.sh.ns.NothingToNotify? && Holds(s.sh.onNotify, id))
             || (s.sh.ns.PubWillReconfigure? && Holds(s.sh.pendingFn, id))
    ensures var asked := Apply(Apply(Apply(s, CliInstall(posted)), CliStep), CliStep);
      StoresOver(asked, id) && id in Apply(asked, CliStep).h.replaced
  {
    var s2 := Apply(Apply(s, CliInstall(posted)), CliStep);
    AsksFirst(s, posted);
    TakesSlot(s2, id);
    var s3 := Apply(s2, CliStep);
    StoreDrops(s3.sh, s3.cli, s3.data.queue == []);
    hide Step;
  }

  lemma AsksFirst(s: State, posted: bool)
    requires Invariant(s) && !HasThrown(s) && s.cli.pc.Idle? && !s.data.aborted
    ensures var n := Apply(Apply(s, CliInstall(posted)), CliStep);
      n.cli.cur == s.sh.ns && n.cli.pc == InNotifyRequested(TryNext) && n.sh == s.sh && !HasThrown(n)
  {
    hide Invariant;
  }

  lemma TakesSlot(s: State, id: int)
    requires !HasThrown(s) && s.cli.pc == InNotifyRequested(TryNext) && s.cli.cur == s.sh.ns
    requires (s.sh.ns.NothingToNotify? && Holds(s.sh.onNotify, id))
             || (s.sh.ns.PubWillReconfigure? && Holds(s.sh.pendingFn, id))
    ensures var n := Apply(s, CliStep); StoresOver(n, id) && !HasThrown(n)
  {
  }
}
