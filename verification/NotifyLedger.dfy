/** What becomes of every trigger handed to `OnNextMessage`. */
module NotifyLedger {
  import opened Wrappers
  import opened NotifyModel
  import opened NotifyInvariant

  /** The client holds trigger `id` in a call that has not stored it yet, or that threw before. */
  predicate BeingInstalled(cli: Local, id: int) {
    && cli.fn == id
    && match cli.pc
       case InNotifyRequested(_) => true
       case InOnNextLive(at) => at.WriteFn?
       case InOnNextPending(at) => at.WriteFn?
       case Threw(loop) => loop.NotifyRequested?
       case _ => false
  }

  /** The trigger in the live slot has been fired by this thread and only waits to be cleared. */
  predicate SpentBy(l: Local) {
    || ((l.pc.InPublishNext? || l.pc.InPullNext?)
        && (l.pc.fireAt.Running? || l.pc.fireAt.ClearTarget? || l.pc.fireAt.ClearFn?))
    || l.depth != 0
  }

  datatype Status = Installing | Pending | Live | HasFired | Replaced

  predicate Has(s: State, id: int, status: Status) {
    match status
    case Installing => BeingInstalled(s.cli, id)
    case Pending => Holds(s.sh.pendingFn, id)
    case Live => Holds(s.sh.onNotify, id) && !SpentBy(s.pub) && !SpentBy(s.cli)
    case HasFired => id in s.h.fired
    case Replaced => id in s.h.replaced
  }

  predicate Holds(slot: Option<int>, id: int) { slot.Some? && slot.value == id }

  function Count(b: bool): int { if b then 1 else 0 }

  /** The places in the protocol trigger `id` is in, as thread `l` sees it; `spent` says that the
      other thread has fired the live slot. */
  function Places(sh: Shared, l: Local, spent: bool, id: int): int {
    Count(BeingInstalled(l, id)) + Count(Holds(sh.pendingFn, id))
    + Count(Holds(sh.onNotify, id) && !SpentBy(l) && !spent)
  }

  function Leaves(e: Event, id: int): int {
    Count(e.Fired? && e.id == id) + Count(e.Dropped? && Holds(e.slot, id))
  }

  /** A step moves a trigger from place to place, or out by firing or dropping it. */
  predicate Moves(sh: Shared, l: Local, o: Outcome, spent: bool, id: int) {
    Places(o.sh, o.l, spent, id) + Leaves(o.e, id) == Places(sh, l, spent, id)
  }

  /** What a thread must have to itself before it touches the live slot. */
  predicate Exclusive(sh: Shared, l: Local, spent: bool) {
    && (WritesLive(l.pc) || Fires(l.pc) ==> !spent)
    && (l.depth != 0 ==>
          || l.pc.InNotifyRequested? || l.pc.InOnNextPending? || l.pc.InNotifyPending?
          || (l.pc.InPullNext? && l.pc.fireAt.Running?))
    && (l.pc.InPullNext? && l.pc.fireAt.Running? ==> l.depth == 1)
  }

  lemma PushMoves(sh: Shared, l: Local, spent: bool, id: int, empty: bool)
    requires l.pc.InPushComplete?
    ensures Moves(sh, l, Step(sh, l, empty), spent, id)
  {
    PushFrame(sh, l, empty);
  }

  lemma NotifyPendingReadMoves(sh: Shared, l: Local, spent: bool, id: int, empty: bool)
    requires l.pc.InNotifyPending? && l.pc.loopAt.Read?
    ensures Moves(sh, l, Step(sh, l, empty), spent, id)
  {
  }

  lemma NotifyPendingWinMoves(sh: Shared, l: Local, spent: bool, id: int, empty: bool)
    requires l.pc.InNotifyPending? && sh.ns == l.cur && l.pc.loopAt.Try?
    ensures Moves(sh, l, Step(sh, l, empty), spent, id)
  {
  }

  lemma NotifyPendingLossMoves(sh: Shared, l: Local, spent: bool, id: int, empty: bool)
    requires l.pc.InNotifyPending? && sh.ns != l.cur && l.pc.loopAt.Try?
    ensures Moves(sh, l, Step(sh, l, empty), spent, id)
  {
  }

  lemma NotifyPendingMoves(sh: Shared, l: Local, spent: bool, id: int, empty: bool)
    requires l.pc.InNotifyPending?
    ensures Moves(sh, l, Step(sh, l, empty), spent, id)
  {
    hide Step, Moves, Exclusive;
    if l.pc.loopAt.Read? { NotifyPendingReadMoves(sh, l, spent, id, empty); }
    else if sh.ns == l.cur { NotifyPendingWinMoves(sh, l, spent, id, empty); }
    else { NotifyPendingLossMoves(sh, l, spent, id, empty); }
  }

  lemma PublishCompleteReadMoves(sh: Shared, l: Local, spent: bool, id: int, empty: bool)
    requires l.pc.InPublishComplete? && l.pc.loopAt.Read?
    ensures Moves(sh, l, Step(sh, l, empty), spent, id)
  {
  }

  lemma PublishCompleteWinMoves(sh: Shared, l: Local, spent: bool, id: int, empty: bool)
    requires l.pc.InPublishComplete? && sh.ns == l.cur && l.pc.loopAt.Try?
    ensures Moves(sh, l, Step(sh, l, empty), spent, id)
  {
  }

  lemma PublishCompleteLossMoves(sh: Shared, l: Local, spent: bool, id: int, empty: bool)
    requires l.pc.InPublishComplete? && sh.ns != l.cur && l.pc.loopAt.Try?
    ensures Moves(sh, l, Step(sh, l, empty), spent, id)
  {
  }

  lemma PublishCompleteMoves(sh: Shared, l: Local, spent: bool, id: int, empty: bool)
    requires l.pc.InPublishComplete?
    ensures Moves(sh, l, Step(sh, l, empty), spent, id)
  {
    hide Step, Moves, Exclusive;
    if l.pc.loopAt.Read? { PublishCompleteReadMoves(sh, l, spent, id, empty); }
    else if sh.ns == l.cur { PublishCompleteWinMoves(sh, l, spent, id, empty); }
    else { PublishCompleteLossMoves(sh, l, spent, id, empty); }
  }

  lemma PullCompleteReadMoves(sh: Shared, l: Local, spent: bool, id: int, empty: bool)
    requires l.pc.InPullComplete? && l.pc.loopAt.Read?
    ensures Moves(sh, l, Step(sh, l, empty), spent, id)
  {
  }

  lemma PullCompleteWinMoves(sh: Shared, l: Local, spent: bool, id: int, empty: bool)
    requires l.pc.InPullComplete? && sh.ns == l.cur && l.pc.loopAt.Try?
    ensures Moves(sh, l, Step(sh, l, empty), spent, id)
  {
  }

  lemma PullCompleteLossMoves(sh: Shared, l: Local, spent: bool, id: int, empty: bool)
    requires l.pc.InPullComplete? && sh.ns != l.cur && l.pc.loopAt.Try?
    ensures Moves(sh, l, Step(sh, l, empty), spent, id)
  {
  }

  lemma PullCompleteMoves(sh: Shared, l: Local, spent: bool, id: int, empty: bool)
    requires l.pc.InPullComplete?
    ensures Moves(sh, l, Step(sh, l, empty), spent, id)
  {
    hide Step, Moves, Exclusive;
    if l.pc.loopAt.Read? { PullCompleteReadMoves(sh, l, spent, id, empty); }
    else if sh.ns == l.cur { PullCompleteWinMoves(sh, l, spent, id, empty); }
    else { PullCompleteLossMoves(sh, l, spent, id, empty); }
  }

  lemma PublishCallMoves(sh: Shared, l: Local, spent: bool, id: int, empty: bool)
    requires Exclusive(sh, l, spent) && l.pc.InPublishNext?
             && (l.pc.fireAt.Test? || l.pc.fireAt.Post? || l.pc.fireAt.Call?)
    ensures Moves(sh, l, Step(sh, l, empty), spent, id)
  {
  }

  lemma PublishClearMoves(sh: Shared, l: Local, spent: bool, id: int, empty: bool)
    requires Exclusive(sh, l, spent) && l.pc.InPublishNext?
    requires l.pc.fireAt.Running? || l.pc.fireAt.ClearTarget? || l.pc.fireAt.ClearFn?
    ensures Moves(sh, l, Step(sh, l, empty), spent, id)
  {
  }

  lemma PublishMoves(sh: Shared, l: Local, spent: bool, id: int, empty: bool)
    requires Exclusive(sh, l, spent) && l.pc.InPublishNext?
    ensures Moves(sh, l, Step(sh, l, empty), spent, id)
  {
    hide Step, Moves, Exclusive;
    if l.pc.fireAt.Test? || l.pc.fireAt.Post? || l.pc.fireAt.Call? { PublishCallMoves(sh, l, spent, id, empty); }
    else { PublishClearMoves(sh, l, spent, id, empty); }
  }

  lemma PullCallMoves(sh: Shared, l: Local, spent: bool, id: int, empty: bool)
    requires Exclusive(sh, l, spent) && l.pc.InPullNext?
             && (l.pc.fireAt.Test? || l.pc.fireAt.Post? || l.pc.fireAt.Call?)
    ensures Moves(sh, l, Step(sh, l, empty), spent, id)
  {
  }

  lemma PullClearMoves(sh: Shared, l: Local, spent: bool, id: int, empty: bool)
    requires Exclusive(sh, l, spent) && l.pc.InPullNext?
    requires l.pc.fireAt.Running? || l.pc.fireAt.ClearTarget? || l.pc.fireAt.ClearFn?
    ensures Moves(sh, l, Step(sh, l, empty), spent, id)
  {
  }

  lemma PullMoves(sh: Shared, l: Local, spent: bool, id: int, empty: bool)
    requires Exclusive(sh, l, spent) && l.pc.InPullNext?
    ensures Moves(sh, l, Step(sh, l, empty), spent, id)
  {
    hide Step, Moves, Exclusive;
    if l.pc.fireAt.Test? || l.pc.fireAt.Post? || l.pc.fireAt.Call? { PullCallMoves(sh, l, spent, id, empty); }
    else { PullClearMoves(sh, l, spent, id, empty); }
  }

  lemma LiveMoves(sh: Shared, l: Local, spent: bool, id: int, empty: bool)
    requires Exclusive(sh, l, spent) && l.pc.InOnNextLive?
    ensures Moves(sh, l, Step(sh, l, empty), spent, id)
  {
  }

  lemma PendingFnMoves(sh: Shared, l: Local, spent: bool, id: int, empty: bool)
    requires Exclusive(sh, l, spent) && l.pc == InOnNextPending(WriteFn)
    ensures Moves(sh, l, Step(sh, l, empty), spent, id)
  {
  }

  lemma PendingTargetMoves(sh: Shared, l: Local, spent: bool, id: int, empty: bool)
    requires Exclusive(sh, l, spent) && l.pc == InOnNextPending(WriteTarget)
    ensures Moves(sh, l, Step(sh, l, empty), spent, id)
  {
  }

  lemma MoveFnMoves(sh: Shared, l: Local, spent: bool, id: int, empty: bool)
    requires Exclusive(sh, l, spent) && l.pc == InConfigurePending(MoveFn)
    ensures Moves(sh, l, Step(sh, l, empty), spent, id)
  {
  }

  lemma MoveTargetMoves(sh: Shared, l: Local, spent: bool, id: int, empty: bool)
    requires l.pc.InConfigurePending? && !l.pc.moveAt.MoveFn?
    ensures Moves(sh, l, Step(sh, l, empty), spent, id)
  {
  }

  lemma RequestMoves(sh: Shared, l: Local, spent: bool, id: int, empty: bool)
    requires l.pc.InNotifyRequested? && !l.pc.requestAt.TryNext?
    ensures Moves(sh, l, Step(sh, l, empty), spent, id)
  {
  }

  lemma RequestWinMoves(sh: Shared, l: Local, spent: bool, id: int, empty: bool)
    requires l.pc.InNotifyRequested? && l.pc.requestAt.TryNext? && sh.ns == l.cur
    ensures Moves(sh, l, Step(sh, l, empty), spent, id)
  {
  }

  lemma RequestLossMoves(sh: Shared, l: Local, spent: bool, id: int, empty: bool)
    requires l.pc.InNotifyRequested? && l.pc.requestAt.TryNext? && sh.ns != l.cur
    ensures Moves(sh, l, Step(sh, l, empty), spent, id)
  {
  }

  lemma SwitchWinMoves(sh: Shared, l: Local, spent: bool, id: int, empty: bool)
    requires Exclusive(sh, l, spent) && l.pc == InNotifyConfigured(Switch) && sh.ns == l.cur
    ensures Moves(sh, l, Step(sh, l, empty), spent, id)
  {
  }

  lemma SwitchLossMoves(sh: Shared, l: Local, spent: bool, id: int, empty: bool)
    requires Exclusive(sh, l, spent) && l.pc == InNotifyConfigured(Switch) && sh.ns != l.cur
    ensures Moves(sh, l, Step(sh, l, empty), spent, id)
  {
  }

  lemma SwitchMoves(sh: Shared, l: Local, spent: bool, id: int, empty: bool)
    requires Exclusive(sh, l, spent) && l.pc == InNotifyConfigured(Switch)
    ensures Moves(sh, l, Step(sh, l, empty), spent, id)
  {
    hide Step, Moves, Exclusive;
    if sh.ns == l.cur { SwitchWinMoves(sh, l, spent, id, empty); } else { SwitchLossMoves(sh, l, spent, id, empty); }
  }

  lemma TestedMoves(sh: Shared, l: Local, spent: bool, id: int, empty: bool)
    requires l.pc == InNotifyConfigured(TryTested)
    ensures Moves(sh, l, Step(sh, l, empty), spent, id)
  {
  }

  lemma ConfiguredMoves(sh: Shared, l: Local, spent: bool, id: int, empty: bool)
    requires l.pc.InNotifyConfigured? && (l.pc.configAt.ReadNow? || l.pc.configAt.Wake?)
    ensures Moves(sh, l, Step(sh, l, empty), spent, id)
  {
  }

  lemma RestMoves(sh: Shared, l: Local, spent: bool, id: int, empty: bool)
    requires l.pc.Idle? || l.pc.Finish? || l.pc.Threw?
    ensures Moves(sh, l, Step(sh, l, empty), spent, id)
  {
  }

  lemma StepMoves(sh: Shared, l: Local, spent: bool, id: int, empty: bool)
    requires Exclusive(sh, l, spent)
    ensures Moves(sh, l, Step(sh, l, empty), spent, id)
  {
    hide Step, Moves, Exclusive;
    match l.pc {
      case InPushComplete(_) => PushMoves(sh, l, spent, id, empty);
      case InNotifyPending(_) => NotifyPendingMoves(sh, l, spent, id, empty);
      case InPublishComplete(_) => PublishCompleteMoves(sh, l, spent, id, empty);
      case InPullComplete(_) => PullCompleteMoves(sh, l, spent, id, empty);
      case InPublishNext(_) => PublishMoves(sh, l, spent, id, empty);
      case InPullNext(_) => PullMoves(sh, l, spent, id, empty);
      case InOnNextLive(_) => LiveMoves(sh, l, spent, id, empty);
      case InOnNextPending(at) =>
        if at.WriteFn? { PendingFnMoves(sh, l, spent, id, empty); }
        else { PendingTargetMoves(sh, l, spent, id, empty); }
      case InConfigurePending(at) =>
        if at.MoveFn? { MoveFnMoves(sh, l, spent, id, empty); } else { MoveTargetMoves(sh, l, spent, id, empty); }
      case InNotifyRequested(at) =>
        if !at.TryNext? { RequestMoves(sh, l, spent, id, empty); }
        else if sh.ns == l.cur { RequestWinMoves(sh, l, spent, id, empty); }
        else { RequestLossMoves(sh, l, spent, id, empty); }
      case InNotifyConfigured(at) =>
        if at.Switch? { SwitchMoves(sh, l, spent, id, empty); }
        else if at.TryTested? { TestedMoves(sh, l, spent, id, empty); }
        else { ConfiguredMoves(sh, l, spent, id, empty); }
      case Idle | Finish | Threw(_) => RestMoves(sh, l, spent, id, empty);
    }
  }

  // ---------------------------------------------------------------- all runs

  /** Every place trigger `id` is in, and every time it fired. */
  function Tally(s: State, id: int): int {
    Count(BeingInstalled(s.cli, id)) + Count(Holds(s.sh.pendingFn, id))
    + Count(Holds(s.sh.onNotify, id) && !SpentBy(s.pub) && !SpentBy(s.cli))
    + s.h.fired[id] + Count(id in s.h.replaced)
  }

  predicate Accounted(s: State, id: int) {
    s.h.issued >= 0 && Tally(s, id) == Count(0 <= id < s.h.issued)
  }

  lemma RecordLeaves(h: History, t: Thread, e: Event, id: int)
    requires Count(id in h.replaced) + Leaves(e, id) <= 1
    ensures var r := Record(h, t, e);
      && r.fired[id] + Count(id in r.replaced) == h.fired[id] + Count(id in h.replaced) + Leaves(e, id)
      && r.issued == h.issued
  {
  }

  lemma PubExclusive(s: State)
    requires Invariant(s) && !HasThrown(s)
    ensures Exclusive(s.sh, s.pub, SpentBy(s.cli))
  {
  }

  lemma CliExclusive(s: State)
    requires Invariant(s) && !HasThrown(s)
    ensures Exclusive(s.sh, s.cli, SpentBy(s.pub))
  {
  }

  lemma PubAccounted(s: State, id: int)
    requires Invariant(s) && !HasThrown(s) && CanStep(s.sh, s.pub) && Accounted(s, id)
    ensures Accounted(Take(s, Publisher), id)
  {
    var empty := s.data.queue == [];
    PubExclusive(s);
    StepMoves(s.sh, s.pub, SpentBy(s.cli), id, empty);
    RecordLeaves(s.h, Publisher, Step(s.sh, s.pub, empty).e, id);
    PubNeverInstalls(s.sh, s.pub, CliPhaseOf(s.sh.handoff, s.cli), empty, id);
  }

  lemma PubNeverInstalls(sh: Shared, pub: Local, c: CliPhase, empty: bool, id: int)
    requires PubSide(sh, pub, c)
    ensures !BeingInstalled(pub, id) && !BeingInstalled(Step(sh, pub, empty).l, id)
  {
    PubStepKeeps(sh, pub, c, empty);
  }

  lemma CliAccounted(s: State, id: int)
    requires Invariant(s) && !HasThrown(s) && CanStep(s.sh, s.cli) && Accounted(s, id)
    ensures Accounted(Take(s, Client), id)
  {
    var empty := s.data.queue == [];
    CliExclusive(s);
    StepMoves(s.sh, s.cli, SpentBy(s.pub), id, empty);
    RecordLeaves(s.h, Client, Step(s.sh, s.cli, empty).e, id);
  }

  lemma InstallAccounted(s: State, posted: bool, id: int)
    requires Invariant(s) && !HasThrown(s) && Accounted(s, id)
    requires AtUserCode(s.cli) && !s.data.aborted
    ensures Accounted(Apply(s, CliInstall(posted)), id)
  {
    var r := Apply(s, CliInstall(posted));
    assert SpentBy(r.cli) == SpentBy(s.cli);
    assert BeingInstalled(r.cli, id) == (id == s.h.issued);
  }

  lemma ApplyAccounted(s: State, a: Action, id: int)
    requires Invariant(s) && Accounted(s, id)
    ensures Accounted(Apply(s, a), id)
  {
    if HasThrown(s) {
    } else if a.PubStep? && CanStep(s.sh, s.pub) {
      PubAccounted(s, id);
    } else if a.CliStep? && CanStep(s.sh, s.cli) {
      CliAccounted(s, id);
    } else if a.CliInstall? && AtUserCode(s.cli) && !s.data.aborted {
      InstallAccounted(s, a.posted, id);
    }
  }

  lemma {:induction false} RunAccounted(s: State, actions: seq<Action>, id: int)
    requires Invariant(s) && Accounted(s, id)
    ensures Invariant(Exec(s, actions)) && Accounted(Exec(s, actions), id)
    decreases |actions|
  {
    if actions != [] {
      var most := actions[..|actions| - 1];
      RunAccounted(s, most, id);
      ApplyKeeps(Exec(s, most), actions[|actions| - 1]);
      ApplyAccounted(Exec(s, most), actions[|actions| - 1], id);
    }
  }

  /** In every run, every trigger handed to `OnNextMessage` has exactly one status - being
      installed, pending, live, fired, or replaced - and fires at most once. */
  lemma OneStatusPerTrigger(s: State, actions: seq<Action>, id: int)
    requires Init(s)
    ensures var e := Exec(s, actions);
      && e.h.fired[id] <= 1
      && (0 <= id < e.h.issued ==> exists st :: Has(e, id, st) && forall other :: Has(e, id, other) ==> other == st)
      && (!(0 <= id < e.h.issued) ==> forall st :: !Has(e, id, st))
  {
    InitInvariant(s);
    RunAccounted(s, actions, id);
    var e := Exec(s, actions);
    if 0 <= id < e.h.issued {
      var st := if BeingInstalled(e.cli, id) then Installing
                else if Holds(e.sh.pendingFn, id) then Pending
                else if id in e.h.fired then HasFired
                else if id in e.h.replaced then Replaced
                else Live;
      assert Has(e, id, st);
    }
  }

  lemma RecordKeepsHistory(h: History, t: Thread, e: Event)
    ensures h.fired <= Record(h, t, e).fired && h.replaced <= Record(h, t, e).replaced
  {
  }

  lemma ApplyKeepsHistory(s: State, a: Action)
    ensures s.h.fired <= Apply(s, a).h.fired
    ensures s.h.replaced <= Apply(s, a).h.replaced
  {
    RecordKeepsHistory(s.h, Publisher, Step(s.sh, s.pub, s.data.queue == []).e);
    RecordKeepsHistory(s.h, Client, Step(s.sh, s.cli, s.data.queue == []).e);
  }

  lemma {:induction false} RunKeepsHistory(s: State, actions: seq<Action>)
    ensures s.h.fired <= Exec(s, actions).h.fired
    ensures s.h.replaced <= Exec(s, actions).h.replaced
    decreases |actions|
  {
    if actions != [] {
      RunKeepsHistory(s, actions[..|actions| - 1]);
      ApplyKeepsHistory(Exec(s, actions[..|actions| - 1]), actions[|actions| - 1]);
    }
  }

  /** A trigger that was replaced never fires, and one that fired is never live again, however
      the run goes on. */
  lemma {:induction false} ReplacedNeverFires(s: State, first: seq<Action>, later: seq<Action>, id: int)
    requires Init(s)
    ensures var m := Exec(s, first); var e := Exec(m, later);
      && (id in m.h.replaced ==> id !in e.h.fired)
      && (id in m.h.fired ==>
            Has(e, id, HasFired) && !Has(e, id, Pending) && !Has(e, id, Live) && !Has(e, id, Installing))
  {
    InitInvariant(s);
    RunAccounted(s, first, id);
    RunAccounted(Exec(s, first), later, id);
    RunKeepsHistory(Exec(s, first), later);
  }

  lemma ApplyAborted(s: State, a: Action)
    requires s.data.aborted
    ensures Apply(s, a).data.aborted && Apply(s, a).h.issued == s.h.issued
  {
    if a.PubStep? { StepFrame(s.sh, s.pub, s.data.queue == []); }
    hide Step;
  }

  lemma {:induction false} RunAborted(s: State, actions: seq<Action>)
    requires s.data.aborted
    ensures Exec(s, actions).data.aborted && Exec(s, actions).h.issued == s.h.issued
    decreases |actions|
  {
    if actions != [] {
      RunAborted(s, actions[..|actions| - 1]);
      ApplyAborted(Exec(s, actions[..|actions| - 1]), actions[|actions| - 1]);
      hide Apply;
    }
  }

  /** The trigger an aborted client would install is never numbered and never fires, however the run goes on;
      so a promise it was to set is never set. */
  lemma {:induction false} AbortedNeverNotified(s: State, before: seq<Action>, after: seq<Action>)
    requires Init(s) && Exec(s, before).data.aborted
    ensures var b, e := Exec(s, before), Exec(Exec(s, before), after);
      e.h.issued == b.h.issued && b.h.issued !in e.h.fired
  {
    var b := Exec(s, before);
    RunAborted(b, after);
    InitInvariant(s);
    RunAccounted(s, before, b.h.issued);
    RunAccounted(b, after, b.h.issued);
    hide Exec;
  }
}
