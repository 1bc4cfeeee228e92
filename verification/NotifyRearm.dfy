/** Clients that arm a trigger only after the previous one has fired, as `WorkerThread` does. */
module NotifyRearm {
  import opened Wrappers
  import opened NotifyModel
  import opened NotifyInvariant
  import opened NotifyLedger

  /** Every trigger issued so far has fired. */
  predicate AllFired(h: History) {
    forall id :: 0 <= id < h.issued ==> id in h.fired
  }

  /** A trigger is armed from outside any pull, and only when all earlier ones have fired. */
  predicate Rearms(s: State, a: Action) {
    a.CliInstall? ==> s.cli.pc.Idle? && AllFired(s.h)
  }

  predicate RearmRun(s: State, actions: seq<Action>)
    decreases |actions|
  {
    actions == [] ||
    (var most := actions[..|actions| - 1];
     RearmRun(s, most) && Rearms(Exec(s, most), actions[|actions| - 1]))
  }

  /** The client asks for a slot only in Disabled or Publishing. */
  predicate AsksCleanly(sh: Shared, cli: Local) {
    && !sh.handoff
    && (cli.depth != 0 ==> cli.pc.InPullNext?)
    && (cli.pc.InNotifyRequested? && cli.pc.requestAt.TryNext? ==> cli.cur.Disabled? || cli.cur.Publishing?)
  }

  predicate Rearming(s: State) {
    && Invariant(s) && !HasThrown(s) && AsksCleanly(s.sh, s.cli)
    && (forall id :: 0 <= id < s.h.issued - 1 ==> id in s.h.fired)
    && (s.h.issued > 0 ==> s.cli.fn == s.h.issued - 1)
    && (!s.cli.pc.Idle? ==> s.h.issued > 0)
  }

  /** While the client asks, its own trigger is the only one that has not fired, so both slots are
      free or spent. */
  lemma SlotsFreeWhileAsking(s: State)
    requires Rearming(s) && s.cli.pc.InNotifyRequested?
    requires forall id :: Accounted(s, id)
    ensures s.sh.ns.Disabled? || s.sh.ns.Publishing?
  {
    var pending := if s.sh.pendingFn.Some? then s.sh.pendingFn.value else s.cli.fn;
    var live := if s.sh.onNotify.Some? then s.sh.onNotify.value else s.cli.fn;
    assert Accounted(s, s.cli.fn) && Accounted(s, pending) && Accounted(s, live);
  }

  lemma AsksOnCleanly(sh: Shared, cli: Local, p: PubPhase, empty: bool)
    requires CliSide(sh, cli, p) && CanStep(sh, cli) && AsksCleanly(sh, cli)
    requires cli.pc.InNotifyRequested? ==> sh.ns.Disabled? || sh.ns.Publishing?
    ensures var o := Step(sh, cli, empty); !o.l.pc.Threw? && AsksCleanly(o.sh, o.l)
  {
    if cli.pc.InNotifyRequested? {
      RequestsCleanly(sh, cli, p, empty);
    } else if cli.pc.InNotifyConfigured? {
      ConfiguresCleanly(sh, cli, p, empty);
    } else if cli.pc.InNotifyPending? || cli.pc.InPullComplete? {
      LoopsCleanly(sh, cli, p, empty);
    } else {
      WalksCleanly(sh, cli, p, empty);
    }
  }

  lemma ConfiguresCleanly(sh: Shared, cli: Local, p: PubPhase, empty: bool)
    requires CliSide(sh, cli, p) && AsksCleanly(sh, cli) && cli.pc.InNotifyConfigured?
    ensures var o := Step(sh, cli, empty); !o.l.pc.Threw? && AsksCleanly(o.sh, o.l)
  {
  }

  lemma LoopsCleanly(sh: Shared, cli: Local, p: PubPhase, empty: bool)
    requires CliSide(sh, cli, p) && CanStep(sh, cli) && AsksCleanly(sh, cli)
    requires cli.pc.InNotifyPending? || cli.pc.InPullComplete?
    ensures var o := Step(sh, cli, empty); !o.l.pc.Threw? && AsksCleanly(o.sh, o.l)
  {
  }

  lemma WalksCleanly(sh: Shared, cli: Local, p: PubPhase, empty: bool)
    requires CliSide(sh, cli, p) && CanStep(sh, cli) && AsksCleanly(sh, cli)
    requires cli.pc.InOnNextLive? || cli.pc.InOnNextPending? || cli.pc.InConfigurePending? || cli.pc.InPullNext?
             || cli.pc.Finish?
    ensures var o := Step(sh, cli, empty); !o.l.pc.Threw? && AsksCleanly(o.sh, o.l)
  {
  }

  lemma RequestsCleanly(sh: Shared, cli: Local, p: PubPhase, empty: bool)
    requires CliSide(sh, cli, p) && cli.pc.InNotifyRequested? && CanStep(sh, cli) && AsksCleanly(sh, cli)
    requires sh.ns.Disabled? || sh.ns.Publishing?
    ensures var o := Step(sh, cli, empty); !o.l.pc.Threw? && AsksCleanly(o.sh, o.l)
  {
  }

  lemma RearmKeeps(s: State, a: Action)
    requires Rearming(s) && Rearms(s, a)
    requires forall id :: Accounted(s, id)
    ensures Rearming(Apply(s, a))
  {
    ApplyKeeps(s, a);
    ApplyKeepsHistory(s, a);
    assert Accounted(s, 0);
    if a.PubStep? && CanStep(s.sh, s.pub) {
      StepFrame(s.sh, s.pub, s.data.queue == []);
      PubKeepsIssued(s);
    } else if a.CliStep? && CanStep(s.sh, s.cli) {
      if s.cli.pc.InNotifyRequested? { SlotsFreeWhileAsking(s); }
      AsksOnCleanly(s.sh, s.cli, PubPhaseOf(s.pub), s.data.queue == []);
      StepFrame(s.sh, s.cli, s.data.queue == []);
      CliKeepsIssued(s);
    }
  }

  lemma PubKeepsIssued(s: State)
    requires Invariant(s) && !HasThrown(s) && CanStep(s.sh, s.pub)
    ensures Take(s, Publisher).h.issued == s.h.issued
  {
  }

  lemma CliKeepsIssued(s: State)
    ensures Take(s, Client).h.issued == s.h.issued
  {
  }

  /** Such a client never meets a throw, never has to wait for the publisher, and never leaves a
      trigger pending inside its own pull - in any interleaving, batched or not. */
  lemma {:induction false} RearmingClientsAreSafe(s: State, actions: seq<Action>)
    requires Init(s) && RearmRun(s, actions)
    ensures var e := Exec(s, actions);
      Rearming(e) && !HasThrown(e) && !e.sh.ns.SubWakeupRequired? && !e.sh.ns.ReconfigureRequired?
    decreases |actions|
  {
    InitInvariant(s);
    if actions != [] {
      var most := actions[..|actions| - 1];
      RearmingClientsAreSafe(s, most);
      forall id ensures Accounted(Exec(s, most), id) { RunAccounted(s, most, id); }
      RearmKeeps(Exec(s, most), actions[|actions| - 1]);
    }
  }
}
