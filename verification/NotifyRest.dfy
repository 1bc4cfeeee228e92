/** Which thread last put the protocol to rest, and what may be unread then. */
module NotifyRest {
  import opened Wrappers
  import opened NotifyModel
  import opened NotifyInvariant
  import opened NotifyDelivery

  /** Who last made a trigger live in NOTHING_TO_NOTIFY, and how much had been pushed by then. */
  datatype Rest = Never | Rested(who: Thread, pushed: int)

  predicate GoesToRest(s: State, n: State) { !s.sh.ns.NothingToNotify? && n.sh.ns.NothingToNotify? }

  function RestAfter(s: State, a: Action, r: Rest): Rest {
    var n := Apply(s, a);
    if GoesToRest(s, n) then Rested(if a.PubStep? then Publisher else Client, |n.h.pushed|) else r
  }

  function LastRest(s: State, actions: seq<Action>): Rest
    decreases |actions|
  {
    if actions == [] then Never
    else
      var most := actions[..|actions| - 1];
      RestAfter(Exec(s, most), actions[|actions| - 1], LastRest(s, most))
  }

  /** Something the thread that put the protocol to rest has not allowed for. */
  predicate News(s: State, r: Rest) {
    match r
    case Never => false
    case Rested(who, pushed) => if who.Client? then s.data.queue != [] else |s.h.pushed| > pushed
  }

  /** The publisher will see to news at rest; and to anything unread behind a client about to go to rest. */
  predicate SeenTo(sh: Shared, pub: Local, cli: Local, unread: bool, news: bool) {
    && (sh.ns.NothingToNotify? && news ==> WillNotify(sh, pub))
    && (AboutToRest(sh, cli) && unread ==> WillNotify(sh, pub))
  }

  /** The same after a step of the publisher, who has allowed for everything if it went to rest. */
  predicate PubSeesTo(sh: Shared, o: Outcome, cli: Local, unread: bool, news: bool) {
    SeenTo(o.sh, o.l, cli, unread, news && (o.sh.ns.NothingToNotify? ==> sh.ns.NothingToNotify?))
  }

  /** ... and after a step of the client, who has allowed for an empty queue if it went to rest. */
  predicate CliSeesTo(sh: Shared, pub: Local, o: Outcome, unread: bool, news: bool) {
    SeenTo(o.sh, pub, o.l, unread, if o.sh.ns.NothingToNotify? && !sh.ns.NothingToNotify? then unread else news)
  }

  lemma PushWinSeesTo(sh: Shared, pub: Local, cli: Local, unread: bool, news: bool, empty: bool)
    requires Both(sh, pub, cli) && SeenTo(sh, pub, cli, unread, news)
    requires pub.pc.InPushComplete? && pub.pc.loopAt.Try? && sh.ns == pub.cur
    ensures PubSeesTo(sh, Step(sh, pub, empty), cli, unread, news)
  {
  }

  lemma PushLossSeesTo(sh: Shared, pub: Local, cli: Local, unread: bool, news: bool, empty: bool)
    requires Both(sh, pub, cli) && SeenTo(sh, pub, cli, unread, news)
    requires pub.pc.InPushComplete? && !(pub.pc.loopAt.Try? && sh.ns == pub.cur)
    ensures PubSeesTo(sh, Step(sh, pub, empty), cli, unread, news)
  {
  }

  lemma PublishNextSeesTo(sh: Shared, pub: Local, cli: Local, unread: bool, news: bool, empty: bool)
    requires Both(sh, pub, cli) && SeenTo(sh, pub, cli, unread, news)
    requires pub.pc.InPublishNext?
    ensures PubSeesTo(sh, Step(sh, pub, empty), cli, unread, news)
  {
  }

  lemma PublishCompleteSeesTo(sh: Shared, pub: Local, cli: Local, unread: bool, news: bool, empty: bool)
    requires Both(sh, pub, cli) && SeenTo(sh, pub, cli, unread, news)
    requires pub.pc.InPublishComplete?
    ensures PubSeesTo(sh, Step(sh, pub, empty), cli, unread, news)
  {
  }

  lemma PubConfiguredSeesTo(sh: Shared, pub: Local, cli: Local, unread: bool, news: bool, empty: bool)
    requires Both(sh, pub, cli) && SeenTo(sh, pub, cli, unread, news)
    requires pub.pc.InNotifyConfigured?
    ensures PubSeesTo(sh, Step(sh, pub, empty), cli, unread, news)
  {
  }

  lemma PubOtherSeesTo(sh: Shared, pub: Local, cli: Local, unread: bool, news: bool, empty: bool)
    requires Both(sh, pub, cli) && SeenTo(sh, pub, cli, unread, news)
    requires !pub.pc.InPushComplete? && !pub.pc.InPublishNext? && !pub.pc.InPublishComplete?
             && !pub.pc.InNotifyConfigured?
    ensures PubSeesTo(sh, Step(sh, pub, empty), cli, unread, news)
  {
  }

  lemma PubStepSeesTo(sh: Shared, pub: Local, cli: Local, unread: bool, news: bool, empty: bool)
    requires Both(sh, pub, cli) && SeenTo(sh, pub, cli, unread, news)
    ensures PubSeesTo(sh, Step(sh, pub, empty), cli, unread, news)
  {
    hide Step, Both, SeenTo, PubSeesTo;
    match pub.pc {
      case InPushComplete(at) =>
        if at.Try? && sh.ns == pub.cur { PushWinSeesTo(sh, pub, cli, unread, news, empty); }
        else { PushLossSeesTo(sh, pub, cli, unread, news, empty); }
      case InPublishNext(_) => PublishNextSeesTo(sh, pub, cli, unread, news, empty);
      case InPublishComplete(_) => PublishCompleteSeesTo(sh, pub, cli, unread, news, empty);
      case InNotifyConfigured(_) => PubConfiguredSeesTo(sh, pub, cli, unread, news, empty);
      case _ => PubOtherSeesTo(sh, pub, cli, unread, news, empty);
    }
  }

  lemma BusySeesTo(sh: Shared, pub: Local, cli: Local, unread: bool, news: bool, o: Outcome)
    requires SeenTo(sh, pub, cli, unread, news) && StaysBusy(sh, cli, o)
    ensures CliSeesTo(sh, pub, o, unread, news)
  {
  }

  lemma SwitchSeesTo(sh: Shared, pub: Local, cli: Local, unread: bool, news: bool)
    requires Both(sh, pub, cli) && SeenTo(sh, pub, cli, unread, news) && cli.pc.InNotifyConfigured?
             && !cli.pc.configAt.TryTested?
    ensures CliSeesTo(sh, pub, Step(sh, cli, !unread), unread, news)
  {
  }

  lemma TestedSeesTo(sh: Shared, pub: Local, cli: Local, unread: bool, news: bool)
    requires Both(sh, pub, cli) && SeenTo(sh, pub, cli, unread, news) && cli.pc == InNotifyConfigured(TryTested)
    ensures CliSeesTo(sh, pub, Step(sh, cli, !unread), unread, news)
  {
  }

  lemma CliStepSeesTo(sh: Shared, pub: Local, cli: Local, unread: bool, news: bool)
    requires Both(sh, pub, cli) && SeenTo(sh, pub, cli, unread, news) && CanStep(sh, cli) && !cli.origin.FromEndBatch?
    ensures CliSeesTo(sh, pub, Step(sh, cli, !unread), unread, news)
  {
    if cli.pc == InNotifyConfigured(TryTested) {
      TestedSeesTo(sh, pub, cli, unread, news);
    } else if cli.pc.InNotifyConfigured? {
      SwitchSeesTo(sh, pub, cli, unread, news);
    } else {
      CliStaysBusy(sh, cli, PubPhaseOf(pub));
      EmptyMatters(sh, cli, !unread);
      BusySeesTo(sh, pub, cli, unread, news, Step(sh, cli, false));
      hide Step, StaysBusy, Both;
    }
  }

  /** Only NotifyConfigured looks at the queue. */
  lemma EmptyMatters(sh: Shared, l: Local, empty: bool)
    requires !l.pc.InNotifyConfigured?
    ensures Step(sh, l, empty) == Step(sh, l, false)
  {
  }

  // ---------------------------------------------------------------- all runs

  predicate RestOk(s: State, r: Rest) {
    && Invariant(s) && Fifo(s)
    && (!HasThrown(s) ==>
          && SeenTo(s.sh, s.pub, s.cli, s.data.queue != [], News(s, r))
          && (s.sh.ns.NothingToNotify? ==> r.Rested?) && (r.Rested? ==> r.pushed <= |s.h.pushed|))
  }

  lemma PubTakeRests(s: State, r: Rest)
    requires RestOk(s, r) && !HasThrown(s) && CanStep(s.sh, s.pub)
    ensures RestOk(Apply(s, PubStep), RestAfter(s, PubStep, r))
  {
    PubTakeKeeps(s);
    TakeKeepsFifo(s, Publisher);
    PubStepSeesTo(s.sh, s.pub, s.cli, s.data.queue != [], News(s, r), s.data.queue == []);
    hide Step, Invariant, Record;
  }

  lemma CliTakeRests(s: State, r: Rest)
    requires RestOk(s, r) && !HasThrown(s) && CanStep(s.sh, s.cli)
    ensures RestOk(Apply(s, CliStep), RestAfter(s, CliStep, r))
  {
    CliTakeKeeps(s);
    TakeKeepsFifo(s, Client);
    StepFrame(s.sh, s.cli, s.data.queue == []);
    if s.cli.pc.Idle? { } else { CliStepSeesTo(s.sh, s.pub, s.cli, s.data.queue != [], News(s, r)); }
    hide Step, Invariant, Record;
  }

  lemma ThrownRests(s: State, a: Action, r: Rest)
    requires RestOk(s, r) && HasThrown(s)
    ensures RestOk(Apply(s, a), RestAfter(s, a, r))
  {
  }

  lemma EnterRests(s: State, a: Action, r: Rest)
    requires RestOk(s, r) && !HasThrown(s)
    requires (a.PubStep? ==> !CanStep(s.sh, s.pub)) && (a.CliStep? ==> !CanStep(s.sh, s.cli))
    ensures RestOk(Apply(s, a), RestAfter(s, a, r))
  {
    ApplyKeeps(s, a);
    hide Invariant;
  }

  lemma ApplyRests(s: State, a: Action, r: Rest)
    requires RestOk(s, r)
    ensures RestOk(Apply(s, a), RestAfter(s, a, r))
  {
    hide RestOk, RestAfter, Take;
    if HasThrown(s) {
      ThrownRests(s, a, r);
    } else if a.PubStep? && CanStep(s.sh, s.pub) {
      PubTakeRests(s, r);
    } else if a.CliStep? && CanStep(s.sh, s.cli) {
      CliTakeRests(s, r);
    } else {
      EnterRests(s, a, r);
    }
  }

  lemma {:induction false} RunRests(s: State, actions: seq<Action>)
    requires Init(s)
    ensures RestOk(Exec(s, actions), LastRest(s, actions))
    decreases |actions|
  {
    if actions == [] {
      InitInvariant(s);
    } else {
      var most := actions[..|actions| - 1];
      RunRests(s, most);
      ApplyRests(Exec(s, most), actions[|actions| - 1], LastRest(s, most));
      hide Apply, RestOk, RestAfter;
    }
  }

  /** At rest with a live trigger and nothing owed: if the client put the protocol to rest, the queue is
      empty; if the publisher did, in its PUB_RECONFIGURING case, nothing has been pushed since.  So messages
      are unread exactly if the publisher went to rest over them and they have not been read since. */
  lemma {:induction false} UnreadAtRestExactly(s: State, actions: seq<Action>)
    requires Init(s)
    ensures var e, r := Exec(s, actions), LastRest(s, actions);
      !HasThrown(e) && e.sh.ns.NothingToNotify? && !Owes(e.sh, e.pub) ==>
        && r.Rested?
        && (r.who.Client? ==> e.data.queue == [])
        && (r.who.Publisher? ==> |e.h.pushed| == r.pushed)
        && (e.data.queue != [] <==> r.who.Publisher? && |e.h.popped| < r.pushed)
  {
    RunRests(s, actions);
    hide Exec, LastRest, Invariant;
    var e := Exec(s, actions);
    assert |e.h.pushed| == |e.h.popped| + |e.data.queue|;
  }

  /** And the publisher does so only when a client installed while it was firing: it goes to rest from
      PUB_RECONFIGURING, the client from CONFIGURING, having found the queue empty. */
  lemma WhoGoesToRest(s: State, a: Action)
    requires Invariant(s) && Fifo(s) && !HasThrown(s) && GoesToRest(s, Apply(s, a))
    ensures if a.PubStep? then s.sh.ns.PubReconfiguring? && s.pub.pc == InNotifyConfigured(Switch)
            else a.CliStep? && s.sh.ns.Configuring? && s.cli.pc == InNotifyConfigured(TryTested) && s.cli.sawEmpty
  {
    var empty := s.data.queue == [];
    if a.PubStep? && CanStep(s.sh, s.pub) {
      PubGoesToRest(s.sh, s.pub, s.cli, empty);
    } else if a.CliStep? && CanStep(s.sh, s.cli) {
      CliGoesToRest(s.sh, s.pub, s.cli, empty);
    }
    hide Step;
  }

  lemma PushNeverRests(sh: Shared, pub: Local, empty: bool)
    requires pub.pc.InPushComplete? && !sh.ns.NothingToNotify?
    ensures !Step(sh, pub, empty).sh.ns.NothingToNotify?
  {
  }

  lemma PublishNeverRests(sh: Shared, pub: Local, empty: bool)
    requires pub.pc.InPublishNext? || pub.pc.InPublishComplete? || pub.pc.InConfigurePending? || pub.pc.Finish?
             || pub.pc.Idle?
    requires !sh.ns.NothingToNotify?
    ensures !Step(sh, pub, empty).sh.ns.NothingToNotify?
  {
  }

  lemma PubConfiguredRests(sh: Shared, pub: Local, cli: Local, empty: bool)
    requires Both(sh, pub, cli) && pub.pc.InNotifyConfigured?
    requires !sh.ns.NothingToNotify? && Step(sh, pub, empty).sh.ns.NothingToNotify?
    ensures sh.ns.PubReconfiguring? && pub.pc == InNotifyConfigured(Switch)
  {
  }

  lemma PubGoesToRest(sh: Shared, pub: Local, cli: Local, empty: bool)
    requires Both(sh, pub, cli) && !sh.ns.NothingToNotify? && Step(sh, pub, empty).sh.ns.NothingToNotify?
    ensures sh.ns.PubReconfiguring? && pub.pc == InNotifyConfigured(Switch)
  {
    hide Step;
    match pub.pc {
      case InPushComplete(_) => PushNeverRests(sh, pub, empty);
      case InNotifyConfigured(_) => PubConfiguredRests(sh, pub, cli, empty);
      case _ => PublishNeverRests(sh, pub, empty);
    }
  }

  lemma CliConfiguredRests(sh: Shared, pub: Local, cli: Local, empty: bool)
    requires Both(sh, pub, cli) && cli.pc.InNotifyConfigured?
    requires !sh.ns.NothingToNotify? && Step(sh, cli, empty).sh.ns.NothingToNotify?
    ensures sh.ns.Configuring? && cli.pc == InNotifyConfigured(TryTested) && cli.sawEmpty
  {
  }

  lemma CliGoesToRest(sh: Shared, pub: Local, cli: Local, empty: bool)
    requires Both(sh, pub, cli) && CanStep(sh, cli) && !cli.origin.FromEndBatch?
    requires !sh.ns.NothingToNotify? && Step(sh, cli, empty).sh.ns.NothingToNotify?
    ensures sh.ns.Configuring? && cli.pc == InNotifyConfigured(TryTested) && cli.sawEmpty
  {
    if cli.pc.InNotifyConfigured? {
      CliConfiguredRests(sh, pub, cli, empty);
    } else {
      CliStaysBusy(sh, cli, PubPhaseOf(pub));
      EmptyMatters(sh, cli, empty);
    }
    hide Step;
  }
}
