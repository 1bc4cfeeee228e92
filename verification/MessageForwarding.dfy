/** Forwarding: `OnNewMessage` hands queued messages, and from then on every new one, to a callback.

    `PushMessage` reads `forwardMessage` before it takes the lock, so a switch to forwarding may come
    between its test and its act.  Messages are known by the order of the `PushMessage` calls. */
module Forwarding {

  /** Between the test of `forwardMessage` and what follows from it. */
  datatype PublisherAt = Ready | Decided(forward: bool)

  /** In the loop of `OnNewMessage`, holding the lock, or not. */
  datatype ClientAt = Away | Draining

  /** `delivered` is everything popped or forwarded.  `overtook` records that a message was forwarded
      while another was queued; nothing reads it. */
  datatype State = State(
    queue: seq<nat>,
    cap: nat,
    delivered: seq<nat>,
    forward: bool,
    batching: bool,
    aborted: bool,
    publisher: PublisherAt,
    client: ClientAt,
    accepted: nat,
    overtook: bool)

  datatype Action =
    | Test | Act | StartBatch | EndBatch  // the publisher
    | Install | Drain | Pop | Abort       // the client

  predicate Init(s: State) {
    && s.queue == Upto(s.accepted) && |s.queue| <= s.cap && s.delivered == []
    && !s.forward && !s.batching && !s.aborted && s.publisher.Ready? && s.client.Away? && !s.overtook
  }

  function Upto(n: nat): seq<nat> { seq(n, i requires 0 <= i => i) }

  /** One action; one that is not possible now changes nothing.  Forwarding waits for the lock unless
      a batch is open, and a push to a full queue is refused. */
  function Apply(s: State, a: Action): State {
    match a
    case Test => if s.publisher.Ready? then s.(publisher := Decided(s.forward)) else s
    case Act =>
      if s.publisher.Ready? then s
      else if !s.publisher.forward then
        if |s.queue| >= s.cap then s.(publisher := Ready)
        else s.(queue := s.queue + [s.accepted], accepted := s.accepted + 1, publisher := Ready)
      else if s.client.Draining? && !s.batching then s
      else s.(delivered := s.delivered + [s.accepted], accepted := s.accepted + 1, publisher := Ready,
              overtook := s.overtook || s.queue != [])
    case StartBatch => if s.publisher.Ready? then s.(batching := true) else s
    case EndBatch => if s.publisher.Ready? then s.(batching := false) else s
    case Install => if s.client.Away? && !s.aborted then s.(forward := true, client := Draining) else s
    case Drain =>
      if s.client.Away? then s
      else if s.aborted || s.queue == [] then s.(client := Away)
      else s.(delivered := s.delivered + [s.queue[0]], queue := s.queue[1..])
    case Pop =>
      if s.client.Away? && s.queue != [] then s.(delivered := s.delivered + [s.queue[0]], queue := s.queue[1..]) else s
    case Abort => s.(aborted := true)
  }

  function Exec(s: State, actions: seq<Action>): State
    decreases |actions|
  {
    if actions == [] then s else Apply(Exec(s, actions[..|actions| - 1]), actions[|actions| - 1])
  }

  // ---------------------------------------------------------------- what is conserved

  /** Delivered then queued, in order, is everything accepted. */
  predicate Conserved(s: State) { s.delivered + s.queue == Upto(s.accepted) }

  predicate Inverted(s: seq<nat>, i: int, j: int) { 0 <= i < j < |s| && s[i] > s[j] }

  ghost predicate Disordered(s: seq<nat>) {
    exists i, j :: Inverted(s, i, j)
  }

  /** Nothing is lost or duplicated, and the order is right unless a message overtook another; if one
      did, it is wrong for good. */
  ghost predicate AllThere(all: seq<nat>, accepted: nat, overtook: bool) {
    && multiset(all) == multiset(Upto(accepted))
    && (if overtook then Disordered(all) else all == Upto(accepted))
  }

  ghost predicate Accounted(s: State) { AllThere(s.delivered + s.queue, s.accepted, s.overtook) }

  lemma UptoMore(n: nat)
    ensures Upto(n + 1) == Upto(n) + [n]
  {
  }

  lemma MoveKeeps(s: State)
    requires Accounted(s) && s.queue != []
    ensures Accounted(s.(delivered := s.delivered + [s.queue[0]], queue := s.queue[1..]))
  {
    assert s.delivered + s.queue == (s.delivered + [s.queue[0]]) + s.queue[1..];
  }

  lemma PushKeeps(s: State)
    requires Accounted(s)
    ensures Accounted(s.(queue := s.queue + [s.accepted], accepted := s.accepted + 1))
  {
    var n := s.(queue := s.queue + [s.accepted], accepted := s.accepted + 1);
    var before, after := s.delivered + s.queue, n.delivered + n.queue;
    UptoMore(s.accepted);
    assert after == before + [s.accepted];
    if s.overtook {
      var i, j :| Inverted(before, i, j);
      assert Inverted(after, i, j);
    }
  }

  lemma ForwardKeeps(s: State)
    requires Accounted(s)
    ensures Accounted(s.(delivered := s.delivered + [s.accepted], accepted := s.accepted + 1,
                         overtook := s.overtook || s.queue != []))
  {
    UptoMore(s.accepted);
    Inserted(s.delivered, s.queue, s.accepted);
    if s.overtook {
      StaysDisordered(s.delivered, s.queue, s.accepted);
    } else if s.queue != [] {
      Overtakes(s.delivered, s.queue, s.accepted);
    } else {
      assert (s.delivered + [s.accepted]) + s.queue == (s.delivered + s.queue) + [s.accepted];
    }
  }

  lemma Inserted(d: seq<nat>, q: seq<nat>, m: nat)
    ensures multiset((d + [m]) + q) == multiset(d + q) + multiset{m}
    ensures multiset(Upto(m) + [m]) == multiset(Upto(m)) + multiset{m}
  {
  }

  lemma StaysDisordered(d: seq<nat>, q: seq<nat>, m: nat)
    requires Disordered(d + q)
    ensures Disordered((d + [m]) + q)
  {
    var before, after := d + q, (d + [m]) + q;
    var i, j :| Inverted(before, i, j);
    var i', j' := if i < |d| then i else i + 1, if j < |d| then j else j + 1;
    assert after[i'] == before[i] && after[j'] == before[j];
    assert Inverted(after, i', j');
  }

  lemma Overtakes(d: seq<nat>, q: seq<nat>, m: nat)
    requires d + q == Upto(m) && q != []
    ensures Disordered((d + [m]) + q)
  {
    assert (d + q)[|d|] == q[0] && Upto(m)[|d|] == |d|;
    assert Inverted((d + [m]) + q, |d|, |d| + 1);
  }

  lemma ApplyKeeps(s: State, a: Action)
    requires Accounted(s)
    ensures Accounted(Apply(s, a))
  {
    hide Accounted;
    if (a.Drain? || a.Pop?) && s.queue != [] {
      MoveKeeps(s);
    } else if a.Act? && s.publisher.Decided? {
      if s.publisher.forward { ForwardKeeps(s); } else { PushKeeps(s); }
      FlagsKeep(s.(queue := s.queue + [s.accepted], accepted := s.accepted + 1), Apply(s, a));
      FlagsKeep(s.(delivered := s.delivered + [s.accepted], accepted := s.accepted + 1,
                   overtook := s.overtook || s.queue != []), Apply(s, a));
    }
    FlagsKeep(s, Apply(s, a));
  }

  lemma FlagsKeep(s: State, n: State)
    ensures s.delivered == n.delivered && s.queue == n.queue && s.accepted == n.accepted && s.overtook == n.overtook
            ==> (Accounted(s) <==> Accounted(n))
  {
  }

  lemma UptoInOrder(n: nat, i: int, j: int)
    ensures !Inverted(Upto(n), i, j)
  {
  }

  /** In every interleaving no message is lost or duplicated; and what is delivered, followed by what is
      queued, is in order exactly when no message was ever forwarded while another was queued. */
  lemma {:induction false} OrderedIffNoneOvertook(s: State, actions: seq<Action>)
    requires Init(s)
    ensures var e := Exec(s, actions);
      multiset(e.delivered + e.queue) == multiset(Upto(e.accepted)) && (Conserved(e) <==> !e.overtook)
    decreases |actions|
  {
    RunAccounted(s, actions);
    var e := Exec(s, actions);
    if e.overtook {
      var i, j :| Inverted(e.delivered + e.queue, i, j);
      UptoInOrder(e.accepted, i, j);
    }
  }

  lemma {:induction false} RunAccounted(s: State, actions: seq<Action>)
    requires Init(s)
    ensures Accounted(Exec(s, actions))
    decreases |actions|
  {
    if actions == [] {
      assert [] + s.queue == s.queue;
    } else {
      RunAccounted(s, actions[..|actions| - 1]);
      ApplyKeeps(Exec(s, actions[..|actions| - 1]), actions[|actions| - 1]);
    }
  }

  // ---------------------------------------------------------------- serialised calls

  /** PushMessage and OnNewMessage do not overlap, and the callback does not abort. */
  predicate Serial(s: State, a: Action) {
    && (a.Test? ==> s.client.Away?)
    && (a.Install? ==> s.publisher.Ready?)
    && (a.Abort? ==> s.client.Away?)
  }

  predicate SerialRun(s: State, actions: seq<Action>)
    decreases |actions|
  {
    actions == []
    || (SerialRun(s, actions[..|actions| - 1]) && Serial(Exec(s, actions[..|actions| - 1]), actions[|actions| - 1]))
  }

  predicate Orderly(s: State) {
    && !s.overtook && (s.client.Draining? ==> !s.aborted)
    && (s.forward && s.client.Away? ==> s.queue == [])
    && (s.publisher.Decided? ==> s.publisher.forward == s.forward && s.client.Away?)
  }

  /** FIFO conservation across the switch to forwarding, when the two calls are serialised. */
  lemma {:induction false} SerialRunsConserve(s: State, actions: seq<Action>)
    requires Init(s) && SerialRun(s, actions)
    ensures Orderly(Exec(s, actions)) && Conserved(Exec(s, actions))
    decreases |actions|
  {
    if actions != [] { SerialRunsConserve(s, actions[..|actions| - 1]); }
    OrderedIffNoneOvertook(s, actions);
  }

  /** They need to be: here OnNewMessage comes between the test and the push of message 0, which is then
      left in the queue while message 1 is forwarded past it. */
  lemma ForwardedPastAQueuedMessage(cap: nat)
    requires cap > 0
    ensures var start := State([], cap, [], false, false, false, Ready, Away, 0, false);
      var e := Exec(start, [Test, Install, Drain, Act, Test, Act]);
      Init(start) && e.delivered == [1] && e.queue == [0] && e.overtook
  {
    var start := State([], cap, [], false, false, false, Ready, Away, 0, false);
    var switched := start.(forward := true, publisher := Decided(false));
    ExecCat(start, [Test, Install, Drain], [Act, Test, Act]);
    assert [Test, Install, Drain] + [Act, Test, Act] == [Test, Install, Drain, Act, Test, Act];
    ExecThree(start, Test, Install, Drain);
    ExecThree(switched, Act, Test, Act);
    hide Exec;
    SwitchedBetween(start);
    PushedBehind(switched);
  }

  lemma SwitchedBetween(s: State)
    requires s.publisher.Ready? && s.client.Away? && s.queue == [] && !s.forward && !s.aborted
    ensures Apply(Apply(Apply(s, Test), Install), Drain) == s.(forward := true, publisher := Decided(false))
  {
  }

  lemma PushedBehind(s: State)
    requires s.publisher == Decided(false) && s.client.Away? && s.forward && |s.queue| < s.cap
    ensures var e := Apply(Apply(Apply(s, Act), Test), Act);
      e.delivered == s.delivered + [s.accepted + 1] && e.queue == s.queue + [s.accepted] && e.overtook
  {
  }

  lemma {:induction false} ExecCat(s: State, a: seq<Action>, b: seq<Action>)
    ensures Exec(s, a + b) == Exec(Exec(s, a), b)
    decreases |b|
  {
    if b == [] {
      assert a + b == a;
    } else {
      assert (a + b)[..|a + b| - 1] == a + b[..|b| - 1];
      ExecCat(s, a, b[..|b| - 1]);
    }
  }

  lemma ExecThree(s: State, a: Action, b: Action, c: Action)
    ensures Exec(s, [a, b, c]) == Apply(Apply(Apply(s, a), b), c)
  {
    assert [a, b, c][..2] == [a, b] && [a, b][..1] == [a] && [a][..0] == [];
    assert Exec(s, [a]) == Apply(s, a);
    assert Exec(s, [a, b]) == Apply(Apply(s, a), b);
  }

  // ---------------------------------------------------------------- when order is safe

  /** What holds of every state reached. */
  predicate Sane(s: State) {
    && |s.queue| <= s.cap
    && (!s.forward ==> s.client.Away? && s.publisher != Decided(true))
  }

  lemma ApplySane(s: State, a: Action)
    requires Sane(s)
    ensures Sane(Apply(s, a))
  {
  }

  lemma {:induction false} RunSane(s: State, actions: seq<Action>)
    requires Init(s)
    ensures Sane(Exec(s, actions))
    decreases |actions|
  {
    if actions != [] {
      RunSane(s, actions[..|actions| - 1]);
      ApplySane(Exec(s, actions[..|actions| - 1]), actions[|actions| - 1]);
      hide Apply;
    }
  }

  /** A message could still be forwarded past a queued one: forwarding is on and one is queued, or about to
      be; or forwarding may yet be turned on. */
  predicate MayOvertake(s: State) {
    s.cap > 0 && if s.forward then s.queue != [] || s.publisher == Decided(false) else !s.aborted
  }

  lemma OvertakesQueued(s: State) returns (after: seq<Action>)
    requires s.forward && s.queue != [] && s.publisher != Decided(false)
    ensures Exec(s, after).overtook
  {
    if s.publisher.Ready? {
      after := [StartBatch, Test, Act];
      ExecThree(s, StartBatch, Test, Act);
    } else {
      after := [Abort, Drain, Act];
      ExecThree(s, Abort, Drain, Act);
    }
    hide Exec;
  }

  lemma OvertakesLate(s: State) returns (after: seq<Action>)
    requires s.forward && s.publisher == Decided(false) && s.cap > 0
    ensures Exec(s, after).overtook
  {
    var rest := OvertakesQueued(Apply(s, Act));
    after := [Act] + rest;
    ExecCat(s, [Act], rest);
    assert [Act][..0] == [] && Exec(s, [Act]) == Apply(s, Act);
    hide Exec;
  }

  lemma OvertakesAfterSwitch(s: State) returns (after: seq<Action>)
    requires Sane(s) && !s.forward && !s.aborted && s.cap > 0
    ensures Exec(s, after).overtook
  {
    var rest := OvertakesLate(Apply(Apply(Apply(s, Test), Install), StartBatch));
    after := [Test, Install, StartBatch] + rest;
    ExecThree(s, Test, Install, StartBatch);
    ExecCat(s, [Test, Install, StartBatch], rest);
    hide Exec;
  }

  lemma NoneOvertakesNow(s: State, a: Action)
    requires Sane(s) && !s.overtook && !MayOvertake(s)
    ensures var n := Apply(s, a); Sane(n) && !n.overtook && !MayOvertake(n)
  {
  }

  lemma {:induction false} NoneOvertakes(s: State, after: seq<Action>)
    requires Sane(s) && !s.overtook && !MayOvertake(s)
    ensures var e := Exec(s, after); Sane(e) && !e.overtook && !MayOvertake(e)
    decreases |after|
  {
    hide Sane, MayOvertake, Apply;
    if after != [] {
      NoneOvertakes(s, after[..|after| - 1]);
      NoneOvertakesNow(Exec(s, after[..|after| - 1]), after[|after| - 1]);
    }
  }

  /** From any state reached, messages can come out of order in some continuation if and only if they have
      already, or forwarding is on with a message queued or about to be queued, or it can yet be turned on. */
  lemma {:induction false} DisorderExactly(start: State, before: seq<Action>)
    requires Init(start)
    ensures var s := Exec(start, before);
      (exists after :: !Conserved(Exec(s, after))) <==> s.overtook || MayOvertake(s)
  {
    var s := Exec(start, before);
    RunSane(start, before);
    hide Exec;
    forall after ensures Conserved(Exec(s, after)) <==> !Exec(s, after).overtook {
      ExecCat(start, before, after);
      OrderedIffNoneOvertook(start, before + after);
    }
    if s.overtook {
      ExecNone(s);
      assert !Conserved(Exec(s, []));
    } else if MayOvertake(s) {
      var after;
      if !s.forward { after := OvertakesAfterSwitch(s); }
      else if s.publisher == Decided(false) { after := OvertakesLate(s); }
      else { after := OvertakesQueued(s); }
      assert !Conserved(Exec(s, after));
    } else {
      forall after ensures Conserved(Exec(s, after)) { NoneOvertakes(s, after); }
    }
  }

  lemma ExecNone(s: State)
    ensures Exec(s, []) == s
  {
  }

  // ---------------------------------------------------------------- between serialised calls

  function Range(a: nat, b: nat): seq<nat>
    requires a <= b
  {
    seq(b - a, i requires 0 <= i => a + i)
  }

  /** No call is under way: the first `d` of `n` messages have been delivered, the others are queued. */
  function AtRest(d: nat, n: nat, cap: nat, forward: bool, aborted: bool): State
    requires d <= n
  {
    State(Range(d, n), cap, Upto(d), forward, false, aborted, Ready, Away, n, false)
  }

  lemma PushAtRest(d: nat, n: nat, cap: nat, forward: bool, aborted: bool)
    requires d <= n && (forward ==> d == n)
    ensures var s := AtRest(d, n, cap, forward, aborted);
      Exec(s, [Test, Act]) == if forward then AtRest(d + 1, n + 1, cap, forward, aborted)
                              else if n - d >= cap then s else AtRest(d, n + 1, cap, forward, aborted)
  {
    var s := AtRest(d, n, cap, forward, aborted);
    assert [Test, Act][..1] == [Test] && [Test][..0] == [];
    assert Exec(s, [Test, Act]) == Apply(Apply(s, Test), Act);
    UptoMore(d);
    assert Range(d, n) + [n] == Range(d, n + 1);
    if forward { assert Range(d, n) == Range(d + 1, n + 1) == []; }
  }

  lemma PopAtRest(d: nat, n: nat, cap: nat, forward: bool, aborted: bool)
    requires d <= n
    ensures var s := AtRest(d, n, cap, forward, aborted);
      Apply(s, Pop) == if d == n then s else AtRest(d + 1, n, cap, forward, aborted)
  {
    UptoMore(d);
    if d < n { assert Range(d, n)[1..] == Range(d + 1, n); }
  }

  lemma SwitchAtRest(d: nat, n: nat, cap: nat, forward: bool, aborted: bool)
    requires d <= n
    ensures var s := AtRest(d, n, cap, forward, aborted);
      s.client.Away? && s.aborted == aborted && s.(forward := true) == AtRest(d, n, cap, true, aborted)
  {
  }

  lemma InstallAtRest(s: State)
    requires s.client.Away?
    ensures Apply(s, Install) == if s.aborted then s else s.(forward := true, client := Draining)
  {
  }

  /** While OnNewMessage drains the queue. */
  lemma DrainAtRest(d: nat, n: nat, cap: nat)
    requires d <= n
    ensures var s := AtRest(d, n, cap, true, false).(client := Draining);
      Apply(s, Drain) == if d == n then AtRest(d, n, cap, true, false)
                         else AtRest(d + 1, n, cap, true, false).(client := Draining)
  {
    UptoMore(d);
    if d < n { assert Range(d, n)[1..] == Range(d + 1, n); }
  }

  lemma ExecMore(s: State, actions: seq<Action>, a: Action)
    ensures Exec(s, actions + [a]) == Apply(Exec(s, actions), a)
  {
    assert (actions + [a])[..|actions + [a]| - 1] == actions;
  }

  // ---------------------------------------------------------------- the class

  /** The part of a subscriber that queues and forwards, under serialised calls. */
  class MessageQueue {
    var messages: seq<nat>
    const capacity: nat
    var forwardMessage: bool
    var aborted: bool
    var forwarded: seq<nat>      // given to the callback
    ghost var delivered: seq<nat> // popped, or given to the callback
    ghost var accepted: seq<nat> // initial data, then every message pushed

    ghost predicate Valid()
      reads this
    {
      delivered + messages == accepted && (forwardMessage ==> messages == [])
    }

    /** The state of the machine, which knows messages by their place in `accepted`. */
    ghost function Now(): State
      requires Valid()
      reads this
    {
      AtRest(|delivered|, |accepted|, capacity, forwardMessage, aborted)
    }

    constructor (maxSize: nat, initialData: seq<nat>)
      requires |initialData| <= maxSize
      ensures Valid() && accepted == initialData == messages && !forwardMessage && !aborted && forwarded == []
      ensures Init(Now())
    {
      messages, capacity, forwarded, delivered, accepted := initialData, maxSize, [], [], initialData;
      forwardMessage, aborted := false, false;
    }

    method PushMessage(m: nat) returns (full: bool)
      requires Valid()
      modifies this
      ensures Valid() && Now() == Exec(old(Now()), [Test, Act])
      ensures forwardMessage == old(forwardMessage) && aborted == old(aborted)
      ensures full <==> !forwardMessage && |old(messages)| >= capacity
      ensures accepted == if full then old(accepted) else old(accepted) + [m]
      ensures forwardMessage ==>
                messages == [] && delivered == old(delivered) + [m] && forwarded == old(forwarded) + [m]
      ensures !forwardMessage ==>
                && delivered == old(delivered) && forwarded == old(forwarded)
                && messages == if full then old(messages) else old(messages) + [m]
    {
      PushAtRest(|delivered|, |accepted|, capacity, forwardMessage, aborted);
      full := false;
      if forwardMessage {
        forwarded, delivered := forwarded + [m], delivered + [m];
        accepted := accepted + [m];
      } else if |messages| >= capacity {
        full := true;
      } else {
        messages := messages + [m];
        accepted := accepted + [m];
        assert delivered + messages == old(delivered + messages) + [m];
      }
    }

    method GetNextMessage() returns (got: bool, m: nat)
      requires Valid()
      modifies this`messages, this`delivered
      ensures Valid() && Now() == Apply(old(Now()), Pop)
      ensures got <==> old(messages) != []
      ensures if got then old(messages) == [m] + messages && delivered == old(delivered) + [m]
              else messages == old(messages) && delivered == old(delivered)
    {
      PopAtRest(|delivered|, |accepted|, capacity, forwardMessage, aborted);
      got, m := false, 0;
      if messages != [] {
        got, m := true, messages[0];
        assert delivered + messages == delivered + [m] + messages[1..];
        delivered, messages := delivered + [m], messages[1..];
      }
    }

    method Abort()
      requires Valid()
      modifies this`aborted
      ensures Valid() && aborted && Now() == Apply(old(Now()), Action.Abort)
    {
      aborted := true;
    }

    /** Hand the oldest message to the callback, if there is one. */
    method ConsumeOne() returns (consumed: bool)
      modifies this`messages, this`forwarded, this`delivered
      ensures consumed <==> old(messages) != []
      ensures delivered + messages == old(delivered + messages) && forwarded + messages == old(forwarded + messages)
      ensures |delivered| == old(|delivered|) + if consumed then 1 else 0
      ensures consumed ==> |messages| < old(|messages|)
    {
      consumed := messages != [];
      if consumed {
        assert delivered + messages == delivered + [messages[0]] + messages[1..];
        assert forwarded + messages == forwarded + [messages[0]] + messages[1..];
        forwarded, delivered := forwarded + [messages[0]], delivered + [messages[0]];
        messages := messages[1..];
      }
    }

    /** Everything queued goes to the callback at once, in order; everything later follows it. */
    method OnNewMessage() returns (ghost actions: seq<Action>)
      requires Valid()
      modifies this`messages, this`forwarded, this`delivered, this`forwardMessage
      ensures Valid() && Now() == Exec(old(Now()), [Install] + actions) && forall a :: a in actions ==> a.Drain?
      ensures !aborted ==> forwardMessage && messages == [] && delivered == old(delivered + messages)
      ensures !aborted ==> forwarded == old(forwarded + messages)
      ensures aborted ==>
                && messages == old(messages) && forwarded == old(forwarded) && delivered == old(delivered)
                && forwardMessage == old(forwardMessage)
    {
      ghost var was := Now();
      ExecNone(was);
      InstallAtRest(was);
      SwitchAtRest(|delivered|, |accepted|, capacity, forwardMessage, aborted);
      hide Exec, Apply, AtRest;
      actions := [];
      ExecMore(was, [], Install);
      assert [] + [Install] == [Install] == [Install] + actions;
      if !aborted {
        forwardMessage := true;
        var consumed := true;
        while !aborted && consumed
          invariant forwardMessage && delivered + messages == accepted == old(delivered + messages)
          invariant forwarded + messages == old(forwarded + messages)
          invariant !consumed ==> messages == []
          invariant forall a :: a in actions ==> a.Drain?
          invariant Exec(was, [Install] + actions)
                    == var s := AtRest(|delivered|, |accepted|, capacity, true, false);
                       if consumed then s.(client := Draining) else s
          decreases |messages|, consumed
        {
          DrainAtRest(|delivered|, |accepted|, capacity);
          ExecMore(was, [Install] + actions, Drain);
          assert [Install] + (actions + [Drain]) == [Install] + actions + [Drain];
          actions := actions + [Drain];
          consumed := ConsumeOne();
        }
      }
    }
  }
}
