/** How a call of `WaitForMessage` on an object is a run of the program of module `WaitForMessage`. */
module WaitRefines {
  import opened Wrappers
  import opened NotifyModel
  import opened WaitForMessage
  import opened WaitExactly
  import W = WaitWitness
  import R = NotifyReplacement

  /** What the program provides for, apart from pops: a publisher that does not batch and does nothing after
      Done, and a client inside its own operations. */
  predicate PlainAction(s: State, a: Action) {
    match a
    case PubPush(_) | PubDone => s.data.consumer.Consuming?
    case PubStep | CliStep => true
    case CliInstall(posted) => !posted
    case _ => false
  }

  predicate NoInstall(t: seq<Action>, from: nat, upto: nat)
    requires upto <= |t|
  {
    forall i :: from <= i < upto ==> !t[i].CliInstall?
  }

  /** Of the actions `t`, those since `from` are such, with one trigger installed at most. */
  predicate PlainCall(start: State, t: seq<Action>, from: nat)
    requires from <= |t|
  {
    && !Exec(start, t[..from]).data.aborted
    && forall i :: from <= i < |t| ==>
         PlainAction(Exec(start, t[..i]), t[i]) && (t[i].CliInstall? ==> NoInstall(t, from, i))
  }

  lemma PlainPrefix(start: State, t: seq<Action>, from: nat, n: nat)
    requires from <= n <= |t| && PlainCall(start, t, from)
    ensures PlainCall(start, t[..n], from)
  {
    hide Exec, PlainAction;
    assert t[..n][..from] == t[..from];
    forall i | from <= i < n
      ensures PlainAction(Exec(start, t[..n][..i]), t[..n][i]) && (t[..n][i].CliInstall? ==> NoInstall(t[..n], from, i))
    {
      assert t[..n][..i] == t[..i];
      assert t[i].CliInstall? ==> NoInstall(t, from, i);
    }
  }

  /** A call of the program, which began as `begun` when the object had performed `from` actions. */
  datatype Wait = Wait(from: nat, begun: Waiter)

  /** How many triggers have been numbered when the call has got to `at`. */
  function Issued(c: Wait, at: At): int { c.begun.s.h.issued + if Numbered(at) then 1 else 0 }

  /** The call has got to `at` by `events` while the object performed `t`. */
  predicate Follows(start: State, t: seq<Action>, c: Wait, events: seq<Happening>, at: At) {
    c.from <= |t| && (PlainCall(start, t, c.from) ==>
      var s := Exec(start, t);
      && NoCallBegins(events) && Run(c.begun, events) == Waiter(s, at, c.begun.returned)
      && (at.Arming? || s.cli.pc.Idle?) && s.h.issued == Issued(c, at) && !s.data.aborted)
  }

  lemma BeginFollows(start: State, t: seq<Action>, begun: Waiter)
    requires begun.s == Exec(start, t) && begun.at.FirstPop? && begun.s.cli.pc.Idle?
    ensures Follows(start, t, Wait(|t|, begun), [], FirstPop)
  {
    assert t[..|t|] == t;
    hide Exec;
  }

  /** One such action other than an install. */
  lemma OneAction(w: Waiter, a: Action) returns (events: seq<Happening>)
    requires PlainAction(w.s, a) && !a.CliInstall? && (w.at.Arming? || w.s.cli.pc.Idle?)
    ensures NoCallBegins(events) && Run(w, events) == w.(s := Apply(w.s, a))
    ensures w.at.Arming? || Apply(w.s, a).cli.pc.Idle?
    ensures Apply(w.s, a).h.issued == w.s.h.issued && Apply(w.s, a).data.aborted == w.s.data.aborted
  {
    hide Run, Step, Record;
    RunNone(w);
    events := match a
      case PubPush(m) => [Publish(m)]
      case PubDone => [Happening.Done]
      case PubStep => [PubMove]
      case _ => if w.s.cli.pc.Idle? then [] else [CliMove];
    if events != [] {
      RunMore(w, [], events[0]);
      assert [] + [events[0]] == events;
    }
    R.TakeIssues(w.s, Publisher);
    R.TakeIssues(w.s, Client);
  }

  lemma ExecOne(start: State, t: seq<Action>, n: nat)
    requires n < |t|
    ensures Exec(start, t[..n + 1]) == Apply(Exec(start, t[..n]), t[n])
  {
    assert t[..n + 1][..n] == t[..n];
    hide Apply;
  }

  lemma Joined(w: Waiter, a: seq<Happening>, b: seq<Happening>) returns (all: seq<Happening>)
    requires NoCallBegins(a) && NoCallBegins(b)
    ensures NoCallBegins(all) && Run(w, all) == Run(Run(w, a), b)
  {
    all := a + b;
    W.RunCat(w, a, b);
    hide Run;
  }

  /** While nothing is installed the program stays where it is, up to steps of the operation it is in. */
  lemma {:induction false} StaysFollows(start: State, t: seq<Action>, n: nat, c: Wait, events: seq<Happening>, at: At)
    returns (all: seq<Happening>)
    requires n <= |t| && Follows(start, t[..n], c, events, at)
    requires NoInstall(t, n, |t|) || !NoInstall(t, c.from, n)
    ensures Follows(start, t, c, all, at)
    decreases |t|
  {
    hide Exec, Run, PlainAction, Apply, NoCallBegins;
    assert t[..|t|] == t;
    all := events;
    if n < |t| {
      var k := |t| - 1;
      var most := t[..k];
      assert most[..n] == t[..n];
      all := StaysFollows(start, most, n, c, events, at);
      if PlainCall(start, t, c.from) {
        PlainPrefix(start, t, c.from, k);
        var more := OneAction(Waiter(Exec(start, most), at, c.begun.returned), t[k]);
        ExecOne(start, t, k);
        all := Joined(c.begun, all, more);
      }
    }
  }

  /** A decision of the program that changes nothing in the object. */
  lemma DecidesFollows(start: State, t: seq<Action>, c: Wait, events: seq<Happening>, at: At, next: At)
    returns (all: seq<Happening>)
    requires Follows(start, t, c, events, at) && Numbered(at) == Numbered(next)
    requires var s := Exec(start, t);
      && !HasThrown(s) && s.cli.pc.Idle?
      && (Issued(c, at) == s.h.issued ==>
            ClientMove(Waiter(s, at, c.begun.returned)) == Waiter(s, next, c.begun.returned))
    ensures Follows(start, t, c, all, next)
  {
    hide Exec, Run, ClientMove, PlainCall;
    all := events + [CliMove];
    RunMore(c.begun, events, CliMove);
  }

  /** OnNextMessage, from the install to its return, unless the client has aborted. */
  lemma ArmsFollows(start: State, t: seq<Action>, n: nat, c: Wait, events: seq<Happening>) returns (all: seq<Happening>)
    requires n <= |t| && Follows(start, t[..n], c, events, Arm)
    requires var s := Exec(start, t[..n]);
      !HasThrown(s) && s.cli.pc.Idle? && (!s.data.aborted ==> n < |t| && t[n] == CliInstall(false))
    ensures Follows(start, t, c, all, Arming)
  {
    hide Exec, Run, PlainAction, PlainCall, Happen;
    var s := Exec(start, t[..n]);
    all := events;
    if PlainCall(start, t, c.from) {
      PlainPrefix(start, t, c.from, n);
      ExecOne(start, t, n);
      Installs(Waiter(s, Arm, c.begun.returned));
      RunMore(c.begun, events, CliMove);
      assert !NoInstall(t, c.from, n + 1);
      all := StaysFollows(start, t, n + 1, c, events + [CliMove], Arming);
    }
  }

  lemma Installs(w: Waiter)
    requires w.at.Arm? && !HasThrown(w.s) && w.s.cli.pc.Idle? && !w.s.data.aborted
    ensures var e := Happen(w, CliMove);
      && e == w.(s := Apply(w.s, CliInstall(false)), at := Arming)
      && e.s.h.issued == w.s.h.issued + 1 && !e.s.data.aborted
  {
  }

  /** The call has ended with `e`. */
  predicate Ends(start: State, t: seq<Action>, c: Wait, events: seq<Happening>, e: Waiter) {
    c.from <= |t| && (PlainCall(start, t, c.from) ==>
      NoCallBegins(events) && Run(c.begun, events) == e
        && (e.returned == Some(false) ==> ReturnsFalse(c.begun, events)))
  }

  /** The decision with which the call returns. */
  lemma ReturnsFollows(start: State, t: seq<Action>, c: Wait, events: seq<Happening>, at: At, e: Waiter)
    returns (all: seq<Happening>)
    requires Follows(start, t, c, events, at) && !at.Outside?
    requires var s := Exec(start, t); !HasThrown(s) && ClientMove(Waiter(s, at, c.begun.returned)) == e && e.at.Outside?
    ensures Ends(start, t, c, all, e)
  {
    hide Exec, Run, ClientMove, PlainCall;
    all := events + [CliMove];
    RunMore(c.begun, events, CliMove);
  }

  // ---------------------------------------------------------------- the decisions one by one

  /** The client looks at the queue and finds nothing. */
  lemma LookFollows(start: State, t: seq<Action>, c: Wait, events: seq<Happening>, at: At) returns (all: seq<Happening>)
    requires Follows(start, t, c, events, at) && Pops(at)
    requires var s := Exec(start, t); !HasThrown(s) && s.cli.pc.Idle? && s.data.queue == []
    ensures match at
      case FirstPop => Follows(start, t, c, all, AskComplete)
      case SecondPop => Follows(start, t, c, all, AskAgain)
      case _ => Ends(start, t, c, all, Waiter(Exec(start, t), Outside, Some(false)))
  {
    hide Exec, Follows, Ends;
    match at {
      case FirstPop => all := DecidesFollows(start, t, c, events, at, AskComplete);
      case SecondPop => all := DecidesFollows(start, t, c, events, at, AskAgain);
      case _ => all := ReturnsFollows(start, t, c, events, at, Waiter(Exec(start, t), Outside, Some(false)));
    }
  }

  /** ... or pops a message. */
  lemma PopFollows(start: State, t: seq<Action>, c: Wait, events: seq<Happening>, at: At) returns (all: seq<Happening>)
    requires Follows(start, t, c, events, at) && Pops(at)
    requires var s := Exec(start, t); !HasThrown(s) && s.data.queue != []
    ensures Ends(start, t, c, all, Waiter(Exec(start, t + [CliPop]), Outside, Some(true)))
  {
    ExecOne(start, t + [CliPop], |t|);
    assert (t + [CliPop])[..|t|] == t && (t + [CliPop])[..|t| + 1] == t + [CliPop];
    hide Exec, Follows, Ends, Apply;
    all := ReturnsFollows(start, t, c, events, at, Waiter(Exec(start, t + [CliPop]), Outside, Some(true)));
  }

  /** It asks whether the publisher is done. */
  lemma AskFollows(start: State, t: seq<Action>, c: Wait, events: seq<Happening>, at: At) returns (all: seq<Happening>)
    requires Follows(start, t, c, events, at) && (at.AskComplete? || at.AskAgain?)
    requires var s := Exec(start, t); !HasThrown(s) && s.cli.pc.Idle?
    ensures var done := Exec(start, t).data.consumer.Finished?;
      if at.AskComplete? then Follows(start, t, c, all, if done then LastPop else Arm)
      else if done then Ends(start, t, c, all, Waiter(Exec(start, t), Outside, Some(false)))
      else Follows(start, t, c, all, Waiting)
  {
    hide Exec, Follows, Ends;
    var done := Exec(start, t).data.consumer.Finished?;
    if at.AskComplete? {
      all := DecidesFollows(start, t, c, events, at, if done then LastPop else Arm);
    } else if done {
      all := ReturnsFollows(start, t, c, events, at, Waiter(Exec(start, t), Outside, Some(false)));
    } else {
      all := DecidesFollows(start, t, c, events, at, Waiting);
    }
  }

  /** The trigger is in place; and, later, it has set the promise. */
  lemma GoOnFollows(start: State, t: seq<Action>, c: Wait, events: seq<Happening>, at: At) returns (all: seq<Happening>)
    requires Follows(start, t, c, events, at) && (at.Arming? || at.Waiting?)
    requires var s := Exec(start, t); !HasThrown(s) && s.cli.pc.Idle? && R.Latest(s)
    requires at.Waiting? ==> c.begun.s.h.issued in Exec(start, t).h.fired
    requires c.begun.s.h.issued >= 0
    ensures Follows(start, t, c, all, if at.Arming? then SecondPop else FinalPop)
  {
    hide Exec, Follows, Ends;
    all := DecidesFollows(start, t, c, events, at, if at.Arming? then SecondPop else FinalPop);
  }

  /** So what `WaitExactly` says of the program holds of the object: a call that a program run has led to, and
      that returns false, does so after Done, or began with nothing to read while a PushComplete could still
      fire; and over an empty queue, unless it began with nothing to read, before Done, and with room. */
  lemma {:induction false} ObjectReturnsFalse(start: State, t: seq<Action>, c: Wait, events: seq<Happening>, e: Waiter,
                                              first: Waiter, before: seq<Happening>)
    requires Ends(start, t, c, events, e) && PlainCall(start, t, c.from) && e.returned == Some(false)
    requires Begins(first, before) && Run(first, before) == c.begun
    ensures e.s.data.consumer.Finished? || (Silent(c.begun.s) && MayNotifyLate(c.begun.s.pub))
    ensures e.s.data.queue == [] || (Silent(c.begun.s) && c.begun.s.data.cap > 0)
  {
    hide Exec, Run, Begins, ReturnsFalse, PlainCall;
    if !(Silent(c.begun.s) && MayNotifyLate(c.begun.s.pub)) { FalseMeansDone(first, before, events); }
    if !(Silent(c.begun.s) && c.begun.s.data.cap > 0) { OtherCallsReadAll(first, before, events); }
  }
}
