/** A subscriber consumed on a worker thread: `HandleUpdates` pops a slice of messages and posts a job
    that installs a trigger; the trigger, when fired, posts a job that runs `HandleUpdates` again.

    The state machines of `PipeSubscriber` and `WorkerThread` run side by side.  The result is that the
    chain of continuations is never broken and never doubled. */
module Composition {
  import opened Wrappers
  import opened NotifyModel
  import opened NotifyInvariant
  import opened NotifyLedger
  import opened NotifyRearm
  import opened NotifyTargets
  import W = WorkerModel

  /** What a job of the worker does: `HandleUpdates` for the client, or its second lambda, or anything
      else. */
  datatype Kind = Handler | Installer | Other

  /** Where the running task is.  `Slice(n)` may still pop `n` messages; `Posting` is about to post the
      installer; `Arming` is about to call `OnNextMessage`; `InCall` is inside it; `Over` has nothing left to do
      for the client's continuation, as any other job from the start. */
  datatype Body = Outside | Slice(left: nat) | Posting | Arming | InCall | Over

  /** `kinds` says what each accepted job is. */
  datatype System = System(s: State, w: W.Worker, kinds: seq<Kind>, body: Body, slice: nat)

  datatype Act =
    | Publish(a: Action)  // an operation or step of the publisher thread
    | Task                // a step of the task running on the worker
    | AbortClient         // user code on the worker aborts the client
    | Loop                // a critical section of the worker's own loop
    | PostOther(promised: bool)
    | StartWorker

  predicate OfPublisher(a: Action) { a.PubPush? || a.PubStartBatch? || a.PubEndBatch? || a.PubDone? || a.PubStep? }

  /** The next step of this thread posts the live trigger to its target, the worker. */
  predicate Posts(sh: Shared, l: Local) {
    (l.pc == InPublishNext(Post) || l.pc == InPullNext(Post)) && sh.onNotify.Some?
  }

  function PostJob(c: System, kind: Kind, promised: bool): System {
    c.(w := W.Post(c.w, promised), kinds := c.kinds + [kind])
  }

  function BodyOf(c: System, kind: Kind): Body {
    match kind case Handler => Slice(c.slice) case Installer => Arming case Other => Over
  }

  function Do(c: System, act: Act): System {
    match act
    case Publish(a) =>
      if !OfPublisher(a) then c
      else
        var n := c.(s := Apply(c.s, a));
        if a.PubStep? && Posts(c.s.sh, c.s.pub) then PostJob(n, Handler, false) else n
    case Task =>
      (match c.body
       case Slice(n) =>
         if n > 0 && c.s.data.queue != [] then c.(s := Apply(c.s, CliPop), body := Slice(n - 1))
         else c.(body := Posting)
       case Posting => PostJob(c, Installer, false).(body := Over)
       case Arming =>
         if c.s.data.aborted then c.(body := Over) else c.(s := Apply(c.s, CliInstall(true)), body := InCall)
       case InCall =>
         if c.s.cli.pc.Idle? then c.(body := Over)
         else
           var n := c.(s := Apply(c.s, CliStep));
           if Posts(c.s.sh, c.s.cli) then PostJob(n, Handler, false) else n
       case Outside | Over => c)
    case AbortClient => if c.body.Slice? || c.body.Over? then c.(s := Apply(c.s, CliAbort)) else c
    case Loop =>
      if c.body.Over? then c.(w := W.Happen(c.w, W.TaskReturns), body := Outside)
      else if !c.body.Outside? then c
      else
        var w := W.Happen(c.w, W.Working);
        c.(w := w, body := if w.place.Executing? && w.queue != [] && w.queue[0].id < |c.kinds|
                           then BodyOf(c, c.kinds[w.queue[0].id]) else Outside)
    case PostOther(promised) => PostJob(c, Other, promised)
    case StartWorker => c.(w := W.Happen(c.w, W.Starting))
  }

  function RunAll(c: System, acts: seq<Act>): System
    decreases |acts|
  {
    if acts == [] then c else Do(RunAll(c, acts[..|acts| - 1]), acts[|acts| - 1])
  }

  /** A new client on a worker that has not been stopped and may be busy with other things:
      `ConsumeUpdates` has just posted its first `HandleUpdates`. */
  predicate Start(c: System, before: W.Worker) {
    && Init(c.s)
    && W.Valid(before) && !W.Halted(before.state) && !before.place.Returned?
    && c.w == W.Post(before, true) && |c.kinds| == |before.accepted| + 1
    && (forall i :: 0 <= i < |before.accepted| ==> c.kinds[i].Other?) && c.kinds[|before.accepted|].Handler?
    && c.body == (if before.place.Executing? then Over else Outside)
  }

  // ---------------------------------------------------------------- the token

  function Weight(kinds: seq<Kind>, job: W.Job): nat {
    if job.id < |kinds| && !kinds[job.id].Other? then 1 else 0
  }

  function Weigh(kinds: seq<Kind>, jobs: seq<W.Job>): nat
    decreases |jobs|
  {
    if jobs == [] then 0 else Weigh(kinds, jobs[..|jobs| - 1]) + Weight(kinds, jobs[|jobs| - 1])
  }

  /** The jobs waiting behind the running one. */
  function Waiting(w: W.Worker): seq<W.Job> {
    if W.Busy(w) && w.queue != [] then w.queue[1..] else w.queue
  }

  function BodyWeight(body: Body): nat { if body.Slice? || body.Posting? || body.Arming? then 1 else 0 }

  /** The client's last trigger is being installed, pending or live. */
  predicate Armed(s: State) { s.h.issued > 0 && s.h.issued - 1 !in s.h.fired }

  /** The continuations of the client: handler or installer jobs waiting; one running that has not yet
      handed over; a trigger not yet fired.  Firing and posting are one step. */
  function Tokens(c: System): int {
    Weigh(c.kinds, Waiting(c.w)) + BodyWeight(c.body) + (if Armed(c.s) then 1 else 0)
  }

  predicate OneToken(c: System) {
    Tokens(c) == 1 || (c.s.data.aborted && Tokens(c) == 0)
  }

  // ---------------------------------------------------------------- what every step keeps

  /** The protocol side: a re-arming client whose triggers have targets. */
  ghost predicate ProtocolOk(s: State) {
    Rearming(s) && Targets(s.sh, s.pub, s.cli) && forall id :: Accounted(s, id)
  }

  /** The worker side, and where the running task is. */
  predicate WorkerOk(c: System) {
    && W.Valid(c.w) && !W.Halted(c.w.state) && !c.w.destroyed && |c.kinds| == |c.w.accepted|
    && (c.w.place.Executing? <==> !c.body.Outside?) && (c.body.InCall? || c.s.cli.pc.Idle?)
  }

  ghost predicate Good(c: System) { ProtocolOk(c.s) && WorkerOk(c) && OneToken(c) }

  /** A trigger about to be posted is the client's last, and has not fired. */
  lemma PostsTheLast(s: State, t: Thread)
    requires ProtocolOk(s) && Posts(s.sh, LocalOf(s, t))
    ensures s.sh.onNotify.value == s.h.issued - 1 && Armed(s)
  {
    assert Accounted(s, s.sh.onNotify.value);
  }

  lemma ProtocolKeeps(s: State, a: Action)
    requires ProtocolOk(s) && Rearms(s, a) && Posted(a)
    ensures ProtocolOk(Apply(s, a))
  {
    RearmKeeps(s, a);
    ApplyTargets(s, a);
    forall id ensures Accounted(Apply(s, a), id) { ApplyAccounted(s, a, id); }
  }

  /** A step fires only by posting, and then it fires the last trigger. */
  lemma TakeDisarms(s: State, t: Thread)
    requires ProtocolOk(s) && CanStep(s.sh, LocalOf(s, t))
    ensures Armed(Take(s, t)) == (Armed(s) && !Posts(s.sh, LocalOf(s, t)))
    ensures Take(s, t).data == s.data
  {
    var l := LocalOf(s, t);
    var o := Step(s.sh, l, s.data.queue == []);
    StepFrame(s.sh, l, s.data.queue == []);
    if Posts(s.sh, l) {
      PostsTheLast(s, t);
      assert o.e == Fired(s.h.issued - 1);
    } else {
      FiresByPosting(s.sh, l, s.data.queue == []);
    }
    RecordArms(s.h, t, o.e);
  }

  lemma FiresByPosting(sh: Shared, l: Local, empty: bool)
    requires NeverCalls(l) && !Posts(sh, l)
    ensures !Step(sh, l, empty).e.Fired?
  {
    StepFrame(sh, l, empty);
  }

  lemma RecordArms(h: History, t: Thread, e: Event)
    ensures Record(h, t, e).issued == h.issued
    ensures Record(h, t, e).fired == if e.Fired? then h.fired + multiset{e.id} else h.fired
  {
  }

  lemma PublisherActs(s: State, a: Action)
    requires ProtocolOk(s) && OfPublisher(a)
    ensures ProtocolOk(Apply(s, a)) && Apply(s, a).cli == s.cli && Apply(s, a).data.aborted == s.data.aborted
    ensures Armed(Apply(s, a)) == (Armed(s) && !(a.PubStep? && Posts(s.sh, s.pub)))
    ensures Posts(s.sh, s.pub) ==> Armed(s)
  {
    if Posts(s.sh, s.pub) { PostsTheLast(s, Publisher); }
    ProtocolKeeps(s, a);
    if a.PubStep? && CanStep(s.sh, s.pub) { TakeDisarms(s, Publisher); }
  }

  lemma ClientSteps(s: State)
    requires ProtocolOk(s)
    ensures ProtocolOk(Apply(s, CliStep)) && Apply(s, CliStep).data == s.data
    ensures Armed(Apply(s, CliStep)) == (Armed(s) && !Posts(s.sh, s.cli))
    ensures Posts(s.sh, s.cli) ==> Armed(s)
  {
    if Posts(s.sh, s.cli) { PostsTheLast(s, Client); }
    ProtocolKeeps(s, CliStep);
    if CanStep(s.sh, s.cli) { TakeDisarms(s, Client); }
  }

  /** With nothing armed every trigger has fired, so the client may arm the next. */
  lemma ClientArms(s: State)
    requires ProtocolOk(s) && s.cli.pc.Idle? && !Armed(s) && !s.data.aborted
    ensures ProtocolOk(Apply(s, CliInstall(true))) && Armed(Apply(s, CliInstall(true)))
    ensures Apply(s, CliInstall(true)).data == s.data && !Apply(s, CliInstall(true)).cli.pc.Idle?
  {
    ProtocolKeeps(s, CliInstall(true));
    assert Accounted(s, s.h.issued);
  }

  lemma ClientPops(s: State, a: Action)
    requires ProtocolOk(s) && s.cli.pc.Idle? && (a.CliPop? || a.CliAbort?)
    ensures ProtocolOk(Apply(s, a)) && Apply(s, a).cli == s.cli && Armed(Apply(s, a)) == Armed(s)
    ensures a.CliPop? ==> Apply(s, a).data.aborted == s.data.aborted
    ensures s.data.aborted ==> Apply(s, a).data.aborted
  {
    ProtocolKeeps(s, a);
  }

  // ---------------------------------------------------------------- the worker's side

  lemma {:induction false} WeighMoreKinds(kinds: seq<Kind>, kind: Kind, jobs: seq<W.Job>)
    requires forall i :: 0 <= i < |jobs| ==> jobs[i].id < |kinds|
    ensures Weigh(kinds + [kind], jobs) == Weigh(kinds, jobs)
    decreases |jobs|
  {
    if jobs != [] { WeighMoreKinds(kinds, kind, jobs[..|jobs| - 1]); }
  }

  lemma WeighPosted(kinds: seq<Kind>, jobs: seq<W.Job>, job: W.Job, kind: Kind)
    requires (forall i :: 0 <= i < |jobs| ==> jobs[i].id < |kinds|) && job.id == |kinds|
    ensures Weigh(kinds + [kind], jobs + [job]) == Weigh(kinds, jobs) + (if kind.Other? then 0 else 1)
  {
    assert (jobs + [job])[..|jobs + [job]| - 1] == jobs;
    WeighMoreKinds(kinds, kind, jobs);
  }

  lemma {:induction false} WeighFront(kinds: seq<Kind>, job: W.Job, jobs: seq<W.Job>)
    ensures Weigh(kinds, [job] + jobs) == Weight(kinds, job) + Weigh(kinds, jobs)
    decreases |jobs|
  {
    var all := [job] + jobs;
    if jobs == [] {
      assert all[..|all| - 1] == [];
    } else {
      assert all[..|all| - 1] == [job] + jobs[..|jobs| - 1];
      WeighFront(kinds, job, jobs[..|jobs| - 1]);
    }
  }

  lemma PostWaits(w: W.Worker, promised: bool)
    requires W.Valid(w) && !W.Halted(w.state) && !w.destroyed
    ensures var n := W.Post(w, promised);
      && W.Valid(n) && !W.Halted(n.state) && !n.destroyed && |n.accepted| == |w.accepted| + 1
      && Waiting(n) == Waiting(w) + [W.Job(|w.accepted|, promised)]
      && (n.place.Executing? <==> w.place.Executing?)
    ensures forall i :: 0 <= i < |Waiting(w)| ==> Waiting(w)[i].id < |w.accepted|
  {
    W.PostKeeps(w, promised);
  }

  lemma PostJobKeeps(c: System, kind: Kind, promised: bool)
    requires WorkerOk(c)
    ensures WorkerOk(PostJob(c, kind, promised))
    ensures Tokens(PostJob(c, kind, promised)) == Tokens(c) + (if kind.Other? then 0 else 1)
  {
    PostWaits(c.w, promised);
    WeighPosted(c.kinds, Waiting(c.w), W.Job(|c.w.accepted|, promised), kind);
  }

  /** What the worker's loop does to the jobs waiting: it takes the first, or none. */
  predicate Takes(w: W.Worker, n: W.Worker) {
    && W.Valid(n) && !W.Halted(n.state) && !n.destroyed && n.accepted == w.accepted
    && (if n.place.Executing? then
          n.queue != [] && Waiting(w) == [n.queue[0]] + Waiting(n) && n.queue[0].id < |n.accepted|
        else Waiting(n) == Waiting(w))
  }

  lemma ReadyTakes(w: W.Worker)
    requires W.Valid(w) && !W.Halted(w.state) && !w.destroyed && w.place.Ready?
    ensures Takes(w, W.Fetch(w))
  {
    hide W.InOrder, W.Promised, W.Placed;
    W.FetchKeeps(w);
    if w.queue != [] {
      Numbered(w);
      assert w.queue == [w.queue[0]] + w.queue[1..];
    }
  }

  lemma ReturnedTakes(w: W.Worker)
    requires W.Valid(w) && !W.Halted(w.state) && !w.destroyed && w.place.Returned?
    ensures Takes(w, W.Fetch(W.TaskDone(w).(place := W.Ready)))
  {
    W.TaskDoneKeeps(w);
    var d := W.TaskDone(w).(place := W.Ready);
    ReadyTakes(d);
    hide W.InOrder, W.Promised, W.Fetch;
    assert Waiting(d) == Waiting(w);
  }

  lemma LoopTakes(w: W.Worker)
    requires W.Valid(w) && !W.Halted(w.state) && !w.destroyed && !w.place.Executing?
    ensures Takes(w, W.Happen(w, W.Working))
  {
    if w.place.Ready? {
      ReadyTakes(w);
    } else if w.place.Returned? {
      ReturnedTakes(w);
      W.FetchIgnoresPlace(W.TaskDone(w), W.Ready);
    }
    hide W.InOrder, W.Promised, W.Fetch, W.TaskDone;
  }

  lemma Numbered(w: W.Worker)
    requires W.Valid(w) && w.queue != []
    ensures w.queue[0].id < |w.accepted|
  {
  }

  lemma TaskReturnsKeeps(w: W.Worker)
    requires W.Valid(w) && !W.Halted(w.state) && !w.destroyed && w.place.Executing?
    ensures var n := W.Happen(w, W.TaskReturns);
      && W.Valid(n) && !W.Halted(n.state) && !n.destroyed && n.accepted == w.accepted && n.place.Returned?
      && Waiting(n) == Waiting(w)
  {
    W.HappenKeeps(w, W.TaskReturns);
    hide W.InOrder, W.Promised;
  }

  lemma StartWaits(w: W.Worker)
    requires W.Valid(w) && !W.Halted(w.state) && !w.destroyed
    ensures var n := W.Happen(w, W.Starting);
      && W.Valid(n) && !W.Halted(n.state) && !n.destroyed && n.accepted == w.accepted
      && (n.place.Executing? <==> w.place.Executing?) && Waiting(n) == Waiting(w)
  {
    W.HappenKeeps(w, W.Starting);
    hide W.InOrder, W.Promised;
  }

  lemma LoopKeeps(c: System)
    requires WorkerOk(c)
    ensures WorkerOk(Do(c, Loop)) && Tokens(Do(c, Loop)) == Tokens(c) && Do(c, Loop).s == c.s
  {
    hide W.Valid, W.Happen, Waiting, Weigh, Armed;
    if c.body.Over? {
      TaskReturnsKeeps(c.w);
    } else if c.body.Outside? {
      LoopTakes(c.w);
      var n := W.Happen(c.w, W.Working);
      if n.place.Executing? { WeighFront(c.kinds, n.queue[0], Waiting(n)); }
    }
  }

  // ---------------------------------------------------------------- all runs

  lemma TaskKeeps(c: System)
    requires Good(c)
    ensures Good(Do(c, Task))
  {
    hide ProtocolOk, Weigh, Waiting, Armed, W.Valid, W.Happen, W.Post, Apply;
    match c.body {
      case Slice(n) => ClientPops(c.s, CliPop);
      case Posting => PostJobKeeps(c, Installer, false);
      case Arming => if !c.s.data.aborted { ClientArms(c.s); }
      case InCall =>
        ClientSteps(c.s);
        PostJobKeeps(c.(s := Apply(c.s, CliStep)), Handler, false);
      case Outside | Over =>
    }
  }

  lemma DoKeeps(c: System, act: Act)
    requires Good(c)
    ensures Good(Do(c, act))
  {
    hide ProtocolOk, Weigh, Waiting, Armed, W.Valid, W.Happen, W.Post, Apply;
    match act {
      case Publish(a) =>
        if OfPublisher(a) {
          PublisherActs(c.s, a);
          PostJobKeeps(c.(s := Apply(c.s, a)), Handler, false);
        }
      case Task => TaskKeeps(c);
      case AbortClient => if c.body.Slice? || c.body.Over? { ClientPops(c.s, CliAbort); }
      case Loop => LoopKeeps(c);
      case PostOther(promised) => PostJobKeeps(c, Other, promised);
      case StartWorker => StartWaits(c.w);
    }
  }

  lemma {:induction false} WeighOthers(kinds: seq<Kind>, jobs: seq<W.Job>)
    requires forall i :: 0 <= i < |jobs| ==> jobs[i].id < |kinds| && kinds[jobs[i].id].Other?
    ensures Weigh(kinds, jobs) == 0
    decreases |jobs|
  {
    if jobs != [] { WeighOthers(kinds, jobs[..|jobs| - 1]); }
  }

  lemma InitOk(s: State)
    requires Init(s)
    ensures ProtocolOk(s) && !Armed(s)
  {
    InitInvariant(s);
  }

  lemma NotDestroyed(w: W.Worker)
    requires W.Valid(w) && !W.Halted(w.state)
    ensures !w.destroyed
  {
  }

  lemma StartsGood(c: System, before: W.Worker)
    requires Start(c, before)
    ensures Good(c)
  {
    hide W.Valid, W.Post, Waiting, Weigh, ProtocolOk, Armed;
    var others := c.kinds[..|before.accepted|];
    InitOk(c.s);
    NotDestroyed(before);
    PostWaits(before, true);
    WeighOthers(others, Waiting(before));
    WeighPosted(others, Waiting(before), W.Job(|before.accepted|, true), Handler);
    assert c.kinds == others + [Handler];
  }

  /** Single-token conservation: from the first `ConsumeUpdates` on, in every interleaving of the
      publisher, the client's tasks and the worker's loop, and whatever other jobs are posted, the
      client has exactly one continuation.  Aborting the client may end it.  No throw is reached. */
  lemma {:induction false} OneContinuation(c: System, before: W.Worker, acts: seq<Act>)
    requires Start(c, before)
    ensures var e := RunAll(c, acts); Good(e) && OneToken(e) && !HasThrown(e.s)
    decreases |acts|
  {
    if acts == [] {
      StartsGood(c, before);
    } else {
      OneContinuation(c, before, acts[..|acts| - 1]);
      DoKeeps(RunAll(c, acts[..|acts| - 1]), acts[|acts| - 1]);
    }
  }

  lemma {:induction false} WeighTwo(kinds: seq<Kind>, jobs: seq<W.Job>, i: nat)
    requires i < |jobs|
    ensures Weigh(kinds, jobs) >= Weight(kinds, jobs[i])
    ensures forall j :: i < j < |jobs| ==> Weigh(kinds, jobs) >= Weight(kinds, jobs[i]) + Weight(kinds, jobs[j])
    decreases |jobs|
  {
    if i < |jobs| - 1 {
      var most := jobs[..|jobs| - 1];
      WeighTwo(kinds, most, i);
      forall j | i < j < |jobs| ensures Weigh(kinds, jobs) >= Weight(kinds, jobs[i]) + Weight(kinds, jobs[j]) {
        if j < |jobs| - 1 { assert most[j] == jobs[j]; }
      }
    }
  }

  /** Two handlers of one client never overlap: while one is running and has not handed over, no other
      handler or installer waits and no trigger is armed; while a trigger is armed none waits; and never
      do two wait. */
  lemma HandlersNeverOverlap(c: System, before: W.Worker, acts: seq<Act>, i: nat)
    requires Start(c, before) && i < |Waiting(RunAll(c, acts).w)|
    ensures var e := RunAll(c, acts);
      var jobs := Waiting(e.w);
      Weight(e.kinds, jobs[i]) == 1 ==>
        && BodyWeight(e.body) == 0 && !Armed(e.s)
        && (forall j :: i < j < |jobs| ==> Weight(e.kinds, jobs[j]) == 0)
    ensures var e := RunAll(c, acts); BodyWeight(e.body) == 1 ==> !Armed(e.s)
  {
    var e := RunAll(c, acts);
    OneContinuation(c, before, acts);
    hide RunAll, Weigh, Good;
    WeighTwo(e.kinds, Waiting(e.w), i);
  }

  // ---------------------------------------------------------------- one handler on its own

  function Tasks(n: nat): seq<Act> { seq(n, i => Task) }

  lemma {:induction false} RunFirst(c: System, act: Act, acts: seq<Act>)
    ensures RunAll(c, [act] + acts) == RunAll(Do(c, act), acts)
    decreases |acts|
  {
    hide Do;
    var all := [act] + acts;
    if acts == [] {
      assert all[..|all| - 1] == [];
    } else {
      assert all[..|all| - 1] == [act] + acts[..|acts| - 1];
      RunFirst(c, act, acts[..|acts| - 1]);
    }
  }

  /** A handler left to itself: it pops the oldest messages, as many as its slice allows, and posts one job,
      the installer. */
  lemma {:induction false} SliceTakes(c: System, left: nat)
    requires c.body == Slice(left) && c.s.cli.pc.Idle? && !HasThrown(c.s)
    ensures var queue := c.s.data.queue;
      var k := if left < |queue| then left else |queue|;
      var e := RunAll(c, Tasks(k + 2));
      && e.s.h.popped == c.s.h.popped + queue[..k] && e.s.data.queue == queue[k..] && e.s.cli == c.s.cli
      && e.body.Over? && e.w == W.Post(c.w, false) && e.kinds == c.kinds + [Installer]
    decreases left
  {
    hide RunAll, W.Post;
    var queue := c.s.data.queue;
    if left > 0 && queue != [] {
      var n := Do(c, Task);
      assert n == c.(s := Pop(c.s), body := Slice(left - 1));
      SliceTakes(n, left - 1);
      var k := if left < |queue| then left else |queue|;
      assert Tasks(k + 2) == [Task] + Tasks(k + 1);
      RunFirst(c, Task, Tasks(k + 1));
      assert queue[..k] == [queue[0]] + queue[1..][..k - 1] && queue[1..][k - 1..] == queue[k..];
    } else {
      assert Tasks(2) == [Task] + Tasks(1) && Tasks(1) == [Task] + Tasks(0);
      RunFirst(c, Task, Tasks(1));
      RunFirst(c.(body := Posting), Task, Tasks(0));
      RunNothing(Do(Do(c, Task), Task));
      assert c.s.h.popped + queue[..0] == c.s.h.popped && queue[0..] == queue;
    }
  }

  lemma RunNothing(c: System)
    ensures RunAll(c, Tasks(0)) == c
  {
  }
}
