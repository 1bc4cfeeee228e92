/** `WorkerThread`: a lock-protected job list, one thread that runs it, and promises.

    Everything between taking and releasing `queueMutex` is one critical section.  The functions
    on `Worker` say what each section does; `WorkerThread` performs them in place; the lemmas are
    about every interleaving of sections. */
module WorkerModel {

  datatype RunState = NotStarted | Running | Sleeping | Stopped | Aborted

  /** A task, known by the order in which it was accepted, and whether someone waits for it. */
  datatype Job = Job(id: nat, promised: bool)

  /** Where the worker thread is: not created; about to take the lock; running the front task;
      back from it and about to take the lock; in `notification.wait`; gone. */
  datatype Place = Unborn | Ready | Executing | Returned | Asleep | Exited

  /** `queue`, `state` are the fields; the rest is where the thread is and what has happened:
      jobs accepted, started, popped after running; the promises' values; how often a promise
      was set a second time, which the library answers with an exception. */
  datatype Worker = Worker(
    state: RunState,
    queue: seq<Job>,
    place: Place,
    accepted: seq<Job>,
    started: seq<Job>,
    done: seq<Job>,
    results: map<nat, bool>,
    clashes: nat,
    destroyed: bool)

  /** `result.set_value(value)` for a job someone waits for. */
  function Resolve(w: Worker, job: Job, value: bool): Worker {
    if !job.promised then w
    else if job.id in w.results then w.(clashes := w.clashes + 1)
    else w.(results := w.results[job.id := value])
  }

  /** `CancelJobs`: cancel and erase every job from position `from` on. */
  function Cancel(w: Worker, from: nat): Worker
    requires from <= |w.queue|
    decreases |w.queue| - from
  {
    if from == |w.queue| then w
    else
      var c := Resolve(w, w.queue[from], false);
      assert c.queue == w.queue;
      Cancel(c.(queue := w.queue[..from] + w.queue[from + 1..]), from)
  }

  function Wake(w: Worker, state: RunState): Worker {
    w.(state := state, place := if w.state.Sleeping? && w.place.Asleep? then Ready else w.place)
  }

  /** `PostTask`, and the locked part of `DoTask` with `promised`. */
  function Post(w: Worker, promised: bool): Worker {
    if w.state.Aborted? then w
    else
      var job := Job(|w.accepted|, promised);
      var p := w.(queue := w.queue + [job], accepted := w.accepted + [job]);
      if p.state.Sleeping? then Wake(p, Running) else p
  }

  function Start(w: Worker): Worker {
    if w.state.NotStarted? then w.(state := Running, place := Ready) else w
  }

  /** All jobs but the first, which may be running, are cancelled. */
  function Stop(w: Worker): Worker {
    Wake(if w.queue != [] then Cancel(w, 1) else w, Stopped)
  }

  /** The second half of `Abort`. */
  function FinishAbort(w: Worker): Worker { Wake(w, Aborted) }

  /** The thread holds the lock and looks for work: take a task, sleep, or leave. */
  function Fetch(w: Worker): Worker {
    if !w.state.Running? then w.(place := Exited)
    else if w.queue != [] then w.(place := Executing, started := w.started + [w.queue[0]])
    else w.(state := Sleeping, place := Asleep)
  }

  /** `TaskDone`, applied to whatever is at the front. */
  function TaskDone(w: Worker): Worker
    requires w.queue != []
  {
    Resolve(w, w.queue[0], true).(queue := w.queue[1..], done := w.done + [w.queue[0]])
  }

  /** The end of the destructor, after `Abort` and `Join`. */
  function Destroy(w: Worker): Worker { Cancel(w, 0).(destroyed := true) }

  datatype Section = Posting(promised: bool) | Starting | Stopping | Aborting | TaskReturns | Working | Destroying

  function Happen(w: Worker, s: Section): Worker {
    if w.destroyed then w else
    match s
    case Posting(promised) => Post(w, promised)
    case Starting => Start(w)
    case Stopping => Stop(w)
    case Aborting => FinishAbort(w)
    case TaskReturns => if w.place.Executing? then w.(place := Returned) else w
    case Working =>
      if w.place.Ready? then Fetch(w)
      else if w.place.Returned? && w.queue != [] then Fetch(TaskDone(w))
      else w
    case Destroying =>
      if w.state.Aborted? && (w.place.Unborn? || w.place.Exited?) then Destroy(w) else w
  }

  function RunAll(w: Worker, sections: seq<Section>): Worker
    decreases |sections|
  {
    if sections == [] then w else Happen(RunAll(w, sections[..|sections| - 1]), sections[|sections| - 1])
  }

  const NEW: Worker := Worker(NotStarted, [], Unborn, [], [], [], map[], 0, false)

  // ---------------------------------------------------------------- the invariant

  predicate Halted(state: RunState) { state.Stopped? || state.Aborted? }

  predicate Busy(w: Worker) { w.place.Executing? || w.place.Returned? }

  predicate Numbered(accepted: seq<Job>, queue: seq<Job>) {
    && (forall i :: 0 <= i < |accepted| ==> accepted[i].id == i)
    && (forall i :: 0 <= i < |queue| ==> queue[i].id < |accepted| && queue[i] == accepted[queue[i].id])
    && (forall i, j :: 0 <= i < j < |queue| ==> queue[i].id < queue[j].id)
  }

  /** Order: jobs are numbered as accepted, started in that order, and - until the first Stop -
      still queued in that order behind those already run. */
  predicate InOrder(w: Worker) {
    && Numbered(w.accepted, w.queue)
    && (!Halted(w.state) ==> w.accepted == w.done + w.queue)
    && w.started <= w.accepted
    && w.started == (if Busy(w) && w.queue != [] then w.done + [w.queue[0]] else w.done)
  }

  /** The running job is at the front, and the thread sleeps exactly when there is nothing to do. */
  predicate Placed(w: Worker) {
    && (Busy(w) ==> w.queue != [])
    && (w.state.Sleeping? <==> w.place.Asleep?)
    && (w.state.Sleeping? ==> w.queue == [])
    && (w.state.NotStarted? ==> w.place.Unborn?)
    && (w.place.Unborn? ==> w.state.NotStarted? || Halted(w.state))
    && (w.place.Exited? ==> Halted(w.state))
    && (w.destroyed ==> w.queue == [] && w.state.Aborted? && (w.place.Unborn? || w.place.Exited?))
  }

  /** A promised job is unresolved while queued; afterwards it is resolved, with true exactly when
      its task ran. */
  predicate Promised(w: Worker) {
    w.clashes == 0 && Settled(w.accepted, w.queue, w.done, w.results)
  }

  predicate Settled(accepted: seq<Job>, queue: seq<Job>, done: seq<Job>, results: map<nat, bool>) {
    && (forall i :: 0 <= i < |queue| ==> queue[i].id !in results)
    && (forall id :: 0 <= id < |accepted| && accepted[id].promised && id !in results ==> accepted[id] in queue)
    && (forall id :: id in results ==> id < |accepted| && accepted[id].promised)
    && (forall id :: id in results ==> (results[id] <==> accepted[id] in done))
    && (forall i :: 0 <= i < |done| ==> done[i] !in queue)
  }

  predicate Valid(w: Worker) { InOrder(w) && Placed(w) && Promised(w) }

  // ---------------------------------------------------------------- one section

  /** Cancelling from `from` on resolves exactly the promises of those jobs, with false. */
  lemma {:induction false} CancelSpec(w: Worker, from: nat)
    requires from <= |w.queue|
    requires forall i, j :: from <= i < j < |w.queue| ==> w.queue[i].id != w.queue[j].id
    requires forall i :: from <= i < |w.queue| ==> w.queue[i].id !in w.results
    ensures var c := Cancel(w, from);
      && c == w.(queue := w.queue[..from], results := c.results)
      && (forall id :: id in w.results ==> id in c.results && c.results[id] == w.results[id])
      && (forall i :: from <= i < |w.queue| && w.queue[i].promised ==> w.queue[i].id in c.results)
      && (forall id :: id in c.results && id !in w.results ==>
            !c.results[id] && exists i :: from <= i < |w.queue| && w.queue[i].id == id && w.queue[i].promised)
    decreases |w.queue| - from
  {
    if from == |w.queue| {
      assert w.queue[..from] == w.queue;
    } else {
      var c := Resolve(w, w.queue[from], false);
      var rest := w.queue[..from] + w.queue[from + 1..];
      var n := c.(queue := rest);
      forall i | from <= i < |rest| ensures rest[i] == w.queue[i + 1] { }
      CancelSpec(n, from);
      assert rest[..from] == w.queue[..from];
      assert Cancel(w, from) == Cancel(n, from);
      forall i | from <= i < |w.queue| && w.queue[i].promised ensures w.queue[i].id in Cancel(n, from).results {
        if i > from { assert rest[i - 1] == w.queue[i]; }
      }
    }
  }

  /** The state with one more job at the back. */
  function Enqueued(w: Worker, promised: bool): Worker {
    var job := Job(|w.accepted|, promised);
    w.(queue := w.queue + [job], accepted := w.accepted + [job])
  }

  lemma EnqueueInOrder(w: Worker, promised: bool)
    requires InOrder(w) && Placed(w)
    ensures InOrder(Enqueued(w, promised))
  {
    assert w.done + (w.queue + [Job(|w.accepted|, promised)]) == (w.done + w.queue) + [Job(|w.accepted|, promised)];
  }

  lemma EnqueuePromised(w: Worker, promised: bool)
    requires InOrder(w) && Promised(w) && (forall i :: 0 <= i < |w.done| ==> w.done[i].id < |w.accepted|)
    ensures Promised(Enqueued(w, promised))
  {
    var e := Enqueued(w, promised);
    var job := Job(|w.accepted|, promised);
    forall id | 0 <= id < |e.accepted| && e.accepted[id].promised && id !in e.results
      ensures e.accepted[id] in e.queue
    {
      if id == |w.accepted| { assert e.queue[|w.queue|] == job; } else { assert w.accepted[id] in w.queue; }
    }
    forall i | 0 <= i < |e.done| ensures e.done[i] !in e.queue {
      assert w.done[i] !in w.queue;
    }
  }

  /** Everything run was started, so accepted. */
  lemma DoneAccepted(w: Worker)
    requires InOrder(w)
    ensures forall i :: 0 <= i < |w.done| ==> i < |w.accepted| && w.done[i] == w.accepted[i] && w.done[i].id == i
  {
    forall i | 0 <= i < |w.done| ensures i < |w.accepted| && w.done[i] == w.accepted[i] {
      assert w.done[i] == w.started[i];
    }
  }

  lemma PostKeeps(w: Worker, promised: bool)
    requires Valid(w) && !w.destroyed
    ensures Valid(Post(w, promised))
  {
    DoneAccepted(w);
    EnqueueInOrder(w, promised);
    EnqueuePromised(w, promised);
  }

  lemma CancelKeeps(w: Worker, from: nat)
    requires Valid(w) && from <= |w.queue| && (Busy(w) ==> 0 < from)
    ensures var c := Cancel(w, from);
      && c == w.(queue := w.queue[..from], results := c.results)
      && InOrder(c.(state := Stopped)) && Promised(c)
  {
    hide Cancel;
    CancelSpec(w, from);
    CancelInOrder(w, from, Cancel(w, from).results);
    CancelPromised(w, from, Cancel(w, from).results);
  }

  lemma CancelInOrder(w: Worker, from: nat, results: map<nat, bool>)
    requires InOrder(w) && Placed(w) && from <= |w.queue| && (Busy(w) ==> 0 < from)
    ensures InOrder(w.(queue := w.queue[..from], results := results, state := Stopped))
  {
    assert Numbered(w.accepted, w.queue[..from]);
    hide Numbered;
  }

  lemma CancelPromised(w: Worker, from: nat, results: map<nat, bool>)
    requires Valid(w) && from <= |w.queue|
    requires forall id :: id in w.results ==> id in results && results[id] == w.results[id]
    requires forall i :: from <= i < |w.queue| && w.queue[i].promised ==> w.queue[i].id in results
    requires forall id :: id in results && id !in w.results ==>
               !results[id] && exists i :: from <= i < |w.queue| && w.queue[i].id == id && w.queue[i].promised
    ensures Promised(w.(queue := w.queue[..from], results := results))
  {
    var c := w.(queue := w.queue[..from], results := results);
    forall id | 0 <= id < |w.accepted| && w.accepted[id].promised && id !in results ensures w.accepted[id] in c.queue {
      var i :| 0 <= i < |w.queue| && w.queue[i] == w.accepted[id];
      assert c.queue[i] == w.accepted[id];
    }
    forall id | id in results ensures id < |w.accepted| && w.accepted[id].promised
                                      && (results[id] <==> w.accepted[id] in w.done) {
      if id !in w.results {
        var i :| from <= i < |w.queue| && w.queue[i].id == id && w.queue[i].promised;
        assert w.queue[i] in w.queue;
      }
    }
  }

  lemma StopKeeps(w: Worker)
    requires Valid(w) && !w.destroyed
    ensures Valid(Stop(w))
  {
    if w.queue != [] { CancelKeeps(w, 1); }
  }

  lemma DestroyKeeps(w: Worker)
    requires Valid(w) && w.state.Aborted? && (w.place.Unborn? || w.place.Exited?)
    ensures Valid(Destroy(w))
  {
    CancelKeeps(w, 0);
  }

  lemma FetchKeeps(w: Worker)
    requires Valid(w) && w.place.Ready?
    ensures Valid(Fetch(w))
  {
    hide Numbered, Settled;
  }

  lemma TaskDoneInOrder(w: Worker)
    requires InOrder(w) && w.queue != [] && w.place.Returned?
    ensures InOrder(TaskDone(w).(place := Ready))
  {
    assert w.done + w.queue == (w.done + [w.queue[0]]) + w.queue[1..];
  }

  lemma TaskDonePromised(w: Worker)
    requires InOrder(w) && Promised(w) && w.queue != []
    ensures Promised(TaskDone(w))
  {
    var d := TaskDone(w);
    var job := w.queue[0];
    assert d.done[|w.done|] == job;
    forall id | 0 <= id < |w.accepted| && w.accepted[id].promised && id !in d.results
      ensures w.accepted[id] in d.queue
    {
      var i :| 0 <= i < |w.queue| && w.queue[i] == w.accepted[id];
      assert i != 0 && d.queue[i - 1] == w.accepted[id];
    }
    forall id | id in d.results ensures id < |w.accepted| && w.accepted[id].promised
                                        && (d.results[id] <==> w.accepted[id] in d.done) {
      if id == job.id { assert w.accepted[id] == job; } else { assert id in w.results; }
    }
    forall i | 0 <= i < |d.done| ensures d.done[i] !in d.queue {
      if i < |w.done| { assert w.done[i] !in w.queue; }
    }
  }

  lemma TaskDoneKeeps(w: Worker)
    requires Valid(w) && w.place.Returned?
    ensures Valid(TaskDone(w).(place := Ready))
  {
    TaskDoneInOrder(w);
    TaskDonePromised(w);
  }

  lemma StateKeeps(w: Worker, s: Section)
    requires Valid(w) && !w.destroyed && (s.Starting? || s.Aborting? || s.TaskReturns?)
    ensures Valid(Happen(w, s))
  {
    hide Numbered, Settled;
  }

  lemma HappenKeeps(w: Worker, s: Section)
    requires Valid(w)
    ensures Valid(Happen(w, s))
  {
    hide InOrder, Promised, Post, Stop, Fetch, TaskDone, Destroy, Cancel;
    if w.destroyed { return; }
    match s {
      case Posting(promised) => PostKeeps(w, promised);
      case Stopping => StopKeeps(w);
      case Working =>
        if w.place.Ready? { FetchKeeps(w); }
        else if w.place.Returned? {
          TaskDoneKeeps(w);
          FetchKeeps(TaskDone(w).(place := Ready));
          FetchIgnoresPlace(TaskDone(w), Ready);
        }
      case Destroying => if w.state.Aborted? && (w.place.Unborn? || w.place.Exited?) { DestroyKeeps(w); }
      case Starting | Aborting | TaskReturns => StateKeeps(w, s);
    }
  }

  // ---------------------------------------------------------------- all interleavings

  /** Working out what to do next is the whole of a section that starts at `Ready`. */
  lemma AboutToWork(was: Worker, trace: seq<Section>, now: Worker)
    requires Valid(now) && !now.destroyed && now.place.Ready? && RunAll(was, trace) == now
    ensures About(was, trace, now)
  {
  }

  lemma {:induction false} RunValid(w: Worker, sections: seq<Section>)
    requires Valid(w)
    ensures Valid(RunAll(w, sections))
    decreases |sections|
  {
    if sections != [] {
      RunValid(w, sections[..|sections| - 1]);
      HappenKeeps(RunAll(w, sections[..|sections| - 1]), sections[|sections| - 1]);
    }
  }

  /** In every interleaving each promise is set at most once; it holds true exactly when its task
      ran to completion; and once the worker is destroyed every promise has been set. */
  lemma PromisesKept(sections: seq<Section>, id: nat)
    ensures var w := RunAll(NEW, sections);
      && w.clashes == 0
      && (id in w.results ==> id < |w.accepted| && w.accepted[id].promised
                              && (w.results[id] <==> w.accepted[id] in w.done))
      && (w.destroyed && id < |w.accepted| && w.accepted[id].promised ==> id in w.results)
  {
    RunValid(NEW, sections);
  }

  /** Tasks are started in the order they were posted, none is skipped, and until the first Stop
      none is lost.  The thread sleeps only when nothing is queued, and when there is work for a
      running worker it is awake: a notification is never missed. */
  lemma OrderAndWakefulness(sections: seq<Section>)
    ensures var w := RunAll(NEW, sections);
      && w.started <= w.accepted
      && (!Halted(w.state) ==> w.accepted == w.done + w.queue)
      && (w.place.Asleep? <==> w.state.Sleeping?)
      && (w.queue != [] && (w.state.Running? || w.state.Sleeping?) ==>
            w.state.Running? && !w.place.Asleep? && !w.place.Exited?)
      && (Busy(w) ==> w.queue != [] && w.started == w.done + [w.queue[0]])
  {
    RunValid(NEW, sections);
  }

  lemma HaltedStays(w: Worker, s: Section)
    requires Valid(w) && Halted(w.state)
    ensures Halted(Happen(w, s).state) && Happen(w, s).started == w.started
  {
    if s.Stopping? && w.queue != [] { CancelKeeps(w, 1); }
    if s.Destroying? && !Busy(w) { CancelKeeps(w, 0); }
    hide InOrder, Promised;
  }

  /** After the first Stop takes effect the worker never runs again and starts nothing more. */
  lemma {:induction false} NothingStartsAfterStop(w: Worker, sections: seq<Section>)
    requires Valid(w) && Halted(w.state)
    ensures Halted(RunAll(w, sections).state) && RunAll(w, sections).started == w.started
    decreases |sections|
  {
    if sections != [] {
      NothingStartsAfterStop(w, sections[..|sections| - 1]);
      RunValid(w, sections[..|sections| - 1]);
      HaltedStays(RunAll(w, sections[..|sections| - 1]), sections[|sections| - 1]);
    }
  }

  /** Of the first `n` jobs accepted none is queued but `front`, at the front. */
  predicate NoneButFront(queue: seq<Job>, n: nat, front: seq<Job>) {
    forall i :: 0 <= i < |queue| && queue[i].id < n ==> i == 0 && front != [] && queue[0] == front[0]
  }

  /** What a section after a Stop leaves of it. */
  predicate StaysCancelled(w: Worker, h: Worker, n: nat, front: seq<Job>) {
    && |w.accepted| <= |h.accepted| && h.accepted[..|w.accepted|] == w.accepted
    && NoneButFront(h.queue, n, front)
    && (forall id :: id in w.results ==> id in h.results && h.results[id] == w.results[id])
  }

  lemma PostStays(w: Worker, promised: bool, n: nat, front: seq<Job>)
    requires Valid(w) && Halted(w.state) && n <= |w.accepted| && NoneButFront(w.queue, n, front)
    ensures StaysCancelled(w, Post(w, promised), n, front)
  {
  }

  lemma CancelStays(w: Worker, from: nat, n: nat, front: seq<Job>)
    requires Valid(w) && n <= |w.accepted| && NoneButFront(w.queue, n, front) && from <= |w.queue|
    ensures StaysCancelled(w, Cancel(w, from), n, front)
  {
    CancelSpec(w, from);
    hide Cancel, Settled;
  }

  lemma WorkStays(w: Worker, n: nat, front: seq<Job>)
    requires Valid(w) && Halted(w.state) && n <= |w.accepted| && NoneButFront(w.queue, n, front)
    ensures StaysCancelled(w, Happen(w, Working), n, front)
  {
    hide Settled, Numbered;
  }

  lemma HappenStays(w: Worker, s: Section, n: nat, front: seq<Job>)
    requires Valid(w) && Halted(w.state) && n <= |w.accepted| && NoneButFront(w.queue, n, front)
    ensures StaysCancelled(w, Happen(w, s), n, front)
  {
    match s {
      case Posting(promised) => PostStays(w, promised, n, front);
      case Stopping => if w.queue != [] { CancelStays(w, 1, n, front); }
      case Destroying => CancelStays(w, 0, n, front);
      case Working => WorkStays(w, n, front);
      case _ =>
    }
    hide Valid, NoneButFront, Cancel, Post, Fetch, TaskDone;
  }

  /** What Stop does at once: all jobs but the first are erased and their promises set, to false. */
  lemma StopErases(w: Worker)
    requires Valid(w) && !w.destroyed
    ensures var h := Happen(w, Stopping);
      && h.state == Stopped && h.accepted == w.accepted && h.done == w.done
      && h.queue == (if w.queue == [] then [] else w.queue[..1])
      && (forall i :: 1 <= i < |w.queue| && w.queue[i].promised ==>
            w.queue[i].id in h.results && !h.results[w.queue[i].id])
      && (forall id :: id in w.results ==> id in h.results && h.results[id] == w.results[id])
      && (forall id :: id in h.results && id !in w.results ==>
            exists i :: 1 <= i < |w.queue| && w.queue[i].promised && w.queue[i].id == id)
  {
    if w.queue != [] { CancelSpec(w, 1); }
    hide Settled, Cancel;
    assert forall i :: 0 <= i < |w.queue| ==> w.queue[i].id !in w.results;
  }

  lemma {:induction false} RunStays(w: Worker, sections: seq<Section>, n: nat, front: seq<Job>)
    requires Valid(w) && Halted(w.state) && n <= |w.accepted| && NoneButFront(w.queue, n, front)
    ensures StaysCancelled(w, RunAll(w, sections), n, front)
    decreases |sections|
  {
    if sections != [] {
      var most := sections[..|sections| - 1];
      RunStays(w, most, n, front);
      RunValid(w, most);
      NothingStartsAfterStop(w, most);
      HappenStays(RunAll(w, most), sections[|sections| - 1], n, front);
      hide Happen, Valid, NoneButFront;
    }
  }

  /** Stop, in every interleaving: of the jobs accepted before it only the front one is ever queued again, the
      promises of those behind it hold false from then on, and every promise given before it has been
      kept or is the front job's. */
  lemma {:induction false} StopCancels(before: seq<Section>, after: seq<Section>)
    requires !RunAll(NEW, before).destroyed
    ensures var w := RunAll(NEW, before);
      var e := RunAll(Happen(w, Stopping), after);
      && NoneButFront(e.queue, |w.accepted|, w.queue)
      && (forall i :: 1 <= i < |w.queue| && w.queue[i].promised ==>
            w.queue[i].id in e.results && !e.results[w.queue[i].id])
      && (forall id :: 0 <= id < |w.accepted| && w.accepted[id].promised ==>
            id in e.results || (e.queue != [] && e.queue[0].id == id))
  {
    var w := RunAll(NEW, before);
    RunValid(NEW, before);
    StopErases(w);
    HappenKeeps(w, Stopping);
    var s := Happen(w, Stopping);
    hide Happen, RunAll, Valid, NoneButFront;
    FrontOnly(w, s);
    RunStays(s, after, |w.accepted|, w.queue);
    RunValid(s, after);
    AllKept(w, s, RunAll(s, after));
  }

  lemma FrontOnly(w: Worker, s: Worker)
    requires s.queue == if w.queue == [] then [] else w.queue[..1]
    ensures NoneButFront(s.queue, |w.accepted|, w.queue)
  {
  }

  lemma AllKept(w: Worker, s: Worker, e: Worker)
    requires Valid(w) && Valid(e) && s.accepted == w.accepted && StaysCancelled(s, e, |w.accepted|, w.queue)
    ensures forall id :: 0 <= id < |w.accepted| && w.accepted[id].promised ==>
              id in e.results || (e.queue != [] && e.queue[0].id == id)
  {
    forall id | 0 <= id < |w.accepted| && w.accepted[id].promised && id !in e.results
      ensures e.queue != [] && e.queue[0].id == id
    {
      assert e.accepted[id] == w.accepted[id];
      var i :| 0 <= i < |e.queue| && e.queue[i] == e.accepted[id];
    }
  }

  lemma {:induction false} RunCat(w: Worker, a: seq<Section>, b: seq<Section>)
    ensures RunAll(w, a + b) == RunAll(RunAll(w, a), b)
    decreases |b|
  {
    if b == [] {
      assert a + b == a;
    } else {
      assert (a + b)[..|a + b| - 1] == a + b[..|b| - 1];
      RunCat(w, a, b[..|b| - 1]);
    }
  }

  /** Another thread's section cannot move the worker thread, except to wake it. */
  lemma OthersLeaveThreadAlone(w: Worker, s: Section)
    requires Valid(w) && !w.destroyed && (s.Posting? || s.Stopping? || s.Aborting?)
    ensures var h := Happen(w, s);
      && !h.destroyed && (h.place == w.place || (w.place.Asleep? && h.place.Ready?))
      && h.done == w.done && h.started == w.started
      && (w.queue != [] ==> h.queue != [] && h.queue[0] == w.queue[0])
  {
    if s.Stopping? && w.queue != [] { CancelKeeps(w, 1); }
  }

  /** `now` is where the thread stands, lock in hand and about to look for work, after `trace`. */
  predicate About(was: Worker, trace: seq<Section>, now: Worker) {
    now.place.Ready? && Fetch(now) == Happen(RunAll(was, trace), Working)
  }

  lemma AboutOnwards(was: Worker, first: seq<Section>, mid: Worker, second: seq<Section>, now: Worker)
    requires About(was, first, mid) && About(mid, second, now) && !mid.destroyed
    requires second == [] || second[0].Working?
    ensures About(was, first + second, now)
  {
    if second == [] {
      assert first + second == first;
    } else {
      var rest := second[1..];
      assert second == [Working] + rest && (first + [Working]) + rest == first + second;
      RunOne(mid, [], Working);
      RunOne(was, first, Working);
      assert RunAll(mid, [Working]) == RunAll(was, first + [Working]);
      RunCat(mid, [Working], rest);
      RunCat(was, first + [Working], rest);
    }
  }

  /** The section begun at `mid` ends, and others follow. */
  lemma AboutEnds(was: Worker, first: seq<Section>, mid: Worker, rest: seq<Section>, now: Worker)
    requires About(was, first, mid) && now == RunAll(Fetch(mid), rest)
    ensures now == RunAll(was, first + [Working] + rest)
  {
    RunOne(was, first, Working);
    RunCat(was, first + [Working], rest);
  }

  lemma FetchIgnoresPlace(w: Worker, place: Place)
    ensures Fetch(w.(place := place)) == Fetch(w)
  {
  }

  lemma TaskDoneIgnoresPlace(w: Worker, place: Place)
    requires w.queue != []
    ensures TaskDone(w.(place := place)) == TaskDone(w).(place := place)
  {
  }

  lemma TickOff(w: Worker)
    requires w.queue != [] && !w.destroyed
    ensures Happen(w.(place := Returned), Working) == Fetch(TaskDone(w).(place := Ready))
  {
    TaskDoneIgnoresPlace(w, Returned);
    FetchIgnoresPlace(TaskDone(w), Returned);
    FetchIgnoresPlace(TaskDone(w), Ready);
  }

  /** Back from a task that others may have interrupted: tick it off and look for the next. */
  lemma TurnTaken(was: Worker, trace: seq<Section>, then_: Worker)
    requires then_ == RunAll(was, trace)
    requires Valid(then_) && !then_.destroyed && then_.place.Executing?
    ensures Valid(TaskDone(then_).(place := Ready))
    ensures About(was, trace + [TaskReturns], TaskDone(then_).(place := Ready))
  {
    hide InOrder, Promised, RunAll, TaskDone;
    RunOne(was, trace, TaskReturns);
    HappenKeeps(then_, TaskReturns);
    TaskDoneKeeps(then_.(place := Returned));
    TaskDoneIgnoresPlace(then_, Returned);
    TickOff(then_);
  }

  lemma RunOne(w: Worker, trace: seq<Section>, s: Section)
    ensures RunAll(w, trace + [s]) == Happen(RunAll(w, trace), s)
  {
    assert (trace + [s])[..|trace + [s]| - 1] == trace;
  }

  lemma RunNext(w: Worker, trace: seq<Section>, i: nat)
    requires i < |trace|
    ensures RunAll(w, trace[..i + 1]) == Happen(RunAll(w, trace[..i]), trace[i])
  {
    assert trace[..i + 1][..i] == trace[..i];
    hide Happen;
  }
}

/** The class itself: fields changed in place, loops as in the source. */
module WorkerThreads {
  import opened Wrappers
  import opened WorkerModel

  class WorkerThread {
    var state: RunState
    var workQueue: seq<Job>
    var results: map<nat, bool>   // the promises' shared states
    var clashes: nat
    var accepted: seq<Job>
    var place: Place              // where the worker thread is
    ghost var started: seq<Job>
    ghost var done: seq<Job>
    ghost var destroyed: bool

    ghost function Now(): Worker
      reads this
    {
      Worker(state, workQueue, place, accepted, started, done, results, clashes, destroyed)
    }

    constructor ()
      ensures Now() == NEW && Valid(Now())
      ensures state == NotStarted && workQueue == [] && results == map[] && place == Unborn
    {
      state, workQueue, results, clashes, accepted := NotStarted, [], map[], 0, [];
      place, started, done, destroyed := Unborn, [], [], false;
    }

    method SetValue(job: Job, value: bool)
      modifies this`results, this`clashes
      ensures Now() == Resolve(old(Now()), job, value)
    {
      if job.promised {
        if job.id in results { clashes := clashes + 1; } else { results := results[job.id := value]; }
      }
    }

    /** Cancel the jobs from position `from`, erasing each as the source's loop does. */
    method CancelJobs(from: nat)
      requires from <= |workQueue|
      modifies this`workQueue, this`results, this`clashes
      ensures Now() == Cancel(old(Now()), from)
    {
      ghost var was := Now();
      while from != |workQueue|
        invariant from <= |workQueue|
        invariant Cancel(Now(), from) == Cancel(was, from)
        invariant state == was.state && accepted == was.accepted
        decreases |workQueue| - from
      {
        SetValue(workQueue[from], false);
        workQueue := workQueue[..from] + workQueue[from + 1..];
      }
    }

    method Wake(newState: RunState)
      modifies this`state, this`place
      ensures Now() == WorkerModel.Wake(old(Now()), newState)
    {
      var sleeping := state == Sleeping;
      state := newState;
      if sleeping {
        if place.Asleep? { place := Ready; } // notification.notify_all()
      }
    }

    method PostTask(promised: bool) returns (job: Option<Job>)
      requires Valid(Now()) && !destroyed
      modifies this
      ensures Now() == Post(old(Now()), promised) && Valid(Now())
      ensures job.None? <==> old(state) == Aborted
      ensures job.Some? ==>
                && job.value == Job(|old(accepted)|, promised)
                && workQueue == old(workQueue) + [job.value] && accepted == old(accepted) + [job.value]
                && results == old(results) && state == (if old(state) == Sleeping then Running else old(state))
                && place == (if old(place).Asleep? then Ready else old(place))
      ensures job.None? ==> Now() == old(Now())
    {
      PostKeeps(Now(), promised);
      job := None;
      if state != Aborted {
        job := Some(Job(|accepted|, promised));
        workQueue := workQueue + [job.value];
        accepted := accepted + [job.value];
        if state == Sleeping {
          Wake(Running);
        }
      }
    }

    method Start() returns (ok: bool)
      requires Valid(Now()) && !destroyed
      modifies this`state, this`place
      ensures Now() == WorkerModel.Start(old(Now())) && Valid(Now())
      ensures ok <==> old(state) == NotStarted
      ensures if ok then state == Running && place == Ready else state == old(state) && place == old(place)
    {
      HappenKeeps(Now(), Starting);
      ok := false;
      if state == NotStarted {
        state := Running;
        place := Ready;
        ok := true;
      }
    }

    method Stop()
      requires Valid(Now()) && !destroyed
      modifies this
      ensures Now() == WorkerModel.Stop(old(Now())) && Valid(Now())
      ensures state == Stopped && workQueue == (if old(workQueue) == [] then [] else old(workQueue)[..1])
      ensures forall i :: 1 <= i < |old(workQueue)| && old(workQueue)[i].promised ==>
                old(workQueue)[i].id in results && !results[old(workQueue)[i].id]
      ensures forall id :: id in old(results) ==> id in results && results[id] == old(results)[id]
      ensures forall id :: id in results && id !in old(results) ==>
                exists i :: 1 <= i < |old(workQueue)| && old(workQueue)[i].promised && old(workQueue)[i].id == id
      ensures accepted == old(accepted) && done == old(done)
      ensures place == if old(place).Asleep? then Ready else old(place)
    {
      StopKeeps(Now());
      StopErases(Now());
      if workQueue != [] {
        CancelJobs(1);
      }
      Wake(Stopped);
    }

    /** The second critical section of `Abort`; the first is `Stop`. */
    method FinishAbort()
      requires Valid(Now()) && !destroyed
      modifies this`state, this`place
      ensures Now() == WorkerModel.FinishAbort(old(Now())) && Valid(Now())
      ensures state == Aborted && place == if old(place).Asleep? then Ready else old(place)
    {
      HappenKeeps(Now(), Aborting);
      Wake(Aborted);
    }

    /** The job the thread will start next; none exactly if it is to sleep or to leave. */
    method GetTask() returns (job: Option<Job>)
      ensures job.None? <==> Fetch(Now()).place.Asleep? || Fetch(Now()).place.Exited?
      ensures job.Some? ==> Fetch(Now()).place.Executing? && Fetch(Now()).started == started + [job.value]
    {
      job := None;
      if state == Running && workQueue != [] {
        job := Some(workQueue[0]);
      }
    }

    method TaskDone()
      requires workQueue != []
      modifies this
      ensures Now() == WorkerModel.TaskDone(old(Now()))
      ensures workQueue == old(workQueue)[1..] && done == old(done) + [old(workQueue)[0]]
      ensures state == old(state) && place == old(place) && accepted == old(accepted)
      ensures var job := old(workQueue)[0];
        results == if job.promised && job.id !in old(results) then old(results)[job.id := true] else old(results)
    {
      var job := workQueue[0];
      SetValue(job, true);
      workQueue := workQueue[1..];
      done := done + [job];
    }

    /** One section of another thread: it moves this one only by waking it, and keeps the front job. */
    method OtherSection(section: Section)
      requires Valid(Now()) && !destroyed && (section.Posting? || section.Stopping? || section.Aborting?)
      modifies this
      ensures Valid(Now()) && !destroyed && Now() == Happen(old(Now()), section)
      ensures place == old(place) || (old(place).Asleep? && place.Ready?)
      ensures done == old(done)
      ensures old(workQueue) != [] ==> workQueue != [] && workQueue[0] == old(workQueue[0])
    {
      OthersLeaveThreadAlone(Now(), section);
      match section {
        case Posting(promised) => var _ := PostTask(promised);
        case Stopping => Stop();
        case Aborting => FinishAbort();
      }
    }

    /** Sections of other threads, while this one does not hold the lock. */
    method Others(sections: seq<Section>)
      requires Valid(Now()) && !destroyed
      requires forall s :: s in sections ==> s.Posting? || s.Stopping? || s.Aborting?
      modifies this
      ensures Valid(Now()) && !destroyed && Now() == RunAll(old(Now()), sections)
      ensures place == old(place) || (old(place).Asleep? && place.Ready?)
      ensures done == old(done)
      ensures old(workQueue) != [] ==> workQueue != [] && workQueue[0] == old(workQueue[0])
    {
      ghost var was := Now();
      assert RunAll(was, sections[..0]) == was;
      hide Valid, Happen, RunAll;
      for i := 0 to |sections|
        invariant Valid(Now()) && !destroyed && Now() == RunAll(was, sections[..i])
        invariant place == was.place || (was.place.Asleep? && place.Ready?)
        invariant done == was.done
        invariant was.queue != [] ==> workQueue != [] && workQueue[0] == was.queue[0]
      {
        RunNext(was, sections, i);
        OtherSection(sections[i]);
      }
      assert sections[..|sections|] == sections;
    }

    /** What other threads do while this one is outside the lock: the next entry of the schedule,
        and nothing once it is used up. */
    method Elsewhere(schedule: seq<seq<Section>>, k: nat) returns (next: nat, ghost trace: seq<Section>)
      requires Valid(Now()) && !destroyed && OnlyOthers(schedule) && k <= |schedule|
      modifies this
      ensures Valid(Now()) && !destroyed && Now() == RunAll(old(Now()), trace)
      ensures place == old(place) || (old(place).Asleep? && place.Ready?)
      ensures done == old(done)
      ensures old(workQueue) != [] ==> workQueue != [] && workQueue[0] == old(workQueue[0])
      ensures next == if k < |schedule| then k + 1 else k
      ensures k == |schedule| ==> trace == []
    {
      next, trace := k, [];
      if k < |schedule| {
        trace := schedule[k];
        Others(schedule[k]);
        next := k + 1;
      }
    }

    /** One turn of the loop in `DoTasks`: the front task is run outside the lock. */
    method DoTask(schedule: seq<seq<Section>>, k: nat) returns (next: nat, ghost trace: seq<Section>)
      requires Valid(Now()) && !destroyed && place.Ready? && OnlyOthers(schedule) && k <= |schedule|
      requires state == Running && workQueue != []
      modifies this
      ensures Valid(Now()) && !destroyed && About(old(Now()), trace, Now())
      ensures trace != [] && trace[0].Working?
      ensures done == old(done) + [old(workQueue[0])]
      ensures next == if k < |schedule| then k + 1 else k
      ensures k == |schedule| ==> workQueue == old(workQueue[1..])
    {
      ghost var was := Now();
      HappenKeeps(was, Working);
      place := Executing;                   // the lock is released and the job runs
      started := started + [workQueue[0]];
      assert Now() == Happen(was, Working);
      ghost var during;
      next, during := Elsewhere(schedule, k);
      RunOne(was, [], Working);
      RunCat(was, [Working], during);
      TurnTaken(was, [Working] + during, Now());
      trace := [Working] + during + [TaskReturns];
      TaskDone();                           // the lock is held again
      place := Ready;
    }

    /** Drain the queue; the lock is released while each task runs.  On entry the lock is held and
        the thread is about to look for a task. */
    method DoTasks(schedule: seq<seq<Section>>, k: nat) returns (next: nat, ghost trace: seq<Section>)
      requires Valid(Now()) && !destroyed && place.Ready? && OnlyOthers(schedule) && k <= |schedule|
      modifies this
      ensures Valid(Now()) && !destroyed && k <= next <= |schedule| && About(old(Now()), trace, Now())
      ensures trace == [] || trace[0].Working?
      ensures state != Running || workQueue == []
    {
      ghost var was := Now();
      next, trace := k, [];
      var t := GetTask();
      while t.Some?
        invariant Valid(Now()) && !destroyed && k <= next <= |schedule|
        invariant About(was, trace, Now()) && (trace == [] || trace[0].Working?)
        invariant t.Some? <==> state == Running && workQueue != []
        decreases |schedule| - next, |workQueue|
      {
        ghost var mid, more := Now(), [];
        next, more := DoTask(schedule, next);
        AboutOnwards(was, trace, mid, more, Now());
        trace := trace + more;
        t := GetTask();
      }
    }

    /** `Sleep`: nothing to do, so wait until another thread's `Wake`, or until the schedule holds
        nothing more that could wake this thread. */
    method Sleep(schedule: seq<seq<Section>>, k: nat) returns (next: nat, ghost trace: seq<Section>)
      requires Valid(Now()) && !destroyed && place.Ready? && OnlyOthers(schedule) && k <= |schedule|
      requires state == Running && workQueue == []
      modifies this
      ensures Valid(Now()) && !destroyed && k <= next <= |schedule| && Now() == RunAll(Fetch(old(Now())), trace)
      ensures (place.Ready? && k < next) || place.Asleep?
    {
      FetchKeeps(Now());
      state := Sleeping;
      place := Asleep;                      // the lock is released until a wake-up
      ghost var was := Now();
      next, trace := k, [];
      while place.Asleep? && next < |schedule|
        invariant Valid(Now()) && !destroyed && k <= next <= |schedule| && Now() == RunAll(was, trace)
        invariant (place.Ready? && k < next) || place.Asleep?
      {
        ghost var during;
        next, during := Elsewhere(schedule, next);
        RunCat(was, trace, during);
        trace := trace + during;
      }
    }

    /** One turn of the main loop: run what there is, then sleep if still running. */
    method Turn(schedule: seq<seq<Section>>, k: nat, ghost was: Worker, ghost before: seq<Section>)
      returns (next: nat, ghost trace: seq<Section>)
      requires Valid(Now()) && !destroyed && place.Ready? && OnlyOthers(schedule) && k <= |schedule|
      requires About(was, before, Now())
      modifies this
      ensures Valid(Now()) && !destroyed && k <= next <= |schedule|
      ensures (place.Ready? && About(was, trace, Now()) && (state == Running ==> k < next))
              || (place.Asleep? && Now() == RunAll(was, trace))
    {
      ghost var mid := Now();
      next, trace := DoTasks(schedule, k);
      AboutOnwards(was, before, mid, trace, Now());
      trace := before + trace;
      if state == Running {
        ghost var rest;
        mid := Now();
        next, rest := Sleep(schedule, next);
        AboutEnds(was, trace, mid, rest, Now());
        trace := trace + [Working] + rest;
        if place.Ready? { AboutToWork(was, trace, Now()); }
      }
    }

    /** What the thread runs.  It returns when the worker has been stopped; here also when the
        thread sleeps and the schedule holds nothing more that could wake it. */
    method Run(schedule: seq<seq<Section>>) returns (ghost trace: seq<Section>)
      requires Valid(Now()) && !destroyed && place.Ready? && OnlyOthers(schedule)
      modifies this
      ensures Valid(Now()) && !destroyed && Now() == RunAll(old(Now()), trace)
      ensures if Halted(state) then place.Exited? else place.Asleep? && state == Sleeping && done == accepted
    {
      ghost var was := Now();
      var k := 0;
      trace := [];
      while state == Running
        invariant Valid(Now()) && !destroyed && k <= |schedule|
        invariant (place.Ready? && About(was, trace, Now())) || (place.Asleep? && Now() == RunAll(was, trace))
        decreases |schedule| - k, if state == Running then 1 else 0
      {
        k, trace := Turn(schedule, k, was, trace);
      }
      if place.Ready? {
        FetchKeeps(Now());
        RunOne(was, trace, Working);
        trace := trace + [Working];
        place := Exited;
      }
    }
  }

  predicate OnlyOthers(schedule: seq<seq<Section>>) {
    forall k :: 0 <= k < |schedule| ==> forall s :: s in schedule[k] ==> s.Posting? || s.Stopping? || s.Aborting?
  }
}
