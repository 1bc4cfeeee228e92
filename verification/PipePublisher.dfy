/** `PipePublisher`: fan-out to a changing list of consumers, with batches.

    The operations are serialised.  A consumer that aborts, or whose owner drops it, may do so at any
    time; the publisher looks at each consumer once per sweep, so doing it during a sweep is the same
    as doing it before or after. */
module Publishing {

  /** A call of the consumer interface. */
  datatype Call<Msg> = PushMessage(m: Msg) | StartBatch | EndBatch | Done

  /** A consumer ever installed: the calls it had, whether it is aborting or the publisher holds the
      last reference, how much had been published when it was installed and when it was removed. */
  datatype Consumer<Msg> = Consumer(
    received: seq<Msg>,
    started: int,
    ended: int,
    finished: int,
    gone: bool,
    from: nat,
    upto: nat)

  /** The list of clients (by the order in which they were installed), its separate length, the open
      batch, all consumers ever, and everything published. */
  datatype Pub<Msg> = Pub(
    clients: seq<nat>,
    numClients: int,
    batch: bool,
    consumers: seq<Consumer<Msg>>,
    published: seq<Msg>)

  function Told<Msg>(c: Consumer<Msg>, call: Call<Msg>): Consumer<Msg> {
    match call
    case PushMessage(m) => c.(received := c.received + [m])
    case StartBatch => c.(started := c.started + 1)
    case EndBatch => c.(ended := c.ended + 1)
    case Done => c.(finished := c.finished + 1)
  }

  /** A call made on each of the clients named. */
  function Each<Msg>(consumers: seq<Consumer<Msg>>, ids: seq<nat>, call: Call<Msg>): seq<Consumer<Msg>> {
    seq(|consumers|, i requires 0 <= i < |consumers| => if i in ids then Told(consumers[i], call) else consumers[i])
  }

  function Staying<Msg>(consumers: seq<Consumer<Msg>>, ids: seq<nat>): seq<nat>
    requires forall i :: 0 <= i < |ids| ==> ids[i] < |consumers|
    decreases |ids|
  {
    if ids == [] then []
    else
      var last := ids[|ids| - 1];
      Staying(consumers, ids[..|ids| - 1]) + if consumers[last].gone then [] else [last]
  }

  /** A sweep over the clients named, when `n` messages have been published: those gone are removed,
      the others called. */
  function Swept<Msg>(consumers: seq<Consumer<Msg>>, ids: seq<nat>, n: nat, call: Call<Msg>): seq<Consumer<Msg>> {
    seq(|consumers|, i requires 0 <= i < |consumers| =>
      if i !in ids then consumers[i]
      else if consumers[i].gone then consumers[i].(upto := n)
      else Told(consumers[i], call))
  }

  // ---------------------------------------------------------------- the operations

  ghost predicate Listed<Msg>(p: Pub<Msg>) {
    && (forall i :: 0 <= i < |p.clients| ==> p.clients[i] < |p.consumers|)
    && (forall i, j :: 0 <= i < j < |p.clients| ==> p.clients[i] != p.clients[j])
    && p.numClients == |p.clients|
  }

  function Sweep<Msg>(p: Pub<Msg>, call: Call<Msg>): Pub<Msg>
    requires Listed(p)
  {
    var stay := Staying(p.consumers, p.clients);
    p.(clients := stay, numClients := p.numClients - (|p.clients| - |stay|),
       consumers := Swept(p.consumers, p.clients, |p.published|, call))
  }

  function Publish<Msg>(p: Pub<Msg>, m: Msg): Pub<Msg>
    requires Listed(p)
  {
    var q :=
      if p.batch then p.(consumers := Each(p.consumers, p.clients, PushMessage(m)))
      else if p.numClients > 0 then Sweep(p, PushMessage(m))
      else p;
    q.(published := p.published + [m])
  }

  /** The destructor of the batch. */
  function Close<Msg>(p: Pub<Msg>): Pub<Msg>
    requires Listed(p)
  {
    if p.batch then Sweep(p, EndBatch).(batch := false) else p
  }

  function Open<Msg>(p: Pub<Msg>): Pub<Msg> {
    p.(batch := true, consumers := Each(p.consumers, p.clients, StartBatch))
  }

  /** Installing waits for an open batch to end. */
  function Install<Msg>(p: Pub<Msg>): Pub<Msg>
    requires !p.batch
  {
    p.(clients := p.clients + [|p.consumers|], numClients := p.numClients + 1,
       consumers := p.consumers + [Consumer([], 0, 0, 0, false, |p.published|, |p.published|)])
  }

  datatype Op<Msg> = Publishing(m: Msg) | Installing | Starting | Ending | Finishing | Leaving(i: nat)

  function Do<Msg>(p: Pub<Msg>, op: Op<Msg>): Pub<Msg>
    requires Valid(p)
  {
    match op
    case Publishing(m) => Publish(p, m)
    case Installing => if p.batch then p else Install(p)
    case Starting => CloseKeeps(p); Open(Close(p))
    case Ending => Close(p)
    case Finishing => CloseKeeps(p); Sweep(Close(p), Call.Done)
    case Leaving(i) => if i < |p.consumers| then p.(consumers := p.consumers[i := p.consumers[i].(gone := true)]) else p
  }

  // ---------------------------------------------------------------- what they keep

  /** Where the run of messages a consumer was sent ends. */
  function End<Msg>(p: Pub<Msg>, i: nat): nat
    requires i < |p.consumers|
  {
    if i in p.clients then |p.published| else p.consumers[i].upto
  }

  /** A consumer has been pushed exactly the messages published between its installation and its
      removal; its batches are bracketed, with one open exactly while the publisher's is. */
  ghost predicate Served<Msg>(p: Pub<Msg>, i: nat)
    requires i < |p.consumers|
  {
    var c := p.consumers[i];
    && c.from <= End(p, i) <= |p.published| && c.received == p.published[c.from..End(p, i)]
    && (if i in p.clients then c.started - c.ended == (if p.batch then 1 else 0) else 0 <= c.started - c.ended <= 1)
  }

  ghost predicate Valid<Msg>(p: Pub<Msg>) {
    Listed(p) && forall i :: 0 <= i < |p.consumers| ==> Served(p, i)
  }

  lemma {:induction false} StayingSpec<Msg>(consumers: seq<Consumer<Msg>>, ids: seq<nat>)
    requires forall i :: 0 <= i < |ids| ==> ids[i] < |consumers|
    requires forall i, j :: 0 <= i < j < |ids| ==> ids[i] != ids[j]
    ensures var stay := Staying(consumers, ids);
      && (forall id :: id in stay <==> id in ids && !consumers[id].gone)
      && (forall i, j :: 0 <= i < j < |stay| ==> stay[i] != stay[j])
      && |stay| <= |ids|
    decreases |ids|
  {
    if ids != [] {
      var most, last := ids[..|ids| - 1], ids[|ids| - 1];
      StayingSpec(consumers, most);
      assert last !in most;
      assert forall id :: id in ids <==> id in most || id == last;
    }
  }

  lemma SweepStart<Msg>(consumers: seq<Consumer<Msg>>, ids: seq<nat>, n: nat, call: Call<Msg>)
    ensures Staying(consumers, ids[..0]) == [] && Swept(consumers, ids[..0], n, call) == consumers
  {
  }

  /** One more client swept. */
  lemma SweepStep<Msg>(consumers: seq<Consumer<Msg>>, ids: seq<nat>, k: nat, n: nat, call: Call<Msg>)
    requires k < |ids| && forall i :: 0 <= i < |ids| ==> ids[i] < |consumers|
    requires forall i, j :: 0 <= i < j < |ids| ==> ids[i] != ids[j]
    ensures var c, id := consumers[ids[k]], ids[k];
      && Staying(consumers, ids[..k + 1]) == Staying(consumers, ids[..k]) + (if c.gone then [] else [id])
      && |Swept(consumers, ids[..k], n, call)| == |consumers| && Swept(consumers, ids[..k], n, call)[id] == c
      && Swept(consumers, ids[..k + 1], n, call)
         == Swept(consumers, ids[..k], n, call)[id := if c.gone then c.(upto := n) else Told(c, call)]
  {
    assert ids[..k + 1][..k] == ids[..k] && ids[..k + 1] == ids[..k] + [ids[k]];
    assert ids[k] !in ids[..k];
  }

  function SweptOne<Msg>(p: Pub<Msg>, it: nat, call: Call<Msg>): Pub<Msg>
    requires it < |p.clients| && p.clients[it] < |p.consumers|
  {
    var id := p.clients[it];
    var c := p.consumers[id];
    if c.gone then
      p.(clients := p.clients[..it] + p.clients[it + 1..], numClients := p.numClients - 1,
         consumers := p.consumers[id := c.(upto := |p.published|)])
    else p.(consumers := p.consumers[id := Told(c, call)])
  }

  /** Halfway through a sweep of `was`: `k` clients have been looked at, and the list holds those kept,
      then those still to come; the iterator is between the two. */
  ghost predicate Midway<Msg>(was: Pub<Msg>, p: Pub<Msg>, k: nat, it: nat, call: Call<Msg>) {
    && Listed(was) && k <= |was.clients| && it == |Staying(was.consumers, was.clients[..k])|
    && p == was.(clients := Staying(was.consumers, was.clients[..k]) + was.clients[k..],
                 numClients := was.numClients - (k - it),
                 consumers := Swept(was.consumers, was.clients[..k], |was.published|, call))
  }

  lemma MidwayStarts<Msg>(was: Pub<Msg>, call: Call<Msg>)
    requires Listed(was)
    ensures Midway(was, was, 0, 0, call)
  {
    SweepStart(was.consumers, was.clients, |was.published|, call);
  }

  /** What has been kept so far, and what the calls so far have made of the consumers. */
  ghost predicate Halfway<Msg>(was: Pub<Msg>, p: Pub<Msg>, k: nat, kept: seq<nat>, swept: seq<Consumer<Msg>>) {
    && k <= |was.clients|
    && p == was.(clients := kept + was.clients[k..], numClients := was.numClients - (k - |kept|), consumers := swept)
  }

  lemma MidwayIsHalfway<Msg>(was: Pub<Msg>, p: Pub<Msg>, k: nat, it: nat, call: Call<Msg>)
    requires Listed(was) && k <= |was.clients|
    ensures var kept := Staying(was.consumers, was.clients[..k]);
      var swept := Swept(was.consumers, was.clients[..k], |was.published|, call);
      Midway(was, p, k, it, call) <==> it == |kept| && Halfway(was, p, k, kept, swept)
  {
  }

  lemma AtIterator(kept: seq<nat>, ids: seq<nat>, k: nat)
    requires k <= |ids|
    ensures k < |ids| <==> |kept| < |kept + ids[k..]|
    ensures k < |ids| ==>
      var list, it := kept + ids[k..], |kept|;
      && list[it] == ids[k] && list[..it] + list[it + 1..] == kept + ids[k + 1..]
      && list == kept + [ids[k]] + ids[k + 1..]
  {
  }

  lemma HalfwayGoesOn<Msg>(
    was: Pub<Msg>, p: Pub<Msg>, k: nat, kept: seq<nat>, swept: seq<Consumer<Msg>>, call: Call<Msg>)
    requires Halfway(was, p, k, kept, swept) && |kept| < |p.clients|
    requires forall i :: 0 <= i < |was.clients| ==> was.clients[i] < |swept|
    ensures k < |was.clients| && p.clients[|kept|] == was.clients[k] && p.consumers == swept
    ensures var id := was.clients[k];
      var c := swept[id];
      Halfway(was, SweptOne(p, |kept|, call), k + 1, kept + if c.gone then [] else [id],
              swept[id := if c.gone then c.(upto := |was.published|) else Told(c, call)])
  {
    AtIterator(kept, was.clients, k);
  }

  lemma MidwayGoesOn<Msg>(was: Pub<Msg>, p: Pub<Msg>, k: nat, it: nat, call: Call<Msg>)
    requires Midway(was, p, k, it, call) && it < |p.clients|
    ensures k < |was.clients| && p.clients[it] < |p.consumers|
    ensures Midway(was, SweptOne(p, it, call), k + 1, if p.consumers[p.clients[it]].gone then it else it + 1, call)
  {
    var ids, cs, n := was.clients, was.consumers, |was.published|;
    MidwayIsHalfway(was, p, k, it, call);
    var kept, swept := Staying(cs, ids[..k]), Swept(cs, ids[..k], n, call);
    hide Staying, Swept, SweptOne, Midway, Halfway;
    HalfwayGoesOn(was, p, k, kept, swept, call);
    SweepStep(cs, ids, k, n, call);
    MidwayIsHalfway(was, SweptOne(p, it, call), k + 1, if swept[ids[k]].gone then it else it + 1, call);
  }

  lemma MidwayEnds<Msg>(was: Pub<Msg>, p: Pub<Msg>, k: nat, it: nat, call: Call<Msg>)
    requires Midway(was, p, k, it, call) && it >= |p.clients|
    ensures p == Sweep(was, call)
  {
    assert was.clients[..k] == was.clients;
  }

  lemma SweepKeepsList<Msg>(p: Pub<Msg>, call: Call<Msg>)
    requires Listed(p)
    ensures Listed(Sweep(p, call))
  {
    StayingSpec(p.consumers, p.clients);
    var stay := Staying(p.consumers, p.clients);
    forall i | 0 <= i < |stay| ensures stay[i] < |p.consumers| {
      assert stay[i] in p.clients;
    }
  }

  lemma PublishInBatchKeeps<Msg>(p: Pub<Msg>, m: Msg)
    requires Valid(p) && p.batch
    ensures Valid(Publish(p, m))
  {
    var q := Publish(p, m);
    forall i | 0 <= i < |q.consumers| ensures Served(q, i) { assert Served(p, i); }
  }

  /** A consumer swept is sent the message if it stays, and left as it is if it goes. */
  lemma SweptServes<Msg>(p: Pub<Msg>, m: Msg, i: nat)
    requires Listed(p) && !p.batch && p.numClients > 0 && i < |p.consumers| && Served(p, i)
    ensures Served(Publish(p, m), i)
  {
    StayingSpec(p.consumers, p.clients);
    hide Staying;
  }

  lemma NobodyServes<Msg>(p: Pub<Msg>, m: Msg, i: nat)
    requires Listed(p) && !p.batch && p.numClients == 0 && i < |p.consumers| && Served(p, i)
    ensures Served(Publish(p, m), i)
  {
    assert p.clients == [];
  }

  lemma PublishAloneKeeps<Msg>(p: Pub<Msg>, m: Msg)
    requires Valid(p) && !p.batch
    ensures Valid(Publish(p, m))
  {
    SweepKeepsList(p, PushMessage(m));
    var q := Publish(p, m);
    hide Staying, Swept, Served;
    assert Listed(q) && |q.consumers| == |p.consumers|;
    forall i | 0 <= i < |q.consumers| ensures Served(q, i) {
      assert Served(p, i);
      if p.numClients > 0 { SweptServes(p, m, i); } else { NobodyServes(p, m, i); }
    }
  }

  lemma PublishKeeps<Msg>(p: Pub<Msg>, m: Msg)
    requires Valid(p)
    ensures Valid(Publish(p, m))
  {
    hide Valid, Publish;
    if p.batch { PublishInBatchKeeps(p, m); } else { PublishAloneKeeps(p, m); }
  }

  lemma CloseKeeps<Msg>(p: Pub<Msg>)
    requires Valid(p)
    ensures Valid(Close(p)) && !Close(p).batch
  {
    if p.batch {
      SweepKeepsList(p, EndBatch);
      StayingSpec(p.consumers, p.clients);
      forall i | 0 <= i < |Close(p).consumers| ensures Served(Close(p), i) { assert Served(p, i); }
    }
  }

  lemma OpenKeeps<Msg>(p: Pub<Msg>)
    requires Valid(p) && !p.batch
    ensures Valid(Open(p))
  {
    forall i | 0 <= i < |Open(p).consumers| ensures Served(Open(p), i) { assert Served(p, i); }
  }

  lemma FinishKeeps<Msg>(p: Pub<Msg>)
    requires Valid(p) && !p.batch
    ensures Valid(Sweep(p, Call.Done))
  {
    SweepKeepsList(p, Call.Done);
    StayingSpec(p.consumers, p.clients);
    forall i | 0 <= i < |p.consumers| ensures Served(Sweep(p, Call.Done), i) { assert Served(p, i); }
  }

  lemma InstallKeeps<Msg>(p: Pub<Msg>)
    requires Valid(p) && !p.batch
    ensures Valid(Install(p))
  {
    var q := Install(p);
    forall i | 0 <= i < |q.consumers| ensures Served(q, i) {
      if i < |p.consumers| { assert Served(p, i); }
    }
  }

  lemma LeaveKeeps<Msg>(p: Pub<Msg>, i: nat)
    requires Valid(p)
    ensures Valid(Do(p, Leaving(i)))
  {
    var q := Do(p, Leaving(i));
    forall j | 0 <= j < |q.consumers| ensures Served(q, j) { assert Served(p, j); }
  }

  lemma DoKeeps<Msg>(p: Pub<Msg>, op: Op<Msg>)
    requires Valid(p)
    ensures Valid(Do(p, op))
  {
    match op {
      case Publishing(m) => PublishKeeps(p, m);
      case Installing => if !p.batch { InstallKeeps(p); }
      case Starting => CloseKeeps(p); OpenKeeps(Close(p));
      case Ending => CloseKeeps(p);
      case Finishing => CloseKeeps(p); FinishKeeps(Close(p));
      case Leaving(i) => LeaveKeeps(p, i);
    }
  }

  // ---------------------------------------------------------------- runs

  function RunAll<Msg>(ops: seq<Op<Msg>>): (p: Pub<Msg>)
    ensures Valid(p)
    decreases |ops|
  {
    if ops == [] then Pub([], 0, false, [], [])
    else
      var before := RunAll(ops[..|ops| - 1]);
      DoKeeps(before, ops[|ops| - 1]);
      Do(before, ops[|ops| - 1])
  }

  /** From `p` to `q`: where consumer `i`'s run of messages begins is fixed; it leaves the list only if
      gone, and then its run ends; once off the list it gets nothing more. */
  ghost predicate Moved<Msg>(p: Pub<Msg>, q: Pub<Msg>, i: nat)
    requires i < |p.consumers|
  {
    && p.published <= q.published && |p.consumers| <= |q.consumers| && q.consumers[i].from == p.consumers[i].from
    && (p.consumers[i].gone ==> q.consumers[i].gone)
    && (i !in p.clients ==> i !in q.clients && q.consumers[i] == p.consumers[i].(gone := q.consumers[i].gone))
    && (i in p.clients && i !in q.clients ==> p.consumers[i].gone && q.consumers[i].upto == |p.published|)
  }

  lemma SweepMoves<Msg>(p: Pub<Msg>, call: Call<Msg>, i: nat)
    requires Listed(p) && i < |p.consumers|
    ensures Moved(p, Sweep(p, call), i) && Sweep(p, call).published == p.published
    ensures Sweep(p, call).consumers[i].gone == p.consumers[i].gone
  {
    StayingSpec(p.consumers, p.clients);
    hide Staying;
  }

  lemma OneOp<Msg>(p: Pub<Msg>, op: Op<Msg>, i: nat)
    requires Valid(p) && i < |p.consumers|
    ensures Moved(p, Do(p, op), i)
  {
    hide Served, Staying, Sweep;
    match op {
      case Publishing(m) => SweepMoves(p, PushMessage(m), i);
      case Starting => CloseKeeps(p); SweepMoves(p, EndBatch, i);
      case Ending => SweepMoves(p, EndBatch, i);
      case Finishing => CloseKeeps(p); SweepMoves(p, EndBatch, i); SweepMoves(Close(p), Call.Done, i);
      case Installing | Leaving(_) =>
    }
  }

  /** Since `then_`, when consumer `i` was installed: it has been pushed exactly the messages published,
      up to now or up to its removal, and it has been removed only if gone. */
  ghost predicate Delivered<Msg>(then_: Pub<Msg>, q: Pub<Msg>, i: nat) {
    && i < |q.consumers| && |then_.published| <= End(q, i) <= |q.published|
    && q.consumers[i].received == q.published[|then_.published|..End(q, i)]
    && (i in q.clients ==> q.consumers[i].started - q.consumers[i].ended == if q.batch then 1 else 0)
    && (i !in q.clients ==> q.consumers[i].gone)
  }

  lemma RunMore<Msg>(ops: seq<Op<Msg>>, op: Op<Msg>)
    ensures RunAll(ops + [op]) == Do(RunAll(ops), op)
  {
    assert (ops + [op])[..|ops + [op]| - 1] == ops;
  }

  /** Fan-out over any run: the consumer installed after `before` has been pushed exactly the messages
      published since, contiguously and in order, batched or not, and its batches are bracketed. */
  lemma {:induction false} ContiguousDelivery<Msg>(before: seq<Op<Msg>>, after: seq<Op<Msg>>)
    requires !RunAll(before).batch
    ensures var i, q := |RunAll(before).consumers|, RunAll(before + [Installing] + after);
      Delivered(RunAll(before), q, i) && q.consumers[i].from == |RunAll(before).published|
        && q.numClients == |q.clients|
    decreases |after|
  {
    hide RunAll, Do;
    var i := |RunAll(before).consumers|;
    if after == [] {
      RunMore(before, Installing);
      assert before + [Installing] + after == before + [Installing];
      JustInstalled(RunAll(before));
    } else {
      var most, op := before + [Installing] + after[..|after| - 1], after[|after| - 1];
      ContiguousDelivery(before, after[..|after| - 1]);
      assert before + [Installing] + after == most + [op];
      RunMore(most, op);
      OneOp(RunAll(most), op, i);
      StaysDelivered(RunAll(before), RunAll(most), Do(RunAll(most), op), i);
    }
  }

  lemma JustInstalled<Msg>(p: Pub<Msg>)
    requires Valid(p) && !p.batch
    ensures var i, q := |p.consumers|, Do(p, Installing);
      i < |q.consumers| && Delivered(p, q, i) && q.consumers[i].from == |p.published|
  {
    var q := Install(p);
    assert q.clients[|q.clients| - 1] == |p.consumers|;
  }

  lemma StaysDelivered<Msg>(then_: Pub<Msg>, p: Pub<Msg>, q: Pub<Msg>, i: nat)
    requires Valid(p) && Valid(q) && Delivered(then_, p, i) && p.consumers[i].from == |then_.published|
             && Moved(p, q, i)
    ensures Delivered(then_, q, i) && q.consumers[i].from == |then_.published|
  {
    assert Served(q, i);
  }

  // ---------------------------------------------------------------- what is called

  /** The calls a consumer has had since: these messages, and so many of the others. */
  predicate Heard<Msg(==)>(was: Consumer<Msg>, now: Consumer<Msg>, msgs: seq<Msg>, starts: int, ends: int, dones: int) {
    && now.received == was.received + msgs && now.started == was.started + starts
    && now.ended == was.ended + ends && now.finished == was.finished + dones && now.gone == was.gone
  }

  lemma SweepTells<Msg>(p: Pub<Msg>, call: Call<Msg>, i: nat)
    requires Listed(p) && i < |p.consumers|
    ensures var q := Sweep(p, call);
      && (i in q.clients <==> i in p.clients && !p.consumers[i].gone)
      && q.published == p.published && q.batch == p.batch && |q.consumers| == |p.consumers|
      && Heard(if i in q.clients then Told(p.consumers[i], call) else p.consumers[i], q.consumers[i], [], 0, 0, 0)
  {
    StayingSpec(p.consumers, p.clients);
    hide Staying;
  }

  /** The same of a publish, of the end of a batch and of Done, for all consumers. */
  lemma PublishTells<Msg>(p: Pub<Msg>, m: Msg)
    requires Valid(p)
    ensures var q := Publish(p, m);
      && |q.consumers| == |p.consumers|
      && forall i: nat :: i < |p.consumers| ==>
           (i in q.clients <==> i in p.clients && (p.batch || !p.consumers[i].gone))
           && Heard(p.consumers[i], q.consumers[i], if i in q.clients then [m] else [], 0, 0, 0)
  {
    forall i: nat | i < |p.consumers| { SweepTells(p, PushMessage(m), i); }
    hide Sweep, Served;
  }

  lemma CloseTells<Msg>(p: Pub<Msg>)
    requires Valid(p)
    ensures var q := Close(p);
      && |q.consumers| == |p.consumers| && q.published == p.published
      && forall i: nat :: i < |p.consumers| ==>
           (i in q.clients <==> i in p.clients && (p.batch ==> !p.consumers[i].gone))
           && Heard(p.consumers[i], q.consumers[i], [], 0, if p.batch && i in q.clients then 1 else 0, 0)
  {
    forall i: nat | i < |p.consumers| { SweepTells(p, EndBatch, i); }
    hide Sweep, Served;
  }

  lemma FinishTells<Msg>(p: Pub<Msg>)
    requires Valid(p)
    ensures var q := Sweep(p, Call.Done);
      && |q.consumers| == |p.consumers|
      && forall i: nat :: i < |p.consumers| ==>
           (i in q.clients <==> i in p.clients && !p.consumers[i].gone)
           && Heard(p.consumers[i], q.consumers[i], [], 0, 0, if i in q.clients then 1 else 0)
  {
    forall i: nat | i < |p.consumers| { SweepTells(p, Call.Done, i); }
    hide Sweep, Served;
  }

  function GivenBy<Msg>(op: Op<Msg>): seq<Msg> {
    if op.Publishing? then [op.m] else []
  }

  /** The messages given to `Publish`, in order. */
  function Messages<Msg>(ops: seq<Op<Msg>>): seq<Msg>
    decreases |ops|
  {
    if ops == [] then [] else Messages(ops[..|ops| - 1]) + GivenBy(ops[|ops| - 1])
  }

  function Starts<Msg>(ops: seq<Op<Msg>>): nat
    decreases |ops|
  {
    if ops == [] then 0 else Starts(ops[..|ops| - 1]) + if ops[|ops| - 1].Starting? then 1 else 0
  }

  function Finishes<Msg>(ops: seq<Op<Msg>>): nat
    decreases |ops|
  {
    if ops == [] then 0 else Finishes(ops[..|ops| - 1]) + if ops[|ops| - 1].Finishing? then 1 else 0
  }

  /** What one operation says to a consumer that is still listed after it. */
  lemma OneOpTells<Msg>(p: Pub<Msg>, op: Op<Msg>, i: nat)
    requires Valid(p) && i < |p.consumers|
    ensures var q := Do(p, op);
      && q.published == p.published + GivenBy(op) && i < |q.consumers|
      && (i in q.clients ==>
            && i in p.clients
            && q.consumers[i].received == p.consumers[i].received + GivenBy(op)
            && q.consumers[i].started == p.consumers[i].started + (if op.Starting? then 1 else 0)
            && q.consumers[i].finished == p.consumers[i].finished + (if op.Finishing? then 1 else 0))
  {
    hide Served, Staying, Sweep;
    match op {
      case Publishing(m) => SweepTells(p, PushMessage(m), i);
      case Starting => CloseKeeps(p); SweepTells(p, EndBatch, i);
      case Ending => SweepTells(p, EndBatch, i);
      case Finishing => CloseKeeps(p); SweepTells(p, EndBatch, i); SweepTells(Close(p), Call.Done, i);
      case Installing | Leaving(_) =>
    }
  }

  /** Whatever the batches and the comings and goings, what has been published is what `Publish` was given. */
  lemma {:induction false} PublishedIsGiven<Msg>(ops: seq<Op<Msg>>)
    ensures RunAll(ops).published == Messages(ops)
    decreases |ops|
  {
    if ops != [] {
      var before := RunAll(ops[..|ops| - 1]);
      PublishedIsGiven(ops[..|ops| - 1]);
      OpPublishes(before, ops[|ops| - 1]);
      hide Do;
    }
  }

  lemma OpPublishes<Msg>(p: Pub<Msg>, op: Op<Msg>)
    requires Valid(p)
    ensures Do(p, op).published == p.published + GivenBy(op)
  {
  }

  /** A consumer still listed has been told everything that happened since it was installed: each message
      given to `Publish`, a start for each batch, an end for each but an open one, and each Done. */
  lemma {:induction false} EveryCallMade<Msg>(before: seq<Op<Msg>>, after: seq<Op<Msg>>)
    requires !RunAll(before).batch
    ensures var i, q := |RunAll(before).consumers|, RunAll(before + [Installing] + after);
      && i < |q.consumers|
      && (i in q.clients ==>
            var c := q.consumers[i];
            && c.received == Messages(after) && c.started == Starts(after) && c.finished == Finishes(after)
            && c.ended == c.started - if q.batch then 1 else 0)
    decreases |after|
  {
    hide RunAll, Do;
    var i := |RunAll(before).consumers|;
    ContiguousDelivery(before, after);
    if after == [] {
      RunMore(before, Installing);
      assert before + [Installing] + after == before + [Installing];
      NothingYet(RunAll(before));
    } else {
      var most, op := before + [Installing] + after[..|after| - 1], after[|after| - 1];
      EveryCallMade(before, after[..|after| - 1]);
      assert before + [Installing] + after == most + [op];
      RunMore(most, op);
      OneOpTells(RunAll(most), op, i);
    }
  }

  lemma NothingYet<Msg>(p: Pub<Msg>)
    requires Valid(p) && !p.batch
    ensures var i, q := |p.consumers|, Do(p, Installing);
      i < |q.consumers| && Heard(Consumer([], 0, 0, 0, false, 0, 0), q.consumers[i], [], 0, 0, 0)
  {
  }
}

/** The class: a list erased from while it is walked, a separate count, and the open batch. */
module PipePublishers {
  import opened Publishing

  class PipePublisher<Msg> {
    var clients: seq<nat>
    var numClients: int
    var currentBatch: bool
    var consumers: seq<Consumer<Msg>> // the objects the clients refer to
    var published: seq<Msg>

    function Now(): Pub<Msg>
      reads this
    {
      Pub(clients, numClients, currentBatch, consumers, published)
    }

    constructor ()
      ensures Valid(Now()) && Now() == RunAll([])
      ensures clients == [] && numClients == 0 && !currentBatch && published == []
    {
      clients, numClients, currentBatch, consumers, published := [], 0, false, [], [];
    }

    method Tell(id: nat, call: Call<Msg>)
      requires id < |consumers|
      modifies this`consumers
      ensures consumers == old(consumers)[id := Told(old(consumers[id]), call)]
    {
      consumers := consumers[id := Told(consumers[id], call)];
    }

    /** Erase the client the iterator stands at; the iterator then stands at the next one. */
    method RemoveClient(it: nat)
      requires it < |clients|
      modifies this`clients, this`numClients
      ensures clients == old(clients[..it] + clients[it + 1..]) && numClients == old(numClients) - 1
      ensures old(Listed(Now())) ==>
                && Listed(Now())
                && forall id :: id in clients <==> id in old(clients) && id != old(clients[it])
    {
      clients := clients[..it] + clients[it + 1..];
      numClients := numClients - 1;
    }

    /** A call on every client, gone or not. */
    method TellAll(call: Call<Msg>)
      requires Listed(Now())
      modifies this`consumers
      ensures consumers == Each(old(consumers), clients, call)
    {
      for it := 0 to |clients|
        invariant |consumers| == |old(consumers)|
        invariant consumers == Each(old(consumers), clients[..it], call)
      {
        assert clients[..it + 1] == clients[..it] + [clients[it]];
        assert clients[it] !in clients[..it];
        Tell(clients[it], call);
        assert consumers == Each(old(consumers), clients[..it + 1], call);
      }
      assert clients[..|clients|] == clients;
    }

    /** Remove the client the iterator stands at if it is gone, else make the call and move on. */
    method SweepOne(it: nat, call: Call<Msg>) returns (next: nat)
      requires it < |clients| && clients[it] < |consumers|
      modifies this`clients, this`numClients, this`consumers
      ensures Now() == SweptOne(old(Now()), it, call)
      ensures next == if old(consumers[clients[it]]).gone then it else it + 1
    {
      next := it;
      var client := clients[it];
      if consumers[client].gone {
        RemoveClient(it);
        consumers := consumers[client := consumers[client].(upto := |published|)];
      } else {
        Tell(client, call);
        next := it + 1;
      }
    }

    /** The loop of Publish, Done and the batch's destructor. */
    method SweepAll(call: Call<Msg>)
      requires Listed(Now())
      modifies this`clients, this`numClients, this`consumers
      ensures Now() == Sweep(old(Now()), call)
    {
      ghost var was, k := Now(), 0;
      var it := 0;
      MidwayStarts(was, call);
      hide Midway, SweptOne, Sweep;
      while it < |clients|
        invariant Midway(was, Now(), k, it, call)
        decreases |was.clients| - k
      {
        MidwayGoesOn(was, Now(), k, it, call);
        it := SweepOne(it, call);
        k := k + 1;
      }
      MidwayEnds(was, Now(), k, it, call);
    }

    method Publish(m: Msg)
      requires Valid(Now())
      modifies this
      ensures Valid(Now()) && Now() == Publishing.Publish(old(Now()), m)
      ensures published == old(published) + [m] && currentBatch == old(currentBatch)
      ensures |consumers| == old(|consumers|)
      ensures forall id: nat :: id < |consumers| ==>
        (id in clients <==> id in old(clients) && (currentBatch || !old(consumers)[id].gone))
        && Heard(old(consumers)[id], consumers[id], if id in clients then [m] else [], 0, 0, 0)
    {
      PublishKeeps(Now(), m);
      PublishTells(Now(), m);
      hide Valid;
      if currentBatch {
        TellAll(PushMessage(m));
      } else if numClients > 0 {
        SweepAll(PushMessage(m));
      }
      published := published + [m];
    }

    method EndBatch()
      requires Valid(Now())
      modifies this
      ensures Valid(Now()) && Now() == Close(old(Now()))
      ensures !currentBatch && published == old(published) && |consumers| == old(|consumers|)
      ensures forall id: nat :: id < |consumers| ==>
        (id in clients <==> id in old(clients) && (old(currentBatch) ==> !old(consumers)[id].gone))
        && Heard(old(consumers)[id], consumers[id], [], 0, if old(currentBatch) && id in clients then 1 else 0, 0)
    {
      CloseKeeps(Now());
      CloseTells(Now());
      hide Valid;
      if currentBatch {
        SweepAll(Call.EndBatch);
        currentBatch := false;
      }
    }

    method StartBatch()
      requires Valid(Now())
      modifies this
      ensures Valid(Now()) && Now() == Open(Close(old(Now())))
      ensures currentBatch && published == old(published) && |consumers| == old(|consumers|)
      ensures forall id: nat :: id < |consumers| ==>
        (id in clients <==> id in old(clients) && (old(currentBatch) ==> !old(consumers)[id].gone))
        && Heard(old(consumers)[id], consumers[id], [], if id in clients then 1 else 0,
                 if old(currentBatch) && id in clients then 1 else 0, 0)
    {
      EndBatch();
      OpenKeeps(Now());
      hide Valid;
      TellAll(Call.StartBatch);
      currentBatch := true;
    }

    method Done()
      requires Valid(Now())
      modifies this
      ensures Valid(Now()) && Now() == Do(old(Now()), Finishing)
      ensures !currentBatch && published == old(published) && |consumers| == old(|consumers|)
      ensures forall id: nat :: id < |consumers| ==>
        (id in clients <==> id in old(clients) && !old(consumers)[id].gone)
        && Heard(old(consumers)[id], consumers[id], [], 0, if old(currentBatch) && id in clients then 1 else 0,
                 if id in clients then 1 else 0)
    {
      EndBatch();
      FinishKeeps(Now());
      FinishTells(Now());
      hide Valid, Close, Sweep;
      SweepAll(Call.Done);
    }

    /** Called while no batch holds the lock. */
    method InstallClient() returns (id: nat)
      requires Valid(Now()) && !currentBatch
      modifies this
      ensures Valid(Now()) && Now() == Install(old(Now())) && id == old(|consumers|)
      ensures clients == old(clients) + [id] && numClients == old(numClients) + 1 && published == old(published)
      ensures |consumers| == id + 1 && consumers[..id] == old(consumers)
      ensures Heard(Consumer([], 0, 0, 0, false, 0, 0), consumers[id], [], 0, 0, 0)
    {
      InstallKeeps(Now());
      id := |consumers|;
      clients := clients + [id];
      numClients := numClients + 1;
      consumers := consumers + [Consumer([], 0, 0, 0, false, |published|, |published|)];
      assert clients[|clients| - 1] == id;
    }
  }
}
