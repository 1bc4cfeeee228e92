/** `AggPipePub`: a keyed store of messages, published as a stream of differences.

    Messages are known through an adapter: an id, an order on ids, and a test of equality that
    may hold of different references.  Update, ResetMessages and NewClient are atomic. */
module AggUpdates {
  import opened Wrappers

  datatype Mode = SkipDuplicates | NoDuplicateChecking | ReplaceDeleteMods

  datatype UpdateType = NEW | UPDATE | DELETE | NONE

  datatype Upd<Msg> = Upd(data: Msg, updateType: UpdateType)

  datatype Adapter<!Id, !Msg> = Adapter(
    getId: Msg -> Id,
    less: (Id, Id) -> bool,
    isEqual: (Msg, Msg) -> bool,
    mode: Mode)

  /** `operator<` on ids is a strict total order. */
  ghost predicate Ordered<Id(!new), Msg(!new)>(ad: Adapter<Id, Msg>) {
    && (forall a :: !ad.less(a, a))
    && (forall a, b :: ad.less(a, b) || a == b || ad.less(b, a))
    && (forall a, b, c :: ad.less(a, b) && ad.less(b, c) ==> ad.less(a, c))
  }

  predicate IsUpdated<Id, Msg>(ad: Adapter<Id, Msg>, orig: Msg, n: Msg) {
    if !ad.mode.NoDuplicateChecking? then !ad.isEqual(orig, n) else true
  }

  function Lookup<Id(==), Msg>(data: map<Id, Msg>, id: Id): Option<Msg> {
    if id in data then Some(data[id]) else None
  }

  // ---------------------------------------------------------------- a std::map

  /** A `std::map<IdType, MsgRef>`: the entries, and their keys in iteration order. */
  datatype Table<Id, Msg> = Table(ids: seq<Id>, data: map<Id, Msg>)

  predicate Sorted<Id(==), Msg>(ad: Adapter<Id, Msg>, ids: seq<Id>) {
    forall i, j :: 0 <= i < j < |ids| ==> ad.less(ids[i], ids[j])
  }

  /** Keys in order, and every message filed under its own id. */
  ghost predicate Filed<Id(!new), Msg(!new)>(ad: Adapter<Id, Msg>, t: Table<Id, Msg>) {
    && Sorted(ad, t.ids)
    && (forall id :: id in t.ids <==> id in t.data)
    && (forall id :: id in t.data ==> ad.getId(t.data[id]) == id)
  }

  function Insert<Id(==), Msg>(ad: Adapter<Id, Msg>, ids: seq<Id>, id: Id): seq<Id>
    decreases |ids|
  {
    if ids == [] then [id]
    else if ids[|ids| - 1] == id then ids
    else if ad.less(ids[|ids| - 1], id) then ids + [id]
    else Insert(ad, ids[..|ids| - 1], id) + [ids[|ids| - 1]]
  }

  function Put<Id(==), Msg>(ad: Adapter<Id, Msg>, t: Table<Id, Msg>, m: Msg): Table<Id, Msg> {
    var id := ad.getId(m);
    Table(Insert(ad, t.ids, id), t.data[id := m])
  }

  lemma {:induction false} InsertSpec<Id(!new), Msg(!new)>(ad: Adapter<Id, Msg>, ids: seq<Id>, id: Id)
    requires Ordered(ad) && Sorted(ad, ids)
    ensures Sorted(ad, Insert(ad, ids, id))
    ensures forall x :: x in Insert(ad, ids, id) <==> x in ids || x == id
    decreases |ids|
  {
    if ids != [] && ids[|ids| - 1] != id && !ad.less(ids[|ids| - 1], id) {
      var most, last := ids[..|ids| - 1], ids[|ids| - 1];
      InsertSpec(ad, most, id);
      assert forall x :: x in ids <==> x in most || x == last;
      var inserted := Insert(ad, most, id);
      forall i | 0 <= i < |inserted| ensures ad.less(inserted[i], last) {
        assert inserted[i] in inserted;
      }
    }
  }

  lemma PutFiled<Id(!new), Msg(!new)>(ad: Adapter<Id, Msg>, t: Table<Id, Msg>, m: Msg)
    requires Ordered(ad) && Filed(ad, t)
    ensures Filed(ad, Put(ad, t, m))
  {
    InsertSpec(ad, t.ids, ad.getId(m));
  }

  lemma HasFirst<T>(s: seq<T>)
    ensures s == [] || exists x :: x in s
  {
    if s != [] { assert s[0] in s; }
  }

  /** There is only one way to put ids in order. */
  lemma {:induction false} OneOrder<Id(!new), Msg(!new)>(ad: Adapter<Id, Msg>, a: seq<Id>, b: seq<Id>)
    requires Ordered(ad) && Sorted(ad, a) && Sorted(ad, b)
    requires forall x :: x in a <==> x in b
    ensures a == b
    decreases |a|
  {
    if a == [] {
      HasFirst(b);
    } else {
      assert a[|a| - 1] in b;
      var la, lb := a[|a| - 1], b[|b| - 1];
      assert lb in a;
      assert la == lb;
      var ma, mb := a[..|a| - 1], b[..|b| - 1];
      forall x ensures x in ma <==> x in mb {
        if x in ma { assert x in a && x != la; }
        if x in mb { assert x in b && x != lb; }
      }
      OneOrder(ad, ma, mb);
    }
  }

  // ---------------------------------------------------------------- what each operation publishes

  /** What a subscriber must be sent when the message with some id changes from `was` to `now`. */
  function Change<Id, Msg>(ad: Adapter<Id, Msg>, was: Option<Msg>, now: Option<Msg>): seq<Upd<Msg>> {
    match (was, now)
    case (None, None) => []
    case (None, Some(n)) => [Upd(n, NEW)]
    case (Some(o), None) => [Upd(o, DELETE)]
    case (Some(o), Some(n)) =>
      if !IsUpdated(ad, o, n) then []
      else if ad.mode.ReplaceDeleteMods? then [Upd(o, DELETE), Upd(n, NEW)]
      else [Upd(n, UPDATE)]
  }

  /** The keyed difference of two stores, in the order of `ids`. */
  function Changes<Id(==), Msg>(ad: Adapter<Id, Msg>, ids: seq<Id>, was: map<Id, Msg>, now: map<Id, Msg>): seq<Upd<Msg>>
    decreases |ids|
  {
    if ids == [] then []
    else
      Changes(ad, ids[..|ids| - 1], was, now)
      + Change(ad, Lookup(was, ids[|ids| - 1]), Lookup(now, ids[|ids| - 1]))
  }

  function AllIds<Id(==), Msg>(ad: Adapter<Id, Msg>, a: seq<Id>, b: seq<Id>): seq<Id>
    decreases |b|
  {
    if b == [] then a else Insert(ad, AllIds(ad, a, b[..|b| - 1]), b[|b| - 1])
  }

  lemma {:induction false} AllIdsSpec<Id(!new), Msg(!new)>(ad: Adapter<Id, Msg>, a: seq<Id>, b: seq<Id>)
    requires Ordered(ad) && Sorted(ad, a)
    ensures Sorted(ad, AllIds(ad, a, b))
    ensures forall x :: x in AllIds(ad, a, b) <==> x in a || x in b
    decreases |b|
  {
    if b != [] {
      AllIdsSpec(ad, a, b[..|b| - 1]);
      InsertSpec(ad, AllIds(ad, a, b[..|b| - 1]), b[|b| - 1]);
      assert forall x :: x in b <==> x in b[..|b| - 1] || x == b[|b| - 1];
    }
  }

  /** The new messages by id; of several with one id the last wins. */
  function ByLast<Id(==), Msg>(ad: Adapter<Id, Msg>, msgs: seq<Msg>): Table<Id, Msg>
    decreases |msgs|
  {
    if msgs == [] then Table([], map[]) else Put(ad, ByLast(ad, msgs[..|msgs| - 1]), msgs[|msgs| - 1])
  }

  lemma {:induction false} ByLastFiled<Id(!new), Msg(!new)>(ad: Adapter<Id, Msg>, msgs: seq<Msg>)
    requires Ordered(ad)
    ensures Filed(ad, ByLast(ad, msgs))
    decreases |msgs|
  {
    if msgs != [] {
      ByLastFiled(ad, msgs[..|msgs| - 1]);
      PutFiled(ad, ByLast(ad, msgs[..|msgs| - 1]), msgs[|msgs| - 1]);
    }
  }

  /** The message filed under an id is the last one given with it. */
  lemma {:induction false} LastWins<Id(!new), Msg(!new)>(ad: Adapter<Id, Msg>, msgs: seq<Msg>, i: nat)
    requires i < |msgs| && forall j :: i < j < |msgs| ==> ad.getId(msgs[j]) != ad.getId(msgs[i])
    ensures Lookup(ByLast(ad, msgs).data, ad.getId(msgs[i])) == Some(msgs[i])
    decreases |msgs|
  {
    if i < |msgs| - 1 {
      var most := msgs[..|msgs| - 1];
      assert ad.getId(msgs[|msgs| - 1]) != ad.getId(msgs[i]);
      LastWins(ad, most, i);
    }
  }

  lemma {:induction false} OnlyThose<Id(!new), Msg(!new)>(ad: Adapter<Id, Msg>, msgs: seq<Msg>, id: Id)
    requires id in ByLast(ad, msgs).data
    ensures exists i :: 0 <= i < |msgs| && ad.getId(msgs[i]) == id
    decreases |msgs|
  {
    if ad.getId(msgs[|msgs| - 1]) != id {
      OnlyThose(ad, msgs[..|msgs| - 1], id);
      var i :| 0 <= i < |msgs| - 1 && ad.getId(msgs[..|msgs| - 1][i]) == id;
      assert ad.getId(msgs[i]) == id;
    }
  }

  /** A NEW for every message filed, in order: the initial data of a client. */
  function Snapshot<Id(==), Msg>(ids: seq<Id>, data: map<Id, Msg>): seq<Upd<Msg>>
    requires forall id :: id in ids ==> id in data
    decreases |ids|
  {
    if ids == [] then []
    else Snapshot(ids[..|ids| - 1], data) + [Upd(data[ids[|ids| - 1]], NEW)]
  }

  // ---------------------------------------------------------------- what a client makes of the stream

  function See<Id(==), Msg>(ad: Adapter<Id, Msg>, view: map<Id, Msg>, u: Upd<Msg>): map<Id, Msg> {
    var id := ad.getId(u.data);
    match u.updateType
    case NEW | UPDATE => view[id := u.data]
    case DELETE => map x | x in view && x != id :: view[x]
    case NONE => view
  }

  /** A client's view after a stream of updates. */
  function Replay<Id(==), Msg>(ad: Adapter<Id, Msg>, view: map<Id, Msg>, ups: seq<Upd<Msg>>): map<Id, Msg>
    decreases |ups|
  {
    if ups == [] then view else See(ad, Replay(ad, view, ups[..|ups| - 1]), ups[|ups| - 1])
  }

  /** NEW only for ids not in view, UPDATE and DELETE only for ids in view, never NONE, and no UPDATE
      when modifications are sent as DELETE and NEW. */
  predicate Fits<Id(==), Msg>(ad: Adapter<Id, Msg>, view: map<Id, Msg>, u: Upd<Msg>) {
    match u.updateType
    case NEW => ad.getId(u.data) !in view
    case UPDATE => ad.getId(u.data) in view && !ad.mode.ReplaceDeleteMods?
    case DELETE => ad.getId(u.data) in view
    case NONE => false
  }

  predicate WellFormed<Id(==), Msg>(ad: Adapter<Id, Msg>, view: map<Id, Msg>, ups: seq<Upd<Msg>>)
    decreases |ups|
  {
    ups == []
    || (WellFormed(ad, view, ups[..|ups| - 1]) && Fits(ad, Replay(ad, view, ups[..|ups| - 1]), ups[|ups| - 1]))
  }

  lemma {:induction false} ReplayCat<Id(!new), Msg(!new)>(ad: Adapter<Id, Msg>, view: map<Id, Msg>, a: seq<Upd<Msg>>,
      b: seq<Upd<Msg>>)
    ensures Replay(ad, view, a + b) == Replay(ad, Replay(ad, view, a), b)
    ensures WellFormed(ad, view, a + b) <==> WellFormed(ad, view, a) && WellFormed(ad, Replay(ad, view, a), b)
    decreases |b|
  {
    if b == [] {
      assert a + b == a;
    } else {
      assert (a + b)[..|a + b| - 1] == a + b[..|b| - 1];
      ReplayCat(ad, view, a, b[..|b| - 1]);
    }
  }

  /** The client's message for an id may be another reference than the publisher's only when
      duplicates are checked for, and then the two are equal. */
  predicate Close<Id, Msg(==)>(ad: Adapter<Id, Msg>, seen: Msg, kept: Msg) {
    seen == kept || (!ad.mode.NoDuplicateChecking? && ad.isEqual(seen, kept))
  }

  /** Both present or both absent; and, if `exact`, the two messages close. */
  predicate Matches<Id(==), Msg(==)>(ad: Adapter<Id, Msg>, seen: Option<Msg>, kept: Option<Msg>, exact: bool) {
    match (seen, kept)
    case (None, None) => true
    case (Some(s), Some(k)) => exact ==> Close(ad, s, k)
    case _ => false
  }

  /** An option that, if it is a message, is one with this id. */
  predicate Under<Id(==), Msg>(ad: Adapter<Id, Msg>, m: Option<Msg>, id: Id) {
    m.Some? ==> ad.getId(m.value) == id
  }

  /** The view has the ids of the store, each message under its own; and, if `exact`, close messages. */
  ghost predicate Agrees<Id(!new), Msg>(ad: Adapter<Id, Msg>, view: map<Id, Msg>, data: map<Id, Msg>, exact: bool) {
    forall id :: Under(ad, Lookup(view, id), id) && Matches(ad, Lookup(view, id), Lookup(data, id), exact)
  }

  /** Taking messages of one id for unchanged, twice over, leaves them equal still.  Every equivalence
      is sound, and without duplicate checking every adapter is. */
  ghost predicate Sound<Id(!new), Msg(!new)>(ad: Adapter<Id, Msg>) {
    forall a, b, c ::
      ad.getId(a) == ad.getId(b) == ad.getId(c) && !IsUpdated(ad, a, b) && !IsUpdated(ad, b, c) ==> Close(ad, a, c)
  }

  /** Replaying one id's change moves a view that matched the old message to one that matches the new,
      and touches nothing else. */
  lemma ChangeReplayed<Id(!new), Msg(!new)>(ad: Adapter<Id, Msg>, view: map<Id, Msg>, id: Id, was: Option<Msg>,
      now: Option<Msg>, exact: bool)
    requires exact ==> Sound(ad)
    requires Under(ad, was, id) && Under(ad, now, id) && Under(ad, Lookup(view, id), id)
    requires Matches(ad, Lookup(view, id), was, exact)
    ensures var after := Replay(ad, view, Change(ad, was, now));
      && Matches(ad, Lookup(after, id), now, exact) && Under(ad, Lookup(after, id), id)
      && (forall x :: x != id ==> Lookup(after, x) == Lookup(view, x))
    ensures WellFormed(ad, view, Change(ad, was, now))
  {
    var ups := Change(ad, was, now);
    if |ups| == 1 {
      SeeOne(ad, view, ups[0]);
      assert ups == [ups[0]];
    } else if |ups| == 2 {
      assert ups == [ups[0]] + [ups[1]];
      SeeOne(ad, view, ups[0]);
      SeeOne(ad, See(ad, view, ups[0]), ups[1]);
      ReplayCat(ad, view, [ups[0]], [ups[1]]);
    }
  }

  lemma SeeOne<Id(!new), Msg(!new)>(ad: Adapter<Id, Msg>, view: map<Id, Msg>, u: Upd<Msg>)
    ensures Replay(ad, view, [u]) == See(ad, view, u)
    ensures WellFormed(ad, view, [u]) <==> Fits(ad, view, u)
  {
    assert [u][..|[u]| - 1] == [];
    assert Replay(ad, view, []) == view;
  }

  /** Replaying the keyed difference of two stores over some of the ids moves a view along for those
      ids and no others. */
  lemma {:induction false} ChangesReplayed<Id(!new), Msg(!new)>(
    ad: Adapter<Id, Msg>, view: map<Id, Msg>, ids: seq<Id>, was: map<Id, Msg>, now: map<Id, Msg>, exact: bool)
    requires Ordered(ad) && (exact ==> Sound(ad)) && Sorted(ad, ids)
    requires forall id :: Under(ad, Lookup(was, id), id) && Under(ad, Lookup(now, id), id)
    requires Agrees(ad, view, was, exact)
    ensures var after := Replay(ad, view, Changes(ad, ids, was, now));
      forall id :: Under(ad, Lookup(after, id), id)
        && Matches(ad, Lookup(after, id), if id in ids then Lookup(now, id) else Lookup(was, id), exact)
    ensures WellFormed(ad, view, Changes(ad, ids, was, now))
    decreases |ids|
  {
    if ids != [] {
      var most, last := ids[..|ids| - 1], ids[|ids| - 1];
      var before := Changes(ad, most, was, now);
      var change := Change(ad, Lookup(was, last), Lookup(now, last));
      ChangesReplayed(ad, view, most, was, now, exact);
      ReplayCat(ad, view, before, change);
      assert last !in most;
      ChangeReplayed(ad, Replay(ad, view, before), last, Lookup(was, last), Lookup(now, last), exact);
      assert forall x :: x in ids <==> x in most || x == last;
    }
  }

  lemma {:induction false} SnapshotReplayed<Id(!new), Msg(!new)>(ad: Adapter<Id, Msg>, ids: seq<Id>, data: map<Id, Msg>)
    requires Ordered(ad) && Sorted(ad, ids)
    requires forall id :: id in ids ==> id in data && ad.getId(data[id]) == id
    ensures var view := Replay(ad, map[], Snapshot(ids, data));
      forall id :: Lookup(view, id) == if id in ids then Some(data[id]) else None
    ensures WellFormed(ad, map[], Snapshot(ids, data))
    decreases |ids|
  {
    if ids != [] {
      var most, last := ids[..|ids| - 1], ids[|ids| - 1];
      var u := Upd(data[last], NEW);
      SnapshotReplayed(ad, most, data);
      ReplayCat(ad, map[], Snapshot(most, data), [u]);
      assert last !in most;
      SeeOne(ad, Replay(ad, map[], Snapshot(most, data)), u);
      assert Lookup(Replay(ad, map[], Snapshot(most, data)), last) == None;
      assert forall x :: x in ids <==> x in most || x == last;
    }
  }

  /** One update may follow another: by id, or as the two halves of a replacement. */
  predicate Follows<Id(==), Msg>(ad: Adapter<Id, Msg>, u: Upd<Msg>, v: Upd<Msg>) {
    || ad.less(ad.getId(u.data), ad.getId(v.data))
    || (ad.getId(u.data) == ad.getId(v.data) && u.updateType.DELETE? && v.updateType.NEW?)
  }

  predicate InOrder<Id(==), Msg>(ad: Adapter<Id, Msg>, ups: seq<Upd<Msg>>) {
    forall i, j :: 0 <= i < j < |ups| ==> Follows(ad, ups[i], ups[j])
  }

  predicate About<Id(==), Msg>(ad: Adapter<Id, Msg>, ups: seq<Upd<Msg>>, ids: seq<Id>) {
    forall i :: 0 <= i < |ups| ==> ad.getId(ups[i].data) in ids
  }

  /** The difference is published in id order, at most one update for an id or a DELETE then a NEW. */
  lemma {:induction false} ChangesInOrder<Id(!new), Msg(!new)>(
    ad: Adapter<Id, Msg>, ids: seq<Id>, was: map<Id, Msg>, now: map<Id, Msg>)
    requires Ordered(ad) && Sorted(ad, ids)
    requires forall id :: Under(ad, Lookup(was, id), id) && Under(ad, Lookup(now, id), id)
    ensures About(ad, Changes(ad, ids, was, now), ids) && InOrder(ad, Changes(ad, ids, was, now))
    decreases |ids|
  {
    if ids != [] {
      var most, last := ids[..|ids| - 1], ids[|ids| - 1];
      var change := Change(ad, Lookup(was, last), Lookup(now, last));
      ChangesInOrder(ad, most, was, now);
      assert Under(ad, Lookup(was, last), last) && Under(ad, Lookup(now, last), last);
      OneMoreId(ad, Changes(ad, most, was, now), change, ids);
    }
  }

  lemma OneMoreId<Id(!new), Msg(!new)>(ad: Adapter<Id, Msg>, before: seq<Upd<Msg>>, change: seq<Upd<Msg>>, ids: seq<Id>)
    requires Sorted(ad, ids) && ids != [] && InOrder(ad, before) && InOrder(ad, change)
    requires About(ad, before, ids[..|ids| - 1]) && About(ad, change, [ids[|ids| - 1]])
    ensures About(ad, before + change, ids) && InOrder(ad, before + change)
  {
    var most, last := ids[..|ids| - 1], ids[|ids| - 1];
    forall i | 0 <= i < |before| ensures ad.getId(before[i].data) in ids && ad.less(ad.getId(before[i].data), last) {
      var k :| 0 <= k < |most| && most[k] == ad.getId(before[i].data);
      assert ids[k] == most[k];
    }
  }

  /** An update is published exactly when it is the change of one of the ids. */
  lemma {:induction false} ChangesComplete<Id(!new), Msg(!new)>(
    ad: Adapter<Id, Msg>, ids: seq<Id>, was: map<Id, Msg>, now: map<Id, Msg>, u: Upd<Msg>)
    ensures u in Changes(ad, ids, was, now)
            <==> exists id :: id in ids && u in Change(ad, Lookup(was, id), Lookup(now, id))
    decreases |ids|
  {
    if ids != [] {
      ChangesComplete(ad, ids[..|ids| - 1], was, now, u);
      assert forall x :: x in ids <==> x in ids[..|ids| - 1] || x == ids[|ids| - 1];
    }
  }

  // ---------------------------------------------------------------- what the operations promise

  /** Filing `m` moves the messages from `was` to `now` and sends `ups`: a new id is filed and sent as NEW;
      a modification is filed and sent as UPDATE, or as DELETE and NEW; a duplicate, where duplicates are
      looked for, changes nothing. */
  predicate Takes<Id(==), Msg(==)>(
    ad: Adapter<Id, Msg>, was: map<Id, Msg>, m: Msg, now: map<Id, Msg>, ups: seq<Upd<Msg>>)
  {
    var id := ad.getId(m);
    if id !in was then now == was[id := m] && ups == [Upd(m, NEW)]
    else if ad.mode.NoDuplicateChecking? || !ad.isEqual(was[id], m) then
      && now == was[id := m]
      && ups == if ad.mode.ReplaceDeleteMods? then [Upd(was[id], DELETE), Upd(m, NEW)] else [Upd(m, UPDATE)]
    else now == was && ups == []
  }

  /** `u` has to be sent when the messages are replaced: DELETE for an id no longer there, NEW for one not there
      before; and for one modified either UPDATE, or both. */
  predicate Due<Id(==), Msg(==)>(ad: Adapter<Id, Msg>, was: map<Id, Msg>, now: map<Id, Msg>, u: Upd<Msg>) {
    var id := ad.getId(u.data);
    match u.updateType
    case NEW =>
      && id in now && u.data == now[id]
      && (id !in was || (ad.mode.ReplaceDeleteMods? && !ad.isEqual(was[id], now[id])))
    case DELETE =>
      && id in was && u.data == was[id]
      && (id !in now || (ad.mode.ReplaceDeleteMods? && !ad.isEqual(was[id], now[id])))
    case UPDATE =>
      && id in was && id in now && u.data == now[id]
      && !ad.mode.ReplaceDeleteMods? && (ad.mode.NoDuplicateChecking? || !ad.isEqual(was[id], now[id]))
    case NONE => false
  }

  /** Exactly what is due is sent, in id order, DELETE ahead of NEW for one id. */
  ghost predicate SendsDue<Id(!new), Msg(!new)>(
    ad: Adapter<Id, Msg>, was: map<Id, Msg>, now: map<Id, Msg>, ups: seq<Upd<Msg>>)
  {
    InOrder(ad, ups) && forall u :: u in ups <==> Due(ad, was, now, u)
  }

  /** Nothing but the given messages is filed, the last of those with one id. */
  ghost predicate Holds<Id(!new), Msg(!new)>(ad: Adapter<Id, Msg>, msgs: seq<Msg>, data: map<Id, Msg>) {
    && (forall id :: id in data <==> exists i :: 0 <= i < |msgs| && ad.getId(msgs[i]) == id)
    && (forall i :: 0 <= i < |msgs| && (forall j :: i < j < |msgs| ==> ad.getId(msgs[j]) != ad.getId(msgs[i])) ==>
          ad.getId(msgs[i]) in data && data[ad.getId(msgs[i])] == msgs[i])
  }

  lemma ChangeIsDue<Id(!new), Msg(!new)>(
    ad: Adapter<Id, Msg>, was: map<Id, Msg>, now: map<Id, Msg>, id: Id, u: Upd<Msg>)
    requires Under(ad, Lookup(was, id), id) && Under(ad, Lookup(now, id), id)
    ensures u in Change(ad, Lookup(was, id), Lookup(now, id)) <==> ad.getId(u.data) == id && Due(ad, was, now, u)
  {
  }

  lemma ChangesSendDue<Id(!new), Msg(!new)>(ad: Adapter<Id, Msg>, was: Table<Id, Msg>, now: Table<Id, Msg>)
    requires Ordered(ad) && Filed(ad, was) && Filed(ad, now)
    ensures SendsDue(ad, was.data, now.data, Changes(ad, AllIds(ad, was.ids, now.ids), was.data, now.data))
  {
    var ids := AllIds(ad, was.ids, now.ids);
    AllIdsSpec(ad, was.ids, now.ids);
    ChangesInOrder(ad, ids, was.data, now.data);
    hide Change, Changes, InOrder;
    forall u ensures u in Changes(ad, ids, was.data, now.data) <==> Due(ad, was.data, now.data, u) {
      ChangesComplete(ad, ids, was.data, now.data, u);
      forall id { ChangeIsDue(ad, was.data, now.data, id, u); }
    }
  }

  lemma {:induction false} ByLastHolds<Id(!new), Msg(!new)>(ad: Adapter<Id, Msg>, msgs: seq<Msg>)
    ensures Holds(ad, msgs, ByLast(ad, msgs).data)
    decreases |msgs|
  {
    forall i | 0 <= i < |msgs| && (forall j :: i < j < |msgs| ==> ad.getId(msgs[j]) != ad.getId(msgs[i]))
      ensures Lookup(ByLast(ad, msgs).data, ad.getId(msgs[i])) == Some(msgs[i])
    {
      LastWins(ad, msgs, i);
    }
    forall i | 0 <= i < |msgs| ensures ad.getId(msgs[i]) in ByLast(ad, msgs).data { GivenFiled(ad, msgs, i); }
    forall id | id in ByLast(ad, msgs).data ensures exists i :: 0 <= i < |msgs| && ad.getId(msgs[i]) == id {
      OnlyThose(ad, msgs, id);
    }
  }

  lemma {:induction false} GivenFiled<Id(!new), Msg(!new)>(ad: Adapter<Id, Msg>, msgs: seq<Msg>, i: nat)
    requires i < |msgs|
    ensures ad.getId(msgs[i]) in ByLast(ad, msgs).data
    decreases |msgs|
  {
    if i < |msgs| - 1 { GivenFiled(ad, msgs[..|msgs| - 1], i); }
  }

  // ---------------------------------------------------------------- runs

  /** A client: what it was given at the start, and how much had been published by then. */
  datatype Client<Msg> = Client(initial: seq<Upd<Msg>>, from: nat)

  datatype Agg<Id, Msg> = Agg(store: Table<Id, Msg>, published: seq<Upd<Msg>>, clients: seq<Client<Msg>>)

  datatype Op<Msg> = Updating(m: Msg) | Resetting(msgs: seq<Msg>) | Joining

  function Update<Id(==), Msg>(ad: Adapter<Id, Msg>, s: Agg<Id, Msg>, m: Msg): Agg<Id, Msg> {
    var was := Lookup(s.store.data, ad.getId(m));
    if was.Some? && !IsUpdated(ad, was.value, m) then s
    else s.(store := Put(ad, s.store, m), published := s.published + Change(ad, was, Some(m)))
  }

  function Reset<Id(==), Msg>(ad: Adapter<Id, Msg>, s: Agg<Id, Msg>, msgs: seq<Msg>): Agg<Id, Msg> {
    var now := ByLast(ad, msgs);
    s.(store := now,
       published := s.published + Changes(ad, AllIds(ad, s.store.ids, now.ids), s.store.data, now.data))
  }

  ghost function Join<Id(!new), Msg>(s: Agg<Id, Msg>): Agg<Id, Msg>
    requires forall id :: id in s.store.ids ==> id in s.store.data
  {
    s.(clients := s.clients + [Client(Snapshot(s.store.ids, s.store.data), |s.published|)])
  }

  ghost function Do<Id(!new), Msg(!new)>(ad: Adapter<Id, Msg>, s: Agg<Id, Msg>, op: Op<Msg>): Agg<Id, Msg>
    requires Filed(ad, s.store)
  {
    match op
    case Updating(m) => Update(ad, s, m)
    case Resetting(msgs) => Reset(ad, s, msgs)
    case Joining => Join(s)
  }

  lemma DoFiles<Id(!new), Msg(!new)>(ad: Adapter<Id, Msg>, s: Agg<Id, Msg>, op: Op<Msg>)
    requires Ordered(ad) && Filed(ad, s.store)
    ensures Filed(ad, Do(ad, s, op).store)
  {
    match op {
      case Updating(m) => PutFiled(ad, s.store, m);
      case Resetting(msgs) => ByLastFiled(ad, msgs);
      case Joining =>
    }
  }

  ghost function RunAll<Id(!new), Msg(!new)>(ad: Adapter<Id, Msg>, ops: seq<Op<Msg>>): (s: Agg<Id, Msg>)
    requires Ordered(ad)
    ensures Filed(ad, s.store)
    decreases |ops|
  {
    if ops == [] then Agg(Table([], map[]), [], [])
    else
      var before := RunAll(ad, ops[..|ops| - 1]);
      DoFiles(ad, before, ops[|ops| - 1]);
      Do(ad, before, ops[|ops| - 1])
  }

  function StreamOf<Id, Msg>(s: Agg<Id, Msg>, c: Client<Msg>): seq<Upd<Msg>>
    requires c.from <= |s.published|
  {
    c.initial + s.published[c.from..]
  }

  /** The view a client has of the store. */
  function ViewOf<Id(==), Msg>(ad: Adapter<Id, Msg>, s: Agg<Id, Msg>, c: Client<Msg>): map<Id, Msg>
    requires c.from <= |s.published|
  {
    Replay(ad, map[], StreamOf(s, c))
  }

  /** The client's stream is well formed and its view has the ids of the store. */
  ghost predicate Tracks<Id(!new), Msg(!new)>(ad: Adapter<Id, Msg>, s: Agg<Id, Msg>, c: Client<Msg>) {
    && c.from <= |s.published| && WellFormed(ad, map[], StreamOf(s, c))
    && forall id :: id in ViewOf(ad, s, c) <==> id in s.store.data
  }

  /** Where the client and the store both have an id, the two messages are close. */
  ghost predicate MessagesAgree<Id(!new), Msg(!new)>(ad: Adapter<Id, Msg>, s: Agg<Id, Msg>, c: Client<Msg>) {
    c.from <= |s.published| ==>
      forall id :: id in ViewOf(ad, s, c) && id in s.store.data ==> Close(ad, ViewOf(ad, s, c)[id], s.store.data[id])
  }

  ghost predicate AllTrack<Id(!new), Msg(!new)>(ad: Adapter<Id, Msg>, s: Agg<Id, Msg>) {
    forall i :: 0 <= i < |s.clients| ==> Tracks(ad, s, s.clients[i])
  }

  ghost predicate AllAgree<Id(!new), Msg(!new)>(ad: Adapter<Id, Msg>, s: Agg<Id, Msg>) {
    forall i :: 0 <= i < |s.clients| ==> MessagesAgree(ad, s, s.clients[i])
  }

  /** The two together, for the proofs: ids and stream, and, if `exact`, the messages. */
  ghost predicate Serves<Id(!new), Msg(!new)>(ad: Adapter<Id, Msg>, s: Agg<Id, Msg>, c: Client<Msg>, exact: bool) {
    && c.from <= |s.published|
    && Agrees(ad, ViewOf(ad, s, c), s.store.data, exact)
    && WellFormed(ad, map[], StreamOf(s, c))
  }

  ghost predicate ServesAll<Id(!new), Msg(!new)>(ad: Adapter<Id, Msg>, s: Agg<Id, Msg>, exact: bool) {
    forall i :: 0 <= i < |s.clients| ==> Serves(ad, s, s.clients[i], exact)
  }

  lemma ServesTracks<Id(!new), Msg(!new)>(ad: Adapter<Id, Msg>, s: Agg<Id, Msg>, exact: bool)
    requires ServesAll(ad, s, exact)
    ensures AllTrack(ad, s) && (exact ==> AllAgree(ad, s))
  {
    forall i | 0 <= i < |s.clients|
      ensures Tracks(ad, s, s.clients[i]) && (exact ==> MessagesAgree(ad, s, s.clients[i]))
    {
      ServesOne(ad, s, s.clients[i], exact);
    }
  }

  lemma ServesOne<Id(!new), Msg(!new)>(ad: Adapter<Id, Msg>, s: Agg<Id, Msg>, c: Client<Msg>, exact: bool)
    requires Serves(ad, s, c, exact)
    ensures Tracks(ad, s, c) && (exact ==> MessagesAgree(ad, s, c))
  {
    var view := ViewOf(ad, s, c);
    forall id ensures id in view <==> id in s.store.data {
      assert Matches(ad, Lookup(view, id), Lookup(s.store.data, id), exact);
    }
    forall id | exact && id in view && id in s.store.data ensures Close(ad, view[id], s.store.data[id]) {
      assert Matches(ad, Lookup(view, id), Lookup(s.store.data, id), exact);
    }
  }

  lemma UpdateServes<Id(!new), Msg(!new)>(ad: Adapter<Id, Msg>, s: Agg<Id, Msg>, m: Msg, c: Client<Msg>, exact: bool)
    requires Ordered(ad) && (exact ==> Sound(ad)) && Filed(ad, s.store) && Serves(ad, s, c, exact)
    ensures Serves(ad, Update(ad, s, m), c, exact)
  {
    var was := Lookup(s.store.data, ad.getId(m));
    var n := Update(ad, s, m);
    if n != s {
      assert StreamOf(n, c) == StreamOf(s, c) + Change(ad, was, Some(m));
      ReplayCat(ad, map[], StreamOf(s, c), Change(ad, was, Some(m)));
      UpdateReplayed(ad, ViewOf(ad, s, c), s.store, m, exact);
      hide Agrees, WellFormed, Change, Filed;
    }
  }

  lemma UpdateReplayed<Id(!new), Msg(!new)>(ad: Adapter<Id, Msg>, view: map<Id, Msg>, t: Table<Id, Msg>, m: Msg,
      exact: bool)
    requires (exact ==> Sound(ad)) && Filed(ad, t) && Agrees(ad, view, t.data, exact)
    ensures var ups := Change(ad, Lookup(t.data, ad.getId(m)), Some(m));
      Agrees(ad, Replay(ad, view, ups), Put(ad, t, m).data, exact) && WellFormed(ad, view, ups)
  {
    var id := ad.getId(m);
    ChangeReplayed(ad, view, id, Lookup(t.data, id), Some(m), exact);
  }

  lemma ResetServes<Id(!new), Msg(!new)>(ad: Adapter<Id, Msg>, s: Agg<Id, Msg>, msgs: seq<Msg>, c: Client<Msg>,
      exact: bool)
    requires Ordered(ad) && (exact ==> Sound(ad)) && Filed(ad, s.store) && Serves(ad, s, c, exact)
    ensures Serves(ad, Reset(ad, s, msgs), c, exact)
  {
    var now := ByLast(ad, msgs);
    var ids := AllIds(ad, s.store.ids, now.ids);
    var ups := Changes(ad, ids, s.store.data, now.data);
    ByLastFiled(ad, msgs);
    assert StreamOf(Reset(ad, s, msgs), c) == StreamOf(s, c) + ups;
    ReplayCat(ad, map[], StreamOf(s, c), ups);
    DifferenceReplayed(ad, ViewOf(ad, s, c), s.store, now, exact);
    hide Agrees, WellFormed, Changes, AllIds, ByLast, Filed, Ordered, Replay;
  }

  lemma DifferenceReplayed<Id(!new), Msg(!new)>(
    ad: Adapter<Id, Msg>, view: map<Id, Msg>, was: Table<Id, Msg>, now: Table<Id, Msg>, exact: bool)
    requires Ordered(ad) && (exact ==> Sound(ad)) && Filed(ad, was) && Filed(ad, now)
             && Agrees(ad, view, was.data, exact)
    ensures var ups := Changes(ad, AllIds(ad, was.ids, now.ids), was.data, now.data);
      Agrees(ad, Replay(ad, view, ups), now.data, exact) && WellFormed(ad, view, ups)
  {
    AllIdsSpec(ad, was.ids, now.ids);
    ChangesReplayed(ad, view, AllIds(ad, was.ids, now.ids), was.data, now.data, exact);
  }

  lemma JoinServes<Id(!new), Msg(!new)>(ad: Adapter<Id, Msg>, s: Agg<Id, Msg>, exact: bool)
    requires Ordered(ad) && Filed(ad, s.store)
    ensures var n := Join(s); Serves(ad, n, n.clients[|s.clients|], exact)
  {
    var c := Join(s).clients[|s.clients|];
    SnapshotReplayed(ad, s.store.ids, s.store.data);
    assert StreamOf(Join(s), c) == c.initial;
  }

  lemma DoServes<Id(!new), Msg(!new)>(ad: Adapter<Id, Msg>, s: Agg<Id, Msg>, op: Op<Msg>, exact: bool)
    requires Ordered(ad) && (exact ==> Sound(ad)) && Filed(ad, s.store) && ServesAll(ad, s, exact)
    ensures ServesAll(ad, Do(ad, s, op), exact)
  {
    var n := Do(ad, s, op);
    forall i | 0 <= i < |n.clients| ensures Serves(ad, n, n.clients[i], exact) {
      match op {
        case Updating(m) => UpdateServes(ad, s, m, s.clients[i], exact);
        case Resetting(msgs) => ResetServes(ad, s, msgs, s.clients[i], exact);
        case Joining => if i == |s.clients| { JoinServes(ad, s, exact); }
      }
    }
  }

  lemma {:induction false} RunServes<Id(!new), Msg(!new)>(ad: Adapter<Id, Msg>, ops: seq<Op<Msg>>, exact: bool)
    requires Ordered(ad) && (exact ==> Sound(ad))
    ensures ServesAll(ad, RunAll(ad, ops), exact)
    decreases |ops|
  {
    if ops != [] {
      RunServes(ad, ops[..|ops| - 1], exact);
      DoServes(ad, RunAll(ad, ops[..|ops| - 1]), ops[|ops| - 1], exact);
    }
  }

  /** Well-formed streams, for any equality at all: after any operations in any mode, every client that
      has joined, early or late, was sent NEW only for ids it did not have, UPDATE and DELETE only for
      ids it had, never NONE and never UPDATE when modifications are replaced; and it sees exactly the
      store's ids. */
  lemma EveryClientTracks<Id(!new), Msg(!new)>(ad: Adapter<Id, Msg>, ops: seq<Op<Msg>>)
    requires Ordered(ad)
    ensures AllTrack(ad, RunAll(ad, ops))
  {
    RunServes(ad, ops, false);
    hide RunAll;
    ServesTracks(ad, RunAll(ad, ops), false);
  }

  /** Replay convergence: and with a sound equality its messages are the store's, identical when
      duplicate checking is off and otherwise equal. */
  lemma EveryClientConverges<Id(!new), Msg(!new)>(ad: Adapter<Id, Msg>, ops: seq<Op<Msg>>)
    requires Ordered(ad) && Sound(ad)
    ensures AllTrack(ad, RunAll(ad, ops)) && AllAgree(ad, RunAll(ad, ops))
  {
    RunServes(ad, ops, true);
    hide RunAll;
    ServesTracks(ad, RunAll(ad, ops), true);
  }

  /** The last of `msgs` with an id. */
  function LastWith<Id(==), Msg>(ad: Adapter<Id, Msg>, msgs: seq<Msg>, id: Id): Option<Msg>
    decreases |msgs|
  {
    if msgs == [] then None
    else if ad.getId(msgs[|msgs| - 1]) == id then Some(msgs[|msgs| - 1])
    else LastWith(ad, msgs[..|msgs| - 1], id)
  }

  /** The last message the publisher was given with an id, since everything was last replaced. */
  function LastGiven<Id(==), Msg>(ad: Adapter<Id, Msg>, ops: seq<Op<Msg>>, id: Id): Option<Msg>
    decreases |ops|
  {
    if ops == [] then None
    else
      var most := ops[..|ops| - 1];
      match ops[|ops| - 1]
      case Updating(m) => if ad.getId(m) == id then Some(m) else LastGiven(ad, most, id)
      case Resetting(msgs) => LastWith(ad, msgs, id)
      case Joining => LastGiven(ad, most, id)
  }

  lemma {:induction false} ByLastFiles<Id(!new), Msg(!new)>(ad: Adapter<Id, Msg>, msgs: seq<Msg>, id: Id)
    ensures Lookup(ByLast(ad, msgs).data, id) == LastWith(ad, msgs, id)
    decreases |msgs|
  {
    if msgs != [] { ByLastFiles(ad, msgs[..|msgs| - 1], id); }
  }

  /** After any operations the store has an id exactly if a message was given with it since the last reset,
      and then files the last of those; or, where duplicates are looked for, one equal to it. */
  lemma {:induction false} StoreHoldsLast<Id(!new), Msg(!new)>(ad: Adapter<Id, Msg>, ops: seq<Op<Msg>>, id: Id)
    requires Ordered(ad)
    ensures var data := RunAll(ad, ops).store.data;
      match LastGiven(ad, ops, id)
      case None => id !in data
      case Some(m) => id in data && (data[id] == m || (!ad.mode.NoDuplicateChecking? && ad.isEqual(data[id], m)))
    decreases |ops|
  {
    if ops != [] {
      StoreHoldsLast(ad, ops[..|ops| - 1], id);
      if ops[|ops| - 1].Resetting? { ByLastFiles(ad, ops[|ops| - 1].msgs, id); }
      hide Filed, Ordered;
    }
  }

  /** Without soundness two silent resets carry a client away from the store. */
  lemma UnsoundDrifts<Id(!new), Msg(!new)>(ad: Adapter<Id, Msg>, a: Msg, b: Msg, c: Msg)
    requires Ordered(ad)
    requires ad.getId(a) == ad.getId(b) == ad.getId(c)
    requires !IsUpdated(ad, a, b) && !IsUpdated(ad, b, c) && !Close(ad, a, c)
    ensures !AllAgree(ad, RunAll(ad, [Joining, Updating(a), Resetting([b]), Resetting([c])]))
  {
    DriftingRun(ad, a, b, c);
    hide RunAll, MessagesAgree;
    var s := RunAll(ad, [Joining, Updating(a), Resetting([b]), Resetting([c])]);
    NotAgreed(ad, s, a, c);
    assert !MessagesAgree(ad, s, s.clients[0]);
  }

  lemma NotAgreed<Id(!new), Msg(!new)>(ad: Adapter<Id, Msg>, s: Agg<Id, Msg>, a: Msg, c: Msg)
    requires s == Agg(Table([ad.getId(a)], map[ad.getId(a) := c]), [Upd(a, NEW)], [Client([], 0)])
    requires !Close(ad, a, c)
    ensures !MessagesAgree(ad, s, s.clients[0])
  {
    var id := ad.getId(a);
    assert StreamOf(s, s.clients[0]) == [Upd(a, NEW)];
    SeeOne(ad, map[], Upd(a, NEW));
    assert ViewOf(ad, s, s.clients[0]) == map[id := a] && id in s.store.data;
  }

  lemma DriftingRun<Id(!new), Msg(!new)>(ad: Adapter<Id, Msg>, a: Msg, b: Msg, c: Msg)
    requires Ordered(ad)
    requires ad.getId(a) == ad.getId(b) == ad.getId(c) && !IsUpdated(ad, a, b) && !IsUpdated(ad, b, c)
    ensures var id := ad.getId(a);
      RunAll(ad, [Joining, Updating(a), Resetting([b]), Resetting([c])])
      == Agg(Table([id], map[id := c]), [Upd(a, NEW)], [Client([], 0)])
  {
    var id := ad.getId(a);
    var none: Agg<Id, Msg> := Agg(Table([], map[]), [], []);
    assert RunAll<Id, Msg>(ad, []) == none;
    var joined := none.(clients := [Client([], 0)]);
    var updated := Agg(Table([id], map[id := a]), [Upd(a, NEW)], [Client([], 0)]);
    hide RunAll, Reset;
    var start: seq<Op<Msg>> := [];
    RunMore(ad, start, Joining);
    assert start + [Joining] == [Joining];
    assert RunAll(ad, [Joining]) == joined;
    RunMore(ad, [Joining], Updating(a));
    assert [Joining] + [Updating(a)] == [Joining, Updating(a)];
    assert RunAll(ad, [Joining, Updating(a)]) == updated;
    ResetUnnoticed(ad, updated, a, b);
    ResetUnnoticed(ad, updated.(store := Table([id], map[id := b])), b, c);
    RunMore(ad, [Joining, Updating(a)], Resetting([b]));
    assert [Joining, Updating(a)] + [Resetting([b])] == [Joining, Updating(a), Resetting([b])];
    RunMore(ad, [Joining, Updating(a), Resetting([b])], Resetting([c]));
    assert [Joining, Updating(a), Resetting([b])] + [Resetting([c])]
           == [Joining, Updating(a), Resetting([b]), Resetting([c])];
  }

  lemma RunMore<Id(!new), Msg(!new)>(ad: Adapter<Id, Msg>, ops: seq<Op<Msg>>, op: Op<Msg>)
    requires Ordered(ad)
    ensures RunAll(ad, ops + [op]) == Do(ad, RunAll(ad, ops), op)
  {
    assert (ops + [op])[..|ops + [op]| - 1] == ops;
  }

  lemma ResetUnnoticed<Id(!new), Msg(!new)>(ad: Adapter<Id, Msg>, s: Agg<Id, Msg>, m: Msg, n: Msg)
    requires ad.getId(m) == ad.getId(n) && !IsUpdated(ad, m, n)
    requires s.store == Table([ad.getId(m)], map[ad.getId(m) := m])
    ensures Reset(ad, s, [n]) == s.(store := Table([ad.getId(m)], map[ad.getId(m) := n]))
  {
    var id := ad.getId(m);
    assert [n][..|[n]| - 1] == [];
    assert ByLast(ad, [n]) == Table([id], map[id := n]);
    assert [id][..|[id]| - 1] == [];
    assert AllIds(ad, [id], [id]) == [id];
    assert Changes(ad, [id], map[id := m], map[id := n]) == [];
  }

  /** The messages agree in all runs exactly when the adapter's equality is sound. */
  lemma ConvergesIffSound<Id(!new), Msg(!new)>(ad: Adapter<Id, Msg>)
    requires Ordered(ad)
    ensures (forall ops :: AllAgree(ad, RunAll(ad, ops))) <==> Sound(ad)
  {
    hide RunAll, AllAgree, AllTrack, Ordered;
    if Sound(ad) {
      forall ops ensures AllAgree(ad, RunAll(ad, ops)) { EveryClientConverges(ad, ops); }
    } else {
      var a, b, c :| ad.getId(a) == ad.getId(b) == ad.getId(c)
                     && !IsUpdated(ad, a, b) && !IsUpdated(ad, b, c) && !Close(ad, a, c);
      UnsoundDrifts(ad, a, b, c);
    }
  }
}

/** The class: a map walked by iterators and changed in place, publishing as it goes. */
module AggPipePubs {
  import opened Wrappers
  import opened AggUpdates

  class AggPipePub<Id(!new, ==), Msg(!new, ==)> {
    const ad: Adapter<Id, Msg>
    var ids: seq<Id>               // dataStore, with its keys in order
    var data: map<Id, Msg>
    var published: seq<Upd<Msg>>   // everything handed to pub_.Publish
    var clients: seq<Client<Msg>>  // everything handed to pub_.NewClient

    function Now(): Agg<Id, Msg>
      reads this
    {
      Agg(Table(ids, data), published, clients)
    }

    /** The store is in order. */
    ghost predicate Kept()
      reads this
    {
      Ordered(ad) && Filed(ad, Now().store)
    }

    /** And every client's stream is well formed and its view has the store's ids, with close messages
        if the equality is sound. */
    ghost predicate Valid()
      reads this
    {
      Kept() && ServesAll(ad, Now(), false) && (Sound(ad) ==> ServesAll(ad, Now(), true))
    }

    lemma DoKeeps(op: Op<Msg>)
      requires Valid()
      ensures var n := Do(ad, Now(), op);
        Filed(ad, n.store) && ServesAll(ad, n, false) && (Sound(ad) ==> ServesAll(ad, n, true))
    {
      DoFiles(ad, Now(), op);
      hide Do, ServesAll, Filed;
      DoServes(ad, Now(), op, false);
      if Sound(ad) { DoServes(ad, Now(), op, true); }
    }

    constructor (adapter: Adapter<Id, Msg>)
      requires Ordered(adapter)
      ensures Valid() && ad == adapter && Now() == RunAll(ad, [])
      ensures data == map[] && published == [] && clients == []
    {
      ad, ids, data, published, clients := adapter, [], map[], [], [];
    }

    /** A client starts with a NEW for each message of the store that its filter lets through. */
    method InitialData(filter: Msg -> bool) returns (initialData: seq<Upd<Msg>>, ghost chosen: seq<Id>)
      requires Kept()
      ensures chosen == Chosen(ids, data, filter)
      ensures Sorted(ad, chosen) && forall id :: id in chosen <==> id in data && filter(data[id])
      ensures initialData == Snapshot(chosen, data)
      ensures |initialData| == |chosen| && forall i :: 0 <= i < |chosen| ==> initialData[i] == Upd(data[chosen[i]], NEW)
    {
      initialData, chosen := [], [];
      for i := 0 to |ids|
        invariant chosen == Chosen(ids[..i], data, filter)
        invariant forall id :: id in chosen ==> id in data
        invariant initialData == Snapshot(chosen, data)
        invariant |initialData| == |chosen|
        invariant forall k :: 0 <= k < |chosen| ==> initialData[k] == Upd(data[chosen[k]], NEW)
      {
        assert ids[..i + 1][..i] == ids[..i];
        assert ids[i] in ids;
        if filter(data[ids[i]]) {
          initialData := initialData + [Upd(data[ids[i]], NEW)];
          chosen := chosen + [ids[i]];
          assert chosen[..|chosen| - 1] == Chosen(ids[..i], data, filter);
        }
      }
      assert ids[..|ids|] == ids;
      ChosenExactly(ad, ids, data, filter);
    }

    method NewClient() returns (client: Client<Msg>)
      requires Valid()
      modifies this`clients
      ensures Valid() && Now() == Join(old(Now()))
      ensures clients == old(clients) + [client] && client.from == |published| && |client.initial| == |ids|
      ensures forall i :: 0 <= i < |ids| ==> client.initial[i] == Upd(data[ids[i]], NEW)
    {
      DoKeeps(Joining);
      hide ServesAll, Sound;
      var initialData := AllData();
      client := Client(initialData, |published|);
      clients := clients + [client];
    }

    method AllData() returns (initialData: seq<Upd<Msg>>)
      requires Kept()
      ensures (forall id :: id in ids ==> id in data) && initialData == Snapshot(ids, data)
      ensures |initialData| == |ids| && forall i :: 0 <= i < |ids| ==> initialData[i] == Upd(data[ids[i]], NEW)
    {
      var anything := (m: Msg) => true;
      ghost var chosen;
      initialData, chosen := InitialData(anything);
      ChosenAll(ids, data, anything);
    }

    method Publish(u: Upd<Msg>)
      modifies this`published
      ensures published == old(published) + [u]
    {
      published := published + [u];
    }

    /** File the message, and say what to publish. */
    method ManufactureUpdate(m: Msg) returns (updates: seq<Upd<Msg>>)
      requires Kept()
      modifies this`ids, this`data
      ensures Now() == AggUpdates.Update(ad, old(Now()), m).(published := published)
      ensures published + updates == AggUpdates.Update(ad, old(Now()), m).published
      ensures Takes(ad, old(data), m, data, updates)
    {
      var updType := NEW;
      var id := ad.getId(m);
      var oldItem := None;
      InsertSpec(ad, ids, id);
      if id !in data {
        ids, data := Insert(ad, ids, id), data[id := m];
      } else if IsUpdated(ad, data[id], m) {
        if ad.mode == ReplaceDeleteMods {
          oldItem := Some(data[id]);
        } else {
          updType := UPDATE;
        }
        OneOrder(ad, ids, Insert(ad, ids, id));
        data := data[id := m]; // erased and inserted: the key keeps its place
      } else {
        updType := NONE;
      }
      if oldItem.Some? {
        updates := [Upd(oldItem.value, DELETE), Upd(m, updType)];
      } else if updType != NONE {
        updates := [Upd(m, updType)];
      } else {
        updates := [];
      }
    }

    method Update(m: Msg)
      requires Valid()
      modifies this`ids, this`data, this`published
      ensures Valid() && Now() == AggUpdates.Update(ad, old(Now()), m)
      ensures old(published) <= published && Takes(ad, old(data), m, data, published[|old(published)|..])
    {
      DoKeeps(Updating(m));
      hide ServesAll, Sound;
      var updates := ManufactureUpdate(m);
      ghost var before, mid := published, Now().store;
      for i := 0 to |updates|
        invariant published == before + updates[..i] && Now().store == mid
      {
        Publish(updates[i]);
      }
      assert updates[..|updates|] == updates;
    }

    method ResetMessages(msgs: seq<Msg>)
      requires Valid()
      modifies this`ids, this`data, this`published
      ensures Valid() && Now() == Reset(ad, old(Now()), msgs)
      ensures Holds(ad, msgs, data)
      ensures old(published) <= published && SendsDue(ad, old(data), data, published[|old(published)|..])
    {
      hide ServesAll, Sound, SendsDue, Holds, Filed, Ordered;
      DoKeeps(Resetting(msgs));
      var newMap := KeyMessages(msgs);
      ByLastHolds(ad, msgs);
      Merge(newMap);
      ids, data := newMap.ids, newMap.data;
    }

    /** The new messages by id. */
    method KeyMessages(msgs: seq<Msg>) returns (newMap: Table<Id, Msg>)
      requires Ordered(ad)
      ensures newMap == ByLast(ad, msgs) && Filed(ad, newMap)
    {
      newMap := Table([], map[]);
      for i := 0 to |msgs|
        invariant newMap == ByLast(ad, msgs[..i])
      {
        newMap := Put(ad, newMap, msgs[i]);
        assert msgs[..i + 1][..i] == msgs[..i];
      }
      assert msgs[..|msgs|] == msgs;
      ByLastFiled(ad, msgs);
    }

    /** Walk both maps at once and publish the difference. */
    method Merge(newMap: Table<Id, Msg>)
      requires Kept() && Filed(ad, newMap)
      modifies this`published
      ensures published == old(published) + Changes(ad, AllIds(ad, ids, newMap.ids), data, newMap.data)
      ensures SendsDue(ad, data, newMap.data, published[|old(published)|..])
    {
      hide Walked, Changes, Ordered, Filed, Sorted, SendsDue;
      ChangesSendDue(ad, Table(ids, data), newMap);
      var e, n := 0, 0;
      ghost var existingData := Table(ids, data);
      ghost var done: seq<Id> := [];
      WalkStart(ad, existingData, newMap);
      while e < |ids| && n < |newMap.ids|
        invariant e <= |ids| && n <= |newMap.ids| && Walked(ad, done, ids, e, newMap.ids, n)
        invariant published == old(published) + Changes(ad, done, data, newMap.data)
      {
        HeadFiled(ad, existingData, e);
        HeadFiled(ad, newMap, n);
        Compare(ad, ids[e], newMap.ids[n]);
        var existing, newEl := data[ids[e]], newMap.data[newMap.ids[n]];
        var eid, nid := ad.getId(existing), ad.getId(newEl);
        if eid == nid {
          PublishModified(existing, newEl);
          WalkBoth(ad, done, existingData, e, newMap, n);
          done := done + [eid];
          e, n := e + 1, n + 1;
        } else if ad.less(eid, nid) {
          Publish(Upd(existing, DELETE));
          WalkOld(ad, done, existingData, e, newMap, n);
          done := done + [eid];
          e := e + 1;
        } else if ad.less(nid, eid) {
          Publish(Upd(newEl, NEW));
          WalkNew(ad, done, existingData, e, newMap, n);
          done := done + [nid];
          n := n + 1;
        }
      }
      MergeRest(newMap, e, n, done, old(published));
      assert published[|old(published)|..] == Changes(ad, AllIds(ad, ids, newMap.ids), data, newMap.data);
    }

    method PublishModified(existing: Msg, newEl: Msg)
      modifies this`published
      ensures published == old(published) + Change(ad, Some(existing), Some(newEl))
    {
      if IsUpdated(ad, existing, newEl) {
        if ad.mode == ReplaceDeleteMods {
          Publish(Upd(existing, DELETE));
          Publish(Upd(newEl, NEW));
        } else {
          Publish(Upd(newEl, UPDATE));
        }
      }
    }

    /** One map is used up: what is left of the old is deleted, what is left of the new is new. */
    method MergeRest(newMap: Table<Id, Msg>, e0: nat, n0: nat, ghost before: seq<Id>, ghost base: seq<Upd<Msg>>)
      requires Kept() && Filed(ad, newMap) && e0 <= |ids| && n0 <= |newMap.ids| && (e0 == |ids| || n0 == |newMap.ids|)
      requires Walked(ad, before, ids, e0, newMap.ids, n0)
      requires published == base + Changes(ad, before, data, newMap.data)
      modifies this`published
      ensures published == base + Changes(ad, AllIds(ad, ids, newMap.ids), data, newMap.data)
    {
      hide Walked, Changes;
      var e, n := e0, n0;
      ghost var existingData, done := Table(ids, data), before;
      while e < |ids|
        invariant e <= |ids| && Walked(ad, done, ids, e, newMap.ids, n)
        invariant published == base + Changes(ad, done, data, newMap.data)
      {
        WalkOld(ad, done, existingData, e, newMap, n);
        Publish(Upd(data[ids[e]], DELETE));
        done := done + [ids[e]];
        e := e + 1;
      }
      while n < |newMap.ids|
        invariant n <= |newMap.ids| && Walked(ad, done, ids, e, newMap.ids, n)
        invariant published == base + Changes(ad, done, data, newMap.data)
      {
        WalkNew(ad, done, existingData, e, newMap, n);
        Publish(Upd(newMap.data[newMap.ids[n]], NEW));
        done := done + [newMap.ids[n]];
        n := n + 1;
      }
      WalkEnd(ad, done, ids, newMap.ids);
    }
  }

  function Chosen<Id(==), Msg>(ids: seq<Id>, data: map<Id, Msg>, filter: Msg -> bool): seq<Id>
    decreases |ids|
  {
    if ids == [] then []
    else
      var id := ids[|ids| - 1];
      Chosen(ids[..|ids| - 1], data, filter) + if id in data && filter(data[id]) then [id] else []
  }

  /** The filter keeps exactly the ids whose message passes it, in order. */
  lemma {:induction false} ChosenExactly<Id(!new), Msg(!new)>(
    ad: Adapter<Id, Msg>, ids: seq<Id>, data: map<Id, Msg>, filter: Msg -> bool)
    requires Sorted(ad, ids)
    ensures Sorted(ad, Chosen(ids, data, filter))
    ensures forall id :: id in Chosen(ids, data, filter) <==> id in ids && id in data && filter(data[id])
    decreases |ids|
  {
    if ids != [] {
      var most, last := ids[..|ids| - 1], ids[|ids| - 1];
      var chosen := Chosen(most, data, filter);
      ChosenExactly(ad, most, data, filter);
      assert forall id :: id in ids <==> id in most || id == last;
      forall i | 0 <= i < |chosen| ensures ad.less(chosen[i], last) {
        assert chosen[i] in most;
        var k :| 0 <= k < |most| && most[k] == chosen[i];
        assert ids[k] == most[k];
      }
    }
  }

  lemma {:induction false} ChosenAll<Id(!new), Msg(!new)>(ids: seq<Id>, data: map<Id, Msg>, filter: Msg -> bool)
    requires forall id :: id in ids ==> id in data && filter(data[id])
    ensures Chosen(ids, data, filter) == ids
    decreases |ids|
  {
    if ids != [] {
      ChosenAll(ids[..|ids| - 1], data, filter);
      assert ids[|ids| - 1] in ids;
    }
  }

  /** The ids dealt with are those before both iterators, in order and before all the rest. */
  ghost predicate Walked<Id(!new), Msg(!new)>(
    ad: Adapter<Id, Msg>, done: seq<Id>, olds: seq<Id>, e: nat, news: seq<Id>, n: nat)
    requires e <= |olds| && n <= |news|
  {
    && Sorted(ad, done)
    && (forall x :: x in done <==> x in olds[..e] || x in news[..n])
    && (forall x, i :: x in done && e <= i < |olds| ==> ad.less(x, olds[i]))
    && (forall x, i :: x in done && n <= i < |news| ==> ad.less(x, news[i]))
  }

  lemma HeadFiled<Id(!new), Msg(!new)>(ad: Adapter<Id, Msg>, t: Table<Id, Msg>, i: nat)
    requires Filed(ad, t) && i < |t.ids|
    ensures t.ids[i] in t.data && ad.getId(t.data[t.ids[i]]) == t.ids[i]
  {
    assert t.ids[i] in t.ids;
  }

  lemma Compare<Id(!new), Msg(!new)>(ad: Adapter<Id, Msg>, a: Id, b: Id)
    requires Ordered(ad)
    ensures ad.less(a, b) || a == b || ad.less(b, a)
  {
  }

  /** One more id, no less than any dealt with and no more than any left. */
  lemma WalkOn<Id(!new), Msg(!new)>(ad: Adapter<Id, Msg>, done: seq<Id>, id: Id, olds: seq<Id>, e: nat,
      news: seq<Id>, n: nat)
    requires Ordered(ad) && Sorted(ad, done) && e <= |olds| && n <= |news|
    requires forall x :: x in done ==> ad.less(x, id)
    requires forall x :: x in done || x == id <==> x in olds[..e] || x in news[..n]
    requires forall i :: e <= i < |olds| ==> ad.less(id, olds[i])
    requires forall i :: n <= i < |news| ==> ad.less(id, news[i])
    ensures Walked(ad, done + [id], olds, e, news, n)
  {
    var all := done + [id];
    forall i, j | 0 <= i < j < |all| ensures ad.less(all[i], all[j]) {
      if j == |done| { assert done[i] in done; }
    }
    assert forall x :: x in all <==> x in done || x == id;
  }

  lemma WalkStart<Id(!new), Msg(!new)>(ad: Adapter<Id, Msg>, old_: Table<Id, Msg>, new_: Table<Id, Msg>)
    ensures Walked(ad, [], old_.ids, 0, new_.ids, 0) && Changes(ad, [], old_.data, new_.data) == []
  {
  }

  /** When both maps have been walked, all ids have been dealt with, in order. */
  lemma WalkEnd<Id(!new), Msg(!new)>(ad: Adapter<Id, Msg>, done: seq<Id>, olds: seq<Id>, news: seq<Id>)
    requires Ordered(ad) && Sorted(ad, olds) && Walked(ad, done, olds, |olds|, news, |news|)
    ensures done == AllIds(ad, olds, news)
  {
    AllIdsSpec(ad, olds, news);
    assert olds[..|olds|] == olds && news[..|news|] == news;
    OneOrder(ad, done, AllIds(ad, olds, news));
  }

  lemma WalkOld<Id(!new), Msg(!new)>(ad: Adapter<Id, Msg>, done: seq<Id>, old_: Table<Id, Msg>, e: nat,
      new_: Table<Id, Msg>, n: nat)
    requires Ordered(ad) && Filed(ad, old_) && Filed(ad, new_) && e < |old_.ids| && n <= |new_.ids|
    requires Walked(ad, done, old_.ids, e, new_.ids, n) && (n < |new_.ids| ==> ad.less(old_.ids[e], new_.ids[n]))
    ensures var id := old_.ids[e];
      && Walked(ad, done + [id], old_.ids, e + 1, new_.ids, n) && id in old_.data
      && Changes(ad, done + [id], old_.data, new_.data)
         == Changes(ad, done, old_.data, new_.data) + [Upd(old_.data[id], DELETE)]
  {
    var id, olds, news := old_.ids[e], old_.ids, new_.ids;
    assert (done + [id])[..|done + [id]| - 1] == done && olds[e] in olds;
    forall k | 0 <= k < |news| ensures news[k] != id {
      if k < n { assert news[k] in news[..n]; }
    }
    assert olds[..e + 1] == olds[..e] + [id];
    WalkOn(ad, done, id, olds, e + 1, news, n);
  }

  lemma WalkNew<Id(!new), Msg(!new)>(ad: Adapter<Id, Msg>, done: seq<Id>, old_: Table<Id, Msg>, e: nat,
      new_: Table<Id, Msg>, n: nat)
    requires Ordered(ad) && Filed(ad, old_) && Filed(ad, new_) && e <= |old_.ids| && n < |new_.ids|
    requires Walked(ad, done, old_.ids, e, new_.ids, n) && (e < |old_.ids| ==> ad.less(new_.ids[n], old_.ids[e]))
    ensures var id := new_.ids[n];
      && Walked(ad, done + [id], old_.ids, e, new_.ids, n + 1) && id in new_.data
      && Changes(ad, done + [id], old_.data, new_.data)
         == Changes(ad, done, old_.data, new_.data) + [Upd(new_.data[id], NEW)]
  {
    var id, olds, news := new_.ids[n], old_.ids, new_.ids;
    assert (done + [id])[..|done + [id]| - 1] == done && news[n] in news;
    forall k | 0 <= k < |olds| ensures olds[k] != id {
      if k < e { assert olds[k] in olds[..e]; }
    }
    assert news[..n + 1] == news[..n] + [id];
    WalkOn(ad, done, id, olds, e, news, n + 1);
  }

  lemma WalkBoth<Id(!new), Msg(!new)>(ad: Adapter<Id, Msg>, done: seq<Id>, old_: Table<Id, Msg>, e: nat,
      new_: Table<Id, Msg>, n: nat)
    requires Ordered(ad) && Filed(ad, old_) && Filed(ad, new_) && e < |old_.ids| && n < |new_.ids|
    requires Walked(ad, done, old_.ids, e, new_.ids, n) && old_.ids[e] == new_.ids[n]
    ensures var id := old_.ids[e];
      && Walked(ad, done + [id], old_.ids, e + 1, new_.ids, n + 1) && id in old_.data && id in new_.data
      && Changes(ad, done + [id], old_.data, new_.data)
         == Changes(ad, done, old_.data, new_.data) + Change(ad, Some(old_.data[id]), Some(new_.data[id]))
  {
    var id, olds, news := old_.ids[e], old_.ids, new_.ids;
    assert (done + [id])[..|done + [id]| - 1] == done && olds[e] in olds && news[n] in news;
    assert olds[..e + 1] == olds[..e] + [id] && news[..n + 1] == news[..n] + [id];
    WalkOn(ad, done, id, olds, e + 1, news, n + 1);
  }
}
