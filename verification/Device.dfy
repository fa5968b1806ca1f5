/** The shared device: its object tables, the guards on them, and the three
    places that send a payload and may have to take its marks back. */
module Device {
  import opened Sys
  import opened RefState
  import opened Registry
  import opened Layout
  import opened Framing
  import opened ReturnLoop
  import HandleDevice
  import Payload
  import RoundTrip

  /* ------------------------------------------------------- send outcomes */

  datatype SendError = Shutdown | DeadReply | ObjectNotFound | Unknown(n: int) | FrozenReply | Binder(errno: int)

  /** How a send ends; Waiting if the answers seen so far do not end it. */
  datatype Sent = Done(reply: Option<Outcome>) | GaveUp(error: SendError) | Waiting

  /** One return of `binder_write_read`, with everything that happened to the
      count table since the previous one, on this and on all other threads. */
  datatype Answer = Answer(during: seq<Event>, result: Option<Outcome>)

  function ErrorOf(f: Failure): SendError
    requires !f.AsyncBufferFull?
  {
    match f
    case NoDevice => Shutdown
    case DeadReply => SendError.DeadReply
    case ObjectNotFound => SendError.ObjectNotFound
    case FailedReply => Unknown(1)
    case FrozenReply => SendError.FrozenReply
    case WriteReadIoctlFailed(errno) => Binder(errno)
  }

  /** A two-way send waits until a reply or an error comes. */
  function TwoWayEnd(result: Option<Outcome>): Sent {
    match result
    case Some(Replied(_, _, _, _, _)) => Done(result)
    case Some(Failed(f)) => if f.AsyncBufferFull? then Waiting else GaveUp(ErrorOf(f))
    case None => Waiting
  }

  /** A one-way send is over as soon as the buffer had room. */
  function OneWayEnd(result: Option<Outcome>): Sent {
    match result
    case Some(Failed(f)) => if f.AsyncBufferFull? then Waiting else GaveUp(ErrorOf(f))
    case _ => Done(None)
  }

  function During(answers: seq<Answer>): seq<Event> {
    if answers == [] then [] else During(answers[..|answers| - 1]) + answers[|answers| - 1].during
  }

  /** The count table after a send: marked once at the start; unmarked once at
      the end if it was given up, and not otherwise. */
  function AfterSend(m: Counts, ids: seq<ObjectId>, answers: seq<Answer>, r: Sent): Counts {
    if r.GaveUp? then GivenUp(m, ids, During(answers))
    else HappenAll(UpdateAll(m, ids, Mark), During(answers))
  }

  /** The answers that a send consumes: all but the last leave it waiting. */
  ghost predicate Consumed(answers: seq<Answer>, n: nat, end: Option<Outcome> -> Sent, r: Sent) {
    && n <= |answers|
    && (forall k | 0 <= k < n && (k + 1 < n || r.Waiting?) :: end(answers[k].result).Waiting?)
    && (if r.Waiting? then n == |answers| else n > 0 && end(answers[n - 1].result) == r)
  }

  /** How often the transaction was written in so many turns: a two-way send hands
      it over with the first turn only, a one-way send with each. */
  function TwoWaySubmissions(turns: nat): nat {
    if turns == 0 then 0 else 1
  }

  function OneWaySubmissions(turns: nat): nat {
    turns
  }

  predicate IsFull(a: Answer) {
    a.result == Some(Failed(AsyncBufferFull))
  }

  /** How many answers said that the asynchronous buffer was full. */
  function FullAnswers(answers: seq<Answer>): nat {
    if answers == [] then 0
    else FullAnswers(answers[..|answers| - 1]) + if IsFull(answers[|answers| - 1]) then 1 else 0
  }

  /** When a send goes on: a two-way one until there is a reply or an error, a
      one-way one while the buffer is full. When it ends well: a two-way one with
      its reply, a one-way one with nothing. */
  lemma EndsExactly(x: Option<Outcome>)
    ensures TwoWayEnd(x).Waiting? <==> x == None || x == Some(Failed(AsyncBufferFull))
    ensures OneWayEnd(x).Waiting? <==> x == Some(Failed(AsyncBufferFull))
    ensures TwoWayEnd(x).Done? <==> x.Some? && x.value.Replied?
    ensures TwoWayEnd(x).Done? ==> TwoWayEnd(x) == Done(x)
    ensures OneWayEnd(x).Done? <==> x == None || x.value.Replied?
    ensures OneWayEnd(x).Done? ==> OneWayEnd(x) == Done(None)
  {
  }

  /** The error that the caller of a send sees, failure by failure. */
  lemma CallerSees(errno: int)
    ensures forall end | end == TwoWayEnd || end == OneWayEnd ::
              && end(Some(Failed(NoDevice))) == GaveUp(Shutdown)
              && end(Some(Failed(Failure.DeadReply))) == GaveUp(SendError.DeadReply)
              && end(Some(Failed(Failure.ObjectNotFound))) == GaveUp(SendError.ObjectNotFound)
              && end(Some(Failed(FailedReply))) == GaveUp(Unknown(1))
              && end(Some(Failed(Failure.FrozenReply))) == GaveUp(SendError.FrozenReply)
              && end(Some(Failed(WriteReadIoctlFailed(errno)))) == GaveUp(Binder(errno))
  {
  }

  lemma FullNext(answers: seq<Answer>, k: nat)
    requires k < |answers|
    ensures FullAnswers(answers[..k + 1]) == FullAnswers(answers[..k]) + if IsFull(answers[k]) then 1 else 0
  {
    assert answers[..k + 1][..k] == answers[..k];
  }

  lemma {:induction false} FullUpTo(answers: seq<Answer>, k: nat)
    requires k <= |answers|
    ensures FullAnswers(answers[..k]) <= k
    ensures FullAnswers(answers[..k]) == k <==> forall j | 0 <= j < k :: IsFull(answers[j])
    ensures FullAnswers(answers[..k]) == 0 <==> forall j | 0 <= j < k :: !IsFull(answers[j])
  {
    if k == 0 {
    } else {
      FullUpTo(answers, k - 1);
      assert answers[..k][..k - 1] == answers[..k - 1];
    }
  }

  /** A one-way send that ended was written once more than the buffer was full. */
  lemma OneWayResubmits(answers: seq<Answer>, n: nat, r: Sent)
    requires Consumed(answers, n, OneWayEnd, r) && !r.Waiting?
    ensures OneWaySubmissions(n) == FullAnswers(answers[..n]) + 1
  {
    assert forall k | 0 <= k < n - 1 :: IsFull(answers[k]) by {
      forall k | 0 <= k < n - 1
        ensures IsFull(answers[k])
      {
        EndsExactly(answers[k].result);
      }
    }
    EndsExactly(answers[n - 1].result);
    FullUpTo(answers, n - 1);
    FullNext(answers, n - 1);
  }

  /** A two-way send that ended was, if and only if the buffer was never full. */
  lemma TwoWayResubmitsIff(answers: seq<Answer>, n: nat, r: Sent)
    requires Consumed(answers, n, TwoWayEnd, r) && !r.Waiting?
    ensures TwoWaySubmissions(n) == FullAnswers(answers[..n]) + 1 <==> forall k | 0 <= k < n :: !IsFull(answers[k])
  {
    FullUpTo(answers, n);
  }

  /** The condition matters: for any number of full answers before the reply, the
      two-way send ends well and was written once. */
  lemma FullNotRetried(full: nat, reply: Outcome) returns (answers: seq<Answer>)
    requires reply.Replied?
    ensures Consumed(answers, full + 1, TwoWayEnd, Done(Some(reply)))
    ensures FullAnswers(answers[..full + 1]) == full && TwoWaySubmissions(full + 1) == 1
  {
    answers := seq(full, _ => Answer([], Some(Failed(AsyncBufferFull)))) + [Answer([], Some(reply))];
    FullUpTo(answers, full);
    assert answers[..full + 1][..full] == answers[..full];
  }

  lemma DuringNext(answers: seq<Answer>, m: Counts, k: nat)
    requires k < |answers|
    ensures HappenAll(m, During(answers[..k + 1])) == HappenAll(HappenAll(m, During(answers[..k])), answers[k].during)
  {
    assert answers[..k + 1][..k] == answers[..k];
    HappenConcat(m, During(answers[..k]), answers[k].during);
  }

  /** What the parse loop did to the count table. */
  function Events(actions: seq<Action>): seq<Event> {
    if actions == [] then []
    else
      var last := actions[|actions| - 1];
      Events(actions[..|actions| - 1]) + (if last.Count? then [Updated(last.id, last.op)] else [])
  }

  lemma EventsNext(actions: seq<Action>, m: Counts, k: nat)
    requires k < |actions|
    ensures HappenAll(m, Events(actions[..k + 1])) ==
            if actions[k].Count? then UpdateOne(HappenAll(m, Events(actions[..k])), actions[k].id, actions[k].op)
            else HappenAll(m, Events(actions[..k]))
  {
    assert actions[..k + 1][..k] == actions[..k];
    if actions[k].Count? {
      var es, e := Events(actions[..k]), Updated(actions[k].id, actions[k].op);
      assert (es + [e])[..|es|] == es;
    } else {
      assert Events(actions[..k]) + [] == Events(actions[..k]);
    }
  }

  /** What reading an object or ref takes hold of. */
  datatype Holding =
    | Nothing
    | Guarding(guard: Guard<ObjectId>)
    | Strong(proxy: HandleDevice.BinderRef)
    | Weak(weak: HandleDevice.WeakBinderRef)

  /** The strong local objects in a list, in order. */
  function StrongOnes(objects: seq<Payload.ObjectOrRef>): seq<ObjectId> {
    if objects == [] then []
    else
      var last := objects[|objects| - 1];
      StrongOnes(objects[..|objects| - 1]) + if last.Object? then [last.id] else []
  }

  /** A borrowed guard for each of them; registered ones count. */
  function Keeping(m: Counts, ids: seq<ObjectId>): (gs: seq<Guard<ObjectId>>)
    ensures |gs| == |ids|
  {
    seq(|ids|, i requires 0 <= i < |ids| => Borrowed(ids[i], ids[i] in m))
  }

  function CountedIds(kept: seq<Guard<ObjectId>>): seq<ObjectId> {
    if kept == [] then []
    else
      var last := kept[|kept| - 1];
      CountedIds(kept[..|kept| - 1]) + if last.Borrowed? && last.increasedLocalRef then [last.id] else []
  }

  lemma NothingKept(m: Counts)
    ensures UpdateAll(m, StrongOnes([]), IncLocal) == m && Keeping(m, StrongOnes([])) == []
  {
  }

  lemma StrongNext(m: Counts, objects: seq<Payload.ObjectOrRef>, k: nat)
    requires k < |objects|
    ensures var ids, ids' := StrongOnes(objects[..k]), StrongOnes(objects[..k + 1]);
            if objects[k].Object? then
              && UpdateAll(m, ids', IncLocal) == UpdateOne(UpdateAll(m, ids, IncLocal), objects[k].id, IncLocal)
              && Keeping(m, ids') == Keeping(m, ids) + [Borrowed(objects[k].id, objects[k].id in m)]
            else ids' == ids
  {
    assert objects[..k + 1][..k] == objects[..k];
    var ids := StrongOnes(objects[..k]);
    if objects[k].Object? {
      assert (ids + [objects[k].id])[..|ids|] == ids;
    }
  }

  lemma CountedNext(m: Counts, kept: seq<Guard<ObjectId>>, k: nat)
    requires k < |kept|
    ensures var ids, ids' := CountedIds(kept[..k]), CountedIds(kept[..k + 1]);
            if kept[k].Borrowed? && kept[k].increasedLocalRef
            then UpdateAll(m, ids', DecLocal) == UpdateOne(UpdateAll(m, ids, DecLocal), kept[k].id, DecLocal)
            else ids' == ids
  {
    assert kept[..k + 1][..k] == kept[..k];
    var ids := CountedIds(kept[..k]);
    if kept[k].Borrowed? && kept[k].increasedLocalRef {
      assert (ids + [kept[k].id])[..|ids|] == ids;
    }
  }

  method TakeProxy(o: Payload.ObjectOrRef, handles: HandleDevice.Handles) returns (held: Holding)
    requires handles.Valid() && !o.Object?
    modifies handles, handles.refs.Values, handles.weakRefs.Values
    ensures handles.Valid()
    ensures o.WeakObject? ==> held == Nothing
    ensures o.Ref? ==> held.Strong? && held.proxy.weak.handle == o.handle
                       && handles.refs == old(handles.refs)[o.handle := held.proxy]
    ensures o.WeakRef? ==> held.Weak? && held.weak.handle == o.handle
                           && handles.weakRefs == old(handles.weakRefs)[o.handle := held.weak]
    ensures o.WeakObject? ==>
              handles.trace == old(handles.trace) && handles.refs == old(handles.refs)
                  && handles.weakRefs == old(handles.weakRefs)
  {
    hide HandleDevice.Opening, HandleDevice.Handles.Valid;
    if o.Ref? {
      var r := handles.StrongFromRaw(o.handle);
      held := Strong(r);
    } else if o.WeakRef? {
      var w := handles.WeakFromRaw(o.handle);
      held := Weak(w);
    } else {
      held := Nothing;
    }
  }

  const MAX_COUNTER: u64 := 0xffff_ffff_ffff_ffff

  /** `fetch_add(1)` on a machine word. */
  function NextCounter(c: u64): u64 {
    if c == MAX_COUNTER then 0 else c + 1
  }

  class BinderDevice {
    var objectIdCounter: u64
    var objects: set<ObjectId>
    var objectRefcounts: map<ObjectId, ObjectRefState>

    ghost predicate Valid() reads this`objectRefcounts, objectRefcounts.Values {
      && (forall i, j | i in objectRefcounts && j in objectRefcounts && i != j ::
          objectRefcounts[i] != objectRefcounts[j])
      && (forall i | i in objectRefcounts :: objectRefcounts[i].Valid())
    }

    ghost function Table(): Counts reads this`objectRefcounts, objectRefcounts.Values {
      map i | i in objectRefcounts :: objectRefcounts[i].counts
    }

    constructor ()
      ensures Valid() && Table() == map[] && objects == {} && objectIdCounter == 1
    {
      objectIdCounter, objects, objectRefcounts := 1, {}, map[];
    }

    method UpdateEntry(id: ObjectId, op: RefOp)
      requires Valid()
      modifies objectRefcounts.Values
      ensures Valid() && Table() == UpdateOne(old(Table()), id, op)
    {
      if id in objectRefcounts {
        var _ := objectRefcounts[id].Update(op);
      }
    }

    /** The id counter wraps like the machine word it is. */
    method RegisterObject() returns (id: ObjectId)
      requires Valid()
      modifies this
      ensures Valid() && fresh(objectRefcounts.Values - old(objectRefcounts.Values))
      ensures id == ObjectId(old(objectIdCounter), 0)
      ensures objectIdCounter == NextCounter(old(objectIdCounter))
      ensures objects == old(objects) + {id} && Table() == old(Table())[id := NO_REFS]
    {
      id := ObjectId(objectIdCounter, 0);
      objectIdCounter := if objectIdCounter == MAX_COUNTER then 0 else objectIdCounter + 1;
      InsertObject(id);
    }

    method InsertObject(id: ObjectId)
      requires Valid()
      modifies this`objects, this`objectRefcounts
      ensures Valid() && fresh(objectRefcounts.Values - old(objectRefcounts.Values))
      ensures objects == old(objects) + {id} && Table() == old(Table())[id := NO_REFS]
    {
      objects := objects + {id};
      var state := new ObjectRefState();
      assert Valid() && Table() == old(Table());
      InsertState(id, state);
    }

    method InsertState(id: ObjectId, state: ObjectRefState)
      requires Valid() && state !in objectRefcounts.Values && state.Valid() && state.counts == NO_REFS
      modifies this`objectRefcounts
      ensures Valid() && objectRefcounts.Values <= old(objectRefcounts.Values) + {state}
      ensures Table() == old(Table())[id := NO_REFS]
    {
      assert forall i | i in objectRefcounts :: objectRefcounts[i] in objectRefcounts.Values;
      objectRefcounts := objectRefcounts[id := state];
    }

    method RemoveBinderObject(id: ObjectId)
      requires Valid()
      modifies this`objects, this`objectRefcounts
      ensures Valid() && objectRefcounts.Values <= old(objectRefcounts.Values)
      ensures objects == old(objects) - {id} && Table() == old(Table()) - {id}
    {
      objects := objects - {id};
      objectRefcounts := objectRefcounts - {id};
    }

    /* ------------------------------------------------------------ guards */

    /** `to_binder_object_or_ref` of an owner, and `clone` of a borrowed guard:
        no handler lookup, since the caller already has the handler. */
    method Borrow(id: ObjectId) returns (g: Guard<ObjectId>)
      requires Valid()
      modifies objectRefcounts.Values
      ensures Valid() && g == Borrowed(id, id in Table()) && Table() == UpdateOne(old(Table()), id, IncLocal)
    {
      g := Borrowed(id, id in objectRefcounts);
      UpdateEntry(id, IncLocal);
    }

    method BorrowedFromId(id: ObjectId) returns (g: Option<Guard<ObjectId>>)
      requires Valid()
      modifies objectRefcounts.Values
      ensures Valid()
      ensures id in objects ==>
                && g == Some(Borrowed(id, id in Table()))
                && Table() == UpdateOne(old(Table()), id, IncLocal)
      ensures id !in objects ==> g == None && Table() == old(Table())
    {
      if id !in objects {
        return None;
      }
      var b := Borrow(id);
      g := Some(b);
    }

    /** `rightType` tells whether the handler is of the requested type. */
    method TypedFromId(id: ObjectId, rightType: bool) returns (g: Option<Guard<ObjectId>>)
      requires Valid()
      modifies objectRefcounts.Values
      ensures Valid()
      ensures g == if id in objects && rightType && id in Table() then Some(Typed(id)) else None
      ensures Table() == if g.Some? then UpdateOne(old(Table()), id, IncLocal) else old(Table())
    {
      if id !in objects || !rightType || id !in objectRefcounts {
        return None;
      }
      UpdateEntry(id, IncLocal);
      g := Some(Typed(id));
    }

    method CloneGuard(g: Guard<ObjectId>) returns (g': Guard<ObjectId>)
      requires Valid()
      modifies objectRefcounts.Values
      ensures Valid() && Table() == UpdateOne(old(Table()), g.id, IncLocal)
      ensures g' == if g.Typed? then g else Borrowed(g.id, g.id in Table())
    {
      if g.Typed? {
        UpdateEntry(g.id, IncLocal);
        g' := g;
      } else {
        g' := Borrow(g.id);
      }
    }

    method DropGuard(g: Guard<ObjectId>)
      requires Valid()
      modifies objectRefcounts.Values
      ensures Valid()
      ensures Table() == if g.Typed? || g.increasedLocalRef then UpdateOne(old(Table()), g.id, DecLocal)
                else old(Table())
    {
      if g.Typed? || g.increasedLocalRef {
        UpdateEntry(g.id, DecLocal);
      }
    }

    /* ----------------------------------------------------------- reading */

    /** What a decoded object or ref takes hold of: a counted guard on a local
        object, or the proxy of a handle. */
    method TakeHold(o: Payload.ObjectOrRef, handles: HandleDevice.Handles) returns (held: Holding)
      requires Valid() && handles.Valid()
      modifies objectRefcounts.Values, handles, handles.refs.Values, handles.weakRefs.Values
      ensures Valid() && handles.Valid()
      ensures Table() == if o.Object? then UpdateOne(old(Table()), o.id, IncLocal) else old(Table())
      ensures o.Object? ==> held == Guarding(Borrowed(o.id, o.id in Table()))
      ensures o.WeakObject? ==> held == Nothing
      ensures o.Ref? ==> held.Strong? && held.proxy.weak.handle == o.handle
                         && handles.refs == old(handles.refs)[o.handle := held.proxy]
      ensures o.WeakRef? ==> held.Weak? && held.weak.handle == o.handle
                             && handles.weakRefs == old(handles.weakRefs)[o.handle := held.weak]
      ensures o.Object? || o.WeakObject? ==>
                handles.trace == old(handles.trace) && handles.refs == old(handles.refs)
                    && handles.weakRefs == old(handles.weakRefs)
    {
      hide UpdateOne, Valid, Table, HandleDevice.Handles.Valid;
      if o.Object? {
        var g := Borrow(o.id);
        held := Guarding(g);
      } else {
        held := TakeProxy(o, handles);
      }
    }

    /** Reading an object or a ref, with all that it takes hold of. */
    method ReadBinderRef(reader: Payload.PayloadReader, handles: HandleDevice.Handles)
      returns (res: Payload.Result<Payload.ObjectOrRef, Payload.ObjectError>, held: Holding)
      requires Valid() && reader.Valid() && handles.Valid()
      modifies reader, objectRefcounts.Values, handles, handles.refs.Values, handles.weakRefs.Values
      ensures Valid() && reader.Valid() && handles.Valid()
      ensures (res, reader.View()) == Payload.ReadBinderRef(old(reader.View()), objects)
      ensures Table() == if res.Ok? && res.value.Object? then UpdateOne(old(Table()), res.value.id, IncLocal)
                else old(Table())
      ensures res.Ok? && res.value.Object? ==> held == Guarding(Borrowed(res.value.id, res.value.id in Table()))
      ensures res.Err? || res.value.WeakObject? ==> held == Nothing
      ensures res.Ok? && res.value.Ref? ==>
                held.Strong? && held.proxy.weak.handle == res.value.handle
                && handles.refs == old(handles.refs)[res.value.handle := held.proxy]
      ensures res.Ok? && res.value.WeakRef? ==>
                held.Weak? && held.weak.handle == res.value.handle
                && handles.weakRefs == old(handles.weakRefs)[res.value.handle := held.weak]
      ensures res.Err? || res.value.Object? || res.value.WeakObject? ==>
                handles.trace == old(handles.trace) && handles.refs == old(handles.refs)
                    && handles.weakRefs == old(handles.weakRefs)
    {
      hide UpdateOne, Payload.ReadBinderRef, Payload.ReaderOk;
      held := Nothing;
      res := reader.TakeBinderRef(objects);
      if res.Ok? {
        held := TakeHold(res.value, handles);
      }
    }

    /** A local delivery: the reader keeps a clone of every object that the builder
        kept, so each strong one is counted once more per push while the reader
        lives. */
    method ReaderFromBuilder(builder: Payload.PayloadBuilder, dup: nat -> Union)
      returns (r: Payload.PayloadReader, kept: seq<Guard<ObjectId>>)
      requires Valid() && Spaced(builder.data, builder.objOffsets)
      requires forall i | 0 <= i < |builder.objOffsets| ::
                 Payload.At(builder.data, builder.objOffsets[i]) !in {Payload.IsFdArray, Payload.IsBuffer}
      modifies objectRefcounts.Values
      ensures Valid() && fresh(r) && r.Valid() && r.binderObjects == builder.binderObjects
      ensures InBounds(|builder.data|, builder.objOffsets)
                && r.View() == Payload.Fresh(RoundTrip.Delivered(builder.View(), dup))
      ensures Table() == UpdateAll(old(Table()), StrongOnes(builder.binderObjects), IncLocal)
      ensures kept == Keeping(old(Table()), StrongOnes(builder.binderObjects))
    {
      hide UpdateAll, RoundTrip.Delivered, Payload.At, Spaced;
      r := RoundTrip.FromBuilder(builder, dup);
      kept := KeepObjects(builder.binderObjects);
    }

    method KeepObjects(objects: seq<Payload.ObjectOrRef>) returns (kept: seq<Guard<ObjectId>>)
      requires Valid()
      modifies objectRefcounts.Values
      ensures Valid() && Table() == UpdateAll(old(Table()), StrongOnes(objects), IncLocal)
      ensures kept == Keeping(old(Table()), StrongOnes(objects))
    {
      hide UpdateAll, UpdateOne, Keeping, StrongOnes;
      kept := [];
      ghost var before := Table();
      NothingKept(before);
      var i := 0;
      while i < |objects|
        invariant 0 <= i <= |objects|
        invariant Valid() && Table() == UpdateAll(before, StrongOnes(objects[..i]), IncLocal)
        invariant kept == Keeping(before, StrongOnes(objects[..i]))
      {
        StrongNext(before, objects, i);
        Projection(before, StrongOnes(objects[..i]), IncLocal);
        if objects[i].Object? {
          var g := Borrow(objects[i].id);
          kept := kept + [g];
        }
        i := i + 1;
      }
      assert objects[..i] == objects;
    }

    /** The reader is dropped: its guards go one after the other. */
    method LetGo(kept: seq<Guard<ObjectId>>)
      requires Valid() && forall i | 0 <= i < |kept| :: kept[i].Borrowed?
      modifies objectRefcounts.Values
      ensures Valid() && Table() == UpdateAll(old(Table()), CountedIds(kept), DecLocal)
    {
      ghost var before := Table();
      var i := 0;
      while i < |kept|
        invariant 0 <= i <= |kept|
        invariant Valid() && Table() == UpdateAll(before, CountedIds(kept[..i]), DecLocal)
      {
        CountedNext(before, kept, i);
        DropGuard(kept[i]);
        i := i + 1;
      }
      assert kept[..i] == kept;
    }

    /* ------------------------------------------------------------- marks */

    /** The loop that both `mark_` and `unmark_objects_as_pending_remote` are. */
    method ForEachEmbedded(data: Built, op: RefOp)
      requires Valid() && InBounds(|data.data|, data.offsets)
      modifies objectRefcounts.Values
      ensures Valid() && Table() == UpdateAll(old(Table()), RoundTrip.EmbeddedIds(data), op)
    {
      hide RoundTrip.EmbeddedIds;
      var ids := RoundTrip.ForEachEmbeddedBinderObject(data);
      var i := 0;
      while i < |ids|
        invariant 0 <= i <= |ids|
        invariant Valid() && Table() == UpdateAll(old(Table()), ids[..i], op)
      {
        UpdateNext(old(Table()), ids, op, i);
        UpdateEntry(ids[i], op);
        i := i + 1;
      }
      assert ids[..i] == ids;
    }

    method MarkObjectsAsPendingRemote(data: Built)
      requires Valid() && InBounds(|data.data|, data.offsets)
      modifies objectRefcounts.Values
      ensures Valid() && Table() == UpdateAll(old(Table()), RoundTrip.EmbeddedIds(data), Mark)
    {
      ForEachEmbedded(data, Mark);
    }

    method UnmarkObjectsAsPendingRemote(data: Built)
      requires Valid() && InBounds(|data.data|, data.offsets)
      modifies objectRefcounts.Values
      ensures Valid() && Table() == UpdateAll(old(Table()), RoundTrip.EmbeddedIds(data), Clear)
    {
      ForEachEmbedded(data, Clear);
    }

    /** The count updates of one parsed read buffer. */
    method PerformCounts(actions: seq<Action>)
      requires Valid()
      modifies objectRefcounts.Values
      ensures Valid() && Table() == HappenAll(old(Table()), Events(actions))
    {
      hide Events, HappenAll;
      var i := 0;
      assert HappenAll(old(Table()), Events([])) == old(Table()) by {
        NoEvents(old(Table()));
      }
      while i < |actions|
        invariant 0 <= i <= |actions|
        invariant Valid() && Table() == HappenAll(old(Table()), Events(actions[..i]))
      {
        EventsNext(actions, old(Table()), i);
        if actions[i].Count? {
          UpdateEntry(actions[i].id, actions[i].op);
        }
        i := i + 1;
      }
      assert actions[..i] == actions;
    }

    /* ------------------------------------------------------------- sends */

    /** The environment of a send: whatever happens to the table meanwhile. */
    method Meanwhile(es: seq<Event>)
      requires Valid()
      modifies this, objectRefcounts.Values
      ensures Valid() && fresh(objectRefcounts.Values - old(objectRefcounts.Values))
      ensures Table() == HappenAll(old(Table()), es)
    {
      var i := 0;
      while i < |es|
        invariant 0 <= i <= |es|
        invariant Valid() && fresh(objectRefcounts.Values - old(objectRefcounts.Values))
        invariant Table() == HappenAll(old(Table()), es[..i])
      {
        HappenNext(old(Table()), es, i);
        match es[i] {
          case Registered(id) => InsertObject(id);
          case Unregistered(id) => RemoveBinderObject(id);
          case Updated(id, op) => UpdateEntry(id, op);
        }
        i := i + 1;
      }
      assert es[..i] == es;
    }

    /** The two-way send. `answers` are the successive returns of the ioctl
        turn; the transaction is written with the first turn only, so a full
        asynchronous buffer is waited on and not retried. */
    method RemoteTransactBlocking(data: Built, answers: seq<Answer>) returns (r: Sent, turns: nat, submissions: nat)
      requires Valid() && InBounds(|data.data|, data.offsets)
      modifies this, objectRefcounts.Values
      ensures Valid() && Consumed(answers, turns, TwoWayEnd, r)
      ensures submissions == TwoWaySubmissions(turns)
      ensures Table() == AfterSend(old(Table()), RoundTrip.EmbeddedIds(data), answers[..turns], r)
    {
      hide RoundTrip.EmbeddedIds, HappenAll, UpdateAll, UpdateOne;
      MarkObjectsAsPendingRemote(data);
      ghost var marked := Table();
      NoAnswers(marked);
      var writeData := true;
      turns, submissions := 0, 0;
      while turns < |answers|
        invariant turns <= |answers| && writeData == (turns == 0) && submissions == if turns == 0 then 0 else 1
        invariant Valid() && fresh(objectRefcounts.Values - old(objectRefcounts.Values))
        invariant Table() == HappenAll(marked, During(answers[..turns]))
        invariant forall k | 0 <= k < turns :: TwoWayEnd(answers[k].result).Waiting?
      {
        if writeData {
          submissions := submissions + 1;
          writeData := false;
        }
        DuringNext(answers, marked, turns);
        Meanwhile(answers[turns].during);
        var v := answers[turns].result;
        turns := turns + 1;
        match v {
          case Some(Replied(_, _, _, _, _)) => return Done(v), turns, submissions;
          case Some(Failed(f)) =>
            if !f.AsyncBufferFull? {
              UnmarkObjectsAsPendingRemote(data);
              return GaveUp(ErrorOf(f)), turns, submissions;
            }
          case None =>
        }
      }
      r := Waiting;
    }

    /** The one-way send: written again for every retry. */
    method RemoteTransactOneWay(data: Built, answers: seq<Answer>) returns (r: Sent, turns: nat, submissions: nat)
      requires Valid() && InBounds(|data.data|, data.offsets)
      modifies this, objectRefcounts.Values
      ensures Valid() && Consumed(answers, turns, OneWayEnd, r)
      ensures submissions == OneWaySubmissions(turns)
      ensures Table() == AfterSend(old(Table()), RoundTrip.EmbeddedIds(data), answers[..turns], r)
    {
      hide RoundTrip.EmbeddedIds, HappenAll, UpdateAll, UpdateOne;
      MarkObjectsAsPendingRemote(data);
      ghost var marked := Table();
      NoAnswers(marked);
      turns, submissions := 0, 0;
      while turns < |answers|
        invariant turns <= |answers| && submissions == turns
        invariant Valid() && fresh(objectRefcounts.Values - old(objectRefcounts.Values))
        invariant Table() == HappenAll(marked, During(answers[..turns]))
        invariant forall k | 0 <= k < turns :: OneWayEnd(answers[k].result).Waiting?
      {
        submissions := submissions + 1;
        DuringNext(answers, marked, turns);
        Meanwhile(answers[turns].during);
        var v := answers[turns].result;
        turns := turns + 1;
        if v.None? || v.value.Replied? {
          return Done(None), turns, submissions;
        }
        if !v.value.failure.AsyncBufferFull? {
          UnmarkObjectsAsPendingRemote(data);
          return GaveUp(ErrorOf(v.value.failure)), turns, submissions;
        }
      }
      r := Waiting;
    }

    /** The reply path: one turn, and any error takes the marks back, a full
        asynchronous buffer included. */
    method SendReply(reply: Built, answer: Answer)
      requires Valid() && InBounds(|reply.data|, reply.offsets)
      modifies this, objectRefcounts.Values
      ensures Valid()
      ensures var ids := RoundTrip.EmbeddedIds(reply);
              Table() == if answer.result.Some? && answer.result.value.Failed?
                  then GivenUp(old(Table()), ids, answer.during)
                         else HappenAll(UpdateAll(old(Table()), ids, Mark), answer.during)
    {
      hide RoundTrip.EmbeddedIds, HappenAll, UpdateAll, UpdateOne;
      MarkObjectsAsPendingRemote(reply);
      Meanwhile(answer.during);
      if answer.result.Some? && answer.result.value.Failed? {
        UnmarkObjectsAsPendingRemote(reply);
      }
    }
  }

  lemma NoAnswers(m: Counts)
    ensures HappenAll(m, During([])) == m
  {
  }

  lemma NoEvents(m: Counts)
    ensures HappenAll(m, Events([])) == m
  {
  }

  /* -------------------------------------- what a reader keeps alive */

  lemma {:induction false} RepeatLocal(c: RefCounts, n: nat)
    ensures Repeat(c, IncLocal, n) == c.(local := c.local + n)
    ensures Repeat(c, DecLocal, n) == c.(local := c.local - n)
  {
    if n == 0 {
    } else {
      RepeatLocal(c, n - 1);
    }
  }

  lemma {:induction false} CountedOccurrences(m: Counts, ids: seq<ObjectId>, id: ObjectId)
    ensures id in m ==> multiset(CountedIds(Keeping(m, ids)))[id] == multiset(ids)[id]
  {
    if ids == [] {
    } else {
      var front, last := ids[..|ids| - 1], ids[|ids| - 1];
      CountedOccurrences(m, front, id);
      assert Keeping(m, ids)[..|front|] == Keeping(m, front);
      assert ids == front + [last];
    }
  }

  /** An added local count passes through any other updates. */
  lemma {:induction false} LocalsTravel(c: RefCounts, extra: nat, ops: seq<RefOp>)
    ensures Updates(c.(local := c.local + extra), ops) == Updates(c, ops).(local := Updates(c, ops).local + extra)
  {
    if ops == [] {
    } else {
      LocalsTravel(c, extra, ops[..|ops| - 1]);
    }
  }

  /** Main result: while the reader of a local delivery lives, whatever other
      threads do to the table, a strong object that stays registered is counted
      once more for each time it was pushed into the payload than it would be
      without the reader, so that its total is positive; and dropping the reader
      then leaves exactly what the other threads alone would have left. */
  lemma ReaderKeepsAlive(m: Counts, objects: seq<Payload.ObjectOrRef>, es: seq<Event>, id: ObjectId)
    requires id in m && Stays(es, id)
    requires id in HappenAll(m, es) ==> Sane(HappenAll(m, es)[id])
    ensures var ids := StrongOnes(objects);
            var alone, during := HappenAll(m, es), HappenAll(UpdateAll(m, ids, IncLocal), es);
            var after := UpdateAll(during, CountedIds(Keeping(m, ids)), DecLocal);
            && id in alone && id in during && id in after
            && during[id].Total() == alone[id].Total() + multiset(ids)[id]
            && (id in ids ==> during[id].Total() > 0)
            && after[id] == alone[id]
  {
    hide UpdateAll, HappenAll, Updates, Keeping, CountedIds, StrongOnes, Repeat, Stays;
    var ids := StrongOnes(objects);
    var n := multiset(ids)[id];
    var delivered := UpdateAll(m, ids, IncLocal);
    var during := HappenAll(delivered, es);
    var back := CountedIds(Keeping(m, ids));
    ProjectionAt(m, ids, IncLocal, id);
    RepeatLocal(m[id], n);
    HappenAt(m, es, id);
    HappenAt(delivered, es, id);
    LocalsTravel(m[id], n, OpsOn(es, id));
    ProjectionAt(during, back, DecLocal, id);
    CountedOccurrences(m, ids, id);
    RepeatLocal(during[id], n);
  }

  /* ----------------------------------- what the driver says to the table */

  predicate RemoteOp(e: Event) {
    e.Updated? && (e.op == IncRemote || e.op == DecRemote)
  }

  predicate RemoteOps(es: seq<Event>) {
    forall i | 0 <= i < |es| :: RemoteOp(es[i])
  }

  /** The frame with which the driver reports a reference to an object. */
  function RefFrame(e: Event): Frame
    requires RemoteOp(e)
  {
    Frame(if e.op == IncRemote then Acquire else Release, Le(e.id.id, 8) + Le(e.id.cookie, 8))
  }

  function RefFrames(es: seq<Event>): seq<Frame>
    requires RemoteOps(es)
  {
    if es == [] then [] else [RefFrame(es[0])] + RefFrames(es[1..])
  }

  lemma {:induction false} EventsConcat(a: seq<Action>, b: seq<Action>)
    ensures Events(a + b) == Events(a) + Events(b)
  {
    if b == [] {
      assert a + b == a;
    } else {
      var front := b[..|b| - 1];
      EventsConcat(a, front);
      assert (a + b)[..|a + b| - 1] == a + front;
    }
  }

  lemma RefFrameEffect(e: Event, at: nat, w: World)
    requires RemoteOp(e)
    ensures EffectOf(RefFrame(e), at, w).outcome == None
    ensures Events(EffectOf(RefFrame(e), at, w).actions) == [e]
  {
    var p := Le(e.id.id, 8) + Le(e.id.cookie, 8);
    WidthFacts();
    assert p[..16] == p && p[0..8] == Le(e.id.id, 8) && p[8..16] == Le(e.id.cookie, 8);
    LeRoundTrip(e.id.id, 8);
    LeRoundTrip(e.id.cookie, 8);
    assert PtrCookie(p) == e.id;
    if e.op == IncRemote {
      EventsConcat([Count(e.id, IncRemote)], [AcquireDone(e.id)]);
    }
  }

  /** The loop's turn over one such frame. */
  lemma ReportTurn(e: Event, rest: seq<byte>, at: nat, w: World)
    requires RemoteOp(e)
    ensures var t, t' := Run(FrameBytes(RefFrame(e)) + rest, at, w), Run(rest, After(RefFrame(e), at), w);
            t.verdict == t'.verdict && Events(t.actions) == [e] + Events(t'.actions)
  {
    hide Run, EffectOf, FrameBytes, Events;
    var f := RefFrame(e);
    RefFrameEffect(e, at, w);
    FrameTurn(f, rest, at, w);
    EventsConcat(EffectOf(f, at, w).actions, Run(rest, After(f, at), w).actions);
  }

  lemma ReportStream(es: seq<Event>)
    requires es != [] && RemoteOps(es)
    ensures RemoteOp(es[0]) && RemoteOps(es[1..])
    ensures Stream(RefFrames(es)) == FrameBytes(RefFrame(es[0])) + Stream(RefFrames(es[1..]))
  {
    hide RemoteOp, RefFrame, FrameBytes;
    assert RefFrames(es)[1..] == RefFrames(es[1..]);
  }

  lemma NoReports(at: nat, w: World)
    ensures Run(Stream(RefFrames([])), at, w) == Trace([], [], Drained)
  {
  }

  /** Main result: whatever references the driver reports, as bytes in the read
      buffer, are exactly the updates that the loop performs, in order. */
  lemma {:induction false} ReportsReachTable(es: seq<Event>, at: nat, w: World)
    requires RemoteOps(es)
    ensures Run(Stream(RefFrames(es)), at, w).verdict == Drained
    ensures Events(Run(Stream(RefFrames(es)), at, w).actions) == es
  {
    if es == [] {
      NoReports(at, w);
    } else {
      hide Run, Stream, RefFrames, RefFrame, FrameBytes, RemoteOp, RemoteOps, Events, After;
      var at' := After(RefFrame(es[0]), at);
      ReportStream(es);
      ReportTurn(es[0], Stream(RefFrames(es[1..])), at, w);
      ReportsReachTable(es[1..], at', w);
    }
  }

  /* ----------------------------------------- what a send does to the table */

  /** What the walk finds in a built payload. */
  ghost function Embedded(items: seq<Payload.Item>): seq<ObjectId> {
    AssembleSpaced(Payload.Chunks(items));
    RoundTrip.EmbeddedIds(Payload.Build(items))
  }

  /** Marking the payload that a builder produced: every strong object pushed
      into it that no remote process holds gets one credit for each push. */
  lemma SendMarks(m: Counts, items: seq<Payload.Item>, id: ObjectId)
    requires id in m
    ensures id in UpdateAll(m, Embedded(items), Mark)
    ensures UpdateAll(m, Embedded(items), Mark)[id] ==
            if m[id].remote == 0 then m[id].(pending := m[id].pending + multiset(RoundTrip.StrongIds(items))[id])
                else m[id]
  {
    RoundTrip.WalkFindsStrongObjects(items);
    ProjectionAt(m, RoundTrip.StrongIds(items), Mark, id);
    RepeatMark(m[id], multiset(RoundTrip.StrongIds(items))[id]);
  }

  /** One entry of the table after a send that was not given up. */
  lemma KeptAt(c: RefCounts, n: nat, ops: seq<RefOp>)
    requires c.pending >= 0
    ensures var alone, together := Updates(c, ops), Updates(Repeat(c, Mark, n), ops);
            && together.local == alone.local && together.remote == alone.remote
            && (together.pending == alone.pending + n <==> n == 0 || Intact(c, ops))
            && (c.remote != 0 || IncRemote in ops ==> together.pending == alone.pending)
            && 0 <= alone.pending <= together.pending <= alone.pending + n
  {
    RepeatMark(c, n);
    CreditsTravel(c, if c.remote == 0 then n else 0, ops);
  }

  /** Main result: a send that ended well, or is still waiting, has its marks
      standing. A strong object pushed into its payload has one credit more per
      push than without the send, if and only if its credits are intact: it was
      not held remotely, no acquire of it was processed, and no starved rollback of
      another send took one. Its total is then positive. After an acquire, or if
      it was held already, its entry is that of the other threads alone. */
  lemma SendKeepsMarks(m: Counts, items: seq<Payload.Item>, answers: seq<Answer>, r: Sent, id: ObjectId)
    requires !r.GaveUp? && id in m && m[id].pending >= 0 && Stays(During(answers), id)
    ensures var es, n := During(answers), multiset(RoundTrip.StrongIds(items))[id];
            var table := AfterSend(m, Embedded(items), answers, r);
            && id in table && id in HappenAll(m, es)
            && var alone := HappenAll(m, es)[id];
               && table[id].local == alone.local && table[id].remote == alone.remote
               && (table[id].pending == alone.pending + n <==> n == 0 || Intact(m[id], OpsOn(es, id)))
               && (m[id].remote != 0 || IncRemote in OpsOn(es, id) ==> table[id] == alone)
               && (n > 0 && Intact(m[id], OpsOn(es, id)) && alone.local >= 0 && alone.remote >= 0 ==>
                     table[id].Total() > 0)
  {
    hide UpdateAll, HappenAll, Updates, Stays, Intact, Repeat, During, Embedded;
    var ids, es := RoundTrip.StrongIds(items), During(answers);
    RoundTrip.WalkFindsStrongObjects(items);
    EmbeddedStrong(items);
    ProjectionAt(m, ids, Mark, id);
    HappenAt(m, es, id);
    HappenAt(UpdateAll(m, ids, Mark), es, id);
    KeptAt(m[id], multiset(ids)[id], OpsOn(es, id));
  }

  lemma EmbeddedStrong(items: seq<Payload.Item>)
    ensures Embedded(items) == RoundTrip.StrongIds(items)
  {
    RoundTrip.WalkFindsStrongObjects(items);
  }

  /** Main result: a send of a built payload that is given up, after any number
      of retries and overlapping any other activity, is invisible in the table if
      and only if every strong object pushed into it that is still registered gets
      its own credits taken back, or has nothing pending at the end. */
  lemma FailedSendInvisible(m: Counts, items: seq<Payload.Item>, answers: seq<Answer>, r: Sent)
    requires r.GaveUp? && forall id | id in m :: m[id].pending >= 0
    ensures AfterSend(m, Embedded(items), answers, r) == HappenAll(m, During(answers))
            <==> forall id | id in RoundTrip.StrongIds(items) && id in HappenAll(m, During(answers)) ::
                   TakesBackItsOwn(m, id, During(answers)) || HappenAll(m, During(answers))[id].pending == 0
  {
    RoundTrip.WalkFindsStrongObjects(items);
    GivenUpInvisible(m, RoundTrip.StrongIds(items), During(answers));
  }

  /** The counter after some registrations. */
  function CounterAfter(registrations: nat): u64 {
    if registrations == 0 then 1 else NextCounter(CounterAfter(registrations - 1))
  }

  lemma {:induction false} CounterValue(n: nat)
    requires n <= MAX_COUNTER
    ensures CounterAfter(n) == if n == MAX_COUNTER then 0 else n + 1
  {
    if n == 0 {
    } else {
      CounterValue(n - 1);
    }
  }

  /** No id is handed out twice within 2^64 registrations, and the next one after
      that repeats the first. */
  lemma IdsDistinct(i: nat, j: nat)
    requires i < j <= MAX_COUNTER + 1
    ensures CounterAfter(i) == CounterAfter(j) <==> i == 0 && j == MAX_COUNTER + 1
  {
    CounterValue(i);
    if j <= MAX_COUNTER {
      CounterValue(j);
    } else {
      CounterValue(j - 1);
    }
  }
}
