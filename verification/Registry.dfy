/** The table of reference counts: what one transaction's marks and rollbacks do
    to all the objects embedded in it, and what a failed send leaves behind. */
module Registry {
  import opened Sys
  import opened RefState

  type Counts = map<ObjectId, RefCounts>

  /** A guard on a local object; a borrowed one remembers whether it counted. */
  datatype Guard<I(==)> = Borrowed(id: I, increasedLocalRef: bool) | Typed(id: I)

  /** One update of one object; ids without an entry are skipped. */
  function UpdateOne(m: Counts, id: ObjectId, op: RefOp): Counts {
    if id in m then m[id := Mutate(m[id], op)] else m
  }

  /** The same update for every listed id, in order and once per occurrence. */
  function UpdateAll(m: Counts, ids: seq<ObjectId>, op: RefOp): Counts {
    if ids == [] then m
    else UpdateOne(UpdateAll(m, ids[..|ids| - 1], op), ids[|ids| - 1], op)
  }

  lemma UpdateNext(m: Counts, ids: seq<ObjectId>, op: RefOp, k: nat)
    requires k < |ids|
    ensures UpdateAll(m, ids[..k + 1], op) == UpdateOne(UpdateAll(m, ids[..k], op), ids[k], op)
  {
    assert ids[..k + 1][..k] == ids[..k];
  }

  lemma {:induction false} ProjectionAt(m: Counts, ids: seq<ObjectId>, op: RefOp, id: ObjectId)
    ensures id in m <==> id in UpdateAll(m, ids, op)
    ensures id in m ==> UpdateAll(m, ids, op)[id] == Repeat(m[id], op, multiset(ids)[id])
  {
    if ids == [] {
    } else {
      hide Mutate;
      var front, last := ids[..|ids| - 1], ids[|ids| - 1];
      ProjectionAt(m, front, op, id);
      assert multiset(ids)[id] == multiset(front)[id] + (if id == last then 1 else 0) by {
        assert ids == front + [last];
      }
    }
  }

  /** Each object sees its own occurrences and nothing else. */
  lemma Projection(m: Counts, ids: seq<ObjectId>, op: RefOp)
    ensures UpdateAll(m, ids, op).Keys == m.Keys
    ensures forall id | id in m :: UpdateAll(m, ids, op)[id] == Repeat(m[id], op, multiset(ids)[id])
  {
    forall id
      ensures id in m <==> id in UpdateAll(m, ids, op)
      ensures id in m ==> UpdateAll(m, ids, op)[id] == Repeat(m[id], op, multiset(ids)[id])
    {
      ProjectionAt(m, ids, op, id);
    }
  }

  /* ------------------------------------------------- marking and unmarking */

  /** The rollback has nothing to take away that it did not put there. */
  predicate Undoable(c: RefCounts) {
    c.remote == 0 || c.pending == 0
  }

  /** For one object embedded `n` times. */
  lemma MarkClear(c: RefCounts, n: nat)
    requires c.pending >= 0
    ensures Repeat(Repeat(c, Mark, n), Clear, n) == c <==> n == 0 || Undoable(c)
  {
    RepeatMark(c, n);
    RepeatClear(Repeat(c, Mark, n), n);
  }

  /** Main result: unmarking right after marking restores the table exactly if
      every embedded registered object is undoable, however often the same
      object is embedded and whatever unregistered ids are listed. */
  lemma MarkUnmark(m: Counts, ids: seq<ObjectId>)
    requires forall id | id in m :: m[id].pending >= 0
    ensures UpdateAll(UpdateAll(m, ids, Mark), ids, Clear) == m
            <==> forall id | id in m && id in ids :: Undoable(m[id])
  {
    var marked := UpdateAll(m, ids, Mark);
    var back := UpdateAll(marked, ids, Clear);
    Projection(m, ids, Mark);
    Projection(marked, ids, Clear);
    forall id | id in m
      ensures back[id] == m[id] <==> id !in ids || Undoable(m[id])
    {
      MarkClear(m[id], multiset(ids)[id]);
    }
    if forall id | id in m && id in ids :: Undoable(m[id]) {
      assert back == m;
    } else {
      var id :| id in m && id in ids && !Undoable(m[id]);
      assert back[id] != m[id];
    }
  }

  /* -------------------------------------------------------- table history */

  /** Everything that ever changes the table. */
  datatype Event =
    | Registered(id: ObjectId)
    | Unregistered(id: ObjectId)
    | Updated(id: ObjectId, op: RefOp)

  function Happen(m: Counts, e: Event): Counts {
    match e
    case Registered(id) => m[id := NO_REFS]
    case Unregistered(id) => m - {id}
    case Updated(id, op) => UpdateOne(m, id, op)
  }

  function HappenAll(m: Counts, es: seq<Event>): Counts {
    if es == [] then m else Happen(HappenAll(m, es[..|es| - 1]), es[|es| - 1])
  }

  lemma HappenNext(m: Counts, es: seq<Event>, k: nat)
    requires k < |es|
    ensures HappenAll(m, es[..k + 1]) == Happen(HappenAll(m, es[..k]), es[k])
  {
    assert es[..k + 1][..k] == es[..k];
  }

  lemma {:induction false} HappenConcat(m: Counts, es: seq<Event>, es': seq<Event>)
    ensures HappenAll(m, es + es') == HappenAll(HappenAll(m, es), es')
  {
    if es' == [] {
      assert es + es' == es;
    } else {
      var front := es'[..|es'| - 1];
      HappenConcat(m, es, front);
      assert (es + es')[..|es + es'| - 1] == es + front;
    }
  }

  /** The counts are unsigned: no decrement happens at zero. On the remote count
      StrongRefs.NeverUnderflows shows that none does. */
  predicate Possible(m: Counts, e: Event) {
    e.Updated? && e.id in m ==>
      && (e.op == DecLocal ==> m[e.id].local > 0)
      && (e.op == DecRemote ==> m[e.id].remote > 0)
  }

  ghost predicate History(es: seq<Event>) {
    forall k | 0 <= k < |es| :: Possible(HappenAll(map[], es[..k]), es[k])
  }

  ghost predicate AllSane(m: Counts) {
    forall id | id in m :: Sane(m[id])
  }

  lemma {:induction false} HistorySane(es: seq<Event>, k: nat)
    requires History(es) && k <= |es|
    ensures AllSane(HappenAll(map[], es[..k]))
  {
    if k == 0 {
    } else {
      HistorySane(es, k - 1);
      HappenNext(map[], es, k - 1);
    }
  }

  /** Main result: on every table that a history of registrations, removals and
      count updates can produce, unmarking undoes marking. */
  lemma MarkUnmarkReachable(es: seq<Event>, ids: seq<ObjectId>)
    requires History(es)
    ensures var m := HappenAll(map[], es);
            UpdateAll(UpdateAll(m, ids, Mark), ids, Clear) == m
  {
    HistorySane(es, |es|);
    assert es[..|es|] == es;
    var m := HappenAll(map[], es);
    assert forall id | id in m :: Sane(m[id]);
    MarkUnmark(m, ids);
  }

  /* ------------------------------------------------ sends that overlap */

  /** A run of updates on one object. */
  function Updates(c: RefCounts, ops: seq<RefOp>): RefCounts {
    if ops == [] then c else Mutate(Updates(c, ops[..|ops| - 1]), ops[|ops| - 1])
  }

  /** Some other rollback in `ops` finds no credit to take. */
  ghost predicate Starved(c: RefCounts, ops: seq<RefOp>) {
    exists k | 0 <= k < |ops| :: ops[k] == Clear && Updates(c, ops[..k]).pending == 0
  }

  /** The credits that a send takes are its own to give back: it took them, no
      acquire of the object replaced them, and no starved rollback of another
      send took one of them. */
  ghost predicate Intact(c: RefCounts, ops: seq<RefOp>) {
    c.remote == 0 && IncRemote !in ops && !Starved(c, ops)
  }

  /** How `extra` credits travel through other threads' updates: an acquire
      makes them all go away; otherwise all of them survive unless some other
      rollback is starved and takes one. */
  lemma {:induction false} CreditsTravel(c: RefCounts, extra: nat, ops: seq<RefOp>)
    requires c.pending >= 0
    ensures var alone, together := Updates(c, ops), Updates(c.(pending := c.pending + extra), ops);
            && alone.remote == together.remote && alone.local == together.local
            && 0 <= alone.pending <= together.pending <= alone.pending + extra
            && (IncRemote in ops ==> alone.pending == together.pending)
            && (extra > 0 && IncRemote !in ops ==> (together.pending == alone.pending + extra <==> !Starved(c, ops)))
  {
    if ops == [] {
    } else {
      var front, last := ops[..|ops| - 1], ops[|ops| - 1];
      CreditsTravel(c, extra, front);
      StarvedNext(c, ops);
      assert IncRemote in ops <==> IncRemote in front || last == IncRemote by {
        assert ops == front + [last];
      }
    }
  }

  lemma StarvedNext(c: RefCounts, ops: seq<RefOp>)
    requires ops != []
    ensures var front, last := ops[..|ops| - 1], ops[|ops| - 1];
            Starved(c, ops) <==> Starved(c, front) || (last == Clear && Updates(c, front).pending == 0)
  {
    var front := ops[..|ops| - 1];
    assert forall k | 0 <= k < |ops| :: ops[..k] == front[..k];
  }

  /** Main result: a failed send, with any updates of other threads between its
      marks and its rollbacks, leaves exactly what those updates alone would have
      left, if and only if its credits were intact or nothing is pending at the
      end. SendAccount has the updates at any place. */
  lemma FailedSendLeavesNoTrace(c: RefCounts, copies: nat, ops: seq<RefOp>)
    requires c.pending >= 0 && copies > 0
    ensures Repeat(Updates(Repeat(c, Mark, copies), ops), Clear, copies) == Updates(c, ops)
            <==> Intact(c, ops) || Updates(c, ops).pending == 0
  {
    RepeatMark(c, copies);
    CreditsTravel(c, if c.remote == 0 then copies else 0, ops);
    RepeatClear(Updates(Repeat(c, Mark, copies), ops), copies);
  }

  /* -------------------------------------------- the same for whole tables */

  /** The updates of one object within a history. */
  function OpsOn(es: seq<Event>, id: ObjectId): seq<RefOp> {
    if es == [] then []
    else
      var last := es[|es| - 1];
      OpsOn(es[..|es| - 1], id) + (if last.Updated? && last.id == id then [last.op] else [])
  }

  /** The object is neither registered nor unregistered. */
  predicate Stays(es: seq<Event>, id: ObjectId) {
    Registered(id) !in es && Unregistered(id) !in es
  }

  /** One object's part of a history depends on nothing but its own updates. */
  lemma {:induction false} HappenAt(m: Counts, es: seq<Event>, id: ObjectId)
    requires Stays(es, id)
    ensures id in HappenAll(m, es) <==> id in m
    ensures id in m ==> HappenAll(m, es)[id] == Updates(m[id], OpsOn(es, id))
  {
    if es == [] {
    } else {
      hide Mutate;
      var front, last := es[..|es| - 1], es[|es| - 1];
      HappenAt(m, front, id);
      assert last in es;
      if last.Updated? && last.id == id {
        assert OpsOn(es, id)[..|OpsOn(front, id)|] == OpsOn(front, id);
      } else {
        assert OpsOn(es, id) == OpsOn(front, id);
      }
    }
  }

  /** Once the object was registered or unregistered, what it was before does not
      matter. */
  lemma {:induction false} HappenReset(m: Counts, m': Counts, es: seq<Event>, id: ObjectId)
    requires !Stays(es, id)
    ensures id in HappenAll(m, es) <==> id in HappenAll(m', es)
    ensures id in HappenAll(m, es) ==> HappenAll(m, es)[id] == HappenAll(m', es)[id]
  {
    if es == [] {
    } else {
      hide Mutate;
      var front, last := es[..|es| - 1], es[|es| - 1];
      assert es == front + [last];
      if !Stays(front, id) {
        HappenReset(m, m', front, id);
      }
    }
  }

  lemma {:induction false} HappenKeepsPending(m: Counts, es: seq<Event>, id: ObjectId)
    requires id in m ==> m[id].pending >= 0
    ensures id in HappenAll(m, es) ==> HappenAll(m, es)[id].pending >= 0
  {
    if es == [] {
    } else {
      HappenKeepsPending(m, es[..|es| - 1], id);
    }
  }

  /** What a send that was given up leaves in the table. */
  function GivenUp(m: Counts, ids: seq<ObjectId>, es: seq<Event>): Counts {
    UpdateAll(HappenAll(UpdateAll(m, ids, Mark), es), ids, Clear)
  }

  /** The send's rollback takes back what the send put there, and nothing else:
      the object is the one that was marked, and its credits are intact. */
  ghost predicate TakesBackItsOwn(m: Counts, id: ObjectId, es: seq<Event>) {
    id in m && Stays(es, id) && Intact(m[id], OpsOn(es, id))
  }

  lemma MarkedAt(m: Counts, ids: seq<ObjectId>, es: seq<Event>, id: ObjectId)
    requires id in m ==> m[id].pending >= 0
    ensures var marked := UpdateAll(m, ids, Mark);
            && (id in HappenAll(marked, es) <==> id in HappenAll(m, es))
            && (id in HappenAll(m, es) ==>
                  if Stays(es, id) then id in m && HappenAll(m, es)[id] == Updates(m[id], OpsOn(es, id))
                    && HappenAll(marked, es)[id] == Updates(Repeat(m[id], Mark, multiset(ids)[id]), OpsOn(es, id))
                  else HappenAll(marked, es)[id] == HappenAll(m, es)[id])
  {
    hide Mutate, UpdateAll, HappenAll, Updates;
    var marked := UpdateAll(m, ids, Mark);
    ProjectionAt(m, ids, Mark, id);
    if Stays(es, id) {
      HappenAt(m, es, id);
      HappenAt(marked, es, id);
    } else {
      HappenReset(m, marked, es, id);
    }
  }

  /** One entry of the table after a given-up send. */
  lemma GivenUpAt(m: Counts, ids: seq<ObjectId>, es: seq<Event>, id: ObjectId)
    requires id in m ==> m[id].pending >= 0
    ensures id in GivenUp(m, ids, es) <==> id in HappenAll(m, es)
    ensures id in HappenAll(m, es) ==>
              (GivenUp(m, ids, es)[id] == HappenAll(m, es)[id]
               <==> id !in ids || TakesBackItsOwn(m, id, es) || HappenAll(m, es)[id].pending == 0)
  {
    hide Mutate, Starved, UpdateAll, HappenAll, Updates, Stays, Repeat;
    var after := HappenAll(UpdateAll(m, ids, Mark), es);
    var n := multiset(ids)[id];
    MarkedAt(m, ids, es, id);
    HappenKeepsPending(m, es, id);
    ProjectionAt(after, ids, Clear, id);
    if id in HappenAll(m, es) {
      if id !in ids {
        NoRepeat(after[id], Clear);
        if Stays(es, id) {
          NoRepeat(m[id], Mark);
        }
      } else if Stays(es, id) {
        FailedSendLeavesNoTrace(m[id], n, OpsOn(es, id));
      } else {
        RepeatClear(after[id], n);
      }
    }
  }

  lemma NoRepeat(c: RefCounts, op: RefOp)
    ensures Repeat(c, op, 0) == c
  {
  }

  /** Main result: whatever other threads do between the marks and the rollbacks, a
      send that is given up is
      invisible in the whole table if and only if, for every embedded object
      that is still registered, the rollback takes back the send's own credits or
      nothing is pending at the end. */
  lemma GivenUpInvisible(m: Counts, ids: seq<ObjectId>, es: seq<Event>)
    requires forall id | id in m :: m[id].pending >= 0
    ensures GivenUp(m, ids, es) == HappenAll(m, es)
            <==> forall id | id in ids && id in HappenAll(m, es) ::
                   TakesBackItsOwn(m, id, es) || HappenAll(m, es)[id].pending == 0
  {
    hide GivenUp, HappenAll, TakesBackItsOwn;
    var alone, after := HappenAll(m, es), GivenUp(m, ids, es);
    forall id
      ensures id in after <==> id in alone
      ensures id in alone ==>
                (after[id] == alone[id] <==> id !in ids || TakesBackItsOwn(m, id, es) || alone[id].pending == 0)
    {
      GivenUpAt(m, ids, es, id);
    }
    if forall id | id in ids && id in alone :: TakesBackItsOwn(m, id, es) || alone[id].pending == 0 {
      assert after == alone;
    } else {
      var id :| id in ids && id in alone && !TakesBackItsOwn(m, id, es) && alone[id].pending != 0;
      assert after[id] != alone[id];
    }
  }
}
