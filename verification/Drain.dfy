/** Descriptors delivered with a payload: whatever the caller reads, in whatever
    order and with whatever errors, the drop of the reader closes exactly the
    ones the caller did not take. */
module Drain {
  import opened Sys
  import opened Layout
  import opened Payload
  import opened RoundTrip

  /* ----------------------------------------------- what the caller does */

  /** One read by the caller; the set is the registered objects at that time. */
  datatype ReadOp = AskBytes(n: nat) | AskRef(registered: set<ObjectId>) | AskFd

  function Perform(r: Reader, op: ReadOp): (res: (Reader, seq<u32>))
    requires ReaderOk(r)
    ensures ReaderOk(res.0) && res.0.data == r.data && res.0.offsets == r.offsets
  {
    match op
    case AskBytes(n) => (ReadBytes(r, n).1, [])
    case AskRef(registered) => (ReadBinderRef(r, registered).1, [])
    case AskFd =>
      var (v, r') := ReadFd(r);
      (r', if v.Ok? then [v.value.0] else [])
  }

  /** The reader after these reads, and the descriptors handed out. */
  function PerformAll(r: Reader, ops: seq<ReadOp>): (res: (Reader, seq<u32>))
    requires ReaderOk(r)
    ensures ReaderOk(res.0) && res.0.data == r.data && res.0.offsets == r.offsets
    decreases |ops|
  {
    if ops == [] then (r, [])
    else
      var (r1, out) := PerformAll(r, ops[..|ops| - 1]);
      var (r2, last) := Perform(r1, ops[|ops| - 1]);
      (r2, out + last)
  }

  function FdOf(m: Meaning): seq<u32> {
    if m.IsFd? then [m.fd] else []
  }

  function RecordFd(bytes: seq<byte>): seq<u32> {
    if |bytes| == SLOT_SIZE then FdOf(RecordMeaning(bytes)) else []
  }

  /** The descriptors in the first `k` records. */
  ghost function FdsUpTo(b: Built, k: nat): seq<u32>
    requires Spaced(b.data, b.offsets) && k <= |b.offsets|
  {
    Collect(b.data, b.offsets[..k], RecordFd)
  }

  lemma FdsNext(b: Built, k: nat)
    requires Spaced(b.data, b.offsets) && k < |b.offsets|
    ensures FdsUpTo(b, k + 1) == FdsUpTo(b, k) + FdOf(At(b.data, b.offsets[k]))
  {
    assert b.offsets[..k + 1] == b.offsets[..k] + [b.offsets[k]];
    CollectSnoc(b.data, b.offsets[..k], b.offsets[k], RecordFd);
  }

  function Contents(r: Reader): Built {
    Built(r.data, r.offsets)
  }

  /** A read hands out exactly the descriptors the offset cursor passes. */
  lemma PerformPasses(r: Reader, op: ReadOp)
    requires ReaderOk(r)
    ensures FdsUpTo(Contents(r), Perform(r, op).0.nextOffset) == FdsUpTo(Contents(r), r.nextOffset) + Perform(r, op).1
  {
    hide FdsUpTo, At;
    if r.nextOffset < |r.offsets| {
      FdsNext(Contents(r), r.nextOffset);
    }
  }

  lemma Regroup(all: seq<u32>, before: seq<u32>, taken: seq<u32>, last: seq<u32>)
    requires all == before + taken + last
    ensures all == before + (taken + last)
  {
  }

  lemma {:induction false} PerformAllPasses(r: Reader, ops: seq<ReadOp>)
    requires ReaderOk(r)
    ensures FdsUpTo(Contents(r), PerformAll(r, ops).0.nextOffset)
         == FdsUpTo(Contents(r), r.nextOffset) + PerformAll(r, ops).1
    decreases |ops|
  {
    hide Perform, FdsUpTo, Spaced;
    if ops == [] {
    } else {
      var front, last := ops[..|ops| - 1], ops[|ops| - 1];
      var (mid, out) := PerformAll(r, front);
      PerformAllPasses(r, front);
      PerformPasses(mid, last);
      Regroup(FdsUpTo(Contents(r), PerformAll(r, ops).0.nextOffset), FdsUpTo(Contents(r), r.nextOffset), out,
          Perform(mid, last).1);
    }
  }

  /* --------------------------------------------------------- the drain */

  ghost predicate NoArrays(b: Built)
    requires Spaced(b.data, b.offsets)
  {
    forall i {:trigger At(b.data, b.offsets[i])} | 0 <= i < |b.offsets| ::
      !At(b.data, b.offsets[i]).IsFdArray? && !At(b.data, b.offsets[i]).IsBuffer?
  }

  /** The first record from `k` on whose tag the reader does not know; the length
      of the table if there is none. */
  function FirstUnknown(b: Built, k: nat): (u: nat)
    requires Spaced(b.data, b.offsets) && k <= |b.offsets|
    ensures k <= u <= |b.offsets|
    ensures u < |b.offsets| ==> At(b.data, b.offsets[u]).IsUnknown?
    ensures forall i | k <= i < u :: !At(b.data, b.offsets[i]).IsUnknown?
    decreases |b.offsets| - k
  {
    if k == |b.offsets| || At(b.data, b.offsets[k]).IsUnknown? then k else FirstUnknown(b, k + 1)
  }

  /** No read gets past an unknown record. */
  lemma ReadsStopAtUnknown(r: Reader, op: ReadOp)
    requires ReaderOk(r)
    ensures FirstUnknown(Contents(r), Perform(r, op).0.nextOffset) == FirstUnknown(Contents(r), r.nextOffset)
  {
    hide At;
  }

  lemma {:induction false} AllReadsStopAtUnknown(r: Reader, ops: seq<ReadOp>)
    requires ReaderOk(r)
    ensures FirstUnknown(Contents(r), PerformAll(r, ops).0.nextOffset) == FirstUnknown(Contents(r), r.nextOffset)
    decreases |ops|
  {
    if ops == [] {
    } else {
      hide FirstUnknown, Perform;
      AllReadsStopAtUnknown(r, ops[..|ops| - 1]);
      ReadsStopAtUnknown(PerformAll(r, ops[..|ops| - 1]).0, ops[|ops| - 1]);
    }
  }

  /** One turn of the drain loop, taken when there is a next object: the reader
      after it and the descriptors it closes. */
  function DrainTurn(r: Reader, registered: set<ObjectId>): (res: (Reader, seq<u32>))
    requires ReaderOk(r) && NextObjectType(r).Some?
    ensures ReaderOk(res.0) && res.0.data == r.data && res.0.offsets == r.offsets
  {
    var t := NextObjectType(r).value;
    if t == Fd then
      var (v, r') := ReadFd(r);
      (r', if v.Ok? then [v.value.0] else [])
    else if t == FdArray || t == Buffer then (r, [])
    else
      var (v, r') := ReadBinderRef(r, registered);
      (if v.Err? then r'.(nextOffset := r'.nextOffset + 1) else r', [])
  }

  /** The loop makes progress at every record except arrays of descriptors and
      buffers, at which it turns forever. */
  lemma DrainProgress(r: Reader, registered: set<ObjectId>)
    requires ReaderOk(r) && NextObjectType(r).Some?
    ensures r.nextOffset < |r.offsets|
    ensures At(r.data, r.offsets[r.nextOffset]) in {IsFdArray, IsBuffer} ==> DrainTurn(r, registered) == (r, [])
    ensures At(r.data, r.offsets[r.nextOffset]) !in {IsFdArray, IsBuffer} ==>
              && DrainTurn(r, registered).0.nextOffset == r.nextOffset + 1
              && DrainTurn(r, registered).1 == FdOf(At(r.data, r.offsets[r.nextOffset]))
  {
  }

  /** A turn passes one record and closes what it holds, dead object or not; the
      loop ends at the first unknown record. */
  lemma DrainPasses(r: Reader, registered: set<ObjectId>)
    requires ReaderOk(r) && NoArrays(Contents(r))
    ensures NextObjectType(r).None? ==> r.nextOffset == FirstUnknown(Contents(r), r.nextOffset)
    ensures NextObjectType(r).Some? ==>
              var (r', out) := DrainTurn(r, registered);
              && r.nextOffset < |r.offsets|
              && r'.nextOffset == r.nextOffset + 1
              && FirstUnknown(Contents(r), r.nextOffset + 1) == FirstUnknown(Contents(r), r.nextOffset)
              && FdsUpTo(Contents(r), r.nextOffset + 1) == FdsUpTo(Contents(r), r.nextOffset) + out
  {
    hide RecordMeaning, FdsUpTo;
    if NextObjectType(r).Some? {
      DrainProgress(r, registered);
      FdsNext(Contents(r), r.nextOffset);
    }
  }

  method PerformOne(r: PayloadReader, op: ReadOp) returns (out: seq<u32>)
    requires r.Valid()
    modifies r`nextDataIndex, r`nextOffsetIndex
    ensures r.Valid() && (r.View(), out) == Perform(old(r.View()), op)
  {
    out := [];
    match op {
      case AskBytes(n) => var _ := r.TakeBytes(n);
      case AskRef(alive) => var _ := r.TakeBinderRef(alive);
      case AskFd =>
        var v := r.TakeFd();
        out := if v.Ok? then [v.value.0] else [];
    }
  }

  method PerformReads(r: PayloadReader, ops: seq<ReadOp>) returns (taken: seq<u32>)
    requires r.Valid()
    modifies r`nextDataIndex, r`nextOffsetIndex
    ensures r.Valid() && (r.View(), taken) == PerformAll(old(r.View()), ops)
    ensures FdsUpTo(Contents(old(r.View())), r.nextOffsetIndex)
         == FdsUpTo(Contents(old(r.View())), old(r.nextOffsetIndex)) + taken
  {
    hide Perform, FdsUpTo, Spaced;
    taken := [];
    ghost var first := r.View();
    var i := 0;
    while i < |ops|
      invariant 0 <= i <= |ops|
      invariant r.Valid() && (r.View(), taken) == PerformAll(first, ops[..i])
    {
      assert ops[..i + 1][..i] == ops[..i];
      var out := PerformOne(r, ops[i]);
      taken := taken + out;
      i := i + 1;
    }
    assert ops[..i] == ops;
    PerformAllPasses(first, ops);
  }

  /** The head and body of the drain loop: peek, and if there is a next object
      take its turn. */
  method DrainNext(r: PayloadReader, registered: set<ObjectId>, ghost b: Built) returns (more: bool, out: seq<u32>)
    requires r.Valid() && Contents(r.View()) == b && NoArrays(b)
    modifies r`nextDataIndex, r`nextOffsetIndex
    ensures r.Valid()
    ensures FirstUnknown(b, r.nextOffsetIndex) == old(FirstUnknown(b, r.nextOffsetIndex))
    ensures !more ==> r.nextOffsetIndex == old(r.nextOffsetIndex) == FirstUnknown(b, r.nextOffsetIndex) && out == []
    ensures more ==> r.nextOffsetIndex == old(r.nextOffsetIndex) + 1
                     && FdsUpTo(b, r.nextOffsetIndex) == FdsUpTo(b, old(r.nextOffsetIndex)) + out
  {
    hide FirstUnknown, FdsUpTo;
    DrainPasses(r.View(), registered);
    var t := r.PeekObjectType();
    more, out := t.Some?, [];
    if more {
      out := DrainOnce(r, t.value, registered);
    }
  }

  /** `Drop`: drain what is left, closing descriptors and releasing objects, and
      hand the buffer back to the driver if it is the driver's. The objects may
      be dead; `registered(i)` is what is alive at record `i`. */
  method Drop(r: PayloadReader, registered: nat -> set<ObjectId>, ghost b: Built)
      returns (closed: seq<u32>, freed: bool)
    requires r.Valid() && Contents(r.View()) == b && NoArrays(b)
    modifies r`nextDataIndex, r`nextOffsetIndex
    ensures FdsUpTo(b, FirstUnknown(b, old(r.nextOffsetIndex))) == FdsUpTo(b, old(r.nextOffsetIndex)) + closed
    ensures freed == r.kernelBorrowed
  {
    hide FdsUpTo, At, FirstUnknown;
    closed := [];
    ghost var start := r.nextOffsetIndex;
    var more := true;
    while more
      invariant r.Valid() && Contents(r.View()) == b && start <= |b.offsets|
      invariant FirstUnknown(b, r.nextOffsetIndex) == FirstUnknown(b, start)
      invariant !more ==> r.nextOffsetIndex == FirstUnknown(b, r.nextOffsetIndex)
      invariant FdsUpTo(b, r.nextOffsetIndex) == FdsUpTo(b, start) + closed
      decreases |b.offsets| - r.nextOffsetIndex, more
    {
      var out;
      more, out := DrainNext(r, registered(r.nextOffsetIndex), b);
      closed := closed + out;
    }
    freed := r.kernelBorrowed;
  }

  method DrainOnce(r: PayloadReader, t: ObjectType, registered: set<ObjectId>) returns (out: seq<u32>)
    requires r.Valid() && NextObjectType(r.View()) == Some(t)
    modifies r`nextDataIndex, r`nextOffsetIndex
    ensures r.Valid() && (r.View(), out) == DrainTurn(old(r.View()), registered)
  {
    out := [];
    if t == Fd {
      var v := r.TakeFd();
      out := if v.Ok? then [v.value.0] else [];
    } else if t != FdArray && t != Buffer {
      var v := r.TakeBinderRef(registered);
      if v.Err? {
        r.nextOffsetIndex := r.nextOffsetIndex + 1;
      }
    }
  }

  lemma NoneYet(b: Built)
    requires Spaced(b.data, b.offsets)
    ensures FdsUpTo(b, 0) == []
  {
    assert b.offsets[..0] == [];
  }

  /** Main result: take any reader without arrays and buffers, let the caller
      perform any reads with any outcome, then drop it. The descriptors handed
      out followed by those closed are exactly the descriptors delivered up to
      the first unknown record, each once and in order; that is all of them if
      the reader knows every tag. */
  method ReadThenDrop(r: PayloadReader, ops: seq<ReadOp>, registered: nat -> set<ObjectId>, ghost b: Built)
    returns (taken: seq<u32>, closed: seq<u32>, freed: bool)
    requires r.Valid() && Contents(r.View()) == b && NoArrays(b) && r.nextOffsetIndex == 0
    modifies r`nextDataIndex, r`nextOffsetIndex
    ensures taken == PerformAll(old(r.View()), ops).1
    ensures taken + closed == FdsUpTo(b, FirstUnknown(b, 0))
    ensures freed == r.kernelBorrowed
  {
    hide FdsUpTo, At, FirstUnknown;
    AllReadsStopAtUnknown(r.View(), ops);
    taken := PerformReads(r, ops);
    NoneYet(b);
    closed, freed := Drop(r, registered, b);
  }

  /** The same for the specification: whatever is read, the descriptors handed
      out are those of the records passed, a prefix of all of them. */
  lemma NothingTwice(r: Reader, ops: seq<ReadOp>)
    requires ReaderOk(r) && r.nextOffset == 0
    ensures PerformAll(r, ops).1 == FdsUpTo(Contents(r), PerformAll(r, ops).0.nextOffset)
    ensures PerformAll(r, ops).1 <= FdsUpTo(Contents(r), |r.offsets|)
  {
    PerformAllPasses(r, ops);
    NoneYet(Contents(r));
    PrefixOfAll(Contents(r), PerformAll(r, ops).0.nextOffset);
  }

  lemma {:induction false} PrefixOfAll(b: Built, k: nat)
    requires Spaced(b.data, b.offsets) && k <= |b.offsets|
    ensures FdsUpTo(b, k) <= FdsUpTo(b, |b.offsets|)
    decreases |b.offsets| - k
  {
    if k == |b.offsets| {
    } else {
      FdsNext(b, k);
      PrefixOfAll(b, k + 1);
    }
  }

  /* --------------------------------------------- the local delivery */

  /** What the builder of a payload can put into it. */
  ghost predicate OnlyObjectsAndFds(b: Built)
    requires Spaced(b.data, b.offsets)
  {
    forall i {:trigger At(b.data, b.offsets[i])} | 0 <= i < |b.offsets| ::
      At(b.data, b.offsets[i]).IsObject? || At(b.data, b.offsets[i]).IsFd?
  }

  lemma KnownBytes(b: Built, item: Item)
    requires Spaced(b.data, b.offsets) && OnlyObjectsAndFds(b) && item.Bytes?
    ensures Spaced(PushItem(b, item).data, PushItem(b, item).offsets) && OnlyObjectsAndFds(PushItem(b, item))
  {
    hide RecordMeaning, RecordAt, PushChunk;
    PlainPushed(b, ChunkOf(item));
    forall i | 0 <= i < |b.offsets|
      ensures At(PushItem(b, item).data, b.offsets[i]) == At(b.data, b.offsets[i])
    {
    }
  }

  lemma KnownRecord(b: Built, item: Item)
    requires Spaced(b.data, b.offsets) && OnlyObjectsAndFds(b) && !item.Bytes?
    ensures Spaced(PushItem(b, item).data, PushItem(b, item).offsets) && OnlyObjectsAndFds(PushItem(b, item))
  {
    hide RecordMeaning, RecordAt, PushChunk, EncodeSlot;
    var b' := PushItem(b, item);
    RecordPushed(b, ChunkOf(item));
    ItemRoundTrip(item);
    forall i | 0 <= i < |b'.offsets|
      ensures At(b'.data, b'.offsets[i]).IsObject? || At(b'.data, b'.offsets[i]).IsFd?
    {
      if i < |b.offsets| {
        assert At(b'.data, b'.offsets[i]) == At(b.data, b.offsets[i]);
      }
    }
  }

  lemma {:induction false} BuiltKnown(items: seq<Item>)
    ensures Spaced(Build(items).data, Build(items).offsets) && OnlyObjectsAndFds(Build(items))
    decreases |items|
  {
    if items == [] {
    } else {
      hide Build, OnlyObjectsAndFds, PushItem, Spaced;
      var front, last := items[..|items| - 1], items[|items| - 1];
      assert items == front + [last];
      BuiltKnown(front);
      BuildSnoc(front, last);
      if last.Bytes? {
        KnownBytes(Build(front), last);
      } else {
        KnownRecord(Build(front), last);
      }
    }
  }

  /** The descriptors among the pushes. */
  function FdsOf(items: seq<Item>): seq<u32> {
    if items == [] then []
    else
      var last := items[|items| - 1];
      FdsOf(items[..|items| - 1]) + if last.Bytes? then [] else FdOf(ItemMeaning(last))
  }

  lemma {:induction false} FdChunks(items: seq<Item>)
    ensures CollectChunks(Chunks(items), RecordFd) == FdsOf(items)
    decreases |items|
  {
    if items == [] {
    } else {
      hide RecordMeaning, EncodeSlot, Chunks;
      var front, last := items[..|items| - 1], items[|items| - 1];
      assert items == front + [last];
      ChunksSnoc(front, last);
      FdChunks(front);
      if !last.Bytes? {
        ItemRoundTrip(last);
      }
    }
  }

  /** The first `n` duplicates. */
  function Duplicates(dup: nat -> Union, n: nat): (fds: seq<u32>)
    ensures |fds| == n
  {
    if n == 0 then [] else Duplicates(dup, n - 1) + [dup(n - 1).low]
  }

  lemma {:induction false} DuplicatedFds(items: seq<Item>, dup: nat -> Union)
    ensures FdsOf(Duplicate(items, dup).items) == Duplicates(dup, Duplicate(items, dup).count)
    ensures |FdsOf(items)| == Duplicate(items, dup).count
    decreases |items|
  {
    if items == [] {
    } else {
      var front, last := items[..|items| - 1], items[|items| - 1];
      DuplicatedFds(front, dup);
      var d, d' := Duplicate(front, dup), Duplicate(items, dup);
      assert d'.items[..|d'.items| - 1] == d.items;
    }
  }

  /** The descriptors in a local delivery are the duplicates, one for each
      descriptor pushed, and the reader knows every record in it. */
  lemma DeliveredFds(items: seq<Item>, dup: nat -> Union)
    ensures InBounds(|Build(items).data|, Build(items).offsets)
    ensures var b := Delivered(Build(items), dup);
            && Spaced(b.data, b.offsets) && OnlyObjectsAndFds(b)
            && FdsUpTo(b, |b.offsets|) == Duplicates(dup, |FdsOf(items)|)
  {
    hide Delivered, Build, OnlyObjectsAndFds, FdsOf;
    DeliveredBuild(items, dup);
    var items' := Duplicate(items, dup).items;
    var b := Build(items');
    BuiltKnown(items');
    AllFds(items');
    DuplicatedFds(items, dup);
  }

  lemma AllFds(items: seq<Item>)
    ensures Spaced(Build(items).data, Build(items).offsets)
    ensures FdsUpTo(Build(items), |Build(items).offsets|) == FdsOf(items)
  {
    AssembleSpaced(Chunks(items));
    CollectAssembled(Chunks(items), RecordFd);
    FdChunks(items);
    assert Build(items).offsets[..|Build(items).offsets|] == Build(items).offsets;
  }

  lemma AllKnown(b: Built)
    requires Spaced(b.data, b.offsets) && OnlyObjectsAndFds(b)
    ensures NoArrays(b) && FirstUnknown(b, 0) == |b.offsets|
  {
    hide RecordMeaning;
  }

  /** Main result: deliver any pushes locally, let the receiver perform any reads
      with any outcome, then drop the reader. Each descriptor pushed was
      duplicated once, and the duplicates handed out followed by those closed
      are all of the duplicates, each once and in order. */
  method DeliverReadDrop(builder: PayloadBuilder, dup: nat -> Union, ops: seq<ReadOp>, registered: nat -> set<ObjectId>,
                         ghost items: seq<Item>)
    returns (taken: seq<u32>, closed: seq<u32>, freed: bool)
    requires builder.View() == Build(items)
    ensures taken + closed == Duplicates(dup, |FdsOf(items)|) && !freed
  {
    hide Build, Delivered, OnlyObjectsAndFds, NoArrays, FirstUnknown, FdsUpTo, FdsOf;
    BuiltKnown(items);
    BuilderAccepted(Build(items));
    var r := FromBuilder(builder, dup);
    DeliveredFds(items, dup);
    ghost var b := Delivered(Build(items), dup);
    AllKnown(b);
    taken, closed, freed := ReadThenDrop(r, ops, registered, b);
  }

  lemma BuilderAccepted(b: Built)
    requires Spaced(b.data, b.offsets) && OnlyObjectsAndFds(b)
    ensures forall i | 0 <= i < |b.offsets| :: At(b.data, b.offsets[i]) !in {IsFdArray, IsBuffer}
  {
    hide RecordMeaning;
  }
}
