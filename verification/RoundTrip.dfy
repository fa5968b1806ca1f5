/** What a builder's bytes say: reading them back in push order, duplicating
    their descriptors for a local delivery, and walking their local objects. */
module RoundTrip {
  import opened Sys
  import opened Layout
  import opened Payload

  /* --------------------------------------------------- reading in order */

  /** What a reader that knows the schema asks for next. */
  datatype Shape = BytesOf(n: nat) | OneObject | OneFd

  datatype Value = BytesValue(bytes: seq<byte>) | ObjectValue(obj: ObjectOrRef) | FdValue(fd: u32, cookie: u64)

  function ShapeOf(item: Item): Shape {
    match item
    case Bytes(bs) => BytesOf(|bs|)
    case Obj(_, _) => OneObject
    case Desc(_, _, _) => OneFd
  }

  function ValueOf(item: Item): Value {
    match item
    case Bytes(bs) => BytesValue(bs)
    case Obj(o, _) => ObjectValue(o)
    case Desc(fd, cookie, _) => FdValue(fd, cookie)
  }

  function Shapes(items: seq<Item>): seq<Shape> {
    if items == [] then [] else [ShapeOf(items[0])] + Shapes(items[1..])
  }

  function Values(items: seq<Item>): seq<Value> {
    if items == [] then [] else [ValueOf(items[0])] + Values(items[1..])
  }

  /** One read; None when the reader reports an error. */
  function ReadShape(r: Reader, shape: Shape, registered: set<ObjectId>): (res: (Option<Value>, Reader))
    requires ReaderOk(r)
    ensures ReaderOk(res.1)
  {
    match shape
    case BytesOf(n) =>
      var (v, r') := ReadBytes(r, n);
      (if v.Ok? then Some(BytesValue(v.value)) else None, r')
    case OneObject =>
      var (v, r') := ReadBinderRef(r, registered);
      (if v.Ok? then Some(ObjectValue(v.value)) else None, r')
    case OneFd =>
      var (v, r') := ReadFd(r);
      (if v.Ok? then Some(FdValue(v.value.0, v.value.1)) else None, r')
  }

  function ReadAll(r: Reader, shapes: seq<Shape>, registered: set<ObjectId>): Option<seq<Value>>
    requires ReaderOk(r)
    decreases |shapes|
  {
    if shapes == [] then Some([])
    else
      var (v, r') := ReadShape(r, shapes[0], registered);
      if v.None? then None
      else
        var rest := ReadAll(r', shapes[1..], registered);
        if rest.None? then None else Some([v.value] + rest.value)
  }

  /** Where the cursors stand after the first `k` items. */
  ghost function Position(items: seq<Item>, k: nat): (r: Reader)
    requires k <= |items|
    ensures ReaderOk(r)
  {
    var here := Assemble(Chunks(items)[..k]);
    AssembleSpaced(Chunks(items));
    AssemblePrefix(Chunks(items), k);
    Reader(Build(items).data, Build(items).offsets, |here.offsets|, |here.data|)
  }

  predicate Readable(item: Item, registered: set<ObjectId>) {
    item.Obj? && item.obj.Object? ==> item.obj.id in registered
  }

  lemma ReadBytesOk(r: Reader, n: nat)
    requires ReaderOk(r) && r.cursor + n <= |r.data|
    requires forall j | 0 <= j < |r.offsets| :: !(r.cursor < r.offsets[j] < r.cursor + n)
    ensures ReadBytes(r, n) == (Ok(r.data[r.cursor..r.cursor + n]), r.(cursor := r.cursor + n))
  {
    var o := FirstPast(r.offsets, r.cursor);
    if o.Some? {
      var j :| 0 <= j < |r.offsets| && r.offsets[j] == o.value;
    }
  }

  lemma ReadNextBytes(items: seq<Item>, k: nat, registered: set<ObjectId>)
    requires k < |items| && items[k].Bytes?
    ensures ReadShape(Position(items, k), ShapeOf(items[k]), registered)
              == (Some(ValueOf(items[k])), Position(items, k + 1))
  {
    hide Assemble, ReadBytes;
    PlainInPlace(Chunks(items), k);
    ReadBytesOk(Position(items, k), |items[k].bytes|);
  }

  /** What a read of an object or a descriptor finds at a record. */
  lemma ReadRecordAt(r: Reader, item: Item, registered: set<ObjectId>)
    requires ReaderOk(r) && r.nextOffset < |r.offsets| && !item.Bytes?
    requires At(r.data, r.offsets[r.nextOffset]) == ItemMeaning(item)
    ensures ReadShape(r, ShapeOf(item), registered) ==
            if Readable(item, registered)
            then (Some(ValueOf(item)), r.(nextOffset := r.nextOffset + 1,
                cursor := r.offsets[r.nextOffset] + SLOT_SIZE))
            else (None, r)
  {
    hide At;
  }

  lemma ReadNextRecord(items: seq<Item>, k: nat, registered: set<ObjectId>)
    requires k < |items| && !items[k].Bytes?
    ensures ReadShape(Position(items, k), ShapeOf(items[k]), registered)
         == if Readable(items[k], registered) then (Some(ValueOf(items[k])), Position(items, k + 1))
            else (None, Position(items, k))
  {
    hide Assemble, RecordMeaning, EncodeSlot, ReadShape, ShapeOf, ValueOf, Readable, ItemMeaning, ReaderOk;
    RecordInPlace(Chunks(items), k);
    ItemRoundTrip(items[k]);
    ReadRecordAt(Position(items, k), items[k], registered);
  }

  lemma {:induction false} ReadFrom(items: seq<Item>, k: nat, registered: set<ObjectId>)
    requires k <= |items|
    ensures ReadAll(Position(items, k), Shapes(items[k..]), registered)
         == if forall j | k <= j < |items| :: Readable(items[j], registered) then Some(Values(items[k..])) else None
    decreases |items| - k
  {
    if k == |items| {
    } else {
      assert items[k..][1..] == items[k + 1..];
      assert Shapes(items[k..]) == [ShapeOf(items[k])] + Shapes(items[k + 1..]);
      assert Shapes(items[k..])[1..] == Shapes(items[k + 1..]);
      if items[k].Bytes? {
        ReadNextBytes(items, k, registered);
      } else {
        ReadNextRecord(items, k, registered);
      }
      if Readable(items[k], registered) {
        ReadFrom(items, k + 1, registered);
      }
    }
  }

  /** Main result: for any pushes in any order, a reader that asks for the same
      items in the same order gets every one of them back, whatever padding lies
      between; it fails if and only if a strong local object among them has no
      handler any more. */
  lemma RoundTrips(items: seq<Item>, registered: set<ObjectId>)
    ensures ReaderOk(Fresh(Build(items)))
    ensures ReadAll(Fresh(Build(items)), Shapes(items), registered)
         == if forall j | 0 <= j < |items| :: Readable(items[j], registered) then Some(Values(items)) else None
  {
    AssembleSpaced(Chunks(items));
    ReadFrom(items, 0, registered);
    assert items[0..] == items;
  }

  /* ------------------------------------- descriptors of a local delivery */

  /** Replaces the descriptor of a record; `dup(k)` is the union that holds the
      `k`-th duplicate. Other records stay as they are. */
  function DupStep(bytes: seq<byte>, k: nat, dup: nat -> Union): (w: Rewritten)
    ensures |w.data| == |bytes|
  {
    if |bytes| == SLOT_SIZE && RecordMeaning(bytes).IsFd? then Rewritten(Splice(bytes, 8, EncodeUnion(dup(k))), k + 1)
    else Rewritten(bytes, k)
  }

  function DupRecord(dup: nat -> Union): (seq<byte>, nat) -> Rewritten {
    (bytes: seq<byte>, k: nat) => DupStep(bytes, k, dup)
  }

  lemma DupKeepsLength(dup: nat -> Union)
    ensures KeepsLength(DupRecord(dup))
  {
  }

  function DupItem(item: Item, union: Union): Item {
    if item.Desc? then item.(fd := union.low, unused := union.high) else item
  }

  lemma DupRecordItem(item: Item, dup: nat -> Union, k: nat)
    ensures KeepsLength(DupRecord(dup))
    ensures MapChunk(ChunkOf(item), k, DupRecord(dup))
         == (ChunkOf(DupItem(item, dup(k))), if item.Desc? then k + 1 else k)
  {
    if !item.Bytes? {
      ItemRoundTrip(item);
      if item.Desc? {
        var s, s' := ItemSlot(item), ItemSlot(DupItem(item, dup(k)));
        var head := Le(FD, 4) + Le(0, 4);
        assert s'.data == dup(k);
        assert EncodeSlot(s) == head + EncodeUnion(s.data) + Le(s.cookie, 8);
        assert EncodeSlot(s') == head + EncodeUnion(s'.data) + Le(s'.cookie, 8);
        assert EncodeSlot(s)[..8] == head && EncodeSlot(s)[16..] == Le(s.cookie, 8);
      }
    }
  }

  /** The same pushes with the duplicated descriptors in place. */
  datatype Duplicated = Duplicated(items: seq<Item>, count: nat)

  function Duplicate(items: seq<Item>, dup: nat -> Union): (d: Duplicated)
    ensures |d.items| == |items|
    ensures forall i | 0 <= i < |items| ::
              ShapeOf(d.items[i]) == ShapeOf(items[i]) && (!items[i].Desc? ==> d.items[i] == items[i])
  {
    if items == [] then Duplicated([], 0)
    else
      var last := items[|items| - 1];
      var front := Duplicate(items[..|items| - 1], dup);
      Duplicated(front.items + [DupItem(last, dup(front.count))], if last.Desc? then front.count + 1 else front.count)
  }

  function Descriptors(items: seq<Item>): nat {
    if items == [] then 0
    else Descriptors(items[..|items| - 1]) + if items[|items| - 1].Desc? then 1 else 0
  }

  /** The `k`-th descriptor becomes the `k`-th duplicate and keeps its cookie; the
      other pushes stay as they are. */
  lemma {:induction false} DuplicateExactly(items: seq<Item>, dup: nat -> Union, i: nat)
    requires i < |items|
    ensures Duplicate(items, dup).count == Descriptors(items)
    ensures var k := Descriptors(items[..i]);
            Duplicate(items, dup).items[i] ==
            if items[i].Desc? then Desc(dup(k).low, items[i].cookie, dup(k).high) else items[i]
    decreases |items|
  {
    var front := items[..|items| - 1];
    if i < |front| {
      DuplicateExactly(front, dup, i);
      assert front[..i] == items[..i];
    } else if i > 0 {
      DuplicateExactly(front, dup, i - 1);
    }
  }

  lemma ChunksSnoc(front: seq<Item>, last: Item)
    ensures Chunks(front + [last]) == Chunks(front) + [ChunkOf(last)]
    ensures Chunks(front + [last])[..|front|] == Chunks(front)
  {
  }

  lemma {:induction false} DuplicateChunks(items: seq<Item>, dup: nat -> Union)
    ensures KeepsLength(DupRecord(dup))
    ensures MapChunks(Chunks(items), DupRecord(dup))
              == Mapped(Chunks(Duplicate(items, dup).items), Duplicate(items, dup).count)
    decreases |items|
  {
    if items == [] {
    } else {
      var front, last := items[..|items| - 1], items[|items| - 1];
      var d := Duplicate(front, dup);
      hide DupRecord, DupItem, MapChunk, ChunkOf, KeepsLength, Chunks;
      assert items == front + [last];
      ChunksSnoc(front, last);
      ChunksSnoc(d.items, DupItem(last, dup(d.count)));
      DuplicateChunks(front, dup);
      DupRecordItem(last, dup, d.count);
    }
  }

  /** What a local delivery makes of a builder's contents. */
  ghost function Delivered(b: Built, dup: nat -> Union): Built
    requires InBounds(|b.data|, b.offsets)
  {
    DupKeepsLength(dup);
    Built(MapRecords(b.data, b.offsets, DupRecord(dup)).data, b.offsets)
  }

  /** Duplicating in the bytes is duplicating in the pushes. */
  lemma DeliveredBuild(items: seq<Item>, dup: nat -> Union)
    ensures InBounds(|Build(items).data|, Build(items).offsets)
    ensures Delivered(Build(items), dup) == Build(Duplicate(items, dup).items)
  {
    DupKeepsLength(dup);
    MapAssembled(Chunks(items), DupRecord(dup), []);
    DuplicateChunks(items, dup);
    SameLayout(Chunks(items), MapChunks(Chunks(items), DupRecord(dup)).chunks);
    assert Build(items).data + [] == Build(items).data;
    assert Build(Duplicate(items, dup).items).data + [] == Build(Duplicate(items, dup).items).data;
  }

  /** Overwriting the union in place, seen from the record. */
  lemma SpliceWithin(data: seq<byte>, offset: nat, union: seq<byte>)
    requires offset + SLOT_SIZE <= |data| && |union| == 8
    ensures Splice(data, offset, Splice(RecordAt(data, offset), 8, union))
         == data[..offset + 8] + union + data[offset + 16..]
  {
    assert data[offset + 16..] == data[offset + 16..offset + SLOT_SIZE] + data[offset + SLOT_SIZE..];
    assert data[..offset + 8] == data[..offset] + data[offset..offset + 8];
  }

  lemma SpliceSame(data: seq<byte>, offset: nat)
    requires offset + SLOT_SIZE <= |data|
    ensures Splice(data, offset, RecordAt(data, offset)) == data
  {
  }

  lemma FdRecord(bytes: seq<byte>)
    requires |bytes| == SLOT_SIZE
    ensures RecordMeaning(bytes).IsFd? <==> DecodeSlot(bytes).tag == FD
  {
    hide DecodeSlot;
  }

  /** Duplicates the descriptor of the record at one offset, if it has one. */
  method DuplicateAt(data: seq<byte>, offset: nat, dup: nat -> Union, k: nat) returns (data': seq<byte>, k': nat)
    requires offset + SLOT_SIZE <= |data|
    ensures var step := DupStep(RecordAt(data, offset), k, dup);
            data' == Splice(data, offset, step.data) && k' == step.count
  {
    hide RecordMeaning, DecodeSlot, EncodeUnion, Splice;
    var record := data[offset..offset + SLOT_SIZE];
    FdRecord(record);
    if DecodeSlot(record).tag == FD {
      data' := data[..offset + 8] + EncodeUnion(dup(k)) + data[offset + 16..];
      k' := k + 1;
      SpliceWithin(data, offset, EncodeUnion(dup(k)));
    } else {
      data', k' := data, k;
      SpliceSame(data, offset);
    }
  }

  /** Building a reader over a local builder: a copy of the bytes in which every
      descriptor is replaced by its duplicate, and the builder's objects kept. The
      source does not implement arrays of descriptors and buffers here. */
  method FromBuilder(builder: PayloadBuilder, dup: nat -> Union) returns (r: PayloadReader)
    requires Spaced(builder.data, builder.objOffsets)
    requires forall i | 0 <= i < |builder.objOffsets| ::
              At(builder.data, builder.objOffsets[i]) !in {IsFdArray, IsBuffer}
    ensures fresh(r) && r.Valid() && !r.kernelBorrowed && r.binderObjects == builder.binderObjects
    ensures InBounds(|builder.data|, builder.objOffsets) && r.View() == Fresh(Delivered(builder.View(), dup))
  {
    var b := Built(builder.data, builder.objOffsets);
    var mainData, next := DuplicateAll(b, dup);
    r := new PayloadReader.Owned(mainData, b.offsets, builder.binderObjects);
  }

  lemma NothingMapped(data: seq<byte>, f: (seq<byte>, nat) -> Rewritten)
    requires KeepsLength(f)
    ensures MapRecords(data, [], f) == Rewritten(data, 0)
  {
  }

  method DuplicateAll(b: Built, dup: nat -> Union) returns (mainData: seq<byte>, next: nat)
    requires InBounds(|b.data|, b.offsets)
    ensures KeepsLength(DupRecord(dup)) && Rewritten(mainData, next) == MapRecords(b.data, b.offsets, DupRecord(dup))
  {
    hide MapRecords, DupStep, Splice;
    ghost var f := DupRecord(dup);
    DupKeepsLength(dup);
    NothingMapped(b.data, f);
    mainData, next := b.data, 0;
    var i := 0;
    while i < |b.offsets|
      invariant 0 <= i <= |b.offsets|
      invariant Rewritten(mainData, next) == MapRecords(b.data, b.offsets[..i], f)
    {
      MapSnoc(b.data, b.offsets[..i], b.offsets[i], f);
      assert b.offsets[..i + 1] == b.offsets[..i] + [b.offsets[i]];
      mainData, next := DuplicateAt(mainData, b.offsets[i], dup, next);
      i := i + 1;
    }
    assert b.offsets[..i] == b.offsets;
  }

  /** Main result: a payload delivered inside the process reads back as pushed,
      with each descriptor replaced by its own duplicate, in push order. */
  lemma LocalDeliveryRoundTrips(items: seq<Item>, dup: nat -> Union, registered: set<ObjectId>)
    requires forall j | 0 <= j < |items| :: Readable(items[j], registered)
    ensures InBounds(|Build(items).data|, Build(items).offsets)
    ensures ReaderOk(Fresh(Delivered(Build(items), dup)))
    ensures ReadAll(Fresh(Delivered(Build(items), dup)), Shapes(items), registered)
         == Some(Values(Duplicate(items, dup).items))
  {
    hide Build, ReadAll, Values, Shapes, Delivered, ReaderOk;
    DeliveredBuild(items, dup);
    RoundTrips(Duplicate(items, dup).items, registered);
    SameShapes(items, Duplicate(items, dup).items);
  }

  lemma {:induction false} SameShapes(a: seq<Item>, b: seq<Item>)
    requires |a| == |b| && forall j | 0 <= j < |a| :: ShapeOf(a[j]) == ShapeOf(b[j])
    ensures Shapes(a) == Shapes(b)
    decreases |a|
  {
    if a == [] {
    } else {
      SameShapes(a[1..], b[1..]);
    }
  }

  /* ---------------------------------------- walking the embedded objects */

  function StrongId(m: Meaning): seq<ObjectId> {
    if m.IsObject? && m.obj.Object? then [m.obj.id] else []
  }

  function RecordIds(bytes: seq<byte>): seq<ObjectId> {
    if |bytes| == SLOT_SIZE then StrongId(RecordMeaning(bytes)) else []
  }

  /** The strong local objects found by walking the offset table. */
  ghost function EmbeddedIds(b: Built): seq<ObjectId>
    requires InBounds(|b.data|, b.offsets)
  {
    Collect(b.data, b.offsets, RecordIds)
  }

  /** The strong local objects among the pushes. */
  function StrongIds(items: seq<Item>): seq<ObjectId> {
    if items == [] then []
    else
      var last := items[|items| - 1];
      StrongIds(items[..|items| - 1]) + if last.Bytes? then [] else StrongId(ItemMeaning(last))
  }

  lemma {:induction false} StrongChunks(items: seq<Item>)
    ensures CollectChunks(Chunks(items), RecordIds) == StrongIds(items)
    decreases |items|
  {
    if items == [] {
    } else {
      var front, last := items[..|items| - 1], items[|items| - 1];
      hide RecordMeaning, EncodeSlot, Chunks;
      assert items == front + [last];
      ChunksSnoc(front, last);
      StrongChunks(front);
      if !last.Bytes? {
        ItemRoundTrip(last);
      }
    }
  }

  /** Main result: for any mix of bytes, objects, weak objects, refs and
      descriptors, the walk visits exactly the strong local objects pushed, in
      push order and with repetitions. */
  lemma WalkFindsStrongObjects(items: seq<Item>)
    ensures InBounds(|Build(items).data|, Build(items).offsets)
    ensures EmbeddedIds(Build(items)) == StrongIds(items)
  {
    CollectAssembled(Chunks(items), RecordIds);
    StrongChunks(items);
  }

  lemma IdsInRecord(bytes: seq<byte>)
    requires |bytes| == SLOT_SIZE
    ensures var slot := DecodeSlot(bytes);
            RecordIds(bytes) == if slot.tag == BINDER then [ObjectId(FromUnion(slot.data), slot.cookie)] else []
  {
    hide DecodeSlot, FromUnion;
  }

  lemma NothingCollected(data: seq<byte>)
    ensures Collect(data, [], RecordIds) == []
  {
  }

  /** The walk as the loop over the offset table that the source runs before
      and after a send. */
  method ForEachEmbeddedBinderObject(b: Built) returns (ids: seq<ObjectId>)
    requires InBounds(|b.data|, b.offsets)
    ensures ids == EmbeddedIds(b)
  {
    hide Collect, RecordIds, DecodeSlot, FromUnion;
    ids := [];
    NothingCollected(b.data);
    var i := 0;
    while i < |b.offsets|
      invariant 0 <= i <= |b.offsets|
      invariant ids == Collect(b.data, b.offsets[..i], RecordIds)
    {
      var offset := b.offsets[i];
      assert b.offsets[..i + 1] == b.offsets[..i] + [offset];
      CollectSnoc(b.data, b.offsets[..i], offset, RecordIds);
      var slot := DecodeSlot(b.data[offset..offset + SLOT_SIZE]);
      IdsInRecord(RecordAt(b.data, offset));
      if slot.tag == BINDER {
        ids := ids + [ObjectId(FromUnion(slot.data), slot.cookie)];
      }
      i := i + 1;
    }
    assert b.offsets[..i] == b.offsets;
  }
}
