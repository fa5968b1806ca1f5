/** The echo that scans for objects instead of knowing the shape of its
    messages. It stops on every payload, echoes every object, and reproduces the
    payload exactly when there are no objects in it. */
module Scan {
  import opened Sys
  import opened Layout
  import opened Payload

  /** Every strong local object in the payload still has a handler. */
  ghost predicate Alive(b: Built, registered: set<ObjectId>)
    requires InBounds(|b.data|, b.offsets)
  {
    forall i {:trigger At(b.data, b.offsets[i])} | 0 <= i < |b.offsets| ::
      At(b.data, b.offsets[i]).IsObject? && At(b.data, b.offsets[i]).obj.Object? ==>
        At(b.data, b.offsets[i]).obj.id in registered
  }

  predicate Echoable(m: Meaning) {
    m.IsObject? || m.IsFd?
  }

  /** The first `m` records of `b` stand in `out`, in order, with nothing else
      in its table. */
  ghost predicate Mirrors(b: Built, out: Built, m: nat) {
    && InBounds(|b.data|, b.offsets) && m <= |b.offsets|
    && Spaced(out.data, out.offsets) && |out.offsets| == m
    && forall k | 0 <= k < m :: At(out.data, out.offsets[k]) == At(b.data, b.offsets[k])
  }

  lemma MirrorsBytes(b: Built, out: Built, m: nat, bytes: seq<byte>)
    requires Mirrors(b, out, m)
    ensures Mirrors(b, PushItem(out, Bytes(bytes)), m)
  {
    hide RecordMeaning;
    forall k | 0 <= k < m
      ensures At(out.data + bytes, out.offsets[k]) == At(b.data, b.offsets[k])
    {
      assert RecordAt(out.data + bytes, out.offsets[k]) == RecordAt(out.data, out.offsets[k]);
    }
  }

  lemma MirrorsRecord(b: Built, out: Built, m: nat, item: Item)
    requires Mirrors(b, out, m) && m < |b.offsets| && !item.Bytes? && ItemMeaning(item) == At(b.data, b.offsets[m])
    ensures Mirrors(b, PushItem(out, item), m + 1)
    ensures out.data <= PushItem(out, item).data && |PushItem(out, item).data| >= |out.data| + SLOT_SIZE
  {
    hide EncodeSlot, DecodeSlot, PushChunk, Spaced, RecordAt, ItemMeaning, RecordMeaning;
    var out' := PushItem(out, item);
    ItemRoundTrip(item);
    RecordPushed(out, ChunkOf(item));
    SpacedInBounds(out);
    SpacedInBounds(out');
    forall k | 0 <= k < m + 1
      ensures At(out'.data, out'.offsets[k]) == At(b.data, b.offsets[k])
    {
      if k < m {
        assert At(out.data, out.offsets[k]) == At(b.data, b.offsets[k]);
      }
    }
  }

  /** What a successful turn over a record reads, as a push. */
  lemma NextReads(r: Reader, registered: set<ObjectId>)
    requires ReaderOk(r) && Alive(Built(r.data, r.offsets), registered)
    ensures NextObjectType(r).None? || NextObjectType(r) in {Some(FdArray), Some(Buffer)} ==>
              r.nextOffset == |r.offsets| || !Echoable(At(r.data, r.offsets[r.nextOffset]))
    ensures NextObjectType(r).Some? && NextObjectType(r).value !in {Fd, FdArray, Buffer} ==>
              && r.nextOffset < |r.offsets|
              && ReadBinderRef(r, registered).0.Ok?
              && At(r.data, r.offsets[r.nextOffset]) == IsObject(ReadBinderRef(r, registered).0.value)
              && ReadBinderRef(r, registered).1.nextOffset == r.nextOffset + 1
    ensures NextObjectType(r) == Some(Fd) ==>
              && r.nextOffset < |r.offsets|
              && ReadFd(r).0.Ok?
              && At(r.data, r.offsets[r.nextOffset]) == IsFd(ReadFd(r).0.value.0, ReadFd(r).0.value.1)
              && ReadFd(r).1.nextOffset == r.nextOffset + 1
  {
    hide RecordMeaning;
    if r.nextOffset < |r.offsets| {
      var m := At(r.data, r.offsets[r.nextOffset]);
    }
  }

  /** Reading up to the next record never fails and moves the cursor there. */
  lemma BytesRead(r: Reader)
    requires ReaderOk(r)
    ensures var n := BytesUntilNextObj(r);
            ReadBytes(r, n) == (Ok(r.data[r.cursor..r.cursor + n]), r.(cursor := r.cursor + n))
  {
    FirstPastInOrder(r.data, r.offsets, r.cursor);
  }

  /* -------------------------------------------------- the exact output */

  /** The push that writes a record of this meaning again. */
  function Again(m: Meaning, unused: u32): Item
    requires Echoable(m)
  {
    if m.IsObject? then Obj(m.obj, unused) else Desc(m.fd, m.cookie, unused)
  }

  ghost predicate EchoableUpTo(b: Built, m: nat) {
    && InBounds(|b.data|, b.offsets) && m <= |b.offsets|
    && forall k | 0 <= k < m :: Echoable(At(b.data, b.offsets[k]))
  }

  /** The output once `m` records are echoed: all the bytes, and then for each
      record its push and the bytes after it, read again up to the end. `junk` is
      what the memory of each record's unused half holds. */
  ghost function Scanned(b: Built, m: nat, junk: nat -> u32): Built
    requires EchoableUpTo(b, m)
    decreases m, 1
  {
    if m == 0 then Built(b.data, []) else
      var from := b.offsets[m - 1];
      PushItem(Reached(b, m, junk), Bytes(b.data[from + SLOT_SIZE..]))
  }

  /** The output when the last of `m` records has just been pushed. */
  ghost function Reached(b: Built, m: nat, junk: nat -> u32): Built
    requires m > 0 && EchoableUpTo(b, m)
    decreases m, 0
  {
    PushItem(Scanned(b, m - 1, junk), Again(At(b.data, b.offsets[m - 1]), junk(m - 1)))
  }

  lemma BytesPushed(out: Built, bytes: seq<byte>)
    ensures PushItem(out, Bytes(bytes)) == Built(out.data + bytes, out.offsets)
  {
  }

  lemma MeantAgain(m: Meaning, unused: u32)
    requires Echoable(m)
    ensures !Again(m, unused).Bytes? && ItemMeaning(Again(m, unused)) == m
  {
  }

  lemma ScannedNext(b: Built, m: nat, junk: nat -> u32)
    requires 0 < m && EchoableUpTo(b, m)
    ensures EchoableUpTo(b, m - 1) && m <= |b.offsets| && b.offsets[m - 1] + SLOT_SIZE <= |b.data|
    ensures Echoable(At(b.data, b.offsets[m - 1]))
    ensures var from := b.offsets[m - 1];
            Scanned(b, m, junk) == PushItem(
              PushItem(Scanned(b, m - 1, junk), Again(At(b.data, from), junk(m - 1))),
              Bytes(b.data[from + SLOT_SIZE..]))
  {
    hide PushItem, At, Again;
  }

  /** All of the input, then room for `m` records, which are its first ones. */
  ghost predicate Holds(b: Built, out: Built, m: nat) {
    Mirrors(b, out, m) && b.data <= out.data && |out.data| >= |b.data| + SLOT_SIZE * m
  }

  lemma HoldsFirst(b: Built, junk: nat -> u32)
    requires EchoableUpTo(b, 0)
    ensures Holds(b, Scanned(b, 0, junk), 0)
  {
  }

  lemma HoldsTurn(b: Built, before: Built, m: nat, item: Item, rest: seq<byte>)
    requires 0 < m <= |b.offsets| && Holds(b, before, m - 1)
    requires !item.Bytes? && ItemMeaning(item) == At(b.data, b.offsets[m - 1])
    ensures Holds(b, PushItem(PushItem(before, item), Bytes(rest)), m)
  {
    hide At, ItemMeaning, PushItem;
    MirrorsRecord(b, before, m - 1, item);
    MirrorsBytes(b, PushItem(before, item), m, rest);
    BytesPushed(PushItem(before, item), rest);
  }

  /** The output holds every echoed record in order and nothing else, after all of
      the input. */
  lemma {:induction false} ScannedHolds(b: Built, m: nat, junk: nat -> u32)
    requires EchoableUpTo(b, m)
    ensures Holds(b, Scanned(b, m, junk), m)
  {
    hide Holds, At, Echoable, EchoableUpTo, Again, PushItem, Scanned, Reached;
    if m == 0 {
      HoldsFirst(b, junk);
    } else {
      ScannedNext(b, m, junk);
      ScannedHolds(b, m - 1, junk);
      var item := Again(At(b.data, b.offsets[m - 1]), junk(m - 1));
      MeantAgain(At(b.data, b.offsets[m - 1]), junk(m - 1));
      HoldsTurn(b, Scanned(b, m - 1, junk), m, item, b.data[b.offsets[m - 1] + SLOT_SIZE..]);
    }
  }

  /** The records pushed again. */
  ghost function Pushed(b: Built, m: nat, junk: nat -> u32): seq<Item>
    requires EchoableUpTo(b, m)
    decreases m
  {
    if m == 0 then [] else Pushed(b, m - 1, junk) + [Again(At(b.data, b.offsets[m - 1]), junk(m - 1))]
  }

  lemma KeepPushed(kept: Kept, b: Built, m: nat, junk: nat -> u32)
    requires EchoableUpTo(b, m) && m < |b.offsets| && Echoable(At(b.data, b.offsets[m]))
    ensures EchoableUpTo(b, m + 1)
    ensures KeepAll(kept, Pushed(b, m + 1, junk)) ==
            KeepItem(KeepAll(kept, Pushed(b, m, junk)), Again(At(b.data, b.offsets[m]), junk(m)))
  {
    hide At, Again, KeepItem;
    assert Pushed(b, m + 1, junk)[..|Pushed(b, m, junk)|] == Pushed(b, m, junk);
  }

  /** What holds of the output while the loop runs. */
  ghost predicate Progress(b: Built, out: Built, m: nat, cursor: nat, junk: nat -> u32) {
    && EchoableUpTo(b, m) && cursor <= |b.data|
    && (m == 0 ==> out == Built(b.data[..cursor], []))
    && (m > 0 ==>
          && b.offsets[m - 1] + SLOT_SIZE <= cursor
          && out == PushItem(Reached(b, m, junk), Bytes(b.data[b.offsets[m - 1] + SLOT_SIZE..cursor])))
  }

  lemma ProgressBytes(b: Built, out: Built, m: nat, cursor: nat, junk: nat -> u32, n: nat)
    requires Progress(b, out, m, cursor, junk) && cursor + n <= |b.data|
    ensures Progress(b, PushItem(out, Bytes(b.data[cursor..cursor + n])), m, cursor + n, junk)
  {
    if m == 0 {
      assert b.data[..cursor] + b.data[cursor..cursor + n] == b.data[..cursor + n];
    } else {
      hide At, Echoable, Scanned, Reached;
      var from, pushed := b.offsets[m - 1], Reached(b, m, junk);
      var front, back := b.data[from + SLOT_SIZE..cursor], b.data[cursor..cursor + n];
      assert front + back == b.data[from + SLOT_SIZE..cursor + n];
      assert pushed.data + front + back == pushed.data + (front + back);
    }
  }

  lemma ProgressRecord(b: Built, out: Built, m: nat, junk: nat -> u32)
    requires Progress(b, out, m, |b.data|, junk) && m < |b.offsets| && Echoable(At(b.data, b.offsets[m]))
    ensures Progress(b, PushItem(out, Again(At(b.data, b.offsets[m]), junk(m))), m + 1, b.offsets[m] + SLOT_SIZE, junk)
  {
    hide At, Again, ChunkOf;
    assert b.data[..|b.data|] == b.data;
    var pushed := Reached(b, m + 1, junk);
    assert out == Scanned(b, m, junk);
    BytesPushed(pushed, []);
    assert pushed.data + [] == pushed.data;
    assert b.data[b.offsets[m] + SLOT_SIZE..b.offsets[m] + SLOT_SIZE] == [];
  }

  method EchoBytes(reader: PayloadReader, builder: PayloadBuilder, n: nat, junk: nat -> u32, ghost b: Built)
    requires reader.Valid() && Built(reader.data, reader.offsets) == b && n == BytesUntilNextObj(reader.View())
    requires Progress(b, builder.View(), reader.nextOffsetIndex, reader.nextDataIndex, junk)
    modifies reader, builder
    ensures reader.Valid() && Built(reader.data, reader.offsets) == b
    ensures reader.nextOffsetIndex == old(reader.nextOffsetIndex)
              && reader.nextDataIndex == old(reader.nextDataIndex) + n
    ensures Progress(b, builder.View(), reader.nextOffsetIndex, reader.nextDataIndex, junk)
    ensures builder.Keeps() == old(builder.Keeps())
  {
    hide Progress, RecordMeaning;
    BytesRead(reader.View());
    ProgressBytes(b, builder.View(), reader.nextOffsetIndex, reader.nextDataIndex, junk, n);
    var v := reader.TakeBytes(n);
    builder.PushBytes(v.value);
  }

  /** One turn over a record, taken at the end of the bytes. `more` is false if
      there is nothing the loop can read. */
  method EchoObject(reader: PayloadReader, builder: PayloadBuilder, registered: set<ObjectId>, junk: nat -> u32,
      ghost b: Built, ghost kept: Kept)
    returns (more: bool)
    requires reader.Valid() && Built(reader.data, reader.offsets) == b && Alive(b, registered)
    requires reader.nextDataIndex == |b.data|
    requires Progress(b, builder.View(), reader.nextOffsetIndex, reader.nextDataIndex, junk)
    requires EchoableUpTo(b, reader.nextOffsetIndex)
    requires builder.Keeps() == KeepAll(kept, Pushed(b, reader.nextOffsetIndex, junk))
    modifies reader, builder
    ensures reader.Valid() && Built(reader.data, reader.offsets) == b
    ensures reader.nextOffsetIndex == if more then old(reader.nextOffsetIndex) + 1 else old(reader.nextOffsetIndex)
    ensures Progress(b, builder.View(), reader.nextOffsetIndex, reader.nextDataIndex, junk)
    ensures EchoableUpTo(b, reader.nextOffsetIndex)
    ensures builder.Keeps() == KeepAll(kept, Pushed(b, reader.nextOffsetIndex, junk))
    ensures !more ==> reader.nextDataIndex == |b.data| && (reader.nextOffsetIndex == |b.offsets|
                      || !Echoable(At(b.data, b.offsets[reader.nextOffsetIndex])))
  {
    hide Progress, RecordMeaning, EncodeSlot, BytesUntilNextObj, KeepAll, Pushed;
    var k := reader.nextOffsetIndex;
    NextReads(reader.View(), registered);
    var t := reader.PeekObjectType();
    more := t.Some? && t.value != FdArray && t.value != Buffer;
    if !more {
      return;
    }
    ProgressRecord(b, builder.View(), k, junk);
    KeepPushed(kept, b, k, junk);
    if t.value == Fd {
      var v := reader.TakeFd();
      builder.PushOwnedFd(v.value.0, v.value.1, junk(k));
    } else {
      var v := reader.TakeBinderRef(registered);
      builder.PushBinderRef(v.value, junk(k));
    }
  }

  /** At the end of the bytes. */
  lemma Scanning(b: Built, out: Built, m: nat, junk: nat -> u32)
    requires Progress(b, out, m, |b.data|, junk)
    ensures EchoableUpTo(b, m) && out == Scanned(b, m, junk)
    ensures Holds(b, out, m)
  {
    assert b.data[..|b.data|] == b.data;
    ScannedHolds(b, m, junk);
  }

  /** Main result: the loop stops on every payload whose objects are alive,
      although reading an object moves the data cursor backwards. Its output is
      all of the input and then, for each record up to the first it cannot echo,
      the record and all that follows it in the input; so it starts with the
      input, has the records in order, and is the input if there are none. The
      builder comes to own the objects and the descriptors it echoes. */
  method EchoScan(reader: PayloadReader, builder: PayloadBuilder, registered: set<ObjectId>, junk: nat -> u32,
      ghost b: Built)
    requires reader.Valid() && reader.View() == Fresh(b) && Alive(b, registered)
    requires builder.View() == Built([], [])
    modifies reader, builder
    ensures EchoableUpTo(b, |builder.objOffsets|)
    ensures builder.View() == Scanned(b, |builder.objOffsets|, junk)
    ensures |builder.objOffsets| == |b.offsets| || !Echoable(At(b.data, b.offsets[|builder.objOffsets|]))
    ensures builder.Keeps() == KeepAll(old(builder.Keeps()), Pushed(b, |builder.objOffsets|, junk))
    ensures Holds(b, builder.View(), |builder.objOffsets|)
    ensures EchoableUpTo(b, |b.offsets|) ==> (builder.View() == b <==> b.offsets == [])
  {
    var more := true;
    while more
      invariant reader.Valid() && Built(reader.data, reader.offsets) == b
      invariant Progress(b, builder.View(), reader.nextOffsetIndex, reader.nextDataIndex, junk)
      invariant EchoableUpTo(b, reader.nextOffsetIndex)
      invariant builder.Keeps() == KeepAll(old(builder.Keeps()), Pushed(b, reader.nextOffsetIndex, junk))
      invariant !more ==> reader.nextDataIndex == |b.data| && (reader.nextOffsetIndex == |b.offsets|
                          || !Echoable(At(b.data, b.offsets[reader.nextOffsetIndex])))
      decreases |b.offsets| - reader.nextOffsetIndex, |b.data| - reader.nextDataIndex, more
    {
      hide Progress, At, KeepAll, Pushed;
      var n := reader.CountBytesUntilNextObj();
      if n != 0 {
        EchoBytes(reader, builder, n, junk, b);
      } else {
        more := EchoObject(reader, builder, registered, junk, b, old(builder.Keeps()));
      }
    }
    Scanning(b, builder.View(), reader.nextOffsetIndex, junk);
  }
}
