/** The two echo services of the examples: one that knows the shape of its
    messages, and one that scans for objects. */
module Echo {
  import opened Sys
  import opened Layout
  import opened Payload

  /* ------------------------------------------------- messages of a shape */

  /** The two counts, each cut to 32 bits, then the payload bytes. */
  function Head(payload: seq<byte>, refs: nat, fds: nat): seq<byte> {
    Le(Low(refs), 4) + Le(Low(fds), 4) + payload
  }

  ghost predicate RefItems(items: seq<Item>) {
    forall i | 0 <= i < |items| :: items[i].Obj?
  }

  ghost predicate FdItems(items: seq<Item>) {
    forall i | 0 <= i < |items| :: items[i].Desc?
  }

  /** A message as `Client::message` pushes it, and as any receiver sees it: the
      driver may have translated each ref and each descriptor. */
  function Message(payload: seq<byte>, refs: seq<Item>, fds: seq<Item>): seq<Item> {
    [Bytes(Le(Low(|refs|), 4)), Bytes(Le(Low(|fds|), 4)), Bytes(payload)] + refs + fds
  }

  function Copies(item: Item, n: nat): (items: seq<Item>)
    ensures |items| == n && forall i | 0 <= i < n :: items[i] == item
  {
    if n == 0 then [] else Copies(item, n - 1) + [item]
  }

  method ClientMessage(payload: seq<byte>, refs: nat, fds: nat, id: ObjectId, fd: u32) returns (b: PayloadBuilder)
    ensures fresh(b)
    ensures b.View() == Build(Message(payload, Copies(Obj(Object(id), 0), refs), Copies(Desc(fd, 0, 0), fds)))
    ensures b.ownedFds == []
    ensures |b.binderObjects| == refs && forall i | 0 <= i < refs :: b.binderObjects[i] == Object(id)
  {
    b := new PayloadBuilder();
    b.PushBytes(Le(Low(refs), 4));
    b.PushBytes(Le(Low(fds), 4));
    b.PushBytes(payload);
    ghost var head := [Bytes(Le(Low(refs), 4)), Bytes(Le(Low(fds), 4)), Bytes(payload)];
    ThreePushes(head[0], head[1], head[2]);
    assert b.View() == Build(head);
    PushRefs(b, head, id, refs);
    PushFds(b, head + Copies(Obj(Object(id), 0), refs), fd, fds);
  }

  lemma {:induction false} ThreePushes(a: Item, b: Item, c: Item)
    ensures Build([a, b, c]) == PushItem(PushItem(PushItem(Built([], []), a), b), c)
  {
    BuildSnoc([], a);
    BuildSnoc([a], b);
    BuildSnoc([a, b], c);
    assert [] + [a] == [a] && [a] + [b] == [a, b] && [a, b] + [c] == [a, b, c];
    assert Build([]) == Built([], []);
  }

  method PushRefs(b: PayloadBuilder, ghost items: seq<Item>, id: ObjectId, refs: nat)
    requires b.View() == Build(items)
    modifies b
    ensures b.View() == Build(items + Copies(Obj(Object(id), 0), refs)) && b.ownedFds == old(b.ownedFds)
    ensures |b.binderObjects| == |old(b.binderObjects)| + refs && old(b.binderObjects) <= b.binderObjects
    ensures forall i | |old(b.binderObjects)| <= i < |b.binderObjects| :: b.binderObjects[i] == Object(id)
  {
    assert items + [] == items;
    for i := 0 to refs
      invariant b.View() == Build(items + Copies(Obj(Object(id), 0), i)) && b.ownedFds == old(b.ownedFds)
      invariant |b.binderObjects| == |old(b.binderObjects)| + i && old(b.binderObjects) <= b.binderObjects
      invariant forall j | |old(b.binderObjects)| <= j < |b.binderObjects| :: b.binderObjects[j] == Object(id)
    {
      ghost var item := Obj(Object(id), 0);
      BuildSnoc(items + Copies(item, i), item);
      assert items + Copies(item, i) + [item] == items + Copies(item, i + 1);
      b.PushBinderRef(Object(id), 0);
    }
  }

  method PushFds(b: PayloadBuilder, ghost items: seq<Item>, fd: u32, fds: nat)
    requires b.View() == Build(items)
    modifies b
    ensures b.View() == Build(items + Copies(Desc(fd, 0, 0), fds))
    ensures b.ownedFds == old(b.ownedFds) && b.binderObjects == old(b.binderObjects)
  {
    assert items + [] == items;
    for i := 0 to fds
      invariant b.View() == Build(items + Copies(Desc(fd, 0, 0), i))
      invariant b.ownedFds == old(b.ownedFds) && b.binderObjects == old(b.binderObjects)
    {
      ghost var item := Desc(fd, 0, 0);
      BuildSnoc(items + Copies(item, i), item);
      assert items + Copies(item, i) + [item] == items + Copies(item, i + 1);
      b.PushFd(fd, 0, 0);
    }
  }

  /** `[u32 refs][u32 fds]` off the front of the data. */
  function HeaderCounts(data: seq<byte>): (nat, nat) {
    if |data| < 8 then (0, 0) else (FromLe(data[..4]), FromLe(data[4..8]))
  }

  lemma CountsOfHead(payload: seq<byte>, refs: nat, fds: nat, padding: seq<byte>)
    ensures HeaderCounts(Head(payload, refs, fds) + padding) == (Low(refs), Low(fds))
  {
    WidthFacts();
    var data := Head(payload, refs, fds) + padding;
    assert data[..4] == Le(Low(refs), 4);
    assert data[4..8] == Le(Low(fds), 4);
    LeRoundTrip(Low(refs), 4);
    LeRoundTrip(Low(fds), 4);
  }

  /* ---------------------------------------- a block and a run of records */

  /** Plain bytes, padded if records follow, then the records back to back. */
  ghost function Packed(block: seq<byte>, items: seq<Item>): Built
    requires NoBytes(items)
  {
    if items == [] then Built(block, [])
    else PushItem(Packed(block, items[..|items| - 1]), items[|items| - 1])
  }

  predicate NoBytes(items: seq<Item>) {
    forall i | 0 <= i < |items| :: !items[i].Bytes?
  }

  lemma {:induction false} PackedAfter(head: seq<Item>, items: seq<Item>)
    requires NoBytes(items) && Build(head).offsets == []
    ensures Build(head + items) == Packed(Build(head).data, items)
    decreases |items|
  {
    if items == [] {
      assert head + items == head;
    } else {
      var front, last := items[..|items| - 1], items[|items| - 1];
      PackedAfter(head, front);
      BuildSnoc(head + front, last);
      assert head + front + [last] == head + items;
    }
  }

  /** A message is its head, then its refs and descriptors. */
  lemma MessagePacked(payload: seq<byte>, refs: seq<Item>, fds: seq<Item>)
    requires RefItems(refs) && FdItems(fds)
    ensures Build(Message(payload, refs, fds)) == Packed(Head(payload, |refs|, |fds|), refs + fds)
  {
    var a, b, c := Bytes(Le(Low(|refs|), 4)), Bytes(Le(Low(|fds|), 4)), Bytes(payload);
    ThreePushes(a, b, c);
    assert [] + Le(Low(|refs|), 4) == Le(Low(|refs|), 4);
    PackedAfter([a, b, c], refs + fds);
    assert [a, b, c] + refs + fds == [a, b, c] + (refs + fds);
  }

  /** Padding the block beforehand changes nothing. */
  lemma {:induction false} PaddedBlock(block: seq<byte>, items: seq<Item>)
    requires items != [] && NoBytes(items)
    ensures Packed(block + Zeros(Padding(|block|)), items) == Packed(block, items)
    decreases |items|
  {
    var padded := block + Zeros(Padding(|block|));
    if |items| == 1 {
      PaddingAligns(|block|);
      assert padded + Zeros(0) == padded;
      assert items[..0] == [];
    } else {
      PaddedBlock(block, items[..|items| - 1]);
    }
  }

  /** The first record of a block starts where its padding ends. */
  lemma HeadOfBlock(block: seq<byte>, b: Built, b': Built, last: Item)
    requires b' == PushItem(b, last) && !last.Bytes? && Spaced(b'.data, b'.offsets)
    requires if b.offsets == [] then b.data == block
             else b.offsets[0] == |block| + Padding(|block|) <= |b.data|
                  && b.data[..b.offsets[0]] == block + Zeros(Padding(|block|))
    ensures b'.offsets != [] && b'.offsets[0] == |block| + Padding(|block|)
    ensures b'.data[..b'.offsets[0]] == block + Zeros(Padding(|block|)) && block <= b'.data
  {
    hide EncodeSlot;
    assert block <= b'.data[..b'.offsets[0]] <= b'.data;
  }

  /** A block with these records behind it. */
  ghost predicate Packs(block: seq<byte>, items: seq<Item>, b: Built)
    requires NoBytes(items)
  {
    && |b.offsets| == |items|
    && Spaced(b.data, b.offsets)
    && block <= b.data
    && (forall i | 0 <= i < |items| :: At(b.data, b.offsets[i]) == ItemMeaning(items[i]))
    && (items != [] ==>
          && b.offsets[0] == |block| + Padding(|block|)
          && b.data[..b.offsets[0]] == block + Zeros(Padding(|block|)))
    && (items == [] ==> b.data == block)
  }

  lemma PacksNone(block: seq<byte>)
    ensures NoBytes([]) && Packs(block, [], Packed(block, []))
  {
  }

  lemma PackedNext(block: seq<byte>, items: seq<Item>)
    requires NoBytes(items) && items != []
    ensures var front, last := items[..|items| - 1], items[|items| - 1];
            NoBytes(front) && !last.Bytes? && Packed(block, items) == PushItem(Packed(block, front), last)
  {
  }

  lemma PacksNext(block: seq<byte>, front: seq<Item>, b: Built, last: Item)
    requires NoBytes(front) && !last.Bytes? && Packs(block, front, b)
    ensures NoBytes(front + [last]) && Packs(block, front + [last], PushItem(b, last))
  {
    hide PushItem, RecordMeaning, Padding, Zeros;
    PushedReads(b, front, last);
    HeadOfBlock(block, b, PushItem(b, last), last);
  }

  /** What a reader finds in a block with records behind it. */
  lemma {:induction false} PackedReads(block: seq<byte>, items: seq<Item>)
    requires NoBytes(items)
    ensures Packs(block, items, Packed(block, items))
    decreases |items|
  {
    hide PushItem, Packs, Packed, NoBytes;
    if items == [] {
      PacksNone(block);
    } else {
      var front, last := items[..|items| - 1], items[|items| - 1];
      PackedNext(block, items);
      PackedReads(block, front);
      PacksNext(block, front, Packed(block, front), last);
      assert front + [last] == items;
    }
  }

  lemma HeadStarts(payload: seq<byte>, refs: nat, fds: nat, data: seq<byte>)
    requires Head(payload, refs, fds) <= data
    ensures |data| >= 8 + |payload| && data[8..8 + |payload|] == payload
    ensures FromLe(data[..4]) == refs % 0x1_0000_0000 && FromLe(data[4..8]) == fds % 0x1_0000_0000
  {
    hide Le, FromLe, Pow256;
    assert data[..4] == Le(Low(refs), 4) && data[4..8] == Le(Low(fds), 4);
    WidthFacts();
    LeRoundTrip(Low(refs), 4);
    LeRoundTrip(Low(fds), 4);
  }

  /** A message starts with the number of refs, then that of descriptors, then the
      payload, and has that many records. */
  lemma MessageStarts(payload: seq<byte>, refs: seq<Item>, fds: seq<Item>)
    requires RefItems(refs) && FdItems(fds)
    ensures var b := Build(Message(payload, refs, fds));
            && |b.data| >= 8 + |payload| && |b.offsets| == |refs| + |fds|
            && FromLe(b.data[..4]) == |refs| % 0x1_0000_0000
            && FromLe(b.data[4..8]) == |fds| % 0x1_0000_0000
            && b.data[8..8 + |payload|] == payload
  {
    hide Build, Message, Packed, Head, At;
    MessagePacked(payload, refs, fds);
    PackedReads(Head(payload, |refs|, |fds|), refs + fds);
    HeadStarts(payload, |refs|, |fds|, Build(Message(payload, refs, fds)).data);
  }

  lemma PushedReads(b: Built, items: seq<Item>, last: Item)
    requires NoBytes(items) && !last.Bytes? && |b.offsets| == |items| && Spaced(b.data, b.offsets)
    requires forall i | 0 <= i < |items| :: At(b.data, b.offsets[i]) == ItemMeaning(items[i])
    ensures var b' := PushItem(b, last);
            && |b'.offsets| == |items| + 1
            && Spaced(b'.data, b'.offsets)
            && b.data + Zeros(Padding(|b.data|)) <= b'.data
            && b.offsets <= b'.offsets
            && b'.offsets[|items|] == |b.data| + Padding(|b.data|)
            && (forall i | 0 <= i < |items| :: At(b'.data, b'.offsets[i]) == ItemMeaning(items[i]))
            && At(b'.data, b'.offsets[|items|]) == ItemMeaning(last)
  {
    hide EncodeSlot, RecordMeaning;
    var b' := PushItem(b, last);
    var record := ChunkOf(last).bytes;
    var o := |b.data| + Padding(|b.data|);
    assert RecordAt(b'.data, o) == record;
    ItemRoundTrip(last);
    forall i | 0 <= i < |items|
      ensures At(b'.data, b'.offsets[i]) == ItemMeaning(items[i])
    {
      assert RecordAt(b'.data, b'.offsets[i]) == RecordAt(b.data, b.offsets[i]);
    }
  }

  /* ------------------------------------------------ the shaped echo */

  /** The same refs and descriptors, pushed again: the unused halves of their
      unions may differ. */
  function Relabel(items: seq<Item>, junk: nat -> u32, k: nat): (out: seq<Item>)
    requires NoBytes(items) && k <= |items|
    ensures |out| == k && NoBytes(out)
    ensures forall i | 0 <= i < k :: ItemMeaning(out[i]) == ItemMeaning(items[i])
  {
    if k == 0 then [] else Relabel(items, junk, k - 1) + [items[k - 1].(unused := junk(k - 1))]
  }

  /** How many refs and descriptors get echoed: the header cannot say more than
      a 32-bit count, and a ref where a descriptor is due ends the echo. */
  function EchoCount(refs: nat, fds: nat): (k: nat)
    ensures k <= refs + fds
    ensures k == refs + fds <==> refs < 0x1_0000_0000 && fds < 0x1_0000_0000
  {
    if refs < 0x1_0000_0000 then refs + Low(fds) else Low(refs)
  }

  function Block(payload: seq<byte>, refs: nat, fds: nat): seq<byte> {
    var head := Head(payload, refs, fds);
    if refs + fds == 0 then head else head + Zeros(Padding(|head|))
  }

  ghost predicate AllReadable(items: seq<Item>, registered: set<ObjectId>) {
    forall i | 0 <= i < |items| && items[i].Obj? && items[i].obj.Object? :: items[i].obj.id in registered
  }

  /** What the echo has built after `k` records. */
  ghost function Echoed(block: seq<byte>, items: seq<Item>, junk: nat -> u32, k: nat): Built
    requires NoBytes(items) && k <= |items|
  {
    if k == 0 then Built(block, [])
    else PushItem(Echoed(block, items, junk, k - 1), items[k - 1].(unused := junk(k - 1)))
  }

  lemma {:induction false} EchoedPacked(block: seq<byte>, items: seq<Item>, junk: nat -> u32, k: nat)
    requires NoBytes(items) && k <= |items|
    ensures Echoed(block, items, junk, k) == Packed(block, Relabel(items, junk, k))
  {
    if k == 0 {
    } else {
      EchoedPacked(block, items, junk, k - 1);
      assert Relabel(items, junk, k)[..k - 1] == Relabel(items, junk, k - 1);
    }
  }

  lemma NextRecord(r: Reader, head: seq<byte>, items: seq<Item>, registered: set<ObjectId>)
    requires NoBytes(items) && AllReadable(items, registered) && r.nextOffset < |items|
    requires ReaderOk(r) && Built(r.data, r.offsets) == Packed(head, items)
    ensures var item, v := items[r.nextOffset], ReadBinderRef(r, registered);
            if item.Obj? then v.0 == Ok(item.obj) && v.1.nextOffset == r.nextOffset + 1
            else v.0.Err? && v.1 == r
    ensures var item, v := items[r.nextOffset], ReadFd(r);
            if item.Desc? then v.0 == Ok((item.fd, item.cookie)) && v.1.nextOffset == r.nextOffset + 1
            else v.0.Err? && v.1 == r
  {
    PackedReads(head, items);
    assert At(r.data, r.offsets[r.nextOffset]) == ItemMeaning(items[r.nextOffset]);
  }

  /** Reads the next record as a ref and pushes it again. */
  method EchoRef(reader: PayloadReader, builder: PayloadBuilder, registered: set<ObjectId>, junk: nat -> u32,
                 ghost block: seq<byte>, ghost head: seq<byte>, ghost items: seq<Item>)
    returns (ok: bool)
    requires NoBytes(items) && AllReadable(items, registered) && reader.nextOffsetIndex < |items|
    requires reader.Valid() && Built(reader.data, reader.offsets) == Packed(head, items)
    requires builder.View() == Echoed(block, items, junk, reader.nextOffsetIndex)
    modifies reader, builder
    ensures reader.Valid() && Built(reader.data, reader.offsets) == Packed(head, items)
    ensures ok <==> items[old(reader.nextOffsetIndex)].Obj?
    ensures builder.Keeps() ==
            if ok then KeepItem(old(builder.Keeps()), items[old(reader.nextOffsetIndex)]) else old(builder.Keeps())
    ensures reader.nextOffsetIndex == if ok then old(reader.nextOffsetIndex) + 1 else old(reader.nextOffsetIndex)
    ensures reader.nextOffsetIndex <= |items| && builder.View() == Echoed(block, items, junk, reader.nextOffsetIndex)
  {
    hide EncodeSlot, At;
    var k := reader.nextOffsetIndex;
    NextRecord(reader.View(), head, items, registered);
    var v := reader.TakeBinderRef(registered);
    ok := v.Ok?;
    if ok {
      builder.PushBinderRef(v.value, junk(k));
    }
  }

  method EchoFd(reader: PayloadReader, builder: PayloadBuilder, junk: nat -> u32,
                ghost block: seq<byte>, ghost head: seq<byte>, ghost items: seq<Item>, ghost registered: set<ObjectId>)
    returns (ok: bool)
    requires NoBytes(items) && AllReadable(items, registered) && reader.nextOffsetIndex < |items|
    requires reader.Valid() && Built(reader.data, reader.offsets) == Packed(head, items)
    requires builder.View() == Echoed(block, items, junk, reader.nextOffsetIndex)
    modifies reader, builder
    ensures reader.Valid() && Built(reader.data, reader.offsets) == Packed(head, items)
    ensures ok <==> items[old(reader.nextOffsetIndex)].Desc?
    ensures builder.Keeps() ==
            if ok then KeepItem(old(builder.Keeps()), items[old(reader.nextOffsetIndex)]) else old(builder.Keeps())
    ensures reader.nextOffsetIndex == if ok then old(reader.nextOffsetIndex) + 1 else old(reader.nextOffsetIndex)
    ensures reader.nextOffsetIndex <= |items| && builder.View() == Echoed(block, items, junk, reader.nextOffsetIndex)
  {
    hide EncodeSlot, At;
    var k := reader.nextOffsetIndex;
    NextRecord(reader.View(), head, items, registered);
    var v := reader.TakeFd();
    ok := v.Ok?;
    if ok {
      builder.PushOwnedFd(v.value.0, v.value.1, junk(k));
    }
  }

  /** The loop over the refs the header announces. */
  method EchoRefs(reader: PayloadReader, builder: PayloadBuilder, registered: set<ObjectId>, junk: nat -> u32,
                  refs: nat,
                  ghost block: seq<byte>, ghost head: seq<byte>, ghost items: seq<Item>, ghost objects: nat)
    requires NoBytes(items) && AllReadable(items, registered) && objects <= |items|
    requires forall i | 0 <= i < |items| :: items[i].Obj? <==> i < objects
    requires reader.Valid() && Built(reader.data, reader.offsets) == Packed(head, items)
    requires refs <= objects && reader.nextOffsetIndex == 0 && builder.View() == Built(block, [])
    modifies reader, builder
    ensures reader.Valid() && Built(reader.data, reader.offsets) == Packed(head, items)
              && reader.nextOffsetIndex == refs
    ensures builder.View() == Echoed(block, items, junk, refs)
    ensures builder.Keeps() == KeepAll(old(builder.Keeps()), items[..refs])
  {
    hide Packed, PushItem, KeepItem;
    for i := 0 to refs
      invariant builder.Keeps() == KeepAll(old(builder.Keeps()), items[..i])
      invariant reader.Valid() && Built(reader.data, reader.offsets) == Packed(head, items)
      invariant reader.nextOffsetIndex == i
      invariant builder.View() == Echoed(block, items, junk, i)
    {
      KeepNext(old(builder.Keeps()), items, i);
      var ok := EchoRef(reader, builder, registered, junk, block, head, items);
      if !ok { return; }
    }
  }

  /** The loop over the descriptors the header announces: it ends at once if
      refs are still due. */
  method EchoFds(reader: PayloadReader, builder: PayloadBuilder, junk: nat -> u32, fds: nat,
                 ghost block: seq<byte>, ghost head: seq<byte>, ghost items: seq<Item>, ghost objects: nat,
                 ghost registered: set<ObjectId>, ghost refs: nat, ghost kept: Kept)
    requires NoBytes(items) && AllReadable(items, registered) && objects <= |items|
    requires forall i | 0 <= i < |items| :: items[i].Obj? <==> i < objects
    requires reader.Valid() && Built(reader.data, reader.offsets) == Packed(head, items)
    requires refs <= objects && fds <= |items| - objects
    requires reader.nextOffsetIndex == refs && builder.View() == Echoed(block, items, junk, refs)
    requires builder.Keeps() == KeepAll(kept, items[..refs])
    modifies reader, builder
    ensures builder.View() == Echoed(block, items, junk, if refs == objects then refs + fds else refs)
    ensures builder.Keeps() == KeepAll(kept, items[..if refs == objects then refs + fds else refs])
  {
    hide Packed, PushItem, KeepItem, ReaderOk;
    for i := 0 to fds
      invariant builder.Keeps() == KeepAll(kept, items[..refs + i])
      invariant reader.Valid() && Built(reader.data, reader.offsets) == Packed(head, items)
      invariant reader.nextOffsetIndex == refs + i
      invariant i == 0 || refs == objects
      invariant builder.View() == Echoed(block, items, junk, refs + i)
    {
      KeepNext(kept, items, refs + i);
      var ok := EchoFd(reader, builder, junk, block, head, items, registered);
      if !ok { return; }
    }
  }

  /** Both loops, given the counts read from the header. */
  method EchoRecords(reader: PayloadReader, builder: PayloadBuilder, registered: set<ObjectId>, junk: nat -> u32,
                     refs: nat, fds: nat,
                     ghost block: seq<byte>, ghost head: seq<byte>, ghost items: seq<Item>, ghost objects: nat)
    requires NoBytes(items) && AllReadable(items, registered) && objects <= |items|
    requires forall i | 0 <= i < |items| :: items[i].Obj? <==> i < objects
    requires reader.Valid() && Built(reader.data, reader.offsets) == Packed(head, items)
    requires refs <= objects && fds <= |items| - objects
    requires reader.nextOffsetIndex == 0 && builder.View() == Built(block, [])
    modifies reader, builder
    ensures builder.View() == Packed(block, Relabel(items, junk, if refs == objects then refs + fds else refs))
    ensures builder.Keeps() ==
            KeepAll(old(builder.Keeps()), items[..if refs == objects then refs + fds else refs])
  {
    hide Packed, PushItem, KeepItem;
    EchoRefs(reader, builder, registered, junk, refs, block, head, items, objects);
    EchoFds(reader, builder, junk, fds, block, head, items, objects, registered, refs,
            old(builder.Keeps()));
    EchoedPacked(block, items, junk, if refs == objects then refs + fds else refs);
  }

  lemma FirstBytes(data: seq<byte>)
    ensures PushItem(Built([], []), Bytes(data)) == Built(data, [])
  {
    assert [] + data == data;
  }

  /** `echo_into` on a message of the shape, for every payload length and every
      number of refs and descriptors. The builder comes to own what it echoes. */
  method EchoInto(reader: PayloadReader, builder: PayloadBuilder, registered: set<ObjectId>, junk: nat -> u32,
                  ghost payload: seq<byte>, ghost refItems: seq<Item>, ghost fdItems: seq<Item>)
    requires RefItems(refItems) && FdItems(fdItems) && AllReadable(refItems + fdItems, registered)
    requires reader.Valid() && reader.View() == Fresh(Build(Message(payload, refItems, fdItems)))
    requires builder.View() == Built([], [])
    modifies reader, builder
    ensures builder.View() == Packed(Block(payload, |refItems|, |fdItems|),
                                     Relabel(refItems + fdItems, junk, EchoCount(|refItems|, |fdItems|)))
    ensures builder.Keeps() ==
            KeepAll(old(builder.Keeps()), (refItems + fdItems)[..EchoCount(|refItems|, |fdItems|)])
  {
    hide KeepAll, Packed, EncodeSlot, PushItem, Build, Message, Relabel;
    ghost var head := Head(payload, |refItems|, |fdItems|);
    ghost var items := refItems + fdItems;
    ghost var block := Block(payload, |refItems|, |fdItems|);
    MessagePacked(payload, refItems, fdItems);
    var data := ReadBlock(reader, head, items);
    var refs, fds := ReadCounts(data, payload, |refItems|, |fdItems|);
    FirstBytes(data);
    builder.PushBytes(data);
    EchoRecords(reader, builder, registered, junk, refs, fds, block, head, items, |refItems|);
  }

  /** The announced counts: each is at most the true one, and together they fix
      how far the echo gets. */
  method ReadCounts(data: seq<byte>, ghost payload: seq<byte>, ghost refs: nat, ghost fds: nat) returns (r: nat, f: nat)
    requires Head(payload, refs, fds) <= data
    ensures r <= refs && f <= fds
    ensures EchoCount(refs, fds) == if r == refs then r + f else r
  {
    ghost var head := Head(payload, refs, fds);
    assert data == head + data[|head|..];
    CountsOfHead(payload, refs, fds, data[|head|..]);
    var counts := HeaderCounts(data);
    r, f := counts.0, counts.1;
  }

  /** The data block: everything up to the first record. */
  method ReadBlock(reader: PayloadReader, ghost head: seq<byte>, ghost items: seq<Item>) returns (data: seq<byte>)
    requires NoBytes(items) && |head| > 0 && reader.Valid() && reader.View() == Fresh(Packed(head, items))
    modifies reader
    ensures reader.Valid() && Built(reader.data, reader.offsets) == Packed(head, items) && reader.nextOffsetIndex == 0
    ensures data == if items == [] then head else head + Zeros(Padding(|head|))
  {
    PackedReads(head, items);
    var n := reader.CountBytesUntilNextObj();
    var v := reader.TakeBytes(n);
    data := v.value;
  }

  /* ------------------------------------------------ layout is preserved */

  predicate InRecord(offsets: seq<nat>, j: nat) {
    exists k :: 0 <= k < |offsets| && offsets[k] <= j < offsets[k] + SLOT_SIZE
  }

  /** Same length, same offsets, same bytes outside the records, same meaning
      record by record: equal up to the unused bytes of unions. */
  ghost predicate SamePayload(a: Built, b: Built) {
    && |a.data| == |b.data| && a.offsets == b.offsets
    && InBounds(|a.data|, a.offsets)
    && (forall j | 0 <= j < |a.data| :: InRecord(a.offsets, j) || a.data[j] == b.data[j])
    && forall k | 0 <= k < |a.offsets| :: At(a.data, a.offsets[k]) == At(b.data, b.offsets[k])
  }

  ghost predicate SameItems(a: seq<Item>, b: seq<Item>) {
    && NoBytes(a) && NoBytes(b) && |a| == |b|
    && forall i | 0 <= i < |a| :: ItemMeaning(a[i]) == ItemMeaning(b[i])
  }

  lemma {:induction false} PackedSame(block: seq<byte>, a: seq<Item>, b: seq<Item>)
    requires SameItems(a, b)
    ensures SamePayload(Packed(block, a), Packed(block, b))
    decreases |a|
  {
    PackedReads(block, a);
    PackedReads(block, b);
    PackedOutside(block, a, b);
  }

  lemma {:induction false} PackedOutside(block: seq<byte>, a: seq<Item>, b: seq<Item>)
    requires NoBytes(a) && NoBytes(b) && |a| == |b|
    ensures var x, y := Packed(block, a), Packed(block, b);
            && |x.data| == |y.data| && x.offsets == y.offsets
            && forall j | 0 <= j < |x.data| :: InRecord(x.offsets, j) || x.data[j] == y.data[j]
    decreases |a|
  {
    if a == [] {
    } else {
      var n := |a| - 1;
      PackedOutside(block, a[..n], b[..n]);
      PushedOutside(Packed(block, a[..n]), Packed(block, b[..n]), a[n], b[n]);
    }
  }

  lemma PushedOutside(x: Built, y: Built, c: Item, d: Item)
    requires |x.data| == |y.data| && x.offsets == y.offsets && !c.Bytes? && !d.Bytes?
    requires forall j | 0 <= j < |x.data| :: InRecord(x.offsets, j) || x.data[j] == y.data[j]
    ensures var x', y' := PushItem(x, c), PushItem(y, d);
            && |x'.data| == |y'.data| && x'.offsets == y'.offsets
            && forall j | 0 <= j < |x'.data| :: InRecord(x'.offsets, j) || x'.data[j] == y'.data[j]
  {
    hide EncodeSlot;
    var x', y' := PushItem(x, c), PushItem(y, d);
    var n := |x.offsets|;
    forall j | 0 <= j < |x'.data|
      ensures InRecord(x'.offsets, j) || x'.data[j] == y'.data[j]
    {
      if j < |x.data| {
        if InRecord(x.offsets, j) {
          var k :| 0 <= k < n && x.offsets[k] <= j < x.offsets[k] + SLOT_SIZE;
          assert x'.offsets[k] == x.offsets[k];
        }
      } else if j >= |x.data| + Padding(|x.data|) {
        assert x'.offsets[n] <= j < x'.offsets[n] + SLOT_SIZE;
      }
    }
  }

  lemma RelabelSame(items: seq<Item>, junk: nat -> u32)
    requires NoBytes(items)
    ensures SameItems(items, Relabel(items, junk, |items|))
  {
  }

  /** Main result: what `echo_into` builds out of a message, for all payload
      lengths and counts, is the message again up to unused union bytes, if and
      only if both counts fit the 32-bit header. */
  lemma EchoPreservesLayoutIff(payload: seq<byte>, refs: seq<Item>, fds: seq<Item>, junk: nat -> u32)
    requires RefItems(refs) && FdItems(fds)
    ensures SamePayload(Build(Message(payload, refs, fds)),
                        Packed(Block(payload, |refs|, |fds|), Relabel(refs + fds, junk, EchoCount(|refs|, |fds|))))
       <==> |refs| < 0x1_0000_0000 && |fds| < 0x1_0000_0000
  {
    var head, items := Head(payload, |refs|, |fds|), refs + fds;
    var echoed := Relabel(items, junk, EchoCount(|refs|, |fds|));
    MessagePacked(payload, refs, fds);
    PackedReads(head, items);
    PackedReads(Block(payload, |refs|, |fds|), echoed);
    if EchoCount(|refs|, |fds|) == |items| {
      RelabelSame(items, junk);
      PackedSame(head, items, echoed);
      if items != [] {
        PaddedBlock(head, echoed);
      }
    }
  }
}
