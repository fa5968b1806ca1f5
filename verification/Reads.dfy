/** How each read of a payload ends, told from the bytes, and the bytes that each
    push writes. */
module Reads {
  import opened Sys
  import opened Layout
  import opened Payload

  /* ---------------------------------------------------------- plain bytes */

  /** A record starts strictly inside the next `n` bytes. */
  predicate RecordWithin(r: Reader, n: nat) {
    exists i :: 0 <= i < |r.offsets| && r.cursor < r.offsets[i] < r.cursor + n
  }

  /** Main result: plain bytes are read exactly if they are there and no record
      starts inside them; which error it is depends on the record alone, and a
      failed read moves nothing. */
  lemma ReadBytesExactly(r: Reader, n: nat)
    requires ReaderOk(r)
    ensures var (res, r') := ReadBytes(r, n);
            && (res == Err(ReadingIntoObject) <==> RecordWithin(r, n))
            && (res == Err(OutOfBounds) <==> !RecordWithin(r, n) && r.cursor + n > |r.data|)
            && (res.Ok? <==> !RecordWithin(r, n) && r.cursor + n <= |r.data|)
            && (res.Ok? ==> res.value == r.data[r.cursor..r.cursor + n])
            && r' == r.(cursor := if res.Ok? then r.cursor + n else r.cursor)
  {
    FirstPastInOrder(r.data, r.offsets, r.cursor);
    var o := FirstPast(r.offsets, r.cursor);
    if o.Some? {
      var i :| 0 <= i < |r.offsets| && r.offsets[i] == o.value;
      assert r.cursor + n > o.value ==> r.cursor < r.offsets[i] < r.cursor + n;
    }
  }

  /** Reading up to the next record always succeeds, and one byte more never
      does. */
  lemma ReadUpToRecord(r: Reader)
    requires ReaderOk(r)
    ensures ReadBytes(r, BytesUntilNextObj(r)).0.Ok?
    ensures forall n | n > BytesUntilNextObj(r) :: ReadBytes(r, n).0.Err?
  {
    hide ReadBytes, BytesUntilNextObj;
    var m := BytesUntilNextObj(r);
    ReadBytesExactly(r, m);
    forall n | n > m
      ensures ReadBytes(r, n).0.Err?
    {
      ReadBytesExactly(r, n);
      if r.cursor + m < |r.data| {
        var i :| 0 <= i < |r.offsets| && r.offsets[i] == r.cursor + m;
        assert r.cursor < r.offsets[i] < r.cursor + n;
      }
    }
  }

  /* -------------------------------------------------------------- records */

  predicate AtEnd(r: Reader) {
    r.nextOffset >= |r.offsets|
  }

  function Offset(r: Reader): nat
    requires ReaderOk(r) && !AtEnd(r)
    ensures Offset(r) + SLOT_SIZE <= |r.data|
  {
    r.offsets[r.nextOffset]
  }

  /** The tag word of the record at the offset cursor. */
  function Tag(r: Reader): nat
    requires ReaderOk(r) && !AtEnd(r)
  {
    FromLe(r.data[Offset(r)..Offset(r) + 4])
  }

  /** The id and the cookie of the record as those of a local object. */
  function Id(r: Reader): ObjectId
    requires ReaderOk(r) && !AtEnd(r)
  {
    WidthFacts();
    ObjectId(FromLe(r.data[Offset(r) + 8..Offset(r) + 16]), FromLe(r.data[Offset(r) + 16..Offset(r) + 24]))
  }

  /** The low half of the record's union, a handle or a descriptor. */
  function LowWord(r: Reader): u32
    requires ReaderOk(r) && !AtEnd(r)
  {
    WidthFacts();
    FromLe(r.data[Offset(r) + 8..Offset(r) + 12])
  }

  lemma Within(data: seq<byte>, offset: nat, i: nat, j: nat)
    requires offset + SLOT_SIZE <= |data| && i <= j <= SLOT_SIZE
    ensures RecordAt(data, offset)[i..j] == data[offset + i..offset + j]
  {
    var record := RecordAt(data, offset);
    assert forall k | 0 <= k < SLOT_SIZE :: record[k] == data[offset + k];
    assert |record[i..j]| == |data[offset + i..offset + j]|;
    assert forall k | 0 <= k < j - i :: record[i..j][k] == data[offset + (i + k)];
    assert record[i..j] == data[offset + i..offset + j];
  }

  lemma RecordFields(r: Reader)
    requires ReaderOk(r) && !AtEnd(r)
    ensures var s := DecodeSlot(RecordAt(r.data, Offset(r)));
            s.tag == Tag(r) && s.data.low == LowWord(r) && ObjectId(FromUnion(s.data), s.cookie) == Id(r)
  {
    hide FromLe, Pow256, ReaderOk;
    var o := Offset(r);
    var p := RecordAt(r.data, o);
    Within(r.data, o, 0, 4);
    Within(r.data, o, 8, 12);
    Within(r.data, o, 16, 24);
    Within(r.data, o, 8, 16);
    assert p[..4] == p[0..4] && p[8..16] == p[8..12] + p[12..16];
    FromLeConcat(p[8..12], p[12..16]);
    WidthFacts();
  }

  /** Main result: an object or ref is read exactly if a record is left, it has one
      of the four tags, and a strong local object has a handler; what is read are
      the record's own bytes. A failed read moves nothing. */
  lemma ReadBinderRefExactly(r: Reader, registered: set<ObjectId>)
    requires ReaderOk(r)
    ensures var (res, r') := ReadBinderRef(r, registered);
            && (res == Err(Empty) <==> AtEnd(r))
            && (res == Err(UnknownBinderObject) <==> !AtEnd(r) && Tag(r) == 0x7362_2a85 && Id(r) !in registered)
            && (res == Err(IncorrectObject) <==>
                  !AtEnd(r) && Tag(r) != 0x7362_2a85 && Tag(r) != 0x7762_2a85 && Tag(r) != 0x7368_2a85
                  && Tag(r) != 0x7768_2a85)
            && (res.Ok? && Tag(r) == 0x7362_2a85 ==> res.value == Object(Id(r)))
            && (res.Ok? && Tag(r) == 0x7762_2a85 ==> res.value == WeakObject(Id(r)))
            && (res.Ok? && Tag(r) == 0x7368_2a85 ==> res.value == Ref(LowWord(r)))
            && (res.Ok? && Tag(r) == 0x7768_2a85 ==> res.value == WeakRef(LowWord(r)))
            && (res.Ok? ==> r' == r.(nextOffset := r.nextOffset + 1, cursor := Offset(r) + 24))
            && (res.Err? ==> r' == r)
  {
    hide DecodeSlot, FromUnion, Tag, Id, LowWord;
    if !AtEnd(r) {
      RecordFields(r);
      Tags();
    }
  }

  /** Main result: the same for descriptors. */
  lemma ReadFdExactly(r: Reader)
    requires ReaderOk(r)
    ensures var (res, r') := ReadFd(r);
            && (res == Err(Empty) <==> AtEnd(r))
            && (res == Err(IncorrectObject) <==> !AtEnd(r) && Tag(r) != 0x6664_2a85)
            && (res.Ok? ==> res.value == (LowWord(r), Id(r).cookie))
            && (res.Ok? ==> r' == r.(nextOffset := r.nextOffset + 1, cursor := Offset(r) + 24))
            && (res.Err? ==> r' == r && res.error != UnknownBinderObject)
  {
    hide DecodeSlot, FromUnion, Tag, Id, LowWord;
    if !AtEnd(r) {
      RecordFields(r);
      Tags();
      assert ObjectId(FromUnion(DecodeSlot(RecordAt(r.data, Offset(r))).data),
                      DecodeSlot(RecordAt(r.data, Offset(r))).cookie).cookie == Id(r).cookie;
    }
  }

  /** Main result: the announced kind is the record's tag, each of the seven told
      from the others, and none for another tag or at the end. */
  lemma KindExactly(r: Reader)
    requires ReaderOk(r)
    ensures AtEnd(r) ==> NextObjectType(r) == None
    ensures !AtEnd(r) ==>
              && (NextObjectType(r) == Some(BinderObject) <==> Tag(r) == 0x7362_2a85)
              && (NextObjectType(r) == Some(WeakBinderObject) <==> Tag(r) == 0x7762_2a85)
              && (NextObjectType(r) == Some(BinderRef) <==> Tag(r) == 0x7368_2a85)
              && (NextObjectType(r) == Some(WeakBinderRef) <==> Tag(r) == 0x7768_2a85)
              && (NextObjectType(r) == Some(Fd) <==> Tag(r) == 0x6664_2a85)
              && (NextObjectType(r) == Some(FdArray) <==> Tag(r) == 0x6664_6185)
              && (NextObjectType(r) == Some(Buffer) <==> Tag(r) == 0x7074_2a85)
  {
    hide DecodeSlot, FromUnion, Tag, Id, LowWord;
    if !AtEnd(r) {
      RecordFields(r);
      Tags();
    }
  }

  /** The announcement and the reads agree: a descriptor read succeeds exactly
      when a descriptor is announced, and an object read fails for the kind exactly
      when something else is. */
  lemma AnnouncedIsRead(r: Reader, registered: set<ObjectId>)
    requires ReaderOk(r)
    ensures ReadFd(r).0.Ok? <==> NextObjectType(r) == Some(Fd)
    ensures ReadBinderRef(r, registered).0 == Err(IncorrectObject) <==>
              !AtEnd(r) && NextObjectType(r) != Some(BinderObject) && NextObjectType(r) != Some(WeakBinderObject)
              && NextObjectType(r) != Some(BinderRef) && NextObjectType(r) != Some(WeakBinderRef)
    ensures ReadBinderRef(r, registered).0.Ok? ==>
              match ReadBinderRef(r, registered).0.value
              case Object(_) => NextObjectType(r) == Some(BinderObject)
              case WeakObject(_) => NextObjectType(r) == Some(WeakBinderObject)
              case Ref(_) => NextObjectType(r) == Some(BinderRef)
              case WeakRef(_) => NextObjectType(r) == Some(WeakBinderRef)
  {
    hide ReadFd, ReadBinderRef, NextObjectType, Tag, Id, LowWord;
    ReadFdExactly(r);
    ReadBinderRefExactly(r, registered);
    KindExactly(r);
  }

  /* -------------------------------------------------------- pushed bytes */

  lemma UnionBytes(n: u64)
    ensures EncodeUnion(ToUnion(n)) == Le(n, 8)
  {
    var u := ToUnion(n);
    WidthFacts();
    LeRoundTrip(u.low, 4);
    LeRoundTrip(u.high, 4);
    FromLeConcat(Le(u.low, 4), Le(u.high, 4));
    LeOfFromLe(EncodeUnion(u));
  }

  /** Main result: the 24 bytes of each record, little-endian: the tag, ACCEPTS_FDS
      or no flags, the id or the handle or the descriptor, and the cookie. */
  lemma RecordBytes(id: ObjectId, n: u32, cookie: u64, unused: u32)
    ensures EncodeSlot(ObjectSlot(Object(id), unused)) ==
            Le(0x7362_2a85, 4) + Le(0x100, 4) + Le(id.id, 8) + Le(id.cookie, 8)
    ensures EncodeSlot(ObjectSlot(WeakObject(id), unused)) ==
            Le(0x7762_2a85, 4) + Le(0x100, 4) + Le(id.id, 8) + Le(id.cookie, 8)
    ensures EncodeSlot(ObjectSlot(Ref(n), unused)) ==
            Le(0x7368_2a85, 4) + Le(0x100, 4) + (Le(n, 4) + Le(unused, 4)) + Le(0, 8)
    ensures EncodeSlot(ObjectSlot(WeakRef(n), unused)) ==
            Le(0x7768_2a85, 4) + Le(0x100, 4) + (Le(n, 4) + Le(unused, 4)) + Le(0, 8)
    ensures EncodeSlot(FdSlot(n, cookie, unused)) ==
            Le(0x6664_2a85, 4) + Le(0, 4) + (Le(n, 4) + Le(unused, 4)) + Le(cookie, 8)
  {
    hide Le, ToUnion;
    UnionBytes(id.id);
    Tags();
  }
}
