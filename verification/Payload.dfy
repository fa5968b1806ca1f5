/** The payload builder, the payload reader with its two cursors, and what the
    bytes between them mean. */
module Payload {
  import opened Sys
  import opened Layout

  /* ------------------------------------------------------------- objects */

  datatype ObjectOrRef =
    | Object(id: ObjectId)
    | WeakObject(id: ObjectId)
    | Ref(handle: u32)
    | WeakRef(handle: u32)

  /** What a 24-byte record stands for. */
  datatype Meaning =
    | IsObject(obj: ObjectOrRef)
    | IsFd(fd: u32, cookie: u64)
    | IsFdArray
    | IsBuffer
    | IsUnknown

  function MeaningOf(s: Slot): Meaning {
    if s.tag == BINDER then IsObject(Object(ObjectId(FromUnion(s.data), s.cookie)))
    else if s.tag == WEAK_BINDER then IsObject(WeakObject(ObjectId(FromUnion(s.data), s.cookie)))
    else if s.tag == HANDLE then IsObject(Ref(s.data.low))
    else if s.tag == WEAK_HANDLE then IsObject(WeakRef(s.data.low))
    else if s.tag == FD then IsFd(s.data.low, s.cookie)
    else if s.tag == FDA then IsFdArray
    else if s.tag == PTR then IsBuffer
    else IsUnknown
  }

  /** The record written for an object or ref. */
  function ObjectSlot(o: ObjectOrRef, unused: u32): Slot {
    match o
    case Object(id) => Slot(BINDER, ACCEPTS_FDS, ToUnion(id.id), id.cookie)
    case WeakObject(id) => Slot(WEAK_BINDER, ACCEPTS_FDS, ToUnion(id.id), id.cookie)
    case Ref(h) => Slot(HANDLE, ACCEPTS_FDS, Union(h, unused), 0)
    case WeakRef(h) => Slot(WEAK_HANDLE, ACCEPTS_FDS, Union(h, unused), 0)
  }

  function FdSlot(fd: u32, cookie: u64, unused: u32): Slot {
    Slot(FD, 0, Union(fd, unused), cookie)
  }

  lemma SlotMeanings(o: ObjectOrRef, fd: u32, cookie: u64, unused: u32)
    ensures MeaningOf(ObjectSlot(o, unused)) == IsObject(o)
    ensures MeaningOf(FdSlot(fd, cookie, unused)) == IsFd(fd, cookie)
  {
  }

  /** What the record at an offset of a payload stands for. */
  function At(data: seq<byte>, offset: nat): Meaning
    requires offset + SLOT_SIZE <= |data|
  {
    RecordMeaning(RecordAt(data, offset))
  }

  function RecordMeaning(bytes: seq<byte>): Meaning
    requires |bytes| == SLOT_SIZE
  {
    MeaningOf(DecodeSlot(bytes))
  }

  /* ------------------------------------------------------------- builder */

  /** One push. */
  datatype Item =
    | Bytes(bytes: seq<byte>)
    | Obj(obj: ObjectOrRef, unused: u32)
    | Desc(fd: u32, cookie: u64, unused: u32)

  function ItemSlot(item: Item): Slot
    requires !item.Bytes?
  {
    if item.Obj? then ObjectSlot(item.obj, item.unused) else FdSlot(item.fd, item.cookie, item.unused)
  }

  function ItemMeaning(item: Item): Meaning
    requires !item.Bytes?
  {
    if item.Obj? then IsObject(item.obj) else IsFd(item.fd, item.cookie)
  }

  function ChunkOf(item: Item): Chunk {
    if item.Bytes? then Plain(item.bytes) else Record(EncodeSlot(ItemSlot(item)))
  }

  function Chunks(items: seq<Item>): (cs: seq<Chunk>)
    ensures |cs| == |items|
    ensures forall i | 0 <= i < |items| :: cs[i] == ChunkOf(items[i])
  {
    seq(|items|, i requires 0 <= i < |items| => ChunkOf(items[i]))
  }

  /** The builder's contents after these pushes. */
  function Build(items: seq<Item>): Built {
    Assemble(Chunks(items))
  }

  function PushItem(b: Built, item: Item): Built {
    PushChunk(b, ChunkOf(item))
  }

  lemma BuildSnoc(front: seq<Item>, last: Item)
    ensures Build(front + [last]) == PushItem(Build(front), last)
  {
    assert Chunks(front + [last]) == Chunks(front) + [ChunkOf(last)];
    AssembleSnoc(Chunks(front), ChunkOf(last));
  }

  /** A pushed record decodes to what was pushed. */
  lemma ItemRoundTrip(item: Item)
    requires !item.Bytes?
    ensures RecordMeaning(ChunkOf(item).bytes) == ItemMeaning(item)
  {
    SlotRoundTrip(ItemSlot(item));
    match item {
      case Obj(o, unused) => SlotMeanings(o, 0, 0, unused);
      case Desc(fd, cookie, unused) => SlotMeanings(Ref(0), fd, cookie, unused);
    }
  }

  /** What a builder keeps alive: every object or ref pushed, and the descriptors
      that were handed over to it. */
  datatype Kept = Kept(objects: seq<ObjectOrRef>, fds: seq<u32>)

  /** One push that hands its descriptor over. */
  function KeepItem(kept: Kept, item: Item): Kept {
    match item
    case Bytes(_) => kept
    case Obj(o, _) => kept.(objects := kept.objects + [o])
    case Desc(fd, _, _) => kept.(fds := kept.fds + [fd])
  }

  function KeepAll(kept: Kept, items: seq<Item>): Kept {
    if items == [] then kept else KeepItem(KeepAll(kept, items[..|items| - 1]), items[|items| - 1])
  }

  lemma KeepNext(kept: Kept, items: seq<Item>, k: nat)
    requires k < |items|
    ensures KeepAll(kept, items[..k + 1]) == KeepItem(KeepAll(kept, items[..k]), items[k])
  {
    assert items[..k + 1][..k] == items[..k];
  }

  class PayloadBuilder {
    var data: seq<byte>
    var objOffsets: seq<nat>
    var ownedFds: seq<u32>
    var binderObjects: seq<ObjectOrRef>

    constructor ()
      ensures View() == Built([], []) && ownedFds == [] && binderObjects == []
    {
      data, objOffsets, ownedFds, binderObjects := [], [], [], [];
    }

    ghost function View(): Built reads this {
      Built(data, objOffsets)
    }

    ghost function Keeps(): Kept reads this {
      Kept(binderObjects, ownedFds)
    }

    method PushBytes(bytes: seq<byte>)
      modifies this`data
      ensures View() == PushItem(old(View()), Bytes(bytes))
    {
      data := data + bytes;
    }

    /** Appends zeros until the length is a multiple of `align`, and no more. */
    method Align(align: nat)
      requires align > 0
      modifies this`data
      ensures |data| % align == 0 && |old(data)| <= |data| < |old(data)| + align
      ensures data == old(data) + Zeros(|data| - |old(data)|)
    {
      ghost var start := data;
      while |data| % align != 0
        invariant |start| <= |data| && data == start + Zeros(|data| - |start|)
        invariant |data| % align != 0 ==> |data| - |start| == |data| % align - |start| % align
        invariant |data| % align == 0 ==> |data| == |start| || |data| - |start| == align - |start| % align < align
        decreases if |data| % align == 0 then 0 else align - |data| % align
      {
        ModSucc(|data|, align);
        assert Zeros(|data| - |start|) + [0] == Zeros(|data| + 1 - |start|);
        data := data + [0];
      }
    }

    method PushBinderRef(obj: ObjectOrRef, unused: u32)
      modifies this
      ensures View() == PushItem(old(View()), Obj(obj, unused))
      ensures binderObjects == old(binderObjects) + [obj] && ownedFds == old(ownedFds)
    {
      Align(8);
      PaddingUnique(|old(data)|, |data|);
      objOffsets := objOffsets + [|data|];
      data := data + EncodeSlot(ObjectSlot(obj, unused));
      binderObjects := binderObjects + [obj];
    }

    method PushFd(fd: u32, cookie: u64, unused: u32)
      modifies this`data, this`objOffsets
      ensures View() == PushItem(old(View()), Desc(fd, cookie, unused))
    {
      Align(8);
      PaddingUnique(|old(data)|, |data|);
      objOffsets := objOffsets + [|data|];
      data := data + EncodeSlot(FdSlot(fd, cookie, unused));
    }

    method PushOwnedFd(fd: u32, cookie: u64, unused: u32)
      modifies this
      ensures View() == PushItem(old(View()), Desc(fd, cookie, unused))
      ensures ownedFds == old(ownedFds) + [fd] && binderObjects == old(binderObjects)
    {
      PushFd(fd, cookie, unused);
      ownedFds := ownedFds + [fd];
    }
  }

  lemma AtLeastOnce(k: nat, m: nat)
    requires k >= 1
    ensures k * m >= m
  {
  }

  lemma ModSucc(n: nat, m: nat)
    requires m > 0
    ensures (n + 1) % m == if n % m == m - 1 then 0 else n % m + 1
  {
    var q, r := n / m, n % m;
    var q', r' := (n + 1) / m, (n + 1) % m;
    assert q' * m - q * m == r + 1 - r';
    assert (q' - q) * m == q' * m - q * m;
    if q' >= q + 2 {
      AtLeastOnce(q' - q - 1, m);
    } else if q' < q {
      AtLeastOnce(q - q', m);
    }
  }

  /* -------------------------------------------------------------- reader */

  datatype BytesError = ReadingIntoObject | OutOfBounds
  datatype ObjectError = IncorrectObject | UnknownBinderObject | Empty
  datatype Result<+T, +E> = Ok(value: T) | Err(error: E)

  datatype ObjectType = BinderObject | WeakBinderObject | BinderRef | WeakBinderRef | Fd | FdArray | Buffer

  /** A reader's state. A null offset table behaves as an empty one. */
  datatype Reader = Reader(data: seq<byte>, offsets: seq<nat>, nextOffset: nat, cursor: nat)

  function Fresh(b: Built): Reader {
    Reader(b.data, b.offsets, 0, 0)
  }

  ghost predicate ReaderOk(r: Reader) {
    Spaced(r.data, r.offsets) && r.nextOffset <= |r.offsets| && r.cursor <= |r.data|
  }

  /** The first table entry strictly past the cursor. */
  function FirstPast(offsets: seq<nat>, cursor: nat): (o: Option<nat>)
    ensures o.Some? ==> o.value in offsets && o.value > cursor
    ensures o.None? ==> forall i | 0 <= i < |offsets| :: offsets[i] <= cursor
  {
    if offsets == [] then None
    else if offsets[0] > cursor then Some(offsets[0])
    else
      assert forall i | 1 <= i < |offsets| :: offsets[i] == offsets[1..][i - 1];
      FirstPast(offsets[1..], cursor)
  }

  function BytesUntilNextObj(r: Reader): (n: nat)
    requires ReaderOk(r)
    ensures r.cursor + n <= |r.data|
    ensures n == 0 <==> r.cursor == |r.data|
    ensures r.cursor + n == |r.data| || r.cursor + n in r.offsets
    ensures forall i | 0 <= i < |r.offsets| :: !(r.cursor < r.offsets[i] < r.cursor + n)
  {
    var target := match FirstPast(r.offsets, r.cursor) case Some(v) => v case None => |r.data|;
    FirstPastInOrder(r.data, r.offsets, r.cursor);
    target - r.cursor
  }

  lemma {:induction false} FirstPastInOrder(data: seq<byte>, offsets: seq<nat>, cursor: nat)
    requires Spaced(data, offsets)
    ensures FirstPast(offsets, cursor).Some? ==>
              && FirstPast(offsets, cursor).value + SLOT_SIZE <= |data|
              && forall i | 0 <= i < |offsets| :: !(cursor < offsets[i] < FirstPast(offsets, cursor).value)
    decreases |offsets|
  {
    if offsets == [] || offsets[0] > cursor {
    } else {
      FirstPastInOrder(data, offsets[1..], cursor);
      assert forall i | 1 <= i < |offsets| :: offsets[i] == offsets[1..][i - 1];
    }
  }

  function NextObjectType(r: Reader): Option<ObjectType>
    requires ReaderOk(r)
  {
    if r.nextOffset == |r.offsets| then None
    else
      match At(r.data, r.offsets[r.nextOffset])
      case IsObject(Object(_)) => Some(BinderObject)
      case IsObject(WeakObject(_)) => Some(WeakBinderObject)
      case IsObject(Ref(_)) => Some(BinderRef)
      case IsObject(WeakRef(_)) => Some(WeakBinderRef)
      case IsFd(_, _) => Some(Fd)
      case IsFdArray => Some(FdArray)
      case IsBuffer => Some(Buffer)
      case IsUnknown => None
  }

  function ReadBytes(r: Reader, n: nat): (Result<seq<byte>, BytesError>, Reader)
    requires ReaderOk(r)
  {
    var blocked := match FirstPast(r.offsets, r.cursor) case Some(v) => r.cursor + n > v case None => false;
    if blocked then (Err(ReadingIntoObject), r)
    else if r.cursor + n <= |r.data| then (Ok(r.data[r.cursor..r.cursor + n]), r.(cursor := r.cursor + n))
    else (Err(OutOfBounds), r)
  }

  /** `registered` is the set of object ids that have a handler at this moment. */
  function ReadBinderRef(r: Reader, registered: set<ObjectId>): (Result<ObjectOrRef, ObjectError>, Reader)
    requires ReaderOk(r)
  {
    if r.nextOffset == |r.offsets| then (Err(Empty), r)
    else
      var offset := r.offsets[r.nextOffset];
      match At(r.data, offset)
      case IsObject(o) =>
        if o.Object? && o.id !in registered then (Err(UnknownBinderObject), r)
        else (Ok(o), r.(nextOffset := r.nextOffset + 1, cursor := offset + SLOT_SIZE))
      case _ => (Err(IncorrectObject), r)
  }

  function ReadFd(r: Reader): (Result<(u32, u64), ObjectError>, Reader)
    requires ReaderOk(r)
  {
    if r.nextOffset == |r.offsets| then (Err(Empty), r)
    else
      var offset := r.offsets[r.nextOffset];
      match At(r.data, offset)
      case IsFd(fd, cookie) => (Ok((fd, cookie)), r.(nextOffset := r.nextOffset + 1, cursor := offset + SLOT_SIZE))
      case _ => (Err(IncorrectObject), r)
  }

  class PayloadReader {
    var data: seq<byte>
    var offsets: seq<nat>
    var nextOffsetIndex: nat
    var nextDataIndex: nat
    const kernelBorrowed: bool // the bytes belong to the driver
    const binderObjects: seq<ObjectOrRef> // kept alive as long as the reader

    ghost function View(): Reader reads this {
      Reader(data, offsets, nextOffsetIndex, nextDataIndex)
    }

    ghost predicate Valid() reads this {
      ReaderOk(View())
    }

    /** A reader over bytes the driver delivered. */
    constructor FromKernelRaw(data: seq<byte>, offsets: seq<nat>)
      requires Spaced(data, offsets)
      ensures Valid() && View() == Fresh(Built(data, offsets)) && kernelBorrowed && binderObjects == []
    {
      this.data, this.offsets, nextOffsetIndex, nextDataIndex := data, offsets, 0, 0;
      kernelBorrowed, binderObjects := true, [];
    }

    /** A reader over its own bytes. */
    constructor Owned(data: seq<byte>, offsets: seq<nat>, objects: seq<ObjectOrRef>)
      requires Spaced(data, offsets)
      ensures Valid() && View() == Fresh(Built(data, offsets)) && !kernelBorrowed && binderObjects == objects
    {
      this.data, this.offsets, nextOffsetIndex, nextDataIndex := data, offsets, 0, 0;
      kernelBorrowed, binderObjects := false, objects;
    }

    method FindPast() returns (o: Option<nat>)
      ensures o == FirstPast(offsets, nextDataIndex)
    {
      var i := 0;
      while i < |offsets|
        invariant 0 <= i <= |offsets|
        invariant FirstPast(offsets, nextDataIndex) == FirstPast(offsets[i..], nextDataIndex)
      {
        if offsets[i] > nextDataIndex {
          return Some(offsets[i]);
        }
        i := i + 1;
      }
      return None;
    }

    method CountBytesUntilNextObj() returns (n: nat)
      requires Valid()
      ensures n == BytesUntilNextObj(View())
    {
      var o := FindPast();
      FirstPastInOrder(data, offsets, nextDataIndex);
      var target := if o.Some? then o.value else |data|;
      n := target - nextDataIndex;
    }

    method PeekObjectType() returns (t: Option<ObjectType>)
      requires Valid()
      ensures t == NextObjectType(View())
    {
      if nextOffsetIndex >= |offsets| {
        return None;
      }
      var offset := offsets[nextOffsetIndex];
      var tag := FromLe(data[offset..offset + HEADER_SIZE]);
      assert data[offset..offset + SLOT_SIZE][..4] == data[offset..offset + HEADER_SIZE];
      if tag == BINDER { return Some(BinderObject); }
      if tag == HANDLE { return Some(BinderRef); }
      if tag == WEAK_BINDER { return Some(WeakBinderObject); }
      if tag == WEAK_HANDLE { return Some(WeakBinderRef); }
      if tag == FD { return Some(Fd); }
      if tag == FDA { return Some(FdArray); }
      if tag == PTR { return Some(Buffer); }
      return None;
    }

    method TakeBytes(n: nat) returns (res: Result<seq<byte>, BytesError>)
      requires Valid()
      modifies this`nextDataIndex
      ensures Valid() && (res, View()) == ReadBytes(old(View()), n)
    {
      var o := FindPast();
      if o.Some? && nextDataIndex + n > o.value {
        return Err(ReadingIntoObject);
      }
      if nextDataIndex + n <= |data| {
        res := Ok(data[nextDataIndex..nextDataIndex + n]);
        nextDataIndex := nextDataIndex + n;
      } else {
        res := Err(OutOfBounds);
      }
    }

    method TakeBinderRef(registered: set<ObjectId>) returns (res: Result<ObjectOrRef, ObjectError>)
      requires Valid()
      modifies this`nextDataIndex, this`nextOffsetIndex
      ensures Valid() && (res, View()) == ReadBinderRef(old(View()), registered)
    {
      if nextOffsetIndex >= |offsets| {
        return Err(Empty);
      }
      var offset := offsets[nextOffsetIndex];
      var slot := DecodeSlot(data[offset..offset + SLOT_SIZE]);
      var o: ObjectOrRef;
      if slot.tag == BINDER {
        var id := ObjectId(FromUnion(slot.data), slot.cookie);
        if id !in registered {
          return Err(UnknownBinderObject);
        }
        o := Object(id);
      } else if slot.tag == WEAK_BINDER {
        o := WeakObject(ObjectId(FromUnion(slot.data), slot.cookie));
      } else if slot.tag == HANDLE {
        o := Ref(slot.data.low);
      } else if slot.tag == WEAK_HANDLE {
        o := WeakRef(slot.data.low);
      } else {
        return Err(IncorrectObject);
      }
      nextOffsetIndex := nextOffsetIndex + 1;
      nextDataIndex := offset + SLOT_SIZE;
      return Ok(o);
    }

    method TakeFd() returns (res: Result<(u32, u64), ObjectError>)
      requires Valid()
      modifies this`nextDataIndex, this`nextOffsetIndex
      ensures Valid() && (res, View()) == ReadFd(old(View()))
    {
      if nextOffsetIndex >= |offsets| {
        return Err(Empty);
      }
      var offset := offsets[nextOffsetIndex];
      var slot := DecodeSlot(data[offset..offset + SLOT_SIZE]);
      if slot.tag != FD {
        return Err(IncorrectObject);
      }
      nextOffsetIndex := nextOffsetIndex + 1;
      nextDataIndex := offset + SLOT_SIZE;
      return Ok((slot.data.low, slot.cookie));
    }
  }
}
