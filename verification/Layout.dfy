/** How a payload is laid out: plain bytes and aligned 24-byte records, with a
    table of the record offsets. What the records mean is left to Payload. */
module Layout {
  import opened Sys

  datatype RawChunk = Plain(bytes: seq<byte>) | Record(bytes: seq<byte>)

  type Chunk = c: RawChunk | c.Record? ==> |c.bytes| == SLOT_SIZE witness Plain([])

  datatype Built = Built(data: seq<byte>, offsets: seq<nat>)

  function Zeros(n: nat): (zs: seq<byte>)
    ensures |zs| == n && forall i | 0 <= i < n :: zs[i] == 0
  {
    seq(n, _ => 0)
  }

  /** How many bytes it takes to reach the next multiple of 8. */
  function Padding(length: nat): (p: nat)
    ensures p < 8
  {
    if length == 0 then 0 else if length <= 8 then 8 - length else Padding(length - 8)
  }

  lemma {:induction false} PaddingAligns(length: nat)
    ensures (length + Padding(length)) % 8 == 0
    ensures Padding(length + Padding(length)) == 0
  {
    if length <= 8 {
    } else {
      PaddingAligns(length - 8);
    }
  }

  /** It is the only distance below 8 to a multiple. */
  lemma {:induction false} PaddingUnique(length: nat, aligned: nat)
    requires length <= aligned < length + 8 && aligned % 8 == 0
    ensures aligned - length == Padding(length)
  {
    if length <= 8 {
    } else {
      PaddingUnique(length - 8, aligned - 8);
    }
  }

  function PushChunk(b: Built, c: Chunk): Built {
    if c.Plain? then
      Built(b.data + c.bytes, b.offsets)
    else
      Built(b.data + Zeros(Padding(|b.data|)) + c.bytes, b.offsets + [|b.data| + Padding(|b.data|)])
  }

  function Assemble(chunks: seq<Chunk>): Built {
    if chunks == [] then Built([], [])
    else PushChunk(Assemble(chunks[..|chunks| - 1]), chunks[|chunks| - 1])
  }

  lemma AssembleSnoc(front: seq<Chunk>, last: Chunk)
    ensures Assemble(front + [last]) == PushChunk(Assemble(front), last)
  {
    assert (front + [last])[..|front|] == front;
  }

  /** Records lie inside the data, in order and without overlap. The driver
      checks this of what it delivers; `AssembleSpaced` proves it of builders. */
  ghost predicate Spaced(data: seq<byte>, offsets: seq<nat>) {
    && InBounds(|data|, offsets)
    && forall i, j | 0 <= i < j < |offsets| :: offsets[i] + SLOT_SIZE <= offsets[j]
  }

  predicate InBounds(length: nat, offsets: seq<nat>) {
    forall i | 0 <= i < |offsets| :: offsets[i] + SLOT_SIZE <= length
  }

  function RecordAt(data: seq<byte>, offset: nat): (bytes: seq<byte>)
    requires offset + SLOT_SIZE <= |data|
    ensures |bytes| == SLOT_SIZE
  {
    data[offset..offset + SLOT_SIZE]
  }

  lemma {:induction false} AssembleSpaced(chunks: seq<Chunk>)
    ensures Spaced(Assemble(chunks).data, Assemble(chunks).offsets)
  {
    if chunks == [] {
    } else {
      AssembleSpaced(chunks[..|chunks| - 1]);
    }
  }

  /** Later pushes only append. */
  lemma {:induction false} AssemblePrefix(chunks: seq<Chunk>, k: nat)
    requires k <= |chunks|
    ensures Assemble(chunks[..k]).data <= Assemble(chunks).data
    ensures Assemble(chunks[..k]).offsets <= Assemble(chunks).offsets
    ensures forall j | |Assemble(chunks[..k]).offsets| <= j < |Assemble(chunks).offsets| ::
              Assemble(chunks).offsets[j] >= |Assemble(chunks[..k]).data|
    decreases |chunks|
  {
    if k == |chunks| {
      assert chunks[..k] == chunks;
    } else {
      var front := chunks[..|chunks| - 1];
      assert front[..k] == chunks[..k];
      AssemblePrefix(front, k);
    }
  }

  lemma AssembleNext(chunks: seq<Chunk>, k: nat)
    requires k < |chunks|
    ensures Assemble(chunks[..k + 1]) == PushChunk(Assemble(chunks[..k]), chunks[k])
    ensures Assemble(chunks[..k + 1]).data <= Assemble(chunks).data
    ensures Assemble(chunks[..k + 1]).offsets <= Assemble(chunks).offsets
  {
    assert chunks[..k + 1][..k] == chunks[..k];
    AssemblePrefix(chunks, k + 1);
  }

  /** Plain bytes stand where the preceding chunks end, and no record of the
      whole payload starts strictly after that point and inside them. */
  lemma PlainInPlace(chunks: seq<Chunk>, k: nat)
    requires k < |chunks| && chunks[k].Plain?
    ensures var from, n := |Assemble(chunks[..k]).data|, |chunks[k].bytes|;
            && from + n <= |Assemble(chunks).data|
            && Assemble(chunks).data[from..from + n] == chunks[k].bytes
            && |Assemble(chunks[..k + 1]).data| == from + n
            && |Assemble(chunks[..k + 1]).offsets| == |Assemble(chunks[..k]).offsets|
            && forall j | 0 <= j < |Assemble(chunks).offsets| :: !(from < Assemble(chunks).offsets[j] < from + n)
  {
    var here, next, all := Assemble(chunks[..k]), Assemble(chunks[..k + 1]), Assemble(chunks);
    AssembleNext(chunks, k);
    AssemblePrefix(chunks, k + 1);
    AssembleSpaced(chunks[..k]);
    assert next.data == all.data[..|next.data|];
    assert next.data[|here.data|..] == chunks[k].bytes;
    assert forall j | 0 <= j < |here.offsets| :: all.offsets[j] == here.offsets[j];
  }

  /** A record stands at the next table entry and ends where the chunks up to
      and including it end. */
  lemma RecordInPlace(chunks: seq<Chunk>, k: nat)
    requires k < |chunks| && chunks[k].Record?
    ensures var b, i := Assemble(chunks), |Assemble(chunks[..k]).offsets|;
            && i < |b.offsets|
            && b.offsets[i] + SLOT_SIZE == |Assemble(chunks[..k + 1]).data| <= |b.data|
            && RecordAt(b.data, b.offsets[i]) == chunks[k].bytes
            && |Assemble(chunks[..k + 1]).offsets| == i + 1
  {
    var here, next, all := Assemble(chunks[..k]), Assemble(chunks[..k + 1]), Assemble(chunks);
    AssembleNext(chunks, k);
    var o := |here.data| + Padding(|here.data|);
    assert next.data == all.data[..|next.data|];
    assert next.data[o..] == chunks[k].bytes;
    assert all.data[o..o + SLOT_SIZE] == next.data[o..o + SLOT_SIZE];
    assert next.offsets[|here.offsets|] == o;
  }

  /** Two assemblies whose chunks agree in kind and length agree in layout. */
  predicate SameKind(a: Chunk, b: Chunk) {
    a.Plain? == b.Plain? && |a.bytes| == |b.bytes|
  }

  lemma {:induction false} SameLayout(a: seq<Chunk>, b: seq<Chunk>)
    requires |a| == |b| && forall i | 0 <= i < |a| :: SameKind(a[i], b[i])
    ensures Assemble(a).offsets == Assemble(b).offsets
    ensures |Assemble(a).data| == |Assemble(b).data|
  {
    if a == [] {
    } else {
      SameLayout(a[..|a| - 1], b[..|b| - 1]);
      assert SameKind(a[|a| - 1], b[|b| - 1]);
    }
  }

  /** Pushed bytes leave the records in place. */
  lemma PlainPushed(b: Built, c: Chunk)
    requires Spaced(b.data, b.offsets) && c.Plain?
    ensures var b' := PushChunk(b, c);
            && Spaced(b'.data, b'.offsets) && b'.offsets == b.offsets
            && forall k | 0 <= k < |b.offsets| :: RecordAt(b'.data, b'.offsets[k]) == RecordAt(b.data, b.offsets[k])
  {
  }

  /** A pushed record leaves the earlier ones in place and ends up last. */
  lemma RecordPushed(out: Built, c: Chunk)
    requires Spaced(out.data, out.offsets) && c.Record?
    ensures var out' := PushChunk(out, c);
            && Spaced(out'.data, out'.offsets) && |out'.offsets| == |out.offsets| + 1
            && out.data <= out'.data && |out'.data| >= |out.data| + SLOT_SIZE
            && RecordAt(out'.data, out'.offsets[|out.offsets|]) == c.bytes
            && (forall k | 0 <= k < |out.offsets| ::
                  out'.offsets[k] == out.offsets[k]
                      && RecordAt(out'.data, out'.offsets[k]) == RecordAt(out.data, out.offsets[k]))
  {
    var out' := PushChunk(out, c);
    assert RecordAt(out'.data, out'.offsets[|out.offsets|]) == c.bytes;
  }

  lemma SpacedInBounds(b: Built)
    requires Spaced(b.data, b.offsets)
    ensures InBounds(|b.data|, b.offsets)
  {
  }

  /* --------------------------------------------- rewriting every record */

  /** Bytes, and a running count of what was done to them. */
  datatype Rewritten = Rewritten(data: seq<byte>, count: nat)

  ghost predicate KeepsLength(f: (seq<byte>, nat) -> Rewritten) {
    forall bytes, count :: |f(bytes, count).data| == |bytes|
  }

  function Splice(data: seq<byte>, offset: nat, bytes: seq<byte>): (d: seq<byte>)
    requires offset + |bytes| <= |data|
    ensures |d| == |data|
  {
    data[..offset] + bytes + data[offset + |bytes|..]
  }

  /** Applies `f` to the records one after the other, in table order. */
  ghost function MapRecords(data: seq<byte>, offsets: seq<nat>, f: (seq<byte>, nat) -> Rewritten): (w: Rewritten)
    requires InBounds(|data|, offsets) && KeepsLength(f)
    ensures |w.data| == |data|
  {
    if offsets == [] then Rewritten(data, 0)
    else
      var w := MapRecords(data, offsets[..|offsets| - 1], f);
      var last := offsets[|offsets| - 1];
      var step := f(RecordAt(w.data, last), w.count);
      Rewritten(Splice(w.data, last, step.data), step.count)
  }

  datatype Mapped = Mapped(chunks: seq<Chunk>, count: nat)

  ghost function MapChunk(c: Chunk, count: nat, f: (seq<byte>, nat) -> Rewritten): (res: (Chunk, nat))
    requires KeepsLength(f)
    ensures SameKind(c, res.0)
  {
    if c.Plain? then (c, count) else (Record(f(c.bytes, count).data), f(c.bytes, count).count)
  }

  /** Applies `f` to the record chunks before assembling. */
  ghost function MapChunks(chunks: seq<Chunk>, f: (seq<byte>, nat) -> Rewritten): (m: Mapped)
    requires KeepsLength(f)
    ensures |m.chunks| == |chunks|
    ensures forall i | 0 <= i < |chunks| :: SameKind(chunks[i], m.chunks[i])
  {
    if chunks == [] then Mapped([], 0)
    else
      var m := MapChunks(chunks[..|chunks| - 1], f);
      var (c, count) := MapChunk(chunks[|chunks| - 1], m.count, f);
      Mapped(m.chunks + [c], count)
  }

  lemma MapSnoc(data: seq<byte>, offsets: seq<nat>, last: nat, f: (seq<byte>, nat) -> Rewritten)
    requires InBounds(|data|, offsets) && last + SLOT_SIZE <= |data| && KeepsLength(f)
    ensures InBounds(|data|, offsets + [last])
    ensures MapRecords(data, offsets + [last], f)
         == var w := MapRecords(data, offsets, f);
            var step := f(RecordAt(w.data, last), w.count);
            Rewritten(Splice(w.data, last, step.data), step.count)
  {
    assert (offsets + [last])[..|offsets|] == offsets;
  }

  lemma SpliceRecord(before: seq<byte>, bytes: seq<byte>, after: seq<byte>, other: seq<byte>)
    requires |bytes| == |other| == SLOT_SIZE
    ensures RecordAt(before + bytes + after, |before|) == bytes
    ensures Splice(before + bytes + after, |before|, other) == before + other + after
  {
  }

  /** The bytes that one more chunk adds. */
  function Tail(b: Built, c: Chunk): seq<byte> {
    if c.Plain? then c.bytes else Zeros(Padding(|b.data|)) + c.bytes
  }

  lemma MapPlainPushed(b: Built, b': Built, bytes: seq<byte>, count: nat, f: (seq<byte>, nat) -> Rewritten,
      after: seq<byte>)
    requires |b'.data| == |b.data| && InBounds(|b.data|, b.offsets) && KeepsLength(f)
    requires MapRecords(b.data + (bytes + after), b.offsets, f) == Rewritten(b'.data + (bytes + after), count)
    ensures MapRecords(b.data + bytes + after, b.offsets, f) == Rewritten(b'.data + bytes + after, count)
  {
    assert b.data + bytes + after == b.data + (bytes + after);
    assert b'.data + bytes + after == b'.data + (bytes + after);
  }

  lemma MapRecordPushed(b: Built, b': Built, bytes: seq<byte>, count: nat, f: (seq<byte>, nat) -> Rewritten,
      after: seq<byte>)
    requires |b'.data| == |b.data| && InBounds(|b.data|, b.offsets) && KeepsLength(f) && |bytes| == SLOT_SIZE
    requires var more := Zeros(Padding(|b.data|)) + bytes + after;
             MapRecords(b.data + more, b.offsets, f) == Rewritten(b'.data + more, count)
    ensures var zeros := Zeros(Padding(|b.data|));
            && InBounds(|b.data + zeros + bytes + after|, b.offsets + [|b.data| + |zeros|])
            && MapRecords(b.data + zeros + bytes + after, b.offsets + [|b.data| + |zeros|], f)
               == Rewritten(b'.data + zeros + f(bytes, count).data + after, f(bytes, count).count)
  {
    hide MapRecords, Splice;
    var zeros := Zeros(Padding(|b.data|));
    var more := zeros + bytes + after;
    assert b.data + zeros + bytes + after == b.data + more;
    assert b'.data + more == (b'.data + zeros) + bytes + after;
    MapSnoc(b.data + more, b.offsets, |b.data + zeros|, f);
    SpliceRecord(b'.data + zeros, bytes, after, f(bytes, count).data);
  }

  lemma MapPushed(b: Built, b': Built, c: Chunk, count: nat, f: (seq<byte>, nat) -> Rewritten, after: seq<byte>)
    requires |b'.data| == |b.data| && InBounds(|b.data|, b.offsets) && KeepsLength(f)
    requires MapRecords(b.data + (Tail(b, c) + after), b.offsets, f) == Rewritten(b'.data + (Tail(b, c) + after), count)
    ensures var p, (c', count') := PushChunk(b, c), MapChunk(c, count, f);
            && InBounds(|p.data + after|, p.offsets)
            && MapRecords(p.data + after, p.offsets, f) == Rewritten(PushChunk(b', c').data + after, count')
  {
    hide MapRecords;
    if c.Plain? {
      MapPlainPushed(b, b', c.bytes, count, f, after);
    } else {
      MapRecordPushed(b, b', c.bytes, count, f, after);
    }
  }

  /** Rewriting the assembled bytes is assembling the rewritten chunks. */
  lemma {:induction false} MapAssembled(chunks: seq<Chunk>, f: (seq<byte>, nat) -> Rewritten, after: seq<byte>)
    requires KeepsLength(f)
    ensures InBounds(|Assemble(chunks).data + after|, Assemble(chunks).offsets)
    ensures MapRecords(Assemble(chunks).data + after, Assemble(chunks).offsets, f)
         == Rewritten(Assemble(MapChunks(chunks, f).chunks).data + after, MapChunks(chunks, f).count)
    decreases |chunks|
  {
    AssembleSpaced(chunks);
    if chunks == [] {
    } else {
      var front, last := chunks[..|chunks| - 1], chunks[|chunks| - 1];
      var m := MapChunks(front, f);
      AssembleSpaced(front);
      SameLayout(front, m.chunks);
      MapAssembled(front, f, Tail(Assemble(front), last) + after);
      AssembleSnoc(m.chunks, MapChunk(last, m.count, f).0);
      MapPushed(Assemble(front), Assemble(m.chunks), last, m.count, f, after);
    }
  }

  /* --------------------------------------------- collecting from records */

  /** Walks the table in order and concatenates what `g` finds in each record. */
  ghost function Collect<T>(data: seq<byte>, offsets: seq<nat>, g: seq<byte> -> seq<T>): seq<T>
    requires InBounds(|data|, offsets)
  {
    if offsets == [] then []
    else Collect(data, offsets[..|offsets| - 1], g) + g(RecordAt(data, offsets[|offsets| - 1]))
  }

  ghost function CollectChunks<T>(chunks: seq<Chunk>, g: seq<byte> -> seq<T>): seq<T> {
    if chunks == [] then []
    else
      var last := chunks[|chunks| - 1];
      CollectChunks(chunks[..|chunks| - 1], g) + if last.Record? then g(last.bytes) else []
  }

  lemma CollectSnoc<T>(data: seq<byte>, offsets: seq<nat>, last: nat, g: seq<byte> -> seq<T>)
    requires InBounds(|data|, offsets) && last + SLOT_SIZE <= |data|
    ensures InBounds(|data|, offsets + [last])
    ensures Collect(data, offsets + [last], g) == Collect(data, offsets, g) + g(RecordAt(data, last))
  {
    assert (offsets + [last])[..|offsets|] == offsets;
  }

  lemma {:induction false} CollectUnderAppend<T>(data: seq<byte>, offsets: seq<nat>, after: seq<byte>,
      g: seq<byte> -> seq<T>)
    requires InBounds(|data|, offsets)
    ensures Collect(data + after, offsets, g) == Collect(data, offsets, g)
    decreases |offsets|
  {
    if offsets == [] {
    } else {
      CollectUnderAppend(data, offsets[..|offsets| - 1], after, g);
      assert RecordAt(data + after, offsets[|offsets| - 1]) == RecordAt(data, offsets[|offsets| - 1]);
    }
  }

  lemma CollectRecordPushed<T>(b: Built, bytes: seq<byte>, g: seq<byte> -> seq<T>)
    requires InBounds(|b.data|, b.offsets) && |bytes| == SLOT_SIZE
    ensures var p := PushChunk(b, Record(bytes));
            && InBounds(|p.data|, p.offsets)
            && Collect(p.data, p.offsets, g) == Collect(b.data, b.offsets, g) + g(bytes)
  {
    hide Collect, Padding;
    var zeros := Zeros(Padding(|b.data|));
    var data := b.data + zeros + bytes;
    assert data == b.data + (zeros + bytes);
    assert RecordAt(data, |b.data| + |zeros|) == bytes;
    CollectUnderAppend(b.data, b.offsets, zeros + bytes, g);
    CollectSnoc(data, b.offsets, |b.data| + |zeros|, g);
  }

  lemma CollectPushed<T>(b: Built, c: Chunk, g: seq<byte> -> seq<T>)
    requires InBounds(|b.data|, b.offsets)
    ensures var p := PushChunk(b, c);
            && InBounds(|p.data|, p.offsets)
            && Collect(p.data, p.offsets, g) == Collect(b.data, b.offsets, g) + if c.Record? then g(c.bytes) else []
  {
    hide Collect;
    if c.Plain? {
      CollectUnderAppend(b.data, b.offsets, c.bytes, g);
    } else {
      CollectRecordPushed(b, c.bytes, g);
    }
  }

  /** The walk over the assembled bytes meets the record chunks, in order. */
  lemma {:induction false} CollectAssembled<T>(chunks: seq<Chunk>, g: seq<byte> -> seq<T>)
    ensures InBounds(|Assemble(chunks).data|, Assemble(chunks).offsets)
    ensures Collect(Assemble(chunks).data, Assemble(chunks).offsets, g) == CollectChunks(chunks, g)
    decreases |chunks|
  {
    AssembleSpaced(chunks);
    if chunks == [] {
    } else {
      hide PushChunk, Collect;
      CollectAssembled(chunks[..|chunks| - 1], g);
      CollectPushed(Assemble(chunks[..|chunks| - 1]), chunks[|chunks| - 1], g);
    }
  }
}
