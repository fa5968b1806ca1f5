/** The frames of the return stream built from the values they carry, and what
    the loop does about each of them. */
module Messages {
  import opened Sys
  import opened RefState
  import opened Framing
  import opened ReturnLoop

  /* -------------------------------------------------------------- records */

  /** `BinderPtrCookie` and the target of a transaction. */
  function EncodeId(id: ObjectId): (bs: seq<byte>)
    ensures |bs| == PTR_COOKIE_SIZE
  {
    Le(id.id, 8) + Le(id.cookie, 8)
  }

  /** `BinderTransactionData`, field after field. */
  function EncodeTransaction(tx: TransactionData): (bs: seq<byte>)
    ensures |bs| == TRANSACTION_SIZE
  {
    EncodeId(tx.target) + Le(tx.code, 4) + Le(tx.flags, 4) + Le(tx.senderPid, 4) + Le(tx.senderEuid, 4)
    + Le(tx.dataSize, 8) + Le(tx.offsetsSize, 8) + Le(tx.buffer, 8) + Le(tx.offsets, 8)
  }

  lemma WordAt(p: seq<byte>, from: nat, n: u32)
    requires from + 4 <= |p| && p[from..from + 4] == Le(n, 4)
    ensures Word(p, from) == n
  {
    WidthFacts();
    LeRoundTrip(n, 4);
  }

  lemma LongAt(p: seq<byte>, from: nat, n: u64)
    requires from + 8 <= |p| && p[from..from + 8] == Le(n, 8)
    ensures Long(p, from) == n
  {
    WidthFacts();
    LeRoundTrip(n, 8);
  }

  lemma IdDecoded(id: ObjectId, more: seq<byte>)
    ensures PtrCookie(EncodeId(id) + more) == id
  {
    hide Word, Long;
    var p := EncodeId(id) + more;
    assert p[0..8] == Le(id.id, 8) && p[8..16] == Le(id.cookie, 8);
    LongAt(p, 0, id.id);
    LongAt(p, 8, id.cookie);
  }

  /** Main result: every field of a transaction is read back as it was written,
      whatever follows the record. */
  lemma TransactionRoundTrip(tx: TransactionData, more: seq<byte>)
    ensures DecodeTransaction(EncodeTransaction(tx) + more) == tx
  {
    hide Word, Long;
    var p := EncodeTransaction(tx) + more;
    assert p[0..8] == Le(tx.target.id, 8) && p[8..16] == Le(tx.target.cookie, 8);
    assert p[16..20] == Le(tx.code, 4) && p[20..24] == Le(tx.flags, 4);
    assert p[24..28] == Le(tx.senderPid, 4) && p[28..32] == Le(tx.senderEuid, 4);
    assert p[32..40] == Le(tx.dataSize, 8) && p[40..48] == Le(tx.offsetsSize, 8);
    assert p[48..56] == Le(tx.buffer, 8) && p[56..64] == Le(tx.offsets, 8);
    LongAt(p, 0, tx.target.id);
    LongAt(p, 8, tx.target.cookie);
    WordAt(p, 16, tx.code);
    WordAt(p, 20, tx.flags);
    WordAt(p, 24, tx.senderPid);
    WordAt(p, 28, tx.senderEuid);
    LongAt(p, 32, tx.dataSize);
    LongAt(p, 40, tx.offsetsSize);
    LongAt(p, 48, tx.buffer);
    LongAt(p, 56, tx.offsets);
  }

  lemma WordOnto(p: seq<byte>, from: nat)
    requires from + 4 <= |p|
    ensures Le(Word(p, from), 4) == p[from..from + 4]
  {
    LeOfFromLe(p[from..from + 4]);
  }

  lemma LongOnto(p: seq<byte>, from: nat)
    requires from + 8 <= |p|
    ensures Le(Long(p, from), 8) == p[from..from + 8]
  {
    LeOfFromLe(p[from..from + 8]);
  }

  /** Nothing of a record is lost: every 64 bytes are a transaction's. */
  lemma TransactionOnto(p: seq<byte>)
    requires |p| == TRANSACTION_SIZE
    ensures EncodeTransaction(DecodeTransaction(p)) == p
  {
    hide Le, FromLe, Word, Long;
    LongOnto(p, 0);
    LongOnto(p, 8);
    WordOnto(p, 16);
    WordOnto(p, 20);
    WordOnto(p, 24);
    WordOnto(p, 28);
    LongOnto(p, 32);
    LongOnto(p, 40);
    LongOnto(p, 48);
    LongOnto(p, 56);
    assert p[0..8] + p[8..16] + p[16..20] + p[20..24] + p[24..28] + p[28..32] == p[0..32];
    assert p[32..40] + p[40..48] + p[48..56] + p[56..64] == p[32..64];
    assert p[0..32] + p[32..64] == p;
  }

  /* --------------------------------------------------------------- frames */

  /** A transaction, with or without the sender's security context. */
  function CallFrame(tx: TransactionData, secCtx: Option<u64>): Frame {
    match secCtx
    case None => Frame(Transaction, EncodeTransaction(tx))
    case Some(address) => Frame(TransactionSecCtx, EncodeTransaction(tx) + Le(address, 8))
  }

  function ReplyFrame(tx: TransactionData): Frame {
    Frame(Reply, EncodeTransaction(tx))
  }

  function IdFrame(k: Kind, id: ObjectId): Frame
    requires k in {Increfs, Acquire, Release, Decrefs}
  {
    Frame(k, EncodeId(id))
  }

  function DeathFrame(cookie: u64): Frame {
    Frame(DeadBinder, Le(cookie, 8))
  }

  function Bare(k: Kind): Frame
    requires Declared(k) == 0
  {
    Frame(k, [])
  }

  /** Main result: an incoming transaction is handed to its target, one way if
      its ONE_WAY flag says so and else with a reply. If the target has no
      handler, its own buffer is freed first, the caller of a two-way one gets an
      empty reply with its code and flags, and the loop reports that. */
  lemma CallHandled(tx: TransactionData, secCtx: Option<u64>, at: nat, w: World)
    ensures var e := EffectOf(CallFrame(tx, secCtx), at, w);
            var oneWay := tx.flags % 2 == 1;
            && (w.found(tx.target, at) && oneWay ==> e == Effect([Handle(tx)], None))
            && (w.found(tx.target, at) && !oneWay ==> e == Effect([HandleAndReply(tx)], None))
            && (!w.found(tx.target, at) ==> e.outcome == Some(Failed(ObjectNotFound)))
            && (!w.found(tx.target, at) && oneWay ==> e.actions == [FreeBuffer(tx.buffer)])
            && (!w.found(tx.target, at) && !oneWay ==>
                  e.actions == [FreeBuffer(tx.buffer), EmptyReply(tx.code, tx.flags)])
  {
    hide EncodeTransaction, DecodeTransaction, Le;
    var f := CallFrame(tx, secCtx);
    assert f.payload[..Taken(f.kind)] == f.payload;
    match secCtx {
      case None =>
        TransactionRoundTrip(tx, []);
        assert EncodeTransaction(tx) + [] == f.payload;
      case Some(address) =>
        TransactionRoundTrip(tx, Le(address, 8));
    }
  }

  /** Main result: a reply is returned with the code, the buffers and the sizes of
      the frame, the offsets' size in entries of 8 bytes. */
  lemma ReplyReturned(tx: TransactionData, at: nat, w: World)
    ensures EffectOf(ReplyFrame(tx), at, w) ==
            Effect([], Some(Replied(tx.code, tx.buffer, tx.dataSize, tx.offsets, tx.offsetsSize / 8)))
  {
    hide EncodeTransaction, DecodeTransaction;
    var f := ReplyFrame(tx);
    assert f.payload[..Taken(f.kind)] == f.payload;
    TransactionRoundTrip(tx, []);
    assert EncodeTransaction(tx) + [] == f.payload;
  }

  /** Main result: what the reference frames do to the object they name: INCREFS
      is only acknowledged, ACQUIRE counts and is acknowledged, RELEASE counts,
      DECREFS does nothing. */
  lemma ReferencesCounted(id: ObjectId, at: nat, w: World)
    ensures EffectOf(IdFrame(Increfs, id), at, w) == Effect([IncrefsDone(id)], None)
    ensures EffectOf(IdFrame(Acquire, id), at, w) == Effect([Count(id, IncRemote), AcquireDone(id)], None)
    ensures EffectOf(IdFrame(Release, id), at, w) == Effect([Count(id, DecRemote)], None)
    ensures EffectOf(IdFrame(Decrefs, id), at, w) == Effect([], None)
  {
    hide PtrCookie;
    var p := EncodeId(id);
    assert p[..PTR_COOKIE_SIZE] == p && p + [] == p;
    IdDecoded(id, []);
  }

  /** Main result: the death of a binder cancels the token of its cookie and is
      acknowledged with the same cookie. */
  lemma DeathReported(cookie: u64, at: nat, w: World)
    ensures EffectOf(DeathFrame(cookie), at, w) == Effect([CancelDeath(cookie), DeadBinderDone(cookie)], None)
  {
    var p := Le(cookie, 8);
    assert p[..8] == p && p[0..8] == p;
    LongAt(p, 0, cookie);
  }

  /** Main result: each failed reply returns its own error, and the full buffer of
      a one-way send is told from other failures by ENOSPC. */
  lemma FailuresReturned(at: nat, w: World)
    ensures EffectOf(Bare(DeadReplyReturn), at, w) == Effect([], Some(Failed(DeadReply)))
    ensures EffectOf(Bare(FrozenReplyReturn), at, w) == Effect([], Some(Failed(FrozenReply)))
    ensures EffectOf(Bare(FailedReplyReturn), at, w) ==
            Effect([], Some(Failed(if w.noSpace then AsyncBufferFull else FailedReply)))
    ensures EffectOf(Bare(SpawnLooper), at, w) == Effect([StartLooper], None)
  {
  }

  /** The other kinds are taken and nothing is done about them. */
  lemma OthersIgnored(f: Frame, at: nat, w: World)
    requires f.kind in {Error, OkReturn, AcquireResult, TransactionComplete, Decrefs, AttemptAcquire, Noop,
                        FinishedReturn, ClearDeathNotificationDone, OnewaySpamSuspect, TransactionPendingFrozen,
                        FrozenBinder, ClearFreezeNotificationDone}
    ensures EffectOf(f, at, w) == Effect([], None)
  {
  }

  /* ------------------------------------------------------- streams of calls */

  /** A transaction as the driver queued it for this process. */
  datatype Call = Call(tx: TransactionData, secCtx: Option<u64>)

  function CallFrames(cs: seq<Call>): (fs: seq<Frame>)
    ensures |fs| == |cs|
  {
    if cs == [] then [] else [CallFrame(cs[0].tx, cs[0].secCtx)] + CallFrames(cs[1..])
  }

  /** What is done for a call whose target has a handler. */
  function Delivery(c: Call): Action {
    if c.tx.flags % 2 == 1 then Handle(c.tx) else HandleAndReply(c.tx)
  }

  function Deliveries(cs: seq<Call>): seq<Action> {
    if cs == [] then [] else [Delivery(cs[0])] + Deliveries(cs[1..])
  }

  lemma {:induction false} CallsActed(cs: seq<Call>, at: nat, w: World)
    requires forall c, k | c in cs :: w.found(c.tx.target, k)
    ensures Handled(CallFrames(cs), at, w) == CallFrames(cs) && InSize(CallFrames(cs))
    ensures Actions(CallFrames(cs), at, w) == Deliveries(cs)
  {
    if cs == [] {
    } else {
      hide EffectOf, EncodeTransaction;
      CallHandled(cs[0].tx, cs[0].secCtx, at, w);
      CallsActed(cs[1..], After(CallFrame(cs[0].tx, cs[0].secCtx), at), w);
      assert CallFrames(cs)[1..] == CallFrames(cs[1..]);
      assert CallFrames(cs)[0].kind != AttemptAcquire;
    }
  }

  lemma {:induction false} EndsDrained(cs: seq<Call>, at: nat, w: World)
    requires forall c, k | c in cs :: w.found(c.tx.target, k)
    ensures EndOf(CallFrames(cs), at, w) == Drained
  {
    if cs == [] {
    } else {
      hide EffectOf, EncodeTransaction, EndOf;
      CallHandled(cs[0].tx, cs[0].secCtx, at, w);
      EndNext(CallFrames(cs), at, w);
      EndsDrained(cs[1..], After(CallFrame(cs[0].tx, cs[0].secCtx), at), w);
      assert CallFrames(cs)[1..] == CallFrames(cs[1..]);
    }
  }

  /** Main result: any number of calls, encoded one after the other, are delivered
      as they were sent, each once and in order, with a reply to exactly those
      that are not one way. */
  lemma CallsDelivered(cs: seq<Call>, at: nat, w: World)
    requires forall c, k | c in cs :: w.found(c.tx.target, k)
    ensures Run(Stream(CallFrames(cs)), at, w).actions == Deliveries(cs)
    ensures Run(Stream(CallFrames(cs)), at, w).verdict == Drained
  {
    hide Run, Stream, Actions, EndOf, Deliveries, CallFrames;
    CallsActed(cs, at, w);
    EndsDrained(cs, at, w);
    FramesHandled(CallFrames(cs), at, w);
  }
}
