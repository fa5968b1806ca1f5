/** The loop of `binder_write_read` that takes one read buffer apart. It is
    total: malformed input ends in the panic of a failed slice or size check. */
module ReturnLoop {
  import opened Sys
  import opened RefState
  import opened Framing

  datatype Failure =
    | ObjectNotFound | DeadReply | FailedReply | FrozenReply | AsyncBufferFull | NoDevice
    | WriteReadIoctlFailed(errno: int)

  datatype Outcome =
    | Replied(code: u32, buffer: u64, dataSize: u64, offsets: u64, offsetCount: u64)
    | Failed(failure: Failure)

  datatype TransactionData = TransactionData(
    target: ObjectId, code: u32, flags: u32, senderPid: u32, senderEuid: u32,
    dataSize: u64, offsetsSize: u64, buffer: u64, offsets: u64
  ) {
    predicate OneWay() {
      flags % 2 == 1
    }
  }

  function Word(p: seq<byte>, from: nat): u32
    requires from + 4 <= |p|
  {
    WidthFacts();
    FromLe(p[from..from + 4])
  }

  function Long(p: seq<byte>, from: nat): u64
    requires from + 8 <= |p|
  {
    WidthFacts();
    FromLe(p[from..from + 8])
  }

  function PtrCookie(p: seq<byte>): ObjectId
    requires |p| >= PTR_COOKIE_SIZE
  {
    ObjectId(Long(p, 0), Long(p, 8))
  }

  function DecodeTransaction(p: seq<byte>): TransactionData
    requires |p| >= TRANSACTION_SIZE
  {
    TransactionData(ObjectId(Long(p, 0), Long(p, 8)), Word(p, 16), Word(p, 20), Word(p, 24), Word(p, 28),
                    Long(p, 32), Long(p, 40), Long(p, 48), Long(p, 56))
  }

  /** What the loop does besides reading. */
  datatype Action =
    | Count(id: ObjectId, op: RefOp)   // if the id still has counts
    | IncrefsDone(id: ObjectId)
    | AcquireDone(id: ObjectId)
    | Handle(tx: TransactionData)         // one way
    | HandleAndReply(tx: TransactionData) // two way
    | FreeBuffer(buffer: u64)             // the payload is dropped unread
    | EmptyReply(code: u32, flags: u32)
    | CancelDeath(cookie: u64)            // if the cookie is registered
    | DeadBinderDone(cookie: u64)
    | StartLooper

  /** What the loop learns from outside the buffer: whether the handler lookup
      for a target succeeds when the frame at an offset is handled, and whether
      the extended error of a failed reply is ENOSPC. */
  datatype World = World(found: (ObjectId, nat) -> bool, noSpace: bool)

  datatype Effect = Effect(actions: seq<Action>, outcome: Option<Outcome>)

  function Incoming(tx: TransactionData, at: nat, w: World): Effect {
    if w.found(tx.target, at) then
      Effect([if tx.OneWay() then Handle(tx) else HandleAndReply(tx)], None)
    else
      Effect([FreeBuffer(tx.buffer)] + (if tx.OneWay() then [] else [EmptyReply(tx.code, tx.flags)]),
             Some(Failed(ObjectNotFound)))
  }

  /** The arm of a kind; an outcome leaves the function. */
  function Arm(k: Kind, p: seq<byte>, at: nat, w: World): Effect
    requires |p| == Taken(k)
  {
    match k
    case Transaction => Incoming(DecodeTransaction(p), at, w)
    case TransactionSecCtx => Incoming(DecodeTransaction(p), at, w)
    case Reply =>
      var tx := DecodeTransaction(p);
      Effect([], Some(Replied(tx.code, tx.buffer, tx.dataSize, tx.offsets, tx.offsetsSize / 8)))
    case DeadReplyReturn => Effect([], Some(Failed(DeadReply)))
    case FailedReplyReturn => Effect([], Some(Failed(if w.noSpace then AsyncBufferFull else FailedReply)))
    case FrozenReplyReturn => Effect([], Some(Failed(FrozenReply)))
    case Increfs => Effect([IncrefsDone(PtrCookie(p))], None)
    case Acquire => Effect([Count(PtrCookie(p), IncRemote), AcquireDone(PtrCookie(p))], None)
    case Release => Effect([Count(PtrCookie(p), DecRemote)], None)
    case DeadBinder => Effect([CancelDeath(Long(p, 0)), DeadBinderDone(Long(p, 0))], None)
    case SpawnLooper => Effect([StartLooper], None)
    case _ => Effect([], None)
  }

  datatype Verdict = Drained | Returned(outcome: Outcome) | Panicked

  /** `visits` are the offsets at which the loop looked for an opcode. */
  datatype Trace = Trace(visits: seq<nat>, actions: seq<Action>, verdict: Verdict)

  function Prepend(at: nat, actions: seq<Action>, t: Trace): Trace {
    Trace([at] + t.visits, actions + t.actions, t.verdict)
  }

  /** The loop from offset `at` on, with `rest` still unread. */
  function Run(rest: seq<byte>, at: nat, w: World): Trace
    decreases |rest|
  {
    if rest == [] then Trace([], [], Drained)
    else if |rest| < HEADER_SIZE then Trace([], [], Panicked)
    else
      var k := KindOf(Word(rest, 0));
      var n := HEADER_SIZE + if k.Some? then Taken(k.value) else 0;
      if |rest| < n then Trace([at], [], Panicked)
      else if k.None? then Prepend(at, [], Run(rest[n..], at + n, w))
      else
        var e := Arm(k.value, rest[HEADER_SIZE..n], at, w);
        if e.outcome.Some? then Trace([at], e.actions, Returned(e.outcome.value))
        else Prepend(at, e.actions, Run(rest[n..], at + n, w))
  }

  lemma PrependConcat(visits: seq<nat>, actions: seq<Action>, at: nat, more: seq<Action>, t: Trace)
    ensures Trace(visits + Prepend(at, more, t).visits, actions + Prepend(at, more, t).actions, t.verdict)
         == Trace((visits + [at]) + t.visits, (actions + more) + t.actions, t.verdict)
  {
  }

  /** One turn of the loop. */
  lemma RunTurn(rest: seq<byte>, at: nat, w: World)
    requires |rest| >= HEADER_SIZE
    ensures var k := KindOf(Word(rest, 0));
            var n := HEADER_SIZE + if k.Some? then Taken(k.value) else 0;
            if |rest| < n then Run(rest, at, w) == Trace([at], [], Panicked)
            else if k.None? then Run(rest, at, w) == Prepend(at, [], Run(rest[n..], at + n, w))
            else
              var e := Arm(k.value, rest[HEADER_SIZE..n], at, w);
              Run(rest, at, w) == if e.outcome.Some? then Trace([at], e.actions, Returned(e.outcome.value))
                                  else Prepend(at, e.actions, Run(rest[n..], at + n, w))
  {
    hide KindOf, Word, Taken, Arm;
  }

  lemma RunShort(rest: seq<byte>, at: nat, w: World)
    requires |rest| < HEADER_SIZE
    ensures Run(rest, at, w) == Trace([], [], if rest == [] then Drained else Panicked)
  {
  }

  /** The loop itself, over the 256-byte buffer that the driver filled up to
      `readConsumed`. */
  method TakeApart(readData: array<byte>, readConsumed: nat, w: World) returns (t: Trace)
    requires readConsumed <= readData.Length
    ensures t == Run(readData[..readConsumed], 0, w)
  {
    hide Arm, KindOf, Taken, Word, Run;
    ghost var all := readData[..readConsumed];
    var visits: seq<nat>, actions: seq<Action> := [], [];
    var consumed := 0;
    while consumed != readConsumed
      invariant consumed <= readConsumed
      invariant var more := Run(all[consumed..], consumed, w);
                Run(all, 0, w) == Trace(visits + more.visits, actions + more.actions, more.verdict)
      decreases readConsumed - consumed
    {
      var at := consumed;
      ghost var rest := all[at..];
      var readSlice := readData[consumed..readConsumed];
      assert readSlice == rest;
      if |readSlice| < HEADER_SIZE {
        RunShort(rest, at, w);
        return Trace(visits, actions, Panicked);
      }
      RunTurn(rest, at, w);
      var ret := KindOf(Word(readSlice, 0));
      consumed := consumed + HEADER_SIZE;
      visits := visits + [at];
      var n := if ret.Some? then Taken(ret.value) else 0;
      if |readSlice| - HEADER_SIZE < n {
        return Trace(visits, actions, Panicked);
      }
      consumed := consumed + n;
      assert rest[HEADER_SIZE + n..] == all[consumed..];
      if ret.Some? {
        var e := Arm(ret.value, readSlice[HEADER_SIZE..HEADER_SIZE + n], at, w);
        if e.outcome.Some? {
          return Trace(visits, actions + e.actions, Returned(e.outcome.value));
        }
        PrependConcat(visits[..|visits| - 1], actions, at, e.actions, Run(all[consumed..], consumed, w));
        actions := actions + e.actions;
      } else {
        PrependConcat(visits[..|visits| - 1], actions, at, [], Run(all[consumed..], consumed, w));
      }
    }
    RunShort(all[consumed..], consumed, w);
    t := Trace(visits, actions, Drained);
  }

  /* --------------------------------------------------------------- frames */

  datatype RawFrame = Frame(kind: Kind, payload: seq<byte>)

  /** What the driver writes: an opcode and the record it declares. */
  type Frame = f: RawFrame | |f.payload| == Declared(f.kind) witness Frame(Noop, [])

  function FrameBytes(f: Frame): (bs: seq<byte>)
    ensures |bs| == HEADER_SIZE + |f.payload|
  {
    Le(Code(f.kind), HEADER_SIZE) + f.payload
  }

  function Stream(fs: seq<Frame>): seq<byte> {
    if fs == [] then [] else FrameBytes(fs[0]) + Stream(fs[1..])
  }

  function After(f: Frame, at: nat): nat {
    at + |FrameBytes(f)|
  }

  /** The frame boundaries. */
  function Starts(fs: seq<Frame>, at: nat): (offsets: seq<nat>)
    ensures |offsets| == |fs|
  {
    if fs == [] then [] else [at] + Starts(fs[1..], After(fs[0], at))
  }

  function EffectOf(f: Frame, at: nat, w: World): Effect {
    Arm(f.kind, f.payload[..Taken(f.kind)], at, w)
  }

  function Actions(fs: seq<Frame>, at: nat, w: World): seq<Action> {
    if fs == [] then [] else EffectOf(fs[0], at, w).actions + Actions(fs[1..], After(fs[0], at), w)
  }

  /** The frames up to and including the first whose arm leaves the function. */
  function Handled(fs: seq<Frame>, at: nat, w: World): (hs: seq<Frame>)
    ensures hs <= fs
  {
    if fs == [] then []
    else if EffectOf(fs[0], at, w).outcome.Some? then [fs[0]]
    else [fs[0]] + Handled(fs[1..], After(fs[0], at), w)
  }

  /** How the last handled frame ends the loop. */
  function EndOf(fs: seq<Frame>, at: nat, w: World): Verdict {
    var hs := Handled(fs, at, w);
    if hs == [] then Drained
    else
      var last := |hs| - 1;
      match EffectOf(hs[last], Starts(hs, at)[last], w).outcome
      case Some(outcome) => Returned(outcome)
      case None => Drained
  }

  lemma EndNext(fs: seq<Frame>, at: nat, w: World)
    requires fs != [] && EffectOf(fs[0], at, w).outcome.None?
    ensures EndOf(fs, at, w) == EndOf(fs[1..], After(fs[0], at), w)
  {
    hide FrameBytes, EffectOf;
    var hs := Handled(fs, at, w);
    assert hs[1..] == Handled(fs[1..], After(fs[0], at), w);
    if |hs| > 1 {
      assert Starts(hs, at)[|hs| - 1] == Starts(hs[1..], After(fs[0], at))[|hs| - 2];
    }
  }

  /** Nothing but the last handled frame is terminal, and if the loop drains the
      stream it handled every frame. */
  lemma {:induction false} HandledExactly(fs: seq<Frame>, at: nat, w: World)
    ensures forall i | 0 <= i < |Handled(fs, at, w)| - 1 :: EffectOf(fs[i], Starts(fs, at)[i], w).outcome.None?
    ensures EndOf(fs, at, w).Drained? ==> Handled(fs, at, w) == fs
  {
    hide FrameBytes, EffectOf, EndOf;
    if fs == [] {
    } else {
      var at' := After(fs[0], at);
      HandledExactly(fs[1..], at', w);
      if EffectOf(fs[0], at, w).outcome.None? {
        EndNext(fs, at, w);
        forall i | 0 <= i < |Handled(fs, at, w)| - 1
          ensures EffectOf(fs[i], Starts(fs, at)[i], w).outcome.None?
        {
          if i > 0 {
            assert EffectOf(fs[1..][i - 1], Starts(fs[1..], at')[i - 1], w).outcome.None?;
          }
        }
      } else {
        OneHandled(fs, at, w);
      }
    }
  }

  predicate InSize(fs: seq<Frame>) {
    forall i | 0 <= i < |fs| :: fs[i].kind != AttemptAcquire
  }

  lemma HeaderRead(f: Frame, rest: seq<byte>)
    ensures var bs := FrameBytes(f) + rest;
            && KindOf(Word(bs, 0)) == Some(f.kind)
            && bs[HEADER_SIZE..HEADER_SIZE + Taken(f.kind)] == f.payload[..Taken(f.kind)]
            && (f.kind != AttemptAcquire ==> bs[HEADER_SIZE + Taken(f.kind)..] == rest)
            && (f.kind == AttemptAcquire ==> bs[HEADER_SIZE + Taken(f.kind)..] == f.payload[16..] + rest)
  {
    hide Code, KindOf;
    var bs := FrameBytes(f) + rest;
    assert bs[0..4] == Le(Code(f.kind), HEADER_SIZE);
    WidthFacts();
    LeRoundTrip(Code(f.kind), HEADER_SIZE);
    CodeFields(f.kind);
    SizesAgree(f.kind);
    var t := Taken(f.kind);
    assert bs[HEADER_SIZE + t..] == f.payload[t..] + rest;
    if f.kind != AttemptAcquire {
      assert f.payload[t..] + rest == rest;
    }
  }

  /** One turn of the loop over a frame. */
  lemma FrameTurn(f: Frame, rest: seq<byte>, at: nat, w: World)
    requires f.kind != AttemptAcquire
    ensures Run(FrameBytes(f) + rest, at, w) ==
            var e := EffectOf(f, at, w);
            if e.outcome.Some? then Trace([at], e.actions, Returned(e.outcome.value))
            else Prepend(at, e.actions, Run(rest, After(f, at), w))
  {
    hide FrameBytes, Arm, KindOf, Declared;
    HeaderRead(f, rest);
    SizesAgree(f.kind);
    CodeFields(f.kind);
  }

  /** Main result: on any concatenation of frames, ATTEMPT_ACQUIRE aside, the
      loop looks for opcodes exactly at the boundaries of the frames up to the
      first terminal one, performs exactly their actions in order, and returns
      that frame's outcome, or consumes everything if there is none. */
  lemma {:induction false} FramesHandled(fs: seq<Frame>, at: nat, w: World)
    requires InSize(Handled(fs, at, w))
    ensures var hs := Handled(fs, at, w);
            Run(Stream(fs), at, w) == Trace(Starts(hs, at), Actions(hs, at, w), EndOf(fs, at, w))
  {
    hide FrameBytes, EffectOf, Run, EndOf;
    if fs != [] {
      assert Handled(fs, at, w)[0] == fs[0];
      FrameTurn(fs[0], Stream(fs[1..]), at, w);
      if EffectOf(fs[0], at, w).outcome.None? {
        EndNext(fs, at, w);
        assert Handled(fs, at, w)[1..] == Handled(fs[1..], After(fs[0], at), w);
        FramesHandled(fs[1..], After(fs[0], at), w);
      } else {
        OneHandled(fs, at, w);
      }
    } else {
      NoneHandled(at, w);
    }
  }

  lemma NoneHandled(at: nat, w: World)
    ensures Run([], at, w) == Trace([], [], EndOf([], at, w))
  {
  }

  lemma OneHandled(fs: seq<Frame>, at: nat, w: World)
    requires fs != [] && EffectOf(fs[0], at, w).outcome.Some?
    ensures EndOf(fs, at, w) == Returned(EffectOf(fs[0], at, w).outcome.value)
    ensures Actions(Handled(fs, at, w), at, w) == EffectOf(fs[0], at, w).actions
  {
    hide FrameBytes, EffectOf;
  }

  /** A transaction whose target, the first 16 bytes of it, has no handler. */
  predicate Orphan(f: Frame, at: nat, w: World) {
    f.kind in {Transaction, TransactionSecCtx} && !w.found(PtrCookie(f.payload), at)
  }

  /** Which frames end the loop: the four replies, and a transaction whose target
      has no handler. */
  lemma TerminalExactly(f: Frame, at: nat, w: World)
    ensures EffectOf(f, at, w).outcome.Some? <==>
              || f.kind == Reply || f.kind == DeadReplyReturn || f.kind == FailedReplyReturn
                  || f.kind == FrozenReplyReturn
              || Orphan(f, at, w)
    ensures EffectOf(f, at, w).outcome == Some(Failed(AsyncBufferFull)) <==> f.kind == FailedReplyReturn && w.noSpace
    ensures EffectOf(f, at, w).outcome == Some(Failed(ObjectNotFound)) <==>
              Orphan(f, at, w)
  {
    hide Long, Word;
    assert f.payload[..|f.payload|] == f.payload;
  }

  /* ------------------------------------------------ losing the boundaries */

  /** A turn over an ATTEMPT_ACQUIRE frame stops 8 bytes short of its end. */
  lemma AttemptTurn(f: Frame, rest: seq<byte>, at: nat, w: World)
    requires f.kind == AttemptAcquire
    ensures EffectOf(f, at, w) == Effect([], None)
    ensures Run(FrameBytes(f) + rest, at, w) == Prepend(at, [], Run(f.payload[16..] + rest, at + 20, w))
  {
    HeaderRead(f, rest);
  }

  lemma FirstVisit(rest: seq<byte>, at: nat, w: World)
    requires |rest| >= HEADER_SIZE
    ensures Run(rest, at, w).visits != [] && Run(rest, at, w).visits[0] == at
  {
  }

  /** Main result: the loop stays on the frame boundaries exactly if none of the
      frames it handles is an ATTEMPT_ACQUIRE. */
  lemma {:induction false} OnBoundaries(fs: seq<Frame>, at: nat, w: World)
    ensures Run(Stream(fs), at, w).visits == Starts(Handled(fs, at, w), at) <==> InSize(Handled(fs, at, w))
  {
    hide FrameBytes, EffectOf, Run;
    var hs := Handled(fs, at, w);
    if InSize(hs) {
      FramesHandled(fs, at, w);
    } else {
      var f := fs[0];
      assert hs[0] == f;
      if f.kind == AttemptAcquire {
        AttemptTurn(f, Stream(fs[1..]), at, w);
        FirstVisit(f.payload[16..] + Stream(fs[1..]), at + 20, w);
        assert Run(Stream(fs), at, w).visits[1] == at + 20;
        assert |hs| > 1 ==> Starts(hs, at)[1] == After(f, at) == at + 28;
      } else {
        FrameTurn(f, Stream(fs[1..]), at, w);
        assert EffectOf(f, at, w).outcome.None?;
        assert hs[1..] == Handled(fs[1..], After(f, at), w);
        OnBoundaries(fs[1..], After(f, at), w);
        assert Starts(hs, at)[1..] == Starts(hs[1..], After(f, at));
        assert Run(Stream(fs), at, w).visits[1..] == Run(Stream(fs[1..]), After(f, at), w).visits;
      }
    }
  }

  /* --------------------------------------------- what the driver relies on */

  /** Every ACQUIRE_DONE comes right after the count was raised, and every raise
      is followed by its ACQUIRE_DONE. */
  ghost predicate Paired(actions: seq<Action>) {
    && (forall i | 0 <= i < |actions| && actions[i].AcquireDone? ::
          i > 0 && actions[i - 1] == Count(actions[i].id, IncRemote))
    && (forall i | 0 <= i < |actions| && actions[i].Count? && actions[i].op == IncRemote ::
          i + 1 < |actions| && actions[i + 1] == AcquireDone(actions[i].id))
  }

  lemma PairedConcat(a: seq<Action>, b: seq<Action>)
    requires Paired(a) && Paired(b)
    ensures Paired(a + b)
  {
  }

  lemma ArmPaired(k: Kind, p: seq<byte>, at: nat, w: World)
    requires |p| == Taken(k)
    ensures Paired(Arm(k, p, at, w).actions)
    ensures forall a | a in Arm(k, p, at, w).actions && a.Count? :: a.op in {IncRemote, DecRemote}
  {
    hide DecodeTransaction, Long;
  }

  /** Main result: whatever bytes the buffer holds, the count goes up before
      ACQUIRE_DONE allows the driver to release, and only remote counts move. */
  lemma {:induction false} CountedBeforeDone(rest: seq<byte>, at: nat, w: World)
    ensures Paired(Run(rest, at, w).actions)
    ensures forall a | a in Run(rest, at, w).actions && a.Count? :: a.op in {IncRemote, DecRemote}
    decreases |rest|
  {
    hide Arm, KindOf, Taken, Word, Paired;
    Nothing();
    if |rest| < HEADER_SIZE {
    } else {
      var k := KindOf(Word(rest, 0));
      var n := HEADER_SIZE + if k.Some? then Taken(k.value) else 0;
      if |rest| >= n {
        CountedBeforeDone(rest[n..], at + n, w);
        if k.None? {
          PairedConcat([], Run(rest[n..], at + n, w).actions);
        } else {
          ArmPaired(k.value, rest[HEADER_SIZE..n], at, w);
          PairedConcat(Arm(k.value, rest[HEADER_SIZE..n], at, w).actions, Run(rest[n..], at + n, w).actions);
        }
      }
    }
  }

  lemma Nothing()
    ensures Paired([])
  {
  }

  predicate IsReply(a: Action) {
    a.HandleAndReply? || a.EmptyReply?
  }

  function Replies(actions: seq<Action>): nat {
    if actions == [] then 0 else (if IsReply(actions[0]) then 1 else 0) + Replies(actions[1..])
  }

  lemma {:induction false} RepliesConcat(a: seq<Action>, b: seq<Action>)
    ensures Replies(a + b) == Replies(a) + Replies(b)
  {
    if a == [] {
      assert a + b == b;
    } else {
      RepliesConcat(a[1..], b);
      assert (a + b)[1..] == a[1..] + b;
    }
  }

  /** ONE_WAY is the lowest bit of the flags, the word at offset 20. */
  predicate TwoWay(f: Frame) {
    f.kind in {Transaction, TransactionSecCtx} && f.payload[20] % 2 == 0
  }

  lemma OneWayBit(p: seq<byte>)
    requires |p| >= TRANSACTION_SIZE
    ensures DecodeTransaction(p).OneWay() <==> p[20] % 2 == 1
  {
    hide Long;
    var bs := p[20..24];
    assert FromLe(bs) == bs[0] + 2 * (128 * FromLe(bs[1..]));
  }

  function TwoWays(fs: seq<Frame>): nat {
    if fs == [] then 0 else (if TwoWay(fs[0]) then 1 else 0) + TwoWays(fs[1..])
  }

  /** Every two-way transaction that is handled is answered exactly once, with
      an empty reply if its target is gone; nothing else is ever answered. */
  lemma {:induction false} AnsweredOnce(hs: seq<Frame>, at: nat, w: World)
    ensures Replies(Actions(hs, at, w)) == TwoWays(hs)
  {
    if hs == [] {
    } else {
      hide FrameBytes, DecodeTransaction;
      var f := hs[0];
      AnsweredOnce(hs[1..], After(f, at), w);
      RepliesConcat(EffectOf(f, at, w).actions, Actions(hs[1..], After(f, at), w));
      AnsweredFrame(f, at, w);
    }
  }

  lemma {:induction false} NoReplies(actions: seq<Action>)
    requires forall a | a in actions :: !IsReply(a)
    ensures Replies(actions) == 0
  {
    if actions == [] {
    } else {
      NoReplies(actions[1..]);
    }
  }

  lemma IncomingAnswered(tx: TransactionData, at: nat, w: World)
    ensures Replies(Incoming(tx, at, w).actions) == if tx.OneWay() then 0 else 1
  {
    if !w.found(tx.target, at) {
      RepliesConcat([FreeBuffer(tx.buffer)], if tx.OneWay() then [] else [EmptyReply(tx.code, tx.flags)]);
    }
  }

  lemma AnsweredFrame(f: Frame, at: nat, w: World)
    ensures Replies(EffectOf(f, at, w).actions) == if TwoWay(f) then 1 else 0
  {
    hide DecodeTransaction, Long, Replies;
    assert f.payload[..|f.payload|] == f.payload;
    if f.kind in {Transaction, TransactionSecCtx} {
      OneWayBit(f.payload);
      IncomingAnswered(DecodeTransaction(f.payload), at, w);
    } else {
      NoReplies(EffectOf(f, at, w).actions);
    }
  }
}
