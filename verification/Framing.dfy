/** The return stream: how its opcodes encode their sizes, and the loop that
    takes one read buffer apart and acts on it. */
module Framing {
  import opened Sys

  /* -------------------------------------------------------------- opcodes */

  datatype Kind =
    | Error | OkReturn | TransactionSecCtx | Transaction | Reply | AcquireResult | DeadReplyReturn
    | TransactionComplete | Increfs | Acquire | Release | Decrefs | AttemptAcquire | Noop | SpawnLooper
    | FinishedReturn | DeadBinder | ClearDeathNotificationDone | FailedReplyReturn | FrozenReplyReturn
    | OnewaySpamSuspect | TransactionPendingFrozen | FrozenBinder | ClearFreezeNotificationDone

  const INT_SIZE: nat := 4
  const POINTER_SIZE: nat := 8
  const PTR_COOKIE_SIZE: nat := 16
  const PRIORITY_PTR_COOKIE_SIZE: nat := 24
  const TRANSACTION_SIZE: nat := 64
  const FROZEN_INFO_SIZE: nat := 16

  function Nr(k: Kind): byte {
    match k
    case Error => 0
    case OkReturn => 1
    case TransactionSecCtx => 2
    case Transaction => 2
    case Reply => 3
    case AcquireResult => 4
    case DeadReplyReturn => 5
    case TransactionComplete => 6
    case Increfs => 7
    case Acquire => 8
    case Release => 9
    case Decrefs => 10
    case AttemptAcquire => 11
    case Noop => 12
    case SpawnLooper => 13
    case FinishedReturn => 14
    case DeadBinder => 15
    case ClearDeathNotificationDone => 16
    case FailedReplyReturn => 17
    case FrozenReplyReturn => 18
    case OnewaySpamSuspect => 19
    case TransactionPendingFrozen => 20
    case FrozenBinder => 21
    case ClearFreezeNotificationDone => 22
  }

  /** The size of the record that the opcode is declared with. */
  function Declared(k: Kind): (n: nat)
    ensures n <= 72
  {
    match k
    case Error => INT_SIZE
    case TransactionSecCtx => TRANSACTION_SIZE + POINTER_SIZE
    case Transaction => TRANSACTION_SIZE
    case Reply => TRANSACTION_SIZE
    case AcquireResult => INT_SIZE
    case Increfs => PTR_COOKIE_SIZE
    case Acquire => PTR_COOKIE_SIZE
    case Release => PTR_COOKIE_SIZE
    case Decrefs => PTR_COOKIE_SIZE
    case AttemptAcquire => PRIORITY_PTR_COOKIE_SIZE
    case DeadBinder => POINTER_SIZE
    case ClearDeathNotificationDone => POINTER_SIZE
    case FrozenBinder => FROZEN_INFO_SIZE
    case ClearFreezeNotificationDone => POINTER_SIZE
    case _ => 0
  }

  /** `read::<T>(b'r', nr)` for a record, `none(b'r', nr)` without one. */
  function Code(k: Kind): u32 {
    (if Declared(k) == 0 then 0 else 0x8000_0000) + Declared(k) * 0x1_0000 + 0x7200 + Nr(k)
  }

  /** The size field of an opcode. */
  function EncodedSize(code: u32): nat {
    code / 0x1_0000 % 0x4000
  }

  /** The kind with this sequence number; two share number 2. */
  function Candidate(nr: byte, size: nat): Option<Kind> {
    if nr == 0 then Some(Error)
    else if nr == 1 then Some(OkReturn)
    else if nr == 2 then (if size == Declared(Transaction) then Some(Transaction) else Some(TransactionSecCtx))
    else if nr == 3 then Some(Reply)
    else if nr == 4 then Some(AcquireResult)
    else if nr == 5 then Some(DeadReplyReturn)
    else if nr == 6 then Some(TransactionComplete)
    else if nr == 7 then Some(Increfs)
    else if nr == 8 then Some(Acquire)
    else if nr == 9 then Some(Release)
    else if nr == 10 then Some(Decrefs)
    else if nr == 11 then Some(AttemptAcquire)
    else if nr == 12 then Some(Noop)
    else if nr == 13 then Some(SpawnLooper)
    else if nr == 14 then Some(FinishedReturn)
    else if nr == 15 then Some(DeadBinder)
    else if nr == 16 then Some(ClearDeathNotificationDone)
    else if nr == 17 then Some(FailedReplyReturn)
    else if nr == 18 then Some(FrozenReplyReturn)
    else if nr == 19 then Some(OnewaySpamSuspect)
    else if nr == 20 then Some(TransactionPendingFrozen)
    else if nr == 21 then Some(FrozenBinder)
    else if nr == 22 then Some(ClearFreezeNotificationDone)
    else None
  }

  /** The kind that has this opcode; None if the loop does not know it. */
  function KindOf(code: u32): (k: Option<Kind>)
    ensures k.Some? ==> code == Code(k.value)
  {
    var c := Candidate(code % 0x100, EncodedSize(code));
    if c.Some? && Code(c.value) == code then c else None
  }

  /** How many bytes the arm of a kind takes after the opcode. */
  function Taken(k: Kind): (n: nat)
    ensures n <= 72
  {
    match k
    case Error => INT_SIZE
    case TransactionSecCtx => TRANSACTION_SIZE + POINTER_SIZE
    case Transaction => TRANSACTION_SIZE
    case Reply => TRANSACTION_SIZE
    case AcquireResult => INT_SIZE
    case Increfs => PTR_COOKIE_SIZE
    case Acquire => PTR_COOKIE_SIZE
    case Release => PTR_COOKIE_SIZE
    case Decrefs => PTR_COOKIE_SIZE
    case AttemptAcquire => PTR_COOKIE_SIZE // not the declared record
    case DeadBinder => POINTER_SIZE
    case ClearDeathNotificationDone => POINTER_SIZE
    case FrozenBinder => FROZEN_INFO_SIZE
    case ClearFreezeNotificationDone => POINTER_SIZE
    case _ => 0
  }

  /** The table the raw benchmark client skips frames with. */
  function BrPayloadLen(k: Kind): Option<nat> {
    match k
    case Noop => Some(0)
    case TransactionComplete => Some(0)
    case SpawnLooper => Some(0)
    case DeadReplyReturn => Some(0)
    case FailedReplyReturn => Some(0)
    case FrozenReplyReturn => Some(0)
    case OnewaySpamSuspect => Some(0)
    case OkReturn => Some(0)
    case FinishedReturn => Some(0)
    case Error => Some(4)
    case Transaction => Some(TRANSACTION_SIZE)
    case Reply => Some(TRANSACTION_SIZE)
    case Acquire => Some(PTR_COOKIE_SIZE)
    case Release => Some(PTR_COOKIE_SIZE)
    case Increfs => Some(PTR_COOKIE_SIZE)
    case Decrefs => Some(PTR_COOKIE_SIZE)
    case DeadBinder => Some(POINTER_SIZE)
    case ClearDeathNotificationDone => Some(POINTER_SIZE)
    case ClearFreezeNotificationDone => Some(POINTER_SIZE)
    case _ => None
  }

  lemma CandidateExact(k: Kind)
    ensures Candidate(Nr(k), Declared(k)) == Some(k)
  {
  }

  lemma Above16(q: nat, r: nat)
    requires r < 0x1_0000
    ensures (q * 0x1_0000 + r) / 0x1_0000 == q
  {
  }

  lemma Below8(q: nat, r: nat)
    requires r < 0x100
    ensures (q * 0x100 + r) % 0x100 == r
  {
  }

  lemma Below14(high: bool, size: nat)
    requires size < 0x4000
    ensures ((if high then 0x8000 else 0) + size) % 0x4000 == size
  {
  }

  lemma Fields(high: bool, size: nat, nr: byte)
    requires size < 0x4000
    ensures var code := (if high then 0x8000_0000 else 0) + size * 0x1_0000 + 0x7200 + nr;
            code / 0x1_0000 % 0x4000 == size && code % 0x100 == nr
  {
    var top := (if high then 0x8000 else 0) + size;
    Above16(top, 0x7200 + nr);
    Below14(high, size);
    Below8(top * 0x100 + 0x72, nr);
  }

  lemma CodeFields(k: Kind)
    ensures EncodedSize(Code(k)) == Declared(k) && Code(k) % 0x100 == Nr(k)
    ensures KindOf(Code(k)) == Some(k)
  {
    hide Declared, Nr, Candidate;
    Fields(Declared(k) != 0, Declared(k), Nr(k));
    CandidateExact(k);
  }

  /** The opcodes as the driver's interface numbers them. */
  lemma Opcodes()
    ensures Code(Error) == 0x8004_7200 && Code(OkReturn) == 0x7201
    ensures Code(TransactionSecCtx) == 0x8048_7202 && Code(Transaction) == 0x8040_7202
    ensures Code(Reply) == 0x8040_7203 && Code(AcquireResult) == 0x8004_7204
    ensures Code(DeadReplyReturn) == 0x7205 && Code(TransactionComplete) == 0x7206
    ensures Code(Increfs) == 0x8010_7207 && Code(Acquire) == 0x8010_7208
    ensures Code(Release) == 0x8010_7209 && Code(Decrefs) == 0x8010_720a
    ensures Code(AttemptAcquire) == 0x8018_720b && Code(Noop) == 0x720c
    ensures Code(SpawnLooper) == 0x720d && Code(FinishedReturn) == 0x720e
    ensures Code(DeadBinder) == 0x8008_720f && Code(ClearDeathNotificationDone) == 0x8008_7210
    ensures Code(FailedReplyReturn) == 0x7211 && Code(FrozenReplyReturn) == 0x7212
    ensures Code(OnewaySpamSuspect) == 0x7213 && Code(TransactionPendingFrozen) == 0x7214
    ensures Code(FrozenBinder) == 0x8010_7215 && Code(ClearFreezeNotificationDone) == 0x8008_7216
  {
  }

  /** Main result: an opcode identifies its kind, the loop takes exactly the
      size that the opcode encodes unless it is ATTEMPT_ACQUIRE, and the
      benchmark's table agrees with the loop wherever it has an answer. */
  lemma SizesAgree(k: Kind)
    ensures KindOf(Code(k)) == Some(k)
    ensures Taken(k) == EncodedSize(Code(k)) <==> k != AttemptAcquire
    ensures BrPayloadLen(k).Some? ==> BrPayloadLen(k).value == Taken(k) == EncodedSize(Code(k))
  {
    CodeFields(k);
  }
}
