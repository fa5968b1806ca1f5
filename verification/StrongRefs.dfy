/** The strong-reference protocol of one locally owned object: guards, any
    number of overlapping sends, any number of looper threads, and the driver,
    as one step system. Every step is one lock-protected update or one move of
    the driver, and all of them interleave freely. */
module StrongRefs {
  import opened RefState
  import opened Runs

  /* ---------------------------------------------------------------- sends */

  datatype Phase = Marking | InFlight | RollingBack | Succeeded | Failed

  /** One outgoing transaction or reply that embeds the object `copies` times.
      `credits` is bookkeeping: the marks of this send that raised `pending` since
      the last processed BR_ACQUIRE, less its own rollbacks. */
  datatype Send = Send(
    copies: nat,
    marked: nat,
    cleared: nat,
    credits: nat,
    phase: Phase,
    accepted: bool,     // the driver has translated the payload
    awaiting: bool      // accepted, and the driver's BR_ACQUIRE is not processed yet
  ) {
    /** Between the first mark and the return of the send function. */
    predicate Active() {
      phase in {Marking, InFlight, RollingBack}
    }

    /** Between its start and its acquire. */
    predicate Unsettled() {
      Active() || (phase == Succeeded && awaiting)
    }

    /** Its payload is with the driver and it has not been given up. */
    predicate Delivered() {
      accepted && phase in {InFlight, Succeeded}
    }
  }

  function NewSend(copies: nat): Send {
    Send(copies, 0, 0, 0, Marking, false, false)
  }

  function Acquired(s: Send): Send {
    s.(credits := 0, awaiting := false)
  }

  function CreditSum(sends: seq<Send>): nat {
    if sends == [] then 0 else sends[0].credits + CreditSum(sends[1..])
  }

  lemma {:induction false} CreditSumUpdate(sends: seq<Send>, i: nat, s: Send)
    requires i < |sends|
    ensures CreditSum(sends[i := s]) == CreditSum(sends) - sends[i].credits + s.credits
    ensures CreditSum(sends) >= sends[i].credits
  {
    if i > 0 {
      CreditSumUpdate(sends[1..], i - 1, s);
      assert sends[i := s][1..] == sends[1..][i - 1 := s];
    } else {
      assert sends[i := s][1..] == sends[1..];
    }
  }

  lemma {:induction false} CreditSumAppend(sends: seq<Send>, s: Send)
    ensures CreditSum(sends + [s]) == CreditSum(sends) + s.credits
  {
    if sends == [] {
      assert sends + [s] == [s];
    } else {
      CreditSumAppend(sends[1..], s);
      assert (sends + [s])[1..] == sends[1..] + [s];
    }
  }

  lemma {:induction false} CreditSumZero(sends: seq<Send>)
    requires forall i | 0 <= i < |sends| :: sends[i].credits == 0
    ensures CreditSum(sends) == 0
  {
    if sends == [] {
    } else {
      CreditSumZero(sends[1..]);
    }
  }

  /* ---------------------------------------------------------------- state */

  datatype State = State(
    counts: RefCounts,
    watch: int,        // last published total
    guards: nat,       // live counted local guards
    sends: seq<Send>,
    // driver side
    remoteRefs: nat,   // strong references held on behalf of other processes
    holds: bool,       // the driver counts this process as having acquired
    queued: bool,      // a BR_ACQUIRE is on some thread's work list
    owner: nat,        // the send whose thread has that BR_ACQUIRE on its list
    // looper side
    acquiresRead: nat, // BR_ACQUIRE handed to a looper, not yet processed
    donesOwed: nat,    // processed, ACQUIRE_DONE not yet written
    releasesRead: nat  // BR_RELEASE handed to a looper, not yet processed
  )

  /** A freshly registered object that nobody refers to. */
  predicate Initial(st: State) {
    && st.counts == NO_REFS && st.watch == 0 && st.guards == 0
    && |st.sends| == 0
    && st.remoteRefs == 0 && !st.holds && !st.queued
    && st.acquiresRead == 0 && st.donesOwed == 0 && st.releasesRead == 0
  }

  /** The driver's BR_ACQUIRE has not been processed yet. */
  predicate Outstanding(st: State) {
    st.queued || st.acquiresRead > 0
  }

  function Count(st: State, op: RefOp): State {
    var c := Mutate(st.counts, op);
    st.(counts := c, watch := c.Total())
  }

  datatype Step =
    | TakeGuard | DropGuard
    | StartSend(copies: nat)
    | MarkOne(i: nat)
    | Submit(i: nat)
    | Accept(i: nat, takesQueue: bool)
    | Succeed(i: nat)
    | BeginRollback(i: nat)
    | ClearOne(i: nat)
    | EndRollback(i: nat)
    | RemoteGain | RemoteLose
    | Withdraw
    | ReadAcquire | ProcessAcquire | SendAcquireDone
    | ReadRelease | ProcessRelease

  /** What may happen next. The driver's contract is in the arms from `Accept`
      on: one BR_ACQUIRE for each 0-to-1 transition, no BR_RELEASE before
      ACQUIRE_DONE, delivered messages processed in any order, and the thread
      that has the BR_ACQUIRE on its own list processes it before it sees that
      its send failed. */
  predicate Enabled(st: State, step: Step) {
    match step
    case TakeGuard => true
    case DropGuard => st.guards > 0
    case StartSend(copies) => copies > 0
    case MarkOne(i) => i < |st.sends| && st.sends[i].phase == Marking && st.sends[i].marked < st.sends[i].copies
    case Submit(i) => i < |st.sends| && st.sends[i].phase == Marking && st.sends[i].marked == st.sends[i].copies
    case Accept(i, _) => i < |st.sends| && st.sends[i].phase == InFlight && !st.sends[i].accepted
    case Succeed(i) => i < |st.sends| && st.sends[i].phase == InFlight
    case BeginRollback(i) =>
      i < |st.sends| && st.sends[i].phase == InFlight && !(Outstanding(st) && st.owner == i)
    case ClearOne(i) => i < |st.sends| && st.sends[i].phase == RollingBack && st.sends[i].cleared < st.sends[i].copies
    case EndRollback(i) => i < |st.sends| && st.sends[i].phase == RollingBack
        && st.sends[i].cleared == st.sends[i].copies
    case RemoteGain => st.remoteRefs > 0
    case RemoteLose => st.remoteRefs > 0
    case Withdraw => st.queued && st.remoteRefs == 0
    case ReadAcquire => st.queued
    case ProcessAcquire => st.acquiresRead > 0
    case SendAcquireDone => st.donesOwed > 0
    case ReadRelease => st.holds && st.remoteRefs == 0 && st.acquiresRead + st.donesOwed == 0
    case ProcessRelease => st.releasesRead > 0
  }

  function Apply(st: State, step: Step): State
    requires Enabled(st, step)
  {
    match step
    case TakeGuard => Count(st, IncLocal).(guards := st.guards + 1)
    case DropGuard => Count(st, DecLocal).(guards := st.guards - 1)
    case StartSend(copies) => st.(sends := st.sends + [NewSend(copies)])
    case MarkOne(i) =>
      var s := st.sends[i];
      var s' := s.(marked := s.marked + 1,
                   credits := if st.counts.remote == 0 then s.credits + 1 else s.credits);
      Count(st, Mark).(sends := st.sends[i := s'])
    case Submit(i) => st.(sends := st.sends[i := st.sends[i].(phase := InFlight)])
    case Accept(i, takesQueue) =>
      var outstanding := !st.holds || st.acquiresRead > 0;
      var s := st.sends[i].(accepted := true, awaiting := outstanding);
      st.(sends := st.sends[i := s],
          remoteRefs := st.remoteRefs + s.copies,
          queued := !st.holds,
          owner := if !st.holds && (takesQueue || !st.queued) then i else st.owner)
    case Succeed(i) => st.(sends := st.sends[i := st.sends[i].(phase := Succeeded)])
    case BeginRollback(i) => st.(sends := st.sends[i := st.sends[i].(phase := RollingBack)])
    case ClearOne(i) =>
      var s := st.sends[i];
      var s' := s.(cleared := s.cleared + 1, credits := if s.credits > 0 then s.credits - 1 else 0);
      Count(st, Clear).(sends := st.sends[i := s'])
    case EndRollback(i) => st.(sends := st.sends[i := st.sends[i].(phase := Failed)])
    case RemoteGain => st.(remoteRefs := st.remoteRefs + 1)
    case RemoteLose => st.(remoteRefs := st.remoteRefs - 1)
    case Withdraw => st.(queued := false)
    case ReadAcquire => st.(queued := false, holds := true, acquiresRead := st.acquiresRead + 1)
    case ProcessAcquire =>
      Count(st, IncRemote).(acquiresRead := st.acquiresRead - 1,
                            donesOwed := st.donesOwed + 1,
                            sends := seq(|st.sends|, k requires 0 <= k < |st.sends| => Acquired(st.sends[k])))
    case SendAcquireDone => st.(donesOwed := st.donesOwed - 1)
    case ReadRelease => st.(holds := false, releasesRead := st.releasesRead + 1)
    case ProcessRelease => Count(st, DecRemote).(releasesRead := st.releasesRead - 1)
  }

  /* ----------------------------------------------------------------- runs */

  type SystemRun = Run<State, Step>

  /** Legal runs are closed under prefixes, so a statement about the end of
      every legal run is one about every reachable state. */
  ghost predicate Legal(r: SystemRun) {
    match r
    case Start(first) => Initial(first)
    case Then(before, step, after) => Legal(before) && Next(before.End(), step, after)
  }

  ghost predicate Next(st: State, step: Step, st': State) {
    Enabled(st, step) && st' == Apply(st, step)
  }

  /* ------------------------------------------- invariants of every run */

  /** References are conserved: what the process counts, plus what loopers have
      yet to add, is what the driver believes, plus what they have yet to take. */
  ghost predicate Conserved(st: State) {
    && st.counts.remote + st.acquiresRead == (if st.holds then 1 else 0) + st.releasesRead
    && st.acquiresRead + st.donesOwed <= 1
    && (st.acquiresRead + st.donesOwed == 1 ==> st.holds)
    && (st.queued ==> !st.holds)
    && (st.remoteRefs > 0 && !st.holds ==> st.queued)
  }

  ghost predicate Tallied(st: State) {
    && Sane(st.counts)
    && st.counts.local == st.guards
    && st.watch == st.counts.Total()
    && st.counts.pending <= CreditSum(st.sends)
    && (st.counts.remote > 0 ==> CreditSum(st.sends) == 0)
  }

  ghost predicate SendOk(s: Send) {
    && s.copies > 0
    && s.cleared <= s.marked <= s.copies
    && s.credits <= s.marked - s.cleared
    && (s.phase != Marking ==> s.marked == s.copies)
    && (s.phase in {Marking, InFlight, Succeeded} ==> s.cleared == 0)
    && (s.phase == Failed ==> s.cleared == s.copies)
    && (s.awaiting ==> s.accepted)
    && (s.accepted ==> s.phase != Marking)
  }

  ghost predicate Inv(st: State) {
    && Conserved(st)
    && Tallied(st)
    && forall i | 0 <= i < |st.sends| :: SendOk(st.sends[i])
  }

  lemma CreditAt(sends: seq<Send>, i: nat)
    requires i < |sends|
    ensures sends[i].credits <= CreditSum(sends)
  {
    CreditSumUpdate(sends, i, sends[i]);
  }

  /** The sum after a step that rewrites at most one send. */
  lemma SumAfter(st: State, step: Step)
    requires Enabled(st, step)
    ensures step.StartSend? ==> CreditSum(Apply(st, step).sends) == CreditSum(st.sends)
    ensures step.ProcessAcquire? ==> CreditSum(Apply(st, step).sends) == 0
    ensures step.MarkOne? || step.Submit? || step.Accept? || step.Succeed? || step.BeginRollback?
              || step.ClearOne? || step.EndRollback?
            ==> CreditSum(Apply(st, step).sends)
                == CreditSum(st.sends) - st.sends[step.i].credits + Apply(st, step).sends[step.i].credits
    ensures step.ClearOne? ==> st.sends[step.i].credits <= CreditSum(st.sends)
  {
    var st' := Apply(st, step);
    match step
    case StartSend(copies) => CreditSumAppend(st.sends, NewSend(copies));
    case ProcessAcquire => CreditSumZero(st'.sends);
    case MarkOne(i) => CreditSumUpdate(st.sends, i, st'.sends[i]);
    case Submit(i) => CreditSumUpdate(st.sends, i, st'.sends[i]);
    case Accept(i, _) => CreditSumUpdate(st.sends, i, st'.sends[i]);
    case Succeed(i) => CreditSumUpdate(st.sends, i, st'.sends[i]);
    case BeginRollback(i) => CreditSumUpdate(st.sends, i, st'.sends[i]);
    case ClearOne(i) => CreditSumUpdate(st.sends, i, st'.sends[i]);
    case EndRollback(i) => CreditSumUpdate(st.sends, i, st'.sends[i]);
    case _ =>
  }

  lemma ConservedStep(st: State, step: Step)
    requires Inv(st) && Enabled(st, step)
    ensures Conserved(Apply(st, step))
  {
    hide SendOk, Tallied, CreditSum;
  }

  lemma NewSendOk(st: State, step: Step)
    requires Enabled(st, step)
    ensures |Apply(st, step).sends| == if step.StartSend? then |st.sends| + 1 else |st.sends|
    ensures step.StartSend? ==> SendOk(Apply(st, step).sends[|st.sends|])
  {
    hide Mutate;
  }

  lemma SendOkStep(st: State, step: Step, i: nat)
    requires Enabled(st, step) && i < |st.sends| && SendOk(st.sends[i])
    ensures i < |Apply(st, step).sends| && SendOk(Apply(st, step).sends[i])
  {
    hide Mutate;
  }

  lemma SendsStep(st: State, step: Step)
    requires Inv(st) && Enabled(st, step)
    ensures forall i | 0 <= i < |Apply(st, step).sends| :: SendOk(Apply(st, step).sends[i])
  {
    hide Apply, Enabled, SendOk, Conserved, Tallied;
    var st' := Apply(st, step);
    NewSendOk(st, step);
    forall i | 0 <= i < |st'.sends|
      ensures SendOk(st'.sends[i])
    {
      if i < |st.sends| {
        SendOkStep(st, step, i);
      }
    }
  }

  lemma TalliedCount(st: State, step: Step)
    requires Conserved(st) && Tallied(st) && Enabled(st, step)
    requires step.TakeGuard? || step.DropGuard? || step.ProcessAcquire? || step.ProcessRelease?
    ensures Tallied(Apply(st, step))
  {
    SumAfter(st, step);
  }

  lemma TalliedSend(st: State, step: Step)
    requires Tallied(st) && Enabled(st, step)
    requires step.MarkOne? || step.ClearOne?
    ensures Tallied(Apply(st, step))
  {
    SumAfter(st, step);
    CreditAt(st.sends, step.i);
  }

  lemma TalliedElse(st: State, step: Step)
    requires Tallied(st) && Enabled(st, step)
    requires !step.TakeGuard? && !step.DropGuard? && !step.ProcessAcquire? && !step.ProcessRelease?
    requires !step.MarkOne? && !step.ClearOne?
    ensures Tallied(Apply(st, step))
  {
    hide Mutate, CreditSum;
    SumAfter(st, step);
  }

  lemma TalliedStep(st: State, step: Step)
    requires Inv(st) && Enabled(st, step)
    ensures Tallied(Apply(st, step))
  {
    hide Apply, Enabled, SendOk, Conserved, Tallied;
    if step.TakeGuard? || step.DropGuard? || step.ProcessAcquire? || step.ProcessRelease? {
      TalliedCount(st, step);
    } else if step.MarkOne? || step.ClearOne? {
      TalliedSend(st, step);
    } else {
      TalliedElse(st, step);
    }
  }

  lemma InvStep(st: State, step: Step)
    requires Inv(st) && Enabled(st, step)
    ensures Inv(Apply(st, step))
  {
    ConservedStep(st, step);
    SendsStep(st, step);
    TalliedStep(st, step);
  }

  lemma {:induction false} InvRun(r: SystemRun)
    requires Legal(r)
    ensures Inv(r.End())
  {
    if r.Start? {
    } else {
      InvRun(r.before);
      InvStep(r.before.End(), r.step);
    }
  }

  ghost predicate Reachable(st: State) {
    exists r :: Legal(r) && r.End() == st
  }

  /** Main result: with any number of looper threads and overlapping sends, no
      decrement ever takes a count below zero. */
  lemma {:induction false} NeverUnderflows(r: SystemRun)
    requires Legal(r)
    ensures Enabled(r.End(), ProcessRelease) ==> r.End().counts.remote >= 1
    ensures Enabled(r.End(), DropGuard) ==> r.End().counts.local >= 1
    ensures Sane(r.End().counts)
  {
    hide Legal, Next, Apply;
    InvRun(r);
  }

  /** Main result: on every run, the process's remote count plus the acquires it
      has read and not processed equals the driver's view plus the releases it
      has read and not processed; the published value is always the total. */
  lemma {:induction false} ReferencesConserved(r: SystemRun)
    requires Legal(r)
    ensures var st := r.End();
            && st.counts.remote + st.acquiresRead == (if st.holds then 1 else 0) + st.releasesRead
            && st.watch == st.counts.Total()
  {
    hide Legal, Next, Apply;
    InvRun(r);
  }

  /* ---------------------------------------------------------- never stuck */

  /** Send `i` has marked the object while no remote reference was counted, and no
      BR_ACQUIRE of the object has been processed since. A mark made while the
      object is held remotely never makes its send owe anything. */
  ghost predicate Owes(r: SystemRun, i: nat) {
    r.Then? &&
    match r.step
    case ProcessAcquire => false
    case MarkOne(k) => (k == i && r.before.End().counts.remote == 0) || Owes(r.before, i)
    case _ => Owes(r.before, i)
  }

  predicate KeepsCredits(s: Send) {
    s.phase.Marking? || s.phase.InFlight? || s.phase.Succeeded?
  }

  /** How one step changes the credits of one send. */
  lemma CreditsStep(st: State, step: Step, i: nat)
    requires Enabled(st, step) && i < |st.sends|
    ensures i < |Apply(st, step).sends|
    ensures var s, s' := st.sends[i], Apply(st, step).sends[i];
            && (KeepsCredits(s') ==> KeepsCredits(s))
            && (if step == ProcessAcquire then s'.credits == 0
                else if step == MarkOne(i) && st.counts.remote == 0 then s'.credits == s.credits + 1
                else if step == ClearOne(i) then s'.credits <= s.credits && !KeepsCredits(s')
                else s'.credits == s.credits)
  {
    hide Mutate;
  }

  lemma NewSendsOweNothing(st: State, step: Step, i: nat)
    requires Enabled(st, step) && i >= |st.sends|
    ensures i < |Apply(st, step).sends| ==> Apply(st, step).sends[i].credits == 0 && step.StartSend?
    ensures step != MarkOne(i)
  {
    hide Mutate;
  }

  /** A send that has not begun to roll back holds a credit exactly if it owes
      one, and a rollback holds none that it does not owe. */
  lemma {:induction false} OwesExactly(r: SystemRun, i: nat)
    requires Legal(r)
    ensures Owes(r, i) ==> i < |r.End().sends|
    ensures i < |r.End().sends| ==>
              var s := r.End().sends[i];
              (s.credits > 0 ==> Owes(r, i)) && (KeepsCredits(s) && Owes(r, i) ==> s.credits > 0)
  {
    if r.Start? {
    } else {
      InvRun(r.before);
      OwesExactly(r.before, i);
      hide Apply, Inv, Enabled;
      if i < |r.before.End().sends| {
        CreditsStep(r.before.End(), r.step, i);
      } else {
        NewSendsOweNothing(r.before.End(), r.step, i);
      }
    }
  }

  /** Send `i` asks for nothing any more: it failed, it has taken back all of its
      marks, or every mark that found no remote reference was followed by a
      processed BR_ACQUIRE. */
  ghost predicate Repaid(r: SystemRun, i: nat)
    requires i < |r.End().sends|
  {
    var s := r.End().sends[i];
    match s.phase
    case Failed => true
    case RollingBack => s.cleared == s.copies
    case _ => !Owes(r, i)
  }

  /** Nothing is left to wait for: no guard, no remote reference, and every
      send is repaid. */
  ghost predicate Settled(r: SystemRun) {
    && r.End().guards == 0
    && r.End().counts.remote == 0
    && forall i | 0 <= i < |r.End().sends| :: Repaid(r, i)
  }

  lemma RepaidHasNoCredit(r: SystemRun, i: nat)
    requires Legal(r) && i < |r.End().sends| && Repaid(r, i)
    ensures r.End().sends[i].credits == 0
  {
    hide Legal, Owes;
    InvRun(r);
    OwesExactly(r, i);
    assert SendOk(r.End().sends[i]);
  }

  /** Main result: in every run, with no hypothesis on how sends overlap,
      `pending` is bounded by the credits still owed, and a settled object
      publishes zero, so that every subscriber that polls is released. */
  lemma {:induction false} NeverStuck(r: SystemRun)
    requires Legal(r)
    ensures r.End().counts.pending <= CreditSum(r.End().sends)
    ensures Settled(r) ==> r.End().watch == 0
  {
    hide Legal, Next, Apply, Repaid;
    var st := r.End();
    InvRun(r);
    if Settled(r) {
      forall i | 0 <= i < |st.sends|
        ensures st.sends[i].credits == 0
      {
        RepaidHasNoCredit(r, i);
      }
      CreditSumZero(st.sends);
    }
  }

  /* ------------------------------------------------- nobody has to wait */

  /** The next step of a send's own thread, if it succeeds or has failed. */
  function OwnStep(s: Send, i: nat): Step
    requires s.Active()
  {
    match s.phase
    case Marking => if s.marked < s.copies then MarkOne(i) else Submit(i)
    case InFlight => Succeed(i)
    case RollingBack => if s.cleared < s.copies then ClearOne(i) else EndRollback(i)
  }

  function Remaining(s: Send): int {
    match s.phase
    case Marking => s.copies - s.marked + 2
    case InFlight => 1
    case RollingBack => s.copies - s.cleared + 1
    case _ => 0
  }

  /** Main result: in every reachable state each active send can take its next
      step and gets closer to its end by it. It can fail while in flight unless
      it owns an acquire, which its thread can then read or process; and whatever
      a looper has read can be processed. */
  lemma SendsProceed(r: SystemRun, i: nat)
    requires Legal(r) && i < |r.End().sends| && r.End().sends[i].Active()
    ensures var st := r.End();
            var s := st.sends[i];
            && Enabled(st, OwnStep(s, i))
            && |Apply(st, OwnStep(s, i)).sends| == |st.sends|
            && 0 <= Remaining(Apply(st, OwnStep(s, i)).sends[i]) < Remaining(s)
            && (s.phase == InFlight ==>
                  Enabled(st, BeginRollback(i)) || Enabled(st, ReadAcquire) || Enabled(st, ProcessAcquire))
  {
    hide Legal, Mutate;
    InvRun(r);
    assert SendOk(r.End().sends[i]);
  }

  /** Main result: no reference is out of reach: while the driver counts the
      process, one of the looper's steps is due or it can read the release as soon
      as nobody holds a reference; and remote references stand on a count that is
      there or on an acquire that can be processed. */
  lemma ReferencesReach(r: SystemRun)
    requires Legal(r)
    ensures var st := r.End();
            && (st.holds && st.remoteRefs == 0 ==>
                  Enabled(st, ProcessAcquire) || Enabled(st, SendAcquireDone) || Enabled(st, ReadRelease))
            && (st.remoteRefs > 0 ==>
                  st.counts.remote > 0 || Enabled(st, ReadAcquire) || Enabled(st, ProcessAcquire))
            && (st.counts.remote > (if st.holds then 1 else 0) ==> Enabled(st, ProcessRelease))
  {
    hide Legal, Mutate;
    InvRun(r);
  }
}
