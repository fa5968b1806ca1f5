/** When does the published count of an object reach zero although another
    process still holds it, or is about to? The schedule hypothesis under which
    it never does, the exact single steps that break the protection, and runs
    showing that neither the hypothesis nor the one of `NeverStuck` can go. */
module PrematureZero {
  import opened RefState
  import opened Runs
  import opened StrongRefs

  ghost predicate Calm(st: State) {
    forall k | 0 <= k < |st.sends| :: !st.sends[k].Unsettled()
  }

  /** No BR_RELEASE is processed while some send is between its start and its
      acquire, or still running. */
  ghost predicate QuietReleases(r: SystemRun)
    requires Legal(r)
  {
    r.Then? ==> QuietReleases(r.before) && (r.step == ProcessRelease ==> Calm(r.before.End()))
  }

  /** A send that still depends on its credits has every one of them. */
  ghost predicate Funded(s: Send, remote: int) {
    && (s.Active() && remote == 0 ==> s.credits == s.marked - s.cleared)
    && (s.phase == Succeeded && s.awaiting && remote == 0 ==> s.credits == s.copies)
  }

  ghost predicate Owned(st: State) {
    Outstanding(st) ==>
      && st.owner < |st.sends|
      && st.sends[st.owner].awaiting
      && st.sends[st.owner].phase in {InFlight, Succeeded}
  }

  ghost predicate Covered(st: State) {
    && Inv(st)
    && Owned(st)
    && st.counts.pending == CreditSum(st.sends)
    && forall i | 0 <= i < |st.sends| :: Funded(st.sends[i], st.counts.remote)
  }

  lemma OwnedStep(st: State, step: Step)
    requires Inv(st) && Owned(st) && Enabled(st, step)
    ensures Owned(Apply(st, step))
  {
    hide SendOk, Tallied, CreditSum;
  }

  lemma FundedCount(st: State, step: Step, i: nat)
    requires Enabled(st, step) && i < |st.sends|
    requires Sane(st.counts) && SendOk(st.sends[i]) && Funded(st.sends[i], st.counts.remote)
    requires st.counts.remote > 0 ==> st.sends[i].credits == 0
    requires step == ProcessAcquire || (step == ProcessRelease && !st.sends[i].Unsettled())
    ensures i < |Apply(st, step).sends| && Funded(Apply(st, step).sends[i], Apply(st, step).counts.remote)
  {
  }

  lemma FundedMark(st: State, step: Step, i: nat)
    requires Enabled(st, step) && i < |st.sends|
    requires Sane(st.counts) && SendOk(st.sends[i]) && Funded(st.sends[i], st.counts.remote)
    requires st.counts.remote > 0 ==> st.sends[i].credits == 0
    requires step.MarkOne? || step.ClearOne?
    ensures i < |Apply(st, step).sends| && Funded(Apply(st, step).sends[i], Apply(st, step).counts.remote)
  {
  }

  lemma FundedSame(st: State, step: Step, i: nat)
    requires Enabled(st, step) && i < |st.sends|
    requires SendOk(st.sends[i]) && Funded(st.sends[i], st.counts.remote)
    requires !step.MarkOne? && !step.ClearOne? && !step.ProcessAcquire? && !step.ProcessRelease?
    ensures i < |Apply(st, step).sends| && Funded(Apply(st, step).sends[i], Apply(st, step).counts.remote)
  {
  }

  /** One step on one send: with the count it saw and the count it leaves. */
  lemma FundedSend(st: State, step: Step, i: nat)
    requires Enabled(st, step) && i < |st.sends|
    requires Sane(st.counts) && SendOk(st.sends[i]) && Funded(st.sends[i], st.counts.remote)
    requires st.counts.remote > 0 ==> st.sends[i].credits == 0
    requires step == ProcessRelease ==> !st.sends[i].Unsettled()
    ensures i < |Apply(st, step).sends| && Funded(Apply(st, step).sends[i], Apply(st, step).counts.remote)
  {
    hide Apply, Enabled, Funded, SendOk;
    if step.ProcessAcquire? || step.ProcessRelease? {
      FundedCount(st, step, i);
    } else if step.MarkOne? || step.ClearOne? {
      FundedMark(st, step, i);
    } else {
      FundedSame(st, step, i);
    }
  }

  lemma FundedNew(st: State, step: Step, i: nat)
    requires Enabled(st, step) && |st.sends| <= i < |Apply(st, step).sends|
    ensures Funded(Apply(st, step).sends[i], Apply(st, step).counts.remote)
  {
    hide Mutate;
  }

  lemma FundedStep(st: State, step: Step)
    requires Covered(st) && Enabled(st, step)
    requires step == ProcessRelease ==> Calm(st)
    ensures forall i | 0 <= i < |Apply(st, step).sends| ::
              Funded(Apply(st, step).sends[i], Apply(st, step).counts.remote)
  {
    hide Apply, Enabled, Funded, SendOk, CreditSum, Conserved;
    forall i | 0 <= i < |Apply(st, step).sends|
      ensures Funded(Apply(st, step).sends[i], Apply(st, step).counts.remote)
    {
      if i < |st.sends| {
        CreditAt(st.sends, i);
        FundedSend(st, step, i);
      } else {
        FundedNew(st, step, i);
      }
    }
  }

  lemma CoveredStep(st: State, step: Step)
    requires Covered(st) && Enabled(st, step)
    requires step == ProcessRelease ==> Calm(st)
    ensures Covered(Apply(st, step))
  {
    hide Conserved, CreditSum;
    InvStep(st, step);
    OwnedStep(st, step);
    FundedStep(st, step);
    SumAfter(st, step);
    if step.ClearOne? {
      assert Funded(st.sends[step.i], st.counts.remote) && SendOk(st.sends[step.i]);
    }
  }

  lemma {:induction false} CoveredRun(r: SystemRun)
    requires Legal(r) && QuietReleases(r)
    ensures Covered(r.End())
  {
    if r.Start? {
    } else {
      CoveredRun(r.before);
      CoveredStep(r.before.End(), r.step);
    }
  }

  /** An awaiting send keeps the count up by itself. */
  lemma AwaitingProtects(st: State, k: nat)
    requires Covered(st) && k < |st.sends|
    requires st.sends[k].awaiting && st.sends[k].phase in {InFlight, Succeeded}
    ensures st.counts.remote + st.counts.pending > 0
  {
    assert SendOk(st.sends[k]) && Funded(st.sends[k], st.counts.remote);
    CreditAt(st.sends, k);
  }

  lemma ZeroMeansFree(st: State)
    requires Covered(st) && st.watch == 0
    ensures st.remoteRefs == 0
    ensures forall k | 0 <= k < |st.sends| :: !(st.sends[k].Delivered() && st.sends[k].awaiting)
  {
    forall k | 0 <= k < |st.sends|
      ensures !(st.sends[k].Delivered() && st.sends[k].awaiting)
    {
      if st.sends[k].Delivered() && st.sends[k].awaiting {
        AwaitingProtects(st, k);
        assert false;
      }
    }
    if st.remoteRefs > 0 {
      if Outstanding(st) {
        AwaitingProtects(st, st.owner);
      }
      assert false;
    }
  }

  /** Main result: if no BR_RELEASE is processed while a send is unsettled, then
      for unboundedly many overlapping sends, failures and guard drops, a
      published zero means that no other process holds the object and that no
      delivered send still waits for its BR_ACQUIRE. */
  lemma {:induction false} NeverPremature(r: SystemRun)
    requires Legal(r) && QuietReleases(r)
    ensures r.End().watch == 0 ==>
              && r.End().remoteRefs == 0
              && forall k | 0 <= k < |r.End().sends| :: !(r.End().sends[k].Delivered() && r.End().sends[k].awaiting)
  {
    hide Legal, Next, Apply, QuietReleases, Covered;
    CoveredRun(r);
    if r.End().watch == 0 {
      ZeroMeansFree(r.End());
    }
  }

  /* --------------------------------------------- when the object is free */

  lemma TotalExactly(st: State)
    requires Covered(st)
    ensures st.watch == st.guards + st.counts.remote + CreditSum(st.sends) && st.counts.remote >= 0
  {
  }

  lemma RepaidExactly(r: SystemRun, i: nat)
    requires Legal(r) && Covered(r.End()) && i < |r.End().sends| && r.End().counts.remote == 0
    ensures r.End().sends[i].credits == 0 <==> Repaid(r, i)
  {
    hide Legal, Owes;
    var st := r.End();
    assert SendOk(st.sends[i]) && Funded(st.sends[i], st.counts.remote);
    OwesExactly(r, i);
  }

  /** Main result: under the same schedules the published value is exactly the
      live guards, the remote reference and the credits still owed. It is zero,
      and subscribers are released, if and only if the object is settled. */
  lemma {:induction false} ZeroExactly(r: SystemRun)
    requires Legal(r) && QuietReleases(r)
    ensures r.End().watch == r.End().guards + r.End().counts.remote + CreditSum(r.End().sends)
    ensures r.End().watch == 0 <==> Settled(r)
  {
    hide Legal, Next, Apply, QuietReleases, Repaid, Covered, CreditSum;
    var st := r.End();
    CoveredRun(r);
    TotalExactly(st);
    if st.counts.remote == 0 {
      forall i | 0 <= i < |st.sends|
        ensures st.sends[i].credits == 0 <==> Repaid(r, i)
        ensures st.sends[i].credits <= CreditSum(st.sends)
      {
        RepaidExactly(r, i);
        CreditAt(st.sends, i);
      }
      if forall i | 0 <= i < |st.sends| :: Repaid(r, i) {
        CreditSumZero(st.sends);
      }
    }
  }

  /* ------------------------------------------------- the exact condition */

  /** A reference held elsewhere is covered without help from local guards. */
  ghost predicate Protected(st: State) {
    st.remoteRefs > 0 ==> st.counts.remote + st.counts.pending > 0
  }

  /** The three ways to lose the cover: the last remote count goes while a newer
      reference waits, a rollback takes the last credit of somebody else, or the
      driver takes in a send whose credit is already gone. */
  predicate Breaks(st: State, step: Step) {
    match step
    case ProcessRelease => st.remoteRefs > 0 && st.counts.remote == 1
    case ClearOne(_) => st.remoteRefs > 0 && st.counts.remote == 0 && st.counts.pending == 1
    case Accept(_, _) => st.counts.remote + st.counts.pending == 0
    case _ => false
  }

  /** The step of the induction below. */
  lemma BreaksExactly(st: State, step: Step)
    requires Inv(st) && Protected(st) && Enabled(st, step)
    ensures Protected(Apply(st, step)) <==> !Breaks(st, step)
  {
    if step.Accept? {
      assert SendOk(st.sends[step.i]);
    }
  }

  ghost predicate ProtectedThroughout(r: SystemRun)
    requires Legal(r)
  {
    Protected(r.End()) && (r.Then? ==> ProtectedThroughout(r.before))
  }

  ghost predicate BreakFree(r: SystemRun)
    requires Legal(r)
  {
    r.Then? ==> BreakFree(r.before) && !Breaks(r.before.End(), r.step)
  }

  /** Main result, with no hypothesis: a run stays protected throughout if and
      only if it contains none of the three breaking steps. */
  lemma {:induction false} ProtectedIff(r: SystemRun)
    requires Legal(r)
    ensures ProtectedThroughout(r) <==> BreakFree(r)
  {
    if r.Start? {
    } else {
      ProtectedIff(r.before);
      InvRun(r.before);
      if ProtectedThroughout(r.before) {
        BreaksExactly(r.before.End(), r.step);
      }
    }
  }

  /* ------------------------------------------------------ witness runs */

  /** A property of states that holds initially and that every step keeps. */
  ghost predicate Inductive(p: State -> bool) {
    && (forall st | Initial(st) :: p(st))
    && (forall st, step | p(st) && Enabled(st, step) :: p(Apply(st, step)))
  }

  lemma {:induction false} ReachableInductive()
    ensures Inductive(st => Reachable(st))
  {
    forall st | Initial(st)
      ensures Reachable(st)
    {
      var r: SystemRun := Start(st);
      assert Legal(r) && r.End() == st;
    }
    forall st, step | Reachable(st) && Enabled(st, step)
      ensures Reachable(Apply(st, step))
    {
      var r :| Legal(r) && r.End() == st;
      var r' := Then(r, step, Apply(st, step));
      assert Legal(r') && r'.End() == Apply(st, step);
    }
  }

  /** One step of a witness run. */
  lemma Hop(p: State -> bool, st: State, step: Step, st': State)
    requires Inductive(p) && p(st) && Next(st, step, st')
    ensures p(st')
  {
  }

  /** A send of one copy, marked and taken in by the driver. */
  function TakenIn(credits: nat, phase: Phase, awaiting: bool): Send {
    Send(copies := 1, marked := 1, cleared := 0, credits := credits, phase := phase, accepted := true,
        awaiting := awaiting)
  }

  function NewlySent(): Send { TakenIn(1, InFlight, true) }

  function Uncredited(): Send { TakenIn(0, InFlight, true) }

  function OldSend(): Send { TakenIn(0, InFlight, false) }

  function OldFailing(): Send { TakenIn(0, RollingBack, false) }

  function OldCleared(): Send { OldFailing().(cleared := 1) }

  /** A further send is marked and taken in by the driver. */
  lemma Deliver(p: State -> bool, st: State, sent: Send, st': State)
    requires Inductive(p) && p(st) && !st.holds
    requires sent == if st.counts.remote == 0 then NewlySent() else Uncredited()
    requires st'.counts == Mutate(st.counts, Mark) && st'.watch == st'.counts.Total()
    requires st'.sends == st.sends + [sent]
    requires st'.remoteRefs == st.remoteRefs + 1 && st'.queued && st'.owner == |st.sends|
    requires st'.guards == st.guards && !st'.holds
    requires st'.acquiresRead == st.acquiresRead && st'.donesOwed == st.donesOwed && st'.releasesRead == st.releasesRead
    ensures p(st')
  {
    var i := |st.sends|;
    var s := sent.(phase := Marking, accepted := false, awaiting := false);
    var st1 := st.(sends := st.sends + [NewSend(1)]);
    var st2 := Count(st, Mark).(sends := st.sends + [s]);
    var st3 := st2.(sends := st.sends + [s.(phase := InFlight)]);
    hide Inductive;
    assert st1.sends[i := s] == st2.sends;
    assert st2.sends[i := s.(phase := InFlight)] == st3.sends;
    assert st3.sends[i := sent] == st'.sends;
    Hop(p, st, StartSend(1), st1);
    Hop(p, st1, MarkOne(i), st2);
    Hop(p, st2, Submit(i), st3);
    Hop(p, st3, Accept(i, true), st');
  }

  function Fresh(): State {
    State(counts := NO_REFS, watch := 0, guards := 0, sends := [], remoteRefs := 0, holds := false, queued := false,
          owner := 0, acquiresRead := 0, donesOwed := 0, releasesRead := 0)
  }

  /** Send 0 is delivered, and the driver has its BR_ACQUIRE queued. */
  function Sent(): State {
    Fresh().(counts := RefCounts(0, 0, 1), watch := 1, sends := [NewlySent()], remoteRefs := 1, queued := true)
  }

  function AcquireRead(): State {
    Sent().(queued := false, holds := true, acquiresRead := 1)
  }

  /** Send 0 is acquired and still running. */
  function Held(): State {
    Fresh().(counts := RefCounts(0, 1, 0), watch := 1, sends := [OldSend()], remoteRefs := 1, holds := true,
        donesOwed := 1)
  }

  function Confirmed(): State { Held().(donesOwed := 0) }

  function LetGo(): State { Confirmed().(remoteRefs := 0) }

  /** Send 0 is still running; the remote side has let go again and the
      BR_RELEASE is read. */
  function Released(): State { LetGo().(holds := false, releasesRead := 1) }

  lemma FreshHolds(p: State -> bool)
    requires Inductive(p)
    ensures p(Fresh())
  {
    assert Initial(Fresh());
  }

  lemma SentHolds(p: State -> bool)
    requires Inductive(p)
    ensures p(Sent())
  {
    hide Apply, Enabled, Inductive;
    FreshHolds(p);
    assert Sent().sends == Fresh().sends + [NewlySent()];
    Deliver(p, Fresh(), NewlySent(), Sent());
  }

  lemma ReadStep(st: State, st': State)
    requires st == Sent() && st' == AcquireRead()
    ensures Next(st, ReadAcquire, st')
  {
  }

  lemma AcquireStep(st: State, st': State)
    requires st == AcquireRead() && st' == Held()
    ensures Next(st, ProcessAcquire, st')
  {
    assert Apply(st, ProcessAcquire).sends == st'.sends;
  }

  lemma ConfirmStep(st: State, st': State)
    requires st == Held() && st' == Confirmed()
    ensures Next(st, SendAcquireDone, st')
  {
  }

  lemma LetGoStep(st: State, st': State)
    requires st == Confirmed() && st' == LetGo()
    ensures Next(st, RemoteLose, st')
  {
  }

  lemma ReleaseStep(st: State, st': State)
    requires st == LetGo() && st' == Released()
    ensures Next(st, ReadRelease, st')
  {
  }

  lemma ReleasedHolds(p: State -> bool)
    requires Inductive(p)
    ensures p(Released())
  {
    hide Next, Inductive, Apply, Enabled, Sent, AcquireRead, Held, Confirmed, LetGo, Released;
    SentHolds(p);
    ReadStep(Sent(), AcquireRead());
    Hop(p, Sent(), ReadAcquire, AcquireRead());
    AcquireStep(AcquireRead(), Held());
    Hop(p, AcquireRead(), ProcessAcquire, Held());
    ConfirmStep(Held(), Confirmed());
    Hop(p, Held(), SendAcquireDone, Confirmed());
    LetGoStep(Confirmed(), LetGo());
    Hop(p, Confirmed(), RemoteLose, LetGo());
    ReleaseStep(LetGo(), Released());
    Hop(p, LetGo(), ReadRelease, Released());
  }

  /** The release lands while send 0 is still running ... */
  function Landed(): State {
    Fresh().(sends := [OldSend()])
  }

  /** ... a second send takes a credit and is delivered ... */
  function SecondSent(): State {
    Landed().(counts := RefCounts(0, 0, 1), watch := 1, sends := [OldSend(), NewlySent()], remoteRefs := 1,
        queued := true, owner := 1)
  }

  /** ... send 0 fails ... */
  function FirstFailing(): State {
    SecondSent().(sends := [OldFailing(), NewlySent()])
  }

  /** ... and its rollback takes the credit of the second. */
  function Stolen(): State {
    SecondSent().(counts := NO_REFS, watch := 0, sends := [OldCleared(), NewlySent()])
  }

  /** A read release is processed, and nothing else changes. */
  lemma ReleaseLands(st: State, st': State)
    requires st.releasesRead == 1 && st'.counts == Mutate(st.counts, DecRemote)
    requires st' == st.(counts := st'.counts, watch := st'.counts.Total(), releasesRead := 0)
    ensures Next(st, ProcessRelease, st')
  {
  }

  lemma LandStep(st: State, st': State)
    requires st == Released() && st' == Landed()
    ensures Next(st, ProcessRelease, st')
  {
    hide Next, Apply, Enabled;
    ReleaseLands(st, st');
  }

  lemma FailStep(st: State, st': State)
    requires st == SecondSent() && st' == FirstFailing()
    ensures Next(st, BeginRollback(0), st')
  {
    assert Apply(st, BeginRollback(0)).sends == st'.sends;
  }

  lemma StealStep(st: State, st': State)
    requires st == FirstFailing() && st' == Stolen()
    ensures Next(st, ClearOne(0), st')
  {
    assert Apply(st, ClearOne(0)).sends == st'.sends;
  }

  lemma LandedHolds(p: State -> bool)
    requires Inductive(p)
    ensures p(Landed())
  {
    hide Next, Inductive, Apply, Enabled, Released, Landed;
    ReleasedHolds(p);
    LandStep(Released(), Landed());
    Hop(p, Released(), ProcessRelease, Landed());
  }

  lemma SecondSentHolds(p: State -> bool)
    requires Inductive(p)
    ensures p(SecondSent())
  {
    hide Next, Inductive, Apply, Enabled;
    LandedHolds(p);
    assert SecondSent().sends == Landed().sends + [NewlySent()];
    Deliver(p, Landed(), NewlySent(), SecondSent());
  }

  lemma StolenHolds(p: State -> bool)
    requires Inductive(p)
    ensures p(Stolen())
  {
    hide Next, Inductive, Apply, Enabled, SecondSent, FirstFailing, Stolen;
    SecondSentHolds(p);
    FailStep(SecondSent(), FirstFailing());
    Hop(p, SecondSent(), BeginRollback(0), FirstFailing());
    StealStep(FirstFailing(), Stolen());
    Hop(p, FirstFailing(), ClearOne(0), Stolen());
  }

  /** Without the hypothesis, a rollback of an old send consumes the credit of a
      newer one, and zero is published while the newer reference is held. */
  lemma RollbackCanStealCredit()
    ensures exists st :: Reachable(st) && st.watch == 0 && st.remoteRefs > 0
  {
    ReachableInductive();
    var p := st => Reachable(st);
    StolenHolds(p);
    assert p(Stolen());
  }

  /** A second send starts while the release is read but unprocessed ... */
  function SentOverRelease(): State {
    Released().(sends := [OldSend(), Uncredited()], remoteRefs := 1, queued := true, owner := 1)
  }

  /** ... and the release then lands under it. */
  function Uncovered(): State {
    SentOverRelease().(counts := NO_REFS, watch := 0, releasesRead := 0)
  }

  lemma UncoverStep(st: State, st': State)
    requires st == SentOverRelease() && st' == Uncovered()
    ensures Next(st, ProcessRelease, st')
  {
    hide Next, Apply, Enabled;
    ReleaseLands(st, st');
  }

  lemma SentOverReleaseHolds(p: State -> bool)
    requires Inductive(p)
    ensures p(SentOverRelease())
  {
    hide Next, Inductive, Apply, Enabled;
    ReleasedHolds(p);
    assert SentOverRelease().sends == Released().sends + [Uncredited()];
    Deliver(p, Released(), Uncredited(), SentOverRelease());
  }

  lemma UncoveredHolds(p: State -> bool)
    requires Inductive(p)
    ensures p(Uncovered())
  {
    hide Next, Inductive, Apply, Enabled, SentOverRelease, Uncovered;
    SentOverReleaseHolds(p);
    UncoverStep(SentOverRelease(), Uncovered());
    Hop(p, SentOverRelease(), ProcessRelease, Uncovered());
  }

  /** Without it, a send that starts while a BR_RELEASE is read but unprocessed
      takes no credit, and the release then publishes zero under it, although
      no send ever failed. */
  lemma PendingReleaseLeavesNoCredit()
    ensures exists st :: Reachable(st) && st.watch == 0 && st.remoteRefs > 0
                         && forall k | 0 <= k < |st.sends| :: st.sends[k].Delivered()
  {
    ReachableInductive();
    var p := st => Reachable(st);
    UncoveredHolds(p);
    assert p(Uncovered());
  }

  /** The remote side lets go before the BR_ACQUIRE is read, the driver takes it
      back, and the send returns Ok. */
  function Abandoned(): State { Sent().(remoteRefs := 0) }

  function Withdrawn(): State { Abandoned().(queued := false) }

  function LeftOver(): State {
    Withdrawn().(sends := [TakenIn(1, Succeeded, true)])
  }

  lemma AbandonStep(st: State, st': State)
    requires st == Sent() && st' == Abandoned()
    ensures Next(st, RemoteLose, st')
  {
  }

  lemma WithdrawStep(st: State, st': State)
    requires st == Abandoned() && st' == Withdrawn()
    ensures Next(st, Withdraw, st')
  {
  }

  lemma SucceedStep(st: State, st': State)
    requires st == Withdrawn() && st' == LeftOver()
    ensures Next(st, Succeed(0), st')
  {
    assert Apply(st, Succeed(0)).sends == st'.sends;
  }

  lemma LeftOverHolds(p: State -> bool)
    requires Inductive(p)
    ensures p(LeftOver())
  {
    hide Next, Inductive, Apply, Enabled, Sent, Abandoned, Withdrawn, LeftOver;
    SentHolds(p);
    AbandonStep(Sent(), Abandoned());
    Hop(p, Sent(), RemoteLose, Abandoned());
    WithdrawStep(Abandoned(), Withdrawn());
    Hop(p, Abandoned(), Withdraw, Withdrawn());
    SucceedStep(Withdrawn(), LeftOver());
    Hop(p, Withdrawn(), Succeed(0), LeftOver());
  }

  lemma NothingToDo(st: State)
    requires st == LeftOver()
    ensures st.watch == 1 && st.guards == 0 && st.remoteRefs == 0
    ensures forall step | Enabled(st, step) :: step.TakeGuard? || step.StartSend?
  {
  }

  /** A debt can stay for good: if the remote side lets go before the driver hands
      out the BR_ACQUIRE, the credit of a send that returned Ok stays, with
      nothing left that would take it back. */
  lemma UnacquiredSendKeepsCredit()
    ensures exists st ::
              && Reachable(st)
              && st.watch == 1 && st.guards == 0 && st.remoteRefs == 0
              && forall step | Enabled(st, step) :: step.TakeGuard? || step.StartSend?
  {
    hide Enabled;
    ReachableInductive();
    var p := st => Reachable(st);
    LeftOverHolds(p);
    NothingToDo(LeftOver());
    assert p(LeftOver());
  }
}
