/** One service and its reference protocol together: the tables and guards of
    Lifecycle, with the driver, the sends and the loopers of StrongRefs acting on
    the counts of one of the objects. This is what the counts are for: a service
    that another process holds stays in every table. */
module Service {
  import opened RefState
  import opened Registry
  import opened Runs
  import opened Sys
  import L = Lifecycle
  import C = StrongRefs
  import P = PrematureZero

  datatype State = State(life: L.State, core: C.State)

  /** A step of the tables and guards, or of the sends, loopers and the driver. */
  datatype Step = Table(ls: L.Step) | Protocol(cs: C.Step)

  type SystemRun = Run<State, Step>

  /** What a step of the tables does to the guards that count for the object. */
  function GuardMove(life: L.State, id: nat, ls: L.Step): Option<C.Step> {
    if id !in life.counts then None
    else
      match ls
      case FinishBorrow(i) => if i == id then Some(C.TakeGuard) else None
      case FinishTyped(i) => if i == id then Some(C.TakeGuard) else None
      case OwnerBorrow(i) => if i == id then Some(C.TakeGuard) else None
      case ServiceCount(i) => if i == id then Some(C.TakeGuard) else None
      case CloneGuard(g) => if g.id == id then Some(C.TakeGuard) else None
      case DropGuard(g) => if g.id == id && (g.Typed? || g.increasedLocalRef) then Some(C.DropGuard) else None
      case _ => None
  }

  /** What a step of the protocol does to the count table. */
  function CountMove(id: nat, cs: C.Step): Option<L.Step> {
    match cs
    case MarkOne(_) => Some(L.Remote(id, Mark))
    case ClearOne(_) => Some(L.Remote(id, Clear))
    case ProcessAcquire => Some(L.Remote(id, IncRemote))
    case ProcessRelease => Some(L.Remote(id, DecRemote))
    case _ => None
  }

  /** The object has been registered, so that it can be sent. */
  predicate Known(life: L.State, id: nat) {
    id in life.phases && !life.phases[id].Registering?
  }

  predicate Initial(st: State) {
    L.Initial(st.life) && C.Initial(st.core)
  }

  ghost predicate LifeNext(life: L.State, ls: L.Step, life': L.State) {
    L.Enabled(life, ls) && life' == L.Apply(life, ls)
  }

  ghost predicate Next(id: nat, st: State, step: Step, st': State) {
    match step
    case Table(ls) =>
      && !(ls.Remote? && ls.id == id)
      && LifeNext(st.life, ls, st'.life)
      && (match GuardMove(st.life, id, ls)
          case None => st'.core == st.core
          case Some(cs) => C.Next(st.core, cs, st'.core))
    case Protocol(cs) =>
      && Known(st.life, id) && !cs.TakeGuard? && !cs.DropGuard?
      && C.Next(st.core, cs, st'.core)
      && (match CountMove(id, cs)
          case None => st'.life == st.life
          case Some(ls) => LifeNext(st.life, ls, st'.life))
  }

  ghost predicate Legal(id: nat, r: SystemRun) {
    match r
    case Start(first) => Initial(first)
    case Then(before, step, after) => Legal(id, before) && Next(id, before.End(), step, after)
  }

  /* ---------------------------------------------------------- projections */

  /** The step of the tables within a joint step, and that of the protocol. */
  function LifeStep(id: nat, step: Step): Option<L.Step> {
    match step
    case Table(ls) => Some(ls)
    case Protocol(cs) => CountMove(id, cs)
  }

  function CoreStep(id: nat, life: L.State, step: Step): Option<C.Step> {
    match step
    case Table(ls) => GuardMove(life, id, ls)
    case Protocol(cs) => Some(cs)
  }

  function LifeRun(id: nat, r: SystemRun): L.SystemRun {
    match r
    case Start(first) => Start(first.life)
    case Then(before, step, after) =>
      match LifeStep(id, step)
      case None => LifeRun(id, before)
      case Some(ls) => Then(LifeRun(id, before), ls, after.life)
  }

  function CoreRun(id: nat, r: SystemRun): C.SystemRun {
    match r
    case Start(first) => Start(first.core)
    case Then(before, step, after) =>
      match CoreStep(id, before.End().life, step)
      case None => CoreRun(id, before)
      case Some(cs) => Then(CoreRun(id, before), cs, after.core)
  }

  /** A joint step is a step or a pause of each part. */
  lemma JointStep(id: nat, st: State, step: Step, st': State)
    requires Next(id, st, step, st')
    ensures match LifeStep(id, step)
            case None => st'.life == st.life
            case Some(ls) => LifeNext(st.life, ls, st'.life)
    ensures match CoreStep(id, st.life, step)
            case None => st'.core == st.core
            case Some(cs) => C.Next(st.core, cs, st'.core)
  {
    hide LifeNext, C.Next;
  }

  /** Every joint run is a run of the tables and a run of the protocol. */
  lemma {:induction false} BothLegal(id: nat, r: SystemRun)
    requires Legal(id, r)
    ensures L.Legal(LifeRun(id, r)) && LifeRun(id, r).End() == r.End().life
    ensures C.Legal(CoreRun(id, r)) && CoreRun(id, r).End() == r.End().core
  {
    if r.Start? {
    } else {
      hide Next, C.Next, L.Enabled, L.Apply, GuardMove, CountMove;
      BothLegal(id, r.before);
      JointStep(id, r.before.End(), r.step, r.after);
      LegalLife(id, r);
      LegalCore(id, r);
    }
  }

  lemma LegalLife(id: nat, r: SystemRun)
    requires r.Then? && L.Legal(LifeRun(id, r.before)) && LifeRun(id, r.before).End() == r.before.End().life
    requires match LifeStep(id, r.step)
             case None => r.after.life == r.before.End().life
             case Some(ls) => LifeNext(r.before.End().life, ls, r.after.life)
    ensures L.Legal(LifeRun(id, r)) && LifeRun(id, r).End() == r.after.life
  {
    hide L.Enabled, L.Apply, LifeStep;
  }

  lemma LegalCore(id: nat, r: SystemRun)
    requires r.Then? && C.Legal(CoreRun(id, r.before)) && CoreRun(id, r.before).End() == r.before.End().core
    requires match CoreStep(id, r.before.End().life, r.step)
             case None => r.after.core == r.before.End().core
             case Some(cs) => C.Next(r.before.End().core, cs, r.after.core)
    ensures C.Legal(CoreRun(id, r)) && CoreRun(id, r).End() == r.after.core
  {
    hide C.Next, CoreStep;
  }

  /* -------------------------------------------------- the counts agree */

  /** While the object is registered its entry is the protocol's counts; before
      that nobody refers to it. */
  ghost predicate Agree(id: nat, st: State) {
    && (id in st.life.counts ==> st.life.counts[id] == st.core.counts)
    && (!Known(st.life, id) ==> C.Initial(st.core))
  }

  lemma MoveCounts(core: C.State, cs: C.Step, core': C.State)
    requires C.Next(core, cs, core')
    ensures core'.counts == match cs
                            case TakeGuard => Mutate(core.counts, IncLocal)
                            case DropGuard => Mutate(core.counts, DecLocal)
                            case MarkOne(_) => Mutate(core.counts, Mark)
                            case ClearOne(_) => Mutate(core.counts, Clear)
                            case ProcessAcquire => Mutate(core.counts, IncRemote)
                            case ProcessRelease => Mutate(core.counts, DecRemote)
                            case _ => core.counts
  {
    hide Mutate;
  }

  /** How a step of the tables changes the object's entry. */
  lemma TableCounts(life: L.State, id: nat, ls: L.Step)
    requires L.InvAt(life, id) && L.Enabled(life, ls) && id == L.Target(life, ls) && !ls.Remote?
    ensures var life' := L.Apply(life, ls);
            && (id in life.counts && id in life'.counts ==>
                  life'.counts[id] == match GuardMove(life, id, ls)
                                      case None => life.counts[id]
                                      case Some(cs) =>
                                        Mutate(life.counts[id], if cs.TakeGuard? then IncLocal else DecLocal))
            && (id !in life.counts && id in life'.counts ==> !Known(life, id) && life'.counts[id] == NO_REFS)
            && (id !in life.counts ==> GuardMove(life, id, ls) == None)
  {
    hide Mutate;
  }

  lemma TableKnown(life: L.State, id: nat, ls: L.Step)
    requires L.InvAt(life, id) && L.Enabled(life, ls) && id == L.Target(life, ls)
    ensures Known(life, id) ==> Known(L.Apply(life, ls), id)
    ensures !Known(life, id) ==> GuardMove(life, id, ls) == None
  {
    hide Mutate;
  }

  lemma RemoteCounts(life: L.State, id: nat, op: RefOp)
    requires L.Enabled(life, L.Remote(id, op))
    ensures var life' := L.Apply(life, L.Remote(id, op));
            && life'.phases == life.phases && life'.counts.Keys == life.counts.Keys && life'.served == life.served
            && (id in life.counts ==> life'.counts[id] == Mutate(life.counts[id], op))
  {
    hide Mutate;
  }

  lemma AgreeTable(id: nat, st: State, ls: L.Step, st': State)
    requires L.InvAt(st.life, id) && Agree(id, st) && Next(id, st, Table(ls), st')
    ensures Agree(id, st')
  {
    hide L.Apply, L.Enabled, L.InvAt, C.Next, Mutate, C.Initial, GuardMove;
    if id == L.Target(st.life, ls) {
      TableCounts(st.life, id, ls);
      TableKnown(st.life, id, ls);
      var move := GuardMove(st.life, id, ls);
      if move.Some? {
        OnlyGuards(st.life, id, ls);
        MoveCounts(st.core, move.value, st'.core);
      } else {
        if !Known(st.life, id) {
          InitialCounts(st.core);
        }
      }
    } else {
      L.OthersSame(st.life, ls, id);
      OthersNoMove(st.life, id, ls);
    }
  }

  lemma InitialCounts(core: C.State)
    requires C.Initial(core)
    ensures core.counts == NO_REFS
  {
  }

  lemma OnlyGuards(life: L.State, id: nat, ls: L.Step)
    requires GuardMove(life, id, ls).Some?
    ensures GuardMove(life, id, ls).value.TakeGuard? || GuardMove(life, id, ls).value.DropGuard?
  {
  }

  lemma OthersNoMove(life: L.State, id: nat, ls: L.Step)
    requires id != L.Target(life, ls)
    ensures GuardMove(life, id, ls) == None
  {
  }

  lemma AgreeProtocol(id: nat, st: State, cs: C.Step, st': State)
    requires Agree(id, st) && Next(id, st, Protocol(cs), st')
    ensures Agree(id, st') && st'.life.phases == st.life.phases && st'.life.served == st.life.served
  {
    hide L.Apply, L.Enabled, C.Next, Mutate, C.Initial;
    MoveCounts(st.core, cs, st'.core);
    var move := CountMove(id, cs);
    if move.Some? {
      RemoteCounts(st.life, id, move.value.op);
    }
  }

  /** The invariants of both parts hold throughout. */
  lemma BothInv(id: nat, r: SystemRun)
    requires Legal(id, r)
    ensures L.InvAt(r.End().life, id) && C.Inv(r.End().core)
  {
    hide Legal, L.Legal, C.Legal, L.InvAt, C.Inv, LifeRun, CoreRun;
    BothLegal(id, r);
    L.InvRun(LifeRun(id, r));
    C.InvRun(CoreRun(id, r));
  }

  lemma AgreeStart(id: nat, st: State)
    requires Initial(st)
    ensures Agree(id, st)
  {
  }

  lemma {:induction false} AgreeRun(id: nat, r: SystemRun)
    requires Legal(id, r)
    ensures Agree(id, r.End())
  {
    hide Next, Initial, L.InvAt, C.Inv, Agree;
    if r.Start? {
      AgreeStart(id, r.first);
    } else {
      AgreeRun(id, r.before);
      BothInv(id, r.before);
      match r.step {
        case Table(ls) => AgreeTable(id, r.before.End(), ls, r.after);
        case Protocol(cs) => AgreeProtocol(id, r.before.End(), cs, r.after);
      }
    }
  }

  /** Neither part holds the other up: whatever the tables and guards can do, the
      protocol's guard count can follow, and whatever the protocol can do, the
      table can follow. */
  lemma {:induction false} NeverBlocked(id: nat, r: SystemRun, ls: L.Step, cs: C.Step)
    requires Legal(id, r)
    ensures var st := r.End();
            && (L.Enabled(st.life, ls) && GuardMove(st.life, id, ls).Some? ==>
                  C.Enabled(st.core, GuardMove(st.life, id, ls).value))
            && (C.Enabled(st.core, cs) && CountMove(id, cs).Some? ==> L.Enabled(st.life, CountMove(id, cs).value))
  {
    hide Legal, L.Enabled, C.Enabled, GuardMove, CountMove;
    AgreeRun(id, r);
    BothInv(id, r);
    if L.Enabled(r.End().life, ls) && GuardMove(r.End().life, id, ls).Some? {
      GuardFollows(id, r.End(), ls);
    }
    if C.Enabled(r.End().core, cs) && CountMove(id, cs).Some? {
      CountFollows(id, r.End(), cs);
    }
  }

  lemma DroppedWasCounted(life: L.State, id: nat, g: Guard<nat>)
    requires L.InvAt(life, id) && L.Enabled(life, L.DropGuard(g)) && GuardMove(life, id, L.DropGuard(g)).Some?
    ensures id in life.counts && life.counts[id].local >= 1
  {
    hide L.TablesOk, L.GuardsOk;
  }

  lemma GuardsCounted(core: C.State)
    requires C.Tallied(core)
    ensures core.counts.local == core.guards
  {
    hide C.CreditSum;
  }

  lemma GuardFollows(id: nat, st: State, ls: L.Step)
    requires Agree(id, st) && L.InvAt(st.life, id) && C.Tallied(st.core)
    requires L.Enabled(st.life, ls) && GuardMove(st.life, id, ls).Some?
    ensures C.Enabled(st.core, GuardMove(st.life, id, ls).value)
  {
    hide L.InvAt, L.Enabled, C.Tallied, C.Initial;
    GuardsCounted(st.core);
    if ls.DropGuard? {
      DroppedWasCounted(st.life, id, ls.g);
    }
  }

  lemma CountFollows(id: nat, st: State, cs: C.Step)
    requires Agree(id, st) && C.Inv(st.core) && C.Enabled(st.core, cs) && CountMove(id, cs).Some?
    ensures L.Enabled(st.life, CountMove(id, cs).value)
  {
    hide C.Tallied, C.SendOk, C.CreditSum;
  }

  /* ------------------------------------------------- what it is all for */

  /** Another process holds the object, or a delivered send is about to make it
      acquire the object. */
  ghost predicate InUse(core: C.State) {
    core.remoteRefs > 0 || exists k :: 0 <= k < |core.sends| && core.sends[k].Delivered() && core.sends[k].awaiting
  }

  /** No send marks the object once its zero was observed. */
  ghost predicate UnmarkedSince(id: nat, r: SystemRun) {
    r.Then? ==>
      && UnmarkedSince(id, r.before)
      && (L.Past(r.before.End().life, id) ==> !(r.step.Protocol? && r.step.cs.MarkOne?))
  }

  /** Nothing is on its way to another process. */
  ghost predicate Dormant(core: C.State) {
    && core.remoteRefs == 0
    && forall k | 0 <= k < |core.sends| :: DormantSend(core.sends[k])
  }

  predicate DormantSend(s: C.Send) {
    && !s.phase.InFlight?
    && (s.phase.Marking? ==> s.marked == 0)
    && !(s.Delivered() && s.awaiting)
  }

  lemma DormantNotInUse(core: C.State)
    requires Dormant(core)
    ensures !InUse(core)
  {
    hide DormantSend;
    forall k | 0 <= k < |core.sends|
      ensures !(core.sends[k].Delivered() && core.sends[k].awaiting)
    {
      assert DormantSend(core.sends[k]);
      NotDelivered(core.sends[k]);
    }
  }

  lemma NotDelivered(s: C.Send)
    requires DormantSend(s)
    ensures !(s.Delivered() && s.awaiting)
  {
  }

  lemma UnfundedSend(s: C.Send)
    requires C.SendOk(s) && P.Funded(s, 0) && s.credits == 0
    ensures DormantSend(s)
  {
  }

  lemma NoCounts(core: C.State)
    requires C.Tallied(core) && core.watch == 0
    ensures core.counts.remote == 0 && core.counts.pending == 0
  {
    hide C.CreditSum;
  }

  lemma CoveredParts(core: C.State, k: nat)
    requires P.Covered(core) && k < |core.sends|
    ensures C.Tallied(core) && core.counts.pending == C.CreditSum(core.sends)
    ensures C.SendOk(core.sends[k]) && P.Funded(core.sends[k], core.counts.remote)
  {
    hide C.Conserved, C.Tallied, P.Owned, C.SendOk, P.Funded, C.CreditSum;
  }

  lemma NothingCounted(core: C.State, k: nat)
    requires P.Covered(core) && core.watch == 0 && k < |core.sends|
    ensures core.counts.remote == 0 && core.sends[k].credits == 0
    ensures C.SendOk(core.sends[k]) && P.Funded(core.sends[k], 0)
  {
    hide P.Covered, C.Tallied, C.SendOk, P.Funded, C.CreditSum;
    CoveredParts(core, k);
    NoCounts(core);
    C.CreditAt(core.sends, k);
  }

  lemma ZeroSendDormant(core: C.State, k: nat)
    requires P.Covered(core) && core.watch == 0 && k < |core.sends|
    ensures DormantSend(core.sends[k])
  {
    hide P.Covered, C.SendOk, P.Funded, DormantSend;
    NothingCounted(core, k);
    UnfundedSend(core.sends[k]);
  }

  /** A covered object that publishes zero is dormant. */
  lemma ZeroDormant(core: C.State)
    requires P.Covered(core) && core.watch == 0
    ensures Dormant(core)
  {
    hide P.Covered, DormantSend;
    P.ZeroMeansFree(core);
    forall k | 0 <= k < |core.sends|
      ensures DormantSend(core.sends[k])
    {
      ZeroSendDormant(core, k);
    }
  }

  lemma DormantSendStep(core: C.State, cs: C.Step, k: nat)
    requires Dormant(core) && C.Inv(core) && C.Enabled(core, cs) && !cs.MarkOne?
    requires k < |C.Apply(core, cs).sends|
    ensures DormantSend(C.Apply(core, cs).sends[k])
  {
    hide Mutate, C.Conserved, C.Tallied;
    if k < |core.sends| {
      assert DormantSend(core.sends[k]) && C.SendOk(core.sends[k]);
    }
  }

  lemma DormantRefsStep(core: C.State, cs: C.Step)
    requires Dormant(core) && C.Enabled(core, cs)
    ensures C.Apply(core, cs).remoteRefs == 0
  {
    hide Mutate;
  }

  /** It stays dormant as long as nothing marks it. */
  lemma DormantStep(core: C.State, cs: C.Step)
    requires Dormant(core) && C.Inv(core) && C.Enabled(core, cs) && !cs.MarkOne?
    ensures Dormant(C.Apply(core, cs))
  {
    hide C.Apply, C.Enabled, C.Inv, DormantSend;
    DormantRefsStep(core, cs);
    forall k | 0 <= k < |C.Apply(core, cs).sends|
      ensures DormantSend(C.Apply(core, cs).sends[k])
    {
      DormantSendStep(core, cs, k);
    }
  }

  /** The step that takes a service past watching leaves the protocol alone. */
  lemma ObservingStep(id: nat, st: State, step: Step, st': State)
    requires L.InvAt(st.life, id) && Agree(id, st) && Next(id, st, step, st')
    requires !L.Past(st.life, id) && L.Past(st'.life, id)
    ensures L.Zero(st.life, id) && st'.core == st.core
  {
    hide Mutate, C.Next, C.Initial;
    match step {
      case Table(ls) =>
        L.PastStep(st.life, ls, id);
        if L.Target(st.life, ls) != id {
          L.OthersSame(st.life, ls, id);
        }
      case Protocol(cs) =>
        AgreeProtocol(id, st, cs, st');
        assert false;
    }
  }

  /** No BR_RELEASE is processed while some send is between its start and its
      acquire, or still running. */
  ghost predicate QuietReleases(r: SystemRun) {
    r.Then? ==> QuietReleases(r.before) && (r.step == Protocol(C.ProcessRelease) ==> P.Calm(r.before.End().core))
  }

  lemma {:induction false} QuietCore(id: nat, r: SystemRun)
    requires Legal(id, r) && QuietReleases(r)
    ensures C.Legal(CoreRun(id, r)) && P.QuietReleases(CoreRun(id, r)) && CoreRun(id, r).End() == r.End().core
  {
    BothLegal(id, r);
    if r.Start? {
    } else {
      hide Next, C.Next, P.Calm, L.Legal;
      BothLegal(id, r.before);
      QuietCore(id, r.before);
      if r.step.Table? && GuardMove(r.before.End().life, id, r.step.ls).Some? {
        OnlyGuards(r.before.End().life, id, r.step.ls);
      }
    }
  }

  lemma ZeroPublished(id: nat, st: State)
    requires Agree(id, st) && C.Inv(st.core) && L.Zero(st.life, id)
    ensures st.core.watch == 0
  {
  }

  /** After the observation of zero the object is dormant. */
  lemma {:induction false} DormantPast(id: nat, r: SystemRun)
    requires Legal(id, r) && QuietReleases(r) && UnmarkedSince(id, r)
    requires L.Past(r.End().life, id)
    ensures Dormant(r.End().core)
  {
    if r.Start? {
    } else {
      hide Next, L.InvAt, C.Inv, Agree, Dormant, L.Past, L.Zero, P.Covered;
      var st := r.before.End();
      BothInv(id, r.before);
      AgreeRun(id, r.before);
      if L.Past(st.life, id) {
        DormantPast(id, r.before);
        DormantNext(id, st, r.step, r.after);
      } else {
        ObservingStep(id, st, r.step, r.after);
        ZeroPublished(id, st);
        QuietCore(id, r.before);
        P.CoveredRun(CoreRun(id, r.before));
        ZeroDormant(st.core);
      }
    }
  }

  lemma DormantNext(id: nat, st: State, step: Step, st': State)
    requires Dormant(st.core) && C.Inv(st.core) && Next(id, st, step, st') && !(step.Protocol? && step.cs.MarkOne?)
    ensures Dormant(st'.core)
  {
    hide Dormant, C.Inv, C.Apply, C.Enabled, LifeNext, GuardMove;
    JointStep(id, st, step, st');
    var move := CoreStep(id, st.life, step);
    if move.Some? {
      if step.Table? {
        OnlyGuards(st.life, id, step.ls);
      }
      DormantStep(st.core, move.value);
    }
  }

  /** Main result: if no BR_RELEASE is processed while a send is unsettled, and no
      send marks the object after its zero was observed, then a service that
      another process holds, or that a delivered send is about to hand over, is
      in every table, so that its transactions find their handler. */
  lemma {:induction false} InUseStaysRegistered(id: nat, r: SystemRun)
    requires Legal(id, r) && QuietReleases(r) && UnmarkedSince(id, r)
    requires id in r.End().life.served && InUse(r.End().core)
    ensures id in r.End().life.retained && id in r.End().life.objects && id in r.End().life.counts
  {
    hide Legal, QuietReleases, UnmarkedSince, InUse, Dormant;
    BothInv(id, r);
    if L.Past(r.End().life, id) {
      DormantPast(id, r);
      DormantNotInUse(r.End().core);
      assert false;
    }
  }
}
