/** Registration, guards and service mode of all local objects, as one step
    system. Each step is one access to one table; threads interleave freely
    between them. Objects are numbered in the order of registration, which
    identifies them as long as the id counter has not wrapped
    (Device.IdsDistinct). */
module Lifecycle {
  import opened RefState
  import opened Registry
  import opened Runs

  /** Where the owning `BinderObject` of an object is. */
  datatype Phase =
    | Registering  // handler inserted, counts not yet
    | Held         // in the user's hands
    | Retaining    // to_service moved it into retained_services
    | LookedUp     // to_service found the handler for its reference
    | Referenced   // to_service holds its reference, not yet watching
    | Watching     // the clean-up task waits for zero
    | Observed     // it saw zero, and has not removed anything yet
    | Dropping     // the owner's drop has begun
    | Removing     // handler removed, counts not yet
    | Gone
    | Panicked     // an expect in to_service failed

  datatype State = State(
    registered: nat,              // how many objects so far
    phases: map<nat, Phase>,
    objects: set<nat>,
    counts: map<nat, RefCounts>,
    retained: set<nat>,
    guards: multiset<Guard<nat>>,
    looking: multiset<nat>,       // from_id calls between their two lookups
    served: set<nat>              // history: to_service was called
  )

  predicate Initial(st: State) {
    && st.registered == 0 && st.phases == map[] && st.objects == {} && st.counts == map[] && st.retained == {}
    && st.guards == multiset{} && st.looking == multiset{} && st.served == {}
  }

  datatype Step =
    | BeginRegister
    | EndRegister(id: nat)
    | Lookup(id: nat)
    | FinishBorrow(id: nat)
    | FinishTyped(id: nat)
    | OwnerBorrow(id: nat)
    | CloneGuard(g: Guard<nat>)
    | DropGuard(g: Guard<nat>)
    | DropOwner(id: nat)
    | RemoveObjects(id: nat)
    | RemoveCounts(id: nat)
    | Retain(id: nat)
    | ServiceLookup(id: nat)
    | ServiceCount(id: nat)
    | Watch(id: nat)
    | Observe(id: nat)
    | Evict(id: nat)
    | Remote(id: nat, op: RefOp)

  predicate At(st: State, id: nat, p: Phase) {
    id in st.phases && st.phases[id] == p
  }

  predicate Zero(st: State, id: nat) {
    id in st.counts && st.counts[id].Total() == 0
  }

  predicate Enabled(st: State, step: Step) {
    match step
    case BeginRegister => true
    case EndRegister(id) => At(st, id, Registering)
    case Lookup(id) => true
    case FinishBorrow(id) => id in st.looking
    case FinishTyped(id) => id in st.looking
    case OwnerBorrow(id) => At(st, id, Held)
    case CloneGuard(g) => g in st.guards
    case DropGuard(g) =>
      // the reference that to_service is about to return stays with it
      g in st.guards && (At(st, g.id, Referenced) && g.Typed? ==> st.guards[g] > 1)
    case DropOwner(id) => At(st, id, Held)
    case RemoveObjects(id) => At(st, id, Dropping)
    case RemoveCounts(id) => At(st, id, Removing)
    case Retain(id) => At(st, id, Held)
    case ServiceLookup(id) => At(st, id, Retaining)
    case ServiceCount(id) => At(st, id, LookedUp)
    case Watch(id) => At(st, id, Referenced)
    case Observe(id) => At(st, id, Watching) && Zero(st, id)
    case Evict(id) => At(st, id, Observed)
    case Remote(id, op) =>
      && (op.Mark? || op.Clear? || op.IncRemote? || op.DecRemote?)
      && (op == DecRemote && id in st.counts ==> st.counts[id].remote > 0)
  }

  function Move(st: State, id: nat, p: Phase): State {
    st.(phases := st.phases[id := p])
  }

  function Count(st: State, id: nat, op: RefOp): State {
    if id in st.counts then st.(counts := st.counts[id := Mutate(st.counts[id], op)]) else st
  }

  function AddGuard(st: State, g: Guard<nat>): State {
    Count(st, g.id, IncLocal).(guards := st.guards[g := st.guards[g] + 1])
  }

  function Apply(st: State, step: Step): State
    requires Enabled(st, step)
  {
    match step
    case BeginRegister =>
      var id := st.registered;
      Move(st, id, Registering).(registered := id + 1, objects := st.objects + {id})
    case EndRegister(id) => Move(st, id, Held).(counts := st.counts[id := NO_REFS])
    case Lookup(id) => if id in st.objects then st.(looking := st.looking[id := st.looking[id] + 1]) else st
    case FinishBorrow(id) =>
      AddGuard(st, Borrowed(id, id in st.counts)).(looking := st.looking[id := st.looking[id] - 1])
    case FinishTyped(id) =>
      (if id in st.counts then AddGuard(st, Typed(id)) else st).(looking := st.looking[id := st.looking[id] - 1])
    case OwnerBorrow(id) => AddGuard(st, Borrowed(id, id in st.counts))
    case CloneGuard(g) => AddGuard(st, if g.Typed? then g else Borrowed(g.id, g.id in st.counts))
    case DropGuard(g) =>
      (if g.Typed? || g.increasedLocalRef then Count(st, g.id, DecLocal) else st)
      .(guards := st.guards[g := st.guards[g] - 1])
    case DropOwner(id) => Move(st, id, Dropping)
    case RemoveObjects(id) => Move(st, id, Removing).(objects := st.objects - {id})
    case RemoveCounts(id) => Move(st, id, Gone).(counts := st.counts - {id})
    case Retain(id) => Move(st, id, Retaining).(retained := st.retained + {id}, served := st.served + {id})
    case ServiceLookup(id) => Move(st, id, if id in st.objects then LookedUp else Panicked)
    case ServiceCount(id) =>
      if id in st.counts then Move(AddGuard(st, Typed(id)), id, Referenced) else Move(st, id, Panicked)
    case Watch(id) => Move(st, id, if id in st.counts then Watching else Observed)
    case Observe(id) => Move(st, id, Observed)
    case Evict(id) => Move(st, id, Dropping).(retained := st.retained - {id})
    case Remote(id, op) => Count(st, id, op)
  }

  /* ----------------------------------------------------------------- runs */

  type SystemRun = Run<State, Step>

  ghost predicate Legal(r: SystemRun) {
    match r
    case Start(first) => Initial(first)
    case Then(before, step, after) => Legal(before) && Enabled(before.End(), step) && after == Apply(before.End(), step)
  }

  ghost predicate Reachable(st: State) {
    exists r :: Legal(r) && r.End() == st
  }

  /* ----------------------------------------------------------- invariants */

  predicate HasHandler(p: Phase) {
    p.Registering? || p.Held? || p.Retaining? || p.LookedUp? || p.Referenced? || p.Watching? || p.Observed?
        || p.Dropping?
  }

  predicate HasCounts(p: Phase) {
    p.Held? || p.Retaining? || p.LookedUp? || p.Referenced? || p.Watching? || p.Observed? || p.Dropping? || p.Removing?
  }

  predicate IsRetained(p: Phase) {
    p.Retaining? || p.LookedUp? || p.Referenced? || p.Watching? || p.Observed?
  }

  /** The live guards that count for an object. */
  function Counted(guards: multiset<Guard<nat>>, id: nat): nat {
    guards[Typed(id)] + guards[Borrowed(id, true)]
  }

  ghost predicate TablesOk(st: State, id: nat) {
    && (id in st.phases <==> id < st.registered)
    && (id in st.objects <==> id in st.phases && HasHandler(st.phases[id]))
    && (id in st.counts <==> id in st.phases && HasCounts(st.phases[id]))
    && (id in st.retained <==> id in st.phases && IsRetained(st.phases[id]))
    && (id in st.served ==> id in st.phases && !st.phases[id].Registering? && !st.phases[id].Held?)
    && !At(st, id, Panicked)
  }

  ghost predicate GuardsOk(st: State, id: nat) {
    && (id in st.looking || Counted(st.guards, id) > 0 || Borrowed(id, false) in st.guards ==> id in st.phases)
    && (At(st, id, Registering) ==> Counted(st.guards, id) == 0)
    && (At(st, id, Referenced) ==> st.guards[Typed(id)] > 0)
  }

  ghost predicate CountsOk(st: State, id: nat) {
    id in st.counts ==>
      st.counts[id].local == Counted(st.guards, id) && st.counts[id].remote >= 0 && st.counts[id].pending >= 0
  }

  ghost predicate InvAt(st: State, id: nat) {
    TablesOk(st, id) && GuardsOk(st, id) && CountsOk(st, id)
  }

  ghost predicate Inv(st: State) {
    forall id: nat :: InvAt(st, id)
  }

  /** The one object that a step is about. */
  function Target(st: State, step: Step): nat {
    if step.BeginRegister? then st.registered
    else if step.CloneGuard? || step.DropGuard? then step.g.id
    else step.id
  }

  /** Nothing about this object differs. */
  ghost predicate Same(st: State, st': State, id: nat) {
    && (id < st.registered <==> id < st'.registered)
    && (id in st.phases <==> id in st'.phases) && (id in st.phases ==> st.phases[id] == st'.phases[id])
    && (id in st.objects <==> id in st'.objects)
    && (id in st.counts <==> id in st'.counts) && (id in st.counts ==> st.counts[id] == st'.counts[id])
    && (id in st.retained <==> id in st'.retained) && (id in st.served <==> id in st'.served)
    && st.guards[Typed(id)] == st'.guards[Typed(id)]
    && st.guards[Borrowed(id, true)] == st'.guards[Borrowed(id, true)]
    && st.guards[Borrowed(id, false)] == st'.guards[Borrowed(id, false)]
    && st.looking[id] == st'.looking[id]
  }

  lemma LookOthers(st: State, step: Step, id: nat)
    requires Enabled(st, step) && id != Target(st, step)
    requires step.Lookup? || step.OwnerBorrow?
    ensures Same(st, Apply(st, step), id)
  {
    hide Mutate;
  }

  lemma FinishOthers(st: State, step: Step, id: nat)
    requires Enabled(st, step) && id != Target(st, step)
    requires step.FinishBorrow? || step.FinishTyped?
    ensures Same(st, Apply(st, step), id)
  {
    hide Mutate;
  }

  lemma GuardOthers(st: State, step: Step, id: nat)
    requires Enabled(st, step) && id != Target(st, step)
    requires step.CloneGuard? || step.DropGuard?
    ensures Same(st, Apply(st, step), id)
  {
    hide Mutate;
  }

  lemma OwnerOthers(st: State, step: Step, id: nat)
    requires Enabled(st, step) && id != Target(st, step)
    requires step.BeginRegister? || step.EndRegister? || step.DropOwner? || step.RemoveObjects? || step.RemoveCounts?
    ensures Same(st, Apply(st, step), id)
  {
    hide Mutate;
  }

  lemma ServiceOthers(st: State, step: Step, id: nat)
    requires Enabled(st, step) && id != Target(st, step)
    requires step.Retain? || step.ServiceLookup? || step.ServiceCount? || step.Watch? || step.Observe? || step.Evict?
    ensures Same(st, Apply(st, step), id)
  {
    hide Mutate;
  }

  lemma RemoteOthers(st: State, step: Step, id: nat)
    requires Enabled(st, step) && id != Target(st, step)
    requires step.Remote?
    ensures Same(st, Apply(st, step), id)
  {
    hide Mutate;
  }

  lemma OthersSame(st: State, step: Step, id: nat)
    requires Enabled(st, step) && id != Target(st, step)
    ensures Same(st, Apply(st, step), id)
  {
    hide Apply, Same, Enabled;
    if step.Lookup? || step.OwnerBorrow? {
      LookOthers(st, step, id);
    } else if step.FinishBorrow? || step.FinishTyped? {
      FinishOthers(st, step, id);
    } else if step.Remote? {
      RemoteOthers(st, step, id);
    } else if step.CloneGuard? || step.DropGuard? {
      GuardOthers(st, step, id);
    } else if step.BeginRegister? || step.EndRegister? || step.DropOwner? || step.RemoveObjects? || step.RemoveCounts? {
      OwnerOthers(st, step, id);
    } else {
      ServiceOthers(st, step, id);
    }
  }

  lemma InvSame(st: State, st': State, id: nat)
    requires InvAt(st, id) && Same(st, st', id)
    ensures InvAt(st', id)
  {
  }

  lemma LookStep(st: State, step: Step)
    requires Enabled(st, step) && (step.Lookup? || step.OwnerBorrow?)
    requires InvAt(st, Target(st, step))
    ensures InvAt(Apply(st, step), Target(st, step))
  {
  }

  lemma FinishStep(st: State, step: Step)
    requires Enabled(st, step) && (step.FinishBorrow? || step.FinishTyped?)
    requires InvAt(st, Target(st, step))
    ensures InvAt(Apply(st, step), Target(st, step))
  {
  }

  lemma CloneStep(st: State, step: Step)
    requires Enabled(st, step) && (step.CloneGuard?)
    requires InvAt(st, Target(st, step))
    ensures InvAt(Apply(st, step), Target(st, step))
  {
  }

  lemma DropStep(st: State, step: Step)
    requires Enabled(st, step) && (step.DropGuard?)
    requires InvAt(st, Target(st, step))
    ensures InvAt(Apply(st, step), Target(st, step))
  {
  }

  lemma RegisterStep(st: State, step: Step)
    requires Enabled(st, step) && (step.BeginRegister? || step.EndRegister?)
    requires InvAt(st, Target(st, step))
    ensures InvAt(Apply(st, step), Target(st, step))
  {
  }

  lemma DropOwnerStep(st: State, step: Step)
    requires Enabled(st, step) && (step.DropOwner? || step.RemoveObjects?)
    requires InvAt(st, Target(st, step))
    ensures InvAt(Apply(st, step), Target(st, step))
  {
  }

  lemma RemoveCountsStep(st: State, step: Step)
    requires Enabled(st, step) && (step.RemoveCounts?)
    requires InvAt(st, Target(st, step))
    ensures InvAt(Apply(st, step), Target(st, step))
  {
  }

  lemma RetainStep(st: State, step: Step)
    requires Enabled(st, step) && (step.Retain? || step.ServiceLookup? || step.ServiceCount?)
    requires InvAt(st, Target(st, step))
    ensures InvAt(Apply(st, step), Target(st, step))
  {
  }

  lemma WatchStep(st: State, step: Step)
    requires Enabled(st, step) && (step.Watch? || step.Observe? || step.Evict?)
    requires InvAt(st, Target(st, step))
    ensures InvAt(Apply(st, step), Target(st, step))
  {
  }

  lemma RemoteStep(st: State, step: Step)
    requires Enabled(st, step) && (step.Remote?)
    requires InvAt(st, Target(st, step))
    ensures InvAt(Apply(st, step), Target(st, step))
  {
  }

  lemma InvStep(st: State, step: Step, id: nat)
    requires InvAt(st, id) && Enabled(st, step)
    ensures InvAt(Apply(st, step), id)
  {
    hide Apply, InvAt, Enabled;
    if id != Target(st, step) {
      OthersSame(st, step, id);
      InvSame(st, Apply(st, step), id);
    } else {
      match step {
        case Lookup(_) => LookStep(st, step);
        case OwnerBorrow(_) => LookStep(st, step);
        case FinishBorrow(_) => FinishStep(st, step);
        case FinishTyped(_) => FinishStep(st, step);
        case CloneGuard(_) => CloneStep(st, step);
        case DropGuard(_) => DropStep(st, step);
        case Remote(_, _) => RemoteStep(st, step);
        case BeginRegister => RegisterStep(st, step);
        case EndRegister(_) => RegisterStep(st, step);
        case DropOwner(_) => DropOwnerStep(st, step);
        case RemoveObjects(_) => DropOwnerStep(st, step);
        case RemoveCounts(_) => RemoveCountsStep(st, step);
        case Retain(_) => RetainStep(st, step);
        case ServiceLookup(_) => RetainStep(st, step);
        case ServiceCount(_) => RetainStep(st, step);
        case _ => WatchStep(st, step);
      }
    }
  }

  lemma {:induction false} InvRun(r: SystemRun)
    requires Legal(r)
    ensures Inv(r.End())
  {
    if r.Start? {
    } else {
      hide InvAt, Apply, Enabled;
      InvRun(r.before);
      forall id: nat
        ensures InvAt(r.after, id)
      {
        InvStep(r.before.End(), r.step, id);
      }
    }
  }

  lemma {:induction false} InvReachable(st: State, id: nat)
    requires Reachable(st)
    ensures InvAt(st, id)
  {
    var r :| Legal(r) && r.End() == st;
    InvRun(r);
  }

  /* ------------------------------------------------------------- guards */

  /** Main result: the local count of a registered object is at all times the
      number of its live counted guards, so no drop takes it below zero. */
  lemma {:induction false} LocalCountsGuards(r: SystemRun, id: nat)
    requires Legal(r) && id in r.End().counts
    ensures var st := r.End();
            && st.counts[id].local == st.guards[Typed(id)] + st.guards[Borrowed(id, true)]
            && forall g | g in st.guards && g.id == id && (g.Typed? || g.increasedLocalRef) :: st.counts[id].local >= 1
  {
    hide Legal, Apply;
    InvRun(r);
    assert InvAt(r.End(), id);
  }

  /** The object has been unregistered, or is about to be and out of reach. */
  predicate Unregistered(st: State, id: nat) {
    id < st.registered && id !in st.objects && id !in st.counts && id !in st.retained
  }

  lemma UnregisteredStep(st: State, step: Step, id: nat)
    requires InvAt(st, id) && Enabled(st, step) && Unregistered(st, id)
    ensures Unregistered(Apply(st, step), id)
  {
    hide Mutate;
    if id != Target(st, step) {
      OthersSame(st, step, id);
    }
  }

  lemma {:induction false} ExtendsLegal(r: SystemRun, r': SystemRun)
    requires Legal(r') && Extends(r, r')
    ensures Legal(r)
  {
    if r == r' {
    } else {
      ExtendsLegal(r, r'.before);
    }
  }

  /** Main result: once an object is out of the tables it stays out in every
      continuation of the run, and whatever the guards that outlived it do. */
  lemma {:induction false} GoneForGood(r: SystemRun, r': SystemRun, id: nat)
    requires Legal(r') && Extends(r, r') && Unregistered(r.End(), id)
    ensures Unregistered(r'.End(), id)
  {
    if r == r' {
    } else {
      GoneForGood(r, r'.before, id);
      InvRun(r'.before);
      UnregisteredStep(r'.before.End(), r'.step, id);
    }
  }

  /** Cloning or dropping a guard leaves the other objects' entries alone. */
  lemma GuardTouchesOnlyItsObject(st: State, step: Step, other: nat)
    requires Enabled(st, step) && (step.CloneGuard? || step.DropGuard?)
    ensures other in Apply(st, step).counts <==> other in st.counts
    ensures other in st.counts && other != step.g.id ==> Apply(st, step).counts[other] == st.counts[other]
    ensures Unregistered(st, step.g.id) ==> Apply(st, step).counts == st.counts
  {
    if other != step.g.id {
      OthersSame(st, step, other);
    }
  }

  /** Main result: a guard that outlives its object is harmless for ever after: in
      every continuation of the run, cloning or dropping it changes no count of
      any object, whatever has been registered since. */
  lemma OutlivingGuardHarmless(r: SystemRun, r': SystemRun, step: Step)
    requires Legal(r') && Extends(r, r')
    requires (step.CloneGuard? || step.DropGuard?) && Enabled(r'.End(), step) && Unregistered(r.End(), step.g.id)
    ensures Apply(r'.End(), step).counts == r'.End().counts
  {
    hide Legal, Extends, Apply, Enabled, Unregistered;
    GoneForGood(r, r', step.g.id);
    GuardTouchesOnlyItsObject(r'.End(), step, step.g.id);
  }

  /** A new object's id was never used before, so no guard from elsewhere can
      count for it. */
  lemma {:induction false} NewObjectsAreNew(r: SystemRun, id: nat)
    requires Legal(r) && Enabled(r.End(), EndRegister(id))
    ensures r.End().registered !in r.End().phases
    ensures id !in r.End().counts && forall g | g in r.End().guards && g.id == id :: g == Borrowed(id, false)
  {
    var st := r.End();
    hide Legal, Apply;
    InvRun(r);
    assert InvAt(st, id) && InvAt(st, st.registered);
    forall g | g in st.guards && g.id == id
      ensures g == Borrowed(id, false)
    {
      assert Counted(st.guards, id) == 0;
    }
  }

  /* ------------------------------------------------------------- services */

  /** Main result: neither lookup of to_service can fail, and the clean-up task
      starts watching while the count is positive, so the zero from before the
      first reference is never what it sees. */
  lemma {:induction false} ServiceStarts(r: SystemRun, id: nat)
    requires Legal(r)
    ensures var st := r.End();
            && !At(st, id, Panicked)
            && (At(st, id, Retaining) || At(st, id, LookedUp) || At(st, id, Referenced) ==>
                  id in st.objects && id in st.counts && id in st.retained)
            && (Enabled(st, Watch(id)) ==> id in st.counts && st.counts[id].Total() >= 1)
  {
    hide Legal, Apply;
    InvRun(r);
    assert InvAt(r.End(), id);
  }

  /** Some state of the run in which the clean-up task was waiting had a total of
      zero. */
  ghost predicate SeenZero(r: SystemRun, id: nat) {
    (At(r.End(), id, Watching) && Zero(r.End(), id)) || (r.Then? && SeenZero(r.before, id))
  }

  predicate Past(st: State, id: nat) {
    id in st.served && !At(st, id, Retaining) && !At(st, id, LookedUp) && !At(st, id, Referenced)
        && !At(st, id, Watching)
  }

  /** The only way past watching is the observation of a zero. */
  lemma PastStep(st: State, step: Step, id: nat)
    requires InvAt(st, id) && Enabled(st, step) && Past(Apply(st, step), id)
    ensures Past(st, id) || (At(st, id, Watching) && Zero(st, id))
  {
    hide Mutate;
    if id != Target(st, step) {
      OthersSame(st, step, id);
    }
  }

  lemma {:induction false} PastZero(r: SystemRun, id: nat)
    requires Legal(r) && Past(r.End(), id)
    ensures SeenZero(r, id)
  {
    if r.Start? {
    } else {
      InvRun(r.before);
      PastStep(r.before.End(), r.step, id);
      if Past(r.before.End(), id) {
        PastZero(r.before, id);
      }
    }
  }

  /** Main result: on every run, an object in service mode is in all three tables
      until there has been a state, after its first reference, in which its total
      was zero. */
  lemma ServiceStaysUntilZero(r: SystemRun, id: nat)
    requires Legal(r) && id in r.End().served && !SeenZero(r, id)
    ensures id in r.End().retained && id in r.End().objects && id in r.End().counts
  {
    InvRun(r);
    assert InvAt(r.End(), id);
    if Past(r.End(), id) {
      PastZero(r, id);
    }
  }

  /* ------------------------------- between the observation and the removal */

  /** The steps that can raise a total from zero after it was observed: a weak
      upgrade, a clone of a guard that never counted, and the driver's side. */
  predicate Raises(st: State, step: Step, id: nat) {
    match step
    case FinishBorrow(i) => i == id
    case FinishTyped(i) => i == id
    case CloneGuard(g) => g.id == id
    case Remote(i, op) => i == id && (op == Mark || op == IncRemote)
    case _ => false
  }

  lemma ZeroGuards(st: State, step: Step, id: nat)
    requires InvAt(st, id) && Enabled(st, step) && id == Target(st, step)
    requires step.CloneGuard? || step.DropGuard?
    requires At(st, id, Observed) && Zero(st, id)
    ensures Zero(Apply(st, step), id) <==> !Raises(st, step, id)
  {
  }

  lemma ZeroBorrows(st: State, step: Step, id: nat)
    requires InvAt(st, id) && Enabled(st, step) && id == Target(st, step)
    requires step.Lookup? || step.FinishBorrow? || step.FinishTyped?
    requires At(st, id, Observed) && Zero(st, id)
    ensures Zero(Apply(st, step), id) <==> !Raises(st, step, id)
  {
  }

  lemma CountFromZero(st: State, id: nat, op: RefOp)
    requires id in st.counts && st.counts[id].local == 0 && st.counts[id].remote == 0 && st.counts[id].pending == 0
    requires op.Mark? || op.Clear? || op.IncRemote?
    ensures Zero(Count(st, id, op), id) <==> op == Clear
  {
  }

  lemma AllZero(st: State, id: nat)
    requires CountsOk(st, id) && Zero(st, id)
    ensures id in st.counts && st.counts[id].local == 0 && st.counts[id].remote == 0 && st.counts[id].pending == 0
  {
  }

  lemma RemoteEnabled(st: State, id: nat, op: RefOp)
    requires Enabled(st, Remote(id, op)) && id in st.counts && st.counts[id].remote == 0
    ensures op.Mark? || op.Clear? || op.IncRemote?
    ensures Apply(st, Remote(id, op)) == Count(st, id, op)
  {
    hide Mutate;
  }

  lemma ZeroRemote(st: State, id: nat, op: RefOp)
    requires CountsOk(st, id) && Enabled(st, Remote(id, op)) && Zero(st, id)
    ensures Zero(Apply(st, Remote(id, op)), id) <==> !Raises(st, Remote(id, op), id)
  {
    hide Apply, Count, Enabled, CountsOk, Zero, Mutate;
    AllZero(st, id);
    RemoteEnabled(st, id, op);
    CountFromZero(st, id, op);
  }

  lemma ZeroRest(st: State, step: Step, id: nat)
    requires InvAt(st, id) && Enabled(st, step) && id == Target(st, step)
    requires !step.CloneGuard? && !step.DropGuard? && !step.Lookup? && !step.FinishBorrow? && !step.FinishTyped?
              && !step.Remote?
    requires At(st, id, Observed) && Zero(st, id)
    ensures Zero(Apply(st, step), id) && !Raises(st, step, id)
  {
    hide Mutate, GuardsOk, CountsOk;
    assert step == Evict(id);
  }

  /** Main result: while an observed object waits to be removed, its total stays
      zero through a step exactly if the step is not one of those. */
  lemma ZeroHolds(st: State, step: Step, id: nat)
    requires Reachable(st) && Enabled(st, step)
    requires At(st, id, Observed) && Zero(st, id)
    ensures Zero(Apply(st, step), id) <==> !Raises(st, step, id)
  {
    hide Apply, Enabled, Zero, InvAt;
    InvReachable(st, id);
    if id != Target(st, step) {
      OthersSame(st, step, id);
      ZeroSame(st, Apply(st, step), id);
    } else if step.CloneGuard? || step.DropGuard? {
      ZeroGuards(st, step, id);
    } else if step.Lookup? || step.FinishBorrow? || step.FinishTyped? {
      ZeroBorrows(st, step, id);
    } else if step.Remote? {
      CountsHold(st, id);
      ZeroRemote(st, id, step.op);
    } else {
      ZeroRest(st, step, id);
    }
  }

  lemma CountsHold(st: State, id: nat)
    requires InvAt(st, id)
    ensures CountsOk(st, id)
  {
  }

  lemma ZeroSame(st: State, st': State, id: nat)
    requires Same(st, st', id) && Zero(st, id)
    ensures Zero(st', id)
  {
  }

  /** The run ends between observation and removal, and nothing raised the total
      since the observation. */
  ghost predicate CalmSince(r: SystemRun, id: nat) {
    r.Then? && At(r.after, id, Observed)
    && (r.step == Observe(id) || (CalmSince(r.before, id) && !Raises(r.before.End(), r.step, id)))
  }

  /** Main result: a service is removed at a total of zero if nothing took a new
      reference between the observation and the removal. */
  lemma {:induction false} RemovedAtZero(r: SystemRun, id: nat)
    requires Legal(r) && CalmSince(r, id)
    ensures Zero(r.End(), id)
  {
    if r.step == Observe(id) {
    } else {
      RemovedAtZero(r.before, id);
      assert Reachable(r.before.End());
      ZeroHolds(r.before.End(), r.step, id);
    }
  }

  /** The run ends between observation and removal, and the total was zero in
      every state since the observation. */
  ghost predicate ZeroSince(r: SystemRun, id: nat) {
    r.Then? && At(r.after, id, Observed) && Zero(r.after, id)
    && (r.step == Observe(id) || ZeroSince(r.before, id))
  }

  lemma ObserveKeepsZero(st: State, id: nat)
    requires Enabled(st, Observe(id))
    ensures Zero(Apply(st, Observe(id)), id)
  {
  }

  lemma StillObserved(r: SystemRun, id: nat)
    requires ZeroSince(r, id)
    ensures At(r.End(), id, Observed) && Zero(r.End(), id)
  {
  }

  lemma StillCalm(r: SystemRun, id: nat)
    requires CalmSince(r, id)
    ensures At(r.End(), id, Observed)
  {
  }

  /** Main result: the total stays zero from the observation on if and only if
      nothing takes a reference. */
  lemma {:induction false} ZeroSinceIff(r: SystemRun, id: nat)
    requires Legal(r)
    ensures ZeroSince(r, id) <==> CalmSince(r, id)
  {
    if r.Start? {
    } else if r.step == Observe(id) {
      hide Apply, Enabled, Zero, At;
      ObserveKeepsZero(r.before.End(), id);
    } else {
      hide Apply, Enabled, Zero, At, Raises;
      ZeroSinceIff(r.before, id);
      if CalmSince(r.before, id) {
        StillCalm(r.before, id);
        StillObserved(r.before, id);
        assert Reachable(r.before.End());
        ZeroHolds(r.before.End(), r.step, id);
      }
    }
  }

  /* ------------------------------------- a run in which something did */

  lemma Take(st: State, step: Step)
    requires Reachable(st) && Enabled(st, step)
    ensures Reachable(Apply(st, step))
  {
    var r :| Legal(r) && r.End() == st;
    assert Legal(Then(r, step, Apply(st, step)));
  }

  /** Object 0 in a phase, with this many typed and borrowed counted guards and
      from_id calls under way; it is the only object. */
  ghost predicate Single(st: State, p: Phase, typed: nat, borrowed: nat, looking: nat) {
    && st.registered == 1 && At(st, 0, p)
    && (0 in st.objects <==> HasHandler(p)) && (0 in st.counts <==> HasCounts(p))
    && (0 in st.retained <==> IsRetained(p))
    && (0 in st.counts ==> st.counts[0] == RefCounts(typed + borrowed, 0, 0))
    && st.guards[Typed(0)] == typed && st.guards[Borrowed(0, true)] == borrowed && st.looking[0] == looking
  }

  lemma SingleHeld() returns (st: State)
    ensures Reachable(st) && Single(st, Held, 0, 0, 0)
  {
    var none := State(0, map[], {}, map[], {}, multiset{}, multiset{}, {});
    var r: SystemRun := Start(none);
    assert Legal(r) && r.End() == none;
    Take(none, BeginRegister);
    var begun := Apply(none, BeginRegister);
    Take(begun, EndRegister(0));
    st := Apply(begun, EndRegister(0));
  }

  lemma SingleLookedUp() returns (st: State)
    ensures Reachable(st) && Single(st, LookedUp, 0, 0, 0)
  {
    var held := SingleHeld();
    Take(held, Retain(0));
    var retained := Apply(held, Retain(0));
    Take(retained, ServiceLookup(0));
    st := Apply(retained, ServiceLookup(0));
  }

  lemma SingleReferenced() returns (st: State)
    ensures Reachable(st) && Single(st, Referenced, 1, 0, 0)
  {
    var found := SingleLookedUp();
    Take(found, ServiceCount(0));
    st := Apply(found, ServiceCount(0));
  }

  lemma SingleWatching() returns (st: State)
    ensures Reachable(st) && Single(st, Watching, 1, 0, 0)
  {
    var referenced := SingleReferenced();
    Take(referenced, Watch(0));
    st := Apply(referenced, Watch(0));
  }

  lemma SingleDropped() returns (st: State)
    ensures Reachable(st) && Single(st, Watching, 0, 0, 0)
  {
    var watching := SingleWatching();
    Take(watching, DropGuard(Typed(0)));
    st := Apply(watching, DropGuard(Typed(0)));
  }

  lemma ObserveSingle(st: State)
    requires Single(st, Watching, 0, 0, 0) && Enabled(st, Observe(0))
    ensures Single(Apply(st, Observe(0)), Observed, 0, 0, 0)
  {
    hide Zero;
  }

  lemma NothingLeft(st: State)
    requires Single(st, Watching, 0, 0, 0)
    ensures Zero(st, 0) && At(st, 0, Watching)
  {
  }

  lemma ObserveEnabled(st: State, id: nat)
    requires At(st, id, Watching) && Zero(st, id)
    ensures Enabled(st, Observe(id))
  {
    hide Zero, At;
  }

  lemma SingleObserved() returns (st: State)
    ensures Reachable(st) && Single(st, Observed, 0, 0, 0)
  {
    hide Single, Apply, Enabled, Zero, Reachable;
    var dropped := SingleDropped();
    NothingLeft(dropped);
    ObserveEnabled(dropped, 0);
    ObserveSingle(dropped);
    Take(dropped, Observe(0));
    st := Apply(dropped, Observe(0));
  }

  /** The hypothesis is needed: a weak upgrade that lands between the observation
      and the removal leaves a live counted guard on an object that is then
      removed from every table. */
  lemma UpgradeCanLose() returns (st: State)
    ensures Reachable(st) && Unregistered(st, 0) && st.guards[Borrowed(0, true)] == 1
  {
    var observed := SingleObserved();
    Take(observed, Lookup(0));
    var found := Apply(observed, Lookup(0));
    Take(found, FinishBorrow(0));
    var upgraded := Apply(found, FinishBorrow(0));
    assert Single(upgraded, Observed, 0, 1, 0);
    st := RemoveAll(upgraded);
  }

  lemma RemoveAll(upgraded: State) returns (st: State)
    requires Reachable(upgraded) && Single(upgraded, Observed, 0, 1, 0)
    ensures Reachable(st) && Unregistered(st, 0) && st.guards[Borrowed(0, true)] == 1
  {
    Take(upgraded, Evict(0));
    var evicted := Apply(upgraded, Evict(0));
    Take(evicted, RemoveObjects(0));
    var half := Apply(evicted, RemoveObjects(0));
    Take(half, RemoveCounts(0));
    st := Apply(half, RemoveCounts(0));
  }
}
