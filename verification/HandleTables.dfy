/** The strong and weak proxies of one remote handle: the two weak-pointer
    tables, the reference counts on the proxies, and the commands sent to the
    driver. Reaching a count of zero and each statement of the drop body are
    separate steps, and any number of threads interleave between them. Other
    handles have their own entries and commands and share only the source of
    cookies. */
module HandleTables {
  import opened Runs
  import opened Sys

  datatype Command =
    | ACQUIRE | RELEASE | INCREFS | DECREFS
    | REQUEST_DEATH_NOTIFICATION(cookie: nat) | CLEAR_DEATH_NOTIFICATION(cookie: nat)

  /* -------------------------------------------------------------- proxies */

  datatype StrongPhase = StrongLive | Releasing | StrongEvicting | FieldDropping | StrongGone

  /** A `BinderRef`: its count, and the weak proxy in its field. */
  datatype StrongProxy = StrongProxy(weak: nat, count: nat, phase: StrongPhase)

  datatype WeakPhase = WeakLive | Clearing | Forgetting | Decreasing | WeakEvicting | WeakGone

  datatype Holder = ByStrong(i: nat) | ByThread(t: nat)

  /** A `WeakBinderRef`: its count is the loose references plus the holders,
      that is, the `BinderRef`s and the creating threads that have one. */
  datatype WeakProxy = WeakProxy(cookie: nat, loose: nat, holders: set<Holder>, phase: WeakPhase) {
    predicate Upgradable() {
      loose > 0 || holders != {}
    }
  }

  /** Where a thread is in `get_and_dedup_from_raw`; `forStrong` says that the
      weak call is nested in the strong one. */
  datatype Pc =
    | Idle
    | MissedStrong
    | MissedWeak(forStrong: bool)
    | Registered(forStrong: bool, cookie: nat)
    | Increased(forStrong: bool, cookie: nat)
    | Requested(forStrong: bool, cookie: nat)
    | HoldingWeak(weak: nat)
    | Acquired(weak: nat)

  datatype State = State(
    strongs: seq<StrongProxy>,  // every proxy ever created
    weaks: seq<WeakProxy>,
    refs: Option<nat>,          // the entry of the strong table
    weakRefs: Option<nat>,      // the entry of the weak table
    cookies: nat,               // the next death-notification cookie
    deaths: set<nat>,           // cookies in the notification table
    threads: seq<Pc>,
    trace: seq<Command>         // commands written so far
  )

  predicate Initial(st: State) {
    && |st.strongs| == 0 && |st.weaks| == 0 && st.refs == None && st.weakRefs == None
    && st.deaths == {} && |st.trace| == 0
    && forall t | 0 <= t < |st.threads| :: st.threads[t] == Idle
  }

  datatype Step =
    // get_and_dedup_from_raw
    | GetStrong(t: nat)
    | GetWeak(t: nat)
    | LookUpWeak(t: nat)
    | RegisterDeath(t: nat, cookie: nat)
    | WriteIncrefs(t: nat)
    | WriteRequest(t: nat)
    | InsertWeak(t: nat)
    | WriteAcquire(t: nat)
    | InsertStrong(t: nat)
    // reference counting
    | CloneStrong(i: nat)
    | Downgrade(i: nat)
    | Upgrade(w: nat)
    | CloneWeak(w: nat)
    | DropStrong(i: nat)
    | DropWeak(w: nat)
    // the drop body of BinderRef, then its field
    | WriteRelease(i: nat)
    | EvictStrong(i: nat)
    | DropField(i: nat)
    // the drop body of WeakBinderRef
    | WriteClear(w: nat)
    | ForgetDeath(w: nat)
    | WriteDecrefs(w: nat)
    | EvictWeak(w: nat)
    // the looper
    | DeadBinder(cookie: nat)

  predicate At(st: State, t: nat, pc: Pc) {
    t < |st.threads| && st.threads[t] == pc
  }

  predicate StrongUpgradable(st: State) {
    st.refs.Some? && st.refs.value < |st.strongs| && st.strongs[st.refs.value].count > 0
  }

  predicate WeakUpgradable(st: State) {
    st.weakRefs.Some? && st.weakRefs.value < |st.weaks| && st.weaks[st.weakRefs.value].Upgradable()
  }

  predicate Enabled(st: State, step: Step) {
    match step
    case GetStrong(t) => At(st, t, Idle)
    case GetWeak(t) => At(st, t, Idle)
    case LookUpWeak(t) => At(st, t, MissedStrong)
    case RegisterDeath(t, cookie) => t < |st.threads| && st.threads[t].MissedWeak? && cookie >= st.cookies
    case WriteIncrefs(t) => t < |st.threads| && st.threads[t].Registered?
    case WriteRequest(t) => t < |st.threads| && st.threads[t].Increased?
    case InsertWeak(t) => t < |st.threads| && st.threads[t].Requested?
    case WriteAcquire(t) => t < |st.threads| && st.threads[t].HoldingWeak?
    case InsertStrong(t) => t < |st.threads| && st.threads[t].Acquired? && st.threads[t].weak < |st.weaks|
    case CloneStrong(i) => i < |st.strongs| && st.strongs[i].count > 0
    case Downgrade(i) => i < |st.strongs| && st.strongs[i].count > 0 && st.strongs[i].weak < |st.weaks|
    case Upgrade(w) => w < |st.weaks| && st.weaks[w].loose > 0
    case CloneWeak(w) => w < |st.weaks| && st.weaks[w].loose > 0
    case DropStrong(i) => i < |st.strongs| && st.strongs[i].count > 0
    case DropWeak(w) => w < |st.weaks| && st.weaks[w].loose > 0
    case WriteRelease(i) => i < |st.strongs| && st.strongs[i].phase == Releasing
    case EvictStrong(i) => i < |st.strongs| && st.strongs[i].phase == StrongEvicting
    case DropField(i) => i < |st.strongs| && st.strongs[i].phase == FieldDropping && st.strongs[i].weak < |st.weaks|
    case WriteClear(w) => w < |st.weaks| && st.weaks[w].phase == Clearing
    case ForgetDeath(w) => w < |st.weaks| && st.weaks[w].phase == Forgetting
    case WriteDecrefs(w) => w < |st.weaks| && st.weaks[w].phase == Decreasing
    case EvictWeak(w) => w < |st.weaks| && st.weaks[w].phase == WeakEvicting
    case DeadBinder(cookie) => true
  }

  /** The steps of get_and_dedup_from_raw. */
  predicate OfThread(step: Step) {
    step.GetStrong? || step.GetWeak? || step.LookUpWeak? || step.RegisterDeath? || step.WriteIncrefs?
    || step.WriteRequest? || step.InsertWeak? || step.WriteAcquire? || step.InsertStrong?
  }

  function Go(st: State, t: nat, pc: Pc): State
    requires t < |st.threads|
  {
    st.(threads := st.threads[t := pc])
  }

  function SetStrong(st: State, i: nat, s: StrongProxy): State
    requires i < |st.strongs|
  {
    st.(strongs := st.strongs[i := s])
  }

  function SetWeak(st: State, w: nat, p: WeakProxy): State
    requires w < |st.weaks|
  {
    st.(weaks := st.weaks[w := p])
  }

  /** The last reference to a weak proxy starts its drop body. */
  function Settled(p: WeakProxy): WeakProxy {
    if p.Upgradable() then p else p.(phase := Clearing)
  }

  function Write(st: State, c: Command): State {
    st.(trace := st.trace + [c])
  }

  function Apply(st: State, step: Step): State
    requires Enabled(st, step)
  {
    match step
    case GetStrong(t) =>
      if StrongUpgradable(st) then
        SetStrong(st, st.refs.value, st.strongs[st.refs.value].(count := st.strongs[st.refs.value].count + 1))
      else Go(st, t, MissedStrong)
    case GetWeak(t) =>
      if WeakUpgradable(st) then
        SetWeak(st, st.weakRefs.value, st.weaks[st.weakRefs.value].(loose := st.weaks[st.weakRefs.value].loose + 1))
      else Go(st, t, MissedWeak(false))
    case LookUpWeak(t) =>
      if WeakUpgradable(st) then
        var w := st.weakRefs.value;
        Go(SetWeak(st, w, st.weaks[w].(holders := st.weaks[w].holders + {ByThread(t)})), t, HoldingWeak(w))
      else Go(st, t, MissedWeak(true))
    case RegisterDeath(t, cookie) =>
      Go(st, t, Registered(st.threads[t].forStrong, cookie)).(cookies := cookie + 1, deaths := st.deaths + {cookie})
    case WriteIncrefs(t) =>
      Write(Go(st, t, Increased(st.threads[t].forStrong, st.threads[t].cookie)), INCREFS)
    case WriteRequest(t) =>
      Write(Go(st, t, Requested(st.threads[t].forStrong, st.threads[t].cookie)),
            REQUEST_DEATH_NOTIFICATION(st.threads[t].cookie))
    case InsertWeak(t) =>
      var pc := st.threads[t];
      var w := |st.weaks|;
      var p := if pc.forStrong then WeakProxy(pc.cookie, 0, {ByThread(t)}, WeakLive)
          else WeakProxy(pc.cookie, 1, {}, WeakLive);
      Go(st, t, if pc.forStrong then HoldingWeak(w) else Idle).(weaks := st.weaks + [p], weakRefs := Some(w))
    case WriteAcquire(t) => Write(Go(st, t, Acquired(st.threads[t].weak)), ACQUIRE)
    case InsertStrong(t) =>
      var w, i := st.threads[t].weak, |st.strongs|;
      var p := st.weaks[w].(holders := st.weaks[w].holders - {ByThread(t)} + {ByStrong(i)});
      Go(SetWeak(st, w, p), t, Idle).(strongs := st.strongs + [StrongProxy(w, 1, StrongLive)], refs := Some(i))
    case CloneStrong(i) => SetStrong(st, i, st.strongs[i].(count := st.strongs[i].count + 1))
    case Downgrade(i) =>
      var w := st.strongs[i].weak;
      SetWeak(st, w, st.weaks[w].(loose := st.weaks[w].loose + 1))
    case Upgrade(_) =>
      if StrongUpgradable(st) then
        SetStrong(st, st.refs.value, st.strongs[st.refs.value].(count := st.strongs[st.refs.value].count + 1))
      else st
    case CloneWeak(w) => SetWeak(st, w, st.weaks[w].(loose := st.weaks[w].loose + 1))
    case DropStrong(i) =>
      var n := st.strongs[i].count - 1;
      SetStrong(st, i, st.strongs[i].(count := n, phase := if n == 0 then Releasing else st.strongs[i].phase))
    case DropWeak(w) => SetWeak(st, w, Settled(st.weaks[w].(loose := st.weaks[w].loose - 1)))
    case WriteRelease(i) => Write(SetStrong(st, i, st.strongs[i].(phase := StrongEvicting)), RELEASE)
    case EvictStrong(i) =>
      SetStrong(st, i, st.strongs[i].(phase := FieldDropping)).(refs := if StrongUpgradable(st) then st.refs else None)
    case DropField(i) =>
      var w := st.strongs[i].weak;
      var p := st.weaks[w].(holders := st.weaks[w].holders - {ByStrong(i)});
      SetStrong(SetWeak(st, w, Settled(p)), i, st.strongs[i].(phase := StrongGone))
    case WriteClear(w) =>
      Write(SetWeak(st, w, st.weaks[w].(phase := Forgetting)), CLEAR_DEATH_NOTIFICATION(st.weaks[w].cookie))
    case ForgetDeath(w) =>
      SetWeak(st, w, st.weaks[w].(phase := Decreasing)).(deaths := st.deaths - {st.weaks[w].cookie})
    case WriteDecrefs(w) => Write(SetWeak(st, w, st.weaks[w].(phase := WeakEvicting)), DECREFS)
    case EvictWeak(w) =>
      SetWeak(st, w, st.weaks[w].(phase := WeakGone)).(weakRefs := if WeakUpgradable(st) then st.weakRefs else None)
    case DeadBinder(cookie) => st.(deaths := st.deaths - {cookie})
  }

  /* ----------------------------------------------------------------- runs */

  type SystemRun = Run<State, Step>

  ghost predicate Legal(r: SystemRun) {
    match r
    case Start(first) => Initial(first)
    case Then(before, step, after) => Legal(before) && Enabled(before.End(), step) && after == Apply(before.End(), step)
  }

  ghost predicate Reachable(st: State) {
    exists r :: Legal(r) && r.End() == st
  }

  /* ----------------------------------------- every proxy stays well formed */

  predicate ThreadOk(st: State, t: nat)
    requires t < |st.threads|
  {
    st.threads[t].HoldingWeak? || st.threads[t].Acquired? ==>
      st.threads[t].weak < |st.weaks| && ByThread(t) in st.weaks[st.threads[t].weak].holders
  }

  predicate StrongOk(st: State, i: nat)
    requires i < |st.strongs|
  {
    var s := st.strongs[i];
    && (s.phase == StrongLive <==> s.count > 0)
    && s.weak < |st.weaks|
    && (s.phase != StrongGone ==> ByStrong(i) in st.weaks[s.weak].holders)
  }

  predicate HolderOk(st: State, w: nat, h: Holder) {
    match h
    case ByThread(t) => t < |st.threads| && (st.threads[t] == HoldingWeak(w) || st.threads[t] == Acquired(w))
    case ByStrong(i) => i < |st.strongs| && st.strongs[i].weak == w && st.strongs[i].phase != StrongGone
  }

  predicate WeakOk(st: State, w: nat)
    requires w < |st.weaks|
  {
    && (st.weaks[w].phase == WeakLive <==> st.weaks[w].Upgradable())
    && (forall h | h in st.weaks[w].holders :: HolderOk(st, w, h))
  }

  ghost predicate ThreadsOk(st: State) {
    forall t | 0 <= t < |st.threads| :: ThreadOk(st, t)
  }

  ghost predicate StrongsOk(st: State) {
    forall i | 0 <= i < |st.strongs| :: StrongOk(st, i)
  }

  ghost predicate WeaksOk(st: State) {
    forall w | 0 <= w < |st.weaks| :: WeakOk(st, w)
  }

  ghost predicate TableOk(st: State) {
    (st.refs.Some? ==> st.refs.value < |st.strongs|) && (st.weakRefs.Some? ==> st.weakRefs.value < |st.weaks|)
  }

  ghost predicate Inv(st: State) {
    ThreadsOk(st) && StrongsOk(st) && WeaksOk(st) && TableOk(st)
  }

  lemma ThreadsStepOfThread(st: State, step: Step)
    requires OfThread(step)
    requires Inv(st) && Enabled(st, step)
    ensures ThreadsOk(Apply(st, step))
  {
    var st' := Apply(st, step);
    forall t | 0 <= t < |st'.threads|
      ensures ThreadOk(st', t)
    {
      assert ThreadOk(st, t);
    }
  }

  lemma ThreadsStepElse(st: State, step: Step)
    requires !OfThread(step)
    requires Inv(st) && Enabled(st, step)
    ensures ThreadsOk(Apply(st, step))
  {
    var st' := Apply(st, step);
    forall t | 0 <= t < |st'.threads|
      ensures ThreadOk(st', t)
    {
      assert ThreadOk(st, t);
    }
  }

  lemma ThreadsStep(st: State, step: Step)
    requires Inv(st) && Enabled(st, step)
    ensures ThreadsOk(Apply(st, step))
  {
    hide Apply, Enabled, Inv, HolderOk, ThreadsOk, StrongUnit, WeakUnit;
    if OfThread(step) {
      ThreadsStepOfThread(st, step);
    } else {
      ThreadsStepElse(st, step);
    }
  }

  lemma StrongsStep(st: State, step: Step)
    requires Inv(st) && Enabled(st, step)
    ensures StrongsOk(Apply(st, step))
  {
    var st' := Apply(st, step);
    if step.InsertStrong? {
      assert ThreadOk(st, step.t);
    }
    forall i | 0 <= i < |st'.strongs|
      ensures StrongOk(st', i)
    {
      if i < |st.strongs| {
        assert StrongOk(st, i);
      }
    }
  }

  lemma ThreadHoldsOfThread(st: State, step: Step, w: nat, t: nat)
    requires OfThread(step)
    requires Inv(st) && Enabled(st, step)
    requires w < |Apply(st, step).weaks| && ByThread(t) in Apply(st, step).weaks[w].holders
    ensures HolderOk(Apply(st, step), w, ByThread(t))
  {
    if w < |st.weaks| {
      assert WeakOk(st, w);
      assert ByThread(t) in st.weaks[w].holders ==> HolderOk(st, w, ByThread(t));
    }
  }

  lemma ThreadHoldsElse(st: State, step: Step, w: nat, t: nat)
    requires !OfThread(step)
    requires Inv(st) && Enabled(st, step)
    requires w < |Apply(st, step).weaks| && ByThread(t) in Apply(st, step).weaks[w].holders
    ensures HolderOk(Apply(st, step), w, ByThread(t))
  {
    if w < |st.weaks| {
      assert WeakOk(st, w);
      assert ByThread(t) in st.weaks[w].holders ==> HolderOk(st, w, ByThread(t));
    }
  }

  /** Who holds a weak proxy after a step held it before, or has just got it. */
  lemma ThreadHolds(st: State, step: Step, w: nat, t: nat)
    requires Inv(st) && Enabled(st, step)
    requires w < |Apply(st, step).weaks| && ByThread(t) in Apply(st, step).weaks[w].holders
    ensures HolderOk(Apply(st, step), w, ByThread(t))
  {
    hide Apply, Enabled, Inv, HolderOk, ThreadsOk, StrongUnit, WeakUnit;
    if OfThread(step) {
      ThreadHoldsOfThread(st, step, w, t);
    } else {
      ThreadHoldsElse(st, step, w, t);
    }
  }

  lemma StrongHoldsOfThread(st: State, step: Step, w: nat, i: nat)
    requires OfThread(step)
    requires Inv(st) && Enabled(st, step)
    requires w < |Apply(st, step).weaks| && ByStrong(i) in Apply(st, step).weaks[w].holders
    ensures HolderOk(Apply(st, step), w, ByStrong(i))
  {
    if w < |st.weaks| {
      assert WeakOk(st, w);
      assert ByStrong(i) in st.weaks[w].holders ==> HolderOk(st, w, ByStrong(i));
    }
  }

  lemma StrongHoldsElse(st: State, step: Step, w: nat, i: nat)
    requires !OfThread(step)
    requires Inv(st) && Enabled(st, step)
    requires w < |Apply(st, step).weaks| && ByStrong(i) in Apply(st, step).weaks[w].holders
    ensures HolderOk(Apply(st, step), w, ByStrong(i))
  {
    if w < |st.weaks| {
      assert WeakOk(st, w);
      assert ByStrong(i) in st.weaks[w].holders ==> HolderOk(st, w, ByStrong(i));
    }
  }

  lemma StrongHolds(st: State, step: Step, w: nat, i: nat)
    requires Inv(st) && Enabled(st, step)
    requires w < |Apply(st, step).weaks| && ByStrong(i) in Apply(st, step).weaks[w].holders
    ensures HolderOk(Apply(st, step), w, ByStrong(i))
  {
    hide Apply, Enabled, Inv, HolderOk, ThreadsOk, StrongUnit, WeakUnit;
    if OfThread(step) {
      StrongHoldsOfThread(st, step, w, i);
    } else {
      StrongHoldsElse(st, step, w, i);
    }
  }

  lemma LiveStepOfThread(st: State, step: Step, w: nat)
    requires OfThread(step)
    requires Inv(st) && Enabled(st, step) && w < |Apply(st, step).weaks|
    ensures Apply(st, step).weaks[w].phase == WeakLive <==> Apply(st, step).weaks[w].Upgradable()
  {
    if w < |st.weaks| {
      assert WeakOk(st, w);
    }
    if step.InsertStrong? {
      assert ThreadOk(st, step.t);
    }
  }

  lemma LiveStepElse(st: State, step: Step, w: nat)
    requires !OfThread(step)
    requires Inv(st) && Enabled(st, step) && w < |Apply(st, step).weaks|
    ensures Apply(st, step).weaks[w].phase == WeakLive <==> Apply(st, step).weaks[w].Upgradable()
  {
    if w < |st.weaks| {
      assert WeakOk(st, w);
    }
    if step.Downgrade? {
      assert StrongOk(st, step.i);
    }
  }

  lemma LiveStep(st: State, step: Step, w: nat)
    requires Inv(st) && Enabled(st, step) && w < |Apply(st, step).weaks|
    ensures Apply(st, step).weaks[w].phase == WeakLive <==> Apply(st, step).weaks[w].Upgradable()
  {
    hide Apply, Enabled, Inv, HolderOk, ThreadsOk, StrongUnit, WeakUnit;
    if OfThread(step) {
      LiveStepOfThread(st, step, w);
    } else {
      LiveStepElse(st, step, w);
    }
  }

  lemma WeaksStep(st: State, step: Step)
    requires Inv(st) && Enabled(st, step)
    ensures WeaksOk(Apply(st, step))
  {
    hide Apply, Enabled, Inv, HolderOk;
    var st' := Apply(st, step);
    forall w | 0 <= w < |st'.weaks|
      ensures WeakOk(st', w)
    {
      LiveStep(st, step, w);
      forall h | h in st'.weaks[w].holders
        ensures HolderOk(st', w, h)
      {
        if h.ByThread? {
          ThreadHolds(st, step, w, h.t);
        } else {
          StrongHolds(st, step, w, h.i);
        }
      }
    }
  }

  lemma InvStep(st: State, step: Step)
    requires Inv(st) && Enabled(st, step)
    ensures Inv(Apply(st, step))
  {
    ThreadsStep(st, step);
    StrongsStep(st, step);
    WeaksStep(st, step);
  }

  lemma {:induction false} InvRun(r: SystemRun)
    requires Legal(r)
    ensures Inv(r.End())
  {
    if r.Then? {
      hide Inv, Apply, Enabled;
      InvRun(r.before);
      InvStep(r.before.End(), r.step);
    } else {
      assert Inv(r.first);
    }
  }

  /* ---------------------------------------------------- counting commands */

  function Sum(xs: seq<nat>): nat {
    if xs == [] then 0 else xs[0] + Sum(xs[1..])
  }

  lemma {:induction false} SumUpdate(xs: seq<nat>, i: nat, x: nat)
    requires i < |xs|
    ensures Sum(xs[i := x]) == Sum(xs) - xs[i] + x
    ensures Sum(xs) >= xs[i]
  {
    if i > 0 {
      SumUpdate(xs[1..], i - 1, x);
      assert xs[i := x][1..] == xs[1..][i - 1 := x];
    } else {
      assert xs[i := x][1..] == xs[1..];
    }
  }

  lemma {:induction false} SumAppend(xs: seq<nat>, x: nat)
    ensures Sum(xs + [x]) == Sum(xs) + x
  {
    if xs == [] {
      assert xs + [x] == [x];
    } else {
      SumAppend(xs[1..], x);
      assert (xs + [x])[1..] == xs[1..] + [x];
    }
  }

  lemma {:induction false} SumPositive(xs: seq<nat>) returns (i: nat)
    requires Sum(xs) > 0
    ensures i < |xs| && xs[i] > 0
  {
    if xs[0] > 0 {
      i := 0;
    } else {
      i := SumPositive(xs[1..]);
      i := i + 1;
    }
  }

  lemma {:induction false} SumMonotone(xs: seq<nat>, ys: seq<nat>)
    requires |xs| == |ys| && forall i | 0 <= i < |xs| :: xs[i] <= ys[i]
    ensures Sum(xs) <= Sum(ys)
  {
    if xs == [] {
    } else {
      SumMonotone(xs[1..], ys[1..]);
    }
  }

  /** The three balances that the driver keeps for the handle. */
  datatype Ledger = Strongs | Weaks | Deaths

  function Delta(l: Ledger, c: Command): int {
    match l
    case Strongs => if c == ACQUIRE then 1 else if c == RELEASE then -1 else 0
    case Weaks => if c == INCREFS then 1 else if c == DECREFS then -1 else 0
    case Deaths => if c.REQUEST_DEATH_NOTIFICATION? then 1 else if c.CLEAR_DEATH_NOTIFICATION? then -1 else 0
  }

  function Balance(l: Ledger, trace: seq<Command>): int {
    if trace == [] then 0 else Balance(l, trace[..|trace| - 1]) + Delta(l, trace[|trace| - 1])
  }

  /** What each thread and proxy has put in and not taken out: from the command
      that opens to the command that closes. */
  function ThreadUnit(l: Ledger, pc: Pc): nat {
    match l
    case Strongs => if pc.Acquired? then 1 else 0
    case Weaks => if pc.Increased? || pc.Requested? then 1 else 0
    case Deaths => if pc.Requested? then 1 else 0
  }

  function StrongUnit(l: Ledger, s: StrongProxy): nat {
    if l.Strongs? && (s.phase == StrongLive || s.phase == Releasing) then 1 else 0
  }

  function WeakUnit(l: Ledger, p: WeakProxy): nat {
    match l
    case Strongs => 0
    case Weaks => if p.phase == WeakEvicting || p.phase == WeakGone then 0 else 1
    case Deaths => if p.phase == WeakLive || p.phase == Clearing then 1 else 0
  }

  function ThreadUnits(l: Ledger, st: State): seq<nat> {
    seq(|st.threads|, t requires 0 <= t < |st.threads| => ThreadUnit(l, st.threads[t]))
  }

  function StrongUnits(l: Ledger, st: State): seq<nat> {
    seq(|st.strongs|, i requires 0 <= i < |st.strongs| => StrongUnit(l, st.strongs[i]))
  }

  function WeakUnits(l: Ledger, st: State): seq<nat> {
    seq(|st.weaks|, w requires 0 <= w < |st.weaks| => WeakUnit(l, st.weaks[w]))
  }

  function Held(l: Ledger, st: State): nat {
    Sum(ThreadUnits(l, st)) + Sum(StrongUnits(l, st)) + Sum(WeakUnits(l, st))
  }

  lemma ThreadUnitsStep(l: Ledger, st: State, step: Step, t: nat)
    requires Enabled(st, step) && t < |st.threads| == |Apply(st, step).threads|
    requires forall u | 0 <= u < |st.threads| && u != t :: Apply(st, step).threads[u] == st.threads[u]
    ensures Sum(ThreadUnits(l, Apply(st, step))) ==
            Sum(ThreadUnits(l, st)) - ThreadUnit(l, st.threads[t]) + ThreadUnit(l, Apply(st, step).threads[t])
  {
    hide Apply, Enabled, ThreadUnit;
    var xs, unit := ThreadUnits(l, st), ThreadUnit(l, Apply(st, step).threads[t]);
    assert ThreadUnits(l, Apply(st, step)) == xs[t := unit];
    SumUpdate(xs, t, unit);
  }

  lemma StrongUnitStepOfThread(l: Ledger, st: State, step: Step, k: nat)
    requires OfThread(step)
    requires Inv(st) && Enabled(st, step) && k < |st.strongs|
    ensures k < |Apply(st, step).strongs|
    ensures StrongUnit(l, Apply(st, step).strongs[k]) ==
            if step == WriteRelease(k) then 0 else StrongUnit(l, st.strongs[k])
  {
    assert StrongOk(st, k);
  }

  lemma StrongUnitStepElse(l: Ledger, st: State, step: Step, k: nat)
    requires !OfThread(step)
    requires Inv(st) && Enabled(st, step) && k < |st.strongs|
    ensures k < |Apply(st, step).strongs|
    ensures StrongUnit(l, Apply(st, step).strongs[k]) ==
            if step == WriteRelease(k) then 0 else StrongUnit(l, st.strongs[k])
  {
    assert StrongOk(st, k);
  }

  /** An existing strong proxy's unit ends with RELEASE only. */
  lemma StrongUnitStep(l: Ledger, st: State, step: Step, k: nat)
    requires Inv(st) && Enabled(st, step) && k < |st.strongs|
    ensures k < |Apply(st, step).strongs|
    ensures StrongUnit(l, Apply(st, step).strongs[k]) ==
            if step == WriteRelease(k) then 0 else StrongUnit(l, st.strongs[k])
  {
    hide Apply, Enabled, Inv, HolderOk, ThreadsOk, StrongUnit, WeakUnit;
    if OfThread(step) {
      StrongUnitStepOfThread(l, st, step, k);
    } else {
      StrongUnitStepElse(l, st, step, k);
    }
  }

  lemma StrongUnitsStep(l: Ledger, st: State, step: Step)
    requires Inv(st) && Enabled(st, step)
    ensures |Apply(st, step).strongs| == if step.InsertStrong? then |st.strongs| + 1 else |st.strongs|
    ensures Sum(StrongUnits(l, Apply(st, step))) ==
            if step.InsertStrong? then Sum(StrongUnits(l, st)) + (if l.Strongs? then 1 else 0)
            else if step.WriteRelease? && l.Strongs? then Sum(StrongUnits(l, st)) - 1
            else Sum(StrongUnits(l, st))
  {
    var xs, ys := StrongUnits(l, st), StrongUnits(l, Apply(st, step));
    StrongLength(st, step);
    hide Apply, Enabled, StrongUnit, Sum, Inv;
    forall k | 0 <= k < |st.strongs|
      ensures ys[k] == if step == WriteRelease(k) then 0 else xs[k]
    {
      StrongUnitStep(l, st, step, k);
    }
    if step.InsertStrong? {
      NewStrong(l, st, step);
      assert ys == xs + [if l.Strongs? then 1 else 0];
      SumAppend(xs, if l.Strongs? then 1 else 0);
    } else if step.WriteRelease? {
      EndingStrong(l, st, step);
      assert ys == xs[step.i := 0];
      SumUpdate(xs, step.i, 0);
    } else {
      assert ys == xs;
    }
  }

  lemma StrongLength(st: State, step: Step)
    requires Enabled(st, step)
    ensures |Apply(st, step).strongs| == if step.InsertStrong? then |st.strongs| + 1 else |st.strongs|
  {
  }

  lemma NewStrong(l: Ledger, st: State, step: Step)
    requires Enabled(st, step) && step.InsertStrong?
    ensures |Apply(st, step).strongs| == |st.strongs| + 1
    ensures StrongUnit(l, Apply(st, step).strongs[|st.strongs|]) == if l.Strongs? then 1 else 0
  {
  }

  lemma EndingStrong(l: Ledger, st: State, step: Step)
    requires Enabled(st, step) && step.WriteRelease?
    ensures step.i < |st.strongs| && StrongUnit(l, st.strongs[step.i]) == if l.Strongs? then 1 else 0
  {
  }

  predicate Closes(l: Ledger, step: Step) {
    (l.Weaks? && step.WriteDecrefs?) || (l.Deaths? && step.WriteClear?)
  }

  lemma WeakUnitStepOfThread(l: Ledger, st: State, step: Step, k: nat)
    requires OfThread(step)
    requires Inv(st) && Enabled(st, step) && k < |st.weaks|
    ensures k < |Apply(st, step).weaks|
    ensures WeakUnit(l, Apply(st, step).weaks[k]) ==
            if Closes(l, step) && step.w == k then 0 else WeakUnit(l, st.weaks[k])
  {
    assert WeakOk(st, k);
  }

  lemma WeakUnitStepElse(l: Ledger, st: State, step: Step, k: nat)
    requires !OfThread(step)
    requires Inv(st) && Enabled(st, step) && k < |st.weaks|
    ensures k < |Apply(st, step).weaks|
    ensures WeakUnit(l, Apply(st, step).weaks[k]) ==
            if Closes(l, step) && step.w == k then 0 else WeakUnit(l, st.weaks[k])
  {
    assert WeakOk(st, k);
    if step.DropField? {
      assert StrongOk(st, step.i);
    }
  }

  /** An existing weak proxy's unit ends with its closing command only. */
  lemma WeakUnitStep(l: Ledger, st: State, step: Step, k: nat)
    requires Inv(st) && Enabled(st, step) && k < |st.weaks|
    ensures k < |Apply(st, step).weaks|
    ensures WeakUnit(l, Apply(st, step).weaks[k]) ==
            if Closes(l, step) && step.w == k then 0 else WeakUnit(l, st.weaks[k])
  {
    hide Apply, Enabled, Inv, HolderOk, ThreadsOk, StrongUnit, WeakUnit;
    if OfThread(step) {
      WeakUnitStepOfThread(l, st, step, k);
    } else {
      WeakUnitStepElse(l, st, step, k);
    }
  }

  lemma WeakLength(st: State, step: Step)
    requires Enabled(st, step)
    ensures |Apply(st, step).weaks| == if step.InsertWeak? then |st.weaks| + 1 else |st.weaks|
  {
  }

  lemma NewWeak(l: Ledger, st: State, step: Step)
    requires Enabled(st, step) && step.InsertWeak?
    ensures |Apply(st, step).weaks| == |st.weaks| + 1
    ensures WeakUnit(l, Apply(st, step).weaks[|st.weaks|]) == if l.Strongs? then 0 else 1
  {
  }

  lemma EndingWeak(l: Ledger, st: State, step: Step)
    requires Enabled(st, step) && Closes(l, step)
    ensures step.w < |st.weaks| && WeakUnit(l, st.weaks[step.w]) == 1
  {
  }

  lemma WeakUnitsStep(l: Ledger, st: State, step: Step)
    requires Inv(st) && Enabled(st, step)
    ensures Sum(WeakUnits(l, Apply(st, step))) ==
            if step.InsertWeak? then Sum(WeakUnits(l, st)) + (if l.Strongs? then 0 else 1)
            else if Closes(l, step) then Sum(WeakUnits(l, st)) - 1
            else Sum(WeakUnits(l, st))
  {
    var xs, ys := WeakUnits(l, st), WeakUnits(l, Apply(st, step));
    WeakLength(st, step);
    hide Apply, Enabled, WeakUnit, Sum, Inv;
    forall k | 0 <= k < |st.weaks|
      ensures ys[k] == if Closes(l, step) && step.w == k then 0 else xs[k]
    {
      WeakUnitStep(l, st, step, k);
    }
    if step.InsertWeak? {
      NewWeak(l, st, step);
      assert ys == xs + [if l.Strongs? then 0 else 1];
      SumAppend(xs, if l.Strongs? then 0 else 1);
    } else if Closes(l, step) {
      EndingWeak(l, st, step);
      assert ys == xs[step.w := 0];
      SumUpdate(xs, step.w, 0);
    } else {
      assert ys == xs;
    }
  }

  /** What a step adds to the threads' units. */
  function ThreadDelta(l: Ledger, step: Step): int {
    match l
    case Strongs => if step.WriteAcquire? then 1 else if step.InsertStrong? then -1 else 0
    case Weaks => if step.WriteIncrefs? then 1 else if step.InsertWeak? then -1 else 0
    case Deaths => if step.WriteRequest? then 1 else if step.InsertWeak? then -1 else 0
  }

  lemma OneThread(l: Ledger, st: State, step: Step)
    requires Enabled(st, step) && OfThread(step)
    ensures step.t < |st.threads| == |Apply(st, step).threads|
    ensures forall u | 0 <= u < |st.threads| && u != step.t :: Apply(st, step).threads[u] == st.threads[u]
    ensures ThreadUnit(l, Apply(st, step).threads[step.t]) == ThreadUnit(l, st.threads[step.t]) + ThreadDelta(l, step)
  {
  }

  lemma NoThread(l: Ledger, st: State, step: Step)
    requires Enabled(st, step) && !OfThread(step)
    ensures Apply(st, step).threads == st.threads && ThreadDelta(l, step) == 0
  {
  }

  lemma ThreadSumStep(l: Ledger, st: State, step: Step)
    requires Enabled(st, step)
    ensures Sum(ThreadUnits(l, Apply(st, step))) == Sum(ThreadUnits(l, st)) + ThreadDelta(l, step)
  {
    hide Apply, Enabled, ThreadUnit, Sum, ThreadDelta;
    if OfThread(step) {
      OneThread(l, st, step);
      ThreadUnitsStep(l, st, step, step.t);
    } else {
      NoThread(l, st, step);
      assert ThreadUnits(l, Apply(st, step)) == ThreadUnits(l, st);
    }
  }

  /** What a step writes. */
  function BalanceDelta(l: Ledger, step: Step): int {
    match l
    case Strongs => if step.WriteAcquire? then 1 else if step.WriteRelease? then -1 else 0
    case Weaks => if step.WriteIncrefs? then 1 else if step.WriteDecrefs? then -1 else 0
    case Deaths => if step.WriteRequest? then 1 else if step.WriteClear? then -1 else 0
  }

  lemma BalanceStep(l: Ledger, st: State, step: Step)
    requires Enabled(st, step)
    ensures Balance(l, Apply(st, step).trace) == Balance(l, st.trace) + BalanceDelta(l, step)
    ensures st.trace <= Apply(st, step).trace && |Apply(st, step).trace| <= |st.trace| + 1
  {
    if |Apply(st, step).trace| > |st.trace| {
      assert Apply(st, step).trace[..|st.trace|] == st.trace;
    }
  }

  lemma HeldStep(l: Ledger, st: State, step: Step)
    requires Inv(st) && Enabled(st, step)
    ensures Held(l, Apply(st, step)) == Held(l, st) + BalanceDelta(l, step)
  {
    hide Apply, Enabled, Inv, Sum, ThreadUnits, StrongUnits, WeakUnits;
    ThreadSumStep(l, st, step);
    StrongUnitsStep(l, st, step);
    WeakUnitsStep(l, st, step);
  }

  lemma InitiallyNothingHeld(l: Ledger, st: State)
    requires Initial(st)
    ensures Held(l, st) == 0 && Balance(l, st.trace) == 0
  {
    AllIdle(l, ThreadUnits(l, st));
  }

  lemma {:induction false} AllIdle(l: Ledger, xs: seq<nat>)
    requires forall i | 0 <= i < |xs| :: xs[i] == 0
    ensures Sum(xs) == 0
  {
    if xs == [] {
    } else {
      AllIdle(l, xs[1..]);
    }
  }

  /** Main result: on every interleaving, including a new reference taken during
      another one's final drop, ACQUIREs minus RELEASEs is the number of
      `BinderRef`s between those two commands, INCREFS minus DECREFS the number
      of `WeakBinderRef`s between theirs, and likewise for death notifications. */
  lemma {:induction false} TraceBalances(l: Ledger, r: SystemRun)
    requires Legal(r)
    ensures Balance(l, r.End().trace) == Held(l, r.End())
  {
    if r.Then? {
      hide Inv, Apply, Enabled, Held, Balance;
      InvRun(r.before);
      TraceBalances(l, r.before);
      HeldStep(l, r.before.End(), r.step);
      BalanceStep(l, r.before.End(), r.step);
    } else {
      InitiallyNothingHeld(l, r.first);
    }
  }

  /* ------------------------------------------- strong only on top of weak */

  lemma DeathWithinWeak(st: State)
    ensures Held(Deaths, st) <= Held(Weaks, st)
  {
    SumMonotone(ThreadUnits(Deaths, st), ThreadUnits(Weaks, st));
    SumMonotone(StrongUnits(Deaths, st), StrongUnits(Weaks, st));
    SumMonotone(WeakUnits(Deaths, st), WeakUnits(Weaks, st));
  }

  lemma StrongUnderWeak(st: State)
    requires Inv(st) && Held(Strongs, st) > 0
    ensures Held(Weaks, st) > 0
  {
    var w: nat;
    if Sum(ThreadUnits(Strongs, st)) > 0 {
      var t := SumPositive(ThreadUnits(Strongs, st));
      assert ThreadOk(st, t);
      w := st.threads[t].weak;
    } else if Sum(StrongUnits(Strongs, st)) > 0 {
      var i := SumPositive(StrongUnits(Strongs, st));
      assert StrongOk(st, i);
      w := st.strongs[i].weak;
    } else {
      w := SumPositive(WeakUnits(Strongs, st));
      assert false;
    }
    assert WeakOk(st, w);
    assert WeakUnits(Weaks, st)[w] == 1;
    SumUpdate(WeakUnits(Weaks, st), w, 1);
  }

  ghost predicate Nested(trace: seq<Command>) {
    && Balance(Strongs, trace) >= 0 && Balance(Weaks, trace) >= 0 && Balance(Deaths, trace) >= 0
    && (Balance(Strongs, trace) > 0 ==> Balance(Weaks, trace) > 0)
    && Balance(Deaths, trace) <= Balance(Weaks, trace)
  }

  lemma NestedRun(r: SystemRun)
    requires Legal(r)
    ensures Nested(r.End().trace)
  {
    hide Held, Balance;
    InvRun(r);
    TraceBalances(Strongs, r);
    TraceBalances(Weaks, r);
    TraceBalances(Deaths, r);
    DeathWithinWeak(r.End());
    if Held(Strongs, r.End()) > 0 {
      StrongUnderWeak(r.End());
    }
  }

  /** Main result: at every point of the command stream, no balance is negative,
      a positive strong balance stands on a positive weak one, and so does every
      outstanding death-notification request. */
  lemma {:induction false} PrefixesNested(r: SystemRun, k: nat)
    requires Legal(r) && k <= |r.End().trace|
    ensures Nested(r.End().trace[..k])
  {
    hide Nested, Apply, Enabled;
    NestedRun(r);
    if k == |r.End().trace| {
      assert r.End().trace[..k] == r.End().trace;
    } else if r.Then? {
      BalanceStep(Weaks, r.before.End(), r.step);
      PrefixesNested(r.before, k);
      assert r.End().trace[..k] == r.before.End().trace[..k];
    }
  }

  /* ------------------------------------------------------- deduplication */

  predicate OnlyStrong(st: State, i: nat)
    requires i < |st.strongs|
  {
    st.strongs[i].count > 0 ==> st.refs == Some(i)
  }

  predicate OnlyWeak(st: State, w: nat)
    requires w < |st.weaks|
  {
    st.weaks[w].Upgradable() ==> st.weakRefs == Some(w)
  }

  /** Every proxy that can still be upgraded is the one in its table; so there is
      at most one of each kind. */
  ghost predicate Dedup(st: State) {
    && (forall i | 0 <= i < |st.strongs| :: OnlyStrong(st, i))
    && (forall w | 0 <= w < |st.weaks| :: OnlyWeak(st, w))
  }

  /** An insertion over an entry that could have been upgraded. */
  predicate Duplicates(st: State, step: Step) {
    (step.InsertWeak? && WeakUpgradable(st)) || (step.InsertStrong? && StrongUpgradable(st))
  }

  lemma OnlyStrongStep(st: State, step: Step, i: nat)
    requires Inv(st) && Dedup(st) && Enabled(st, step) && !(step.InsertStrong? && StrongUpgradable(st))
    requires i < |Apply(st, step).strongs|
    ensures OnlyStrong(Apply(st, step), i)
  {
    if i < |st.strongs| {
      assert OnlyStrong(st, i);
    }
  }

  lemma OnlyWeakStepOfThread(st: State, step: Step, w: nat)
    requires OfThread(step)
    requires Inv(st) && Dedup(st) && Enabled(st, step) && !(step.InsertWeak? && WeakUpgradable(st))
    requires w < |Apply(st, step).weaks|
    ensures OnlyWeak(Apply(st, step), w)
  {
    if w < |st.weaks| {
      assert OnlyWeak(st, w);
    }
    if step.InsertStrong? {
      assert ThreadOk(st, step.t);
    }
  }

  lemma OnlyWeakStepElse(st: State, step: Step, w: nat)
    requires !OfThread(step)
    requires Inv(st) && Dedup(st) && Enabled(st, step) && !(step.InsertWeak? && WeakUpgradable(st))
    requires w < |Apply(st, step).weaks|
    ensures OnlyWeak(Apply(st, step), w)
  {
    if w < |st.weaks| {
      assert OnlyWeak(st, w);
    }
    if step.Downgrade? || step.DropField? {
      assert StrongOk(st, step.i);
    }
  }

  lemma OnlyWeakStep(st: State, step: Step, w: nat)
    requires Inv(st) && Dedup(st) && Enabled(st, step) && !(step.InsertWeak? && WeakUpgradable(st))
    requires w < |Apply(st, step).weaks|
    ensures OnlyWeak(Apply(st, step), w)
  {
    hide Apply, Enabled, Inv, HolderOk, ThreadsOk, StrongUnit, WeakUnit;
    if OfThread(step) {
      OnlyWeakStepOfThread(st, step, w);
    } else {
      OnlyWeakStepElse(st, step, w);
    }
  }

  lemma DuplicateWeak(st: State, step: Step)
    requires Inv(st) && Enabled(st, step) && step.InsertWeak? && WeakUpgradable(st)
    ensures !Dedup(Apply(st, step))
  {
    assert !OnlyWeak(Apply(st, step), st.weakRefs.value);
  }

  lemma DuplicateStrong(st: State, step: Step)
    requires Inv(st) && Enabled(st, step) && step.InsertStrong? && StrongUpgradable(st)
    ensures !Dedup(Apply(st, step))
  {
    assert !OnlyStrong(Apply(st, step), st.refs.value);
  }

  /** Main result: a step breaks deduplication exactly if it inserts over an
      entry that can still be upgraded. In particular no drop, and no
      `remove_if`, ever loses a live entry. */
  lemma DedupBreaksExactly(st: State, step: Step)
    requires Inv(st) && Dedup(st) && Enabled(st, step)
    ensures Dedup(Apply(st, step)) <==> !Duplicates(st, step)
  {
    var st' := Apply(st, step);
    if Duplicates(st, step) {
      if step.InsertWeak? {
        DuplicateWeak(st, step);
      } else {
        DuplicateStrong(st, step);
      }
    } else {
      hide Apply, Enabled, Inv, OnlyStrong, OnlyWeak;
      forall i | 0 <= i < |st'.strongs|
        ensures OnlyStrong(st', i)
      {
        OnlyStrongStep(st, step, i);
      }
      forall w | 0 <= w < |st'.weaks|
        ensures OnlyWeak(st', w)
      {
        OnlyWeakStep(st, step, w);
      }
    }
  }

  ghost predicate DedupThroughout(r: SystemRun) {
    Dedup(r.End()) && (r.Then? ==> DedupThroughout(r.before))
  }

  ghost predicate NothingDuplicated(r: SystemRun) {
    r.Then? ==> NothingDuplicated(r.before) && !Duplicates(r.before.End(), r.step)
  }

  /** Main result: every state of a run is free of duplicates if and only if no
      step of it inserts over an entry that can still be upgraded. */
  lemma {:induction false} DedupIff(r: SystemRun)
    requires Legal(r)
    ensures DedupThroughout(r) <==> NothingDuplicated(r)
  {
    if r.Start? {
    } else {
      hide Apply, Enabled, Inv, Dedup, Duplicates;
      DedupIff(r.before);
      InvRun(r.before);
      if DedupThroughout(r.before) {
        DedupBreaksExactly(r.before.End(), r.step);
      }
    }
  }

  /* ------------------------------------ when creations do not overlap */

  predicate Creating(pc: Pc) {
    pc != Idle
  }

  /** At most one thread is inside get_and_dedup_from_raw for the handle. */
  ghost predicate OneCreator(st: State) {
    forall t, u | 0 <= t < |st.threads| && 0 <= u < |st.threads| && Creating(st.threads[t])
        && Creating(st.threads[u]) :: t == u
  }

  ghost predicate Uncontended(r: SystemRun) {
    OneCreator(r.End()) && (r.Then? ==> Uncontended(r.before))
  }

  predicate MakesWeak(pc: Pc) {
    pc.MissedWeak? || pc.Registered? || pc.Increased? || pc.Requested?
  }

  predicate MakesStrong(pc: Pc) {
    pc.MissedStrong? || pc.HoldingWeak? || pc.Acquired? || (MakesWeak(pc) && pc.forStrong)
  }

  /** What a creating thread has seen missing is still missing. */
  predicate StillMissing(st: State, t: nat)
    requires t < |st.threads|
  {
    && (MakesWeak(st.threads[t]) ==> !WeakUpgradable(st))
    && (MakesStrong(st.threads[t]) ==> !StrongUpgradable(st))
  }

  ghost predicate Missing(st: State) {
    forall t | 0 <= t < |st.threads| :: StillMissing(st, t)
  }

  /** Without a live weak proxy there is no live strong one. */
  lemma NoneLive(st: State)
    requires Inv(st) && Dedup(st)
    ensures !StrongUpgradable(st) ==> forall i | 0 <= i < |st.strongs| :: st.strongs[i].count == 0
    ensures !WeakUpgradable(st) ==> forall w | 0 <= w < |st.weaks| :: !st.weaks[w].Upgradable()
    ensures !WeakUpgradable(st) ==> forall i | 0 <= i < |st.strongs| :: st.strongs[i].count == 0
  {
    forall w | 0 <= w < |st.weaks|
      ensures st.weaks[w].Upgradable() ==> WeakUpgradable(st)
    {
      assert OnlyWeak(st, w);
    }
    forall i | 0 <= i < |st.strongs|
      ensures st.strongs[i].count > 0 ==> StrongUpgradable(st) && WeakUpgradable(st)
    {
      assert OnlyStrong(st, i) && StrongOk(st, i);
    }
  }

  /** While one thread creates, another one's step finds what it looks for. */
  lemma OthersIdle(st: State, step: Step, t: nat)
    requires OneCreator(st) && Enabled(st, step) && OneCreator(Apply(st, step))
    requires OfThread(step) && t < |st.threads| && step.t != t && Creating(st.threads[t])
    ensures step.t < |st.threads| == |Apply(st, step).threads| && Apply(st, step).threads[t] == st.threads[t]
    ensures !Creating(st.threads[step.t]) && !Creating(Apply(st, step).threads[step.t])
  {
    hide Apply, Enabled;
    OneThread(Strongs, st, step);
  }

  lemma MissingOwn(st: State, step: Step)
    requires Inv(st) && Dedup(st) && Missing(st) && Enabled(st, step) && OfThread(step)
    ensures step.t < |Apply(st, step).threads| && StillMissing(Apply(st, step), step.t)
  {
    assert StillMissing(st, step.t);
  }

  lemma MissingOther(st: State, step: Step, t: nat)
    requires Enabled(st, step) && OfThread(step) && t < |st.threads| && step.t != t
    requires StillMissing(st, t)
    requires Creating(st.threads[t]) ==> !Creating(st.threads[step.t]) && !Creating(Apply(st, step).threads[step.t])
    ensures t < |Apply(st, step).threads| && StillMissing(Apply(st, step), t)
  {
  }

  lemma MissingElse(st: State, step: Step, t: nat)
    requires Inv(st) && Dedup(st) && Enabled(st, step) && !OfThread(step)
    requires t < |st.threads| && StillMissing(st, t)
    ensures t < |Apply(st, step).threads| && StillMissing(Apply(st, step), t)
  {
    NoneLive(st);
  }

  lemma MissingStep(st: State, step: Step, t: nat)
    requires Inv(st) && Dedup(st) && Missing(st) && OneCreator(st) && Enabled(st, step) && OneCreator(Apply(st, step))
    requires t < |st.threads|
    ensures t < |Apply(st, step).threads| && StillMissing(Apply(st, step), t)
  {
    hide Apply, Enabled, Inv, Dedup, OneCreator, StillMissing;
    assert StillMissing(st, t);
    if !OfThread(step) {
      MissingElse(st, step, t);
    } else if step.t == t {
      MissingOwn(st, step);
    } else {
      OneThread(Strongs, st, step);
      if Creating(st.threads[t]) {
        OthersIdle(st, step, t);
      }
      MissingOther(st, step, t);
    }
  }

  lemma SameThreads(st: State, step: Step)
    requires Enabled(st, step)
    ensures |Apply(st, step).threads| == |st.threads|
  {
  }

  lemma {:induction false} UncontendedRun(r: SystemRun)
    requires Legal(r) && Uncontended(r)
    ensures Dedup(r.End()) && Missing(r.End())
  {
    if r.Start? {
    } else {
      hide Apply, Enabled, Dedup, Missing, OneCreator, Inv, StillMissing;
      var st := r.before.End();
      InvRun(r.before);
      UncontendedRun(r.before);
      NoDuplicate(st, r.step);
      DedupBreaksExactly(st, r.step);
      MissingAfter(st, r.step);
    }
  }

  lemma NoDuplicate(st: State, step: Step)
    requires Missing(st) && Enabled(st, step)
    ensures !Duplicates(st, step)
  {
    if step.InsertWeak? || step.InsertStrong? {
      assert StillMissing(st, step.t);
    }
  }

  lemma MissingAfter(st: State, step: Step)
    requires Inv(st) && Dedup(st) && Missing(st) && OneCreator(st) && Enabled(st, step) && OneCreator(Apply(st, step))
    ensures Missing(Apply(st, step))
  {
    hide Apply, Enabled, Dedup, OneCreator, Inv, StillMissing;
    SameThreads(st, step);
    forall t | 0 <= t < |Apply(st, step).threads|
      ensures StillMissing(Apply(st, step), t)
    {
      MissingStep(st, step, t);
    }
  }

  /** Main result: if creations for a handle do not overlap, then with drops,
      clones and upgrades interleaved freely there is never more than one
      upgradable proxy of each kind, and it is the one in its table. */
  lemma OneProxyPerHandle(r: SystemRun, i: nat, j: nat)
    requires Legal(r) && Uncontended(r)
    ensures var st := r.End();
            && (i < |st.strongs| && st.strongs[i].count > 0 ==> st.refs == Some(i))
            && (i < |st.weaks| && st.weaks[i].Upgradable() ==> st.weakRefs == Some(i))
            && (i < |st.strongs| && j < |st.strongs| && st.strongs[i].count > 0 && st.strongs[j].count > 0 ==> i == j)
            && (i < |st.weaks| && j < |st.weaks| && st.weaks[i].Upgradable() && st.weaks[j].Upgradable() ==> i == j)
  {
    UncontendedRun(r);
    var st := r.End();
    assert i < |st.strongs| ==> OnlyStrong(st, i);
    assert j < |st.strongs| ==> OnlyStrong(st, j);
    assert i < |st.weaks| ==> OnlyWeak(st, i);
    assert j < |st.weaks| ==> OnlyWeak(st, j);
  }

  /* ------------------------------- and what happens when they overlap */

  lemma Take(st: State, step: Step)
    requires Reachable(st) && Enabled(st, step)
    ensures Reachable(Apply(st, step))
  {
    var r :| Legal(r) && r.End() == st;
    assert Legal(Then(r, step, Apply(st, step)));
  }

  /** A thread that missed the weak table goes through to the insertion, whatever
      has been inserted meanwhile. */
  lemma CompleteWeak(st: State, t: nat) returns (st': State)
    requires Reachable(st) && At(st, t, MissedWeak(false))
    ensures Reachable(st') && st'.weaks == st.weaks + [WeakProxy(st.cookies, 1, {}, WeakLive)]
    ensures st'.threads == st.threads[t := Idle]
  {
    hide Reachable;
    Take(st, RegisterDeath(t, st.cookies));
    var registered := Apply(st, RegisterDeath(t, st.cookies));
    Take(registered, WriteIncrefs(t));
    var increased := Apply(registered, WriteIncrefs(t));
    st' := RequestAndInsert(increased, t, st.cookies);
  }

  lemma RequestAndInsert(st: State, t: nat, cookie: nat) returns (st': State)
    requires Reachable(st) && At(st, t, Increased(false, cookie))
    ensures Reachable(st') && st'.weaks == st.weaks + [WeakProxy(cookie, 1, {}, WeakLive)]
    ensures st'.threads == st.threads[t := Idle]
  {
    hide Reachable;
    Take(st, WriteRequest(t));
    var requested := Apply(st, WriteRequest(t));
    Take(requested, InsertWeak(t));
    st' := Apply(requested, InsertWeak(t));
  }

  lemma BothMiss() returns (st: State)
    ensures Reachable(st) && |st.weaks| == 0
    ensures At(st, 0, MissedWeak(false)) && At(st, 1, MissedWeak(false))
  {
    var none := State([], [], None, None, 0, {}, [Idle, Idle], []);
    var r: SystemRun := Start(none);
    assert Legal(r) && r.End() == none;
    Take(none, GetWeak(0));
    var one := Apply(none, GetWeak(0));
    Take(one, GetWeak(1));
    st := Apply(one, GetWeak(1));
  }

  /** The hypothesis is needed: two threads that look the handle up before either
      has inserted create one live proxy each. */
  lemma OverlapDuplicates() returns (st: State)
    ensures Reachable(st) && !Dedup(st)
    ensures |st.weaks| == 2 && st.weaks[0].Upgradable() && st.weaks[1].Upgradable()
  {
    hide Reachable;
    var both := BothMiss();
    var one := CompleteWeak(both, 0);
    st := CompleteWeak(one, 1);
    assert !OnlyWeak(st, 0) || !OnlyWeak(st, 1);
  }

  /* --------------------------------------------- death notifications */

  predicate RequestedBy(pc: Pc, cookie: nat) {
    (pc.Registered? || pc.Increased? || pc.Requested?) && pc.cookie == cookie
  }

  predicate WatchedBy(p: WeakProxy, cookie: nat) {
    p.cookie == cookie && (p.phase == WeakLive || p.phase == Clearing || p.phase == Forgetting)
  }

  /** Somebody is going to take the cookie out of the notification table. */
  ghost predicate Claimed(st: State, cookie: nat) {
    || (exists t :: 0 <= t < |st.threads| && RequestedBy(st.threads[t], cookie))
    || (exists w :: 0 <= w < |st.weaks| && WatchedBy(st.weaks[w], cookie))
  }

  ghost predicate DeathsClaimed(st: State) {
    forall cookie | cookie in st.deaths :: Claimed(st, cookie)
  }

  lemma ThreadClaim(st: State, step: Step, t: nat, cookie: nat)
    requires Inv(st) && Enabled(st, step) && t < |st.threads| && RequestedBy(st.threads[t], cookie)
    ensures Claimed(Apply(st, step), cookie)
  {
    var st' := Apply(st, step);
    if step == InsertWeak(t) {
      assert WatchedBy(st'.weaks[|st.weaks|], cookie);
    } else {
      assert RequestedBy(st'.threads[t], cookie);
    }
  }

  lemma WeakClaim(st: State, step: Step, w: nat, cookie: nat)
    requires Inv(st) && Enabled(st, step) && w < |st.weaks| && WatchedBy(st.weaks[w], cookie)
    requires cookie in Apply(st, step).deaths
    ensures Claimed(Apply(st, step), cookie)
  {
    WeakStaysWatching(st, step, w, cookie);
  }

  lemma WeakStaysWatching(st: State, step: Step, w: nat, cookie: nat)
    requires Inv(st) && Enabled(st, step) && w < |st.weaks| && WatchedBy(st.weaks[w], cookie)
    requires cookie in Apply(st, step).deaths
    ensures w < |Apply(st, step).weaks| && WatchedBy(Apply(st, step).weaks[w], cookie)
  {
  }

  lemma NewClaim(st: State, step: Step, cookie: nat)
    requires Enabled(st, step) && cookie !in st.deaths && cookie in Apply(st, step).deaths
    ensures Claimed(Apply(st, step), cookie)
  {
    assert RequestedBy(Apply(st, step).threads[step.t], cookie);
  }

  lemma {:induction false} DeathsClaimedRun(r: SystemRun)
    requires Legal(r)
    ensures DeathsClaimed(r.End())
  {
    if r.Start? {
    } else {
      var st := r.before.End();
      InvRun(r.before);
      DeathsClaimedRun(r.before);
      hide Apply, Enabled, Inv, RequestedBy, WatchedBy;
      forall cookie | cookie in r.after.deaths
        ensures Claimed(r.after, cookie)
      {
        if cookie !in st.deaths {
          NewClaim(st, r.step, cookie);
        } else if t :| 0 <= t < |st.threads| && RequestedBy(st.threads[t], cookie) {
          ThreadClaim(st, r.step, t, cookie);
        } else {
          assert Claimed(st, cookie);
          var w :| 0 <= w < |st.weaks| && WatchedBy(st.weaks[w], cookie);
          WeakClaim(st, r.step, w, cookie);
        }
      }
    }
  }

  /** Nothing of the handle is alive or under way. */
  ghost predicate FullyDropped(st: State) {
    && (forall t | 0 <= t < |st.threads| :: st.threads[t] == Idle)
    && (forall w | 0 <= w < |st.weaks| :: st.weaks[w].phase == WeakGone)
  }

  /** Main result: on every interleaving each cookie in the notification table
      belongs to a thread that is creating a proxy or to a proxy that has not
      taken it out yet; a handle that is fully dropped leaves nothing there. */
  lemma {:induction false} NoDeathLeaks(r: SystemRun)
    requires Legal(r)
    ensures forall cookie | cookie in r.End().deaths :: Claimed(r.End(), cookie)
    ensures FullyDropped(r.End()) ==> r.End().deaths == {}
  {
    hide Legal;
    DeathsClaimedRun(r);
  }
}
