/** `ObjectRefState::update` as its four separate thread steps: take the lock,
    mutate, publish the snapshot, release the lock. Any number of threads call
    it, and a subscriber may poll the watch between any two steps. The system
    refines one atomic update per call, in lock order. */
module PublishOrder {
  import opened RefState
  import opened Runs

  datatype Pc =
    | Idle
    | Waiting(op: RefOp)
    | Locked(op: RefOp)
    | Mutated(total: int) // holds the lock and its own snapshot's total
    | Published

  datatype State = State(
    counts: RefCounts,
    watch: int,
    holder: int,          // the thread that holds the lock, or -1
    threads: seq<Pc>,
    order: seq<RefOp>,    // history: mutations in the order they happened
    published: seq<int>   // history: values sent to the watch
  )

  predicate Initial(st: State) {
    && st.counts == NO_REFS && st.watch == 0 && st.holder == -1
    && |st.order| == 0 && |st.published| == 0
    && forall t | 0 <= t < |st.threads| :: st.threads[t] == Idle
  }

  datatype Step =
    | Call(t: nat, op: RefOp)
    | Lock(t: nat)
    | DoMutate(t: nat)
    | Publish(t: nat)
    | Unlock(t: nat)

  predicate Enabled(st: State, step: Step) {
    && step.t < |st.threads|
    && match step
       case Call(t, _) => st.threads[t].Idle?
       case Lock(t) => st.threads[t].Waiting? && st.holder == -1
       case DoMutate(t) => st.threads[t].Locked?
       case Publish(t) => st.threads[t].Mutated?
       case Unlock(t) => st.threads[t].Published?
  }

  function Apply(st: State, step: Step): State
    requires Enabled(st, step)
  {
    match step
    case Call(t, op) => st.(threads := st.threads[t := Waiting(op)])
    case Lock(t) => st.(threads := st.threads[t := Locked(st.threads[t].op)], holder := t)
    case DoMutate(t) =>
      var op := st.threads[t].op;
      var c := Mutate(st.counts, op);
      st.(counts := c, order := st.order + [op], threads := st.threads[t := Mutated(c.Total())])
    case Publish(t) =>
      var total := st.threads[t].total;
      st.(watch := total, published := st.published + [total], threads := st.threads[t := Published])
    case Unlock(t) => st.(threads := st.threads[t := Idle], holder := -1)
  }

  type SystemRun = Run<State, Step>

  ghost predicate Legal(r: SystemRun) {
    match r
    case Start(first) => Initial(first)
    case Then(before, step, after) => Legal(before) && Enabled(before.End(), step) && after == Apply(before.End(), step)
  }

  ghost predicate Reachable(st: State) {
    exists r :: Legal(r) && r.End() == st
  }

  /* ------------------------------------------------ the atomic counterpart */

  /** One atomic update per operation, the total published each time. */
  datatype Atomic = Atomic(counts: RefCounts, published: seq<int>)

  function AtomicUpdate(a: Atomic, op: RefOp): Atomic {
    var c := Mutate(a.counts, op);
    Atomic(c, a.published + [c.Total()])
  }

  function AtomicRun(ops: seq<RefOp>): (a: Atomic)
    ensures |a.published| == |ops|
  {
    if ops == [] then Atomic(NO_REFS, []) else AtomicUpdate(AtomicRun(ops[..|ops| - 1]), ops[|ops| - 1])
  }

  /** The thread that holds the lock has mutated and not yet published. */
  predicate Unpublished(st: State) {
    0 <= st.holder < |st.threads| && st.threads[st.holder].Mutated?
  }

  /** The operations that count as done: an update takes effect atomically at
      the moment its total is published. */
  function Done(st: State): seq<RefOp> {
    if Unpublished(st) && |st.order| > 0 then st.order[..|st.order| - 1] else st.order
  }

  function Abstraction(st: State): Atomic {
    AtomicRun(Done(st))
  }

  /* --------------------------------------------------------- invariants */

  predicate InSection(pc: Pc) {
    pc.Locked? || pc.Mutated? || pc.Published?
  }

  /** Only the holder is inside the section. */
  ghost predicate Exclusion(st: State) {
    && (st.holder == -1 || 0 <= st.holder < |st.threads|)
    && forall t | 0 <= t < |st.threads| :: InSection(st.threads[t]) <==> t == st.holder
  }

  ghost predicate Inv(st: State) {
    && Exclusion(st)
    && st.counts == AtomicRun(st.order).counts
    && (Unpublished(st) ==> |st.order| > 0 && st.threads[st.holder].total == st.counts.Total())
    && st.published == Abstraction(st).published
    && st.watch == Abstraction(st).counts.Total()
  }

  lemma ExclusionStep(st: State, step: Step)
    requires Exclusion(st) && Enabled(st, step)
    ensures Exclusion(Apply(st, step))
    ensures step.DoMutate? || step.Publish? || step.Unlock? ==> st.holder == step.t
    ensures step.Call? || step.Lock? ==> st.holder != step.t
  {
    var st' := Apply(st, step);
    assert InSection(st.threads[step.t]) <==> step.t == st.holder;
    forall t | 0 <= t < |st'.threads|
      ensures InSection(st'.threads[t]) <==> t == st'.holder
    {
      if t != step.t {
        assert st'.threads[t] == st.threads[t];
      }
    }
  }

  lemma MutateAppends(order: seq<RefOp>, op: RefOp)
    ensures (order + [op])[..|order|] == order
    ensures AtomicRun(order + [op]) == AtomicUpdate(AtomicRun(order), op)
  {
    assert (order + [op])[..|order|] == order;
  }

  /** What becomes of the history: a mutation appends an operation that is not
      done yet, a publication makes it done, the rest leave it alone. */
  lemma DoneStep(st: State, step: Step)
    requires Inv(st) && Enabled(st, step)
    ensures step.DoMutate? ==> !Unpublished(st) && Done(Apply(st, step)) == st.order
    ensures step.Publish? ==> Unpublished(st) && Done(Apply(st, step)) == st.order && |st.order| > 0
    ensures !step.DoMutate? && !step.Publish? ==> Done(Apply(st, step)) == Done(st)
    ensures Unpublished(Apply(st, step)) <==> step.DoMutate? || (Unpublished(st) && !step.Publish?)
  {
    hide Mutate, AtomicRun, Abstraction;
    ExclusionStep(st, step);
    if step.DoMutate? {
      assert (st.order + [st.threads[step.t].op])[..|st.order|] == st.order;
    }
  }

  lemma InvMutate(st: State, step: Step)
    requires Inv(st) && Enabled(st, step) && step.DoMutate?
    ensures Inv(Apply(st, step))
  {
    hide Mutate, AtomicRun;
    ExclusionStep(st, step);
    DoneStep(st, step);
    MutateAppends(st.order, st.threads[step.t].op);
  }

  lemma InvPublish(st: State, step: Step)
    requires Inv(st) && Enabled(st, step) && step.Publish?
    ensures Inv(Apply(st, step))
  {
    hide Mutate, AtomicRun;
    ExclusionStep(st, step);
    DoneStep(st, step);
    var last := |st.order| - 1;
    assert st.order == st.order[..last] + [st.order[last]];
    MutateAppends(st.order[..last], st.order[last]);
  }

  lemma InvElse(st: State, step: Step)
    requires Inv(st) && Enabled(st, step) && !step.DoMutate? && !step.Publish?
    ensures Inv(Apply(st, step))
  {
    hide Mutate, AtomicRun, Done;
    ExclusionStep(st, step);
    DoneStep(st, step);
  }

  lemma InvStep(st: State, step: Step)
    requires Inv(st) && Enabled(st, step)
    ensures Inv(Apply(st, step))
  {
    hide Apply, Inv, Enabled;
    if step.DoMutate? {
      InvMutate(st, step);
    } else if step.Publish? {
      InvPublish(st, step);
    } else {
      InvElse(st, step);
    }
  }

  lemma {:induction false} InvRun(r: SystemRun)
    requires Legal(r)
    ensures Inv(r.End())
  {
    if r.Start? {
    } else {
      InvRun(r.before);
      InvStep(r.before.End(), r.step);
    }
  }

  lemma {:induction false} InvReachable(st: State)
    requires Reachable(st)
    ensures Inv(st)
  {
    var r :| Legal(r) && r.End() == st;
    InvRun(r);
  }

  /* ------------------------------------------------------- main results */

  /** Main result: every thread step is invisible to the atomic system except
      the publication, which is exactly one atomic update by the last mutation
      in lock order. */
  lemma StepRefines(st: State, step: Step)
    requires Reachable(st) && Enabled(st, step)
    ensures step.Publish? ==> |st.order| > 0
                              && Abstraction(Apply(st, step)) == AtomicUpdate(Abstraction(st), st.order[|st.order| - 1])
    ensures !step.Publish? ==> Abstraction(Apply(st, step)) == Abstraction(st)
  {
    InvReachable(st);
    DoneStep(st, step);
    if step.Publish? {
      var last := |st.order| - 1;
      assert st.order == st.order[..last] + [st.order[last]];
      MutateAppends(st.order[..last], st.order[last]);
    }
  }

  /** Main result: the values seen through the watch are the totals in lock
      order, none skipped and none out of order; at most the newest is not
      there yet, and whenever the lock is free the watch is the true total. */
  lemma PublishedInLockOrder(st: State)
    requires Reachable(st)
    ensures st.published <= AtomicRun(st.order).published
    ensures |AtomicRun(st.order).published| <= |st.published| + 1
    ensures st.holder == -1 ==> st.published == AtomicRun(st.order).published && st.watch == st.counts.Total()
    ensures st.published != [] ==> st.watch == st.published[|st.published| - 1]
  {
    InvReachable(st);
  }

  /** Mutual exclusion of the critical section. */
  lemma OneInSection(st: State, t: nat, u: nat)
    requires Reachable(st) && t < |st.threads| && u < |st.threads|
    requires InSection(st.threads[t]) && InSection(st.threads[u])
    ensures t == u
  {
    InvReachable(st);
  }
}
