/** The reference counts of one locally owned object, and the cell that keeps
    them together with the published total. */
module RefState {

  /** The counts are mathematical integers, so that a decrement below zero
      would be visible as a negative count. */
  datatype RefCounts = RefCounts(local: int, remote: int, pending: int) {
    function Total(): int { local + remote + pending }
  }

  const NO_REFS := RefCounts(0, 0, 0)

  /** The six mutations, each one closure passed to `update`. */
  datatype RefOp = IncLocal | DecLocal | IncRemote | DecRemote | Mark | Clear

  function Mutate(c: RefCounts, op: RefOp): RefCounts {
    match op
    case IncLocal => c.(local := c.local + 1)
    case DecLocal => c.(local := c.local - 1)
    case IncRemote => c.(remote := c.remote + 1, pending := 0)
    case DecRemote => c.(remote := c.remote - 1)
    case Mark => if c.remote == 0 then c.(pending := c.pending + 1) else c
    case Clear => c.(pending := if c.pending > 0 then c.pending - 1 else 0)
  }

  /** What every mutation keeps, whatever the order: a pending credit never
      coexists with an established remote reference. */
  ghost predicate Exclusive(c: RefCounts) {
    0 <= c.pending && (c.remote > 0 ==> c.pending == 0)
  }

  ghost predicate Sane(c: RefCounts) {
    0 <= c.local && 0 <= c.remote && Exclusive(c)
  }

  /** Repeating one mutation. */
  function Repeat(c: RefCounts, op: RefOp, n: nat): RefCounts {
    if n == 0 then c else Mutate(Repeat(c, op, n - 1), op)
  }

  lemma {:induction false} RepeatMark(c: RefCounts, n: nat)
    ensures Repeat(c, Mark, n) == if c.remote == 0 then c.(pending := c.pending + n) else c
  {
    if n == 0 {
    } else {
      RepeatMark(c, n - 1);
    }
  }

  lemma {:induction false} RepeatClear(c: RefCounts, n: nat)
    requires c.pending >= 0
    ensures Repeat(c, Clear, n) == c.(pending := if c.pending > n then c.pending - n else 0)
  {
    if n == 0 {
    } else {
      RepeatClear(c, n - 1);
    }
  }

  /** The cell shared by all threads. `update` runs under the lock, so one call
      is one atomic step (module PublishOrder justifies that). */
  class ObjectRefState {
    var counts: RefCounts
    var strongCount: int // the value of the watch channel

    constructor ()
      ensures counts == NO_REFS && strongCount == 0
    {
      counts, strongCount := NO_REFS, 0;
    }

    ghost predicate Valid() reads this {
      strongCount == counts.Total()
    }

    method Update(op: RefOp) returns (snapshot: RefCounts)
      modifies this
      ensures Valid()
      ensures counts == Mutate(old(counts), op) && snapshot == counts
    {
      match op {
        case IncLocal => counts := counts.(local := counts.local + 1);
        case DecLocal => counts := counts.(local := counts.local - 1);
        case IncRemote =>
          counts := counts.(remote := counts.remote + 1);
          counts := counts.(pending := 0);
        case DecRemote => counts := counts.(remote := counts.remote - 1);
        case Mark =>
          if counts.remote == 0 {
            counts := counts.(pending := counts.pending + 1);
          }
        case Clear =>
          counts := counts.(pending := if counts.pending >= 1 then counts.pending - 1 else 0);
      }
      snapshot := counts;
      strongCount := snapshot.Total();
    }

    /** A `wait_for(== 0)` subscriber polls the current value of the watch. */
    method PollZero() returns (ready: bool)
      requires Valid()
      ensures ready <==> counts.Total() == 0
    {
      ready := strongCount == 0;
    }
  }
}
