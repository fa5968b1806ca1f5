/** One failed send of one object whose marks and rollbacks are separate updates,
    with other threads' updates at any place between them. What is compared is
    the object with the send and the object without it. */
module SendAccount {
  import opened RefState

  /** An update of the object by the send itself, or by anybody else. */
  datatype Act = Own(op: RefOp) | Other(op: RefOp)

  predicate OwnAct(a: Act) {
    a.Own? ==> a.op == Mark || a.op == Clear
  }

  ghost predicate OwnActs(acts: seq<Act>) {
    forall k | 0 <= k < |acts| :: OwnAct(acts[k])
  }

  function Together(c: RefCounts, acts: seq<Act>): RefCounts {
    if acts == [] then c else Mutate(Together(c, acts[..|acts| - 1]), acts[|acts| - 1].op)
  }

  function Alone(c: RefCounts, acts: seq<Act>): RefCounts {
    if acts == [] then c
    else
      var before, a := Alone(c, acts[..|acts| - 1]), acts[|acts| - 1];
      if a.Own? then before else Mutate(before, a.op)
  }

  /** The send's own credits: each mark that finds no remote reference adds one, a
      processed acquire takes them all, each of its rollbacks takes one back. */
  function Outstanding(c: RefCounts, acts: seq<Act>): nat {
    if acts == [] then 0
    else
      var front, a := acts[..|acts| - 1], acts[|acts| - 1];
      var n := Outstanding(c, front);
      if a == Own(Mark) then (if Alone(c, front).remote == 0 then n + 1 else n)
      else if a == Own(Clear) then (if n > 0 then n - 1 else 0)
      else if a == Other(IncRemote) then 0
      else n
  }

  /** The object with the send is the object without it, plus those credits. */
  ghost predicate InOrder(c: RefCounts, acts: seq<Act>) {
    Together(c, acts) == Alone(c, acts).(pending := Alone(c, acts).pending + Outstanding(c, acts))
  }

  /** The two ways to mix up credits: another rollback that finds none of its own
      takes one of the send's, or a rollback of the send that has none left
      takes one of another's. */
  predicate MixesUp(c: RefCounts, acts: seq<Act>, a: Act) {
    || (a == Other(Clear) && Alone(c, acts).pending == 0 && Outstanding(c, acts) > 0)
    || (a == Own(Clear) && Alone(c, acts).pending > 0 && Outstanding(c, acts) == 0)
  }

  lemma {:induction false} AloneNonnegative(c: RefCounts, acts: seq<Act>)
    requires c.pending >= 0
    ensures Alone(c, acts).pending >= 0
  {
    if acts == [] {
    } else {
      AloneNonnegative(c, acts[..|acts| - 1]);
    }
  }

  lemma AccountStep(c: RefCounts, acts: seq<Act>, a: Act)
    requires c.pending >= 0 && OwnAct(a) && InOrder(c, acts)
    ensures InOrder(c, acts + [a]) <==> !MixesUp(c, acts, a)
  {
    assert (acts + [a])[..|acts|] == acts;
    AloneNonnegative(c, acts);
  }

  ghost predicate InOrderThroughout(c: RefCounts, acts: seq<Act>) {
    forall k | 0 <= k <= |acts| :: InOrder(c, acts[..k])
  }

  ghost predicate NothingMixedUp(c: RefCounts, acts: seq<Act>) {
    forall k | 0 <= k < |acts| :: !MixesUp(c, acts[..k], acts[k])
  }

  lemma {:induction false} InOrderUpTo(c: RefCounts, acts: seq<Act>, k: nat)
    requires c.pending >= 0 && OwnActs(acts) && NothingMixedUp(c, acts) && k <= |acts|
    ensures InOrder(c, acts[..k])
  {
    if k == 0 {
    } else {
      InOrderUpTo(c, acts, k - 1);
      assert acts[..k] == acts[..k - 1] + [acts[k - 1]];
      AccountStep(c, acts[..k - 1], acts[k - 1]);
    }
  }

  /** Main result: with the send's marks and rollbacks at any places between other
      threads' updates, acquires and releases among them, the account is in order
      at every point if and only if no update mixes up credits. */
  lemma InOrderIff(c: RefCounts, acts: seq<Act>)
    requires c.pending >= 0 && OwnActs(acts)
    ensures InOrderThroughout(c, acts) <==> NothingMixedUp(c, acts)
  {
    if NothingMixedUp(c, acts) {
      forall k | 0 <= k <= |acts|
        ensures InOrder(c, acts[..k])
      {
        InOrderUpTo(c, acts, k);
      }
    }
    if InOrderThroughout(c, acts) {
      forall k | 0 <= k < |acts|
        ensures !MixesUp(c, acts[..k], acts[k])
      {
        assert acts[..k + 1] == acts[..k] + [acts[k]];
        assert InOrder(c, acts[..k]) && InOrder(c, acts[..k + 1]);
        AccountStep(c, acts[..k], acts[k]);
      }
    }
  }

  /* ------------------------------------------------ a send that failed */

  function OwnCount(acts: seq<Act>, op: RefOp): nat {
    if acts == [] then 0 else OwnCount(acts[..|acts| - 1], op) + if acts[|acts| - 1] == Own(op) then 1 else 0
  }

  /** The send rolls back no more than it has marked, and in the end all of it. */
  ghost predicate RolledBack(acts: seq<Act>) {
    && OwnCount(acts, Mark) == OwnCount(acts, Clear)
    && forall k | 0 <= k <= |acts| :: OwnCount(acts[..k], Clear) <= OwnCount(acts[..k], Mark)
  }

  lemma {:induction false} OutstandingBound(c: RefCounts, acts: seq<Act>, k: nat)
    requires k <= |acts| && forall j | 0 <= j <= |acts| :: OwnCount(acts[..j], Clear) <= OwnCount(acts[..j], Mark)
    ensures Outstanding(c, acts[..k]) <= OwnCount(acts[..k], Mark) - OwnCount(acts[..k], Clear)
  {
    if k == 0 {
    } else {
      OutstandingBound(c, acts, k - 1);
      assert acts[..k][..k - 1] == acts[..k - 1];
      assert OwnCount(acts[..k], Clear) <= OwnCount(acts[..k], Mark);
    }
  }

  /** Main result: a send that failed and rolled back completely, with other
      threads' updates anywhere between its marks and rollbacks, leaves no trace
      if nothing was mixed up. */
  lemma RolledBackLeavesNoTrace(c: RefCounts, acts: seq<Act>)
    requires c.pending >= 0 && OwnActs(acts) && RolledBack(acts) && NothingMixedUp(c, acts)
    ensures Together(c, acts) == Alone(c, acts)
  {
    InOrderUpTo(c, acts, |acts|);
    OutstandingBound(c, acts, |acts|);
    assert acts[..|acts|] == acts;
  }
}
