/** Death-notification cookies and references over the runs of HandleTables: a
    cookie belongs to one proxy only, the remote's death reaches whoever waits
    for it, and references are counted as they are handed out and dropped. */
module Cookies {
  import opened Runs
  import opened Sys
  import opened HandleTables

  /* ------------------------------------------------- one cookie, one proxy */

  /** Where a cookie is kept: by the thread that drew it, then by the proxy. */
  datatype Site = ThreadSite(t: nat) | WeakSite(w: nat)

  predicate HasCookie(pc: Pc) {
    pc.Registered? || pc.Increased? || pc.Requested?
  }

  function CookieAt(st: State, s: Site): Option<nat> {
    match s
    case ThreadSite(t) => if t < |st.threads| && HasCookie(st.threads[t]) then Some(st.threads[t].cookie) else None
    case WeakSite(w) => if w < |st.weaks| then Some(st.weaks[w].cookie) else None
  }

  predicate Below(st: State, s: Site) {
    CookieAt(st, s).Some? ==> CookieAt(st, s).value < st.cookies
  }

  predicate Apart(st: State, s: Site, s': Site) {
    CookieAt(st, s).Some? && CookieAt(st, s) == CookieAt(st, s') ==> s == s'
  }

  /** No two sites have the same cookie, and none has one yet to be drawn. */
  ghost predicate Distinct(st: State) {
    && (forall s :: Below(st, s))
    && (forall s, s' :: Apart(st, s, s'))
  }

  /** Where the cookie at a site was before the step. */
  function Origin(st: State, step: Step, s: Site): Site {
    if step.InsertWeak? && s == WeakSite(|st.weaks|) then ThreadSite(step.t) else s
  }

  /** The site that has lost its cookie, or has got a new one, by the step. */
  predicate Drawn(step: Step, s: Site) {
    step.RegisterDeath? && s == ThreadSite(step.t)
  }

  predicate Passed(step: Step, s: Site) {
    step.InsertWeak? && s == ThreadSite(step.t)
  }

  lemma CookieStepThread(st: State, step: Step, s: Site)
    requires Enabled(st, step) && OfThread(step)
    ensures CookieAt(Apply(st, step), s) ==
            if Drawn(step, s) then Some(step.cookie) else if Passed(step, s) then None
            else CookieAt(st, Origin(st, step, s))
  {
    OneThread(Strongs, st, step);
  }

  lemma CookieStepElse(st: State, step: Step, s: Site)
    requires Enabled(st, step) && !OfThread(step)
    ensures CookieAt(Apply(st, step), s) == CookieAt(st, s)
  {
  }

  lemma CookieStep(st: State, step: Step, s: Site)
    requires Enabled(st, step)
    ensures CookieAt(Apply(st, step), s) ==
            if Drawn(step, s) then Some(step.cookie) else if Passed(step, s) then None
            else CookieAt(st, Origin(st, step, s))
  {
    hide Apply, Enabled, CookieAt;
    if OfThread(step) {
      CookieStepThread(st, step, s);
    } else {
      CookieStepElse(st, step, s);
    }
  }

  lemma CounterStep(st: State, step: Step)
    requires Enabled(st, step)
    ensures Apply(st, step).cookies >= st.cookies
    ensures step.RegisterDeath? ==> st.cookies <= step.cookie < Apply(st, step).cookies
  {
  }

  lemma DistinctStep(st: State, step: Step)
    requires Distinct(st) && Enabled(st, step)
    ensures Distinct(Apply(st, step))
  {
    hide Apply, Enabled, CookieAt;
    var st' := Apply(st, step);
    CounterStep(st, step);
    forall s: Site
      ensures Below(st', s)
    {
      CookieStep(st, step, s);
      assert Below(st, Origin(st, step, s));
    }
    forall s: Site, s': Site
      ensures Apart(st', s, s')
    {
      CookieStep(st, step, s);
      CookieStep(st, step, s');
      assert Below(st, Origin(st, step, s)) && Below(st, Origin(st, step, s'));
      assert Apart(st, Origin(st, step, s), Origin(st, step, s'));
    }
  }

  /** Main result: on every interleaving the cookies of all the proxies ever
      created, and of the threads about to create one, differ pairwise, and the
      counter is past them all. */
  lemma {:induction false} CookiesDistinct(r: SystemRun)
    requires Legal(r)
    ensures Distinct(r.End())
  {
    if r.Then? {
      hide Apply, Enabled, Distinct;
      CookiesDistinct(r.before);
      DistinctStep(r.before.End(), r.step);
    }
  }

  /* --------------------------------------------- who hears of the death */

  /** The driver's DEAD_BINDER for the cookie has found it in the table. */
  ghost predicate Told(r: SystemRun, cookie: nat) {
    r.Then? && (Told(r.before, cookie) || (r.step == DeadBinder(cookie) && cookie in r.before.End().deaths))
  }

  /** The site has its cookie in the table, or had it there until the death. */
  predicate Waits(st: State, s: Site) {
    match s
    case ThreadSite(t) => t < |st.threads| && HasCookie(st.threads[t])
    case WeakSite(w) => w < |st.weaks| && WatchedBy(st.weaks[w], st.weaks[w].cookie)
  }

  lemma ClaimedSite(st: State, cookie: nat) returns (s: Site)
    requires Claimed(st, cookie)
    ensures Waits(st, s) && CookieAt(st, s) == Some(cookie)
  {
    if t :| 0 <= t < |st.threads| && RequestedBy(st.threads[t], cookie) {
      s := ThreadSite(t);
    } else {
      var w :| 0 <= w < |st.weaks| && WatchedBy(st.weaks[w], cookie);
      s := WeakSite(w);
    }
  }

  lemma SiteClaims(st: State, s: Site)
    requires Waits(st, s)
    ensures CookieAt(st, s).Some? && Claimed(st, CookieAt(st, s).value)
  {
    match s
    case ThreadSite(t) => assert RequestedBy(st.threads[t], st.threads[t].cookie);
    case WeakSite(w) => assert WatchedBy(st.weaks[w], st.weaks[w].cookie);
  }

  /** A proxy goes through its drop body in order, one statement a step. */
  predicate Moves(step: Step, w: nat, before: WeakPhase, now: WeakPhase) {
    if step == WriteClear(w) then before == Clearing && now == Forgetting
    else if step == ForgetDeath(w) then before == Forgetting && now == Decreasing
    else if step == WriteDecrefs(w) then before == Decreasing && now == WeakEvicting
    else if step == EvictWeak(w) then before == WeakEvicting && now == WeakGone
    else now == before || (before == WeakLive && now == Clearing)
  }

  lemma PhaseStepThread(st: State, step: Step, w: nat)
    requires Enabled(st, step) && Inv(st) && OfThread(step) && w < |Apply(st, step).weaks|
    ensures if w < |st.weaks| then Moves(step, w, st.weaks[w].phase, Apply(st, step).weaks[w].phase)
            else step.InsertWeak? && w == |st.weaks| && Apply(st, step).weaks[w].phase == WeakLive
  {
  }

  lemma PhaseStepElse(st: State, step: Step, w: nat)
    requires Enabled(st, step) && Inv(st) && !OfThread(step) && w < |Apply(st, step).weaks|
    ensures w < |st.weaks| && Moves(step, w, st.weaks[w].phase, Apply(st, step).weaks[w].phase)
  {
    assert WeakOk(st, w);
    if step.DropField? {
      assert StrongOk(st, step.i);
    }
  }

  lemma PhaseStep(st: State, step: Step, w: nat)
    requires Enabled(st, step) && Inv(st) && w < |Apply(st, step).weaks|
    ensures if w < |st.weaks| then Moves(step, w, st.weaks[w].phase, Apply(st, step).weaks[w].phase)
            else step.InsertWeak? && w == |st.weaks| && Apply(st, step).weaks[w].phase == WeakLive
  {
    hide Apply, Enabled, Inv, Moves;
    if OfThread(step) {
      PhaseStepThread(st, step, w);
    } else {
      PhaseStepElse(st, step, w);
    }
  }

  lemma ThreadCookieStep(st: State, step: Step, t: nat)
    requires Enabled(st, step) && t < |Apply(st, step).threads|
    ensures t < |st.threads|
    ensures HasCookie(Apply(st, step).threads[t]) ==>
              (step == RegisterDeath(t, Apply(st, step).threads[t].cookie) || HasCookie(st.threads[t]))
              && step != InsertWeak(t)
    ensures Apply(st, step).threads[t].Requested? ==>
              (step == WriteRequest(t) || st.threads[t].Requested?)
              && !Drawn(step, ThreadSite(t))
  {
  }

  /** Who waits after a step has drawn a cookie by it, or waited before. */
  lemma WaitsStep(st: State, step: Step, s: Site)
    requires Enabled(st, step) && Inv(st) && Waits(Apply(st, step), s)
    ensures Drawn(step, s) || (!Passed(step, s) && Waits(st, Origin(st, step, s)))
    ensures step.ForgetDeath? ==> s != WeakSite(step.w)
  {
    hide Apply, Inv;
    match s
    case ThreadSite(t) => ThreadCookieStep(st, step, t);
    case WeakSite(w) => PhaseStep(st, step, w);
  }

  /** The cookie that a step takes out of the notification table. */
  function TakenOut(st: State, step: Step): Option<nat>
    requires Enabled(st, step)
  {
    match step
    case ForgetDeath(w) => CookieAt(st, WeakSite(w))
    case DeadBinder(cookie) => Some(cookie)
    case _ => None
  }

  lemma DeathsStep(st: State, step: Step, cookie: nat)
    requires Enabled(st, step)
    ensures step.RegisterDeath? && step.cookie == cookie ==> cookie in Apply(st, step).deaths
    ensures !(step.RegisterDeath? && step.cookie == cookie) ==>
              (cookie in Apply(st, step).deaths <==> cookie in st.deaths && TakenOut(st, step) != Some(cookie))
  {
  }

  ghost predicate Heard(r: SystemRun, s: Site) {
    Waits(r.End(), s) ==>
      && CookieAt(r.End(), s).Some?
      && (CookieAt(r.End(), s).value in r.End().deaths || Told(r, CookieAt(r.End(), s).value))
  }

  lemma HeardStep(r: SystemRun, s: Site)
    requires Legal(r) && r.Then? && Inv(r.before.End()) && Distinct(r.before.End())
    requires Heard(r.before, Origin(r.before.End(), r.step, s))
    ensures Heard(r, s)
  {
    hide Apply, Enabled, CookieAt, Waits, Inv, Distinct;
    var st, step := r.before.End(), r.step;
    if Waits(r.End(), s) {
      WaitsStep(st, step, s);
      CookieStep(st, step, s);
      if Drawn(step, s) {
        DeathsStep(st, step, step.cookie);
      } else {
        KeepsWaiting(r, s);
      }
    }
  }

  lemma KeepsWaiting(r: SystemRun, s: Site)
    requires Legal(r) && r.Then? && Distinct(r.before.End()) && Waits(r.End(), s)
    requires Heard(r.before, Origin(r.before.End(), r.step, s))
    requires Waits(r.before.End(), Origin(r.before.End(), r.step, s))
    requires !Drawn(r.step, s) && !Passed(r.step, s)
    requires r.step.ForgetDeath? ==> s != WeakSite(r.step.w)
    ensures Heard(r, s)
  {
    hide Apply, Enabled, CookieAt, Waits;
    var st, step := r.before.End(), r.step;
    var o := Origin(st, step, s);
    CookieStep(st, step, s);
    var cookie := CookieAt(st, o).value;
    DeathsStep(st, step, cookie);
    if step.ForgetDeath? {
      assert Apart(st, o, WeakSite(step.w));
    }
  }

  lemma {:induction false} HeardRun(r: SystemRun, s: Site)
    requires Legal(r)
    ensures Heard(r, s)
  {
    if r.Then? {
      hide Apply, Enabled, Inv, Distinct, Heard;
      HeardRun(r.before, Origin(r.before.End(), r.step, s));
      InvRun(r.before);
      CookiesDistinct(r.before);
      HeardStep(r, s);
    }
  }

  lemma DeathsBelow(r: SystemRun, cookie: nat)
    requires Legal(r) && cookie in r.End().deaths
    ensures cookie < r.End().cookies
  {
    NoDeathLeaks(r);
    var s := ClaimedSite(r.End(), cookie);
    CookiesDistinct(r);
    assert Below(r.End(), s);
  }

  /** A cookie whose death was reported is never in the table again. */
  lemma {:induction false} ToldOnce(r: SystemRun, cookie: nat)
    requires Legal(r) && Told(r, cookie)
    ensures cookie !in r.End().deaths && cookie < r.End().cookies
  {
    hide Apply, Enabled;
    var st := r.before.End();
    if Told(r.before, cookie) {
      ToldOnce(r.before, cookie);
    } else {
      DeathsBelow(r.before, cookie);
    }
    DeathsStep(st, r.step, cookie);
    CounterStep(st, r.step);
  }

  /** Main result: on every interleaving a cookie is in the notification table
      exactly while a creating thread or a proxy waits for it and its death has
      not been reported. So no other proxy's drop ever takes it out. */
  lemma WatchedExactly(r: SystemRun, cookie: nat)
    requires Legal(r)
    ensures cookie in r.End().deaths <==> Claimed(r.End(), cookie) && !Told(r, cookie)
  {
    hide Legal;
    NoDeathLeaks(r);
    if Told(r, cookie) {
      ToldOnce(r, cookie);
    } else if Claimed(r.End(), cookie) {
      var s := ClaimedSite(r.End(), cookie);
      HeardRun(r, s);
    }
  }

  /** Main result: a live proxy hears of the remote's death: it has its cookie in
      the table, or the report has come. */
  lemma LiveIsWatched(r: SystemRun, w: nat)
    requires Legal(r) && w < |r.End().weaks| && r.End().weaks[w].phase == WeakLive
    ensures r.End().weaks[w].cookie in r.End().deaths <==> !Told(r, r.End().weaks[w].cookie)
  {
    hide Legal;
    assert WatchedBy(r.End().weaks[w], r.End().weaks[w].cookie);
    WatchedExactly(r, r.End().weaks[w].cookie);
  }

  /* ------------------------------------------------ requests by the cookie */

  function Requests(cookie: nat, trace: seq<Command>): int {
    if trace == [] then 0 else
      Requests(cookie, trace[..|trace| - 1])
      + match trace[|trace| - 1]
        case REQUEST_DEATH_NOTIFICATION(c) => if c == cookie then 1 else 0
        case CLEAR_DEATH_NOTIFICATION(c) => if c == cookie then -1 else 0
        case _ => 0
  }

  /** Between REQUEST_DEATH_NOTIFICATION and CLEAR_DEATH_NOTIFICATION. */
  predicate Open(st: State, s: Site) {
    match s
    case ThreadSite(t) => t < |st.threads| && st.threads[t].Requested?
    case WeakSite(w) => w < |st.weaks| && (st.weaks[w].phase == WeakLive || st.weaks[w].phase == Clearing)
  }

  predicate OpenWith(st: State, s: Site, cookie: nat) {
    Open(st, s) && CookieAt(st, s) == Some(cookie)
  }

  ghost predicate Outstanding(st: State, cookie: nat) {
    exists s :: OpenWith(st, s, cookie)
  }

  /** Where an open site of before is after the step. */
  function Destination(st: State, step: Step, s: Site): Site {
    if Passed(step, s) then WeakSite(|st.weaks|) else s
  }

  predicate Asks(step: Step, s: Site) {
    step.WriteRequest? && s == ThreadSite(step.t)
  }

  predicate Clears(step: Step, s: Site) {
    step.WriteClear? && s == WeakSite(step.w)
  }

  lemma OpenBefore(st: State, step: Step, s: Site)
    requires Enabled(st, step) && Inv(st) && Open(Apply(st, step), s)
    ensures !Clears(step, s) && !Passed(step, s) && !Drawn(step, s)
    ensures Asks(step, s) || Open(st, Origin(st, step, s))
  {
    hide Apply, Inv;
    match s
    case ThreadSite(t) => ThreadCookieStep(st, step, t);
    case WeakSite(w) => PhaseStep(st, step, w);
  }

  lemma OpenAfter(st: State, step: Step, s: Site)
    requires Enabled(st, step) && Inv(st) && Open(st, s) && !Clears(step, s)
    ensures Open(Apply(st, step), Destination(st, step, s))
    ensures CookieAt(Apply(st, step), Destination(st, step, s)) == CookieAt(st, s)
  {
    hide Apply, Enabled, Inv;
    Lengths(st, step);
    CookieStep(st, step, Destination(st, step, s));
    match s
    case ThreadSite(t) => ThreadOpenStep(st, step, t);
    case WeakSite(w) => PhaseStep(st, step, w); assert Destination(st, step, s) == s;
  }

  lemma Lengths(st: State, step: Step)
    requires Enabled(st, step)
    ensures |Apply(st, step).threads| == |st.threads| && |Apply(st, step).weaks| >= |st.weaks|
    ensures OfThread(step) ==> step.t < |st.threads|
    ensures step.InsertWeak? ==> |Apply(st, step).weaks| == |st.weaks| + 1
    ensures step.RegisterDeath? ==> !st.threads[step.t].Requested?
    ensures step.InsertWeak? ==> st.threads[step.t].Requested?
    ensures step.WriteClear? ==> step.w < |st.weaks|
  {
  }

  lemma ThreadOpenStep(st: State, step: Step, t: nat)
    requires Enabled(st, step) && Inv(st) && Open(st, ThreadSite(t))
    ensures Open(Apply(st, step), Destination(st, step, ThreadSite(t)))
  {
    if !OfThread(step) {
      NoThread(Deaths, st, step);
    } else {
      OneThread(Deaths, st, step);
    }
  }

  /** The command a step writes about the cookie. */
  lemma RequestsStep(st: State, step: Step, cookie: nat)
    requires Enabled(st, step)
    ensures Requests(cookie, Apply(st, step).trace) == Requests(cookie, st.trace)
              + (if step.WriteRequest? && CookieAt(st, ThreadSite(step.t)) == Some(cookie) then 1
                 else if step.WriteClear? && CookieAt(st, WeakSite(step.w)) == Some(cookie) then -1
                 else 0)
  {
    var before, now := st.trace, Apply(st, step).trace;
    if |now| > |before| {
      assert now[..|before|] == before;
    }
  }

  /** Nothing else is open with the cookie that a command is about. */
  lemma OutstandingStep(st: State, step: Step, cookie: nat)
    requires Enabled(st, step) && Inv(st) && Distinct(st)
    ensures Outstanding(Apply(st, step), cookie) <==>
            || (step.WriteRequest? && CookieAt(st, ThreadSite(step.t)) == Some(cookie))
            || (Outstanding(st, cookie) && !(step.WriteClear? && CookieAt(st, WeakSite(step.w)) == Some(cookie)))
  {
    hide Apply, Enabled, Inv, Open, CookieAt, Below;
    var st' := Apply(st, step);
    if Outstanding(st', cookie) {
      var s :| OpenWith(st', s, cookie);
      OpenBefore(st, step, s);
      CookieStep(st, step, s);
      if Open(st, Origin(st, step, s)) {
        assert OpenWith(st, Origin(st, step, s), cookie);
        if step.WriteClear? {
          assert Apart(st, s, WeakSite(step.w));
        }
      }
    }
    if step.WriteRequest? && CookieAt(st, ThreadSite(step.t)) == Some(cookie) {
      NowOpen(st, step);
      assert OpenWith(st', ThreadSite(step.t), cookie);
    }
    if Outstanding(st, cookie) && !(step.WriteClear? && CookieAt(st, WeakSite(step.w)) == Some(cookie)) {
      var s :| OpenWith(st, s, cookie);
      OpenAfter(st, step, s);
      assert OpenWith(st', Destination(st, step, s), cookie);
    }
  }

  lemma NowOpen(st: State, step: Step)
    requires Enabled(st, step) && step.WriteRequest?
    ensures Open(Apply(st, step), ThreadSite(step.t)) && !Open(st, ThreadSite(step.t))
    ensures CookieAt(Apply(st, step), ThreadSite(step.t)) == CookieAt(st, ThreadSite(step.t))
    ensures CookieAt(st, ThreadSite(step.t)).Some?
  {
  }

  lemma ClearsOpen(st: State, step: Step)
    requires Enabled(st, step) && step.WriteClear?
    ensures Open(st, WeakSite(step.w)) && CookieAt(st, WeakSite(step.w)).Some?
  {
  }

  lemma NotYetOutstanding(st: State, step: Step)
    requires Enabled(st, step) && step.WriteRequest? && Distinct(st)
    ensures CookieAt(st, ThreadSite(step.t)).Some? && !Outstanding(st, CookieAt(st, ThreadSite(step.t)).value)
  {
    hide Apply, Enabled, Open, CookieAt, Below;
    NowOpen(st, step);
    var cookie := CookieAt(st, ThreadSite(step.t)).value;
    forall s | OpenWith(st, s, cookie)
      ensures s == ThreadSite(step.t)
    {
      assert Apart(st, s, ThreadSite(step.t));
    }
  }

  /** Main result: on every interleaving the requests for a cookie exceed the
      clearings of it by one exactly while its proxy is between the two. */
  lemma {:induction false} RequestedExactly(r: SystemRun, cookie: nat)
    requires Legal(r)
    ensures Requests(cookie, r.End().trace) == if Outstanding(r.End(), cookie) then 1 else 0
  {
    if r.Start? {
    } else {
      hide Apply, Enabled, Inv, Distinct, Requests, Outstanding, CookieAt;
      var st, step := r.before.End(), r.step;
      RequestedExactly(r.before, cookie);
      InvRun(r.before);
      CookiesDistinct(r.before);
      RequestsStep(st, step, cookie);
      OutstandingStep(st, step, cookie);
      if step.WriteRequest? {
        NotYetOutstanding(st, step);
      } else if step.WriteClear? {
        ClearsOpen(st, step);
        WasOutstanding(st, step);
      }
    }
  }

  lemma WasOutstanding(st: State, step: Step)
    requires Enabled(st, step) && step.WriteClear?
    ensures CookieAt(st, WeakSite(step.w)).Some? && Outstanding(st, CookieAt(st, WeakSite(step.w)).value)
  {
    assert OpenWith(st, WeakSite(step.w), st.weaks[step.w].cookie);
  }

  /* ------------------------------------------------------ references counted */

  /** A reference that a caller has: to a strong proxy, or to a weak one that is
      not the field of a strong one. */
  datatype Reference = ToStrong(i: nat) | ToWeak(w: nat)

  /** The reference that the call whose step this is returns, if it returns here. */
  function Returned(st: State, step: Step): Option<Reference>
    requires Enabled(st, step)
  {
    match step
    case GetStrong(_) => if StrongUpgradable(st) then Some(ToStrong(st.refs.value)) else None
    case GetWeak(_) => if WeakUpgradable(st) then Some(ToWeak(st.weakRefs.value)) else None
    case InsertWeak(t) => if st.threads[t].forStrong then None else Some(ToWeak(|st.weaks|))
    case InsertStrong(_) => Some(ToStrong(|st.strongs|))
    case Upgrade(_) => if StrongUpgradable(st) then Some(ToStrong(st.refs.value)) else None
    case CloneStrong(i) => Some(ToStrong(i))
    case Downgrade(i) => Some(ToWeak(st.strongs[i].weak))
    case CloneWeak(w) => Some(ToWeak(w))
    case _ => None
  }

  function Dropped(step: Step): Option<Reference> {
    match step
    case DropStrong(i) => Some(ToStrong(i))
    case DropWeak(w) => Some(ToWeak(w))
    case _ => None
  }

  /** How often the run returned the reference and has not seen it dropped. */
  ghost function Outside(r: SystemRun, x: Reference): int
    requires Legal(r)
  {
    if r.Start? then 0 else
      Outside(r.before, x) + (if Returned(r.before.End(), r.step) == Some(x) then 1 else 0)
      - (if Dropped(r.step) == Some(x) then 1 else 0)
  }

  function CountOf(st: State, x: Reference): nat {
    match x
    case ToStrong(i) => if i < |st.strongs| then st.strongs[i].count else 0
    case ToWeak(w) => if w < |st.weaks| then st.weaks[w].loose else 0
  }

  lemma CountStepThread(st: State, step: Step, x: Reference)
    requires Enabled(st, step) && OfThread(step)
    ensures CountOf(Apply(st, step), x) == CountOf(st, x) + (if Returned(st, step) == Some(x) then 1 else 0)
  {
  }

  lemma CountStepElse(st: State, step: Step, x: Reference)
    requires Enabled(st, step) && !OfThread(step)
    ensures CountOf(Apply(st, step), x) == CountOf(st, x) + (if Returned(st, step) == Some(x) then 1 else 0)
                                           - (if Dropped(step) == Some(x) then 1 else 0)
  {
  }

  /** Main result: on every interleaving a proxy's count is the references to it
      that callers were given and have not dropped. */
  lemma {:induction false} CountsReferences(r: SystemRun, x: Reference)
    requires Legal(r)
    ensures CountOf(r.End(), x) == Outside(r, x)
  {
    if r.Start? {
    } else {
      hide Apply, Enabled, CountOf, Returned;
      CountsReferences(r.before, x);
      if OfThread(r.step) {
        CountStepThread(r.before.End(), r.step, x);
      } else {
        CountStepElse(r.before.End(), r.step, x);
      }
    }
  }

  /* ---------------------------------------------------- no stale entries */

  /** An entry names a proxy that has yet to take it out. */
  ghost predicate Fresh(st: State) {
    && (st.refs.Some? ==>
          && st.refs.value < |st.strongs|
          && !st.strongs[st.refs.value].phase.FieldDropping? && !st.strongs[st.refs.value].phase.StrongGone?)
    && (st.weakRefs.Some? ==>
          && st.weakRefs.value < |st.weaks|
          && !st.weaks[st.weakRefs.value].phase.WeakGone?)
  }

  lemma FreshStepThread(st: State, step: Step)
    requires Inv(st) && Fresh(st) && Enabled(st, step) && OfThread(step)
    ensures Fresh(Apply(st, step))
  {
  }

  lemma FreshStepElse(st: State, step: Step)
    requires Inv(st) && Fresh(st) && Enabled(st, step) && !OfThread(step)
    ensures Fresh(Apply(st, step))
  {
    if step.DropStrong? {
      assert StrongOk(st, step.i);
    } else if step.EvictStrong? {
      assert st.refs == Some(step.i) ==> StrongOk(st, step.i);
    } else if step.EvictWeak? {
      assert st.weakRefs == Some(step.w) ==> WeakOk(st, step.w);
    } else if step.DropWeak? {
      assert WeakOk(st, step.w);
    } else if step.DropField? {
      assert StrongOk(st, step.i);
      assert WeakOk(st, st.strongs[step.i].weak);
    }
  }

  lemma {:induction false} FreshRun(r: SystemRun)
    requires Legal(r)
    ensures Fresh(r.End())
  {
    if r.Start? {
    } else {
      hide Apply, Enabled, Inv, Fresh;
      FreshRun(r.before);
      InvRun(r.before);
      if OfThread(r.step) {
        FreshStepThread(r.before.End(), r.step);
      } else {
        FreshStepElse(r.before.End(), r.step);
      }
    }
  }

  /** Main result: on every interleaving a handle that is fully dropped leaves
      nothing in any of the three tables, and every balance at the driver is
      zero. */
  lemma NothingLeft(r: SystemRun)
    requires Legal(r) && FullyDropped(r.End())
    ensures r.End().refs == None && r.End().weakRefs == None && r.End().deaths == {}
    ensures forall l :: Balance(l, r.End().trace) == 0
    ensures forall cookie :: Requests(cookie, r.End().trace) == 0
  {
    hide Legal, Apply, Enabled, Balance, Requests;
    var st := r.End();
    FreshRun(r);
    InvRun(r);
    NoDeathLeaks(r);
    AllGone(st);
    forall l
      ensures Balance(l, st.trace) == 0
    {
      TraceBalances(l, r);
      AllIdle(l, ThreadUnits(l, st));
      AllIdle(l, StrongUnits(l, st));
      AllIdle(l, WeakUnits(l, st));
    }
    forall cookie
      ensures Requests(cookie, st.trace) == 0
    {
      RequestedExactly(r, cookie);
      if s :| OpenWith(st, s, cookie) {
        assert false;
      }
    }
  }

  lemma AllGone(st: State)
    requires Inv(st) && FullyDropped(st)
    ensures forall i | 0 <= i < |st.strongs| :: st.strongs[i].phase == StrongGone
  {
    forall i | 0 <= i < |st.strongs|
      ensures st.strongs[i].phase == StrongGone
    {
      assert StrongOk(st, i);
      assert WeakOk(st, st.strongs[i].weak);
    }
  }
}
