/** The handle tables as objects: one uninterrupted call at a time, over all
    handles. HandleTables interleaves the statements of these bodies. */
module HandleDevice {
  import opened Sys
  import opened HandleTables

  /** A command and the handle it is about. */
  datatype Sent = Sent(handle: u32, command: Command)

  /** What a first reference sends: the weak commands come first, unless the weak
      proxy is there already. */
  function Opening(h: u32, cookie: nat, weakLives: bool): seq<Sent> {
    (if weakLives then [] else [Sent(h, INCREFS), Sent(h, REQUEST_DEATH_NOTIFICATION(cookie))]) + [Sent(h, ACQUIRE)]
  }

  /** What the last drop sends: the weak commands come last, unless the weak proxy
      outlives it. */
  function Closing(h: u32, cookie: nat, weakLives: bool): seq<Sent> {
    [Sent(h, RELEASE)] + if weakLives then [] else [Sent(h, CLEAR_DEATH_NOTIFICATION(cookie)), Sent(h, DECREFS)]
  }

  /** `strong` is the reference count of the proxy. */
  class WeakBinderRef {
    const handle: u32
    const cookie: nat
    var strong: nat

    constructor (handle: u32, cookie: nat)
      ensures this.handle == handle && this.cookie == cookie && strong == 1
    {
      this.handle, this.cookie, strong := handle, cookie, 1;
    }
  }

  class BinderRef {
    const weak: WeakBinderRef
    var strong: nat

    constructor (weak: WeakBinderRef)
      ensures this.weak == weak && strong == 1
    {
      this.weak, strong := weak, 1;
    }
  }

  class Handles {
    var refs: map<u32, BinderRef>
    var weakRefs: map<u32, WeakBinderRef>
    var deathCounter: nat
    var deaths: set<nat>
    var trace: seq<Sent>

    constructor ()
      ensures Valid() && trace == [] && refs == map[] && weakRefs == map[] && deaths == {}
    {
      refs, weakRefs, deathCounter, deaths, trace := map[], map[], 1, {}, [];
    }

    /** Entries are filed under their own handle. */
    ghost predicate Valid() reads this {
      && (forall h | h in refs :: refs[h].weak.handle == h)
      && (forall h | h in weakRefs :: weakRefs[h].handle == h)
    }

    ghost predicate LiveStrong(h: u32) reads this, refs.Values {
      h in refs && refs[h].strong > 0
    }

    ghost predicate LiveWeak(h: u32) reads this, weakRefs.Values {
      h in weakRefs && weakRefs[h].strong > 0
    }

    method WeakFromRaw(handle: u32) returns (w: WeakBinderRef)
      requires Valid()
      modifies this, weakRefs.Values
      ensures Valid() && w.handle == handle && weakRefs == old(weakRefs)[handle := w] && refs == old(refs)
      ensures old(LiveWeak(handle)) ==>
                && w == old(weakRefs[handle]) && w.strong == old(weakRefs[handle].strong) + 1
                && trace == old(trace) && deaths == old(deaths)
      ensures !old(LiveWeak(handle)) ==>
                && fresh(w) && w.strong == 1 && w.cookie == old(deathCounter)
                && trace == old(trace) + [Sent(handle, INCREFS), Sent(handle, REQUEST_DEATH_NOTIFICATION(w.cookie))]
                && deaths == old(deaths) + {w.cookie}
      ensures deathCounter == old(deathCounter) + if old(LiveWeak(handle)) then 0 else 1
      ensures forall x | x in old(weakRefs.Values) && x != w :: x.strong == old(x.strong)
    {
      if handle in weakRefs && weakRefs[handle].strong > 0 {
        w := weakRefs[handle];
        w.strong := w.strong + 1;
        return;
      }
      var cookie := deathCounter;
      deathCounter := deathCounter + 1;
      deaths := deaths + {cookie};
      trace := trace + [Sent(handle, INCREFS)];
      trace := trace + [Sent(handle, REQUEST_DEATH_NOTIFICATION(cookie))];
      w := new WeakBinderRef(handle, cookie);
      weakRefs := weakRefs[handle := w];
    }

    /** The commands are sent weak first, so that the strong reference never
        stands alone at the driver. */
    method StrongFromRaw(handle: u32) returns (r: BinderRef)
      requires Valid()
      modifies this, refs.Values, weakRefs.Values
      ensures Valid() && r.weak.handle == handle && refs == old(refs)[handle := r]
      ensures old(LiveStrong(handle)) ==>
                && r == old(refs[handle]) && r.strong == old(refs[handle].strong) + 1
                && trace == old(trace) && weakRefs == old(weakRefs)
      ensures !old(LiveStrong(handle)) ==>
                && fresh(r) && r.strong == 1 && weakRefs == old(weakRefs)[handle := r.weak]
                && trace == old(trace) + Opening(handle, r.weak.cookie, old(LiveWeak(handle)))
                && (if old(LiveWeak(handle)) then r.weak == old(weakRefs[handle]) else fresh(r.weak))
                && r.weak.strong == if old(LiveWeak(handle)) then old(weakRefs[handle].strong) + 1 else 1
      ensures deathCounter == old(deathCounter) + if old(LiveStrong(handle)) || old(LiveWeak(handle)) then 0 else 1
      ensures deaths == old(deaths) + if old(LiveStrong(handle)) || old(LiveWeak(handle)) then {} else {r.weak.cookie}
      ensures forall x | x in old(refs.Values) && x != r :: x.strong == old(x.strong)
      ensures forall x | x in old(weakRefs.Values) && (old(LiveStrong(handle)) || x != r.weak) ::
                x.strong == old(x.strong)
    {
      if handle in refs && refs[handle].strong > 0 {
        r := refs[handle];
        r.strong := r.strong + 1;
        return;
      }
      var weak := WeakFromRaw(handle);
      trace := trace + [Sent(handle, ACQUIRE)];
      r := new BinderRef(weak);
      refs := refs[handle := r];
    }

    /** One reference to a weak proxy goes; the last one runs the drop body. */
    method DropWeak(w: WeakBinderRef)
      requires Valid() && w.strong > 0
      modifies this, w
      ensures Valid() && w.strong == old(w.strong) - 1 && refs == old(refs) && deathCounter == old(deathCounter)
      ensures w.strong > 0 ==> trace == old(trace) && weakRefs == old(weakRefs) && deaths == old(deaths)
      ensures w.strong == 0 ==>
                && trace == old(trace) + [Sent(w.handle, CLEAR_DEATH_NOTIFICATION(w.cookie)), Sent(w.handle, DECREFS)]
                && deaths == old(deaths) - {w.cookie}
                && weakRefs == (if w.handle in old(weakRefs) && old(weakRefs)[w.handle].strong == 0
                                then old(weakRefs) - {w.handle} else old(weakRefs))
    {
      w.strong := w.strong - 1;
      if w.strong == 0 {
        trace := trace + [Sent(w.handle, CLEAR_DEATH_NOTIFICATION(w.cookie))];
        deaths := deaths - {w.cookie};
        trace := trace + [Sent(w.handle, DECREFS)];
        if w.handle in weakRefs && weakRefs[w.handle].strong == 0 {
          weakRefs := weakRefs - {w.handle};
        }
      }
    }

    /** One reference to a strong proxy goes; the last one runs the drop body and
        then drops the weak reference in its field. */
    method DropStrong(r: BinderRef)
      requires Valid() && r.strong > 0 && (r.strong == 1 ==> r.weak.strong > 0)
      modifies this, r, r.weak
      ensures Valid() && r.strong == old(r.strong) - 1 && deathCounter == old(deathCounter)
      ensures r.strong > 0 ==>
                && trace == old(trace) && refs == old(refs) && weakRefs == old(weakRefs) && deaths == old(deaths)
                && r.weak.strong == old(r.weak.strong)
      ensures r.strong == 0 ==>
                && r.weak.strong == old(r.weak.strong) - 1
                && trace == old(trace) + Closing(r.weak.handle, r.weak.cookie, r.weak.strong > 0)
                && refs == (if r.weak.handle in old(refs) && old(refs)[r.weak.handle].strong == 0
                            then old(refs) - {r.weak.handle} else old(refs))
                && deaths == (if r.weak.strong > 0 then old(deaths) else old(deaths) - {r.weak.cookie})
                && weakRefs == (if r.weak.strong == 0 && r.weak.handle in old(weakRefs)
                    && old(weakRefs)[r.weak.handle].strong == 0
                                then old(weakRefs) - {r.weak.handle} else old(weakRefs))
    {
      var handle := r.weak.handle;
      r.strong := r.strong - 1;
      if r.strong == 0 {
        trace := trace + [Sent(handle, RELEASE)];
        if handle in refs && refs[handle].strong == 0 {
          refs := refs - {handle};
        }
        DropWeak(r.weak);
      }
    }

    /** A further reference to a live proxy, taken and dropped: nothing is sent
        and nothing is left. */
    method TakeAndDropLive(handle: u32) returns (r: BinderRef)
      requires Valid() && LiveStrong(handle)
      modifies this, refs.Values, weakRefs.Values, set b | b in refs.Values :: b.weak
      ensures Valid() && r == old(refs[handle]) && r.strong == old(r.strong)
      ensures trace == old(trace) && refs == old(refs) && weakRefs == old(weakRefs) && deaths == old(deaths)
    {
      hide Valid;
      r := StrongFromRaw(handle);
      DropStrong(r);
    }

    /** A first reference, taken and dropped: what is sent is sent back in reverse
        (`OpenAndClose`), and both tables are as before but for dead entries. */
    method TakeAndDropNew(handle: u32) returns (r: BinderRef)
      requires Valid() && !LiveStrong(handle)
      modifies this, refs.Values, weakRefs.Values
      ensures Valid() && refs == old(refs) - {handle}
      ensures trace == old(trace) + (Opening(handle, r.weak.cookie, old(LiveWeak(handle)))
                                     + Closing(handle, r.weak.cookie, old(LiveWeak(handle))))
      ensures weakRefs == if old(LiveWeak(handle)) then old(weakRefs) else old(weakRefs) - {handle}
      ensures old(LiveWeak(handle)) ==> weakRefs[handle].strong == old(weakRefs[handle].strong)
      ensures deaths == if old(LiveWeak(handle)) then old(deaths) else old(deaths) - {r.weak.cookie}
    {
      hide Valid, Opening, Closing;
      ghost var strongs, weaks, sent := refs, weakRefs, trace;
      ghost var weakLives := LiveWeak(handle);
      r := StrongFromRaw(handle);
      Replaced(strongs, handle, r);
      Replaced(weaks, handle, r.weak);
      DropStrong(r);
      assert trace == sent + Opening(handle, r.weak.cookie, weakLives) + Closing(handle, r.weak.cookie, weakLives);
    }
  }

  lemma Replaced<T>(m: map<u32, T>, h: u32, x: T)
    ensures m[h := x] - {h} == m - {h}
    ensures h in m && m[h] == x ==> m[h := x] == m
  {
  }

  /** The command that undoes another. */
  predicate Reverses(open: Sent, close: Sent) {
    open.handle == close.handle &&
    match open.command
    case ACQUIRE => close.command == RELEASE
    case INCREFS => close.command == DECREFS
    case REQUEST_DEATH_NOTIFICATION(c) => close.command == CLEAR_DEATH_NOTIFICATION(c)
    case _ => false
  }

  /** The driver is told the reverse of what it was told, in reverse order. */
  lemma OpenAndClose(h: u32, cookie: nat, weakLives: bool)
    ensures var sent, undone := Opening(h, cookie, weakLives), Closing(h, cookie, weakLives);
            |sent| == |undone| && forall k | 0 <= k < |sent| :: Reverses(sent[k], undone[|undone| - 1 - k])
  {
  }
}
