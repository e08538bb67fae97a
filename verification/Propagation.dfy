/** The four outcomes of one round of QueuePressureChanged, and what a whole
    propagation may touch. */
module Propagation {
  import opened PriorityList
  import opened WaitGraph

  /** t counts q for `old` and should count it for `new`; all else is in balance. */
  ghost predicate OffBy(s: State, pend: map<Qid, int>, t: Tid, q: Qid, old_: int, new_: int) {
    && Live(s, t) && -1 <= old_
    && InheritsBut(s, pend, t, q, old_)
    && new_ == Contribution(s, pend, t, q)
    && (forall u :: u in s.threads && q in s.threads[u].owned ==> u == t)
  }

  /** t is to be visited: it is off by that much, or a rise has come round to a thread that
      counts the queue for more already. */
  ghost predicate Due(s: State, pend: map<Qid, int>, t: Tid, q: Qid, old_: int, new_: int) {
    || OffBy(s, pend, t, q, old_, new_)
    || (Inherits(s, pend) && Live(s, t) && old_ < new_ <= s.threads[t].inherited)
  }

  /** A pressure change left behind at q is one to book at the owner of q. */
  lemma HandOver(s: State, pend: map<Qid, int>, o: Tid, q: Qid, old_: int)
    requires OwnersOk(s) && Inherits(s, pend[q := old_]) && q !in pend && -1 <= old_
    requires q in s.queues && s.queues[q].owner == Some(o)
    ensures OffBy(s, pend, o, q, old_, Pressure(s, q))
  {
    forall u | Live(s, u)
      ensures IsMax(s, pend[q := old_], CountedBy(s, u, o, q), s.threads[u].inherited)
    {
      var own := s.threads[u].owned;
      IsMaxLocal(s, pend[q := old_], s, pend[q := old_], own, CountedBy(s, u, o, q), s.threads[u].inherited);
    }
  }

  /** What booking m at t leaves: nothing, or one change at the owner t waits for. */
  lemma AfterBooking(s: State, s': State, pend: map<Qid, int>, t: Tid, q: Qid, old_: int, new_: int, m: int)
    requires OwnersOk(s) && OwnersOk(s') && OffBy(s, pend, t, q, old_, new_)
    requires Booked(s, s', t, m) && IsMax(s, pend, s.threads[t].owned, m)
    requires forall b :: s.threads[t].status == Blocked(b) ==> -1 <= Pressure(s, b)
    ensures Next(s, t).None? || s.threads[t].status.queue in pend ==> Inherits(s', pend)
    ensures Next(s, t).Some? && s.threads[t].status.queue !in pend ==>
              var b := s.threads[t].status.queue;
              && (Pressure(s', b) == Pressure(s, b) ==> Inherits(s', pend))
              && OffBy(s', pend, Next(s, t).value, b, Pressure(s, b), Pressure(s', b))
  {
    BookStep(s, s', pend, t, q, old_, m);
    if Next(s, t).Some? && s.threads[t].status.queue !in pend {
      var b := s.threads[t].status.queue;
      assert Left(s, pend, t) == pend[b := Pressure(s, b)];
      HandOver(s', pend, Next(s, t).value, b, Pressure(s, b));
      if Pressure(s', b) == Pressure(s, b) {
        NothingLeft(s', pend, b, Pressure(s, b));
      }
    }
  }

  lemma OffByAt(s: State, pend: map<Qid, int>, t: Tid, q: Qid, old_: int, new_: int)
    requires OffBy(s, pend, t, q, old_, new_)
    ensures old_ <= s.threads[t].inherited
    ensures forall q' :: q' in s.threads[t].owned && q' != q ==> Accounted(s, pend, q') <= s.threads[t].inherited
    ensures s.threads[t].inherited == -1 || s.threads[t].inherited == old_ ||
            exists q' :: q' in s.threads[t].owned && q' != q && Accounted(s, pend, q') == s.threads[t].inherited
  {
    var own, m := s.threads[t].owned, s.threads[t].inherited;
    assert CountedBy(s, t, t, q) == own + {q};
    assert q in own + {q} && Accounted(s, pend[q := old_], q) == old_;
    forall q' | q' in own && q' != q ensures Accounted(s, pend, q') <= m {
      assert q' in own + {q} && Accounted(s, pend[q := old_], q') == Accounted(s, pend, q');
    }
    if m != -1 {
      var q' :| q' in own + {q} && Accounted(s, pend[q := old_], q') == m;
    }
  }

  /** If t itself is in balance, so is everything. */
  lemma Settles(s: State, pend: map<Qid, int>, t: Tid, q: Qid, old_: int, new_: int)
    requires OffBy(s, pend, t, q, old_, new_)
    requires IsMax(s, pend, s.threads[t].owned, s.threads[t].inherited)
    ensures Inherits(s, pend)
  {
    forall u | Live(s, u) ensures IsMax(s, pend, s.threads[u].owned, s.threads[u].inherited) {
      if u != t {
        var own := s.threads[u].owned;
        IsMaxLocal(s, pend[q := old_], s, pend, CountedBy(s, u, t, q), own, s.threads[u].inherited);
      }
    }
  }

  /** Pressure up, but not above what t inherits already. */
  lemma RiseSettles(s: State, pend: map<Qid, int>, t: Tid, q: Qid, old_: int, new_: int)
    requires OffBy(s, pend, t, q, old_, new_) && old_ < new_ <= s.threads[t].inherited
    ensures Inherits(s, pend)
  {
    OffByAt(s, pend, t, q, old_, new_);
    Settles(s, pend, t, q, old_, new_);
  }

  /** Pressure up, above what t inherits: the new pressure is the new maximum. */
  lemma RiseMax(s: State, pend: map<Qid, int>, t: Tid, q: Qid, old_: int, new_: int)
    requires OffBy(s, pend, t, q, old_, new_) && old_ < new_ && s.threads[t].inherited < new_
    ensures IsMax(s, pend, s.threads[t].owned, new_)
  {
    OffByAt(s, pend, t, q, old_, new_);
    assert q in s.threads[t].owned && Accounted(s, pend, q) == new_;
  }

  /** Pressure down, but it was not what t inherited. */
  lemma FallSettles(s: State, pend: map<Qid, int>, t: Tid, q: Qid, old_: int, new_: int)
    requires OffBy(s, pend, t, q, old_, new_) && new_ < old_ < s.threads[t].inherited
    ensures Inherits(s, pend)
  {
    OffByAt(s, pend, t, q, old_, new_);
    Settles(s, pend, t, q, old_, new_);
  }

  /** Pressure down: the maximum over the owned queues is the new value. */
  lemma FallMax(s: State, pend: map<Qid, int>, t: Tid, q: Qid, old_: int, new_: int, m: int)
    requires WellFormed(s) && OffBy(s, pend, t, q, old_, new_) && new_ < old_
    requires s.threads[t].owned !! pend.Keys
    requires IsMax(s, map[], s.threads[t].owned, m)
    ensures IsMax(s, pend, s.threads[t].owned, m) && m <= s.threads[t].inherited
    ensures m == s.threads[t].inherited ==> Inherits(s, pend)
  {
    var own := s.threads[t].owned;
    OffByAt(s, pend, t, q, old_, new_);
    IsMaxLocal(s, map[], s, pend, own, own, m);
    if m == s.threads[t].inherited {
      Settles(s, pend, t, q, old_, new_);
    }
  }

  /** t, which is off by that much, should inherit m. */
  ghost predicate Outweighed(s: State, pend: map<Qid, int>, t: Tid, q: Qid, old_: int, new_: int, m: int) {
    && OffBy(s, pend, t, q, old_, new_) && IsMax(s, pend, s.threads[t].owned, m)
    && if old_ < new_ then s.threads[t].inherited < m == new_ else m < s.threads[t].inherited == old_
  }

  /** A rise at t: it settles, or the new pressure is what t should inherit. */
  lemma RiseKnown(s: State, pend: map<Qid, int>, t: Tid, q: Qid, old_: int, new_: int)
    requires Due(s, pend, t, q, old_, new_) && old_ < new_
    ensures new_ <= s.threads[t].inherited ==> Inherits(s, pend)
    ensures s.threads[t].inherited < new_ ==> Outweighed(s, pend, t, q, old_, new_, new_)
  {
    if new_ > s.threads[t].inherited {
      RiseMax(s, pend, t, q, old_, new_);
    } else if OffBy(s, pend, t, q, old_, new_) {
      RiseSettles(s, pend, t, q, old_, new_);
    }
  }

  /** A fall at t, which inherited no more than that: m, the maximum over its queues or the
      new pressure itself, is what t should inherit. */
  lemma FallKnown(s: State, pend: map<Qid, int>, t: Tid, q: Qid, old_: int, new_: int, m: int)
    requires WellFormed(s) && OffBy(s, pend, t, q, old_, new_) && new_ < old_ && s.threads[t].inherited <= old_
    requires s.threads[t].owned !! pend.Keys
    requires new_ == -1 || (exists q' :: q' in s.threads[t].owned && Pressure(s, q') == new_) ==> IsMax(s, map[], s.threads[t].owned, m)
    ensures if m == s.threads[t].inherited then Inherits(s, pend) else Outweighed(s, pend, t, q, old_, new_, m)
  {
    OffByAt(s, pend, t, q, old_, new_);
    assert new_ != -1 ==> q in s.threads[t].owned && Pressure(s, q) == new_;
    FallMax(s, pend, t, q, old_, new_, m);
  }

  // ----- what a propagation touches -----

  /** A propagation over `chain` meets no queue whose change is still to be booked. */
  ghost predicate PendClear(s: State, chain: set<Tid>, pend: map<Qid, int>, up: bool) {
    forall u :: u in chain && u in s.threads ==>
      && (!up ==> s.threads[u].owned !! pend.Keys)
      && (Next(s, u).Some? ==> s.threads[u].status.queue !in pend)
  }

  /** The same, but a rise may meet a queue that is recorded with at least that much. */
  ghost predicate PendMet(s: State, chain: set<Tid>, pend: map<Qid, int>, up: bool, level: int) {
    forall u :: u in chain && u in s.threads ==>
      && (!up ==> s.threads[u].owned !! pend.Keys)
      && (Next(s, u).Some? && s.threads[u].status.queue in pend ==> up && level <= pend[s.threads[u].status.queue])
  }

  /** One thread's priorities moved one way only, and not if its effective priority was
      beyond `level`. */
  predicate ThreadMoved(h0: Thread, h: Thread, up: bool, level: int) {
    && h.base == h0.base && h.boost == h0.boost
    && (if up then h0.inherited <= h.inherited && h0.effec <= h.effec <= Max(h0.effec, level)
        else h.inherited <= h0.inherited && h.effec <= h0.effec && (h0.effec > level ==> h.effec == h0.effec) &&
             (h0.inherited != level ==> h.inherited == h0.inherited && h.effec == h0.effec))
  }

  /** From s0 to s only inherited and effective priorities changed, on the chain only. */
  ghost predicate Touched(s0: State, s: State, chain: set<Tid>) {
    && SameShape(s0, s)
    && (forall u :: u in s0.threads && u !in chain ==> s.threads[u] == s0.threads[u])
    && (forall u :: u in s0.threads ==> s.threads[u].base == s0.threads[u].base && s.threads[u].boost == s0.threads[u].boost)
  }

  lemma TouchedStep(s0: State, s: State, s': State, chain: set<Tid>, t: Tid, m: int)
    requires Touched(s0, s, chain) && Booked(s, s', t, m) && t in chain
    requires s'.threads[t].base == s.threads[t].base && s'.threads[t].boost == s.threads[t].boost
    ensures Touched(s0, s', chain)
  {
    ShapeTrans(s0, s, s');
  }

  /** From s0 to s priorities moved, on the chain only. */
  ghost predicate Moved(s0: State, s: State, chain: set<Tid>, up: bool, level: int) {
    && Touched(s0, s, chain)
    && (forall u :: u in s0.threads ==> ThreadMoved(s0.threads[u], s.threads[u], up, level))
  }

  /** The owner of a queue inherits at least what the queue is recorded with. */
  lemma CountedAlready(s: State, pend: map<Qid, int>, q: Qid)
    requires OwnersOk(s) && Inherits(s, pend) && q in pend && q in s.queues && s.queues[q].owner.Some?
    ensures Live(s, s.queues[q].owner.value) && pend[q] <= s.threads[s.queues[q].owner.value].inherited
  {
    var o := s.queues[q].owner.value;
    assert q in s.threads[o].owned && Live(s, o);
    assert Accounted(s, pend, q) == pend[q];
  }

  /** One round, whatever the queue t waits on is recorded with. */
  lemma AfterBookingDue(s: State, s': State, pend: map<Qid, int>, chain: set<Tid>, t: Tid, q: Qid, old_: int, new_: int, m: int)
    requires OwnersOk(s) && OwnersOk(s') && OffBy(s, pend, t, q, old_, new_)
    requires Booked(s, s', t, m) && IsMax(s, pend, s.threads[t].owned, m)
    requires forall b :: s.threads[t].status == Blocked(b) ==> -1 <= Pressure(s, b)
    requires t in chain && PendMet(s, chain, pend, old_ < new_, new_)
    ensures Next(s, t).None? ==> Inherits(s', pend)
    ensures Next(s, t).Some? ==>
              var b := s.threads[t].status.queue;
              && (Pressure(s', b) == Pressure(s, b) ==> Inherits(s', pend))
              && (old_ < new_ ==> Pressure(s, b) < Pressure(s', b) <= new_ ==> Due(s', pend, Next(s, t).value, b, Pressure(s, b), Pressure(s', b)))
              && (old_ >= new_ ==> OffBy(s', pend, Next(s, t).value, b, Pressure(s, b), Pressure(s', b)))
  {
    AfterBooking(s, s', pend, t, q, old_, new_, m);
    if Next(s, t).Some? && s.threads[t].status.queue in pend {
      CountedAlready(s', pend, s.threads[t].status.queue);
    }
  }

  lemma ShapeTrans(a: State, b: State, c: State)
    requires SameShape(a, b) && SameShape(b, c)
    ensures SameShape(a, c)
  {
  }

  /** Where priorities rise to a level, so do pressures. */
  lemma RisePressure(v: State, f: State, chain: set<Tid>, level: int, y: Qid)
    requires WellFormed(v) && WellFormed(f) && Moved(v, f, chain, true, level) && y in v.queues
    ensures Pressure(v, y) <= Pressure(f, y) <= Max(Pressure(v, y), level)
  {
    PressureIsMax(v, y);
    PressureIsMax(f, y);
    var l, l' := v.queues[y].waiters, f.queues[y].waiters;
    if l != [] {
      assert l[0] in l' && l'[0] in l;
      assert ThreadMoved(v.threads[l[0]], f.threads[l[0]], true, level);
      assert ThreadMoved(v.threads[l'[0]], f.threads[l'[0]], true, level);
    }
  }

  /** If the record was true before a rise to its level, it is afterwards. */
  lemma RecordTrue(v: State, f: State, chain: set<Tid>, level: int, q: Qid, pend: map<Qid, int>)
    requires WellFormed(v) && WellFormed(f) && Moved(v, f, chain, true, level) && q in v.queues && q !in pend
    requires Inherits(f, pend[q := level])
    ensures Pressure(v, q) == level ==> Inherits(f, pend)
  {
    RisePressure(v, f, chain, level, q);
    if Pressure(v, q) == level {
      NothingLeft(f, pend, q, level);
    }
  }

  lemma MovedStep(s0: State, s: State, s': State, chain: set<Tid>, up: bool, level: int, t: Tid, m: int)
    requires PrioritiesOk(s) && PrioritiesOk(s') && Moved(s0, s, chain, up, level) && Booked(s, s', t, m)
    requires t in chain && s'.threads[t].base == s.threads[t].base && s'.threads[t].boost == s.threads[t].boost
    requires if up then s.threads[t].inherited < m == level else m < s.threads[t].inherited == level
    ensures Moved(s0, s', chain, up, level)
  {
    TouchedStep(s0, s, s', chain, t, m);
    forall u | u in s0.threads ensures ThreadMoved(s0.threads[u], s'.threads[u], up, level) {
      assert ThreadMoved(s0.threads[u], s.threads[u], up, level);
    }
  }

  /** The room left for priorities to move in one direction. */
  ghost function Room(s: State, up: bool): set<(Tid, int)> {
    set t, p | t in s.threads && 0 <= p <= HIGHEST_PRIORITY &&
               (if up then s.threads[t].inherited < p else p <= s.threads[t].inherited) :: (t, p)
  }

  lemma RoomShrinks(s: State, s': State, t: Tid, m: int, up: bool)
    requires PrioritiesOk(s) && PrioritiesOk(s') && Booked(s, s', t, m)
    requires if up then s.threads[t].inherited < m else m < s.threads[t].inherited
    ensures Room(s', up) < Room(s, up)
  {
    var gone := (t, if up then m else s.threads[t].inherited);
    assert gone in Room(s, up) && gone !in Room(s', up);
  }
}
