/** Threads, wait queues and who waits for whom, with the priority-inheritance
    equation that the bookkeeping of kernel/kernel/owned_wait_queue.cc maintains. */
module WaitGraph {
  import opened PriorityList

  datatype Qid = Qid(id: int)

  const HIGHEST_PRIORITY := 31
  const MAX_PRIORITY_ADJ := 4

  datatype Status = Active | Blocked(queue: Qid) | Dead

  datatype Thread = Thread(
    base: int, boost: int, inherited: int, effec: int,
    boostable: bool, status: Status, owned: set<Qid>)

  /** An ordinary wait queue never has an owner. */
  datatype Kind = Plain | Owned

  datatype Queue = Queue(kind: Kind, waiters: seq<Tid>, owner: Option<Tid>)

  datatype State = State(threads: map<Tid, Thread>, queues: map<Qid, Queue>)

  function Max(a: int, b: int): int { if a >= b then a else b }

  function Prio(ts: map<Tid, Thread>): Tid -> int {
    (t: Tid) => if t in ts then ts[t].effec else -1
  }

  /** The priority a queue passes on to its owner: that of its first waiter, or -1. */
  function Pressure(s: State, q: Qid): int {
    if q in s.queues then Head(Prio(s.threads), s.queues[q].waiters) else -1
  }

  // ----- what every critical section leaves behind -----

  ghost predicate PrioritiesOk(s: State) {
    forall t :: t in s.threads ==>
      var h := s.threads[t];
      && 0 <= h.base + h.boost <= HIGHEST_PRIORITY
      && -1 <= h.inherited <= HIGHEST_PRIORITY
      && h.effec == Max(h.base + h.boost, h.inherited)
  }

  ghost predicate WaitersOk(s: State) {
    forall q :: q in s.queues ==>
      && Sorted(Prio(s.threads), s.queues[q].waiters)
      && Distinct(s.queues[q].waiters)
      && forall w :: w in s.queues[q].waiters ==> w in s.threads && s.threads[w].status == Blocked(q)
  }

  /** Together with WaitersOk: every blocked thread is in exactly one queue, once. */
  ghost predicate BlockedOk(s: State) {
    forall t {:trigger s.threads[t].status.queue} :: t in s.threads && s.threads[t].status.Blocked? ==>
      && s.threads[t].status.queue in s.queues
      && t in s.queues[s.threads[t].status.queue].waiters
  }

  ghost predicate OwnersOk(s: State) {
    && (forall t, q :: t in s.threads && q in s.threads[t].owned ==>
          q in s.queues && s.queues[q].owner == Some(t))
    && (forall q {:trigger s.queues[q].owner.value} :: q in s.queues && s.queues[q].owner.Some? ==>
          && s.queues[q].kind.Owned?
          && s.queues[q].owner.value in s.threads
          && q in s.threads[s.queues[q].owner.value].owned)
    && (forall t :: t in s.threads && s.threads[t].status.Dead? ==> s.threads[t].owned == {})
  }

  ghost predicate WellFormed(s: State) {
    PrioritiesOk(s) && WaitersOk(s) && BlockedOk(s) && OwnersOk(s)
  }

  predicate Live(s: State, t: Tid) {
    t in s.threads && !s.threads[t].status.Dead?
  }

  // ----- the inheritance equation -----

  /** What a queue currently counts for in its owner's inherited priority: its
      pressure, unless a change of pressure is still waiting to be booked. */
  function Accounted(s: State, pend: map<Qid, int>, q: Qid): int {
    if q in pend then pend[q] else Pressure(s, q)
  }

  ghost predicate IsMax(s: State, pend: map<Qid, int>, qs: set<Qid>, m: int) {
    && -1 <= m
    && (forall q :: q in qs ==> Accounted(s, pend, q) <= m)
    && (m == -1 || exists q :: q in qs && Accounted(s, pend, q) == m)
  }

  /** Every live thread inherits exactly the maximum over the queues it owns. */
  ghost predicate Inherits(s: State, pend: map<Qid, int>) {
    forall t {:trigger Live(s, t)} :: Live(s, t) ==> IsMax(s, pend, s.threads[t].owned, s.threads[t].inherited)
  }

  ghost function CountedBy(s: State, u: Tid, t: Tid, q: Qid): set<Qid>
    requires u in s.threads
  {
    if u == t then s.threads[u].owned + {q} else s.threads[u].owned
  }

  /** The equation in which t still counts q, owned or just released, for `old`. */
  ghost predicate InheritsBut(s: State, pend: map<Qid, int>, t: Tid, q: Qid, old_: int) {
    forall u {:trigger Live(s, u)} :: Live(s, u) ==>
      IsMax(s, pend[q := old_], CountedBy(s, u, t, q), s.threads[u].inherited)
  }

  /** What t should now count q for. */
  function Contribution(s: State, pend: map<Qid, int>, t: Tid, q: Qid): int {
    if t in s.threads && q in s.threads[t].owned then Accounted(s, pend, q) else -1
  }

  // ----- who waits for whom -----

  function Next(s: State, t: Tid): Option<Tid> {
    if t in s.threads && s.threads[t].status.Blocked? && s.threads[t].status.queue in s.queues
    then s.queues[s.threads[t].status.queue].owner
    else None
  }

  ghost predicate Closed(s: State, chain: set<Tid>) {
    forall t :: t in chain && Next(s, t).Some? ==> Next(s, t).value in chain
  }

  /** The threads reached from t by following owners; finite on cyclic graphs too. */
  function ChainFrom(s: State, t: Tid, seen: set<Tid>): set<Tid>
    decreases s.threads.Keys - seen
  {
    if t in seen || t !in s.threads then seen
    else if Next(s, t).None? then seen + {t}
    else ChainFrom(s, Next(s, t).value, seen + {t})
  }

  function Chain(s: State, t: Tid): set<Tid> { ChainFrom(s, t, {}) }

  /** No thread waits, directly or through others, for itself. */
  ghost predicate Acyclic(s: State) {
    forall t :: t in s.threads && Next(s, t).Some? ==> t !in Chain(s, Next(s, t).value)
  }

  /** The owner of q does not wait, directly or through others, on q. */
  ghost predicate NoCycleThrough(s: State, q: Qid) {
    q in s.queues && s.queues[q].owner.Some? ==>
      forall w :: w in s.queues[q].waiters ==> w !in Chain(s, s.queues[q].owner.value)
  }

  // ----- changes of priority -----

  ghost predicate SameShape(s: State, s': State) {
    && s.threads.Keys == s'.threads.Keys && s.queues.Keys == s'.queues.Keys
    && (forall t :: t in s.threads ==>
          && s'.threads[t].status == s.threads[t].status
          && s'.threads[t].owned == s.threads[t].owned
          && s'.threads[t].boostable == s.threads[t].boostable)
    && (forall q :: q in s.queues ==>
          && s'.queues[q].kind == s.queues[q].kind
          && s'.queues[q].owner == s.queues[q].owner
          && |s'.queues[q].waiters| == |s.queues[q].waiters|
          && forall w :: w in s'.queues[q].waiters <==> w in s.queues[q].waiters)
  }

  /** compute_effec_priority, then wait_queue_priority_changed if t is blocked and
      its effective priority moved: leave the queue and enter it again. */
  function Reprioritise(s: State, t: Tid, base: int, boost: int, inherited: int): State
    requires t in s.threads
  {
    var h := s.threads[t];
    var h' := h.(base := base, boost := boost, inherited := inherited,
                 effec := Max(base + boost, inherited));
    var ts := s.threads[t := h'];
    if h'.effec == h.effec || !h.status.Blocked? || h.status.queue !in s.queues then
      State(ts, s.queues)
    else
      var q := h.status.queue;
      State(ts, s.queues[q := s.queues[q].(
        waiters := Insert(Prio(ts), Without(s.queues[q].waiters, t), t))])
  }

  lemma ReprioritiseWaiters(s: State, t: Tid, base: int, boost: int, inherited: int, q: Qid)
    requires WaitersOk(s) && BlockedOk(s) && t in s.threads && q in s.queues
    ensures var s' := Reprioritise(s, t, base, boost, inherited);
            && Sorted(Prio(s'.threads), s'.queues[q].waiters)
            && Distinct(s'.queues[q].waiters)
            && |s'.queues[q].waiters| == |s.queues[q].waiters|
            && forall w :: w in s'.queues[q].waiters <==> w in s.queues[q].waiters
  {
    var s' := Reprioritise(s, t, base, boost, inherited);
    var p, p', l := Prio(s.threads), Prio(s'.threads), s.queues[q].waiters;
    if s.threads[t].status == Blocked(q) && s'.threads[t].effec != s.threads[t].effec {
      ReinsertKeepsOrder(p, p', l, t);
    } else {
      SortedLocal(p, p', l);
    }
  }

  lemma ReprioritiseShape(s: State, t: Tid, base: int, boost: int, inherited: int)
    requires WaitersOk(s) && BlockedOk(s) && t in s.threads
    ensures SameShape(s, Reprioritise(s, t, base, boost, inherited))
    ensures forall u :: u in s.threads && u != t ==>
              Reprioritise(s, t, base, boost, inherited).threads[u] == s.threads[u]
  {
    var s' := Reprioritise(s, t, base, boost, inherited);
    forall q | q in s.queues
      ensures && s'.queues[q].kind == s.queues[q].kind
              && s'.queues[q].owner == s.queues[q].owner
              && |s'.queues[q].waiters| == |s.queues[q].waiters|
              && forall w :: w in s'.queues[q].waiters <==> w in s.queues[q].waiters
    {
      ReprioritiseWaiters(s, t, base, boost, inherited, q);
    }
  }

  lemma ReprioritiseSorted(s: State, t: Tid, base: int, boost: int, inherited: int)
    requires WaitersOk(s) && BlockedOk(s) && t in s.threads
    ensures WaitersOk(Reprioritise(s, t, base, boost, inherited))
  {
    var s' := Reprioritise(s, t, base, boost, inherited);
    forall q | q in s'.queues
      ensures Sorted(Prio(s'.threads), s'.queues[q].waiters) && Distinct(s'.queues[q].waiters)
      ensures forall w :: w in s'.queues[q].waiters ==> w in s'.threads && s'.threads[w].status == Blocked(q)
    {
      ReprioritiseWaiters(s, t, base, boost, inherited, q);
    }
  }

  lemma ShapeKeepsOwners(s: State, s': State)
    requires OwnersOk(s) && BlockedOk(s) && SameShape(s, s')
    ensures OwnersOk(s') && BlockedOk(s')
    ensures forall t :: Next(s', t) == Next(s, t)
    ensures forall t :: Live(s', t) == Live(s, t)
  {
  }

  /** Re-prioritising one thread keeps everything in order. */
  lemma ReprioritiseOk(s: State, t: Tid, base: int, boost: int, inherited: int)
    requires WellFormed(s) && t in s.threads
    requires 0 <= base + boost <= HIGHEST_PRIORITY && -1 <= inherited <= HIGHEST_PRIORITY
    ensures WellFormed(Reprioritise(s, t, base, boost, inherited))
  {
    ReprioritiseShape(s, t, base, boost, inherited);
    ReprioritiseSorted(s, t, base, boost, inherited);
    ShapeKeepsOwners(s, Reprioritise(s, t, base, boost, inherited));
  }

  lemma PressureIsMax(s: State, q: Qid)
    requires WellFormed(s) && q in s.queues
    ensures forall w :: w in s.queues[q].waiters ==> s.threads[w].effec <= Pressure(s, q)
    ensures s.queues[q].waiters == [] <==> Pressure(s, q) == -1
    ensures s.queues[q].waiters != [] ==>
              s.queues[q].waiters[0] in s.queues[q].waiters && s.threads[s.queues[q].waiters[0]].effec == Pressure(s, q)
    ensures -1 <= Pressure(s, q) <= HIGHEST_PRIORITY
  {
    var l := s.queues[q].waiters;
    if l != [] {
      assert l[0] in l;
      forall w | w in l ensures s.threads[w].effec <= Pressure(s, q) {
        var i :| 0 <= i < |l| && l[i] == w;
        assert i == 0 || Prio(s.threads)(l[0]) >= Prio(s.threads)(l[i]);
      }
    }
  }

  /** The equation in full: a live thread inherits the highest effective priority among
      all threads that wait on its queues, and nothing if there are none. */
  lemma InheritedIsHighestWaiter(s: State, t: Tid)
    requires WellFormed(s) && Inherits(s, map[]) && Live(s, t)
    ensures var h := s.threads[t];
            && h.effec == Max(h.base + h.boost, h.inherited)
            && (forall q, w :: q in h.owned && w in s.queues[q].waiters ==> s.threads[w].effec <= h.inherited)
            && (h.inherited == -1 <==> forall q :: q in h.owned ==> s.queues[q].waiters == [])
            && (h.inherited != -1 ==>
                  exists q, w :: q in h.owned && w in s.queues[q].waiters && s.threads[w].effec == h.inherited)
  {
    var h := s.threads[t];
    forall q | q in h.owned
      ensures Accounted(s, map[], q) == Pressure(s, q) <= h.inherited
      ensures forall w :: w in s.queues[q].waiters ==> s.threads[w].effec <= Pressure(s, q)
      ensures s.queues[q].waiters == [] <==> Pressure(s, q) == -1
    {
      PressureIsMax(s, q);
    }
    if h.inherited != -1 {
      var q :| q in h.owned && Accounted(s, map[], q) == h.inherited;
      PressureIsMax(s, q);
      assert s.queues[q].waiters[0] in s.queues[q].waiters;
    }
  }

  lemma ReprioritisePressure(s: State, t: Tid, base: int, boost: int, inherited: int, q: Qid)
    requires WellFormed(s) && t in s.threads && q in s.queues
    requires 0 <= base + boost <= HIGHEST_PRIORITY && -1 <= inherited <= HIGHEST_PRIORITY
    ensures var s' := Reprioritise(s, t, base, boost, inherited);
            && (s.threads[t].status != Blocked(q) || s.threads[t].effec == s'.threads[t].effec ==>
                  Pressure(s', q) == Pressure(s, q))
            && (s'.threads[t].effec > s.threads[t].effec && Pressure(s', q) != Pressure(s, q) ==>
                  Pressure(s, q) < Pressure(s', q) == s'.threads[t].effec)
            && (s'.threads[t].effec < s.threads[t].effec && Pressure(s', q) != Pressure(s, q) ==>
                  Pressure(s', q) < Pressure(s, q) == s.threads[t].effec)
  {
    var s' := Reprioritise(s, t, base, boost, inherited);
    ReprioritiseOk(s, t, base, boost, inherited);
    ReprioritiseShape(s, t, base, boost, inherited);
    PressureIsMax(s, q);
    PressureIsMax(s', q);
    var l, l' := s.queues[q].waiters, s'.queues[q].waiters;
    if l != [] {
      assert l[0] in l';
      assert l'[0] in l;
    }
  }

  // ----- chains -----

  lemma {:induction false} ChainFromClosed(s: State, t: Tid, seen: set<Tid>)
    requires forall u :: u in seen && Next(s, u).Some? ==> Next(s, u).value in seen || Next(s, u).value == t
    ensures t in s.threads ==> t in ChainFrom(s, t, seen)
    ensures seen <= ChainFrom(s, t, seen)
    ensures t in s.threads || t in seen ==> Closed(s, ChainFrom(s, t, seen)) || exists u :: Next(s, u).Some? && Next(s, u).value !in s.threads
    decreases s.threads.Keys - seen
  {
    if t in seen || t !in s.threads {
    } else if Next(s, t).Some? {
      ChainFromClosed(s, Next(s, t).value, seen + {t});
    }
  }

  lemma ChainClosed(s: State, t: Tid)
    requires WellFormed(s) && t in s.threads
    ensures t in Chain(s, t) && Closed(s, Chain(s, t))
  {
    ChainFromClosed(s, t, {});
  }

  /** A chain is the least closed set. */
  lemma {:induction false} ChainLeast(s: State, t: Tid, seen: set<Tid>, c: set<Tid>)
    requires Closed(s, c) && t in c && seen <= c
    ensures ChainFrom(s, t, seen) <= c
    decreases s.threads.Keys - seen
  {
    if t !in seen && t in s.threads && Next(s, t).Some? {
      ChainLeast(s, Next(s, t).value, seen + {t}, c);
    }
  }

  // ----- one step of pressure propagation -----

  lemma IsMaxLocal(s: State, pend: map<Qid, int>, s': State, pend': map<Qid, int>, qs: set<Qid>, qs': set<Qid>, m: int)
    requires IsMax(s, pend, qs, m) && qs == qs'
    requires forall q :: q in qs ==> Accounted(s, pend, q) == Accounted(s', pend', q)
    ensures IsMax(s', pend', qs', m)
  {
    if m != -1 {
      var q :| q in qs && Accounted(s, pend, q) == m;
      assert q in qs' && Accounted(s', pend', q) == m;
    }
  }

  /** s' is s with t inheriting m: no other thread changes, and no pressure but that
      of the queue t waits on. */
  ghost predicate Booked(s: State, s': State, t: Tid, m: int) {
    && SameShape(s, s') && t in s.threads && s'.threads[t].inherited == m
    && (forall u :: u in s.threads && u != t ==> s'.threads[u] == s.threads[u])
    && (forall q :: q in s.queues && s.threads[t].status != Blocked(q) ==> Pressure(s', q) == Pressure(s, q))
  }

  lemma ReprioritiseBooks(s: State, t: Tid, base: int, boost: int, m: int)
    requires WellFormed(s) && t in s.threads
    requires 0 <= base + boost <= HIGHEST_PRIORITY && -1 <= m <= HIGHEST_PRIORITY
    ensures Booked(s, Reprioritise(s, t, base, boost, m), t, m)
  {
    ReprioritiseShape(s, t, base, boost, m);
    forall q | q in s.queues { ReprioritisePressure(s, t, base, boost, m, q); }
  }

  /** The change of pressure that booking a value at t leaves behind. */
  function Left(s: State, pend: map<Qid, int>, t: Tid): map<Qid, int> {
    if Next(s, t).Some? && s.threads[t].status.queue !in pend then pend[s.threads[t].status.queue := Pressure(s, s.threads[t].status.queue)] else pend
  }

  /** Booking the right value m at t leaves at most one change of pressure to book,
      at the owner of the queue t waits on. No acyclicity is needed: that owner may
      be t itself. */
  lemma BookStep(s: State, s': State, pend: map<Qid, int>, t: Tid, q: Qid, old_: int, m: int)
    requires OwnersOk(s) && Live(s, t) && InheritsBut(s, pend, t, q, old_)
    requires Booked(s, s', t, m) && IsMax(s, pend, s.threads[t].owned, m)
    requires forall u :: u in s.threads && q in s.threads[u].owned ==> u == t
    ensures Inherits(s', Left(s, pend, t))
  {
    var left := Left(s, pend, t);
    forall u | Live(s', u) ensures IsMax(s', left, s'.threads[u].owned, s'.threads[u].inherited) {
      var own := s.threads[u].owned;
      assert Live(s, u);
      if u == t {
        AccountedKept(s, s', pend, t, m, u);
        IsMaxLocal(s, pend, s', left, own, own, m);
      } else {
        AccountedKept(s, s', pend, t, m, u);
        IsMaxLocal(s, pend[q := old_], s', left, CountedBy(s, u, t, q), own, s.threads[u].inherited);
      }
    }
  }

  /** A thread whose own priority changed, not what it inherits. */
  lemma RepricedInherits(s: State, s': State, t: Tid)
    requires OwnersOk(s) && t in s.threads && Inherits(s, map[]) && Booked(s, s', t, s.threads[t].inherited)
    ensures Inherits(s', Left(s, map[], t))
  {
    forall u | Live(s', u) ensures IsMax(s', Left(s, map[], t), s'.threads[u].owned, s'.threads[u].inherited) {
      var own := s.threads[u].owned;
      assert Live(s, u);
      AccountedKept(s, s', map[], t, s.threads[t].inherited, u);
      IsMaxLocal(s, map[], s', Left(s, map[], t), own, own, s.threads[u].inherited);
    }
  }

  lemma AccountedKept(s: State, s': State, pend: map<Qid, int>, t: Tid, m: int, u: Tid)
    requires OwnersOk(s) && Booked(s, s', t, m) && u in s.threads
    ensures forall q :: q in s.threads[u].owned ==> Accounted(s, pend, q) == Accounted(s', Left(s, pend, t), q)
  {
    forall q | q in s.threads[u].owned ensures Accounted(s, pend, q) == Accounted(s', Left(s, pend, t), q) {
      assert s.queues[q].owner == Some(u);
      if s.threads[t].status == Blocked(q) {
        assert Next(s, t) == Some(u);
      } else {
        assert Pressure(s', q) == Pressure(s, q);
      }
    }
  }

  /** Once the recorded pressure of q is its real one, nothing is pending there. */
  lemma NothingLeft(s: State, pend: map<Qid, int>, q: Qid, old_: int)
    requires Inherits(s, pend[q := old_]) && (q in s.queues && q !in pend && Pressure(s, q) == old_)
    ensures Inherits(s, pend)
  {
    forall u | Live(s, u) ensures IsMax(s, pend, s.threads[u].owned, s.threads[u].inherited) {
      var own := s.threads[u].owned;
      IsMaxLocal(s, pend[q := old_], s, pend, own, own, s.threads[u].inherited);
    }
  }
}
