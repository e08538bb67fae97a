/** The wait queues of the kernel and the priority-inheritance bookkeeping of
    kernel/kernel/owned_wait_queue.cc. Every method is one critical section under
    thread_lock. */
module OwnedWaitQueue {
  import opened PriorityList
  import opened WaitGraph
  import opened Propagation
  import opened Ownership
  import opened Waiting
  import opened Requeueing
  import opened SampledPressure

  class WaitQueues {
    var threads: map<Tid, Thread>
    var queues: map<Qid, Queue>

    ghost function S(): State
      reads this
    {
      State(threads, queues)
    }

    constructor ()
      ensures WellFormed(S()) && Inherits(S(), map[]) && threads == map[] && queues == map[]
    {
      threads, queues := map[], map[];
    }

    /** wait_queue_blocked_priority over the queues a thread owns. */
    method MaxOwnedPressure(t: Tid, floor: int) returns (m: int)
      requires WellFormed(S()) && t in threads && -1 <= floor <= HIGHEST_PRIORITY
      ensures floor <= m <= HIGHEST_PRIORITY
      ensures floor == -1 || (exists q :: q in threads[t].owned && Pressure(S(), q) == floor) ==>
                IsMax(S(), map[], threads[t].owned, m)
    {
      m := floor;
      var rest := threads[t].owned;
      while rest != {}
        invariant rest <= threads[t].owned && floor <= m <= HIGHEST_PRIORITY
        invariant forall q :: q in threads[t].owned - rest ==> Accounted(S(), map[], q) <= m
        invariant m == floor || exists q :: q in threads[t].owned && Accounted(S(), map[], q) == m
      {
        var q :| q in rest;
        rest := rest - {q};
        var p := Pressure(State(threads, queues), q);
        assert Accounted(S(), map[], q) == p;
        PressureIsMax(S(), q);
        if p > m {
          m := p;
        }
      }
      if q :| q in threads[t].owned && Pressure(S(), q) == floor {
        assert Accounted(S(), map[], q) == floor;
      }
    }

    /** sched_inherit_priority, with the requeueing done by wait_queue_priority_changed. */
    method InheritPriority(t: Tid, pri: int)
      requires WellFormed(S()) && t in threads && -1 <= pri
      modifies this
      ensures S() == old(Reprioritise(S(), t, threads[t].base, threads[t].boost,
                                      if pri > HIGHEST_PRIORITY then HIGHEST_PRIORITY else pri))
    {
      var p := if pri > HIGHEST_PRIORITY then HIGHEST_PRIORITY else pri;
      var s := Reprioritise(State(threads, queues), t, threads[t].base, threads[t].boost, p);
      threads, queues := s.threads, s.queues;
    }

    // Below, `known` says that every thread inherits what it should, but for the changes that
    // are being booked. Where it does not, all methods still end, keep everything in order
    // and touch only the threads they should.

    /** First half of a round: is t out of balance, and what should it inherit? */
    method Reconsider(t: Tid, oldPrio: int, newPrio: int, ghost q: Qid, ghost pend: map<Qid, int>, ghost known: bool)
      returns (done: bool, m: int)
      requires WellFormed(S()) && t in threads && oldPrio != newPrio && -1 <= newPrio <= HIGHEST_PRIORITY
      requires known ==> Due(S(), pend, t, q, oldPrio, newPrio) && (newPrio < oldPrio ==> threads[t].owned !! pend.Keys)
      ensures !done ==> -1 <= m <= HIGHEST_PRIORITY && m != threads[t].inherited
      ensures !done && oldPrio < newPrio ==> threads[t].inherited < m == newPrio
      ensures known && done ==> Inherits(S(), pend)
      ensures known && !done ==> Outweighed(S(), pend, t, q, oldPrio, newPrio, m)
    {
      ghost var s := S();
      m := newPrio;
      done := true;
      if newPrio < oldPrio {
        if oldPrio < threads[t].inherited {
          if known { FallSettles(s, pend, t, q, oldPrio, newPrio); }
          return;
        }
        m := MaxOwnedPressure(t, newPrio);
        if known {
          FallKnown(s, pend, t, q, oldPrio, newPrio, m);
        }
        if m == threads[t].inherited {
          return;
        }
      } else {
        if known {
          RiseKnown(s, pend, t, q, oldPrio, newPrio);
        }
        if newPrio <= threads[t].inherited {
          return;
        }
      }
      done := false;
    }

    /** Second half: let t inherit m and see what that does to the queue it waits on. */
    method Book(t: Tid, m: int) returns (oldQueuePrio: int, newQueuePrio: int)
      requires WellFormed(S()) && t in threads && -1 <= m <= HIGHEST_PRIORITY
      modifies this
      ensures WellFormed(S()) && Booked(old(S()), S(), t, m)
      ensures threads[t].base == old(threads[t].base) && threads[t].boost == old(threads[t].boost)
      ensures !threads[t].status.Blocked? ==> oldQueuePrio == newQueuePrio
      ensures threads[t].status.Blocked? ==>
                && threads[t].status.queue in queues
                && oldQueuePrio == old(Pressure(S(), threads[t].status.queue))
                && newQueuePrio == Pressure(S(), threads[t].status.queue)
      ensures old(threads[t].inherited) < m && oldQueuePrio != newQueuePrio ==>
                oldQueuePrio < newQueuePrio == m
      ensures m < old(threads[t].inherited) && oldQueuePrio != newQueuePrio ==>
                newQueuePrio < oldQueuePrio == old(threads[t].inherited)
    {
      ghost var s := S();
      var h := threads[t];
      ReprioritiseBooks(s, t, h.base, h.boost, m);
      ReprioritiseOk(s, t, h.base, h.boost, m);
      oldQueuePrio := if h.status.Blocked? then Pressure(State(threads, queues), h.status.queue) else -1;
      if h.status.Blocked? {
        ReprioritisePressure(s, t, h.base, h.boost, m, h.status.queue);
      }
      InheritPriority(t, m);
      newQueuePrio := if h.status.Blocked? then Pressure(State(threads, queues), h.status.queue) else -1;
    }

    /** Lets t inherit m, and finds the next owner to visit if that changes the pressure
        of the queue t waits on. */
    method Advance(t: Tid, m: int, ghost oldPrio: int, ghost newPrio: int,
                   ghost q: Qid, ghost pend: map<Qid, int>, ghost chain: set<Tid>, ghost known: bool)
      returns (next: Option<Tid>, oldQueuePrio: int, newQueuePrio: int, ghost bq: Qid)
      requires WellFormed(S()) && t in threads && -1 <= m <= HIGHEST_PRIORITY && m != threads[t].inherited
      requires known ==>
                 && oldPrio != newPrio && Outweighed(S(), pend, t, q, oldPrio, newPrio, m)
                 && t in chain && PendMet(S(), chain, pend, oldPrio < newPrio, newPrio)
      modifies this
      ensures WellFormed(S()) && Booked(old(S()), S(), t, m)
      ensures threads[t].base == old(threads[t].base) && threads[t].boost == old(threads[t].boost)
      ensures next.Some? ==>
                && old(Next(S(), t)) == next && next.value in threads && -1 <= newQueuePrio <= HIGHEST_PRIORITY
                && oldQueuePrio != newQueuePrio && (old(threads[t].inherited) < m <==> oldQueuePrio < newQueuePrio)
      ensures known && next.None? ==> Inherits(S(), pend)
      ensures known && next.Some? ==>
                && Due(S(), pend, next.value, bq, oldQueuePrio, newQueuePrio)
                && Max(oldQueuePrio, newQueuePrio) == Max(oldPrio, newPrio)
    {
      ghost var s := S();
      bq, next := q, None;
      oldQueuePrio, newQueuePrio := Book(t, m);
      if threads[t].status.Blocked? {
        PressureIsMax(s, threads[t].status.queue);
        PressureIsMax(S(), threads[t].status.queue);
      }
      if known {
        AfterBookingDue(s, S(), pend, chain, t, q, oldPrio, newPrio, m);
      }
      if oldQueuePrio != newQueuePrio {
        bq := threads[t].status.queue;
        if queues[threads[t].status.queue].kind.Owned? {
          next := queues[threads[t].status.queue].owner;
        }
      }
    }

    /** One round at t: nothing more to do, or the next owner to visit. A fall may turn into
        a rise where the equation does not hold, a rise never turns. */
    method Round(t: Tid, oldPrio: int, newPrio: int, ghost q: Qid, ghost pend: map<Qid, int>,
                 ghost s0: State, ghost chain: set<Tid>, ghost known: bool)
      returns (next: Option<Tid>, oldQueuePrio: int, newQueuePrio: int, ghost bq: Qid)
      requires WellFormed(S()) && t in threads && oldPrio != newPrio && -1 <= newPrio <= HIGHEST_PRIORITY
      requires t in chain && Closed(S(), chain) && Touched(s0, S(), chain)
      requires known ==>
                 && Due(S(), pend, t, q, oldPrio, newPrio) && PendMet(S(), chain, pend, oldPrio < newPrio, newPrio)
                 && Moved(s0, S(), chain, oldPrio < newPrio, Max(oldPrio, newPrio))
      modifies this
      ensures WellFormed(S()) && SameShape(old(S()), S()) && Touched(s0, S(), chain)
      ensures next.Some? ==>
                && next.value in chain && next.value in threads
                && oldQueuePrio != newQueuePrio && -1 <= newQueuePrio <= HIGHEST_PRIORITY
                && if (oldPrio < newPrio) == (oldQueuePrio < newQueuePrio)
                   then Room(S(), oldPrio < newPrio) < old(Room(S(), oldPrio < newPrio))
                   else newPrio < oldPrio
      ensures known ==> Moved(s0, S(), chain, oldPrio < newPrio, Max(oldPrio, newPrio))
      ensures known && next.None? ==> Inherits(S(), pend)
      ensures known && next.Some? ==>
                && Due(S(), pend, next.value, bq, oldQueuePrio, newQueuePrio)
                && (oldPrio < newPrio <==> oldQueuePrio < newQueuePrio)
                && Max(oldQueuePrio, newQueuePrio) == Max(oldPrio, newPrio)
    {
      ghost var s := S();
      bq := q;
      next, oldQueuePrio, newQueuePrio := None, -1, -1;
      var done, m := Reconsider(t, oldPrio, newPrio, q, pend, known);
      if done {
        return;
      }
      next, oldQueuePrio, newQueuePrio, bq := Advance(t, m, oldPrio, newPrio, q, pend, chain, known);
      TouchedStep(s0, s, S(), chain, t, m);
      RoomShrinks(s, S(), t, m, s.threads[t].inherited < m);
      if known {
        MovedStep(s0, s, S(), chain, oldPrio < newPrio, Max(oldPrio, newPrio), t, m);
      }
    }

    /** Books a change of pressure at t and follows it from owner to owner.
        Terminates on every graph, cyclic ones included. */
    method QueuePressureChanged(t: Tid, oldPrio: int, newPrio: int,
                                ghost q0: Qid, ghost pend: map<Qid, int>, ghost chain: set<Tid>, ghost known: bool)
      requires WellFormed(S()) && t in threads && oldPrio != newPrio && -1 <= newPrio <= HIGHEST_PRIORITY
      requires t in chain && Closed(S(), chain)
      requires known ==> OffBy(S(), pend, t, q0, oldPrio, newPrio) && PendMet(S(), chain, pend, oldPrio < newPrio, newPrio)
      modifies this
      ensures WellFormed(S()) && Touched(old(S()), S(), chain)
      ensures known ==> Inherits(S(), pend) && Moved(old(S()), S(), chain, oldPrio < newPrio, Max(oldPrio, newPrio))
    {
      var cur, oldP, newP := Some(t), oldPrio, newPrio;
      ghost var q, up := q0, oldPrio < newPrio;
      while cur.Some?
        invariant WellFormed(S()) && Touched(old(S()), S(), chain) && Closed(S(), chain)
        invariant cur.Some? ==>
                    && cur.value in chain && cur.value in threads
                    && oldP != newP && up == (oldP < newP) && -1 <= newP <= HIGHEST_PRIORITY
        invariant known ==>
                    && Moved(old(S()), S(), chain, oldPrio < newPrio, Max(oldPrio, newPrio))
                    && PendMet(S(), chain, pend, oldPrio < newPrio, newPrio)
        invariant known && cur.Some? ==>
                    && Due(S(), pend, cur.value, q, oldP, newP)
                    && up == (oldPrio < newPrio) && Max(oldP, newP) == Max(oldPrio, newPrio)
        invariant known && cur.None? ==> Inherits(S(), pend)
        decreases cur.Some?, !up, Room(S(), up)
      {
        ghost var s := S();
        cur, oldP, newP, q := Round(cur.value, oldP, newP, q, pend, old(S()), chain, known);
        up := if cur.Some? then oldP < newP else up;
        ShapeKeepsOwners(s, S());
      }
    }

    method DropOwner(q: Qid, ghost oldPrio: int, ghost pend: map<Qid, int>, ghost chain: set<Tid>, ghost known: bool) returns (o: Tid)
      requires WellFormed(S()) && q in queues && queues[q].owner.Some? && Closed(S(), chain)
      requires known ==>
                 && q !in pend && -1 <= oldPrio && Inherits(S(), pend[q := oldPrio]) && PendClear(S(), chain, pend, false)
      modifies this
      ensures o == old(queues)[q].owner.value && o in old(threads) && S() == old(Release(S(), q))
      ensures WellFormed(S()) && Rebooked(old(S()), S(), q, None, {}) && Closed(S(), chain)
      ensures known ==>
                && OffBy(S(), pend, o, q, oldPrio, -1) && (oldPrio == -1 ==> Inherits(S(), pend))
                && PendClear(S(), chain, pend, false)
    {
      o := queues[q].owner.value;
      ReleaseOk(S(), q);
      ReleaseRebooks(S(), q);
      ReleaseChain(S(), map[], q, chain);
      if known {
        ReleaseReady(S(), pend, q, oldPrio, chain);
      }
      var r := Release(State(threads, queues), q);
      threads, queues := r.threads, r.queues;
    }

    /** n owns q, which is recorded as p, but has not booked that yet. */
    method AddOwner(q: Qid, n: Tid, ghost p: int, ghost pend: map<Qid, int>, ghost s: State, ghost touched: set<Tid>, ghost known: bool)
      requires WellFormed(S()) && q in queues && queues[q].owner.None? && queues[q].kind.Owned? && Live(S(), n)
      requires Rebooked(s, S(), q, None, touched)
      requires known ==> q !in pend && Inherits(S(), pend) && Pressure(S(), q) <= p && PendClear(S(), Chain(S(), n), pend, true)
      modifies this
      ensures S() == old(Take(S(), q, n)) && WellFormed(S()) && Rebooked(s, S(), q, Some(n), touched)
      ensures Pressure(S(), q) == old(Pressure(S(), q)) && n in old(Chain(S(), n)) && Closed(S(), old(Chain(S(), n)))
      ensures known ==>
                && OffBy(S(), pend[q := p], n, q, -1, p) && (Pressure(S(), q) == -1 ==> Inherits(S(), pend))
                && PendMet(S(), old(Chain(S(), n)), pend[q := p], true, p)
    {
      TakeInOrder(S(), q, n);
      TakeRebooks(s, S(), q, touched, n);
      if known {
        TakeRecorded(S(), pend, q, n, p);
      }
      var r := Take(State(threads, queues), q, n);
      threads, queues := r.threads, r.queues;
    }

    /** First half of a change of owner: the old owner gives up q and what it
        inherited from it. */
    method ReleaseOwner(q: Qid, oldPrio: int, ghost pend: map<Qid, int>, ghost chain: set<Tid>, ghost known: bool)
      requires WellFormed(S()) && q in queues && queues[q].owner.Some?
      requires queues[q].owner.value in chain && Closed(S(), chain)
      requires known ==>
                 && q !in pend && -1 <= oldPrio && Inherits(S(), pend[q := oldPrio]) && PendClear(S(), chain, pend, false)
      modifies this
      ensures WellFormed(S()) && old(queues)[q].owner.value in old(threads)
      ensures Rebooked(old(S()), S(), q, None, old(Behind(S(), q))) && old(Behind(S(), q)) <= chain
      ensures known ==> Inherits(S(), pend) && Lowered(old(S()), S(), oldPrio)
    {
      var o := DropOwner(q, oldPrio, pend, chain, known);
      ghost var r := S();
      ghost var behind := Chain(r, o);
      ChainClosed(r, o);
      ChainLeast(r, o, {}, chain);
      if oldPrio >= 0 {
        QueuePressureChanged(o, oldPrio, -1, q, pend, behind, known);
        PropagationRebooks(old(S()), r, S(), q, None, {}, behind, behind);
        if known {
          FallLowers(old(S()), r, S(), q, None, behind, oldPrio);
        }
      } else {
        RebookedMore(old(S()), S(), q, None, {}, behind);
      }
    }

    /** Second half: n takes q and inherits from it what was sampled, newPrio. */
    method TakeOwner(q: Qid, n: Tid, newPrio: int, ghost pend: map<Qid, int>, ghost s: State, ghost touched: set<Tid>, ghost known: bool)
      requires WellFormed(S()) && q in queues && queues[q].owner.None? && queues[q].kind.Owned? && Live(S(), n)
      requires newPrio <= HIGHEST_PRIORITY && Rebooked(s, S(), q, None, touched)
      requires known ==>
                 q !in pend && Inherits(S(), pend) && Pressure(S(), q) <= newPrio && PendClear(S(), Chain(S(), n), pend, true)
      modifies this
      ensures WellFormed(S()) && Rebooked(s, S(), q, Some(n), touched + old(Chain(S(), n)))
      ensures known && old(Pressure(S(), q)) == newPrio ==> Inherits(S(), pend)
      ensures known && 0 <= newPrio ==>
                Inherits(S(), pend[q := newPrio]) && Moved(old(Take(S(), q, n)), S(), old(Chain(S(), n)), true, newPrio)
    {
      ghost var chain := Chain(S(), n);
      PressureIsMax(S(), q);
      AddOwner(q, n, newPrio, pend, s, touched, known);
      if newPrio >= 0 {
        BookTaken(q, n, newPrio, pend, chain, s, touched, known);
      } else {
        RebookedMore(s, S(), q, Some(n), touched, touched + chain);
      }
    }

    method BookTaken(q: Qid, n: Tid, newPrio: int, ghost pend: map<Qid, int>, ghost chain: set<Tid>,
                     ghost s: State, ghost touched: set<Tid>, ghost known: bool)
      requires WellFormed(S()) && q in queues && n in threads && 0 <= newPrio <= HIGHEST_PRIORITY
      requires n in chain && Closed(S(), chain) && Rebooked(s, S(), q, Some(n), touched)
      requires known ==>
                 && q !in pend && OffBy(S(), pend[q := newPrio], n, q, -1, newPrio)
                 && PendMet(S(), chain, pend[q := newPrio], true, newPrio)
      modifies this
      ensures WellFormed(S()) && Rebooked(s, S(), q, Some(n), touched + chain)
      ensures known ==> Inherits(S(), pend[q := newPrio]) && Moved(old(S()), S(), chain, true, newPrio)
      ensures known && old(Pressure(S(), q)) == newPrio ==> Inherits(S(), pend)
    {
      ghost var r := S();
      QueuePressureChanged(n, -1, newPrio, q, pend[q := newPrio], chain, known);
      PropagationRebooks(s, r, S(), q, Some(n), touched, chain, touched + chain);
      if known {
        RecordTrue(r, S(), chain, newPrio, q, pend);
      }
    }

    /** Books what happened to q since `oldPrio` was sampled, and makes newOwner its
        owner unless that thread is dying. The pressure that newOwner is to inherit is
        sampled before the old owner lets q go. */
    method UpdateBookkeeping(q: Qid, newOwner: Option<Tid>, oldPrio: int,
                             ghost pend: map<Qid, int>, ghost chain: set<Tid>, ghost newChain: set<Tid>, ghost known: bool)
      requires WellFormed(S()) && q in queues && queues[q].kind.Owned?
      requires newOwner.Some? ==> newOwner.value in threads && newOwner.value in newChain
      requires queues[q].owner.Some? ==> queues[q].owner.value in chain && Closed(S(), chain)
      requires ClosedBut(S(), newChain, q)
      requires known ==> Recorded(S(), pend, q, oldPrio, chain) && PendClear(S(), newChain, pend, true)
      modifies this
      ensures WellFormed(S())
      ensures Rebooked(old(S()), S(), q, old(Eligible(S(), newOwner)), chain + newChain)
      ensures old(queues[q].owner == Eligible(S(), newOwner)) ==> Settled(old(S()), S(), q, oldPrio, chain, known)
      ensures known && old(queues)[q].owner.None? ==> GivenTo(old(S()), S(), q, old(Eligible(S(), newOwner)))
      ensures known && old(queues)[q].owner.Some? && old(Eligible(S(), newOwner)).Some? && Steady(old(S()), q, oldPrio, chain) ==> Inherits(S(), pend)
      ensures known && !(old(queues)[q].owner.Some? && old(Eligible(S(), newOwner)).Some?) ==> Inherits(S(), pend)
      ensures known && pend == map[] ==> (Inherits(S(), map[]) <==> !SampleLost(old(S()), q, oldPrio, old(Eligible(S(), newOwner))))
    {
      var newPrio := Pressure(State(threads, queues), q);
      ghost var s := S();
      var owner := Eligible(State(threads, queues), newOwner);
      SameRebooks(s, q);
      if owner == queues[q].owner {
        Rebook(q, oldPrio, newPrio, pend, chain, known);
        RebookedMore(s, S(), q, owner, chain, chain + newChain);
      } else if queues[q].owner.None? {
        PressureIsMax(s, q);
        if known { Unowned(s, pend, q, oldPrio); }
        ChangeOwner(q, owner, newPrio, pend, s, {}, newChain, known);
        RebookedMore(s, S(), q, owner, newChain, chain + newChain);
      } else {
        PassOn(q, owner, oldPrio, newPrio, pend, chain, newChain, known);
      }
    }

    /** Both halves of a change of owner, with the pressure sampled before. */
    method PassOn(q: Qid, owner: Option<Tid>, oldPrio: int, newPrio: int,
                  ghost pend: map<Qid, int>, ghost chain: set<Tid>, ghost newChain: set<Tid>, ghost known: bool)
      requires WellFormed(S()) && q in queues && queues[q].kind.Owned? && newPrio == Pressure(S(), q)
      requires owner.Some? ==> Live(S(), owner.value) && owner.value in newChain
      requires queues[q].owner.Some? && owner != queues[q].owner
      requires queues[q].owner.value in chain && Closed(S(), chain) && ClosedBut(S(), newChain, q)
      requires known ==> Recorded(S(), pend, q, oldPrio, chain) && PendClear(S(), newChain, pend, true)
      modifies this
      ensures WellFormed(S()) && Rebooked(old(S()), S(), q, owner, chain + newChain)
      ensures known && (owner.None? || Steady(old(S()), q, oldPrio, chain)) ==> Inherits(S(), pend)
      ensures known && pend == map[] ==> (Inherits(S(), map[]) <==> !SampleLost(old(S()), q, oldPrio, owner))
    {
      ghost var s := S();
      ReleaseOwner(q, oldPrio, pend, chain, known);
      ghost var mid := S();
      LeftAlone(s, mid, q);
      if known {
        PassedOn(s, mid, q, oldPrio, chain);
      }
      ChangeOwner(q, owner, newPrio, pend, s, Behind(s, q), newChain, known);
      MoreOnBothSides(Behind(s, q), chain, newChain);
      RebookedMore(s, S(), q, owner, Behind(s, q) + newChain, chain + newChain);
      if known {
        Outcome(s, mid, S(), q, oldPrio, owner, pend, chain, newChain);
      }
    }

    /** The second half, if there is a new owner. */
    method ChangeOwner(q: Qid, owner: Option<Tid>, newPrio: int, ghost pend: map<Qid, int>,
                       ghost s: State, ghost touched: set<Tid>, ghost newChain: set<Tid>, ghost known: bool)
      requires WellFormed(S()) && q in queues && queues[q].owner.None? && queues[q].kind.Owned? && newPrio <= HIGHEST_PRIORITY
      requires owner.Some? ==> Live(S(), owner.value) && owner.value in newChain
      requires Rebooked(s, S(), q, None, touched) && ClosedBut(s, newChain, q)
      requires known ==> q !in pend && Inherits(S(), pend) && Pressure(S(), q) <= newPrio && PendClear(s, newChain, pend, true)
      modifies this
      ensures WellFormed(S()) && Rebooked(s, S(), q, owner, touched + newChain)
      ensures known && (owner.None? || old(Pressure(S(), q)) == newPrio) ==> Inherits(S(), pend)
      ensures known && owner.Some? && 0 <= newPrio ==>
                Inherits(S(), pend[q := newPrio]) && Moved(old(Take(S(), q, owner.value)), S(), old(Chain(S(), owner.value)), true, newPrio)
    {
      if owner.Some? {
        RebookedChain(s, S(), pend, q, touched, newChain);
        ChainLeast(S(), owner.value, {}, newChain);
        ghost var tight := Chain(S(), owner.value);
        TakeOwner(q, owner.value, newPrio, pend, s, touched, known);
        RebookedMore(s, S(), q, owner, touched + tight, touched + newChain);
      } else {
        RebookedMore(s, S(), q, None, touched, touched + newChain);
      }
    }

    /** The owner stays; only the pressure of its queue may have changed. */
    method Rebook(q: Qid, oldPrio: int, newPrio: int, ghost pend: map<Qid, int>, ghost chain: set<Tid>, ghost known: bool)
      requires WellFormed(S()) && q in queues && newPrio == Pressure(S(), q)
      requires queues[q].owner.Some? ==> queues[q].owner.value in chain && Closed(S(), chain)
      requires known ==> Recorded(S(), pend, q, oldPrio, chain)
      modifies this
      ensures WellFormed(S()) && Rebooked(old(S()), S(), q, old(queues)[q].owner, chain)
      ensures known ==> Inherits(S(), pend)
      ensures Settled(old(S()), S(), q, oldPrio, chain, known)
    {
      ghost var s := S();
      SameRebooks(s, q);
      PressureIsMax(s, q);
      if queues[q].owner.None? {
        if known { Unowned(s, pend, q, oldPrio); }
        RebookedMore(s, s, q, None, {}, chain);
      } else if newPrio == oldPrio {
        if known { NothingLeft(s, pend, q, oldPrio); }
        RebookedMore(s, s, q, queues[q].owner, {}, chain);
      } else {
        if known { HandOver(s, pend, queues[q].owner.value, q, oldPrio); }
        QueuePressureChanged(queues[q].owner.value, oldPrio, newPrio, q, pend, chain, known);
        PropagationRebooks(s, s, S(), q, s.queues[q].owner, {}, chain, chain);
      }
    }

    /** WaitersPriorityChanged: nothing else is to be booked. */
    method WaitersPriorityChanged(q: Qid, oldPrio: int, ghost known: bool)
      requires WellFormed(S()) && q in queues
      requires known ==> -1 <= oldPrio && Inherits(S(), map[q := oldPrio])
      modifies this
      ensures WellFormed(S()) && (known ==> Inherits(S(), map[]))
      ensures Rebooked(old(S()), S(), q, old(OwnerOf(S(), q)), old(ChainOf(S(), OwnerOf(S(), q))))
      ensures Settled(old(S()), S(), q, oldPrio, old(ChainOf(S(), OwnerOf(S(), q))), known)
    {
      ghost var s := S();
      ChainOfClosed(s, OwnerOf(s, q));
      if known {
        assert map[][q := oldPrio] == map[q := oldPrio];
        assert Recorded(s, map[], q, oldPrio, ChainOf(s, OwnerOf(s, q)));
      }
      Rebook(q, oldPrio, Pressure(State(threads, queues), q), map[], ChainOf(s, OwnerOf(s, q)), known);
    }

    /** UpdateBookkeeping when nothing else is to be booked, with the chains as they are now. */
    method BookChange(q: Qid, newOwner: Option<Tid>, oldPrio: int, ghost known: bool)
      requires WellFormed(S()) && q in queues && queues[q].kind.Owned?
      requires newOwner.Some? ==> newOwner.value in threads
      requires known ==> -1 <= oldPrio && Inherits(S(), map[q := oldPrio])
      modifies this
      ensures WellFormed(S())
      ensures Rebooked(old(S()), S(), q, old(Eligible(S(), newOwner)), old(ChainOf(S(), OwnerOf(S(), q)) + ChainOf(S(), newOwner)))
      ensures old(OwnerOf(S(), q) == Eligible(S(), newOwner)) ==>
                Settled(old(S()), S(), q, oldPrio, old(ChainOf(S(), OwnerOf(S(), q))), known)
      ensures known && old(queues)[q].owner.None? ==> GivenTo(old(S()), S(), q, old(Eligible(S(), newOwner)))
      ensures known ==>
                && (Inherits(S(), map[]) <==> !SampleLost(old(S()), q, oldPrio, old(Eligible(S(), newOwner))))
                && (old(OwnerOf(S(), q)).None? || newOwner.None? || Steady(old(S()), q, oldPrio, old(ChainOf(S(), OwnerOf(S(), q)))) ==>
                      Inherits(S(), map[]))
    {
      ghost var s := S();
      ChainOfClosed(s, OwnerOf(s, q));
      ChainOfClosed(s, newOwner);
      if known {
        assert map[][q := oldPrio] == map[q := oldPrio];
        assert Recorded(s, map[], q, oldPrio, ChainOf(s, OwnerOf(s, q)));
      }
      UpdateBookkeeping(q, newOwner, oldPrio, map[], ChainOf(s, OwnerOf(s, q)), ChainOf(s, newOwner), known);
    }

    // ----- the operations -----

    /** On every wait-for graph the equation holds afterwards unless the sampled pressure is
        lost, and then it does not. */
    method AssignOwner(q: Qid, newOwner: Option<Tid>)
      requires WellFormed(S()) && q in queues && queues[q].kind.Owned?
      requires newOwner.Some? ==> newOwner.value in threads
      modifies this
      ensures WellFormed(S())
      ensures old(Inherits(S(), map[])) ==>
                && (Inherits(S(), map[]) <==> !old(SampleLost(S(), q, Pressure(S(), q), Eligible(S(), newOwner))))
                && (newOwner.None? || old(NoCycleThrough(S(), q)) ==> Inherits(S(), map[]))
      ensures old(OwnerOf(S(), q)) != newOwner ==>
                Rebooked(old(S()), S(), q, old(Eligible(S(), newOwner)),
                         old(ChainOf(S(), OwnerOf(S(), q)) + ChainOf(S(), newOwner)))
      ensures old(OwnerOf(S(), q)) == newOwner ==> S() == old(S())
      ensures queues[q].owner == if newOwner.Some? && !threads[newOwner.value].status.Dead? then newOwner else None
      ensures threads.Keys == old(threads).Keys && forall u :: u in threads ==> threads[u].status == old(threads)[u].status
    {
      if newOwner == queues[q].owner {
        return;
      }
      ghost var s := S();
      var p := Pressure(State(threads, queues), q);
      PressureIsMax(s, q);
      ghost var known := Inherits(s, map[]);
      if known {
        if NoCycleThrough(s, q) {
          NoCycleNoLoss(s, q, p, Eligible(s, newOwner));
        }
        StillInherits(s, map[], q);
      }
      BookChange(q, newOwner, p, known);
    }

    method EnqueueThread(q: Qid, t: Tid) returns (old_: int)
      requires WellFormed(S()) && q in queues && t in threads && threads[t].status.Active?
      modifies this
      ensures S() == old(Enqueue(S(), q, t))
      ensures -1 <= old_ == old(Pressure(S(), q))
      ensures WellFormed(S()) && (old(Inherits(S(), map[])) ==> Inherits(S(), map[q := old_]))
      ensures threads.Keys == old(threads).Keys && q in queues
      ensures queues[q].kind == old(queues)[q].kind && queues[q].owner == old(queues)[q].owner
      ensures forall u :: Live(S(), u) == old(Live(S(), u))
      ensures old(NoCycleThrough(S(), q)) ==> Steady(S(), q, old_, ChainOf(S(), OwnerOf(S(), q))) || queues[q].owner.None?
    {
      ghost var s := S();
      old_ := Pressure(State(threads, queues), q);
      PressureIsMax(s, q);
      EnqueueReady(s, q, t);
      var r := Enqueue(State(threads, queues), q, t);
      threads, queues := r.threads, r.queues;
    }

    /** blocks is false when the deadline has passed or a signal is pending. */
    method BlockAndAssignOwner(q: Qid, t: Tid, newOwner: Option<Tid>, blocks: bool)
      requires WellFormed(S()) && q in queues && queues[q].kind.Owned?
      requires t in threads && threads[t].status.Active?
      requires newOwner.Some? ==> newOwner.value in threads
      modifies this
      ensures WellFormed(S())
      ensures old(Inherits(S(), map[])) ==>
                && (Inherits(S(), map[]) <==>
                      !old(SampleLost(if blocks then Enqueue(S(), q, t) else S(), q, Pressure(S(), q), Eligible(S(), newOwner))))
                && (newOwner.None? || old(NoCycleThrough(S(), q)) ==> Inherits(S(), map[]))
      ensures blocks ==> var mid := old(Enqueue(S(), q, t));
                && Rebooked(mid, S(), q, Eligible(mid, newOwner), ChainOf(mid, OwnerOf(mid, q)) + ChainOf(mid, newOwner))
                && (OwnerOf(mid, q) == Eligible(mid, newOwner) ==>
                      Settled(mid, S(), q, old(Pressure(S(), q)), ChainOf(mid, OwnerOf(mid, q)), old(Inherits(S(), map[]))))
                && (old(Inherits(S(), map[])) && OwnerOf(mid, q).None? ==> GivenTo(mid, S(), q, Eligible(mid, newOwner)))
      ensures !blocks && old(OwnerOf(S(), q)) != newOwner ==>
                Rebooked(old(S()), S(), q, old(Eligible(S(), newOwner)),
                         old(ChainOf(S(), OwnerOf(S(), q)) + ChainOf(S(), newOwner)))
      ensures !blocks && old(OwnerOf(S(), q)) == newOwner ==> S() == old(S())
      ensures queues[q].owner == if newOwner.Some? && !threads[newOwner.value].status.Dead? then newOwner else None
      ensures blocks ==> threads[t].status == Blocked(q) && t in queues[q].waiters
      ensures forall u :: u in threads && (u != t || !blocks) ==> threads[u].status == old(threads)[u].status
    {
      if blocks {
        BlockThenAssign(q, t, newOwner);
      } else {
        AssignOwner(q, newOwner);
      }
    }

    method BlockThenAssign(q: Qid, t: Tid, newOwner: Option<Tid>)
      requires WellFormed(S()) && q in queues && queues[q].kind.Owned?
      requires t in threads && threads[t].status.Active?
      requires newOwner.Some? ==> newOwner.value in threads
      modifies this
      ensures WellFormed(S())
      ensures old(Inherits(S(), map[])) ==>
                && (Inherits(S(), map[]) <==> !old(SampleLost(Enqueue(S(), q, t), q, Pressure(S(), q), Eligible(S(), newOwner))))
                && (newOwner.None? || old(NoCycleThrough(S(), q)) ==> Inherits(S(), map[]))
      ensures var mid := old(Enqueue(S(), q, t));
              && Rebooked(mid, S(), q, Eligible(mid, newOwner), ChainOf(mid, OwnerOf(mid, q)) + ChainOf(mid, newOwner))
              && (OwnerOf(mid, q) == Eligible(mid, newOwner) ==>
                    Settled(mid, S(), q, old(Pressure(S(), q)), ChainOf(mid, OwnerOf(mid, q)), old(Inherits(S(), map[]))))
              && (old(Inherits(S(), map[])) && OwnerOf(mid, q).None? ==> GivenTo(mid, S(), q, Eligible(mid, newOwner)))
      ensures t in threads && threads[t].status == Blocked(q) && q in queues && t in queues[q].waiters
      ensures forall u :: u in threads && u != t ==> u in old(threads) && threads[u].status == old(threads)[u].status
    {
      ghost var owner, known := Eligible(S(), newOwner), Inherits(S(), map[]);
      ghost var s := S();
      var p := EnqueueThread(q, t);
      ghost var mid := S();
      assert Eligible(mid, newOwner) == owner;
      BookChange(q, newOwner, p, known);
      BlockedStays(s, mid, S(), q, t, owner, ChainOf(mid, OwnerOf(mid, q)) + ChainOf(mid, newOwner));
    }

    /** A thread that blocks on an ordinary wait queue puts pressure on nobody. */
    method Block(q: Qid, t: Tid)
      requires WellFormed(S()) && q in queues && queues[q].kind.Plain?
      requires t in threads && threads[t].status.Active?
      modifies this
      ensures WellFormed(S()) && (old(Inherits(S(), map[])) ==> Inherits(S(), map[]))
      ensures S() == old(Enqueue(S(), q, t))
    {
      assert queues[q].owner.None?;
      ghost var known := Inherits(S(), map[]);
      var p := EnqueueThread(q, t);
      if known { Unowned(S(), map[], q, p); }
    }

    method AddThread(t: Tid, base: int, boostable: bool)
      requires WellFormed(S()) && t !in threads && 0 <= base <= HIGHEST_PRIORITY
      modifies this
      ensures WellFormed(S()) && (old(Inherits(S(), map[])) ==> Inherits(S(), map[]))
      ensures threads == old(threads)[t := Thread(base, 0, -1, base, boostable, Active, {})] && queues == old(queues)
    {
      AddedOk(S(), t, base, boostable);
      threads := threads[t := Thread(base, 0, -1, base, boostable, Active, {})];
    }

    method AddQueue(q: Qid, kind: Kind)
      requires WellFormed(S()) && q !in queues
      modifies this
      ensures WellFormed(S()) && (old(Inherits(S(), map[])) ==> Inherits(S(), map[]))
      ensures threads == old(threads) && queues == old(queues)[q := Queue(kind, [], None)]
    {
      AddedQueueOk(S(), q, kind);
      queues := queues[q := Queue(kind, [], None)];
    }

    /** One thread leaves q and becomes runnable. */
    method WakeOne(q: Qid, t: Tid, ghost s0: State, ghost woken: seq<Tid>)
      requires WellFormed(S()) && AfterWaking(s0, S(), q, woken) && AllBoosted(s0, S(), woken) && t !in woken
      requires t in threads && threads[t].status == Blocked(q)
      modifies this
      ensures WellFormed(S()) && AfterWaking(s0, S(), q, woken + [t]) && AllBoosted(s0, S(), woken + [t])
    {
      var boost := BoostUp(threads[t]);
      DequeueOk(S(), q, t, boost);
      AfterWakingStep(s0, S(), q, woken, t, boost);
      BoostedStep(s0, S(), q, woken, t);
      var r := Dequeue(State(threads, queues), q, t, boost);
      threads, queues := r.threads, r.queues;
    }

    /** Wakes the threads the hook selects, at most count of them. */
    method WakeSelected(q: Qid, count: nat, hook: Tid -> Action) returns (woken: seq<Tid>)
      requires WellFormed(S()) && q in queues
      modifies this
      ensures WellFormed(S()) && AfterWaking(old(S()), S(), q, woken) && AllBoosted(old(S()), S(), woken)
      ensures woken == Chosen(old(queues)[q].waiters, hook, count)
    {
      ghost var s0 := S();
      var l := queues[q].waiters;
      SubSame(l);
      WaitersAreBlocked(s0, q);
      woken := [];
      var i, going := 0, count > 0;
      assert l[0..] == l && woken + Chosen(l, hook, count) == Chosen(l, hook, count);
      while i < |l| && going
        invariant 0 <= i <= |l| && (going ==> |woken| < count && OnTheWay(l, hook, count, woken, i))
        invariant WellFormed(S()) && AfterWaking(s0, S(), q, woken) && AllBoosted(s0, S(), woken)
        invariant !going ==> woken == Chosen(l, hook, count)
        invariant forall k :: i <= k < |l| ==> l[k] !in woken
        decreases |l| - i
      {
        assert l[i] in l;
        going, woken := WakeNext(q, l, i, count, hook, woken, s0);
        i := i + 1;
      }
      if going {
        ChosenEnds(l, hook, count, woken, i);
      }
    }

    /** One thread of the pass: skip it, stop, or wake it and go on. */
    method WakeNext(q: Qid, l: seq<Tid>, i: nat, count: nat, hook: Tid -> Action, woken: seq<Tid>, ghost s0: State)
      returns (going: bool, woken': seq<Tid>)
      requires WellFormed(S()) && AfterWaking(s0, S(), q, woken) && AllBoosted(s0, S(), woken)
      requires i < |l| && |woken| < count && OnTheWay(l, hook, count, woken, i)
      requires l[i] in threads && threads[l[i]].status == Blocked(q) && l[i] !in woken
      modifies this
      ensures WellFormed(S()) && AfterWaking(s0, S(), q, woken') && AllBoosted(s0, S(), woken')
      ensures woken' == woken || woken' == woken + [l[i]]
      ensures going ==> |woken'| < count && OnTheWay(l, hook, count, woken', i + 1)
      ensures !going ==> woken' == Chosen(l, hook, count)
    {
      ChosenStep(l, hook, count, woken, i);
      var action := hook(l[i]);
      if action.Skip? {
        return true, woken;
      }
      if action.Stop? {
        return false, woken;
      }
      WakeOne(q, l[i], s0, woken);
      woken' := woken + [l[i]];
      going := action.SelectAndKeepGoing? && |woken'| < count;
      if action.SelectAndKeepGoing? && !going {
        ChosenEnds(l, hook, count, woken', i + 1);
      }
    }

    /** The thread the hook singles out becomes the owner if anyone still waits. */
    method WakeThreadsInternal(q: Qid, count: nat, hook: Tid -> Action)
      returns (newOwner: Option<Tid>, woken: seq<Tid>)
      requires WellFormed(S()) && q in queues
      modifies this
      ensures WellFormed(S()) && AfterWaking(old(S()), S(), q, woken) && AllBoosted(old(S()), S(), woken)
      ensures woken == Chosen(old(queues)[q].waiters, hook, count)
      ensures forall t :: newOwner == Some(t) <==> t in woken && hook(t).SelectAndAssignOwner? && queues[q].waiters != []
      ensures newOwner == Eligible(S(), newOwner)
      ensures newOwner.Some? ==> newOwner.value in threads && threads[newOwner.value].status.Active?
    {
      woken := WakeSelected(q, count, hook);
      WokenActive(old(S()), S(), q, hook, count);
      SingledOut(old(queues)[q].waiters, hook, count, woken);
      newOwner := None;
      if woken != [] && hook(woken[|woken| - 1]).SelectAndAssignOwner? && queues[q].waiters != [] {
        newOwner := Some(woken[|woken| - 1]);
      }
    }

    /** Wakes the selected threads, then books the change of q and its new owner: the
        thread singled out by the hook if anyone still waits, nobody otherwise. */
    method WakeThreads(q: Qid, count: nat, hook: Tid -> Action)
      returns (woken: seq<Tid>, newOwner: Option<Tid>, ghost mid: State)
      requires WellFormed(S()) && q in queues && queues[q].kind.Owned?
      modifies this
      ensures WellFormed(S())
      ensures old(Inherits(S(), map[])) ==>
                && (Inherits(S(), map[]) <==> !SampleLost(mid, q, old(Pressure(S(), q)), newOwner))
                && (newOwner.None? || old(NoCycleThrough(S(), q)) ==> Inherits(S(), map[]))
      ensures woken == Chosen(old(queues)[q].waiters, hook, count)
      ensures AfterWaking(old(S()), mid, q, woken) && AllBoosted(old(S()), mid, woken)
      ensures Rebooked(mid, S(), q, newOwner, ChainOf(mid, OwnerOf(mid, q)) + ChainOf(mid, newOwner))
      ensures q in queues && queues[q].owner == newOwner
      ensures forall t :: newOwner == Some(t) <==> t in woken && hook(t).SelectAndAssignOwner? && queues[q].waiters != []
    {
      ghost var s := S();
      var p := Pressure(State(threads, queues), q);
      newOwner, woken := WakeThreadsInternal(q, count, hook);
      mid := S();
      WakeReady(s, mid, q, woken);
      BookChange(q, newOwner, p, Inherits(s, map[]));
    }

    // ----- changes to one thread -----

    /** sched_change_priority, boost_thread and deboost_thread: the thread's own priority
        changes and, if it is blocked, so may the pressure of the queue it waits on. */
    method SetPriority(t: Tid, base: int, boost: int)
      requires WellFormed(S()) && t in threads && 0 <= base + boost <= HIGHEST_PRIORITY
      modifies this
      ensures WellFormed(S()) && (old(Inherits(S(), map[])) ==> Inherits(S(), map[]))
      ensures t in threads && threads[t].base == base && threads[t].boost == boost
      ensures forall u :: u in threads && u != t ==> u in old(threads) && threads[u].base == old(threads)[u].base && threads[u].boost == old(threads)[u].boost
      ensures var mid := old(Reprioritise(S(), t, base, boost, threads[t].inherited));
              if old(Next(S(), t)).None? then S() == mid
              else Rebooked(mid, S(), old(threads[t].status.queue), old(Next(S(), t)), ChainOf(mid, old(Next(S(), t))))
      ensures old(Next(S(), t)).Some? ==>
                var mid, q := old(Reprioritise(S(), t, base, boost, threads[t].inherited)), old(threads[t].status.queue);
                Settled(mid, S(), q, old(Pressure(S(), q)), ChainOf(mid, old(Next(S(), t))), old(Inherits(S(), map[])))
    {
      ghost var known := Inherits(S(), map[]);
      var bq := threads[t].status;
      var p := if bq.Blocked? then Pressure(State(threads, queues), bq.queue) else -1;
      Reprice(t, base, boost);
      if bq.Blocked? && queues[bq.queue].owner.Some? {
        WaitersPriorityChanged(bq.queue, p, known);
      }
    }

    method Reprice(t: Tid, base: int, boost: int)
      requires WellFormed(S()) && t in threads && 0 <= base + boost <= HIGHEST_PRIORITY
      modifies this
      ensures S() == old(Reprioritise(S(), t, base, boost, threads[t].inherited))
      ensures WellFormed(S()) && (old(Inherits(S(), map[])) ==> Inherits(S(), old(Left(S(), map[], t))))
      ensures old(threads[t].status.Blocked?) ==>
                var q := old(threads[t].status.queue);
                q in old(queues) && q in queues && queues[q].owner == old(queues)[q].owner && -1 <= old(Pressure(S(), q))
      ensures t in threads && threads[t].status == old(threads[t].status) && threads[t].base == base && threads[t].boost == boost
      ensures forall u :: u in threads && u != t ==> u in old(threads) && threads[u] == old(threads)[u]
    {
      ghost var s := S();
      var h := threads[t];
      if h.status.Blocked? { PressureIsMax(s, h.status.queue); }
      ReprioritiseBooks(s, t, base, boost, h.inherited);
      ReprioritiseOk(s, t, base, boost, h.inherited);
      var r := Reprioritise(State(threads, queues), t, base, boost, h.inherited);
      if Inherits(s, map[]) { RepricedInherits(s, r, t); }
      threads, queues := r.threads, r.queues;
    }

    /** A timeout or a signal takes t out of the queue it waits on; false if it is not
        blocked. The boost of sched_unblock comes after the bookkeeping. */
    method UnblockThread(t: Tid) returns (ok: bool, ghost mid: State, ghost half: State)
      requires WellFormed(S()) && t in threads
      modifies this
      ensures WellFormed(S()) && (old(Inherits(S(), map[])) ==> Inherits(S(), map[]))
      ensures ok == old(threads[t].status.Blocked?)
      ensures !ok ==> S() == old(S())
      ensures ok ==> var q := old(threads[t].status.queue);
                && q in old(queues) && mid == old(Dequeue(S(), q, t, threads[t].boost)) && AfterWaking(old(S()), mid, q, [t])
                && (Pressure(mid, q) == old(Pressure(S(), q)) ==> half == mid)
                && Rebooked(mid, half, q, OwnerOf(mid, q), ChainOf(mid, OwnerOf(mid, q)))
                && t in half.threads
                && S() == Reprioritise(half, t, half.threads[t].base, BoostUp(half.threads[t]), half.threads[t].inherited)
      ensures ok ==> t in threads && threads[t].status.Active? && OneUp(old(threads)[t], threads[t])
    {
      ok := threads[t].status.Blocked?;
      mid, half := S(), S();
      if ok {
        mid := LeaveQueue(t, threads[t].status.queue);
        half := S();
        BoostWoken(t);
      }
    }

    /** The boost of a thread that has just become runnable. */
    method BoostWoken(t: Tid)
      requires WellFormed(S()) && t in threads && threads[t].status.Active?
      modifies this
      ensures WellFormed(S()) && (old(Inherits(S(), map[])) ==> Inherits(S(), map[]))
      ensures S() == old(Reprioritise(S(), t, threads[t].base, BoostUp(threads[t]), threads[t].inherited))
      ensures t in threads && threads[t].status.Active? && OneUp(old(threads)[t], threads[t])
    {
      SetPriority(t, threads[t].base, BoostUp(threads[t]));
    }

    method LeaveQueue(t: Tid, q: Qid) returns (ghost mid: State)
      requires WellFormed(S()) && t in threads && threads[t].status == Blocked(q)
      modifies this
      ensures WellFormed(S()) && (old(Inherits(S(), map[])) ==> Inherits(S(), map[]))
      ensures mid == old(Dequeue(S(), q, t, threads[t].boost)) && AfterWaking(old(S()), mid, q, [t])
      ensures Rebooked(mid, S(), q, OwnerOf(mid, q), ChainOf(mid, OwnerOf(mid, q)))
      ensures Pressure(mid, q) == old(Pressure(S(), q)) ==> S() == mid
      ensures t in threads && threads[t].status.Active? && threads[t].boost == old(threads)[t].boost
      ensures threads[t].base == old(threads)[t].base && threads[t].boostable == old(threads)[t].boostable
    {
      ghost var known := Inherits(S(), map[]);
      var p := StepOut(t, q);
      mid := S();
      WaitersPriorityChanged(q, p, known);
    }

    method StepOut(t: Tid, q: Qid) returns (p: int)
      requires WellFormed(S()) && t in threads && threads[t].status == Blocked(q)
      modifies this
      ensures S() == old(Dequeue(S(), q, t, threads[t].boost)) && AfterWaking(old(S()), S(), q, [t])
      ensures p == old(Pressure(S(), q))
      ensures WellFormed(S()) && q in queues && -1 <= p && (old(Inherits(S(), map[])) ==> Inherits(S(), map[q := p]))
      ensures queues[q].owner.Some? ==> queues[q].owner.value in threads
    {
      LeaveReady(S(), q, t);
      p := Pressure(State(threads, queues), q);
      var r := Dequeue(State(threads, queues), q, t, threads[t].boost);
      threads, queues := r.threads, r.queues;
    }

    /** thread_exit: the thread dies and gives up every queue it owns. */
    method Exit(t: Tid)
      requires WellFormed(S()) && t in threads && threads[t].status.Active?
      modifies this
      ensures WellFormed(S()) && (old(Inherits(S(), map[])) ==> Inherits(S(), map[]))
      ensures S() == old(Exited(S(), t))
      ensures threads == old(threads)[t := old(threads)[t].(status := Dead, owned := {})]
      ensures forall q :: q in queues ==> q in old(queues) && queues[q] == if old(queues)[q].owner == Some(t) then old(queues)[q].(owner := None) else old(queues)[q]
    {
      var rest, qs := threads[t].owned, queues;
      while rest != {}
        invariant rest <= threads[t].owned && qs.Keys == queues.Keys
        invariant forall q :: q in queues ==>
                    qs[q] == if q in threads[t].owned - rest then queues[q].(owner := None) else queues[q]
      {
        var q :| q in rest;
        qs := qs[q := qs[q].(owner := None)];
        rest := rest - {q};
      }
      ExitedOk(S(), t);
      threads, queues := threads[t := threads[t].(status := Dead, owned := {})], qs;
      assert S() == old(Exited(S(), t));
    }

    // ----- requeueing -----

    method MoveOne(a: Qid, b: Qid, t: Tid, ghost s0: State, ghost woken: seq<Tid>, ghost moved: seq<Tid>)
      requires WellFormed(S()) && Shifted(s0, S(), a, b, woken, moved) && OrderKept(s0, S(), a, b) && t !in moved
      requires t in threads && threads[t].status == Blocked(a)
      modifies this
      ensures WellFormed(S()) && Shifted(s0, S(), a, b, woken, moved + [t]) && OrderKept(s0, S(), a, b)
    {
      assert threads[t].status.queue == a;
      ShiftOne(s0, S(), a, b, woken, moved, t);
      OrderOneMore(s0, S(), a, b, t);
      MoveOk(S(), a, b, t);
      var r := Move(State(threads, queues), a, b, t);
      threads, queues := r.threads, r.queues;
    }

    /** One thread of the pass: skip it, stop, or move it and go on. */
    method RequeueNext(a: Qid, b: Qid, l: seq<Tid>, i: nat, count: nat, hook: Tid -> Action, moved: seq<Tid>,
                       ghost s0: State, ghost woken: seq<Tid>)
      returns (going: bool, moved': seq<Tid>)
      requires WellFormed(S()) && Shifted(s0, S(), a, b, woken, moved) && OrderKept(s0, S(), a, b) && (forall t :: hook(t) != SelectAndAssignOwner)
      requires i < |l| && |moved| < count && OnTheWay(l, hook, count, moved, i)
      requires l[i] in threads && threads[l[i]].status == Blocked(a) && l[i] !in moved
      modifies this
      ensures WellFormed(S()) && Shifted(s0, S(), a, b, woken, moved') && OrderKept(s0, S(), a, b)
      ensures moved' == moved || moved' == moved + [l[i]]
      ensures going ==> |moved'| < count && OnTheWay(l, hook, count, moved', i + 1)
      ensures !going ==> moved' == Chosen(l, hook, count)
    {
      ChosenStep(l, hook, count, moved, i);
      var action := hook(l[i]);
      if action.Skip? {
        return true, moved;
      }
      if action.Stop? {
        return false, moved;
      }
      MoveOne(a, b, l[i], s0, woken, moved);
      moved' := moved + [l[i]];
      going := action.SelectAndKeepGoing? && |moved'| < count;
      if action.SelectAndKeepGoing? && !going {
        ChosenEnds(l, hook, count, moved', i + 1);
      }
    }

    /** Moves the threads the hook selects from a to b, at most count of them. */
    method RequeueThreads(a: Qid, b: Qid, count: nat, hook: Tid -> Action, ghost s0: State, ghost woken: seq<Tid>)
      returns (moved: seq<Tid>)
      requires WellFormed(S()) && Shifted(s0, S(), a, b, woken, []) && OrderKept(s0, S(), a, b)
      requires forall t :: hook(t) != SelectAndAssignOwner
      modifies this
      ensures WellFormed(S()) && Shifted(s0, S(), a, b, woken, moved) && OrderKept(s0, S(), a, b)
      ensures moved == Chosen(old(queues)[a].waiters, hook, count)
    {
      var l := queues[a].waiters;
      moved := [];
      var i, going := 0, count > 0;
      assert l[0..] == l && moved + Chosen(l, hook, count) == Chosen(l, hook, count);
      while i < |l| && going
        invariant 0 <= i <= |l| && (going ==> |moved| < count && OnTheWay(l, hook, count, moved, i))
        invariant WellFormed(S()) && Shifted(s0, S(), a, b, woken, moved) && OrderKept(s0, S(), a, b)
        invariant !going ==> moved == Chosen(l, hook, count)
        invariant forall k :: i <= k < |l| ==> l[k] !in moved
        decreases |l| - i
      {
        NotMovedYet(s0, old(S()), S(), a, b, woken, moved, l[i]);
        going, moved := RequeueNext(a, b, l, i, count, hook, moved, s0, woken);
        i := i + 1;
      }
      if going {
        ChosenEnds(l, hook, count, moved, i);
      }
    }

    /** Wakes some waiters of a and moves others to b, without any bookkeeping. */
    method ShiftThreads(a: Qid, wakeCount: nat, wakeHook: Tid -> Action, b: Qid, requeueCount: nat, requeueHook: Tid -> Action)
      returns (woken: seq<Tid>, moved: seq<Tid>, newOwner: Option<Tid>, ghost after: State)
      requires WellFormed(S()) && a != b && a in queues && b in queues
      requires forall t :: requeueHook(t) != SelectAndAssignOwner
      modifies this
      ensures WellFormed(S())
      ensures woken == Chosen(old(queues)[a].waiters, wakeHook, wakeCount) && AfterWaking(old(S()), after, a, woken)
      ensures AllBoosted(old(S()), after, woken)
      ensures forall t :: newOwner == Some(t) <==> t in woken && wakeHook(t).SelectAndAssignOwner? && after.queues[a].waiters != []
      ensures moved == Chosen(after.queues[a].waiters, requeueHook, requeueCount)
      ensures Shifted(old(S()), S(), a, b, woken, moved) && OrderKept(old(S()), S(), a, b)
      ensures newOwner.Some? ==> newOwner.value in threads && threads[newOwner.value].status.Active?
    {
      newOwner, woken := WakeThreadsInternal(a, wakeCount, wakeHook);
      after := S();
      NothingMovedYet(old(S()), after, a, b, woken);
      NothingMovedOrder(old(S()), after, a, b, woken);
      moved := RequeueThreads(a, b, requeueCount, requeueHook, old(S()), woken);
    }

    /** Wakes some waiters of a, moves others to b, then books both changes. Once a is booked
        as it should be, the equation holds at the end unless the pressure of b is lost. */
    method WakeAndRequeue(a: Qid, wakeCount: nat, wakeHook: Tid -> Action,
                          b: Qid, requeueCount: nat, requeueHook: Tid -> Action, requeueOwner: Option<Tid>)
      returns (woken: seq<Tid>, moved: seq<Tid>, newOwner: Option<Tid>,
               ghost after: State, ghost mid: State, ghost half: State)
      requires WellFormed(S()) && a != b
      requires a in queues && queues[a].kind.Owned? && b in queues && queues[b].kind.Owned?
      requires requeueOwner.Some? ==> requeueOwner.value in threads
      requires forall t :: requeueHook(t) != SelectAndAssignOwner
      modifies this
      ensures WellFormed(S())
      ensures woken == Chosen(old(queues)[a].waiters, wakeHook, wakeCount) && AfterWaking(old(S()), after, a, woken)
      ensures AllBoosted(old(S()), after, woken)
      ensures forall t :: newOwner == Some(t) <==> t in woken && wakeHook(t).SelectAndAssignOwner? && after.queues[a].waiters != []
      ensures moved == Chosen(after.queues[a].waiters, requeueHook, requeueCount)
      ensures Shifted(old(S()), mid, a, b, woken, moved) && OrderKept(old(S()), mid, a, b)
      ensures Rebooked(mid, half, a, newOwner, ChainOf(mid, OwnerOf(mid, a)) + ChainOf(mid, newOwner))
      ensures Rebooked(half, S(), b, Eligible(half, requeueOwner), ChainOf(half, OwnerOf(half, b)) + ChainOf(half, requeueOwner))
      ensures queues[a].owner == newOwner
      ensures queues[b].owner == if requeueOwner.Some? && !threads[requeueOwner.value].status.Dead? then requeueOwner else None
      ensures old(Inherits(S(), map[]) && Apart(S(), a, b)) ==>
                && (Inherits(S(), map[]) <==> !SampleLost(half, b, old(Pressure(S(), b)), Eligible(half, requeueOwner)))
                && (old(NoCycleThrough(S(), b)) ==> Inherits(S(), map[]))
    {
      ghost var s0 := S();
      ghost var known := Inherits(s0, map[]) && Apart(s0, a, b);
      var pa, pb := Pressure(State(threads, queues), a), Pressure(State(threads, queues), b);
      woken, moved, newOwner, after := ShiftThreads(a, wakeCount, wakeHook, b, requeueCount, requeueHook);
      mid := S();
      half := BookWakeHalf(a, b, pa, newOwner, s0, woken, moved, known);
      BookTargetHalf(a, b, pb, newOwner, requeueOwner, s0, mid, woken, moved, known);
    }

    method BookWakeHalf(a: Qid, ghost b: Qid, pa: int, newOwner: Option<Tid>,
                        ghost s0: State, ghost woken: seq<Tid>, ghost moved: seq<Tid>, ghost known: bool)
      returns (ghost half: State)
      requires WellFormed(s0) && WellFormed(S()) && Shifted(s0, S(), a, b, woken, moved)
      requires queues[a].kind.Owned? && pa == Pressure(s0, a)
      requires newOwner.Some? ==> newOwner.value in threads && threads[newOwner.value].status.Active?
      requires known ==> Inherits(s0, map[]) && Apart(s0, a, b)
      modifies this
      ensures half == S() && WellFormed(S()) && (known ==> Inherits(S(), map[b := Pressure(s0, b)]))
      ensures Rebooked(old(S()), S(), a, newOwner, old(ChainOf(S(), OwnerOf(S(), a)) + ChainOf(S(), newOwner)))
    {
      ghost var s := S();
      PressureIsMax(s0, a);
      ghost var chain, pend := ChainOf(s, OwnerOf(s, a)), map[b := Pressure(s0, b)];
      ChainOfClosed(s, OwnerOf(s, a));
      if known {
        WakeHalfReady(s0, s, a, b, woken, moved);
      }
      ActiveChainReady(s, newOwner, a, pend);
      UpdateBookkeeping(a, newOwner, pa, pend, chain, ChainOf(s, newOwner), known);
      half := S();
    }

    method BookTargetHalf(a: Qid, b: Qid, pb: int, ghost newOwner: Option<Tid>, requeueOwner: Option<Tid>,
                          ghost s0: State, ghost mid: State, ghost woken: seq<Tid>, ghost moved: seq<Tid>, ghost known: bool)
      requires WellFormed(s0) && WellFormed(mid) && WellFormed(S()) && Shifted(s0, mid, a, b, woken, moved)
      requires pb == Pressure(s0, b) && s0.queues[b].kind.Owned? && b in queues && queues[b].kind.Owned?
      requires newOwner.Some? ==> newOwner.value in mid.threads && mid.threads[newOwner.value].status.Active?
      requires requeueOwner.Some? ==> requeueOwner.value in threads
      requires Rebooked(mid, S(), a, newOwner, ChainOf(mid, OwnerOf(mid, a)) + ChainOf(mid, newOwner))
      requires known ==> Inherits(S(), map[b := pb]) && Apart(s0, a, b)
      modifies this
      ensures WellFormed(S())
      ensures Rebooked(old(S()), S(), b, old(Eligible(S(), requeueOwner)),
                       old(ChainOf(S(), OwnerOf(S(), b)) + ChainOf(S(), requeueOwner)))
      ensures known ==>
                && (Inherits(S(), map[]) <==> !SampleLost(old(S()), b, pb, old(Eligible(S(), requeueOwner))))
                && (NoCycleThrough(s0, b) ==> Inherits(S(), map[]))
    {
      PressureIsMax(s0, b);
      if known && NoCycleThrough(s0, b) && s0.queues[b].owner.Some? {
        TargetHalfReady(s0, mid, S(), a, b, woken, moved, newOwner);
      }
      BookChange(b, requeueOwner, pb, known);
    }
  }
}
