/** Moving waiters from one owned queue to another while waking others, before the two
    changes of pressure are booked (OwnedWaitQueue::WakeAndRequeue). */
module Requeueing {
  import opened PriorityList
  import opened WaitGraph
  import opened Propagation
  import opened Ownership
  import opened Waiting

  /** From s0 to s the threads of `woken` left a and are runnable, those of `moved` left
      a and wait on b, and nobody else moved. */
  ghost predicate Shifted(s0: State, s: State, a: Qid, b: Qid, woken: seq<Tid>, moved: seq<Tid>) {
    && Rearranged(s0, s, {a, b}) && a in s0.queues && b in s0.queues && a != b
    && (forall w :: w in s.queues[a].waiters <==> w in s0.queues[a].waiters && w !in woken && w !in moved)
    && (forall w :: w in s.queues[b].waiters <==> w in s0.queues[b].waiters || w in moved)
    && (forall w :: w in moved ==> w in s0.queues[a].waiters && w !in woken)
    && (forall u :: u in s0.threads ==>
          if u in woken then s.threads[u].status.Active?
          else if u in moved then s.threads[u] == s0.threads[u].(status := Blocked(b))
          else s.threads[u] == s0.threads[u])
  }

  lemma NothingMovedYet(s0: State, s: State, a: Qid, b: Qid, woken: seq<Tid>)
    requires AfterWaking(s0, s, a, woken) && a != b && b in s0.queues
    ensures Shifted(s0, s, a, b, woken, [])
  {
    RearrangedMore(s0, s, {a}, {a, b});
  }

  /** Nobody who stays in a, or was in b before, changes places with another. */
  ghost predicate OrderKept(s0: State, s: State, a: Qid, b: Qid) {
    && a in s0.queues && a in s.queues && b in s0.queues && b in s.queues
    && Subsequence(s.queues[a].waiters, s0.queues[a].waiters) && Subsequence(s0.queues[b].waiters, s.queues[b].waiters)
  }

  lemma NothingMovedOrder(s0: State, s: State, a: Qid, b: Qid, woken: seq<Tid>)
    requires AfterWaking(s0, s, a, woken) && a != b && b in s0.queues
    ensures OrderKept(s0, s, a, b)
  {
    SubSame(s0.queues[b].waiters);
  }

  lemma OrderOneMore(s0: State, s: State, a: Qid, b: Qid, t: Tid)
    requires OrderKept(s0, s, a, b) && t in s.threads && a != b
    ensures OrderKept(s0, Move(s, a, b, t), a, b)
  {
    MoveInOrder(s, a, b, t);
    SubTrans(Move(s, a, b, t).queues[a].waiters, s.queues[a].waiters, s0.queues[a].waiters);
    SubTrans(s0.queues[b].waiters, s.queues[b].waiters, Move(s, a, b, t).queues[b].waiters);
  }

  lemma ShiftOne(s0: State, s: State, a: Qid, b: Qid, woken: seq<Tid>, moved: seq<Tid>, t: Tid)
    requires PrioritiesOk(s) && Shifted(s0, s, a, b, woken, moved)
    requires t in s.threads && t in s.queues[a].waiters && s.threads[t].status == Blocked(a)
    ensures Shifted(s0, Move(s, a, b, t), a, b, woken, moved + [t])
  {
    MoveRearranges(s, a, b, t);
    RearrangedStep(s0, s, Move(s, a, b, t), {a, b}, t);
    assert Move(s, a, b, t).threads[t] == s.threads[t].(status := Blocked(b));
  }

  lemma MoveInOrder(s: State, a: Qid, b: Qid, t: Tid)
    requires a in s.queues && b in s.queues && t in s.threads && a != b
    ensures Subsequence(Move(s, a, b, t).queues[a].waiters, s.queues[a].waiters)
    ensures Subsequence(s.queues[b].waiters, Move(s, a, b, t).queues[b].waiters)
  {
    WithoutSub(s.queues[a].waiters, t);
    InsertSub(Prio(Dequeue(s, a, t, s.threads[t].boost).threads), s.queues[b].waiters, t);
  }

  /** A waiter of a that has not been moved yet. */
  lemma NotMovedYet(s0: State, s1: State, s: State, a: Qid, b: Qid, woken: seq<Tid>, moved: seq<Tid>, t: Tid)
    requires WaitersOk(s1) && Shifted(s0, s1, a, b, woken, []) && Shifted(s0, s, a, b, woken, moved)
    requires t in s1.queues[a].waiters && t !in moved
    ensures t in s.threads && s.threads[t].status == Blocked(a)
  {
  }

  // ----- pressures -----

  lemma SampledTwo(s: State, a: Qid, b: Qid)
    ensures map[] + Sampled(s, {a, b}) == map[b := Pressure(s, b)][a := Pressure(s, a)]
  {
  }

  lemma ShiftedInherits(s0: State, s: State, a: Qid, b: Qid)
    requires OwnersOk(s0) && WaitersOk(s0) && WaitersOk(s) && Inherits(s0, map[]) && Rearranged(s0, s, {a, b}) && a != b
    ensures Inherits(s, map[b := Pressure(s0, b)][a := Pressure(s0, a)])
  {
    RearrangedPressures(s0, s, {a, b});
    RearrangedInherits(s0, s, map[], {a, b});
    SampledTwo(s0, a, b);
  }

  /** b only gained waiters: its pressure is carried by one its owner cannot reach. */
  lemma GainedSteady(s0: State, s: State, a: Qid, b: Qid, woken: seq<Tid>, moved: seq<Tid>, chain: set<Tid>)
    requires WellFormed(s0) && WellFormed(s) && Shifted(s0, s, a, b, woken, moved)
    requires forall w :: w in s0.queues[b].waiters ==> w !in chain
    ensures Steady(s, b, Pressure(s0, b), chain)
  {
    PressureIsMax(s0, b);
    PressureIsMax(s, b);
    var l0, l := s0.queues[b].waiters, s.queues[b].waiters;
    if l != [] {
      var w := if Pressure(s, b) > Pressure(s0, b) then l[0] else l0[0];
      if Pressure(s, b) <= Pressure(s0, b) {
        StillWaiting(s0, s, a, b, woken, moved, w);
      }
      assert w in l && w in s.threads && s.threads[w].effec == Pressure(s, b);
    }
  }

  lemma StillWaiting(s0: State, s: State, a: Qid, b: Qid, woken: seq<Tid>, moved: seq<Tid>, w: Tid)
    requires WaitersOk(s0) && WaitersOk(s) && Shifted(s0, s, a, b, woken, moved) && w in s0.queues[b].waiters
    ensures w in s.queues[b].waiters && s.threads[w] == s0.threads[w]
  {
    assert s0.threads[w].status == Blocked(b) && s.threads[w].status == Blocked(b);
  }

  // ----- chains -----

  /** The wake queue's owner: its chain is the same as before, and free of b. */
  lemma ShiftedChain(s0: State, s: State, a: Qid, b: Qid, woken: seq<Tid>, moved: seq<Tid>, chain: set<Tid>)
    requires OwnersOk(s0) && Shifted(s0, s, a, b, woken, moved) && Closed(s0, chain)
    requires forall w :: w in s0.queues[a].waiters ==> w !in chain
    requires s0.queues[b].owner.Some? ==> s0.queues[b].owner.value !in chain
    ensures Closed(s, chain) && PendClear(s, chain, map[b := Pressure(s0, b)], false)
  {
    forall u | u in chain && u in s.threads
      ensures Next(s, u).Some? ==> Next(s, u) == Next(s0, u) && s.threads[u].status != Blocked(b)
      ensures b !in s.threads[u].owned
    {
      assert u !in moved;
      assert b !in s0.threads[u].owned;
    }
  }

  /** The requeue target's owner, after the wake queue went to n. */
  lemma TargetChain(s0: State, s: State, s': State, a: Qid, b: Qid, woken: seq<Tid>, moved: seq<Tid>,
                    n: Option<Tid>, touched: set<Tid>, chain: set<Tid>, chain': set<Tid>)
    requires Shifted(s0, s, a, b, woken, moved) && Rebooked(s, s', a, n, touched) && Closed(s0, chain)
    requires s0.queues[b].owner.Some? ==> s0.queues[b].owner.value in chain
    requires n.Some? ==> n.value in s.threads && s.threads[n.value].status.Active?
    requires chain' == chain + (if n.Some? then {n.value} else {})
    ensures Closed(s', chain')
  {
    forall u | u in chain' && Next(s', u).Some? ensures Next(s', u).value in chain' {
      if s'.threads[u].status == Blocked(a) {
        assert Next(s', u) == n;
      } else if s'.threads[u].status != Blocked(b) {
        assert s.threads[u].status == s'.threads[u].status && u !in moved && u !in woken;
        assert Next(s', u) == Next(s0, u);
      }
    }
  }

  /** Booking the wake queue does not disturb the waiters of the target. */
  lemma TargetUndisturbed(s: State, s': State, a: Qid, b: Qid, n: Option<Tid>, touched: set<Tid>, old_: int, chain: set<Tid>)
    requires WellFormed(s) && WellFormed(s') && Rebooked(s, s', a, n, touched) && b in s.queues && Steady(s, b, old_, chain)
    requires forall w :: w in s.queues[b].waiters ==> w !in touched
    ensures Steady(s', b, old_, chain)
  {
    PressureIsMax(s, b);
    PressureIsMax(s', b);
    if s'.queues[b].waiters != [] {
      var w :| w in s.queues[b].waiters && w in s.threads && s.threads[w].effec == Pressure(s, b) &&
               (w !in chain || s.threads[w].effec > old_);
      assert w in s'.queues[b].waiters && s'.threads[w].effec == s.threads[w].effec;
      assert s'.queues[b].waiters[0] in s.queues[b].waiters;
    }
  }

  lemma ActiveChain(s: State, n: Option<Tid>)
    requires n.Some? ==> n.value in s.threads && s.threads[n.value].status.Active?
    ensures ChainOf(s, n) == if n.Some? then {n.value} else {}
  {
  }

  /** A runnable new owner is a chain of its own. */
  lemma ActiveChainReady(s: State, n: Option<Tid>, a: Qid, pend: map<Qid, int>)
    requires n.Some? ==> n.value in s.threads && s.threads[n.value].status.Active?
    ensures n.Some? ==> n.value in ChainOf(s, n) && Eligible(s, n) == n
    ensures n.None? ==> Eligible(s, n) == n
    ensures ClosedBut(s, ChainOf(s, n), a) && PendClear(s, ChainOf(s, n), pend, true)
  {
    ActiveChain(s, n);
  }

  /** Nobody who waits on the target is on the chain of the wake queue's owner. */
  lemma TargetOffChain(s0: State, s: State, a: Qid, b: Qid, woken: seq<Tid>, moved: seq<Tid>, n: Option<Tid>, chain: set<Tid>)
    requires WaitersOk(s0) && WaitersOk(s) && Shifted(s0, s, a, b, woken, moved) && Closed(s0, chain)
    requires s0.queues[b].owner.Some? && s0.queues[b].owner.value !in chain
    requires forall w :: w in s0.queues[a].waiters ==> w !in chain
    requires n.Some? ==> n.value in s.threads && s.threads[n.value].status.Active?
    ensures forall w :: w in s.queues[b].waiters ==> w !in chain + (if n.Some? then {n.value} else {})
  {
    forall w | w in s.queues[b].waiters ensures w !in chain + (if n.Some? then {n.value} else {}) {
      if w in s0.queues[b].waiters {
        assert Next(s0, w) == s0.queues[b].owner;
      }
    }
  }

  /** The owner of a waits neither on a nor for the owner of b. */
  ghost predicate Apart(s: State, a: Qid, b: Qid) {
    && NoCycleThrough(s, a)
    && (OwnerOf(s, b).Some? ==> OwnerOf(s, b).value !in ChainOf(s, OwnerOf(s, a)))
  }

  /** What the first half of the bookkeeping relies on. */
  lemma WakeHalfReady(s0: State, s: State, a: Qid, b: Qid, woken: seq<Tid>, moved: seq<Tid>)
    requires WellFormed(s0) && WellFormed(s) && Inherits(s0, map[]) && Shifted(s0, s, a, b, woken, moved) && Apart(s0, a, b)
    ensures Recorded(s, map[b := Pressure(s0, b)], a, Pressure(s0, a), ChainOf(s, OwnerOf(s, a)))
    ensures s0.queues[a].owner.Some? ==> Steady(s, a, Pressure(s0, a), ChainOf(s, OwnerOf(s, a)))
  {
    PressureIsMax(s0, a);
    ShiftedInherits(s0, s, a, b);
    if s0.queues[a].owner.Some? {
      var chain := ChainOf(s0, s0.queues[a].owner);
      ChainOfClosed(s0, s0.queues[a].owner);
      ShiftedChain(s0, s, a, b, woken, moved, chain);
      LeftSteady(s0, s, a, Pressure(s0, a));
      ChainLeast(s, s0.queues[a].owner.value, {}, chain);
      FewerSteady(s, a, Pressure(s0, a), chain, ChainOf(s, OwnerOf(s, a)));
    }
  }

  /** And what the second half relies on, once a went to n. */
  lemma TargetHalfReady(s0: State, s: State, s': State, a: Qid, b: Qid, woken: seq<Tid>, moved: seq<Tid>,
                        n: Option<Tid>)
    requires WellFormed(s0) && WellFormed(s) && WellFormed(s') && Shifted(s0, s, a, b, woken, moved)
    requires Apart(s0, a, b) && NoCycleThrough(s0, b) && s0.queues[b].owner.Some?
    requires n.Some? ==> n.value in s.threads && s.threads[n.value].status.Active?
    requires Rebooked(s, s', a, n, ChainOf(s, OwnerOf(s, a)) + ChainOf(s, n))
    ensures Steady(s', b, Pressure(s0, b), ChainOf(s', OwnerOf(s', b)))
  {
    var oa, ob := s0.queues[a].owner, s0.queues[b].owner;
    ChainOfClosed(s0, oa);
    ChainOfClosed(s0, ob);
    ActiveChain(s, n);
    if oa.Some? {
      ShiftedChain(s0, s, a, b, woken, moved, ChainOf(s0, oa));
      ChainLeast(s, oa.value, {}, ChainOf(s0, oa));
    }
    RebookedMore(s, s', a, n, ChainOf(s, OwnerOf(s, a)) + ChainOf(s, n), ChainOf(s0, oa) + ChainOf(s, n));
    var chain := ChainOf(s0, ob) + ChainOf(s, n);
    TargetChain(s0, s, s', a, b, woken, moved, n, ChainOf(s0, oa) + ChainOf(s, n), ChainOf(s0, ob), chain);
    TargetOffChain(s0, s, a, b, woken, moved, n, ChainOf(s0, oa));
    assert forall w :: w in s0.queues[b].waiters ==> w in s.queues[b].waiters && w !in chain;
    GainedSteady(s0, s, a, b, woken, moved, chain);
    TargetUndisturbed(s, s', a, b, n, ChainOf(s0, oa) + ChainOf(s, n), Pressure(s0, b), chain);
    ChainLeast(s', ob.value, {}, chain);
    FewerSteady(s', b, Pressure(s0, b), chain, ChainOf(s', OwnerOf(s', b)));
  }
}
