/** Threads entering, leaving and changing wait queues, before any pressure is booked. */
module Waiting {
  import opened PriorityList
  import opened WaitGraph
  import opened Propagation
  import opened Ownership

  /** The state change of wait_queue_block_etc_pre. */
  function Enqueue(s: State, q: Qid, t: Tid): State
    requires q in s.queues && t in s.threads
  {
    State(s.threads[t := s.threads[t].(status := Blocked(q))],
          s.queues[q := s.queues[q].(waiters := Insert(Prio(s.threads), s.queues[q].waiters, t))])
  }

  /** wait_queue_dequeue_thread_internal; a woken thread may get a new boost at once. */
  function Dequeue(s: State, q: Qid, t: Tid, boost: int): State
    requires q in s.queues && t in s.threads
  {
    var h := s.threads[t];
    State(s.threads[t := h.(status := Active, boost := boost, effec := Max(h.base + boost, h.inherited))],
          s.queues[q := s.queues[q].(waiters := Without(s.queues[q].waiters, t))])
  }

  /** wait_queue_move_thread. */
  function Move(s: State, a: Qid, b: Qid, t: Tid): State
    requires a in s.queues && b in s.queues && t in s.threads
  {
    Enqueue(Dequeue(s, a, t, s.threads[t].boost), b, t)
  }

  ghost predicate QueueOk(s: State, q: Qid)
    requires q in s.queues
  {
    && Sorted(Prio(s.threads), s.queues[q].waiters)
    && Distinct(s.queues[q].waiters)
    && forall w :: w in s.queues[q].waiters <==> w in s.threads && s.threads[w].status == Blocked(q)
  }

  lemma WaitersAreBlocked(s: State, q: Qid)
    requires WaitersOk(s) && BlockedOk(s) && q in s.queues
    ensures QueueOk(s, q)
  {
    forall w | w in s.threads && s.threads[w].status == Blocked(q) ensures w in s.queues[q].waiters {
      assert s.threads[w].status.queue == q;
    }
  }

  /** Between s and s' only the queues of qs gained or lost waiters, and a thread
      whose status is the same is the same. */
  ghost predicate Rearranged(s: State, s': State, qs: set<Qid>) {
    && s.threads.Keys == s'.threads.Keys && s.queues.Keys == s'.queues.Keys
    && (forall t :: t in s.threads ==>
          && s'.threads[t].owned == s.threads[t].owned && s'.threads[t].inherited == s.threads[t].inherited
          && (s'.threads[t].status.Dead? <==> s.threads[t].status.Dead?)
          && (s'.threads[t].status == s.threads[t].status ==> s'.threads[t] == s.threads[t]))
    && (forall q :: q in s.queues ==>
          && s'.queues[q].kind == s.queues[q].kind && s'.queues[q].owner == s.queues[q].owner
          && (q !in qs ==> s'.queues[q] == s.queues[q]))
  }

  /** The pressure each queue of qs had in s. */
  ghost function Sampled(s: State, qs: set<Qid>): map<Qid, int> {
    map q | q in qs :: Pressure(s, q)
  }

  lemma SampledOne(s: State, q: Qid)
    ensures map[] + Sampled(s, {q}) == map[q := Pressure(s, q)]
  {
  }

  lemma RearrangedQueue(s: State, s': State, qs: set<Qid>, q: Qid)
    requires WaitersOk(s) && Rearranged(s, s', qs) && q in s.queues && q !in qs
    requires forall w :: w in s.queues[q].waiters ==> s'.threads[w].status == Blocked(q)
    ensures Sorted(Prio(s'.threads), s'.queues[q].waiters) && Pressure(s', q) == Pressure(s, q)
  {
    SortedLocal(Prio(s.threads), Prio(s'.threads), s.queues[q].waiters);
  }

  lemma RearrangedAccounted(s: State, s': State, pend: map<Qid, int>, qs: set<Qid>, u: Tid)
    requires OwnersOk(s) && u in s.threads && qs !! pend.Keys
    requires forall q :: q in s.queues && q !in qs ==> Pressure(s', q) == Pressure(s, q)
    ensures forall q :: q in s.threads[u].owned ==> Accounted(s, pend, q) == Accounted(s', pend + Sampled(s, qs), q)
  {
    forall q | q in s.threads[u].owned ensures Accounted(s, pend, q) == Accounted(s', pend + Sampled(s, qs), q) {
      assert s.queues[q].owner == Some(u);
    }
  }

  /** Rearranging queues leaves only the pressures of those queues to be booked. */
  lemma RearrangedInherits(s: State, s': State, pend: map<Qid, int>, qs: set<Qid>)
    requires OwnersOk(s) && Rearranged(s, s', qs) && Inherits(s, pend) && qs !! pend.Keys
    requires forall q :: q in s.queues && q !in qs ==> Pressure(s', q) == Pressure(s, q)
    ensures Inherits(s', pend + Sampled(s, qs))
  {
    forall u | Live(s', u)
      ensures IsMax(s', pend + Sampled(s, qs), s'.threads[u].owned, s'.threads[u].inherited)
    {
      assert Live(s, u);
      var own := s.threads[u].owned;
      RearrangedAccounted(s, s', pend, qs, u);
      IsMaxLocal(s, pend, s', pend + Sampled(s, qs), own, own, s.threads[u].inherited);
    }
  }

  /** Adding one more thread to a rearrangement. */
  lemma RearrangedStep(s0: State, s: State, s': State, qs: set<Qid>, t: Tid)
    requires Rearranged(s0, s, qs) && Rearranged(s, s', qs) && t in s0.threads
    requires forall u :: u in s.threads && u != t ==> s'.threads[u] == s.threads[u]
    requires s'.threads[t].status != s0.threads[t].status
    ensures Rearranged(s0, s', qs)
  {
  }

  // ----- the three operations -----

  lemma EnqueueRearranges(s: State, q: Qid, t: Tid)
    requires PrioritiesOk(s) && q in s.queues && t in s.threads && s.threads[t].status.Active?
    ensures Rearranged(s, Enqueue(s, q, t), {q}) && PrioritiesOk(Enqueue(s, q, t))
  {
  }

  lemma EnqueueInOrder(s: State, q: Qid, t: Tid)
    requires q in s.queues && t in s.threads && s.threads[t].status.Active? && QueueOk(s, q)
    requires 0 <= s.threads[t].effec
    ensures QueueOk(Enqueue(s, q, t), q)
    ensures Pressure(Enqueue(s, q, t), q) == Max(Pressure(s, q), s.threads[t].effec)
  {
    var s', l := Enqueue(s, q, t), s.queues[q].waiters;
    InsertKeepsOrder(Prio(s.threads), l, t);
    InsertMembers(Prio(s.threads), l, t);
    SortedLocal(Prio(s.threads), Prio(s'.threads), s'.queues[q].waiters);
  }

  lemma DequeueRearranges(s: State, q: Qid, t: Tid, boost: int)
    requires PrioritiesOk(s) && q in s.queues && t in s.threads && s.threads[t].status == Blocked(q)
    requires 0 <= s.threads[t].base + boost <= HIGHEST_PRIORITY
    ensures Rearranged(s, Dequeue(s, q, t, boost), {q}) && PrioritiesOk(Dequeue(s, q, t, boost))
  {
  }

  lemma DequeueInOrder(s: State, q: Qid, t: Tid, boost: int)
    requires q in s.queues && t in s.threads && s.threads[t].status == Blocked(q) && QueueOk(s, q)
    ensures QueueOk(Dequeue(s, q, t, boost), q)
  {
    var s', l := Dequeue(s, q, t, boost), s.queues[q].waiters;
    WithoutKeepsOrder(Prio(s.threads), l, t);
    WithoutKeepsDistinct(l, t);
    WithoutMembers(l, t);
    SortedLocal(Prio(s.threads), Prio(s'.threads), s'.queues[q].waiters);
  }

  /** A rearrangement of one queue that leaves that queue in order is well formed. */
  lemma OneQueueOk(s: State, s': State, q: Qid, t: Tid)
    requires WellFormed(s) && Rearranged(s, s', {q}) && PrioritiesOk(s') && q in s.queues && QueueOk(s', q)
    requires forall u :: u in s.threads && u != t ==> s'.threads[u] == s.threads[u]
    requires t in s.threads
    requires s'.threads[t].status.Blocked? ==> s'.threads[t].status.queue == q
    requires s.threads[t].status.Blocked? ==> s.threads[t].status.queue == q
    ensures WellFormed(s')
    ensures forall q' :: q' in s.queues && q' != q ==> Pressure(s', q') == Pressure(s, q')
  {
    forall q' | q' in s.queues && q' != q
      ensures Pressure(s', q') == Pressure(s, q') && QueueOk(s', q')
    {
      WaitersAreBlocked(s, q');
      RearrangedQueue(s, s', {q}, q');
    }
    RearrangedOwners(s, s', {q});
    QueuesOk(s');
  }

  lemma RearrangedOwners(s: State, s': State, qs: set<Qid>)
    requires OwnersOk(s) && Rearranged(s, s', qs)
    ensures OwnersOk(s')
  {
  }

  lemma QueuesOk(s: State)
    requires forall q :: q in s.queues ==> QueueOk(s, q)
    requires forall t :: t in s.threads && s.threads[t].status.Blocked? ==> s.threads[t].status.queue in s.queues
    ensures WaitersOk(s) && BlockedOk(s)
  {
  }

  /** Everything about one thread entering one queue. */
  lemma EnqueueOk(s: State, q: Qid, t: Tid)
    requires WellFormed(s) && q in s.queues && t in s.threads && s.threads[t].status.Active?
    ensures WellFormed(Enqueue(s, q, t)) && Rearranged(s, Enqueue(s, q, t), {q})
    ensures Pressure(Enqueue(s, q, t), q) == Max(Pressure(s, q), s.threads[t].effec)
    ensures forall q' :: q' in s.queues && q' != q ==> Pressure(Enqueue(s, q, t), q') == Pressure(s, q')
  {
    WaitersAreBlocked(s, q);
    EnqueueRearranges(s, q, t);
    EnqueueInOrder(s, q, t);
    OneQueueOk(s, Enqueue(s, q, t), q, t);
  }

  /** Where a thread that blocks comes to stand: behind everybody of at least its priority,
      ahead of everybody of less, and nobody else moves. */
  lemma EnqueuePlace(s: State, q: Qid, t: Tid) returns (k: nat)
    requires WellFormed(s) && q in s.queues && t in s.threads
    ensures var l, s' := s.queues[q].waiters, Enqueue(s, q, t);
            && k <= |l| && s'.queues[q].waiters == l[..k] + [t] + l[k..] && (forall w :: w in l ==> w in s.threads)
            && (forall i :: 0 <= i < k ==> s.threads[l[i]].effec >= s.threads[t].effec)
            && (forall i :: k <= i < |l| ==> s.threads[l[i]].effec < s.threads[t].effec)
            && s'.threads == s.threads[t := s.threads[t].(status := Blocked(q))]
            && s'.queues[q].owner == s.queues[q].owner && forall r :: r in s.queues && r != q ==> s'.queues[r] == s.queues[r]
  {
    k := InsertSplits(Prio(s.threads), s.queues[q].waiters, t);
  }

  /** Everything about one thread leaving the queue it waits on. */
  lemma DequeueOk(s: State, q: Qid, t: Tid, boost: int)
    requires WellFormed(s) && q in s.queues && t in s.threads && s.threads[t].status == Blocked(q)
    requires 0 <= s.threads[t].base + boost <= HIGHEST_PRIORITY
    ensures WellFormed(Dequeue(s, q, t, boost)) && Rearranged(s, Dequeue(s, q, t, boost), {q})
    ensures forall q' :: q' in s.queues && q' != q ==> Pressure(Dequeue(s, q, t, boost), q') == Pressure(s, q')
  {
    WaitersAreBlocked(s, q);
    DequeueRearranges(s, q, t, boost);
    DequeueInOrder(s, q, t, boost);
    OneQueueOk(s, Dequeue(s, q, t, boost), q, t);
  }

  // ----- chains of owners across a rearrangement -----

  function ChainOf(s: State, t: Option<Tid>): set<Tid> {
    if t.Some? then Chain(s, t.value) else {}
  }

  /** A dying thread cannot become an owner. */
  function Eligible(s: State, t: Option<Tid>): Option<Tid> {
    if t.Some? && Live(s, t.value) then t else None
  }

  function OwnerOf(s: State, q: Qid): Option<Tid> {
    if q in s.queues then s.queues[q].owner else None
  }

  lemma ChainOfClosed(s: State, t: Option<Tid>)
    requires WellFormed(s) && (t.Some? ==> t.value in s.threads)
    ensures Closed(s, ChainOf(s, t)) && (t.Some? ==> t.value in ChainOf(s, t))
  {
    if t.Some? { ChainClosed(s, t.value); }
  }

  /** A chain stays closed when a thread enters or leaves q, if it holds the owner of q. */
  lemma RearrangedClosed(s: State, s': State, q: Qid, chain: set<Tid>)
    requires Rearranged(s, s', {q}) && q in s.queues && Closed(s, chain)
    requires s.queues[q].owner.Some? ==> s.queues[q].owner.value in chain
    requires forall t :: t in s.threads && s'.threads[t].status != s.threads[t].status ==> s'.threads[t].status.Active? || s'.threads[t].status == Blocked(q)
    ensures Closed(s', chain)
  {
    forall t | t in chain && Next(s', t).Some? ensures Next(s', t).value in chain {
      assert Next(s', t) == Next(s, t) || s'.threads[t].status == Blocked(q);
    }
  }

  /** A thread entering q: the pressure sampled afterwards survives the release of q by
      its owner, provided that owner did not wait on q before. */
  lemma EnqueueSteady(s: State, q: Qid, t: Tid)
    requires WellFormed(s) && q in s.queues && t in s.threads && s.threads[t].status.Active?
    requires s.queues[q].owner.Some? && NoCycleThrough(s, q)
    ensures Steady(Enqueue(s, q, t), q, Pressure(s, q), Chain(s, s.queues[q].owner.value))
  {
    var s', l := Enqueue(s, q, t), s.queues[q].waiters;
    PressureIsMax(s, q);
    EnqueueOk(s, q, t);
    InsertMembers(Prio(s.threads), l, t);
    var w := if s.threads[t].effec > Pressure(s, q) then t else l[0];
    assert w in s'.queues[q].waiters && w in s'.threads && s'.threads[w].effec == Pressure(s', q);
  }

  /** After threads left q: none of those that remain is waited for by the owner. */
  lemma LeftSteady(s: State, s': State, q: Qid, old_: int)
    requires WellFormed(s') && q in s.queues && q in s'.queues && s.queues[q].owner.Some? && NoCycleThrough(s, q)
    requires forall w :: w in s'.queues[q].waiters ==> w in s.queues[q].waiters
    ensures Steady(s', q, old_, Chain(s, s.queues[q].owner.value))
  {
    PressureIsMax(s', q);
    var l := s'.queues[q].waiters;
    if l != [] {
      assert l[0] in l && l[0] in s.queues[q].waiters && l[0] in s'.threads;
    }
  }

  /** Acyclicity of the whole graph is more than enough for any one queue. */
  lemma {:induction false} AcyclicEnough(s: State, q: Qid)
    requires WellFormed(s) && Acyclic(s)
    ensures NoCycleThrough(s, q)
  {
    if q in s.queues && s.queues[q].owner.Some? {
      forall w | w in s.queues[q].waiters ensures w !in Chain(s, s.queues[q].owner.value) {
        assert Next(s, w) == s.queues[q].owner;
      }
    }
  }

  /** All that the bookkeeping after a block relies on. */
  lemma EnqueueReady(s: State, q: Qid, t: Tid)
    requires WellFormed(s) && q in s.queues && t in s.threads && s.threads[t].status.Active?
    ensures WellFormed(Enqueue(s, q, t))
    ensures Inherits(s, map[]) ==> Inherits(Enqueue(s, q, t), map[q := Pressure(s, q)])
    ensures s.queues[q].owner.Some? && NoCycleThrough(s, q) ==>
              Steady(Enqueue(s, q, t), q, Pressure(s, q), ChainOf(Enqueue(s, q, t), s.queues[q].owner))
  {
    EnqueueOk(s, q, t);
    if Inherits(s, map[]) {
      RearrangedInherits(s, Enqueue(s, q, t), map[], {q});
      SampledOne(s, q);
    }
    if s.queues[q].owner.Some? && NoCycleThrough(s, q) {
      var chain := ChainOf(s, s.queues[q].owner);
      EnqueueSteady(s, q, t);
      EnqueueChain(s, q, t);
      ChainLeast(Enqueue(s, q, t), s.queues[q].owner.value, {}, chain);
      FewerSteady(Enqueue(s, q, t), q, Pressure(s, q), chain, ChainOf(Enqueue(s, q, t), s.queues[q].owner));
    }
  }

  lemma EnqueueChain(s: State, q: Qid, t: Tid)
    requires WellFormed(s) && q in s.queues && t in s.threads && s.threads[t].status.Active?
    requires s.queues[q].owner.Some?
    ensures s.queues[q].owner.value in ChainOf(s, s.queues[q].owner)
    ensures Closed(Enqueue(s, q, t), ChainOf(s, s.queues[q].owner))
  {
    ChainOfClosed(s, s.queues[q].owner);
    EnqueueRearranges(s, q, t);
    RearrangedClosed(s, Enqueue(s, q, t), q, ChainOf(s, s.queues[q].owner));
  }

  /** After a block, whatever is booked: t waits on q and nobody else's status changed. */
  lemma BlockedStays(s: State, mid: State, s': State, q: Qid, t: Tid, owner: Option<Tid>, touched: set<Tid>)
    requires q in s.queues && t in s.threads && mid == Enqueue(s, q, t) && Rebooked(mid, s', q, owner, touched)
    ensures t in s'.threads && s'.threads[t].status == Blocked(q) && q in s'.queues && t in s'.queues[q].waiters
    ensures forall u :: u in s'.threads && u != t ==> u in s.threads && s'.threads[u].status == s.threads[u].status
  {
    InsertMembers(Prio(s.threads), s.queues[q].waiters, t);
    assert t in mid.queues[q].waiters;
  }

  // ----- waking -----

  /** boost_thread: one level up for a thread that is woken, within the limits. */
  function BoostUp(h: Thread): int {
    if h.boostable && h.boost < MAX_PRIORITY_ADJ && h.base + h.boost < HIGHEST_PRIORITY then h.boost + 1 else h.boost
  }

  lemma RearrangedMore(s: State, s': State, qs: set<Qid>, qs': set<Qid>)
    requires Rearranged(s, s', qs) && qs <= qs'
    ensures Rearranged(s, s', qs')
  {
  }

  lemma MoveRearranges(s: State, a: Qid, b: Qid, t: Tid)
    requires PrioritiesOk(s) && a in s.queues && b in s.queues && a != b
    requires t in s.threads && s.threads[t].status == Blocked(a)
    ensures Rearranged(s, Move(s, a, b, t), {a, b})
    ensures forall w :: w in Move(s, a, b, t).queues[a].waiters <==> w in s.queues[a].waiters && w != t
    ensures forall w :: w in Move(s, a, b, t).queues[b].waiters <==> w in s.queues[b].waiters || w == t
  {
    var s1 := Dequeue(s, a, t, s.threads[t].boost);
    DequeueRearranges(s, a, t, s.threads[t].boost);
    EnqueueRearranges(s1, b, t);
    RearrangedMore(s, s1, {a}, {a, b});
    RearrangedMore(s1, Move(s, a, b, t), {b}, {a, b});
    RearrangedStep(s, s1, Move(s, a, b, t), {a, b}, t);
    WithoutMembers(s.queues[a].waiters, t);
    InsertMembers(Prio(s1.threads), s1.queues[b].waiters, t);
  }

  lemma MoveOk(s: State, a: Qid, b: Qid, t: Tid)
    requires WellFormed(s) && a in s.queues && b in s.queues && a != b
    requires t in s.threads && s.threads[t].status == Blocked(a)
    ensures WellFormed(Move(s, a, b, t))
    ensures Pressure(Move(s, a, b, t), b) == Max(Pressure(s, b), s.threads[t].effec)
  {
    DequeueOk(s, a, t, s.threads[t].boost);
    EnqueueOk(Dequeue(s, a, t, s.threads[t].boost), b, t);
  }

  lemma RearrangedPressures(s: State, s': State, qs: set<Qid>)
    requires WaitersOk(s) && WaitersOk(s') && Rearranged(s, s', qs)
    ensures forall q :: q in s.queues && q !in qs ==> Pressure(s', q) == Pressure(s, q)
  {
    forall q | q in s.queues && q !in qs ensures Pressure(s', q) == Pressure(s, q) {
      RearrangedQueue(s, s', qs, q);
    }
  }

  /** The threads of `woken`, and no others, left q and are runnable. */
  ghost predicate AfterWaking(s0: State, s: State, q: Qid, woken: seq<Tid>) {
    && Rearranged(s0, s, {q}) && q in s0.queues
    && (forall w :: w in s.queues[q].waiters <==> w in s0.queues[q].waiters && w !in woken)
    && Subsequence(s.queues[q].waiters, s0.queues[q].waiters)
    && (forall u :: u in s0.threads ==>
          if u in woken then s.threads[u] == s0.threads[u].(status := Active, boost := s.threads[u].boost, effec := s.threads[u].effec)
          else s.threads[u] == s0.threads[u])
  }

  /** y is x one boost up, unless x may not be boosted or is at a limit. */
  predicate OneUp(x: Thread, y: Thread) {
    && x.boost <= y.boost <= x.boost + 1
    && (y.boost > x.boost <==> x.boostable && x.boost < MAX_PRIORITY_ADJ && x.base + x.boost < HIGHEST_PRIORITY)
  }

  ghost predicate AllBoosted(s0: State, s: State, woken: seq<Tid>) {
    forall u :: u in woken && u in s0.threads && u in s.threads ==> OneUp(s0.threads[u], s.threads[u])
  }

  lemma AfterWakingStep(s0: State, s: State, q: Qid, woken: seq<Tid>, t: Tid, boost: int)
    requires PrioritiesOk(s) && AfterWaking(s0, s, q, woken) && t in s.threads && t !in woken
    requires s.threads[t].status == Blocked(q) && 0 <= s.threads[t].base + boost <= HIGHEST_PRIORITY
    ensures AfterWaking(s0, Dequeue(s, q, t, boost), q, woken + [t])
  {
    var s' := Dequeue(s, q, t, boost);
    DequeueRearranges(s, q, t, boost);
    RearrangedStep(s0, s, s', {q}, t);
    WithoutMembers(s.queues[q].waiters, t);
    WithoutSub(s.queues[q].waiters, t);
    SubTrans(s'.queues[q].waiters, s.queues[q].waiters, s0.queues[q].waiters);
  }

  lemma BoostedStep(s0: State, s: State, q: Qid, woken: seq<Tid>, t: Tid)
    requires AfterWaking(s0, s, q, woken) && AllBoosted(s0, s, woken) && t in s.threads && t !in woken
    ensures AllBoosted(s0, Dequeue(s, q, t, BoostUp(s.threads[t])), woken + [t])
  {
    assert s.threads[t] == s0.threads[t];
  }

  // ----- which threads a wake or requeue selects -----

  datatype Action = Skip | Stop | SelectAndKeepGoing | SelectAndStop | SelectAndAssignOwner

  /** The threads selected by one pass over the waiters, in order. */
  function Chosen(l: seq<Tid>, hook: Tid -> Action, count: nat): seq<Tid> {
    if l == [] || count == 0 then []
    else match hook(l[0])
      case Skip => Chosen(l[1..], hook, count)
      case Stop => []
      case SelectAndKeepGoing => [l[0]] + Chosen(l[1..], hook, count - 1)
      case _ => [l[0]]
  }

  /** A pass that has got to position i with `done` selected is on its way to Chosen. */
  ghost predicate OnTheWay(l: seq<Tid>, hook: Tid -> Action, count: nat, done: seq<Tid>, i: nat) {
    i <= |l| && |done| <= count && done + Chosen(l[i..], hook, count - |done|) == Chosen(l, hook, count)
  }

  lemma ChosenStep(l: seq<Tid>, hook: Tid -> Action, count: nat, done: seq<Tid>, i: nat)
    requires OnTheWay(l, hook, count, done, i) && i < |l| && |done| < count
    ensures hook(l[i]).Skip? ==> OnTheWay(l, hook, count, done, i + 1)
    ensures hook(l[i]).Stop? ==> done == Chosen(l, hook, count)
    ensures hook(l[i]).SelectAndKeepGoing? ==> OnTheWay(l, hook, count, done + [l[i]], i + 1)
    ensures hook(l[i]).SelectAndStop? || hook(l[i]).SelectAndAssignOwner? ==> done + [l[i]] == Chosen(l, hook, count)
  {
    assert l[i..][0] == l[i] && l[i..][1..] == l[i + 1..];
    if hook(l[i]).SelectAndKeepGoing? {
      var rest := Chosen(l[i + 1..], hook, count - |done| - 1);
      assert (done + [l[i]]) + rest == done + ([l[i]] + rest);
    }
  }

  lemma ChosenEnds(l: seq<Tid>, hook: Tid -> Action, count: nat, done: seq<Tid>, i: nat)
    requires OnTheWay(l, hook, count, done, i) && (i == |l| || |done| == count)
    ensures done == Chosen(l, hook, count)
  {
  }

  predicate Selects(a: Action) { a.SelectAndKeepGoing? || a.SelectAndStop? || a.SelectAndAssignOwner? }

  /** How many of the first k waiters are selected. */
  function Before(l: seq<Tid>, hook: Tid -> Action, k: nat): nat
    requires k <= |l|
  {
    if k == 0 then 0 else Before(l, hook, k - 1) + if Selects(hook(l[k - 1])) then 1 else 0
  }

  /** The pass gets as far as waiter k: nobody before it ended it, and there is room. */
  predicate Reached(l: seq<Tid>, hook: Tid -> Action, count: nat, k: nat)
    requires k <= |l|
  {
    Before(l, hook, k) < count && forall j :: 0 <= j < k ==> hook(l[j]).Skip? || hook(l[j]).SelectAndKeepGoing?
  }

  lemma {:induction false} BeforeTail(l: seq<Tid>, hook: Tid -> Action, k: nat)
    requires 0 < k <= |l|
    ensures Before(l, hook, k) == Before(l[1..], hook, k - 1) + if Selects(hook(l[0])) then 1 else 0
  {
    if k > 1 {
      BeforeTail(l, hook, k - 1);
      assert l[1..][k - 2] == l[k - 1];
    }
  }

  lemma ReachedTail(l: seq<Tid>, hook: Tid -> Action, count: nat, k: nat)
    requires 0 < k < |l| && count > 0 && (hook(l[0]).Skip? || hook(l[0]).SelectAndKeepGoing?)
    ensures Reached(l, hook, count, k) <==> Reached(l[1..], hook, if hook(l[0]).Skip? then count else count - 1, k - 1)
  {
    BeforeTail(l, hook, k);
    assert forall j :: 0 < j < k ==> l[1..][j - 1] == l[j];
    assert forall j :: 0 <= j < k - 1 ==> l[1..][j] == l[j + 1];
  }

  /** Whoever the pass gets to and the hook selects is selected, in its turn. */
  lemma {:induction false} ChosenHas(l: seq<Tid>, hook: Tid -> Action, count: nat, k: nat)
    requires k < |l| && Reached(l, hook, count, k) && Selects(hook(l[k]))
    ensures Before(l, hook, k) < |Chosen(l, hook, count)| && Chosen(l, hook, count)[Before(l, hook, k)] == l[k]
  {
    if k > 0 {
      assert hook(l[0]).Skip? || hook(l[0]).SelectAndKeepGoing?;
      assert count > 0;
      ReachedTail(l, hook, count, k);
      BeforeTail(l, hook, k);
      ChosenHas(l[1..], hook, if hook(l[0]).Skip? then count else count - 1, k - 1);
    }
  }

  /** And nobody else is. */
  lemma {:induction false} ChosenFrom(l: seq<Tid>, hook: Tid -> Action, count: nat, i: nat) returns (k: nat)
    requires i < |Chosen(l, hook, count)|
    ensures k < |l| && Reached(l, hook, count, k) && Selects(hook(l[k])) && Before(l, hook, k) == i && Chosen(l, hook, count)[i] == l[k]
  {
    if hook(l[0]).Skip? || (hook(l[0]).SelectAndKeepGoing? && i > 0) {
      var n, m := if hook(l[0]).Skip? then i else i - 1, if hook(l[0]).Skip? then count else count - 1;
      k := ChosenFrom(l[1..], hook, m, n);
      k := k + 1;
      ReachedTail(l, hook, count, k);
      BeforeTail(l, hook, k);
    } else {
      k := 0;
    }
  }

  /** Only the last one selected can be singled out: that ends the pass. */
  lemma {:induction false} SingledOutLast(l: seq<Tid>, hook: Tid -> Action, count: nat)
    ensures forall i :: 0 <= i < |Chosen(l, hook, count)| - 1 ==> hook(Chosen(l, hook, count)[i]).SelectAndKeepGoing?
  {
    if l != [] && count > 0 {
      SingledOutLast(l[1..], hook, count);
      SingledOutLast(l[1..], hook, count - 1);
    }
  }

  /** Without Skip the selection is the front of the queue: nobody of higher priority,
      and nobody of equal priority that came earlier, is passed over. */
  lemma {:induction false} ChosenIsFront(l: seq<Tid>, hook: Tid -> Action, count: nat)
    requires forall t :: t in l ==> hook(t) != Skip
    ensures Chosen(l, hook, count) <= l && |Chosen(l, hook, count)| <= count
  {
    if l != [] && count > 0 && hook(l[0]).SelectAndKeepGoing? {
      ChosenIsFront(l[1..], hook, count - 1);
    }
  }

  lemma {:induction false} ChosenWaits(l: seq<Tid>, hook: Tid -> Action, count: nat)
    ensures forall t :: t in Chosen(l, hook, count) ==> t in l
    ensures Distinct(l) ==> Distinct(Chosen(l, hook, count))
    ensures |Chosen(l, hook, count)| <= count
  {
    if l != [] && count > 0 {
      assert l == [l[0]] + l[1..];
      ChosenWaits(l[1..], hook, count);
      ChosenWaits(l[1..], hook, count - 1);
      var r := Chosen(l[1..], hook, count - 1);
      assert forall i :: 0 <= i < |r| ==> r[i] in r;
    }
  }

  lemma WakeInherits(s: State, s': State, q: Qid)
    requires OwnersOk(s) && WaitersOk(s) && WaitersOk(s') && Inherits(s, map[]) && Rearranged(s, s', {q})
    ensures Inherits(s', map[q := Pressure(s, q)])
  {
    RearrangedPressures(s, s', {q});
    RearrangedInherits(s, s', map[], {q});
    SampledOne(s, q);
  }

  /** All that the bookkeeping after a timeout relies on. */
  lemma LeaveReady(s: State, q: Qid, t: Tid)
    requires WellFormed(s) && t in s.threads && s.threads[t].status == Blocked(q)
    ensures q in s.queues && -1 <= Pressure(s, q)
    ensures var s' := Dequeue(s, q, t, s.threads[t].boost);
            && WellFormed(s') && AfterWaking(s, s', q, [t]) && (Inherits(s, map[]) ==> Inherits(s', map[q := Pressure(s, q)]))
            && (s'.queues[q].owner.Some? ==> s'.queues[q].owner.value in s'.threads)
  {
    assert s.threads[t].status.queue == q;
    var boost := s.threads[t].boost;
    DequeueOk(s, q, t, boost);
    SubSame(s.queues[q].waiters);
    AfterWakingStep(s, s, q, [], t, boost);
    PressureIsMax(s, q);
    if Inherits(s, map[]) { WakeInherits(s, Dequeue(s, q, t, boost), q); }
  }

  lemma WakeChain(s: State, s': State, q: Qid, woken: seq<Tid>, chain: set<Tid>)
    requires AfterWaking(s, s', q, woken) && Closed(s, chain)
    requires s.queues[q].owner.Some? ==> s.queues[q].owner.value in chain
    ensures Closed(s', chain)
  {
    RearrangedClosed(s, s', q, chain);
  }

  /** All that the bookkeeping after a wake relies on. */
  lemma WakeReady(s: State, s': State, q: Qid, woken: seq<Tid>)
    requires WellFormed(s) && WellFormed(s') && AfterWaking(s, s', q, woken)
    ensures Inherits(s, map[]) ==> Inherits(s', map[q := Pressure(s, q)])
    ensures -1 <= Pressure(s, q) && OwnerOf(s', q) == s.queues[q].owner && s'.queues[q].kind == s.queues[q].kind
    ensures s.queues[q].owner.Some? && NoCycleThrough(s, q) ==> Steady(s', q, Pressure(s, q), ChainOf(s', OwnerOf(s', q)))
  {
    PressureIsMax(s, q);
    if Inherits(s, map[]) { WakeInherits(s, s', q); }
    if s.queues[q].owner.Some? && NoCycleThrough(s, q) {
      var chain := ChainOf(s, s.queues[q].owner);
      ChainOfClosed(s, s.queues[q].owner);
      WakeChain(s, s', q, woken, chain);
      LeftSteady(s, s', q, Pressure(s, q));
      ChainLeast(s', s.queues[q].owner.value, {}, chain);
      FewerSteady(s', q, Pressure(s, q), chain, ChainOf(s', s.queues[q].owner));
    }
  }

  /** The thread to become the owner, seen from the end of the pass. */
  lemma SingledOut(l: seq<Tid>, hook: Tid -> Action, count: nat, c: seq<Tid>)
    requires c == Chosen(l, hook, count)
    ensures forall t :: t in c && hook(t).SelectAndAssignOwner? <==> c != [] && t == c[|c| - 1] && hook(c[|c| - 1]).SelectAndAssignOwner?
  {
    SingledOutLast(l, hook, count);
  }

  lemma WokenActive(s0: State, s: State, q: Qid, hook: Tid -> Action, count: nat)
    requires WaitersOk(s0) && q in s0.queues && AfterWaking(s0, s, q, Chosen(s0.queues[q].waiters, hook, count))
    ensures forall t :: t in Chosen(s0.queues[q].waiters, hook, count) ==> t in s.threads && s.threads[t].status.Active?
  {
    ChosenWaits(s0.queues[q].waiters, hook, count);
  }
}
