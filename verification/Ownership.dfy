/** Giving up and taking ownership of a queue, before any pressure is booked. */
module Ownership {
  import opened PriorityList
  import opened WaitGraph
  import opened Propagation

  function Release(s: State, q: Qid): State
    requires q in s.queues && s.queues[q].owner.Some? && s.queues[q].owner.value in s.threads
  {
    var o := s.queues[q].owner.value;
    State(s.threads[o := s.threads[o].(owned := s.threads[o].owned - {q})],
          s.queues[q := s.queues[q].(owner := None)])
  }

  function Take(s: State, q: Qid, n: Tid): State
    requires q in s.queues && n in s.threads
  {
    State(s.threads[n := s.threads[n].(owned := s.threads[n].owned + {q})],
          s.queues[q := s.queues[q].(owner := Some(n))])
  }

  /** Only ownership differs between s and s'. */
  ghost predicate SameWaiting(s: State, s': State) {
    && s.threads.Keys == s'.threads.Keys && s.queues.Keys == s'.queues.Keys
    && (forall t :: t in s.threads ==>
          && s'.threads[t].status == s.threads[t].status && s'.threads[t].effec == s.threads[t].effec
          && s'.threads[t].base == s.threads[t].base && s'.threads[t].boost == s.threads[t].boost
          && s'.threads[t].inherited == s.threads[t].inherited && s'.threads[t].boostable == s.threads[t].boostable)
    && (forall q :: q in s.queues ==>
          s'.queues[q].waiters == s.queues[q].waiters && s'.queues[q].kind == s.queues[q].kind)
  }

  lemma SameWaitingOk(s: State, s': State)
    requires PrioritiesOk(s) && WaitersOk(s) && BlockedOk(s) && SameWaiting(s, s')
    ensures PrioritiesOk(s') && WaitersOk(s') && BlockedOk(s')
    ensures forall q :: Pressure(s', q) == Pressure(s, q)
  {
    forall q | q in s.queues
      ensures Sorted(Prio(s'.threads), s'.queues[q].waiters) && Pressure(s', q) == Pressure(s, q)
    {
      SortedLocal(Prio(s.threads), Prio(s'.threads), s.queues[q].waiters);
    }
  }

  lemma ReleaseOwners(s: State, q: Qid)
    requires OwnersOk(s) && q in s.queues && s.queues[q].owner.Some? && s.queues[q].owner.value in s.threads
    ensures OwnersOk(Release(s, q))
  {
    var s' := Release(s, q);
    forall t, q' | t in s'.threads && q' in s'.threads[t].owned
      ensures q' in s'.queues && s'.queues[q'].owner == Some(t)
    {
      assert q' in s.threads[t].owned;
    }
    forall q' | q' in s'.queues && s'.queues[q'].owner.Some?
      ensures s'.queues[q'].kind.Owned? && s'.queues[q'].owner.value in s'.threads && q' in s'.threads[s'.queues[q'].owner.value].owned
    {
      assert q' != q && s.queues[q'].owner.value == s'.queues[q'].owner.value;
    }
  }

  lemma TakeOwners(s: State, q: Qid, n: Tid)
    requires OwnersOk(s) && q in s.queues && s.queues[q].owner.None? && s.queues[q].kind.Owned? && Live(s, n)
    ensures OwnersOk(Take(s, q, n))
  {
    var s' := Take(s, q, n);
    forall t, q' | t in s'.threads && q' in s'.threads[t].owned
      ensures q' in s'.queues && s'.queues[q'].owner == Some(t)
    {
      assert q' in s.threads[t].owned || (q' == q && t == n);
    }
    forall q' | q' in s'.queues && s'.queues[q'].owner.Some?
      ensures s'.queues[q'].kind.Owned? && s'.queues[q'].owner.value in s'.threads && q' in s'.threads[s'.queues[q'].owner.value].owned
    {
      assert q' != q ==> s.queues[q'].owner.value == s'.queues[q'].owner.value;
    }
  }

  lemma ReleaseOk(s: State, q: Qid)
    requires WellFormed(s) && q in s.queues && s.queues[q].owner.Some? && s.queues[q].owner.value in s.threads
    ensures WellFormed(Release(s, q)) && SameWaiting(s, Release(s, q))
    ensures forall q' :: Pressure(Release(s, q), q') == Pressure(s, q')
  {
    ReleaseOwners(s, q);
    SameWaitingOk(s, Release(s, q));
  }

  lemma TakeOk(s: State, q: Qid, n: Tid)
    requires WellFormed(s) && q in s.queues && s.queues[q].owner.None? && s.queues[q].kind.Owned? && Live(s, n)
    ensures WellFormed(Take(s, q, n)) && SameWaiting(s, Take(s, q, n))
    ensures forall q' :: Pressure(Take(s, q, n), q') == Pressure(s, q')
  {
    TakeOwners(s, q, n);
    SameWaitingOk(s, Take(s, q, n));
  }

  /** The equation does not depend on a queue nobody owns. */
  lemma Unowned(s: State, pend: map<Qid, int>, q: Qid, old_: int)
    requires OwnersOk(s) && Inherits(s, pend[q := old_])
    requires q in s.queues && s.queues[q].owner.None?
    ensures Inherits(s, pend)
  {
    forall u | Live(s, u) ensures IsMax(s, pend, s.threads[u].owned, s.threads[u].inherited) {
      var own := s.threads[u].owned;
      IsMaxLocal(s, pend[q := old_], s, pend, own, own, s.threads[u].inherited);
    }
  }

  /** Recording the real pressure of a queue changes nothing. */
  lemma StillInherits(s: State, pend: map<Qid, int>, q: Qid)
    requires Inherits(s, pend) && q !in pend
    ensures Inherits(s, pend[q := Pressure(s, q)])
  {
    forall u | Live(s, u)
      ensures IsMax(s, pend[q := Pressure(s, q)], s.threads[u].owned, s.threads[u].inherited)
    {
      var own := s.threads[u].owned;
      IsMaxLocal(s, pend, s, pend[q := Pressure(s, q)], own, own, s.threads[u].inherited);
    }
  }

  /** After the release the old owner still counts q for its old pressure. */
  lemma ReleaseOffBy(s: State, pend: map<Qid, int>, q: Qid, old_: int)
    requires OwnersOk(s) && Inherits(s, pend[q := old_]) && q !in pend && -1 <= old_
    requires q in s.queues && s.queues[q].owner.Some? && s.queues[q].owner.value in s.threads
    requires forall q' :: Pressure(Release(s, q), q') == Pressure(s, q')
    ensures OffBy(Release(s, q), pend, s.queues[q].owner.value, q, old_, -1)
    ensures old_ == -1 ==> Inherits(Release(s, q), pend)
  {
    var o, s' := s.queues[q].owner.value, Release(s, q);
    forall u | Live(s', u)
      ensures IsMax(s', pend[q := old_], CountedBy(s', u, o, q), s'.threads[u].inherited)
      ensures old_ == -1 ==> IsMax(s', pend, s'.threads[u].owned, s'.threads[u].inherited)
    {
      assert Live(s, u);
      var own, m := s.threads[u].owned, s.threads[u].inherited;
      if u == o {
        assert q in own && CountedBy(s', u, o, q) == own;
      } else {
        assert q !in own;
      }
      assert s'.threads[u].owned == own - {q} && s'.threads[u].inherited == m;
      IsMaxLocal(s, pend[q := old_], s', pend[q := old_], own, CountedBy(s', u, o, q), m);
      if old_ == -1 {
        MaxWithout(s, pend, own, q, m);
        IsMaxLocal(s, pend, s', pend, own - {q}, s'.threads[u].owned, m);
      }
    }
  }

  lemma MaxWithout(s: State, pend: map<Qid, int>, qs: set<Qid>, q: Qid, m: int)
    requires IsMax(s, pend[q := -1], qs, m)
    ensures IsMax(s, pend, qs - {q}, m)
  {
    forall q' | q' in qs - {q} ensures Accounted(s, pend, q') <= m {
      assert Accounted(s, pend[q := -1], q') == Accounted(s, pend, q');
    }
    if m != -1 {
      var q' :| q' in qs && Accounted(s, pend[q := -1], q') == m;
      assert q' in qs - {q} && Accounted(s, pend, q') == m;
    }
  }

  /** After taking q the new owner still counts it for nothing. */
  lemma TakeOffBy(s: State, pend: map<Qid, int>, q: Qid, n: Tid)
    requires OwnersOk(s) && Inherits(s, pend) && q !in pend
    requires q in s.queues && s.queues[q].owner.None? && s.queues[q].kind.Owned? && Live(s, n)
    requires forall q' :: Pressure(Take(s, q, n), q') == Pressure(s, q')
    ensures OffBy(Take(s, q, n), pend, n, q, -1, Pressure(s, q))
    ensures Pressure(s, q) == -1 ==> Inherits(Take(s, q, n), pend)
  {
    var s' := Take(s, q, n);
    assert forall u :: u in s.threads ==> q !in s.threads[u].owned;
    forall u | Live(s', u)
      ensures IsMax(s', pend[q := -1], CountedBy(s', u, n, q), s'.threads[u].inherited)
      ensures Pressure(s, q) == -1 ==> IsMax(s', pend, s'.threads[u].owned, s'.threads[u].inherited)
    {
      assert Live(s, u);
      var own, m := s.threads[u].owned, s.threads[u].inherited;
      assert q !in own;
      assert CountedBy(s', u, n, q) == s'.threads[u].owned && s'.threads[u].inherited == m;
      if u == n {
        MaxWith(s, pend, own, q, m);
        IsMaxLocal(s, pend[q := -1], s', pend[q := -1], own + {q}, CountedBy(s', u, n, q), m);
        if Pressure(s, q) == -1 {
          IsMaxLocal(s', pend[q := -1], s', pend, own + {q}, s'.threads[u].owned, m);
        }
      } else {
        IsMaxLocal(s, pend, s', pend[q := -1], own, CountedBy(s', u, n, q), m);
        IsMaxLocal(s, pend, s', pend, own, s'.threads[u].owned, m);
      }
    }
  }

  lemma MaxWith(s: State, pend: map<Qid, int>, qs: set<Qid>, q: Qid, m: int)
    requires IsMax(s, pend, qs, m) && q !in qs
    ensures IsMax(s, pend[q := -1], qs + {q}, m)
  {
    forall q' | q' in qs + {q} ensures Accounted(s, pend[q := -1], q') <= m {
      if q' != q { assert Accounted(s, pend[q := -1], q') == Accounted(s, pend, q'); }
    }
    if m != -1 {
      var q' :| q' in qs && Accounted(s, pend, q') == m;
      assert q' in qs + {q} && Accounted(s, pend[q := -1], q') == m;
    }
  }

  // ----- what a change of ownership with its bookkeeping may touch -----

  function OwnedAfter(owned: set<Qid>, t: Tid, q: Qid, owner: Option<Tid>): set<Qid> {
    if owner == Some(t) then owned + {q} else owned - {q}
  }

  /** From s to s' the owner of q became `owner`; inherited and effective priorities
      changed at most for the threads of `touched`, everything else stayed. */
  ghost predicate Rebooked(s: State, s': State, q: Qid, owner: Option<Tid>, touched: set<Tid>) {
    && s.threads.Keys == s'.threads.Keys && s.queues.Keys == s'.queues.Keys
    && (forall t :: t in s.threads ==>
          && s'.threads[t].status == s.threads[t].status && s'.threads[t].boostable == s.threads[t].boostable
          && s'.threads[t].base == s.threads[t].base && s'.threads[t].boost == s.threads[t].boost
          && s'.threads[t].owned == OwnedAfter(s.threads[t].owned, t, q, owner)
          && (t !in touched ==> s'.threads[t].inherited == s.threads[t].inherited && s'.threads[t].effec == s.threads[t].effec))
    && (forall q' :: q' in s.queues ==>
          && s'.queues[q'].kind == s.queues[q'].kind
          && s'.queues[q'].owner == (if q' == q then owner else s.queues[q'].owner)
          && |s'.queues[q'].waiters| == |s.queues[q'].waiters|
          && forall w :: w in s'.queues[q'].waiters <==> w in s.queues[q'].waiters)
  }

  /** No priority rose, no effective priority above `level` moved, and nothing did at a
      thread that inherited something else. */
  ghost predicate Lowered(s: State, s': State, level: int) {
    forall t :: t in s.threads && t in s'.threads ==>
      && s'.threads[t].effec <= s.threads[t].effec && s'.threads[t].inherited <= s.threads[t].inherited
      && (s.threads[t].effec > level ==> s'.threads[t].effec == s.threads[t].effec)
      && (s.threads[t].inherited != level ==>
            s'.threads[t].inherited == s.threads[t].inherited && s'.threads[t].effec == s.threads[t].effec)
  }

  lemma ReleaseRebooks(s: State, q: Qid)
    requires OwnersOk(s) && q in s.queues && s.queues[q].owner.Some? && s.queues[q].owner.value in s.threads
    ensures Rebooked(s, Release(s, q), q, None, {})
  {
  }

  lemma PropagationRebooks(s: State, s1: State, s2: State, q: Qid, owner: Option<Tid>,
                           touched: set<Tid>, chain: set<Tid>, all: set<Tid>)
    requires Rebooked(s, s1, q, owner, touched) && Touched(s1, s2, chain)
    requires touched + chain <= all
    ensures Rebooked(s, s2, q, owner, all)
  {
  }

  lemma FallLowers(s: State, s1: State, s2: State, q: Qid, owner: Option<Tid>, chain: set<Tid>, level: int)
    requires Rebooked(s, s1, q, owner, {}) && Moved(s1, s2, chain, false, level)
    ensures Lowered(s, s2, level)
  {
  }

  lemma RebookedMore(s: State, s': State, q: Qid, owner: Option<Tid>, touched: set<Tid>, all: set<Tid>)
    requires Rebooked(s, s', q, owner, touched) && touched <= all
    ensures Rebooked(s, s', q, owner, all)
    ensures touched == {} ==> forall level :: Lowered(s, s', level)
  {
  }

  lemma TakeRebooks(s: State, s1: State, q: Qid, touched: set<Tid>, n: Tid)
    requires Rebooked(s, s1, q, None, touched) && q in s1.queues && n in s1.threads
    ensures Rebooked(s, Take(s1, q, n), q, Some(n), touched)
  {
  }

  // ----- a propagation may start -----

  lemma ReleaseChain(s: State, pend: map<Qid, int>, q: Qid, chain: set<Tid>)
    requires q in s.queues && s.queues[q].owner.Some? && s.queues[q].owner.value in s.threads
    requires Closed(s, chain) && PendClear(s, chain, pend, false)
    ensures Closed(Release(s, q), chain) && PendClear(Release(s, q), chain, pend, false)
  {
    var s' := Release(s, q);
    assert forall t :: Next(s', t).Some? ==> Next(s', t) == Next(s, t);
    assert forall t :: t in s.threads ==> s'.threads[t].owned <= s.threads[t].owned && s'.threads[t].status == s.threads[t].status;
  }

  lemma TakeChain(s: State, pend: map<Qid, int>, q: Qid, n: Tid, chain: set<Tid>)
    requires q in s.queues && n in s.threads && n in chain && q !in pend
    requires Closed(s, chain) && PendClear(s, chain, pend, true)
    ensures Closed(Take(s, q, n), chain) && PendClear(Take(s, q, n), chain, pend, true)
  {
    var s' := Take(s, q, n);
    assert forall t :: t in s.threads ==> s'.threads[t].status == s.threads[t].status;
    assert forall t :: Next(s', t).Some? ==> Next(s', t) == Next(s, t) || (Next(s', t) == Some(n) && s.threads[t].status == Blocked(q));
  }

  lemma ReleaseReady(s: State, pend: map<Qid, int>, q: Qid, old_: int, chain: set<Tid>)
    requires WellFormed(s) && q in s.queues && s.queues[q].owner.Some? && s.queues[q].owner.value in s.threads
    requires Inherits(s, pend[q := old_]) && q !in pend && -1 <= old_
    requires Closed(s, chain) && PendClear(s, chain, pend, false)
    ensures WellFormed(Release(s, q)) && Rebooked(s, Release(s, q), q, None, {})
    ensures OffBy(Release(s, q), pend, s.queues[q].owner.value, q, old_, -1)
    ensures old_ == -1 ==> Inherits(Release(s, q), pend)
    ensures Closed(Release(s, q), chain) && PendClear(Release(s, q), chain, pend, false)
  {
    ReleaseOk(s, q);
    ReleaseOffBy(s, pend, q, old_);
    ReleaseRebooks(s, q);
    ReleaseChain(s, pend, q, chain);
  }

  /** What taking q leaves in order, whatever is recorded. */
  lemma TakeInOrder(s: State, q: Qid, n: Tid)
    requires WellFormed(s) && q in s.queues && s.queues[q].owner.None? && s.queues[q].kind.Owned? && Live(s, n)
    ensures WellFormed(Take(s, q, n)) && Pressure(Take(s, q, n), q) == Pressure(s, q)
    ensures n in Chain(s, n) && Closed(Take(s, q, n), Chain(s, n))
  {
    ChainClosed(s, n);
    TakeOk(s, q, n);
    TakeChain(s, map[], q, n, Chain(s, n));
  }

  lemma TakeReady(s: State, pend: map<Qid, int>, q: Qid, n: Tid, chain: set<Tid>)
    requires WellFormed(s) && q in s.queues && s.queues[q].owner.None? && s.queues[q].kind.Owned? && Live(s, n)
    requires Inherits(s, pend) && q !in pend
    requires n in chain && Closed(s, chain) && PendClear(s, chain, pend, true)
    ensures WellFormed(Take(s, q, n))
    ensures OffBy(Take(s, q, n), pend, n, q, -1, Pressure(s, q))
    ensures Pressure(s, q) == -1 ==> Inherits(Take(s, q, n), pend)
    ensures Closed(Take(s, q, n), chain) && PendClear(Take(s, q, n), chain, pend, true)
  {
    TakeOk(s, q, n);
    TakeOffBy(s, pend, q, n);
    TakeChain(s, pend, q, n, chain);
  }

  /** The same if q is recorded with p, which is at least its pressure. */
  lemma TakeRecorded(s: State, pend: map<Qid, int>, q: Qid, n: Tid, p: int)
    requires WellFormed(s) && q in s.queues && s.queues[q].owner.None? && s.queues[q].kind.Owned? && Live(s, n)
    requires Inherits(s, pend) && q !in pend && PendClear(s, Chain(s, n), pend, true)
    ensures WellFormed(Take(s, q, n)) && Pressure(Take(s, q, n), q) == Pressure(s, q)
    ensures OffBy(Take(s, q, n), pend[q := p], n, q, -1, p)
    ensures Pressure(s, q) == -1 ==> Inherits(Take(s, q, n), pend)
    ensures var chain := Chain(s, n);
            n in chain && Closed(Take(s, q, n), chain) && PendMet(Take(s, q, n), chain, pend[q := p], true, p)
  {
    ChainClosed(s, n);
    TakeOk(s, q, n);
    TakeReady(s, pend, q, n, Chain(s, n));
    RecordedOffBy(Take(s, q, n), pend, q, n, Pressure(s, q), p);
    RecordedMet(Take(s, q, n), Chain(s, n), pend, q, p);
  }

  lemma RecordedOffBy(s: State, pend: map<Qid, int>, q: Qid, n: Tid, new_: int, p: int)
    requires OffBy(s, pend, n, q, -1, new_) && q in s.threads[n].owned
    ensures OffBy(s, pend[q := p], n, q, -1, p)
  {
    assert pend[q := p][q := -1] == pend[q := -1];
  }

  lemma RecordedMet(s: State, chain: set<Tid>, pend: map<Qid, int>, q: Qid, p: int)
    requires PendClear(s, chain, pend, true)
    ensures PendMet(s, chain, pend[q := p], true, p)
  {
  }

  /** All is booked but the change of q, which is recorded with `old`, and what `pend` says;
      the chain of its owner does not meet that. */
  ghost predicate Recorded(s: State, pend: map<Qid, int>, q: Qid, old_: int, chain: set<Tid>) {
    && q in s.queues && q !in pend && -1 <= old_ && Inherits(s, pend[q := old_])
    && (s.queues[q].owner.Some? ==> PendClear(s, chain, pend, false))
  }

  /** What booking a change of pressure does while the owner stays: nothing if there is
      nobody to tell or nothing to say, a move one way otherwise. */
  ghost predicate Settled(s: State, s': State, q: Qid, old_: int, chain: set<Tid>, known: bool) {
    && (q in s.queues && s.queues[q].owner.Some? && old_ != Pressure(s, q) ==>
          && Touched(s, s', chain)
          && (known ==> Moved(s, s', chain, old_ < Pressure(s, q), Max(old_, Pressure(s, q)))))
    && (!(q in s.queues && s.queues[q].owner.Some? && old_ != Pressure(s, q)) ==> s' == s)
  }

  /** What a queue nobody owned does to its new owner n: priorities rise, to its pressure. */
  ghost predicate GivenTo(s: State, s': State, q: Qid, n: Option<Tid>) {
    n.Some? && n.value in s.threads && q in s.queues && 0 <= Pressure(s, q) ==>
      Moved(Take(s, q, n.value), s', Chain(s, n.value), true, Pressure(s, q))
  }

  // ----- the sampled pressure stays true -----

  /** The release of q by its owner, whose chain is `chain`, cannot change the
      pressure of q: some waiter carrying it is out of reach. */
  ghost predicate Steady(s: State, q: Qid, old_: int, chain: set<Tid>) {
    q in s.queues && s.queues[q].waiters != [] ==>
      exists w :: w in s.queues[q].waiters && w in s.threads && s.threads[w].effec == Pressure(s, q) &&
                  (w !in chain || s.threads[w].effec > old_)
  }

  lemma FewerSteady(s: State, q: Qid, old_: int, chain: set<Tid>, fewer: set<Tid>)
    requires Steady(s, q, old_, chain) && fewer <= chain
    ensures Steady(s, q, old_, fewer)
  {
    if q in s.queues && s.queues[q].waiters != [] {
      var w :| w in s.queues[q].waiters && w in s.threads && s.threads[w].effec == Pressure(s, q) &&
               (w !in chain || s.threads[w].effec > old_);
    }
  }

  lemma SteadyPressure(s: State, s': State, q: Qid, old_: int, chain: set<Tid>)
    requires WellFormed(s) && WellFormed(s') && q in s.queues
    requires Rebooked(s, s', q, None, chain) && Lowered(s, s', old_) && Steady(s, q, old_, chain)
    ensures Pressure(s', q) == Pressure(s, q)
  {
    PressureIsMax(s, q);
    PressureIsMax(s', q);
    if s.queues[q].waiters != [] {
      var w :| w in s.queues[q].waiters && w in s.threads && s.threads[w].effec == Pressure(s, q) &&
               (w !in chain || s.threads[w].effec > old_);
      assert w in s'.queues[q].waiters && s'.threads[w].effec == Pressure(s, q);
      assert s'.queues[q].waiters[0] in s.queues[q].waiters;
    }
  }

  lemma OwnedAfterSame(s: State, q: Qid)
    requires OwnersOk(s) && q in s.queues
    ensures forall t :: t in s.threads ==> OwnedAfter(s.threads[t].owned, t, q, s.queues[q].owner) == s.threads[t].owned
  {
    forall t | t in s.threads
      ensures OwnedAfter(s.threads[t].owned, t, q, s.queues[q].owner) == s.threads[t].owned
    {
      if s.queues[q].owner == Some(t) { assert s.queues[q].owner.value == t; }
    }
  }

  lemma SameRebooks(s: State, q: Qid)
    requires OwnersOk(s) && q in s.queues
    ensures Rebooked(s, s, q, s.queues[q].owner, {})
  {
    OwnedAfterSame(s, q);
  }

  /** Chains of the new owner once q has no owner. */
  ghost predicate ClosedBut(s: State, chain: set<Tid>, q: Qid) {
    forall t :: t in chain && Next(s, t).Some? && s.threads[t].status != Blocked(q) ==> Next(s, t).value in chain
  }

  lemma RebookedChain(s: State, s': State, pend: map<Qid, int>, q: Qid, touched: set<Tid>, chain: set<Tid>)
    requires Rebooked(s, s', q, None, touched) && ClosedBut(s, chain, q)
    ensures Closed(s', chain) && (PendClear(s, chain, pend, true) ==> PendClear(s', chain, pend, true))
    ensures forall t :: Live(s', t) == Live(s, t)
  {
    assert forall t :: Next(s', t).Some? ==> Next(s', t) == Next(s, t) && s.threads[t].status != Blocked(q);
  }

  // ----- a thread's death -----

  function Exited(s: State, t: Tid): State
    requires t in s.threads
  {
    State(s.threads[t := s.threads[t].(status := Dead, owned := {})],
          map q | q in s.queues :: if q in s.threads[t].owned then s.queues[q].(owner := None) else s.queues[q])
  }

  lemma ExitedOk(s: State, t: Tid)
    requires WellFormed(s) && t in s.threads && s.threads[t].status.Active?
    ensures WellFormed(Exited(s, t)) && (Inherits(s, map[]) ==> Inherits(Exited(s, t), map[]))
  {
    var s' := Exited(s, t);
    ExitedOrder(s, t);
    forall u | Inherits(s, map[]) && Live(s', u) ensures IsMax(s', map[], s'.threads[u].owned, s'.threads[u].inherited) {
      assert Live(s, u);
      var own := s.threads[u].owned;
      IsMaxLocal(s, map[], s', map[], own, own, s.threads[u].inherited);
    }
  }

  lemma ExitedOrder(s: State, t: Tid)
    requires WellFormed(s) && t in s.threads && s.threads[t].status.Active?
    ensures WellFormed(Exited(s, t))
    ensures forall q :: q in s.queues ==> Pressure(Exited(s, t), q) == Pressure(s, q)
  {
    var s' := Exited(s, t);
    ExitedOwners(s, t);
    forall q | q in s.queues
      ensures Sorted(Prio(s'.threads), s'.queues[q].waiters) && Pressure(s', q) == Pressure(s, q)
      ensures s'.queues[q].waiters == s.queues[q].waiters
    {
      SortedLocal(Prio(s.threads), Prio(s'.threads), s.queues[q].waiters);
    }
  }

  lemma ExitedOwners(s: State, t: Tid)
    requires OwnersOk(s) && BlockedOk(s) && t in s.threads && s.threads[t].status.Active?
    ensures OwnersOk(Exited(s, t)) && BlockedOk(Exited(s, t))
  {
  }

  // ----- new threads and queues -----

  lemma AddedOk(s: State, t: Tid, base: int, boostable: bool)
    requires WellFormed(s) && t !in s.threads && 0 <= base <= HIGHEST_PRIORITY
    ensures var s' := State(s.threads[t := Thread(base, 0, -1, base, boostable, Active, {})], s.queues);
            WellFormed(s') && (Inherits(s, map[]) ==> Inherits(s', map[]))
  {
    var s' := State(s.threads[t := Thread(base, 0, -1, base, boostable, Active, {})], s.queues);
    forall q | q in s.queues ensures Sorted(Prio(s'.threads), s'.queues[q].waiters) && Pressure(s', q) == Pressure(s, q) {
      SortedLocal(Prio(s.threads), Prio(s'.threads), s.queues[q].waiters);
    }
    if Inherits(s, map[]) { PressuresInherit(s, s', t); }
  }

  lemma PressuresInherit(s: State, s': State, t: Tid)
    requires OwnersOk(s) && Inherits(s, map[]) && forall q :: q in s.queues ==> Pressure(s', q) == Pressure(s, q)
    requires forall u :: u in s'.threads && u != t ==> u in s.threads && s'.threads[u] == s.threads[u]
    requires t in s'.threads ==> s'.threads[t].owned == {} && s'.threads[t].inherited == -1
    ensures Inherits(s', map[])
  {
    forall u | Live(s', u) ensures IsMax(s', map[], s'.threads[u].owned, s'.threads[u].inherited) {
      if u != t {
        assert Live(s, u);
        var own := s.threads[u].owned;
        IsMaxLocal(s, map[], s', map[], own, own, s.threads[u].inherited);
      }
    }
  }

  lemma AddedQueueOk(s: State, q: Qid, kind: Kind)
    requires WellFormed(s) && q !in s.queues
    ensures var s' := State(s.threads, s.queues[q := Queue(kind, [], None)]);
            WellFormed(s') && (Inherits(s, map[]) ==> Inherits(s', map[]))
  {
    var s' := State(s.threads, s.queues[q := Queue(kind, [], None)]);
    assert OwnersOk(s');
    forall u | Inherits(s, map[]) && Live(s', u) ensures IsMax(s', map[], s'.threads[u].owned, s'.threads[u].inherited) {
      assert Live(s, u);
      var own := s.threads[u].owned;
      IsMaxLocal(s, map[], s', map[], own, own, s.threads[u].inherited);
    }
  }
}
