/** Three small states in which the bookkeeping does not do what its comments promise. The
    first is one that SampleLost describes, the second one that WakeAndRequeue excludes. */
module StaleInheritance {
  import opened PriorityList
  import opened WaitGraph
  import opened Propagation
  import opened Ownership
  import opened Waiting
  import opened SampledPressure
  import opened OwnedWaitQueue

  const O := Tid(0)
  const W := Tid(1)
  const N := Tid(2)
  const M := Tid(3)
  const A := Qid(0)
  const B := Qid(1)

  function Free(base: int): Thread {
    Thread(base, 0, -1, base, true, Active, {})
  }

  function Stuck(base: int, q: Qid): Thread {
    Free(base).(status := Blocked(q))
  }

  // ----- how the states come about -----

  /** Four threads and two queues that have nothing to do with each other. */
  function Apiece(o: int, w: int, n: int, m: int): State {
    State(map[O := Free(o), W := Free(w), N := Free(n), M := Free(m)],
          map[A := Queue(Owned, [], None), B := Queue(Owned, [], None)])
  }

  method Setup(o: int, w: int, n: int, m: int) returns (k: WaitQueues)
    requires 0 <= o <= HIGHEST_PRIORITY && 0 <= w <= HIGHEST_PRIORITY && 0 <= n <= HIGHEST_PRIORITY && 0 <= m <= HIGHEST_PRIORITY
    ensures fresh(k) && k.S() == Apiece(o, w, n, m) && WellFormed(k.S()) && Inherits(k.S(), map[])
  {
    k := new WaitQueues();
    k.AddThread(O, o, true);
    k.AddThread(W, w, true);
    k.AddThread(N, n, true);
    k.AddThread(M, m, true);
    k.AddQueue(A, Owned);
    k.AddQueue(B, Owned);
  }

  lemma OwnsOne(s: State, t: Tid, q: Qid)
    requires Inherits(s, map[]) && Live(s, t) && s.threads[t].owned == {q}
    ensures s.threads[t].inherited == Max(Pressure(s, q), -1)
  {
    assert q in s.threads[t].owned && Accounted(s, map[], q) == Pressure(s, q);
  }

  lemma OneWaiter(s: State, s': State, q: Qid, owner: Option<Tid>, touched: set<Tid>, r: Qid, w: Tid)
    requires Rebooked(s, s', q, owner, touched) && r in s.queues && s.queues[r].waiters == [w]
    ensures s'.queues[r].waiters == [w]
  {
    assert s'.queues[r].waiters[0] in s'.queues[r].waiters;
  }

  lemma TwoInChain(s: State, t: Tid, u: Tid)
    requires t in s.threads && u in s.threads && t != u && Next(s, t) == Some(u) && (Next(s, u) == None || Next(s, u) == Some(t))
    ensures Chain(s, t) == {t, u}
  {
    assert {} + {t} == {t} && {t} + {u} == {t, u};
    assert ChainFrom(s, u, {t}) == {t, u};
  }

  /** Two states that differ from s in the same way are the same. */
  lemma Pinned(s: State, s1: State, s2: State, q: Qid, owner: Option<Tid>, touched: set<Tid>)
    requires Rebooked(s, s1, q, owner, touched) && Rebooked(s, s2, q, owner, touched) && PrioritiesOk(s1) && PrioritiesOk(s2)
    requires forall t :: t in touched && t in s.threads ==> s1.threads[t].inherited == s2.threads[t].inherited
    requires forall r :: r in s.queues ==> s1.queues[r].waiters == s2.queues[r].waiters
    ensures s1 == s2
  {
    forall t | t in s.threads ensures s1.threads[t] == s2.threads[t] {
      assert s1.threads[t].owned == s2.threads[t].owned && s1.threads[t].inherited == s2.threads[t].inherited;
    }
    forall r | r in s.queues ensures s1.queues[r] == s2.queues[r] {
      assert s1.queues[r].owner == s2.queues[r].owner && s1.queues[r].kind == s2.queues[r].kind;
    }
    assert s1.threads == s2.threads && s1.queues == s2.queues;
  }

  // ----- two threads that wait for each other -----

  /** O waits on B, which M owns. */
  function OneWaits(): State {
    State(map[O := Stuck(10, B), W := Free(20), N := Free(5), M := Free(10).(inherited := 10, owned := {B})],
          map[A := Queue(Owned, [], None), B := Queue(Owned, [O], Some(M))])
  }

  /** And M waits on A, which O owns. */
  function BothWait(): State {
    State(map[O := Thread(10, 0, 10, 10, true, Blocked(B), {A}), W := Free(20), N := Free(5),
              M := Thread(10, 0, 10, 10, true, Blocked(A), {B})],
          map[A := Queue(Owned, [M], Some(O)), B := Queue(Owned, [O], Some(M))])
  }

  /** Then W waits on A at 20: both O and M inherit 20 and pass it on to each other. */
  function Deadlock(l: seq<Tid>): State {
    State(map[O := Thread(10, 0, 20, 20, true, Blocked(B), {A}), W := Stuck(20, A), N := Free(5),
              M := Thread(10, 0, 20, 20, true, Blocked(A), {B})],
          map[A := Queue(Owned, l, Some(O)), B := Queue(Owned, [O], Some(M))])
  }

  /** The same after W has timed out. Nothing but the cycle holds O and M at 20 now. */
  function Alone(): State {
    State(map[O := Thread(10, 0, 20, 20, true, Blocked(B), {A}), M := Thread(10, 0, 20, 20, true, Blocked(A), {B}),
              W := Free(20).(boost := 1, effec := 21), N := Free(5)],
          map[A := Queue(Owned, [M], Some(O)), B := Queue(Owned, [O], Some(M))])
  }

  lemma FirstRebooked()
    ensures Rebooked(Enqueue(Apiece(10, 20, 5, 10), B, O), OneWaits(), B, Some(M), {M})
  {
  }

  lemma FirstStage()
    ensures var mid := Enqueue(Apiece(10, 20, 5, 10), B, O);
            && PrioritiesOk(OneWaits()) && Chain(mid, M) == {M}
            && mid.queues.Keys == {A, B} && mid.queues[A].waiters == [] && mid.queues[B].waiters == [O]
            && O in mid.threads && mid.threads[O].effec == 10 && M in mid.threads && mid.threads[M].owned == {}
  {
    assert Next(Enqueue(Apiece(10, 20, 5, 10), B, O), M) == None;
  }

  lemma FirstWait(mid: State, s: State, goal: State)
    requires PrioritiesOk(s) && Inherits(s, map[]) && Live(s, M) && PrioritiesOk(goal)
    requires Rebooked(mid, s, B, Some(M), {M}) && Rebooked(mid, goal, B, Some(M), {M}) && mid.queues.Keys == {A, B}
    requires mid.queues[A].waiters == [] == goal.queues[A].waiters && mid.queues[B].waiters == [O] == goal.queues[B].waiters
    requires O in mid.threads && mid.threads[O].effec == 10 && s.threads[M].owned == {B} && goal.threads[M].inherited == 10
    ensures s == goal
  {
    FirstInherits(mid, s);
    assert mid.threads.Keys == s.threads.Keys && M in mid.threads;
    PinnedM(mid, s, goal);
  }

  lemma PinnedM(mid: State, s: State, goal: State)
    requires Rebooked(mid, s, B, Some(M), {M}) && Rebooked(mid, goal, B, Some(M), {M}) && PrioritiesOk(s) && PrioritiesOk(goal)
    requires M in mid.threads && s.threads[M].inherited == goal.threads[M].inherited && mid.queues.Keys == {A, B}
    requires s.queues[A].waiters == goal.queues[A].waiters && s.queues[B].waiters == goal.queues[B].waiters
    ensures s == goal
  {
    Pinned(mid, s, goal, B, Some(M), {M});
  }

  lemma FirstInherits(mid: State, s: State)
    requires Inherits(s, map[]) && Live(s, M) && Rebooked(mid, s, B, Some(M), {M}) && s.threads[M].owned == {B}
    requires mid.queues.Keys == {A, B} && mid.queues[A].waiters == [] && mid.queues[B].waiters == [O]
    requires O in mid.threads && mid.threads[O].effec == 10
    ensures s.queues[A].waiters == [] && s.queues[B].waiters == [O] && s.threads[M].inherited == 10
  {
    OneWaiter(mid, s, B, Some(M), {M}, B, O);
    assert O != M && s.threads[O].effec == 10;
    OwnsOne(s, M, B);
  }

  /** O owns A and waits on B, M owns B: if the pressure of A is p, both inherit p. */
  lemma BothInherit(mid: State, s: State, goal: State, p: int)
    requires WellFormed(s) && Inherits(s, map[]) && Live(s, O) && Live(s, M)
    requires Rebooked(mid, s, A, Some(O), {O, M}) && Rebooked(mid, goal, A, Some(O), {O, M}) && PrioritiesOk(goal)
    requires mid.queues.Keys == {A, B} && mid.queues[B].waiters == goal.queues[B].waiters == [O]
    requires s.threads[O].owned == {A} && s.threads[M].owned == {B} && s.threads[O].base + s.threads[O].boost <= p
    requires goal.threads[O].inherited == p == goal.threads[M].inherited
    requires s.queues[A].waiters == goal.queues[A].waiters && Pressure(s, A) == p >= 0
    ensures s == goal
  {
    OneWaiter(mid, s, A, Some(O), {O, M}, B, O);
    OwnsOne(s, O, A);
    OwnsOne(s, M, B);
    PinnedPair(mid, s, goal);
  }

  lemma PinnedPair(mid: State, s: State, goal: State)
    requires Rebooked(mid, s, A, Some(O), {O, M}) && Rebooked(mid, goal, A, Some(O), {O, M}) && PrioritiesOk(s) && PrioritiesOk(goal)
    requires O in mid.threads && M in mid.threads && mid.queues.Keys == {A, B}
    requires s.threads[O].inherited == goal.threads[O].inherited && s.threads[M].inherited == goal.threads[M].inherited
    requires s.queues[A].waiters == goal.queues[A].waiters && s.queues[B].waiters == goal.queues[B].waiters
    ensures s == goal
  {
    Pinned(mid, s, goal, A, Some(O), {O, M});
  }

  /** What the three states of a step have to do with each other. */
  ghost predicate Stage(mid: State, goal: State, p: int) {
    && Rebooked(mid, goal, A, Some(O), {O, M}) && PrioritiesOk(goal) && Chain(mid, O) == {O, M}
    && mid.queues.Keys == {A, B} && mid.queues[B].waiters == goal.queues[B].waiters == [O] && Pressure(mid, A) == p
    && O in mid.threads && mid.threads[O].status == Blocked(B) && mid.threads[O].base == 10 && mid.threads[O].boost == 0
    && M in mid.threads && mid.threads[M].status == Blocked(A) && mid.threads[M].base == 10 && mid.threads[M].boost == 0
    && mid.threads[M].effec == 10 && goal.threads[O].owned == {A} && goal.threads[M].owned == {B}
    && goal.threads[O].inherited == p == goal.threads[M].inherited
  }

  lemma SecondStage()
    ensures var mid := Enqueue(OneWaits(), A, M); Stage(mid, BothWait(), 10) && mid.queues[A].waiters == [M] && OwnerOf(mid, A).None?
    ensures BothWait().queues[A].waiters == [M]
  {
    SecondRebooked();
    TwoInChain(Enqueue(OneWaits(), A, M), O, M);
  }

  lemma SecondRebooked()
    ensures Rebooked(Enqueue(OneWaits(), A, M), BothWait(), A, Some(O), {O, M})
  {
  }

  lemma SecondWait(mid: State, s: State, goal: State)
    requires WellFormed(s) && Inherits(s, map[]) && Stage(mid, goal, 10) && mid.queues[A].waiters == [M] == goal.queues[A].waiters
    requires Rebooked(mid, s, A, Some(O), {O, M}) && GivenTo(mid, s, A, Some(O))
    ensures s == goal
  {
    OneWaiter(mid, s, A, Some(O), {O, M}, A, M);
    assert ThreadMoved(Take(mid, A, O).threads[M], s.threads[M], true, 10);
    BothInherit(mid, s, goal, 10);
  }

  lemma ThirdStage(l: seq<Tid>)
    requires l == [W, M] || l == [M, W]
    ensures var mid := Enqueue(BothWait(), A, W);
            && Stage(mid, Deadlock(l), 20) && mid.queues[A].waiters == [W, M] && OwnerOf(mid, A) == Some(O)
            && W in mid.threads && mid.threads[W].effec == 20
  {
    ThirdRebooked(l);
    TwoInChain(Enqueue(BothWait(), A, W), O, M);
  }

  lemma ThirdRebooked(l: seq<Tid>)
    requires l == [W, M] || l == [M, W]
    ensures Rebooked(Enqueue(BothWait(), A, W), Deadlock(l), A, Some(O), {O, M})
  {
  }

  lemma ThirdWait(mid: State, s: State, goal: State, goal': State)
    requires WellFormed(s) && Inherits(s, map[]) && Stage(mid, goal, 20) && Stage(mid, goal', 20)
    requires mid.queues[A].waiters == goal.queues[A].waiters == [W, M] && goal'.queues[A].waiters == [M, W]
    requires OwnerOf(mid, A) == Some(O) && W in mid.threads && mid.threads[W].effec == 20
    requires Rebooked(mid, s, A, Some(O), {O, M}) && Settled(mid, s, A, 10, {O, M}, true)
    ensures s == goal || s == goal'
  {
    TwoWaiters(mid, s, A, Some(O), {O, M});
    PressureIsMax(s, A);
    assert ThreadMoved(mid.threads[M], s.threads[M], true, 20);
    assert W != O && W != M && W in s.queues[A].waiters;
    BothInherit(mid, s, if s.queues[A].waiters == [W, M] then goal else goal', 20);
  }

  lemma TwoWaiters(s: State, s': State, q: Qid, owner: Option<Tid>, touched: set<Tid>)
    requires WaitersOk(s') && Rebooked(s, s', q, owner, touched) && q in s.queues && s.queues[q].waiters == [W, M]
    ensures s'.queues[q].waiters == [W, M] || s'.queues[q].waiters == [M, W]
  {
    var l := s'.queues[q].waiters;
    assert l[0] in l && l[1] in l && l == [l[0], l[1]];
  }

  method WaitForEachOther() returns (k: WaitQueues)
    ensures fresh(k) && WellFormed(k.S()) && Inherits(k.S(), map[])
    ensures k.S() == Deadlock([W, M]) || k.S() == Deadlock([M, W])
  {
    k := Setup(10, 20, 5, 10);
    BlockFirst(k);
    BlockSecond(k);
    BlockThird(k);
  }

  method BlockFirst(k: WaitQueues)
    requires k.S() == Apiece(10, 20, 5, 10) && WellFormed(k.S()) && Inherits(k.S(), map[])
    modifies k
    ensures k.S() == OneWaits() && WellFormed(k.S()) && Inherits(k.S(), map[])
  {
    FirstStage();
    FirstRebooked();
    k.BlockAndAssignOwner(B, O, Some(M), true);
    FirstWait(Enqueue(Apiece(10, 20, 5, 10), B, O), k.S(), OneWaits());
  }

  method BlockSecond(k: WaitQueues)
    requires k.S() == OneWaits() && WellFormed(k.S()) && Inherits(k.S(), map[])
    modifies k
    ensures k.S() == BothWait() && WellFormed(k.S()) && Inherits(k.S(), map[])
  {
    ghost var mid := Enqueue(OneWaits(), A, M);
    SecondStage();
    k.BlockAndAssignOwner(A, M, Some(O), true);
    SecondWait(mid, k.S(), BothWait());
  }

  method BlockThird(k: WaitQueues)
    requires k.S() == BothWait() && WellFormed(k.S()) && Inherits(k.S(), map[])
    modifies k
    ensures WellFormed(k.S()) && Inherits(k.S(), map[])
    ensures k.S() == Deadlock([W, M]) || k.S() == Deadlock([M, W])
  {
    ThirdStage([W, M]);
    ThirdStage([M, W]);
    k.BlockAndAssignOwner(A, W, Some(O), true);
    ThirdWait(Enqueue(BothWait(), A, W), k.S(), Deadlock([W, M]), Deadlock([M, W]));
  }

  lemma OnlyMLeft(l: seq<Tid>)
    requires l == [W, M] || l == [M, W]
    ensures Without(l, W) == [M]
  {
    assert l[1..] == [l[1]] && [W][1..] == [];
    WithoutMembers([M], W);
  }

  /** W has left but not been boosted yet. */
  function WakingUp(): State {
    State(Alone().threads[W := Free(20)], Alone().queues)
  }

  lemma StepsOut(l: seq<Tid>)
    requires l == [W, M] || l == [M, W]
    ensures Dequeue(Deadlock(l), A, W, 0) == WakingUp()
  {
    OnlyMLeft(l);
    var s := Dequeue(Deadlock(l), A, W, 0);
    assert s.threads == WakingUp().threads;
    assert s.queues == WakingUp().queues;
  }

  lemma PressureStays(l: seq<Tid>)
    requires l == [W, M] || l == [M, W]
    ensures Pressure(Deadlock(l), A) == 20 == Pressure(WakingUp(), A)
  {
  }

  /** What the timeout of W makes of it. */
  lemma TimesOut(l: seq<Tid>)
    requires l == [W, M] || l == [M, W]
    ensures var mid := Dequeue(Deadlock(l), A, W, 0);
            && Pressure(Deadlock(l), A) == Pressure(mid, A) == 20 && BoostUp(mid.threads[W]) == 1
            && Reprioritise(mid, W, 20, 1, -1) == Alone()
  {
    StepsOut(l);
    PressureStays(l);
    assert WakingUp().threads[W] == Free(20);
  }

  /** Giving A to N: the pressure of A rests on A itself, so that it is gone by the time N is
      made to inherit it. */
  lemma AloneLoses()
    ensures SampleLost(Alone(), A, 20, Some(N)) && Pressure(Alone(), A) == 20
  {
    var s := Alone();
    AloneBehind();
    var c := Behind(s, A);
    assert WaitsOn(s, M, A) && M in c;
    assert Pressure(s, B) == 20;
    assert Fed(s, c, B) by { assert O in c && WaitsOn(s, O, B); }
    assert Held(s, A, 20, c, O) && Held(s, A, 20, c, M);
    assert !FeedsAt(s, A, N, N);
  }

  lemma AloneBehind()
    ensures Behind(Alone(), A) == {O, M} && Chain(Release(Alone(), A), N) == {N}
  {
    var r := Release(Alone(), A);
    assert Next(r, O) == Some(M) && Next(r, M) == None && Next(r, N) == None;
    assert ChainFrom(r, M, {O}) == {O, M};
  }

  /** The run: W times out, then A is given to N, which keeps a priority nobody gives it. */
  method SampleGoesStale() returns (w: WaitQueues)
    ensures fresh(w) && WellFormed(w.S()) && !Inherits(w.S(), map[])
  {
    w := WaitForEachOther();
    TimesOut([W, M]);
    TimesOut([M, W]);
    LeaveUnnoticed(w, W, A, w.S(), Alone());
    AloneLoses();
    GiveAway(w, A, N, Alone());
  }

  /** A timeout that does not change the pressure of the queue. */
  method LeaveUnnoticed(w: WaitQueues, t: Tid, q: Qid, ghost s: State, ghost s': State)
    requires w.S() == s && WellFormed(s) && Inherits(s, map[]) && t in s.threads && s.threads[t].status == Blocked(q) && q in s.queues
    requires var mid := Dequeue(s, q, t, s.threads[t].boost);
             && Pressure(mid, q) == Pressure(s, q)
             && s' == Reprioritise(mid, t, mid.threads[t].base, BoostUp(mid.threads[t]), mid.threads[t].inherited)
    modifies w
    ensures w.S() == s' && WellFormed(s') && Inherits(s', map[])
  {
    var ok, mid, half := w.UnblockThread(t);
  }

  method GiveAway(w: WaitQueues, q: Qid, n: Tid, ghost s: State)
    requires w.S() == s && WellFormed(s) && Inherits(s, map[]) && q in s.queues && s.queues[q].kind.Owned? && Live(s, n)
    requires SampleLost(s, q, Pressure(s, q), Some(n))
    modifies w
    ensures WellFormed(w.S()) && !Inherits(w.S(), map[])
  {
    w.AssignOwner(q, Some(n));
  }

  // ----- one owner for both queues of a requeue -----

  lemma OwnsBoth(s: State, t: Tid)
    requires Inherits(s, map[]) && Live(s, t) && s.threads[t].owned == {A, B}
    ensures s.threads[t].inherited == Max(Max(Pressure(s, A), Pressure(s, B)), -1)
  {
    assert A in s.threads[t].owned && Accounted(s, map[], A) == Pressure(s, A);
    assert B in s.threads[t].owned && Accounted(s, map[], B) == Pressure(s, B);
  }

  lemma PinnedOne(mid: State, s: State, goal: State, q: Qid)
    requires Rebooked(mid, s, q, Some(O), {O}) && Rebooked(mid, goal, q, Some(O), {O}) && PrioritiesOk(s) && PrioritiesOk(goal)
    requires O in mid.threads && s.threads[O].inherited == goal.threads[O].inherited && mid.queues.Keys == {A, B}
    requires s.queues[A].waiters == goal.queues[A].waiters && s.queues[B].waiters == goal.queues[B].waiters
    ensures s == goal
  {
    Pinned(mid, s, goal, q, Some(O), {O});
  }

  /** W waits at 20 on A, which O owns. */
  function WaitedFor(o: int): State {
    State(map[O := Thread(o, 0, 20, 20, true, Active, {A}), W := Stuck(20, A), N := Free(5), M := Free(10)],
          map[A := Queue(Owned, [W], Some(O)), B := Queue(Owned, [], None)])
  }

  lemma WaitedRebooked(o: int)
    requires 0 <= o <= 20
    ensures Rebooked(Enqueue(Apiece(o, 20, 5, 10), A, W), WaitedFor(o), A, Some(O), {O})
  {
  }

  lemma WaitedStage(o: int)
    requires 0 <= o <= 20
    ensures var mid := Enqueue(Apiece(o, 20, 5, 10), A, W);
            && PrioritiesOk(WaitedFor(o)) && Chain(mid, O) == {O}
            && mid.queues.Keys == {A, B} && mid.queues[A].waiters == [W] && mid.queues[B].waiters == []
            && W in mid.threads && mid.threads[W].effec == 20 && O in mid.threads && mid.threads[O].owned == {}
  {
    assert Next(Enqueue(Apiece(o, 20, 5, 10), A, W), O) == None;
  }

  lemma WaitedOutcome(mid: State, s: State, goal: State)
    requires PrioritiesOk(s) && Inherits(s, map[]) && Live(s, O) && PrioritiesOk(goal)
    requires Rebooked(mid, s, A, Some(O), {O}) && Rebooked(mid, goal, A, Some(O), {O})
    requires mid.queues.Keys == {A, B} && mid.queues[A].waiters == [W] && mid.queues[B].waiters == []
    requires W in mid.threads && mid.threads[W].effec == 20 && mid.threads[O].owned == {}
    requires goal.threads[O].inherited == 20 && goal.queues[A].waiters == [W] && goal.queues[B].waiters == []
    ensures s == goal
  {
    WaitedInherits(mid, s);
    PinnedOne(mid, s, goal, A);
  }

  lemma WaitedInherits(mid: State, s: State)
    requires Inherits(s, map[]) && Live(s, O) && Rebooked(mid, s, A, Some(O), {O})
    requires mid.queues.Keys == {A, B} && mid.queues[A].waiters == [W] && mid.queues[B].waiters == []
    requires W in mid.threads && mid.threads[W].effec == 20 && mid.threads[O].owned == {}
    ensures s.queues[A].waiters == [W] && s.queues[B].waiters == [] && s.threads[O].inherited == 20
  {
    OneWaiter(mid, s, A, Some(O), {O}, A, W);
    assert W != O && s.threads[W].effec == 20;
    OwnsOne(s, O, A);
  }

  method WaitForOwner(o: int) returns (k: WaitQueues)
    requires 0 <= o <= 20
    ensures fresh(k) && k.S() == WaitedFor(o) && WellFormed(k.S()) && Inherits(k.S(), map[])
  {
    k := Setup(o, 20, 5, 10);
    WaitedStage(o);
    WaitedRebooked(o);
    k.BlockAndAssignOwner(A, W, Some(O), true);
    WaitedOutcome(Enqueue(Apiece(o, 20, 5, 10), A, W), k.S(), WaitedFor(o));
  }

  /** O owns A, where W waits at 20, and B, where nobody waits. */
  function SharedOwner(): State {
    State(map[O := Thread(10, 0, 20, 20, true, Active, {A, B}), W := Stuck(20, A), N := Free(5), M := Free(10)],
          map[A := Queue(Owned, [W], Some(O)), B := Queue(Owned, [], Some(O))])
  }

  lemma SharedRebooked()
    ensures Rebooked(WaitedFor(10), SharedOwner(), B, Some(O), {O})
  {
  }

  lemma SharedStage()
    ensures var mid := WaitedFor(10);
            && Chain(mid, O) == {O}
            && mid.queues.Keys == {A, B} && mid.queues[A].waiters == [W] && mid.queues[B].waiters == []
            && W in mid.threads && mid.threads[W].effec == 20 && Live(mid, O) && mid.threads[O].owned == {A}
    ensures SharedOwner().threads[O].inherited == 20 && SharedOwner().queues[A].waiters == [W] && SharedOwner().queues[B].waiters == []
  {
    assert Next(WaitedFor(10), O) == None;
  }

  lemma SharedOutcome(mid: State, s: State, goal: State)
    requires PrioritiesOk(s) && Inherits(s, map[]) && Live(s, O) && PrioritiesOk(goal)
    requires Rebooked(mid, s, B, Some(O), {O}) && Rebooked(mid, goal, B, Some(O), {O})
    requires mid.queues.Keys == {A, B} && mid.queues[A].waiters == [W] && mid.queues[B].waiters == []
    requires W in mid.threads && mid.threads[W].effec == 20 && mid.threads[O].owned == {A}
    requires goal.threads[O].inherited == 20 && goal.queues[A].waiters == [W] && goal.queues[B].waiters == []
    ensures s == goal
  {
    SharedInherits(mid, s);
    PinnedOne(mid, s, goal, B);
  }

  lemma SharedInherits(mid: State, s: State)
    requires Inherits(s, map[]) && Live(s, O) && Rebooked(mid, s, B, Some(O), {O})
    requires mid.queues.Keys == {A, B} && mid.queues[A].waiters == [W] && mid.queues[B].waiters == []
    requires W in mid.threads && mid.threads[W].effec == 20 && mid.threads[O].owned == {A}
    ensures s.queues[A].waiters == [W] && s.queues[B].waiters == [] && s.threads[O].inherited == 20
  {
    OneWaiter(mid, s, B, Some(O), {O}, A, W);
    assert W != O && s.threads[W].effec == 20;
    OwnsBoth(s, O);
  }

  /** The state is one the operations lead to. */
  method ShareOwner() returns (k: WaitQueues)
    ensures fresh(k) && k.S() == SharedOwner() && WellFormed(k.S()) && Inherits(k.S(), map[])
  {
    k := WaitForOwner(10);
    SharedStage();
    SharedRebooked();
    SharedOwnerOwns();
    GiveB(k, WaitedFor(10), SharedOwner());
  }

  method GiveB(k: WaitQueues, ghost s: State, ghost goal: State)
    requires k.S() == s && WellFormed(s) && Inherits(s, map[]) && s.queues.Keys == {A, B} && s.queues[B] == Queue(Owned, [], None)
    requires Live(s, O) && Chain(s, O) == {O} && s.threads[O].owned == {A}
    requires s.queues[A].waiters == [W] && W in s.threads && s.threads[W].effec == 20
    requires Rebooked(s, goal, B, Some(O), {O}) && PrioritiesOk(goal)
    requires goal.threads[O].inherited == 20 && goal.queues[A].waiters == [W] && goal.queues[B].waiters == []
    modifies k
    ensures k.S() == goal && WellFormed(k.S()) && Inherits(k.S(), map[])
  {
    AssignB(k, s);
    SharedOutcome(s, k.S(), goal);
  }

  method AssignB(k: WaitQueues, ghost s: State)
    requires k.S() == s && WellFormed(s) && Inherits(s, map[]) && B in s.queues && s.queues[B] == Queue(Owned, [], None)
    requires Live(s, O) && Chain(s, O) == {O}
    modifies k
    ensures WellFormed(k.S()) && Inherits(k.S(), map[]) && Rebooked(s, k.S(), B, Some(O), {O})
  {
    assert {} + {O} == {O};
    k.AssignOwner(B, Some(O));
  }

  lemma SharedOwnerOwns()
    ensures OwnersOk(SharedOwner()) && PrioritiesOk(SharedOwner())
  {
  }

  lemma SharedOwnerOk()
    ensures WellFormed(SharedOwner()) && NoCycleThrough(SharedOwner(), A) && NoCycleThrough(SharedOwner(), B)
  {
    var s := SharedOwner();
    assert Chain(s, O) == {O};
    SharedOwnerOwns();
    QueueInOrder(s, A);
    QueueInOrder(s, B);
    TwoQueuesOk(s);
  }

  lemma QueueInOrder(s: State, q: Qid)
    requires q in s.queues && |s.queues[q].waiters| <= 1
    requires forall w :: w in s.queues[q].waiters ==> w in s.threads && s.threads[w].status == Blocked(q)
    requires forall w :: w in s.threads && s.threads[w].status == Blocked(q) ==> w in s.queues[q].waiters
    ensures QueueOk(s, q)
  {
  }

  lemma TwoQueuesOk(s: State)
    requires PrioritiesOk(s) && OwnersOk(s) && s.queues.Keys == {A, B} && QueueOk(s, A) && QueueOk(s, B)
    requires forall t :: t in s.threads && s.threads[t].status.Blocked? ==> s.threads[t].status.queue in {A, B}
    ensures WellFormed(s)
  {
    QueuesOk(s);
  }

  lemma SharedOwnerInherits()
    ensures Inherits(SharedOwner(), map[])
  {
    var s := SharedOwner();
    assert Accounted(s, map[], A) == 20 && Accounted(s, map[], B) == -1;
    assert IsMax(s, map[], {A, B}, 20) && IsMax(s, map[], {}, -1);
    forall t | Live(s, t) ensures IsMax(s, map[], s.threads[t].owned, s.threads[t].inherited) {
      assert t == O || t == N || t == W || t == M;
    }
  }

  /** W has moved to B. */
  function Requeued(): (s: State)
    ensures s == Move(SharedOwner(), A, B, W)
  {
    assert Without([W], W) == [] by { assert [W][1..] == []; }
    State(SharedOwner().threads[W := Stuck(20, B)],
          map[A := Queue(Owned, [], Some(O)), B := Queue(Owned, [W], Some(O))])
  }

  /** Requeueing W from A to B while B goes to N. Booking A finds the maximum at O
      unchanged, because W already counts through B; booking B then releases it with
      the sampled pressure -1, which is not propagated. O keeps 20 and owns nothing. */
  lemma SharedOwnerKeepsBoost()
    ensures var s := SharedOwner();
            && WellFormed(s) && Inherits(s, map[]) && NoCycleThrough(s, A) && NoCycleThrough(s, B)
            && Pressure(s, B) == -1
            && var s1 := Release(Move(s, A, B, W), A);
            && IsMax(s1, map[], s1.threads[O].owned, s1.threads[O].inherited)
            && var s2 := Release(s1, B);
            && Live(s2, O) && !IsMax(s2, map[], s2.threads[O].owned, s2.threads[O].inherited)
  {
    SharedOwnerOk();
    SharedOwnerInherits();
    var s1 := Release(Requeued(), A);
    assert s1.threads[O].owned == {B} && Accounted(s1, map[], B) == 20;
    assert Release(s1, B).threads[O].owned == {};
  }

  // ----- an assertion that is too strong -----

  /** O owns A, whose pressure just fell from 20 to 10, and B with pressure 5. */
  function TwoQueues(): State {
    State(map[O := Thread(1, 0, 20, 20, true, Active, {A, B}), W := Stuck(10, A), N := Stuck(5, B), M := Free(10)],
          map[A := Queue(Owned, [W], Some(O)), B := Queue(Owned, [N], Some(O))])
  }

  /** The same before the priority of W changed. */
  function TwoWait(): State {
    State(TwoQueues().threads[W := Stuck(20, A)], TwoQueues().queues)
  }

  lemma TwoWaitRebooked()
    ensures Rebooked(Enqueue(WaitedFor(1), B, N), TwoWait(), B, Some(O), {O})
  {
  }

  lemma TwoWaitPriorities()
    ensures PrioritiesOk(TwoWait())
  {
  }

  lemma TwoWaitStage()
    ensures var mid := Enqueue(WaitedFor(1), B, N);
            && Chain(mid, O) == {O}
            && mid.queues.Keys == {A, B} && mid.queues[A].waiters == [W] && mid.queues[B].waiters == [N]
            && W in mid.threads && mid.threads[W].effec == 20 && N in mid.threads && mid.threads[N].effec == 5
            && O in mid.threads && mid.threads[O].owned == {A}
  {
    assert Next(Enqueue(WaitedFor(1), B, N), O) == None;
  }

  lemma TwoWaitOutcome(mid: State, s: State, goal: State)
    requires PrioritiesOk(s) && Inherits(s, map[]) && Live(s, O) && PrioritiesOk(goal)
    requires Rebooked(mid, s, B, Some(O), {O}) && Rebooked(mid, goal, B, Some(O), {O})
    requires mid.queues.Keys == {A, B} && mid.queues[A].waiters == [W] && mid.queues[B].waiters == [N]
    requires W in mid.threads && mid.threads[W].effec == 20 && N in mid.threads && mid.threads[N].effec == 5
    requires mid.threads[O].owned == {A}
    requires goal.threads[O].inherited == 20 && goal.queues[A].waiters == [W] && goal.queues[B].waiters == [N]
    ensures s == goal
  {
    TwoWaitInherits(mid, s);
    PinnedOne(mid, s, goal, B);
  }

  lemma TwoWaitInherits(mid: State, s: State)
    requires Inherits(s, map[]) && Live(s, O) && Rebooked(mid, s, B, Some(O), {O})
    requires mid.queues.Keys == {A, B} && mid.queues[A].waiters == [W] && mid.queues[B].waiters == [N]
    requires W in mid.threads && mid.threads[W].effec == 20 && N in mid.threads && mid.threads[N].effec == 5
    requires mid.threads[O].owned == {A}
    ensures s.queues[A].waiters == [W] && s.queues[B].waiters == [N] && s.threads[O].inherited == 20
  {
    OneWaiter(mid, s, B, Some(O), {O}, A, W);
    OneWaiter(mid, s, B, Some(O), {O}, B, N);
    assert W != O && N != O && s.threads[W].effec == 20 && s.threads[N].effec == 5;
    OwnsBoth(s, O);
  }

  method MakeTwoWait() returns (k: WaitQueues)
    ensures fresh(k) && k.S() == TwoWait() && WellFormed(k.S()) && Inherits(k.S(), map[])
  {
    k := WaitForOwner(1);
    TwoWaitStage();
    TwoWaitPriorities();
    TwoWaitRebooked();
    k.BlockAndAssignOwner(B, N, Some(O), true);
    TwoWaitOutcome(Enqueue(WaitedFor(1), B, N), k.S(), TwoWait());
  }

  lemma PriorityFalls()
    ensures Reprioritise(TwoWait(), W, 10, 0, -1) == TwoQueues() && Pressure(TwoWait(), A) == 20
    ensures Left(TwoWait(), map[], W) == map[A := 20]
  {
    assert Without([W], W) == [] by { assert [W][1..] == []; }
  }

  lemma TwoQueuesFacts()
    ensures var s := TwoQueues();
            && A in s.queues && s.queues[A].owner == Some(O) && Pressure(s, A) == 10 && Pressure(s, B) == 5
            && O in s.threads && s.threads[O].inherited == 20 && B in s.threads[O].owned
  {
  }

  lemma TwoQueuesOffBy(s: State)
    requires WellFormed(s) && Inherits(s, map[A := 20]) && A in s.queues && s.queues[A].owner == Some(O)
    ensures OffBy(s, map[], O, A, 20, Pressure(s, A))
  {
    assert map[][A := 20] == map[A := 20];
    HandOver(s, map[], O, A, 20);
  }

  /** The priority of W falls from 20 to 10, and QueuePressureChanged is entered as it should
      be. Yet the new pressure of A is above that of another queue O owns, which the loop
      asserts to be impossible. */
  method OwnedQueueBelowNewPressure() returns (k: WaitQueues)
    ensures fresh(k) && WellFormed(k.S()) && OffBy(k.S(), map[], O, A, 20, Pressure(k.S(), A)) && Pressure(k.S(), A) < 20
    ensures k.threads[O].inherited == 20 && B in k.threads[O].owned && Pressure(k.S(), B) < Pressure(k.S(), A)
  {
    k := MakeTwoWait();
    PriorityFalls();
    k.Reprice(W, 10, 0);
    TwoQueuesFacts();
    TwoQueuesOffBy(k.S());
  }
}
