/** UpdateBookkeeping samples the pressure of a queue before its old owner releases it. When
    the release lowers that pressure, and when that matters to the new owner. */
module SampledPressure {
  import opened PriorityList
  import opened WaitGraph
  import opened Propagation
  import opened Ownership
  import opened Waiting

  // ----- chains as paths -----

  /** The i-th thread of path waits for the one after it. */
  predicate Link(s: State, path: seq<Tid>, i: int)
    requires 0 <= i < |path| - 1
  {
    Next(s, path[i]) == Some(path[i + 1])
  }

  /** path follows owners from t on, never coming back. */
  ghost predicate Path(s: State, t: Tid, path: seq<Tid>) {
    && path != [] && path[0] == t && Distinct(path)
    && forall i {:trigger Link(s, path, i)} :: 0 <= i < |path| - 1 ==> Link(s, path, i)
  }

  /** A chain that holds a thread which waits for nobody is a path that ends there. */
  lemma {:induction false} ChainPath(s: State, t: Tid, seen: set<Tid>, w: Tid) returns (path: seq<Tid>)
    requires w in ChainFrom(s, t, seen) && w !in seen && Next(s, w).None?
    requires t !in seen && t in s.threads
    ensures Path(s, t, path) && path[|path| - 1] == w
    ensures forall u :: u in path ==> u !in seen
    ensures forall u :: u in ChainFrom(s, t, seen) <==> u in seen || u in path
    decreases s.threads.Keys - seen
  {
    if Next(s, t).None? {
      path := [t];
    } else {
      var n := Next(s, t).value;
      var rest := ChainPath(s, n, seen + {t}, w);
      path := [t] + rest;
      forall i | 0 <= i < |path| - 1 ensures Link(s, path, i) {
        assert i == 0 || Link(s, rest, i - 1);
      }
    }
  }

  /** Whoever comes later on a path is in the chain. */
  lemma {:induction false} PathInChain(s: State, t: Tid, path: seq<Tid>, i: int, j: int)
    requires WellFormed(s) && Path(s, t, path) && 0 <= i <= j < |path| && path[i] in s.threads
    ensures path[j] in Chain(s, path[i])
    decreases j
  {
    ChainClosed(s, path[i]);
    if i < j {
      PathInChain(s, t, path, i, j - 1);
      assert Link(s, path, j - 1);
    }
  }

  lemma {:induction false} ChainSame(s: State, s': State, t: Tid, seen: set<Tid>)
    requires s.threads.Keys == s'.threads.Keys && forall u :: Next(s', u) == Next(s, u)
    ensures ChainFrom(s', t, seen) == ChainFrom(s, t, seen)
    decreases s.threads.Keys - seen
  {
    if t !in seen && t in s.threads && Next(s, t).Some? {
      ChainSame(s, s', Next(s, t).value, seen + {t});
    }
  }

  // ----- when a release lowers the pressure -----

  /** The chain of the owner of q once it has let q go. */
  function Behind(s: State, q: Qid): set<Tid>
    requires q in s.queues && s.queues[q].owner.Some? && s.queues[q].owner.value in s.threads
  {
    Chain(Release(s, q), s.queues[q].owner.value)
  }

  predicate WaitsOn(s: State, t: Tid, q: Qid) {
    t in s.threads && s.threads[t].status == Blocked(q)
  }

  /** Somebody of c waits on y. */
  ghost predicate Fed(s: State, c: set<Tid>, y: Qid) {
    exists u :: u in c && WaitsOn(s, u, y)
  }

  /** t of the set c is held at p by nothing but q and queues on which others of c wait, and
      nobody else at p waits where t does. */
  ghost predicate Held(s: State, q: Qid, p: int, c: set<Tid>, t: Tid) {
    && t in s.threads && s.threads[t].base + s.threads[t].boost < p
    && (forall y :: y in s.threads[t].owned && Pressure(s, y) >= p ==> y == q || Fed(s, c, y))
    && (forall w :: w in s.threads && w != t && s.threads[w].status.Blocked? && s.threads[w].status == s.threads[t].status ==>
          s.threads[w].effec < p)
  }

  /** The pressure p of q rests on q itself: its owner waits, through others, on q, and
      nobody on the way has p from anywhere else. */
  ghost predicate Rests(s: State, q: Qid, p: int)
    requires q in s.queues && s.queues[q].owner.Some? && s.queues[q].owner.value in s.threads
  {
    && (exists w :: w in Behind(s, q) && WaitsOn(s, w, q))
    && forall t {:trigger Held(s, q, p, Behind(s, q), t)} :: t in Behind(s, q) ==> Held(s, q, p, Behind(s, q), t)
  }

  /** s' is s after q has been released and the release has been booked. */
  ghost predicate Released(s: State, s': State, q: Qid, p: int) {
    && WellFormed(s) && WellFormed(s') && Inherits(s', map[])
    && q in s.queues && s.queues[q].owner.Some? && s.queues[q].owner.value in s.threads
    && Rebooked(s, s', q, None, Behind(s, q)) && Lowered(s, s', p)
  }

  /** What of it matters for who holds whom. */
  ghost predicate Calmer(s: State, s': State, q: Qid) {
    && s.threads.Keys == s'.threads.Keys && s.queues.Keys == s'.queues.Keys
    && (forall t :: t in s.threads ==>
          && s'.threads[t].status == s.threads[t].status && s'.threads[t].owned == s.threads[t].owned - {q}
          && s'.threads[t].base == s.threads[t].base && s'.threads[t].boost == s.threads[t].boost
          && s'.threads[t].effec <= s.threads[t].effec)
    && (forall y :: y in s.queues ==> s'.queues[y].owner == if y == q then None else s.queues[y].owner)
  }

  lemma ReleasedCalmer(s: State, s': State, q: Qid, p: int)
    requires Released(s, s', q, p)
    ensures Calmer(s, s', q)
  {
  }

  lemma ReleaseCalmer(s: State, q: Qid)
    requires WellFormed(s) && q in s.queues && s.queues[q].owner.Some? && s.queues[q].owner.value in s.threads
    ensures WellFormed(Release(s, q)) && Calmer(s, Release(s, q), q)
  {
    ReleaseOk(s, q);
    ReleaseRebooks(s, q);
  }

  /** Those who waited on q wait for nobody now. */
  lemma CalmerNext(s: State, s': State, q: Qid)
    requires Calmer(s, s', q)
    ensures forall t :: Next(s', t) == if WaitsOn(s, t, q) then None else Next(s, t)
  {
  }

  lemma BehindAfter(s: State, s': State, q: Qid)
    requires WellFormed(s) && q in s.queues && s.queues[q].owner.Some? && s.queues[q].owner.value in s.threads
    requires Calmer(s, s', q)
    ensures forall t :: Chain(Release(s, q), t) == Chain(s', t)
  {
    ReleaseCalmer(s, q);
    CalmerNext(s, s', q);
    CalmerNext(s, Release(s, q), q);
    forall t ensures Chain(Release(s, q), t) == Chain(s', t) {
      ChainSame(s', Release(s, q), t, {});
    }
  }

  /** A queue at whose head nobody stands at p any more. */
  lemma PressureBelow(s: State, y: Qid, p: int)
    requires WellFormed(s) && y in s.queues && p >= 0
    requires forall w :: WaitsOn(s, w, y) ==> s.threads[w].effec < p
    ensures Pressure(s, y) < p
  {
    PressureIsMax(s, y);
  }

  /** Waiters stay, and do not rise. */
  lemma PressureLowers(s: State, s': State, q: Qid, y: Qid)
    requires WellFormed(s) && WellFormed(s') && Calmer(s, s', q) && y in s.queues
    ensures Pressure(s', y) <= Pressure(s, y)
  {
    PressureIsMax(s, y);
    PressureIsMax(s', y);
    var l := s'.queues[y].waiters;
    if l != [] {
      assert s.threads[l[0]].status.queue == y;
      assert l[0] in s.queues[y].waiters;
    }
  }

  lemma InheritedBelow(s: State, t: Tid, p: int)
    requires Inherits(s, map[]) && Live(s, t) && p >= 0
    requires forall y :: y in s.threads[t].owned ==> Pressure(s, y) < p
    ensures s.threads[t].inherited < p
  {
    var m := s.threads[t].inherited;
    if m != -1 {
      var y :| y in s.threads[t].owned && Accounted(s, map[], y) == m;
      assert Accounted(s, map[], y) == Pressure(s, y);
    }
  }

  predicate Member(c: set<Tid>, path: seq<Tid>, i: int)
    requires 0 <= i < |path|
  {
    path[i] in c
  }

  /** path leads from the owner of q to a thread that waits on q, over all of c. */
  ghost predicate Leads(s: State, s': State, q: Qid, c: set<Tid>, path: seq<Tid>) {
    && path != [] && Path(s', path[0], path) && WaitsOn(s, path[|path| - 1], q)
    && (forall u :: u in c ==> u in path) && (forall i {:trigger Member(c, path, i)} :: 0 <= i < |path| ==> Member(c, path, i))
    && c <= s.threads.Keys
    && q in s.queues && s.queues[q].owner == Some(path[0])
  }

  lemma LeadsLive(s: State, s': State, q: Qid, c: set<Tid>, path: seq<Tid>, i: int)
    requires Calmer(s, s', q) && Leads(s, s', q, c, path) && 0 <= i < |path|
    ensures path[i] in s.threads && Live(s', path[i]) && path[i] in c && s.threads[path[i]].status.Blocked?
  {
    assert Member(c, path, i);
    if i < |path| - 1 {
      assert Link(s', path, i);
    }
  }

  /** On a path there is one thread that waits for the i-th: the one before it. */
  lemma Before(s: State, s': State, q: Qid, c: set<Tid>, path: seq<Tid>, u: Tid, i: int)
    requires Calmer(s, s', q) && Leads(s, s', q, c, path) && u in c && 0 <= i < |path|
    requires s.threads[u].status != Blocked(q) && Next(s, u) == Some(path[i])
    ensures i > 0 && path[i - 1] == u
  {
    CalmerNext(s, s', q);
    var j :| 0 <= j < |path| && path[j] == u;
    assert j < |path| - 1;
    assert Link(s', path, j);
  }

  /** Effective priorities along a path. */
  function Levels(s: State, path: seq<Tid>): seq<int> {
    seq(|path|, i requires 0 <= i < |path| => Prio(s.threads)(path[i]))
  }

  predicate Drops(e: seq<int>, p: int, i: int)
    requires 0 <= i < |e|
  {
    (i > 0 ==> e[i - 1] < p) ==> e[i] < p
  }

  lemma {:induction false} LastDrops(e: seq<int>, p: int, n: int)
    requires 0 <= n < |e| && forall i {:trigger Drops(e, p, i)} :: 0 <= i < |e| ==> Drops(e, p, i)
    ensures e[n] < p
  {
    assert Drops(e, p, n);
    if n > 0 { LastDrops(e, p, n - 1); }
  }

  ghost predicate AllHeld(s: State, q: Qid, p: int, c: set<Tid>) {
    forall t {:trigger Held(s, q, p, c, t)} :: t in c ==> Held(s, q, p, c, t)
  }

  /** If the pressure rests on q, everybody behind falls below p, one after the other. */
  lemma FallsAlong(s: State, s': State, q: Qid, p: int, c: set<Tid>, path: seq<Tid>)
    requires WellFormed(s) && WellFormed(s') && Inherits(s', map[]) && Calmer(s, s', q) && Leads(s, s', q, c, path)
    requires AllHeld(s, q, p, c)
    ensures Prio(s'.threads)(path[|path| - 1]) < p
  {
    var e := Levels(s', path);
    forall i | 0 <= i < |e| ensures Drops(e, p, i) {
      OneDrops(s, s', q, p, c, path, i);
    }
    LastDrops(e, p, |e| - 1);
  }

  lemma OneDrops(s: State, s': State, q: Qid, p: int, c: set<Tid>, path: seq<Tid>, i: int)
    requires WellFormed(s) && WellFormed(s') && Inherits(s', map[]) && Calmer(s, s', q) && Leads(s, s', q, c, path)
    requires AllHeld(s, q, p, c)
    requires 0 <= i < |path|
    ensures Drops(Levels(s', path), p, i)
  {
    if i == 0 || Prio(s'.threads)(path[i - 1]) < p {
      OneFalls(s, s', q, p, c, path, i);
    }
    DropsIf(s', path, p, i);
  }

  lemma DropsIf(s: State, path: seq<Tid>, p: int, i: int)
    requires 0 <= i < |path| && ((i > 0 ==> Prio(s.threads)(path[i - 1]) < p) ==> Prio(s.threads)(path[i]) < p)
    ensures Drops(Levels(s, path), p, i)
  {
  }

  lemma OneFalls(s: State, s': State, q: Qid, p: int, c: set<Tid>, path: seq<Tid>, i: int)
    requires WellFormed(s) && WellFormed(s') && Inherits(s', map[]) && Calmer(s, s', q) && Leads(s, s', q, c, path)
    requires AllHeld(s, q, p, c)
    requires 0 <= i < |path| && (i > 0 ==> Prio(s'.threads)(path[i - 1]) < p)
    ensures path[i] in s'.threads && s'.threads[path[i]].effec < p
  {
    assert Member(c, path, i) && Held(s, q, p, c, path[i]);
    if i > 0 { assert Member(c, path, i - 1) && Held(s, q, p, c, path[i - 1]); }
    LeadsLive(s, s', q, c, path, i);
    forall y | y in s'.threads[path[i]].owned ensures Pressure(s', y) < p {
      OwnedFalls(s, s', q, p, c, path, i, y);
    }
    InheritedBelow(s', path[i], p);
  }

  /** A queue of the i-th thread falls if the thread before it has. */
  lemma OwnedFalls(s: State, s': State, q: Qid, p: int, c: set<Tid>, path: seq<Tid>, i: int, y: Qid)
    requires WellFormed(s) && WellFormed(s') && Calmer(s, s', q) && Leads(s, s', q, c, path) && 0 <= i < |path|
    requires path[i] in s.threads && Held(s, q, p, c, path[i]) && y in s'.threads[path[i]].owned
    requires i > 0 ==> path[i - 1] in s'.threads && s'.threads[path[i - 1]].effec < p && Held(s, q, p, c, path[i - 1])
    ensures Pressure(s', y) < p
  {
    StillOwned(s, s', q, path[i], y);
    PressureLowers(s, s', q, y);
    if Pressure(s, y) >= p {
      var u := HeldBy(s, q, p, c, path[i], y);
      Before(s, s', q, c, path, u, i);
      NobodyElse(s, s', q, p, c, u, y);
    }
  }

  lemma StillOwned(s: State, s': State, q: Qid, t: Tid, y: Qid)
    requires OwnersOk(s) && Calmer(s, s', q) && t in s.threads && y in s'.threads[t].owned
    ensures y in s.threads[t].owned && y != q && y in s.queues && s.queues[y].owner == Some(t)
  {
  }

  lemma HeldBy(s: State, q: Qid, p: int, c: set<Tid>, t: Tid, y: Qid) returns (u: Tid)
    requires Held(s, q, p, c, t) && y in s.threads[t].owned && y != q && Pressure(s, y) >= p
    requires y in s.queues && s.queues[y].owner == Some(t)
    ensures u in c && WaitsOn(s, u, y) && Next(s, u) == Some(t)
  {
    assert Fed(s, c, y);
    u :| u in c && WaitsOn(s, u, y);
  }

  /** u, which waits on y, has fallen; nobody else there was at p. */
  lemma NobodyElse(s: State, s': State, q: Qid, p: int, c: set<Tid>, u: Tid, y: Qid)
    requires WellFormed(s') && PrioritiesOk(s) && Calmer(s, s', q) && Held(s, q, p, c, u) && WaitsOn(s, u, y) && y in s.queues
    requires s'.threads[u].effec < p
    ensures Pressure(s', y) < p
  {
    forall w | WaitsOn(s', w, y) ensures s'.threads[w].effec < p {
      assert w in s.threads && s.threads[w].status == Blocked(y);
    }
    PressureBelow(s', y, p);
  }

  lemma RestsLeads(s: State, s': State, q: Qid, p: int, w: Tid) returns (path: seq<Tid>)
    requires Released(s, s', q, p) && w in Behind(s, q) && WaitsOn(s, w, q)
    ensures Leads(s, s', q, Behind(s, q), path) && path[|path| - 1] == w
  {
    ReleasedCalmer(s, s', q, p);
    BehindAfter(s, s', q);
    CalmerNext(s, s', q);
    path := ChainPath(s', s.queues[q].owner.value, {}, w);
    ChainInThreads(s', s.queues[q].owner.value, {});
  }

  lemma {:induction false} ChainInThreads(s: State, t: Tid, seen: set<Tid>)
    requires seen <= s.threads.Keys
    ensures ChainFrom(s, t, seen) <= s.threads.Keys
    decreases s.threads.Keys - seen
  {
    if t !in seen && t in s.threads && Next(s, t).Some? {
      ChainInThreads(s, Next(s, t).value, seen + {t});
    }
  }

  lemma RestsFalls(s: State, s': State, q: Qid, p: int)
    requires Released(s, s', q, p) && Rests(s, q, p)
    ensures Pressure(s', q) < p
  {
    var c := Behind(s, q);
    var w :| w in c && WaitsOn(s, w, q);
    var path := RestsLeads(s, s', q, p, w);
    ReleasedCalmer(s, s', q, p);
    assert Held(s, q, p, c, w);
    FallsAlong(s, s', q, p, c, path);
    NobodyElse(s, s', q, p, c, w, q);
  }

  // ----- and only then -----

  /** t waits, was at p or above and is not any more. */
  ghost predicate Fell(s: State, s': State, p: int, t: Tid) {
    t in s.threads && t in s'.threads && s.threads[t].status.Blocked? && s.threads[t].effec >= p > s'.threads[t].effec
  }

  /** Only threads behind the release fall, and what they had was inherited. */
  lemma FellInherited(s: State, s': State, q: Qid, p: int, t: Tid)
    requires Released(s, s', q, p) && Fell(s, s', p, t)
    ensures t in Behind(s, q) && Live(s, t) && Live(s', t)
    ensures 0 <= s.threads[t].base + s.threads[t].boost < p == s.threads[t].inherited && s'.threads[t].inherited < p
    ensures forall y :: y in s.threads[t].owned && y != q ==> y in s'.threads[t].owned
  {
    var h, h' := s.threads[t], s'.threads[t];
    assert h'.base == h.base && h'.boost == h.boost && h'.status == h.status && h'.owned == h.owned - {q};
  }

  lemma FellFacts(s: State, s': State, q: Qid, p: int, t: Tid)
    requires Released(s, s', q, p) && Inherits(s, map[]) && Fell(s, s', p, t)
    ensures t in Behind(s, q) && 0 <= s.threads[t].base + s.threads[t].boost < p
    ensures forall y :: y in s.threads[t].owned ==> y in s.queues && Pressure(s, y) <= p && (y != q ==> Pressure(s', y) < p)
    ensures exists y :: y in s.threads[t].owned && Pressure(s, y) == p
  {
    FellInherited(s, s', q, p, t);
    InheritedIsMax(s, t);
    InheritedIsMax(s', t);
  }

  lemma InheritedIsMax(s: State, t: Tid)
    requires OwnersOk(s) && Inherits(s, map[]) && Live(s, t)
    ensures forall y :: y in s.threads[t].owned ==> y in s.queues && Pressure(s, y) <= s.threads[t].inherited
    ensures s.threads[t].inherited == -1 || exists y :: y in s.threads[t].owned && Pressure(s, y) == s.threads[t].inherited
  {
    forall y | y in s.threads[t].owned ensures y in s.queues && Pressure(s, y) <= s.threads[t].inherited {
      assert Accounted(s, map[], y) == Pressure(s, y);
    }
    if s.threads[t].inherited != -1 {
      var y :| y in s.threads[t].owned && Accounted(s, map[], y) == s.threads[t].inherited;
      assert Pressure(s, y) == s.threads[t].inherited;
    }
  }

  /** Who was at p in a queue that is below p now. */
  lemma WaiterFell(s: State, s': State, q: Qid, p: int, y: Qid, w: Tid)
    requires Released(s, s', q, p) && y in s.queues && Pressure(s', y) < p && WaitsOn(s, w, y) && s.threads[w].effec >= p
    ensures Fell(s, s', p, w)
  {
    ReleasedCalmer(s, s', q, p);
    PressureIsMax(s', y);
    assert s'.threads[w].status.queue == y;
    assert w in s'.queues[y].waiters;
  }

  lemma HeadFell(s: State, s': State, q: Qid, p: int, y: Qid) returns (z: Tid)
    requires Released(s, s', q, p) && y in s.queues && Pressure(s', y) < p <= Pressure(s, y) && p >= 0
    ensures Fell(s, s', p, z) && WaitsOn(s, z, y)
  {
    PressureIsMax(s, y);
    z := s.queues[y].waiters[0];
    WaiterFell(s, s', q, p, y, z);
  }

  /** Everybody on the way to a waiter of q that fell has fallen. */
  lemma AllFell(s: State, s': State, q: Qid, p: int, path: seq<Tid>, i: int)
    requires Released(s, s', q, p) && Inherits(s, map[]) && Leads(s, s', q, Behind(s, q), path)
    requires 0 <= i < |path| && Fell(s, s', p, path[|path| - 1])
    ensures Fell(s, s', p, path[i])
  {
    var k := |path| - 1;
    while k > i
      invariant i <= k < |path| && Fell(s, s', p, path[k])
    {
      k := k - 1;
      OneBack(s, s', q, p, path, k);
    }
  }

  lemma OneBack(s: State, s': State, q: Qid, p: int, path: seq<Tid>, i: int)
    requires Released(s, s', q, p) && Inherits(s, map[]) && Leads(s, s', q, Behind(s, q), path)
    requires 0 <= i < |path| - 1 && Fell(s, s', p, path[i + 1])
    ensures Fell(s, s', p, path[i])
  {
    var z := FellBehind(s, s', q, p, path[i + 1]);
    ReleasedCalmer(s, s', q, p);
    Before(s, s', q, Behind(s, q), path, z, i + 1);
  }

  /** Unless it released q itself, a thread that fell was let down by one that waits for it. */
  lemma FellBehind(s: State, s': State, q: Qid, p: int, t: Tid) returns (z: Tid)
    requires Released(s, s', q, p) && Inherits(s, map[]) && Fell(s, s', p, t) && s.queues[q].owner != Some(t)
    ensures Fell(s, s', p, z) && z in Behind(s, q) && s.threads[z].status != Blocked(q) && Next(s, z) == Some(t)
  {
    FellFacts(s, s', q, p, t);
    var y :| y in s.threads[t].owned && Pressure(s, y) == p;
    assert s.queues[y].owner == Some(t);
    z := HeadFell(s, s', q, p, y);
    FellInherited(s, s', q, p, z);
  }

  /** A thread of c that waits on q is the last on the path. */
  lemma LastOne(s: State, s': State, q: Qid, c: set<Tid>, path: seq<Tid>, w: Tid)
    requires Calmer(s, s', q) && Leads(s, s', q, c, path) && w in c && WaitsOn(s, w, q)
    ensures w == path[|path| - 1]
  {
    CalmerNext(s, s', q);
    forall i | 0 <= i < |path| - 1 ensures Next(s', path[i]).Some? {
      assert Link(s', path, i);
    }
    var j :| 0 <= j < |path| && path[j] == w;
  }

  /** Nobody else at p waits where the i-th thread does. */
  lemma AloneThere(s: State, s': State, q: Qid, p: int, path: seq<Tid>, i: int, w: Tid)
    requires Released(s, s', q, p) && Inherits(s, map[]) && Leads(s, s', q, Behind(s, q), path) && Pressure(s', q) < p
    requires 0 <= i < |path| && path[i] in s.threads && w in s.threads && s.threads[w].status.Blocked?
    requires s.threads[w].status == s.threads[path[i]].status && s.threads[w].effec >= p
    requires i < |path| - 1 ==> Fell(s, s', p, path[i + 1])
    ensures w == path[i]
  {
    var b, c := s.threads[w].status.queue, Behind(s, q);
    ReleasedCalmer(s, s', q, p);
    LeadsLive(s, s', q, c, path, i);
    if b == q {
      WaiterFell(s, s', q, p, q, w);
      FellFacts(s, s', q, p, w);
      LastOne(s, s', q, c, path, w);
      LastOne(s, s', q, c, path, path[i]);
    } else {
      CalmerNext(s, s', q);
      assert Link(s', path, i) && s.queues[b].owner == Some(path[i + 1]);
      FellFacts(s, s', q, p, path[i + 1]);
      assert s.queues[b].owner.value == path[i + 1];
      WaiterFell(s, s', q, p, b, w);
      FellFacts(s, s', q, p, w);
      Before(s, s', q, c, path, w, i + 1);
    }
  }

  lemma HeldThere(s: State, s': State, q: Qid, p: int, path: seq<Tid>, i: int)
    requires Released(s, s', q, p) && Inherits(s, map[]) && Leads(s, s', q, Behind(s, q), path) && Pressure(s', q) < p
    requires 0 <= i < |path| && Fell(s, s', p, path[|path| - 1])
    ensures Held(s, q, p, Behind(s, q), path[i])
  {
    var t, c := path[i], Behind(s, q);
    AllFell(s, s', q, p, path, i);
    if i < |path| - 1 { AllFell(s, s', q, p, path, i + 1); }
    FellFacts(s, s', q, p, t);
    forall y | y in s.threads[t].owned && Pressure(s, y) >= p && y != q ensures Fed(s, c, y) {
      var z := HeadFell(s, s', q, p, y);
      FellFacts(s, s', q, p, z);
    }
    forall w | w in s.threads && w != t && s.threads[w].status.Blocked? && s.threads[w].status == s.threads[t].status
      ensures s.threads[w].effec < p
    {
      if s.threads[w].effec >= p {
        AloneThere(s, s', q, p, path, i, w);
      }
    }
  }

  /** If the release lowered the pressure of q, that pressure rested on q. */
  lemma FallsRests(s: State, s': State, q: Qid, p: int)
    requires Released(s, s', q, p) && Inherits(s, map[]) && Pressure(s', q) < p <= Pressure(s, q) && p >= 0
    ensures Rests(s, q, p)
  {
    var w := HeadFell(s, s', q, p, q);
    FellFacts(s, s', q, p, w);
    var path := RestsLeads(s, s', q, p, w);
    forall t | t in Behind(s, q) ensures Held(s, q, p, Behind(s, q), t) {
      var i :| 0 <= i < |path| && path[i] == t;
      HeldThere(s, s', q, p, path, i);
    }
  }

  // ----- what the new owner makes of it -----

  /** z waits on q or on a queue of n. */
  predicate FeedsAt(s: State, q: Qid, n: Tid, z: Tid) {
    && z in s.threads && s.threads[z].status.Blocked?
    && (s.threads[z].status.queue == q || OwnerOf(s, s.threads[z].status.queue) == Some(n))
  }

  /** f is m after n has taken q for the pressure p and that has been booked. */
  ghost predicate Taken(m: State, f: State, q: Qid, n: Tid, p: int) {
    && WellFormed(m) && WellFormed(f) && Inherits(m, map[]) && Inherits(f, map[q := p])
    && q in m.queues && m.queues[q].owner.None? && m.queues[q].kind.Owned? && Live(m, n) && Pressure(m, q) <= p && 0 <= p
    && Moved(Take(m, q, n), f, Chain(m, n), true, p)
  }

  /** What of it matters below. */
  ghost predicate Raised(m: State, f: State, q: Qid, n: Tid, p: int) {
    && m.threads.Keys == f.threads.Keys && m.queues.Keys == f.queues.Keys
    && (forall t :: t in m.threads ==>
          && f.threads[t].status == m.threads[t].status
          && f.threads[t].owned == (if t == n then m.threads[t].owned + {q} else m.threads[t].owned)
          && m.threads[t].effec <= f.threads[t].effec <= Max(m.threads[t].effec, p)
          && m.threads[t].inherited <= f.threads[t].inherited
          && (t !in Chain(m, n) ==> f.threads[t].effec == m.threads[t].effec))
    && (forall y :: y in m.queues ==> f.queues[y].owner == if y == q then Some(n) else m.queues[y].owner)
  }

  lemma TakenRaised(m: State, f: State, q: Qid, n: Tid, p: int)
    requires Taken(m, f, q, n, p)
    ensures Raised(m, f, q, n, p)
  {
    TakenThreads(m, f, q, n, p);
  }

  lemma TakenThreads(m: State, f: State, q: Qid, n: Tid, p: int)
    requires Taken(m, f, q, n, p)
    ensures m.threads.Keys == f.threads.Keys
    ensures forall t :: t in m.threads ==>
              && f.threads[t].status == m.threads[t].status
              && f.threads[t].owned == (if t == n then m.threads[t].owned + {q} else m.threads[t].owned)
              && m.threads[t].effec <= f.threads[t].effec <= Max(m.threads[t].effec, p)
              && m.threads[t].inherited <= f.threads[t].inherited
              && (t !in Chain(m, n) ==> f.threads[t].effec == m.threads[t].effec)
  {
    var v := Take(m, q, n);
    forall t | t in m.threads
      ensures f.threads[t].status == v.threads[t].status && f.threads[t].owned == v.threads[t].owned
      ensures ThreadMoved(v.threads[t], f.threads[t], true, p) && (t !in Chain(m, n) ==> f.threads[t] == v.threads[t])
    {
      assert t in v.threads;
    }
  }

  lemma RaisedPressure(m: State, f: State, q: Qid, n: Tid, p: int, y: Qid)
    requires Taken(m, f, q, n, p) && y in m.queues
    ensures Pressure(m, y) <= Pressure(f, y) <= Max(Pressure(m, y), p)
  {
    TakeOk(m, q, n);
    RisePressure(Take(m, q, n), f, Chain(m, n), p, y);
  }

  /** A queue that reached p has a waiter on the chain of n, unless it was there before. */
  lemma RaisedBy(m: State, f: State, q: Qid, n: Tid, p: int, y: Qid) returns (z: Tid)
    requires WellFormed(m) && WellFormed(f) && Raised(m, f, q, n, p) && y in m.queues && Pressure(m, y) < p <= Pressure(f, y) && 0 <= p
    ensures z in Chain(m, n) && WaitsOn(m, z, y)
  {
    PressureIsMax(m, y);
    PressureIsMax(f, y);
    z := f.queues[y].waiters[0];
    assert m.threads[z].status.queue == y;
    assert z in m.queues[y].waiters;
  }

  /** From n on, everybody on its chain is at p at least. */
  lemma {:induction false} ChainHigh(m: State, f: State, q: Qid, n: Tid, p: int, t: Tid, seen: set<Tid>)
    requires WellFormed(m) && WellFormed(f) && Raised(m, f, q, n, p) && Inherits(f, map[q := p])
    requires q in m.queues && m.queues[q].owner.None?
    requires t in m.threads && f.threads[t].effec >= p
    ensures forall u :: u in ChainFrom(m, t, seen) && u !in seen ==> u in f.threads && f.threads[u].effec >= p
    decreases m.threads.Keys - seen
  {
    if t !in seen && Next(m, t).Some? {
      HighNext(m, f, q, n, p, t);
      ChainHigh(m, f, q, n, p, Next(m, t).value, seen + {t});
    }
  }

  lemma HighNext(m: State, f: State, q: Qid, n: Tid, p: int, t: Tid)
    requires WellFormed(m) && WellFormed(f) && Raised(m, f, q, n, p) && Inherits(f, map[q := p])
    requires q in m.queues && m.queues[q].owner.None?
    requires t in m.threads && f.threads[t].effec >= p && Next(m, t).Some?
    ensures Next(m, t).value in m.threads && f.threads[Next(m, t).value].effec >= p
  {
    var b, o := m.threads[t].status.queue, Next(m, t).value;
    assert b != q && m.queues[b].owner.value == o && b in f.threads[o].owned;
    WaiterCounts(f, t, b);
    assert Live(f, o) && Accounted(f, map[q := p], b) == Pressure(f, b);
  }

  lemma WaiterCounts(f: State, z: Tid, y: Qid)
    requires WellFormed(f) && WaitsOn(f, z, y)
    ensures y in f.queues && f.threads[z].effec <= Pressure(f, y)
  {
    assert f.threads[z].status.queue == y;
    PressureIsMax(f, y);
  }

  lemma OwnerHigh(m: State, f: State, q: Qid, n: Tid, p: int)
    requires WellFormed(f) && Raised(m, f, q, n, p) && Inherits(f, map[q := p]) && Live(m, n)
    ensures Live(f, n) && f.threads[n].inherited >= p && f.threads[n].effec >= p
  {
    assert Live(f, n) && q in f.threads[n].owned && Accounted(f, map[q := p], q) == p;
  }

  /** Only n counts q: the equation holds iff it does at n. */
  lemma JustTheOwner(f: State, q: Qid, n: Tid, p: int)
    requires OwnersOk(f) && Inherits(f, map[q := p]) && q in f.queues && f.queues[q].owner == Some(n) && Live(f, n)
    ensures Inherits(f, map[]) <==> IsMax(f, map[], f.threads[n].owned, f.threads[n].inherited)
  {
    if IsMax(f, map[], f.threads[n].owned, f.threads[n].inherited) {
      forall u | Live(f, u) ensures IsMax(f, map[], f.threads[u].owned, f.threads[u].inherited) {
        if u != n {
          var own := f.threads[u].owned;
          IsMaxLocal(f, map[q := p], f, map[], own, own, f.threads[u].inherited);
        }
      }
    }
  }

  /** Another queue of the owner is at p, so q need not be. */
  lemma AnotherHolds(f: State, q: Qid, own: set<Qid>, p: int, h: int, y: Qid)
    requires IsMax(f, map[q := p], own, h) && Pressure(f, q) <= p && q in own && y in own && y != q && Pressure(f, y) >= p
    ensures IsMax(f, map[], own, h)
  {
    forall x | x in own ensures Accounted(f, map[], x) <= h {
      assert Accounted(f, map[q := p], x) <= h;
    }
    assert Accounted(f, map[q := p], y) == Accounted(f, map[], y) == Pressure(f, y);
    if h != -1 {
      var x :| x in own && Accounted(f, map[q := p], x) == h;
      assert Accounted(f, map[], if x == q then y else x) == h;
    }
  }

  /** The sample was still true. */
  lemma SampleTrue(m: State, f: State, q: Qid, n: Tid, p: int)
    requires Taken(m, f, q, n, p) && Pressure(m, q) == p
    ensures Inherits(f, map[])
  {
    TakenRaised(m, f, q, n, p);
    RaisedPressure(m, f, q, n, p, q);
    NothingLeft(f, map[], q, p);
  }

  /** n had as much before. */
  lemma HadItBefore(m: State, f: State, q: Qid, n: Tid, p: int)
    requires Taken(m, f, q, n, p) && m.threads[n].inherited >= p
    ensures Inherits(f, map[])
  {
    TakenRaised(m, f, q, n, p);
    OwnerHigh(m, f, q, n, p);
    JustTheOwner(f, q, n, p);
    InheritedIsMax(m, n);
    RaisedPressure(m, f, q, n, p, q);
    var y :| y in m.threads[n].owned && Pressure(m, y) == m.threads[n].inherited;
    assert m.queues[y].owner == Some(n);
    RaisedPressure(m, f, q, n, p, y);
    AnotherHolds(f, q, f.threads[n].owned, p, f.threads[n].inherited, y);
  }

  /** A cycle through n feeds itself. */
  lemma CycleFeeds(m: State, f: State, q: Qid, n: Tid, p: int, z: Tid)
    requires Taken(m, f, q, n, p) && z in Chain(m, n) && FeedsAt(m, q, n, z)
    ensures Inherits(f, map[])
  {
    TakenRaised(m, f, q, n, p);
    OwnerHigh(m, f, q, n, p);
    ChainHigh(m, f, q, n, p, n, {});
    RaisedPressure(m, f, q, n, p, q);
    var y := m.threads[z].status.queue;
    WaiterCounts(f, z, y);
    if y == q {
      NothingLeft(f, map[], q, p);
    } else {
      JustTheOwner(f, q, n, p);
      assert m.queues[y].owner.value == n;
      AnotherHolds(f, q, f.threads[n].owned, p, f.threads[n].inherited, y);
    }
  }

  /** Otherwise n is left with a priority nobody gives it. */
  lemma NobodyGivesIt(m: State, f: State, q: Qid, n: Tid, p: int)
    requires Taken(m, f, q, n, p) && Pressure(m, q) < p && m.threads[n].inherited < p
    requires forall z :: z in Chain(m, n) ==> !FeedsAt(m, q, n, z)
    ensures !Inherits(f, map[])
  {
    TakenRaised(m, f, q, n, p);
    OwnerHigh(m, f, q, n, p);
    if Inherits(f, map[]) {
      InheritedIsMax(m, n);
      InheritedIsMax(f, n);
      var y :| y in f.threads[n].owned && Pressure(f, y) == f.threads[n].inherited;
      assert y == q || (y in m.threads[n].owned && m.queues[y].owner == Some(n));
      var z := RaisedBy(m, f, q, n, p, y);
      assert FeedsAt(m, q, n, z);
    }
  }

  // ----- the exact condition -----

  /** n would wait for itself if it owned q. */
  ghost predicate FeedsItself(s: State, q: Qid, n: Tid)
    requires q in s.queues && s.queues[q].owner.Some? && s.queues[q].owner.value in s.threads
  {
    exists z :: z in Chain(Release(s, q), n) && FeedsAt(s, q, n, z)
  }

  /** q passes from one live thread to another with its pressure sampled as old_, and the
      sample is wrong by the time it is used: the pressure rests on q itself, and n has no
      other reason to be at it. */
  ghost predicate SampleLost(s: State, q: Qid, old_: int, n: Option<Tid>) {
    && q in s.queues && s.queues[q].owner.Some? && s.queues[q].owner.value in s.threads
    && n.Some? && n != s.queues[q].owner && n.value in s.threads
    && old_ == Pressure(s, q) && s.threads[n.value].inherited < old_
    && Rests(s, q, old_) && !FeedsItself(s, q, n.value)
  }

  /** A release moves nothing but what is at the sampled level. */
  lemma OnlyAtLevel(s: State, m: State, q: Qid, old_: int)
    requires Released(s, m, q, old_) && Pressure(m, q) < Pressure(s, q)
    ensures old_ == Pressure(s, q) >= 0
  {
    PressureIsMax(s, q);
    PressureIsMax(m, q);
    var w := s.queues[q].waiters[0];
    assert w in m.queues[q].waiters;
    assert m.threads[w].effec < s.threads[w].effec;
  }

  lemma FeedsSame(s: State, m: State, q: Qid, n: Tid)
    requires WellFormed(s) && q in s.queues && s.queues[q].owner.Some? && s.queues[q].owner.value in s.threads
    requires Calmer(s, m, q)
    ensures FeedsItself(s, q, n) <==> exists z :: z in Chain(m, n) && FeedsAt(m, q, n, z)
  {
    BehindAfter(s, m, q);
    assert forall z :: FeedsAt(s, q, n, z) == FeedsAt(m, q, n, z);
  }

  /** z, behind the release, waits for n: then so does w, which waits on q, come after n. */
  lemma AfterOwner(s: State, m: State, q: Qid, p: int, n: Tid, y: Qid, z: Tid, w: Tid)
    requires Released(s, m, q, p) && z in Behind(s, q) && w in Behind(s, q) && WaitsOn(s, w, q)
    requires y != q && WaitsOn(s, z, y) && OwnerOf(s, y) == Some(n) && n in s.threads
    ensures w in Chain(m, n)
  {
    ReleasedCalmer(s, m, q, p);
    var path := RestsLeads(s, m, q, p, w);
    OneOnward(s, m, q, Behind(s, q), path, n, y, z);
  }

  lemma OneOnward(s: State, m: State, q: Qid, c: set<Tid>, path: seq<Tid>, n: Tid, y: Qid, z: Tid)
    requires WellFormed(m) && Calmer(s, m, q) && Leads(s, m, q, c, path) && z in c
    requires y != q && WaitsOn(s, z, y) && OwnerOf(s, y) == Some(n) && n in s.threads
    ensures path[|path| - 1] in Chain(m, n)
  {
    var j := ComesNext(s, m, q, c, path, n, y, z);
    PathInChain(m, path[0], path, j, |path| - 1);
  }

  lemma ComesNext(s: State, m: State, q: Qid, c: set<Tid>, path: seq<Tid>, n: Tid, y: Qid, z: Tid) returns (j: int)
    requires Calmer(s, m, q) && Leads(s, m, q, c, path) && z in c
    requires y != q && WaitsOn(s, z, y) && OwnerOf(s, y) == Some(n)
    ensures 0 <= j < |path| && path[j] == n
  {
    CalmerNext(s, m, q);
    var i :| 0 <= i < |path| && path[i] == z;
    assert i < |path| - 1;
    assert Link(m, path, i);
    j := i + 1;
  }

  /** If n falls with the rest, it waits for a thread that waits on q. */
  lemma FallsToo(s: State, m: State, q: Qid, p: int, n: Tid)
    requires Released(s, m, q, p) && Inherits(s, map[]) && Pressure(m, q) < p == Pressure(s, q) && p >= 0
    requires Live(s, n) && Live(m, n) && s.queues[q].owner != Some(n) && m.threads[n].inherited < p <= s.threads[n].inherited
    ensures exists z :: z in Chain(m, n) && FeedsAt(m, q, n, z)
  {
    ReleasedCalmer(s, m, q, p);
    InheritedIsMax(s, n);
    InheritedIsMax(m, n);
    var y :| y in s.threads[n].owned && Pressure(s, y) == s.threads[n].inherited;
    assert s.queues[y].owner == Some(n) && y in m.threads[n].owned;
    var z := HeadFell(s, m, q, p, y);
    FellInherited(s, m, q, p, z);
    var w := HeadFell(s, m, q, p, q);
    FellInherited(s, m, q, p, w);
    AfterOwner(s, m, q, p, n, y, z, w);
    assert FeedsAt(m, q, n, w);
  }

  /** The whole of UpdateBookkeeping for a queue that passes from one live thread to another,
      on any wait-for graph: the equation holds afterwards iff the sample was not lost. */
  lemma HandOverExactly(s: State, m: State, f: State, q: Qid, old_: int, n: Tid)
    requires Released(s, m, q, old_) && Inherits(s, map[q := old_]) && Taken(m, f, q, n, Pressure(s, q))
    requires s.queues[q].owner != Some(n)
    ensures Inherits(f, map[]) <==> !SampleLost(s, q, old_, Some(n))
  {
    var p := Pressure(s, q);
    if Pressure(m, q) == p {
      SampleTrue(m, f, q, n, p);
      SampleKept(s, m, q, old_, n);
    } else {
      OnlyAtLevel(s, m, q, old_);
      NothingLeft(s, map[], q, p);
      FallsRests(s, m, q, p);
      StaleExactly(s, m, f, q, n);
    }
  }

  lemma SampleKept(s: State, m: State, q: Qid, old_: int, n: Tid)
    requires Released(s, m, q, old_) && Pressure(m, q) == Pressure(s, q)
    ensures !SampleLost(s, q, old_, Some(n))
  {
    if SampleLost(s, q, old_, Some(n)) {
      RestsFalls(s, m, q, old_);
    }
  }

  lemma StaleExactly(s: State, m: State, f: State, q: Qid, n: Tid)
    requires Released(s, m, q, Pressure(s, q)) && Inherits(s, map[]) && Taken(m, f, q, n, Pressure(s, q))
    requires s.queues[q].owner != Some(n) && Pressure(m, q) < Pressure(s, q)
    ensures Inherits(f, map[]) <==> s.threads[n].inherited >= Pressure(s, q) || FeedsItself(s, q, n)
  {
    var p := Pressure(s, q);
    ReleasedCalmer(s, m, q, p);
    FeedsSame(s, m, q, n);
    if z :| z in Chain(m, n) && FeedsAt(m, q, n, z) {
      CycleFeeds(m, f, q, n, p, z);
    } else if m.threads[n].inherited >= p {
      HadItBefore(m, f, q, n, p);
    } else {
      NobodyGivesIt(m, f, q, n, p);
      if s.threads[n].inherited >= p {
        FallsToo(s, m, q, p, n);
      }
    }
  }

  /** What the first half of UpdateBookkeeping leaves for the second. */
  lemma LeftAlone(s: State, m: State, q: Qid)
    requires WellFormed(s) && WellFormed(m) && q in s.queues && s.queues[q].owner.Some? && s.queues[q].owner.value in s.threads
    requires Rebooked(s, m, q, None, Behind(s, q))
    ensures q in m.queues && m.queues[q].owner.None? && m.queues[q].kind == s.queues[q].kind
    ensures (forall n :: Live(m, n) == Live(s, n)) && Pressure(s, q) <= HIGHEST_PRIORITY
  {
    PressureIsMax(s, q);
  }

  lemma PassedOn(s: State, m: State, q: Qid, old_: int, chain: set<Tid>)
    requires WellFormed(s) && WellFormed(m) && q in s.queues && s.queues[q].owner.Some? && s.queues[q].owner.value in s.threads
    requires Rebooked(s, m, q, None, Behind(s, q)) && Lowered(s, m, old_) && Behind(s, q) <= chain
    ensures Pressure(m, q) <= Pressure(s, q) <= HIGHEST_PRIORITY
    ensures Steady(s, q, old_, chain) ==> Pressure(m, q) == Pressure(s, q)
    ensures q in m.queues && m.queues[q].owner.None? && m.queues[q].kind == s.queues[q].kind
    ensures forall n :: Live(m, n) == Live(s, n)
  {
    PressureIsMax(s, q);
    PressureIsMax(m, q);
    if m.queues[q].waiters != [] {
      assert m.queues[q].waiters[0] in s.queues[q].waiters;
    }
    if Steady(s, q, old_, chain) {
      RebookedMore(s, m, q, None, Behind(s, q), chain);
      SteadyPressure(s, m, q, old_, chain);
    }
  }

  /** Both halves together. */
  lemma Outcome(s: State, m: State, f: State, q: Qid, old_: int, owner: Option<Tid>, pend: map<Qid, int>, chain: set<Tid>, newChain: set<Tid>)
    requires WellFormed(s) && WellFormed(m) && WellFormed(f) && Inherits(m, pend) && Inherits(s, pend[q := old_])
    requires q in s.queues && s.queues[q].owner.Some? && s.queues[q].owner.value in s.threads && s.queues[q].kind.Owned?
    requires owner != s.queues[q].owner && (owner.Some? ==> Live(m, owner.value)) && Pressure(m, q) <= Pressure(s, q)
    requires Rebooked(s, m, q, None, Behind(s, q)) && Lowered(s, m, old_) && Behind(s, q) <= chain
    requires Rebooked(s, f, q, owner, Behind(s, q) + newChain)
    requires owner.None? || Pressure(m, q) == Pressure(s, q) ==> Inherits(f, pend)
    requires q in m.queues && owner.Some? && 0 <= Pressure(s, q) ==>
               Inherits(f, pend[q := Pressure(s, q)]) && Moved(Take(m, q, owner.value), f, Chain(m, owner.value), true, Pressure(s, q))
    ensures Rebooked(s, f, q, owner, chain + newChain)
    ensures pend == map[] ==> (Inherits(f, map[]) <==> !SampleLost(s, q, old_, owner))
  {
    MoreOnBothSides(Behind(s, q), chain, newChain);
    RebookedMore(s, f, q, owner, Behind(s, q) + newChain, chain + newChain);
    if pend == map[] && owner.Some? {
      PressureIsMax(s, q);
      PressureIsMax(m, q);
      Handed(s, m, f, q, old_, owner.value);
    }
  }

  lemma MoreOnBothSides(a: set<Tid>, b: set<Tid>, c: set<Tid>)
    requires a <= b
    ensures a + c <= b + c
  {
  }

  lemma Handed(s: State, m: State, f: State, q: Qid, old_: int, n: Tid)
    requires Released(s, m, q, old_) && Inherits(s, map[q := old_]) && s.queues[q].owner != Some(n) && Live(m, n)
    requires WellFormed(f) && s.queues[q].kind.Owned? && Pressure(m, q) <= Pressure(s, q)
    requires if 0 <= Pressure(s, q)
             then Inherits(f, map[q := Pressure(s, q)]) && Moved(Take(m, q, n), f, Chain(m, n), true, Pressure(s, q))
             else Inherits(f, map[])
    ensures Inherits(f, map[]) <==> !SampleLost(s, q, old_, Some(n))
  {
    if 0 <= Pressure(s, q) {
      HandOverExactly(s, m, f, q, old_, n);
    } else {
      PressureIsMax(s, q);
    }
  }

  /** Pressure that rests on q means a cycle through q. */
  lemma RestsCycles(s: State, q: Qid, p: int)
    requires WellFormed(s) && q in s.queues && s.queues[q].owner.Some? && s.queues[q].owner.value in s.threads
    requires Rests(s, q, p)
    ensures !NoCycleThrough(s, q)
  {
    var o := s.queues[q].owner.value;
    var w :| w in Behind(s, q) && WaitsOn(s, w, q);
    ReleaseCalmer(s, q);
    CalmerNext(s, Release(s, q), q);
    ChainClosed(s, o);
    ChainLeast(Release(s, q), o, {}, Chain(s, o));
    assert s.threads[w].status.queue == q;
    assert w in s.queues[q].waiters && w in Chain(s, o);
  }

  /** A queue that lies on no cycle keeps its pressure. */
  lemma NoCycleNoLoss(s: State, q: Qid, old_: int, n: Option<Tid>)
    requires WellFormed(s) && NoCycleThrough(s, q)
    ensures !SampleLost(s, q, old_, n)
  {
    if SampleLost(s, q, old_, n) {
      RestsCycles(s, q, old_);
    }
  }
}
