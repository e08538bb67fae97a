/** The futex table and the pool of free futex states of one process
    (kernel/object/futex_context.cc). Methods are the critical sections under the context
    lock, plus the timeout, which happens under thread_lock alone and may therefore come in
    wherever such a section does not hold thread_lock. */
module FutexPool {
  import opened PriorityList

  datatype Fid = Fid(addr: int)

  datatype Place = Running | Queued | Leaving

  /** id is blocking_futex_id_. A thread is Leaving while it is on the error path of
      FutexWait: no longer in a wait queue, not yet back under the context lock. */
  datatype Thread = Thread(place: Place, id: Option<Fid>)

  type Threads = map<Tid, Thread>

  type Table = map<Fid, seq<Tid>>

  // ----- the invariant -----

  /** The wait queue of an active futex holds exactly the threads queued on it. */
  ghost predicate QueueOk(threads: Threads, table: Table, f: Fid)
    requires f in table
  {
    && Distinct(table[f])
    && (forall t :: t in table[f] ==> t in threads && threads[t] == Thread(Queued, Some(f)))
    && (forall t :: t in threads && threads[t] == Thread(Queued, Some(f)) ==> t in table[f])
  }

  ghost predicate PlacesOk(threads: Threads, table: Table) {
    forall t :: t in threads ==>
      && (threads[t].place.Running? <==> threads[t].id.None?)
      && (threads[t].place.Queued? ==> threads[t].id.value in table)
  }

  /** A thread that names f, queued on it or on its way out. */
  ghost predicate Names(threads: Threads, t: Tid, f: Fid) {
    t in threads && threads[t].id == Some(f)
  }

  ghost predicate Witnessed(threads: Threads, f: Fid) {
    exists t :: Names(threads, t, f)
  }

  ghost predicate QueuesOk(threads: Threads, table: Table) {
    PlacesOk(threads, table) && forall f {:trigger QueueOk(threads, table, f)} :: f in table ==> QueueOk(threads, table, f)
  }

  /** Every active futex, apart from those under way, is named by some thread. */
  ghost predicate AllNamed(threads: Threads, table: Table, but: set<Fid>) {
    forall f {:trigger Witnessed(threads, f)} :: f in table && f !in but ==> Witnessed(threads, f)
  }

  ghost predicate Sound(threads: Threads, table: Table) {
    QueuesOk(threads, table) && AllNamed(threads, table, {})
  }

  // ----- the pool cannot run dry -----

  ghost function Naming(threads: Threads): set<Tid> {
    set t | t in threads && threads[t].id.Some?
  }

  /** Distinct futexes are named by distinct threads. */
  lemma {:induction false} FewerThanNames(threads: Threads, fs: set<Fid>, ts: set<Tid>)
    requires forall f :: f in fs ==> exists t :: t in ts && Names(threads, t, f)
    ensures |fs| <= |ts|
    decreases fs
  {
    if fs != {} {
      var f :| f in fs;
      var t :| t in ts && Names(threads, t, f);
      forall g | g in fs - {f} ensures exists u :: u in ts - {t} && Names(threads, u, g) {
        var u :| u in ts && Names(threads, u, g);
        assert u in ts - {t};
      }
      FewerThanNames(threads, fs - {f}, ts - {t});
    }
  }

  lemma SubsetSize(a: set<Tid>, b: set<Tid>)
    requires a <= b
    ensures |a| <= |b| && (a != b ==> |a| < |b|)
  {
    assert b == a + (b - a);
    assert a != b ==> b - a != {};
  }

  /** While any thread runs, there are fewer active futexes than threads. */
  lemma ActiveBelowThreads(threads: Threads, table: Table, t: Tid)
    requires Sound(threads, table) && t in threads && threads[t].place.Running?
    ensures |table| < |threads|
  {
    forall f | f in table.Keys ensures exists u :: u in Naming(threads) && Names(threads, u, f) {
      assert Witnessed(threads, f);
      var u :| Names(threads, u, f);
      assert Names(threads, u, f);
      assert u in Naming(threads);
    }
    FewerThanNames(threads, table.Keys, Naming(threads));
    assert t in threads.Keys && t !in Naming(threads);
    SubsetSize(Naming(threads), threads.Keys);
  }

  // ----- one thread moves -----

  /** A thread that is in no queue, and stays in none, changes its mind. */
  lemma MovesOutside(threads: Threads, table: Table, t: Tid, x: Thread)
    requires QueuesOk(threads, table) && t in threads && !threads[t].place.Queued?
    requires !x.place.Queued? && (x.place.Running? <==> x.id.None?)
    ensures QueuesOk(threads[t := x], table)
  {
    forall f | f in table ensures QueueOk(threads[t := x], table, f) {
      assert QueueOk(threads, table, f) && t !in table[f];
    }
  }

  /** A thread enters the queue of f. */
  lemma EntersQueue(threads: Threads, table: Table, t: Tid, f: Fid, prio: Tid -> int)
    requires QueuesOk(threads, table) && t in threads && !threads[t].place.Queued? && f in table
    ensures QueuesOk(threads[t := Thread(Queued, Some(f))], table[f := Insert(prio, table[f], t)])
  {
    var threads', table' := threads[t := Thread(Queued, Some(f))], table[f := Insert(prio, table[f], t)];
    forall g | g in table' ensures QueueOk(threads', table', g) {
      assert QueueOk(threads, table, g) && t !in table[g];
      if g == f {
        var k := InsertPlace(prio, table[f], t);
        InsertedOnce(table[f], t, k);
      }
    }
  }

  /** A queued thread leaves its queue and is x from now on. */
  lemma LeavesQueue(threads: Threads, table: Table, t: Tid, f: Fid, x: Thread)
    requires QueuesOk(threads, table) && t in threads && threads[t] == Thread(Queued, Some(f))
    requires !x.place.Queued? && (x.place.Running? <==> x.id.None?)
    ensures f in table && t in table[f] && QueuesOk(threads[t := x], table[f := Without(table[f], t)])
  {
    assert QueueOk(threads, table, f);
    var threads', table' := threads[t := x], table[f := Without(table[f], t)];
    forall g | g in table' ensures QueueOk(threads', table', g) {
      assert QueueOk(threads, table, g);
      WithoutMembers(table[f], t);
      WithoutKeepsDistinct(table[f], t);
    }
  }

  /** A witness other than t stays one. */
  lemma NamedWithout(threads: Threads, table: Table, table': Table, t: Tid, x: Thread, but: set<Fid>)
    requires AllNamed(threads, table, but) && t in threads && table'.Keys <= table.Keys + but
    requires threads[t].id.Some? ==> threads[t].id.value in but || x.id == threads[t].id
    ensures AllNamed(threads[t := x], table', but)
  {
    forall f | f in table' && f !in but ensures Witnessed(threads[t := x], f) {
      assert Witnessed(threads, f);
      var u :| Names(threads, u, f);
      assert Names(threads, u, f);
      assert Names(threads[t := x], u, f);
    }
  }

  /** An active futex with waiters is named by the first of them. */
  lemma NamedByFirst(threads: Threads, table: Table, f: Fid, but: set<Fid>)
    requires QueuesOk(threads, table) && AllNamed(threads, table, but + {f}) && (f in table ==> table[f] != [])
    ensures AllNamed(threads, table, but)
  {
    if f in table {
      assert QueueOk(threads, table, f) && table[f][0] in table[f];
      assert Names(threads, table[f][0], f);
    }
  }

  lemma ActivateOk(threads: Threads, table: Table, f: Fid)
    requires QueuesOk(threads, table) && f !in table
    ensures QueuesOk(threads, table[f := []])
  {
    var table' := table[f := []];
    forall g | g in table' ensures QueueOk(threads, table', g) {
      if g != f { assert QueueOk(threads, table, g); }
    }
  }

  lemma RetireOk(threads: Threads, table: Table, f: Fid)
    requires QueuesOk(threads, table) && f in table && table[f] == []
    ensures QueuesOk(threads, table - {f})
  {
    assert QueueOk(threads, table, f);
    var table' := table - {f};
    forall g | g in table' ensures QueueOk(threads, table', g) {
      assert QueueOk(threads, table, g);
    }
  }

  /** The threads of `done` are x now, the others are as they were. */
  ghost predicate Changed(threads0: Threads, threads: Threads, done: seq<Tid>, x: Thread) {
    threads.Keys == threads0.Keys && forall t :: t in threads ==> threads[t] == if t in done then x else threads0[t]
  }

  lemma ChangedMore(threads0: Threads, threads: Threads, done: seq<Tid>, x: Thread, t: Tid)
    requires Changed(threads0, threads, done, x) && t in threads
    ensures Changed(threads0, threads[t := x], done + [t], x)
  {
  }

  lemma ChangedTwice(threads0: Threads, threads1: Threads, threads: Threads, woken: seq<Tid>, moved: seq<Tid>, g: Fid)
    requires Changed(threads0, threads1, woken, Thread(Running, None)) && Changed(threads1, threads, moved, Thread(Queued, Some(g)))
    requires forall t :: t in woken ==> t !in moved
    ensures threads.Keys == threads0.Keys
    ensures forall t :: t in threads ==>
              threads[t] == if t in woken then Thread(Running, None) else if t in moved then Thread(Queued, Some(g)) else threads0[t]
  {
  }

  lemma OneFurther(all: seq<Tid>, done: seq<Tid>, q: seq<Tid>)
    requires all == done + q && q != []
    ensures all == (done + [q[0]]) + q[1..]
  {
  }

  lemma RestOf(q: seq<Tid>, a: seq<Tid>, b: seq<Tid>, rest: seq<Tid>)
    requires q == a + b + rest
    ensures rest == q[|a| + |b|..]
  {
  }

  /** Threads enter a queue one after the other. */
  function InsertAll(prio: Tid -> int, q: seq<Tid>, ts: seq<Tid>): seq<Tid> {
    if ts == [] then q else Insert(prio, InsertAll(prio, q, ts[..|ts| - 1]), ts[|ts| - 1])
  }

  lemma InsertOneMore(prio: Tid -> int, q: seq<Tid>, ts: seq<Tid>, t: Tid)
    ensures InsertAll(prio, q, ts + [t]) == Insert(prio, InsertAll(prio, q, ts), t)
  {
    assert (ts + [t])[..|ts|] == ts;
  }

  /** They end up in order of priority. */
  lemma {:induction false} InsertAllSorted(prio: Tid -> int, q: seq<Tid>, ts: seq<Tid>)
    requires Sorted(prio, q)
    ensures Sorted(prio, InsertAll(prio, q, ts)) && |InsertAll(prio, q, ts)| == |q| + |ts|
  {
    if ts != [] {
      var rest := ts[..|ts| - 1];
      InsertAllSorted(prio, q, rest);
      InsertKeepsOrder(prio, InsertAll(prio, q, rest), ts[|ts| - 1]);
      InsertMembers(prio, InsertAll(prio, q, rest), ts[|ts| - 1]);
    }
  }

  /** What is left of the queue of f: a futex without waiters is not active any more. */
  predicate Settled(table: Table, f: Fid, q: seq<Tid>) {
    if q == [] then f !in table else f in table && table[f] == q
  }

  /** Futexes other than f and g are as they were. */
  ghost predicate Elsewhere(table0: Table, table: Table, f: Fid, g: Fid) {
    forall h :: h != f && h != g ==> (h in table <==> h in table0) && (h in table ==> table[h] == table0[h])
  }

  function Waiters(table: Table, f: Fid): seq<Tid> { if f in table then table[f] else [] }

  function Min(a: nat, b: nat): nat { if a < b then a else b }

  /** k of those who wait are selected: no more than n, one at most if it is to become the
      owner, and no fewer than that unless everybody is. */
  predicate AsMany(k: int, n: nat, assign: bool, waiting: int) {
    0 <= k <= n && k <= waiting && (assign ==> k <= 1) && (k < waiting ==> k == n || (assign && k == 1))
  }

  // ----- the context -----

  datatype Status = Ok | BadState | InvalidArgs

  class Context {
    var threads: Threads
    var table: Table
    var free: int

    /** One futex state for every live thread, in the table or in the pool. */
    ghost predicate Valid()
      reads this
    {
      Sound(threads, table) && free + |table| == |threads|
    }

    ghost predicate Partly(but: set<Fid>)
      reads this
    {
      QueuesOk(threads, table) && AllNamed(threads, table, but) && free + |table| == |threads|
    }

    constructor ()
      ensures Valid() && threads == map[] && table == map[] && free == 0
    {
      threads, table, free := map[], map[], 0;
    }

    /** GrowFutexStatePool, by a thread that is being created. */
    method Grow(t: Tid)
      requires Valid() && t !in threads
      modifies this
      ensures Valid() && threads == old(threads)[t := Thread(Running, None)] && table == old(table) && free == old(free) + 1
    {
      ghost var threads' := threads[t := Thread(Running, None)];
      forall f | f in table ensures QueueOk(threads', table, f) && Witnessed(threads', f) {
        assert QueueOk(threads, table, f);
        assert Witnessed(threads, f);
        var u :| Names(threads, u, f);
        assert Names(threads, u, f);
        assert Names(threads', u, f);
      }
      threads, free := threads[t := Thread(Running, None)], free + 1;
    }

    /** ShrinkFutexStatePool, by a thread that is going away: there is always a free state
        to give back. */
    method Shrink(t: Tid)
      requires Valid() && t in threads && threads[t].place.Running?
      modifies this
      ensures Valid() && threads == old(threads) - {t} && table == old(table) && free == old(free) - 1 && free >= 0
    {
      ActiveBelowThreads(threads, table, t);
      ghost var threads' := threads - {t};
      forall f | f in table ensures QueueOk(threads', table, f) && Witnessed(threads', f) {
        assert QueueOk(threads, table, f);
        assert Witnessed(threads, f);
        var u :| Names(threads, u, f);
        assert Names(threads, u, f);
        assert Names(threads', u, f);
      }
      threads, free := threads - {t}, free - 1;
    }

    /** ActivateFromPool, called by a running thread: the pool is not empty. */
    method Activate(f: Fid, ghost t: Tid)
      requires Valid() && f !in table && t in threads && threads[t].place.Running?
      modifies this`table, this`free
      ensures Partly({f}) && table == old(table)[f := []] && free == old(free) - 1 && free >= 0
    {
      ActiveBelowThreads(threads, table, t);
      ActivateOk(threads, table, f);
      table, free := table[f := []], free - 1;
    }

    /** ReturnToPool. */
    method Retire(f: Fid, ghost but: set<Fid>)
      requires Partly(but + {f}) && f in table && table[f] == []
      modifies this`table, this`free
      ensures Partly(but) && table == old(table) - {f} && free == old(free) + 1
    {
      RetireOk(threads, table, f);
      assert (table - {f}).Keys == table.Keys - {f};
      table, free := table - {f}, free + 1;
    }

    /** The end of an operation on f: if nobody waits any more it goes back to the pool. The
        test is made under thread_lock and the rest is not, but a timeout in between finds f
        without waiters, or leaves behind a thread that names it. */
    method Settle(f: Fid, ghost but: set<Fid>)
      requires Partly(but + {f}) && f in table
      modifies this`table, this`free
      ensures Partly(but) && table == if old(table)[f] == [] then old(table) - {f} else old(table)
    {
      if table[f] == [] {
        Retire(f, but);
      } else {
        NamedByFirst(threads, table, f, but);
      }
    }

    /** FutexWait. matches says that the pointer is good and the futex still has the
        expected value; blocks that the thread does not time out at once; prio are the
        priorities by which wait queues are ordered. Timeouts may come in at the beginning
        and after Activate. */
    method Wait(t: Tid, f: Fid, matches: bool, owner: Option<Tid>, blocks: bool, prio: Tid -> int) returns (r: Status)
      requires Valid() && t in threads && threads[t].place.Running? && (owner.Some? ==> owner.value in threads)
      modifies this
      ensures Valid()
      ensures r == if !matches then BadState
                   else if owner == Some(t) then InvalidArgs
                   else if f in old(table) && owner.Some? && old(threads)[owner.value].id == Some(f) then InvalidArgs
                   else Ok
      ensures r != Ok ==> threads == old(threads) && table == old(table) && free == old(free)
      ensures r == Ok ==> threads == old(threads)[t := Thread(if blocks then Queued else Leaving, Some(f))]
      ensures r == Ok ==>
                var q := Waiters(old(table), f);
                table == old(table)[f := if blocks then Insert(prio, q, t) else q]
    {
      if !matches {
        return BadState;
      }
      if owner == Some(t) {
        return InvalidArgs;
      }
      if f !in table {
        Activate(f, t);
      } else if owner.Some? && threads[owner.value].id == Some(f) {
        return InvalidArgs;
      }
      Enter(t, f, blocks, prio);
      r := Ok;
    }

    method Enter(t: Tid, f: Fid, blocks: bool, prio: Tid -> int)
      requires Partly({f}) && t in threads && threads[t].place.Running? && f in table
      modifies this
      ensures Valid() && threads == old(threads)[t := Thread(if blocks then Queued else Leaving, Some(f))]
      ensures free == old(free)
      ensures table == old(table)[f := if blocks then Insert(prio, old(table)[f], t) else old(table)[f]]
    {
      var x := Thread(if blocks then Queued else Leaving, Some(f));
      ghost var table' := if blocks then table[f := Insert(prio, table[f], t)] else table;
      NamedWithout(threads, table, table', t, x, {f});
      if blocks {
        EntersQueue(threads, table, t, f, prio);
        table := table[f := Insert(prio, table[f], t)];
      } else {
        MovesOutside(threads, table, t, x);
      }
      threads := threads[t := x];
      assert Names(threads, t, f);
    }

    /** t leaves the queue of f. */
    method TakeOut(t: Tid, f: Fid, x: Thread, ghost but: set<Fid>)
      requires Partly(but) && t in threads && threads[t] == Thread(Queued, Some(f)) && (f in but || x.id == Some(f))
      requires !x.place.Queued? && (x.place.Running? <==> x.id.None?)
      modifies this
      ensures Partly(but) && threads == old(threads)[t := x] && free == old(free)
      ensures f in old(table) && table == old(table)[f := Without(old(table)[f], t)]
    {
      LeavesQueue(threads, table, t, f, x);
      ghost var table' := table[f := Without(table[f], t)];
      NamedWithout(threads, table, table', t, x, but);
      assert table'.Keys == table.Keys && threads[t := x].Keys == threads.Keys;
      table := table[f := Without(table[f], t)];
      threads := threads[t := x];
    }

    /** A timeout or signal takes t out of the wait queue; its futex stays active. It does not
        take the context lock, so the operations on the futexes of `but` may be under way. */
    method Timeout(t: Tid, ghost but: set<Fid>)
      requires Partly(but) && t in threads && threads[t].place.Queued?
      modifies this
      ensures Partly(but) && threads == old(threads)[t := old(threads)[t].(place := Leaving)] && free == old(free)
      ensures var f := old(threads)[t].id.value;
              f in old(table) && table == old(table)[f := Without(old(table)[f], t)]
    {
      var f, x := threads[t].id.value, threads[t].(place := Leaving);
      assert threads[t] == Thread(Queued, Some(f));
      TakeOut(t, f, x, but);
    }

    /** The end of FutexWait after an error: the last one out returns the futex. */
    method CleanUp(t: Tid)
      requires Valid() && t in threads && threads[t].place.Leaving?
      modifies this
      ensures Valid() && threads == old(threads)[t := Thread(Running, None)]
      ensures var f := old(threads)[t].id.value;
              table == if f in old(table) && old(table)[f] == [] then old(table) - {f} else old(table)
    {
      var f, x := threads[t].id.value, Thread(Running, None);
      MovesOutside(threads, table, t, x);
      NamedWithout(threads, table, table, t, x, {f});
      threads := threads[t := x];
      assert {} + {f} == {f};
      if f in table {
        Settle(f, {});
      }
    }

    // ----- waking and requeueing -----

    /** WakeThreads on f: the first n waiters, or all of them, become runnable and name no
        futex any more. */
    method WakeSome(f: Fid, n: nat, ghost but: set<Fid>) returns (woken: seq<Tid>)
      requires Partly(but) && f in but && f in table
      modifies this
      ensures Partly(but) && table.Keys == old(table).Keys && free == old(free) && threads.Keys == old(threads).Keys
      ensures old(table)[f] == woken + table[f] && |woken| == if n < |old(table)[f]| then n else |old(table)[f]|
      ensures Changed(old(threads), threads, woken, Thread(Running, None))
      ensures forall g :: g in table && g != f ==> table[g] == old(table)[g]
    {
      woken := [];
      while |woken| < n && table[f] != []
        invariant Partly(but) && f in table && table.Keys == old(table).Keys && free == old(free) && threads.Keys == old(threads).Keys
        invariant old(table)[f] == woken + table[f] && |woken| <= n
        invariant Changed(old(threads), threads, woken, Thread(Running, None))
        invariant forall g :: g in table && g != f ==> table[g] == old(table)[g]
      {
        var q := table[f];
        var t := q[0];
        assert t in q && QueueOk(threads, table, f);
        WithoutFront(q);
        ChangedMore(old(threads), threads, woken, Thread(Running, None), t);
        OneFurther(old(table)[f], woken, q);
        TakeOut(t, f, Thread(Running, None), but);
        woken := woken + [t];
      }
    }

    /** MoveThread from f to g. */
    method MoveOne(t: Tid, f: Fid, g: Fid, prio: Tid -> int, ghost but: set<Fid>)
      requires Partly(but) && f in but && g in but && f != g && g in table
      requires t in threads && threads[t] == Thread(Queued, Some(f))
      modifies this
      ensures Partly(but) && threads == old(threads)[t := Thread(Queued, Some(g))] && free == old(free)
      ensures f in old(table) && table.Keys == old(table).Keys
      ensures table[f] == Without(old(table)[f], t) && table[g] == Insert(prio, old(table)[g], t)
      ensures forall h :: h in table && h != f && h != g ==> table[h] == old(table)[h]
    {
      TakeOut(t, f, Thread(Running, None), but);
      PutIn(t, g, prio, but);
    }

    method PutIn(t: Tid, g: Fid, prio: Tid -> int, ghost but: set<Fid>)
      requires Partly(but) && g in but && g in table && t in threads && threads[t].place.Running?
      modifies this
      ensures Partly(but) && threads == old(threads)[t := Thread(Queued, Some(g))] && free == old(free)
      ensures table == old(table)[g := Insert(prio, old(table)[g], t)]
    {
      var x := Thread(Queued, Some(g));
      ghost var table' := table[g := Insert(prio, table[g], t)];
      EntersQueue(threads, table, t, g, prio);
      NamedWithout(threads, table, table', t, x, but);
      assert table'.Keys == table.Keys && threads[t := x].Keys == threads.Keys;
      table := table[g := Insert(prio, table[g], t)];
      threads := threads[t := x];
    }

    /** The next m waiters of f now wait on g and name it. */
    method RequeueSome(f: Fid, g: Fid, m: nat, prio: Tid -> int, ghost but: set<Fid>) returns (moved: seq<Tid>)
      requires Partly(but) && f in but && g in but && f != g && f in table && g in table
      modifies this
      ensures Partly(but) && table.Keys == old(table).Keys && free == old(free) && threads.Keys == old(threads).Keys
      ensures old(table)[f] == moved + table[f] && |moved| == if m < |old(table)[f]| then m else |old(table)[f]|
      ensures Changed(old(threads), threads, moved, Thread(Queued, Some(g)))
      ensures table[g] == InsertAll(prio, old(table)[g], moved)
      ensures forall h :: h in table && h != f && h != g ==> table[h] == old(table)[h]
    {
      moved := [];
      while |moved| < m && table[f] != []
        invariant Partly(but) && f in table && g in table && table.Keys == old(table).Keys && free == old(free)
        invariant threads.Keys == old(threads).Keys && old(table)[f] == moved + table[f] && |moved| <= m
        invariant Changed(old(threads), threads, moved, Thread(Queued, Some(g)))
        invariant table[g] == InsertAll(prio, old(table)[g], moved)
        invariant forall h :: h in table && h != f && h != g ==> table[h] == old(table)[h]
      {
        var q := table[f];
        var t := q[0];
        assert t in q && QueueOk(threads, table, f);
        WithoutFront(q);
        ChangedMore(old(threads), threads, moved, Thread(Queued, Some(g)), t);
        OneFurther(old(table)[f], moved, q);
        InsertOneMore(prio, old(table)[g], moved, t);
        MoveOne(t, f, g, prio, but);
        moved := moved + [t];
      }
    }

    /** FutexWake; assign says that the woken thread is to own the futex. Timeouts may come
        in before the waking and before the futex is returned. */
    method Wake(f: Fid, n: nat, assign: bool) returns (woken: seq<Tid>)
      requires Valid()
      modifies this
      ensures Valid() && threads.Keys == old(threads).Keys
      ensures var q := Waiters(old(table), f);
              && AsMany(|woken|, n, assign, |q|) && woken == q[..|woken|] && Settled(table, f, q[|woken|..])
      ensures Elsewhere(old(table), table, f, f)
      ensures Changed(old(threads), threads, woken, Thread(Running, None))
    {
      woken := [];
      if f in table {
        assert AllNamed(threads, table, {f});
        woken := WakeSome(f, if assign then Min(n, 1) else n, {f});
        assert {} + {f} == {f};
        Settle(f, {});
      }
    }

    /** FutexRequeue, by the running thread `caller`; owner is to own g. Timeouts may come in
        before and after Activate, and before the futexes are returned. */
    method Requeue(ghost caller: Tid, f: Fid, n: nat, assign: bool, matches: bool,
                   g: Fid, m: nat, owner: Option<Tid>, prio: Tid -> int)
      returns (r: Status, woken: seq<Tid>, moved: seq<Tid>)
      requires Valid() && caller in threads && threads[caller].place.Running? && (owner.Some? ==> owner.value in threads)
      modifies this
      ensures Valid() && threads.Keys == old(threads).Keys
      ensures r == if f == g then InvalidArgs
                   else if !matches then BadState
                   else if owner.Some? && (old(threads)[owner.value].id == Some(f) || old(threads)[owner.value].id == Some(g)) then InvalidArgs
                   else Ok
      ensures r != Ok || f !in old(table) ==> threads == old(threads) && table == old(table) && woken == moved == []
      ensures r == Ok && f in old(table) ==>
                var q := old(table)[f];
                && AsMany(|woken|, n, assign, |q|) && AsMany(|moved|, m, false, |q| - |woken|)
                && q == woken + moved + q[|woken| + |moved|..]
                && Settled(table, f, q[|woken| + |moved|..])
                && Settled(table, g, InsertAll(prio, Waiters(old(table), g), moved))
                && Elsewhere(old(table), table, f, g)
      ensures forall t :: t in threads ==>
                threads[t] == if t in woken then Thread(Running, None) else if t in moved then Thread(Queued, Some(g)) else old(threads)[t]
    {
      woken, moved := [], [];
      if f == g {
        return InvalidArgs, [], [];
      }
      if !matches {
        return BadState, [], [];
      }
      if owner.Some? && (threads[owner.value].id == Some(f) || threads[owner.value].id == Some(g)) {
        return InvalidArgs, [], [];
      }
      r := Ok;
      if f in table {
        woken, moved := Shift(caller, f, if assign then Min(n, 1) else n, g, m, prio);
      }
    }

    method Shift(ghost caller: Tid, f: Fid, n: nat, g: Fid, m: nat, prio: Tid -> int) returns (woken: seq<Tid>, moved: seq<Tid>)
      requires Valid() && caller in threads && threads[caller].place.Running? && f != g && f in table
      modifies this
      ensures Valid() && threads.Keys == old(threads).Keys
      ensures var q := old(table)[f];
              && |woken| == Min(n, |q|) && |moved| == Min(m, |q| - |woken|)
              && q == woken + moved + q[|woken| + |moved|..]
              && Settled(table, f, q[|woken| + |moved|..]) && Settled(table, g, InsertAll(prio, Waiters(old(table), g), moved))
      ensures Elsewhere(old(table), table, f, g)
      ensures forall t :: t in threads ==>
                threads[t] == if t in woken then Thread(Running, None) else if t in moved then Thread(Queued, Some(g)) else old(threads)[t]
    {
      if m > 0 && g !in table {
        Activate(g, caller);
      }
      ghost var q := table[f];
      woken, moved := ShiftSome(f, n, g, m, prio);
      RestOf(q, woken, moved, table[f]);
      SettleBoth(f, g);
    }

    /** Both futexes go back to the pool if nobody waits on them. */
    method SettleBoth(f: Fid, g: Fid)
      requires Partly({g} + {f}) && f != g && f in table
      modifies this`table, this`free
      ensures Valid() && Settled(table, f, old(table)[f]) && Settled(table, g, Waiters(old(table), g))
      ensures Elsewhere(old(table), table, f, g)
    {
      Settle(f, {g});
      assert {} + {g} == {g};
      if g in table {
        Settle(g, {});
      }
    }

    method ShiftSome(f: Fid, n: nat, g: Fid, m: nat, prio: Tid -> int) returns (woken: seq<Tid>, moved: seq<Tid>)
      requires Partly({g} + {f}) && f != g && f in table && (m > 0 ==> g in table)
      modifies this
      ensures Partly({g} + {f}) && table.Keys == old(table).Keys && threads.Keys == old(threads).Keys
      ensures var q := old(table)[f];
              && |woken| == Min(n, |q|) && |moved| == Min(m, |q| - |woken|)
              && q == woken + moved + table[f]
      ensures g in table ==> table[g] == InsertAll(prio, old(table)[g], moved)
      ensures forall h :: h in table && h != f && h != g ==> table[h] == old(table)[h]
      ensures forall t :: t in threads ==>
                threads[t] == if t in woken then Thread(Running, None) else if t in moved then Thread(Queued, Some(g)) else old(threads)[t]
    {
      moved := [];
      woken := WakeSome(f, n, {g} + {f});
      ghost var threads1 := threads;
      if m > 0 {
        moved := RequeueSome(f, g, m, prio, {g} + {f});
        Assoc(woken, moved, table[f]);
        NotBoth(old(table)[f], woken, moved, old(threads), old(table), f);
        ChangedTwice(old(threads), threads1, threads, woken, moved, g);
      }
    }
  }

  /** Nobody is woken and moved at once. */
  lemma NotBoth(q: seq<Tid>, woken: seq<Tid>, moved: seq<Tid>, threads: Threads, table: Table, f: Fid)
    requires QueuesOk(threads, table) && f in table && q == table[f] && woken + moved <= q
    ensures forall t :: t in woken ==> t !in moved
  {
    assert QueueOk(threads, table, f);
    forall t | t in woken ensures t !in moved {
      var i :| 0 <= i < |woken| && woken[i] == t;
      assert q[i] == t;
      assert forall j :: 0 <= j < |moved| ==> moved[j] == q[|woken| + j];
    }
  }
}
