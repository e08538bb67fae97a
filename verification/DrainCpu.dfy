/** sched_transition_off_cpu (kernel/kernel/sched.cc): a CPU that goes away hands its ready
    threads to the others, except those that are pinned to it, which stay in order. */
module DrainCpu {
  import opened PriorityList
  import opened RunQueues

  // ----- which threads stay, and in which order -----

  /** The threads of l that may run nowhere else. */
  function Keep(l: seq<Tid>, pinned: set<Tid>): seq<Tid> {
    if l == [] then []
    else if l[0] in pinned then [l[0]] + Keep(l[1..], pinned)
    else Keep(l[1..], pinned)
  }

  /** All of those, and no others, in the same order. */
  lemma {:induction false} KeepIs(l: seq<Tid>, pinned: set<Tid>)
    ensures forall t :: t in Keep(l, pinned) <==> t in l && t in pinned
    ensures Subsequence(Keep(l, pinned), l)
  {
    if l != [] {
      KeepIs(l[1..], pinned);
      assert l == [l[0]] + l[1..];
      if l[0] in pinned {
        assert Keep(l, pinned)[1..] == Keep(l[1..], pinned);
      } else {
        SubLater(Keep(l, pinned), l);
      }
    }
  }

  /** Those of the set-aside threads that belong to list p. */
  function OfPriority(l: seq<Tid>, threads: Threads, p: int): seq<Tid> {
    if l == [] then []
    else
      var front, t := l[..|l| - 1], l[|l| - 1];
      if t in threads && threads[t].effec == p then OfPriority(front, threads, p) + [t] else OfPriority(front, threads, p)
  }

  ghost function Ready(threads: Threads, c: CpuNum): set<Tid> {
    set t | t in threads && threads[t].queued && threads[t].cpu == c
  }

  ghost function PinnedTo(threads: Threads, c: CpuNum): set<Tid> {
    set t | t in threads && threads[t].affinity == {c}
  }

  /** The lists of the CPU and the threads set aside make up what it is to keep. */
  ghost predicate Kept(lists0: seq<seq<Tid>>, pinned: set<Tid>, lists: seq<seq<Tid>>, aside: seq<Tid>, threads: Threads) {
    && |lists0| == |lists| == NUM
    && forall p {:trigger lists[p]} :: 0 <= p < NUM ==> Keep(lists0[p], pinned) == OfPriority(aside, threads, p) + Keep(lists[p], pinned)
  }

  lemma TakeOne(lists0: seq<seq<Tid>>, pinned: set<Tid>, lists: seq<seq<Tid>>, aside: seq<Tid>, threads: Threads, p: int)
    requires Kept(lists0, pinned, lists, aside, threads) && 0 <= p < NUM && lists[p] != []
    requires lists[p][0] in threads && threads[lists[p][0]].effec == p
    ensures Kept(lists0, pinned, lists[p := lists[p][1..]], if lists[p][0] in pinned then aside + [lists[p][0]] else aside, threads)
  {
    var t := lists[p][0];
    var aside', lists' := aside + [t], lists[p := lists[p][1..]];
    assert aside'[..|aside' | - 1] == aside;
    forall q | 0 <= q < NUM
      ensures Keep(lists0[q], pinned) == OfPriority(if t in pinned then aside' else aside, threads, q) + Keep(lists'[q], pinned)
    {
      assert Keep(lists0[q], pinned) == OfPriority(aside, threads, q) + Keep(lists[q], pinned);
    }
  }

  lemma PutOne(lists0: seq<seq<Tid>>, pinned: set<Tid>, lists: seq<seq<Tid>>, aside: seq<Tid>, threads: Threads, p: int)
    requires Kept(lists0, pinned, lists, aside, threads) && aside != []
    requires var t := aside[|aside| - 1]; t in pinned && t in threads && threads[t].effec == p && 0 <= p < NUM
    ensures Kept(lists0, pinned, lists[p := [aside[|aside| - 1]] + lists[p]], aside[..|aside| - 1], threads)
  {
    var t, front := aside[|aside| - 1], aside[..|aside| - 1];
    var l := [t] + lists[p];
    assert l[1..] == lists[p];
    forall q | 0 <= q < NUM
      ensures Keep(lists0[q], pinned) == OfPriority(front, threads, q) + Keep(lists[p := l][q], pinned)
    {
      assert Keep(lists0[q], pinned) == OfPriority(aside, threads, q) + Keep(lists[q], pinned);
      if q == p {
        Assoc(OfPriority(front, threads, p), [t], Keep(lists[p], pinned));
      }
    }
  }

  // ----- where everybody is -----

  /** The drain of c from threads0: nobody else moved, those set aside are pinned and
      unlinked, and those that left are where they may run. */
  ghost predicate Moved(threads0: Threads, threads: Threads, c: CpuNum, aside: seq<Tid>, active: set<CpuNum>) {
    && threads.Keys == threads0.Keys && Distinct(aside)
    && (forall t :: t in threads ==> threads[t].effec == threads0[t].effec && threads[t].affinity == threads0[t].affinity)
    && (forall t :: t in threads && t !in Ready(threads0, c) ==> threads[t] == threads0[t])
    && (forall t :: t in aside ==> t in threads && !threads[t].queued && threads[t].affinity == {c} && t in Ready(threads0, c))
    && (forall t :: t in Ready(threads0, c) && t !in aside ==>
          threads[t].queued && (threads[t].cpu == c || threads[t].cpu in threads[t].affinity * active))
  }

  ghost predicate GoodMasks(threads: Threads) {
    forall t, d :: t in threads && d in threads[t].affinity ==> d.num >= 0
  }

  /** t is ready on c and is to leave, but no CPU it may run on is active. */
  ghost predicate Stranded(threads: Threads, c: CpuNum, active: set<CpuNum>, t: Tid) {
    t in Ready(threads, c) && threads[t].affinity != {c} && threads[t].affinity * active == {}
  }

  ghost predicate NobodyStranded(threads: Threads, c: CpuNum, active: set<CpuNum>) {
    forall t :: !Stranded(threads, c, active, t)
  }

  lemma SetAside(threads0: Threads, threads: Threads, c: CpuNum, aside: seq<Tid>, active: set<CpuNum>, t: Tid)
    requires Moved(threads0, threads, c, aside, active) && t in threads && threads[t].queued && threads[t].cpu == c
    requires threads[t].affinity == {c}
    ensures Moved(threads0, threads[t := threads[t].(queued := false)], c, aside + [t], active)
  {
    assert t !in aside;
  }

  lemma SentAway(threads0: Threads, threads: Threads, c: CpuNum, aside: seq<Tid>, active: set<CpuNum>, t: Tid, e: CpuNum)
    requires Moved(threads0, threads, c, aside, active) && t in threads && threads[t].queued && threads[t].cpu == c
    requires e == c || e in threads[t].affinity * active
    ensures Moved(threads0, threads[t := threads[t].(cpu := e, queued := true)], c, aside, active)
  {
  }

  lemma BroughtBack(threads0: Threads, threads: Threads, c: CpuNum, aside: seq<Tid>, active: set<CpuNum>)
    requires Moved(threads0, threads, c, aside, active) && aside != [] && aside[|aside| - 1] in threads
    ensures var t := aside[|aside| - 1];
            Moved(threads0, threads[t := threads[t].(cpu := c, queued := true)], c, aside[..|aside| - 1], active)
  {
    var t, front := aside[|aside| - 1], aside[..|aside| - 1];
    assert t in aside && aside == front + [t];
    assert forall u :: u in front ==> u in aside && u != t;
  }

  /** Both halves of the invariant, for a scheduler. */
  ghost predicate Draining(s: Scheduler, threads0: Threads, lists0: seq<seq<Tid>>, c: CpuNum, aside: seq<Tid>, active: set<CpuNum>)
    reads s
  {
    && s.Valid() && c in s.cpus && active <= s.cpus.Keys
    && Moved(threads0, s.threads, c, aside, active)
    && Kept(lists0, PinnedTo(threads0, c), s.cpus[c].lists, aside, threads0)
  }

  ghost predicate AllEmpty(lists: seq<seq<Tid>>) {
    forall p :: 0 <= p < |lists| ==> lists[p] == []
  }

  ghost predicate AllPinned(lists: seq<seq<Tid>>, pinned: set<Tid>) {
    forall p, t :: 0 <= p < |lists| && t in lists[p] ==> t in pinned
  }

  /** The lists after the first thread of list p was taken. */
  lemma TopTaken(threads: Threads, rq: RunQueue, c: CpuNum, p: int, t: Tid,
                 threads0: Threads, lists0: seq<seq<Tid>>, aside: seq<Tid>, active: set<CpuNum>)
    requires CpuOk(threads, rq, c) && Moved(threads0, threads, c, aside, active)
    requires Kept(lists0, PinnedTo(threads0, c), rq.lists, aside, threads0)
    requires 0 <= p < NUM && rq.lists[p] != [] && t == rq.lists[p][0]
    ensures t in threads0 && threads[t].queued && threads[t].cpu == c && t in Ready(threads0, c)
    ensures Kept(lists0, PinnedTo(threads0, c), Drop(rq, p, t).lists, if t in PinnedTo(threads0, c) then aside + [t] else aside, threads0)
  {
    assert t in rq.lists[p];
    WithoutFront(rq.lists[p]);
    TakeOne(lists0, PinnedTo(threads0, c), rq.lists, aside, threads0, p);
  }

  /** The top thread is set aside or sent away; a stranded one comes back to this CPU. */
  method DrainOne(s: Scheduler, c: CpuNum, last: Tid -> CpuNum, idle: set<CpuNum>, active: set<CpuNum>, sliceLeft: Tid -> bool,
                  aside: seq<Tid>, ghost threads0: Threads, ghost lists0: seq<seq<Tid>>)
    returns (more: bool, aside': seq<Tid>)
    requires Draining(s, threads0, lists0, c, aside, active) && GoodMasks(threads0) && c !in active
    modifies s
    ensures Draining(s, threads0, lists0, c, aside', active) && s.cpus.Keys == old(s.cpus).Keys
    ensures more && NobodyStranded(threads0, c, active) ==> Ready(s.threads, c) < old(Ready(s.threads, c))
    ensures !more ==> AllEmpty(s.cpus[c].lists)
    ensures forall u :: old(Stranded(s.threads, c, active, u)) ==> more && Stranded(s.threads, c, active, u)
  {
    aside' := aside;
    ghost var threads, rq := s.threads, s.cpus[c];
    assert At(s.threads, s.cpus, c);
    var top := s.GetTop(c);
    more := top.Some?;
    if !more {
      NobodyLeft(s.threads, s.cpus, c);
      return;
    }
    var t := top.value;
    TopTaken(threads, rq, c, threads[t].effec, t, threads0, lists0, aside, active);
    aside' := Dispose(s, c, t, last(t), idle, active, sliceLeft(t), aside, threads, threads0, lists0);
  }

  /** What becomes of the thread t that was just taken off its list. */
  method Dispose(s: Scheduler, c: CpuNum, t: Tid, last: CpuNum, idle: set<CpuNum>, active: set<CpuNum>, sliceLeft: bool,
                 aside: seq<Tid>, ghost threads: Threads, ghost threads0: Threads, ghost lists0: seq<seq<Tid>>)
    returns (aside': seq<Tid>)
    requires s.Valid() && c in s.cpus && active <= s.cpus.Keys && t in threads && threads[t].queued && threads[t].cpu == c
    requires s.threads == threads[t := threads[t].(queued := false)] && Moved(threads0, threads, c, aside, active)
    requires Kept(lists0, PinnedTo(threads0, c), s.cpus[c].lists, if t in PinnedTo(threads0, c) then aside + [t] else aside, threads0)
    requires GoodMasks(threads0) && c !in active && t in Ready(threads0, c)
    modifies s
    ensures Draining(s, threads0, lists0, c, aside', active) && s.cpus.Keys == old(s.cpus).Keys
    ensures NobodyStranded(threads0, c, active) ==> Ready(s.threads, c) < Ready(threads, c)
    ensures forall u :: Stranded(threads, c, active, u) ==> Stranded(s.threads, c, active, u)
  {
    aside' := aside;
    if s.threads[t].affinity != {c} {
      assert NobodyStranded(threads0, c, active) ==> !Stranded(threads0, c, active, t);
      SendAway(s, c, t, last, idle, active, sliceLeft, aside, threads, threads0, lists0);
    } else {
      aside' := aside + [t];
      SetAside(threads0, threads, c, aside, active, t);
      ReadyLess(threads, s.threads, c, t);
    }
  }

  method SendAway(s: Scheduler, c: CpuNum, t: Tid, last: CpuNum, idle: set<CpuNum>, active: set<CpuNum>, sliceLeft: bool,
                  ghost aside: seq<Tid>, ghost threads: Threads, ghost threads0: Threads, ghost lists0: seq<seq<Tid>>)
    requires s.Valid() && c in s.cpus && active <= s.cpus.Keys && t in threads && threads[t].queued && threads[t].cpu == c
    requires s.threads == threads[t := threads[t].(queued := false)] && Moved(threads0, threads, c, aside, active)
    requires Kept(lists0, PinnedTo(threads0, c), s.cpus[c].lists, aside, threads0)
    requires c !in active && threads[t].affinity != {c} && forall d :: d in threads[t].affinity ==> d.num >= 0
    modifies s
    ensures Draining(s, threads0, lists0, c, aside, active) && s.cpus.Keys == old(s.cpus).Keys
    ensures threads[t].affinity * active != {} ==> Ready(s.threads, c) < Ready(threads, c)
    ensures forall u :: Stranded(threads, c, active, u) ==> Stranded(s.threads, c, active, u)
  {
    ghost var lists, p := s.cpus[c].lists, threads[t].effec;
    var e := s.FindCpuAndInsert(t, c, last, idle, active, sliceLeft);
    SentAway(threads0, threads, c, aside, active, t, e);
    assert s.threads == threads[t := threads[t].(cpu := e, queued := true)];
    if e == c {
      NotKept(lists0, PinnedTo(threads0, c), lists, aside, threads0, p, t);
    } else {
      ReadyLess(threads, s.threads, c, t);
    }
  }

  /** A thread that is not pinned may come back to any place. */
  lemma NotKept(lists0: seq<seq<Tid>>, pinned: set<Tid>, lists: seq<seq<Tid>>, aside: seq<Tid>, threads: Threads, p: int, t: Tid)
    requires Kept(lists0, pinned, lists, aside, threads) && 0 <= p < NUM && t !in pinned
    ensures Kept(lists0, pinned, lists[p := [t] + lists[p]], aside, threads)
    ensures Kept(lists0, pinned, lists[p := lists[p] + [t]], aside, threads)
  {
    KeepWithout(lists[p], pinned, t);
    assert Keep(lists0[p], pinned) == OfPriority(aside, threads, p) + Keep(lists[p], pinned);
  }

  lemma {:induction false} KeepWithout(l: seq<Tid>, pinned: set<Tid>, t: Tid)
    requires t !in pinned
    ensures Keep([t] + l, pinned) == Keep(l, pinned) == Keep(l + [t], pinned)
  {
    assert ([t] + l)[1..] == l;
    if l != [] {
      KeepWithout(l[1..], pinned, t);
      assert (l + [t])[1..] == l[1..] + [t];
    }
  }

  lemma ReadyLess(threads: Threads, threads': Threads, c: CpuNum, t: Tid)
    requires t in Ready(threads, c) && threads'.Keys == threads.Keys && !(threads'[t].queued && threads'[t].cpu == c)
    requires forall u :: u in threads && u != t ==> threads'[u] == threads[u]
    ensures Ready(threads', c) < Ready(threads, c)
  {
    assert t !in Ready(threads', c);
  }

  lemma ListedHere(threads: Threads, rq: RunQueue, c: CpuNum, p: int)
    requires CpuOk(threads, rq, c) && 0 <= p < NUM && rq.lists[p] != []
    ensures exists t :: t in threads && threads[t].queued && threads[t].cpu == c
  {
    var t := rq.lists[p][0];
    assert t in rq.lists[p];
    assert t in threads && threads[t].queued && threads[t].cpu == c;
  }

  lemma NobodyLeft(threads: Threads, cpus: map<CpuNum, RunQueue>, c: CpuNum)
    requires AllOk(threads, cpus) && c in cpus && forall t :: t in threads && threads[t].queued ==> threads[t].cpu != c
    ensures AllEmpty(cpus[c].lists)
  {
    assert At(threads, cpus, c);
    var lists := cpus[c].lists;
    forall p | 0 <= p < NUM ensures lists[p] == [] {
      if lists[p] != [] {
        ListedHere(threads, cpus[c], c, p);
      }
    }
  }

  /** The thread set aside last goes back first, to the front of its list. */
  method BringBack(s: Scheduler, c: CpuNum, aside: seq<Tid>, ghost threads0: Threads, ghost lists0: seq<seq<Tid>>, ghost active: set<CpuNum>)
    requires Draining(s, threads0, lists0, c, aside, active) && aside != [] && AllPinned(s.cpus[c].lists, PinnedTo(threads0, c))
    modifies s
    ensures Draining(s, threads0, lists0, c, aside[..|aside| - 1], active) && s.cpus.Keys == old(s.cpus).Keys
    ensures AllPinned(s.cpus[c].lists, PinnedTo(threads0, c))
  {
    var t := aside[|aside| - 1];
    assert t in aside;
    assert At(s.threads, s.cpus, c);
    BroughtBack(threads0, s.threads, c, aside, active);
    PutOne(lists0, PinnedTo(threads0, c), s.cpus[c].lists, aside, threads0, s.threads[t].effec);
    s.Insert(c, t, true);
  }

  /** Afterwards each list of c holds exactly its pinned threads in their old order, every
      other thread that was ready there is ready where it may run, and nobody else moved. */
  method TransitionOff(s: Scheduler, c: CpuNum, last: Tid -> CpuNum, idle: set<CpuNum>, active: set<CpuNum>, sliceLeft: Tid -> bool)
    requires s.Valid() && c in s.cpus && active <= s.cpus.Keys && c !in active && GoodMasks(s.threads)
    requires NobodyStranded(s.threads, c, active)
    modifies s
    ensures s.Valid() && s.cpus.Keys == old(s.cpus).Keys && Moved(old(s.threads), s.threads, c, [], active)
    ensures KeptExactly(old(s.cpus)[c].lists, s.cpus[c].lists, old(PinnedTo(s.threads, c)))
  {
    ghost var threads0, lists0 := s.threads, s.cpus[c].lists;
    NothingAside(s.threads, s.cpus, c);
    var aside, more := [], true;
    while more
      invariant Draining(s, threads0, lists0, c, aside, active) && s.cpus.Keys == old(s.cpus).Keys
      invariant !more ==> AllEmpty(s.cpus[c].lists)
      decreases more, Ready(s.threads, c)
    {
      more, aside := DrainOne(s, c, last, idle, active, sliceLeft, aside, threads0, lists0);
    }
    while aside != []
      invariant Draining(s, threads0, lists0, c, aside, active) && s.cpus.Keys == old(s.cpus).Keys
      invariant AllPinned(s.cpus[c].lists, PinnedTo(threads0, c))
      decreases |aside|
    {
      BringBack(s, c, aside, threads0, lists0, active);
      aside := aside[..|aside| - 1];
    }
    AllBack(lists0, s.cpus[c].lists, PinnedTo(threads0, c), threads0);
  }

  /** The first loop does not end otherwise: with a stranded thread it goes on after any
      number of rounds. */
  method NeverDrained(s: Scheduler, c: CpuNum, last: Tid -> CpuNum, idle: set<CpuNum>, active: set<CpuNum>, sliceLeft: Tid -> bool,
                      n: nat, t: Tid)
    returns (more: bool)
    requires s.Valid() && c in s.cpus && active <= s.cpus.Keys && c !in active && GoodMasks(s.threads)
    requires Stranded(s.threads, c, active, t)
    modifies s
    ensures more && s.Valid() && Stranded(s.threads, c, active, t)
  {
    ghost var threads0, lists0 := s.threads, s.cpus[c].lists;
    NothingAside(s.threads, s.cpus, c);
    var aside: seq<Tid> := [];
    more := true;
    var i := 0;
    while i < n
      invariant Draining(s, threads0, lists0, c, aside, active) && s.cpus.Keys == old(s.cpus).Keys
      invariant more && Stranded(s.threads, c, active, t)
    {
      more, aside := DrainOne(s, c, last, idle, active, sliceLeft, aside, threads0, lists0);
      i := i + 1;
    }
  }

  /** Each list is what was there before, less the threads that are not pinned. */
  ghost predicate KeptExactly(lists0: seq<seq<Tid>>, lists: seq<seq<Tid>>, pinned: set<Tid>) {
    |lists0| == |lists| == NUM && forall p :: 0 <= p < NUM ==> lists[p] == Keep(lists0[p], pinned)
  }

  lemma AllBack(lists0: seq<seq<Tid>>, lists: seq<seq<Tid>>, pinned: set<Tid>, threads: Threads)
    requires Kept(lists0, pinned, lists, [], threads) && AllPinned(lists, pinned)
    ensures KeptExactly(lists0, lists, pinned)
  {
    forall p | 0 <= p < NUM ensures lists[p] == Keep(lists0[p], pinned) {
      KeepAll(lists[p], pinned);
    }
  }

  lemma NothingAside(threads: Threads, cpus: map<CpuNum, RunQueue>, c: CpuNum)
    requires AllOk(threads, cpus) && c in cpus
    ensures Kept(cpus[c].lists, PinnedTo(threads, c), cpus[c].lists, [], threads)
  {
    assert At(threads, cpus, c);
  }

  lemma {:induction false} KeepAll(l: seq<Tid>, pinned: set<Tid>)
    requires forall t :: t in l ==> t in pinned
    ensures Keep(l, pinned) == l
  {
    if l != [] {
      assert l == [l[0]] + l[1..];
      KeepAll(l[1..], pinned);
    }
  }
}
