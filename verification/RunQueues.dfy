/** The priority scheduler's run queues (kernel/kernel/sched.cc): per CPU one list for each
    of 32 priorities and a bitmap of the lists that are not empty; the choice of a CPU; and
    priority boosts. */
module RunQueues {
  import opened PriorityList

  const HIGHEST := 31
  const NUM := 32
  const MAX_ADJ := 4

  datatype CpuNum = CpuNum(num: int)

  /** queued says that the thread is linked into a run queue. */
  datatype Thread = Thread(effec: int, cpu: CpuNum, queued: bool, affinity: set<CpuNum>)

  datatype RunQueue = RunQueue(lists: seq<seq<Tid>>, bits: seq<bool>)

  type Threads = map<Tid, Thread>

  // ----- the bitmap -----

  /** __builtin_clz on the 32 bits, most significant last in the sequence. */
  function LeadingZeros(bits: seq<bool>): (n: int)
    ensures 0 <= n <= |bits|
  {
    if bits == [] || bits[|bits| - 1] then 0 else 1 + LeadingZeros(bits[..|bits| - 1])
  }

  lemma {:induction false} LeadingZerosBound(bits: seq<bool>)
    ensures forall q :: |bits| - LeadingZeros(bits) <= q < |bits| ==> !bits[q]
    ensures LeadingZeros(bits) < |bits| ==> bits[|bits| - 1 - LeadingZeros(bits)]
  {
    if bits != [] && !bits[|bits| - 1] {
      LeadingZerosBound(bits[..|bits| - 1]);
    }
  }

  /** highest_run_queue. */
  function HighestRunQueue(bits: seq<bool>): int { HIGHEST - LeadingZeros(bits) - (NUM - NUM) }

  // ----- one run queue -----

  ghost predicate BitsOk(rq: RunQueue) {
    |rq.lists| == NUM && |rq.bits| == NUM && forall p :: 0 <= p < NUM ==> (rq.bits[p] <==> rq.lists[p] != [])
  }

  function AddHead(rq: RunQueue, p: int, t: Tid): RunQueue
    requires 0 <= p < |rq.lists| && p < |rq.bits|
  {
    RunQueue(rq.lists[p := [t] + rq.lists[p]], rq.bits[p := true])
  }

  function AddTail(rq: RunQueue, p: int, t: Tid): RunQueue
    requires 0 <= p < |rq.lists| && p < |rq.bits|
  {
    RunQueue(rq.lists[p := rq.lists[p] + [t]], rq.bits[p := true])
  }

  /** Unlinks t from list p and clears the bit if that was the last one. */
  function Drop(rq: RunQueue, p: int, t: Tid): RunQueue
    requires 0 <= p < |rq.lists| && p < |rq.bits|
  {
    var l := Without(rq.lists[p], t);
    RunQueue(rq.lists[p := l], if l == [] then rq.bits[p := false] else rq.bits)
  }

  /** The top list is the highest that is not empty. */
  lemma HighestIsTop(rq: RunQueue)
    requires BitsOk(rq)
    ensures (exists p :: 0 <= p < NUM && rq.bits[p]) <==> LeadingZeros(rq.bits) < NUM
    ensures LeadingZeros(rq.bits) < NUM ==>
              var p := HighestRunQueue(rq.bits);
              0 <= p < NUM && rq.lists[p] != [] && forall q :: p < q < NUM ==> rq.lists[q] == []
  {
    LeadingZerosBound(rq.bits);
  }

  // ----- the invariant -----

  /** Lists and bitmap agree, and a thread in list p of CPU c says so itself. */
  ghost predicate CpuOk(threads: Threads, rq: RunQueue, c: CpuNum) {
    && BitsOk(rq)
    && (forall p :: 0 <= p < NUM ==> Distinct(rq.lists[p]))
    && (forall p, t :: 0 <= p < NUM && t in rq.lists[p] ==>
          t in threads && threads[t].queued && threads[t].effec == p && threads[t].cpu == c)
  }

  ghost predicate At(threads: Threads, cpus: map<CpuNum, RunQueue>, c: CpuNum) {
    c in cpus ==> CpuOk(threads, cpus[c], c)
  }

  /** A thread that is linked is in the list of its own CPU and priority. */
  ghost predicate Linked(threads: Threads, cpus: map<CpuNum, RunQueue>, t: Tid) {
    t in threads && threads[t].queued ==>
      && threads[t].cpu in cpus && 0 <= threads[t].effec < |cpus[threads[t].cpu].lists|
      && t in cpus[threads[t].cpu].lists[threads[t].effec]
  }

  ghost predicate AllOk(threads: Threads, cpus: map<CpuNum, RunQueue>) {
    && (forall c {:trigger At(threads, cpus, c)} :: c in cpus ==> At(threads, cpus, c))
    && (forall t {:trigger Linked(threads, cpus, t)} :: t in threads ==> Linked(threads, cpus, t))
    && (forall t :: t in threads ==> 0 <= threads[t].effec <= HIGHEST)
  }

  /** An unlinked thread may change as it likes. */
  lemma UnlinkedOk(threads: Threads, threads': Threads, rq: RunQueue, c: CpuNum, t: Tid)
    requires CpuOk(threads, rq, c) && t in threads && threads'.Keys == threads.Keys
    requires forall u :: u in threads && u != t ==> threads'[u] == threads[u]
    requires forall p :: 0 <= p < NUM ==> t !in rq.lists[p]
    ensures CpuOk(threads', rq, c)
  {
  }

  /** Linking t into list p of CPU c. */
  lemma LinkOk(threads: Threads, cpus: map<CpuNum, RunQueue>, c: CpuNum, t: Tid, head: bool)
    requires AllOk(threads, cpus) && c in cpus && t in threads && !threads[t].queued
    ensures BitsOk(cpus[c])
    ensures var rq := if head then AddHead(cpus[c], threads[t].effec, t) else AddTail(cpus[c], threads[t].effec, t);
            AllOk(threads[t := threads[t].(cpu := c, queued := true)], cpus[c := rq])
  {
    assert At(threads, cpus, c);
    var p := threads[t].effec;
    var rq := if head then AddHead(cpus[c], p, t) else AddTail(cpus[c], p, t);
    var threads', cpus' := threads[t := threads[t].(cpu := c, queued := true)], cpus[c := rq];
    forall e | e in cpus' ensures At(threads', cpus', e) {
      assert At(threads, cpus, e);
      if e != c { UnlinkedOk(threads, threads', cpus[e], e, t); }
    }
    forall u | u in threads' ensures Linked(threads', cpus', u) {
      assert Linked(threads, cpus, u);
    }
  }

  /** Unlinking it again. */
  lemma UnlinkOk(threads: Threads, cpus: map<CpuNum, RunQueue>, t: Tid)
    requires AllOk(threads, cpus) && t in threads && threads[t].queued
    ensures threads[t].cpu in cpus && BitsOk(cpus[threads[t].cpu]) && t in cpus[threads[t].cpu].lists[threads[t].effec]
    ensures AllOk(threads[t := threads[t].(queued := false)],
                  cpus[threads[t].cpu := Drop(cpus[threads[t].cpu], threads[t].effec, t)])
  {
    assert Linked(threads, cpus, t);
    var c, p := threads[t].cpu, threads[t].effec;
    assert At(threads, cpus, c);
    DropOk(threads, cpus[c], c, t);
    var threads', cpus' := threads[t := threads[t].(queued := false)], cpus[c := Drop(cpus[c], p, t)];
    WithoutMembers(cpus[c].lists[p], t);
    forall e | e in cpus' ensures At(threads', cpus', e) {
      assert At(threads, cpus, e);
      if e != c { UnlinkedOk(threads, threads', cpus[e], e, t); }
    }
    forall u | u in threads' ensures Linked(threads', cpus', u) {
      assert Linked(threads, cpus, u);
    }
  }

  lemma DropOk(threads: Threads, rq: RunQueue, c: CpuNum, t: Tid)
    requires CpuOk(threads, rq, c) && t in threads && 0 <= threads[t].effec < NUM
    ensures CpuOk(threads[t := threads[t].(queued := false)], Drop(rq, threads[t].effec, t), c)
  {
    var p := threads[t].effec;
    WithoutMembers(rq.lists[p], t);
    WithoutKeepsDistinct(rq.lists[p], t);
  }

  // ----- boosts -----

  /** A thread's base priority and boost are in range. */
  predicate BoostOk(base: int, boost: int) {
    0 <= base <= HIGHEST && -MAX_ADJ <= boost <= MAX_ADJ && 0 <= base + boost <= HIGHEST
  }

  function Boost(base: int, boost: int): int {
    if boost < MAX_ADJ && base + boost < HIGHEST then boost + 1 else boost
  }

  /** deboost_thread as it is written: for a small base priority the floor on quantum
      expiration is base - LOWEST_PRIORITY. */
  function Floor(base: int, expired: bool): int {
    if !expired then 0 else if base - MAX_ADJ < 0 then base else -MAX_ADJ
  }

  function Deboost(base: int, boost: int, expired: bool): int {
    if boost <= Floor(base, expired) then boost else boost - 1
  }

  /** The floor that keeps base + boost at or above LOWEST_PRIORITY. */
  function IntendedFloor(base: int, expired: bool): int {
    if !expired then 0 else if base - MAX_ADJ < 0 then -base else -MAX_ADJ
  }

  lemma BoostsStayInRange(base: int, boost: int, expired: bool)
    requires BoostOk(base, boost)
    ensures BoostOk(base, Boost(base, boost)) && BoostOk(base, Deboost(base, boost, expired))
    ensures boost <= Boost(base, boost) <= boost + 1 && (Boost(base, boost) == boost <==> boost == MAX_ADJ || base + boost == HIGHEST)
    ensures boost - 1 <= Deboost(base, boost, expired) <= boost && (!expired ==> (Deboost(base, boost, expired) < boost <==> boost > 0))
  {
  }

  /** A thread of base priority 3 keeps a boost of 3 however many quanta it uses up. */
  lemma LowThreadKeepsBoost()
    ensures BoostOk(3, 3) && Deboost(3, 3, true) == 3 && IntendedFloor(3, true) < 3
  {
  }

  /** The thread is lowered exactly when it should be, except for boosts between minus and
      plus its base priority when that is below MAX_PRIORITY_ADJ. */
  lemma DeboostAsIntended(base: int, boost: int, expired: bool)
    requires BoostOk(base, boost)
    ensures Deboost(base, boost, expired) == (if boost <= IntendedFloor(base, expired) then boost else boost - 1)
            <==> !(expired && base < MAX_ADJ && -base < boost <= base)
  {
  }

  // ----- choosing a CPU -----

  predicate IsHighest(s: set<CpuNum>, c: CpuNum) {
    c in s && forall d :: d in s ==> d.num <= c.num
  }

  lemma {:induction false} HighestExists(s: set<CpuNum>) returns (c: CpuNum)
    requires s != {}
    ensures IsHighest(s, c)
  {
    c :| c in s;
    if s != {c} {
      var d := HighestExists(s - {c});
      c := if c.num >= d.num then c else d;
    }
  }

  class Scheduler {
    var threads: Threads
    var cpus: map<CpuNum, RunQueue>
    var rot: nat

    ghost predicate Valid()
      reads this
    {
      AllOk(threads, cpus)
    }

    constructor (all: set<CpuNum>)
      ensures Valid() && threads == map[] && cpus.Keys == all
    {
      threads, rot := map[], 0;
      cpus := map c | c in all :: RunQueue(seq(NUM, p => []), seq(NUM, p => false));
      new;
      forall c | c in cpus ensures At(threads, cpus, c) {
      }
    }

    /** rand_cpu: round robin to the next CPU of the mask that is active; it comes round to
        the highest one at the latest. */
    method RandCpu(mask: set<CpuNum>, active: set<CpuNum>) returns (c: Option<CpuNum>)
      requires forall d :: d in mask ==> d.num >= 0
      modifies this`rot
      ensures c.None? <==> mask * active == {}
      ensures c.None? ==> rot == old(rot)
      ensures c.Some? ==> c.value in mask * active && c.value == CpuNum(rot)
      ensures c.Some? ==> forall d :: d in mask * active ==>
                if rot > old(rot) then !(old(rot) < d.num < rot) else rot <= d.num <= old(rot)
    {
      var some := mask * active;
      if some == {} {
        return None;
      }
      ghost var top := HighestExists(some);
      var highest :| IsHighest(some, highest);
      assert IsHighest(some, highest);
      assert highest in mask && highest == CpuNum(highest.num);
      ghost var wrapped := false;
      while true
        invariant forall d :: d in some ==> 0 <= d.num <= highest.num
        invariant if wrapped then forall d :: d in some ==> rot < d.num <= old(rot)
                  else rot >= old(rot) && forall d :: d in some ==> !(old(rot) < d.num <= rot)
        decreases if rot < highest.num then highest.num - rot else highest.num + 1
      {
        rot := rot + 1;
        if rot > highest.num {
          rot, wrapped := 0, true;
        }
        if CpuNum(rot) in some {
          return Some(CpuNum(rot));
        }
        assert forall d :: d in some ==> d == CpuNum(d.num) && d.num != rot;
      }
    }

    /** find_cpu_mask: an idle CPU if there is one, else the last one, else any. The result
        is a CPU the thread may use whenever there is one. */
    method FindCpu(t: Tid, here: CpuNum, last: CpuNum, idle: set<CpuNum>, active: set<CpuNum>) returns (c: CpuNum)
      requires t in threads && forall d :: d in threads[t].affinity ==> d.num >= 0
      modifies this`rot
      ensures threads[t].affinity * active != {} ==> c in threads[t].affinity * active
      ensures threads[t].affinity * active == {} ==> c == here
      ensures here in idle * threads[t].affinity * active ==> c == here
      ensures idle * threads[t].affinity * active != {} ==> c in idle
      ensures here !in idle * threads[t].affinity * active && last in idle * threads[t].affinity * active ==> c == last
      ensures idle * threads[t].affinity * active == {} && last in threads[t].affinity * active && last != here ==> c == last
      ensures idle * threads[t].affinity * active == {} && c == here ==> threads[t].affinity * active <= {here}
    {
      var affinity := threads[t].affinity;
      var candidates := idle * affinity * active;
      if candidates != {} {
        if here in candidates {
          return here;
        }
        if last in candidates {
          return last;
        }
        var r := RandCpu(candidates, active);
        assert candidates * active == candidates;
        return r.value;
      }
      if last in affinity * active && last != here {
        return last;
      }
      var mask := affinity - {here};
      if mask == {} {
        assert affinity * active <= {here};
        return here;
      }
      var r := RandCpu(mask, active);
      if r.None? {
        assert affinity * active <= {here};
        return here;
      }
      return r.value;
    }

    // ----- run queue manipulation -----

    method Insert(c: CpuNum, t: Tid, head: bool)
      requires Valid() && c in cpus && t in threads && !threads[t].queued
      modifies this
      ensures Valid() && cpus.Keys == old(cpus).Keys && rot == old(rot)
      ensures threads == old(threads)[t := old(threads)[t].(cpu := c, queued := true)]
      ensures BitsOk(old(cpus)[c])
      ensures cpus == old(cpus)[c := if head then AddHead(old(cpus)[c], threads[t].effec, t)
                                     else AddTail(old(cpus)[c], threads[t].effec, t)]
      ensures var p := threads[t].effec;
              && BitsOk(cpus[c]) && cpus[c].lists[p] == (if head then [t] + old(cpus)[c].lists[p] else old(cpus)[c].lists[p] + [t])
              && forall q :: 0 <= q < NUM && q != p ==> cpus[c].lists[q] == old(cpus)[c].lists[q]
    {
      LinkOk(threads, cpus, c, t, head);
      var p := threads[t].effec;
      cpus := cpus[c := if head then AddHead(cpus[c], p, t) else AddTail(cpus[c], p, t)];
      threads := threads[t := threads[t].(cpu := c, queued := true)];
    }

    /** remove_from_run_queue. */
    method Remove(t: Tid)
      requires Valid() && t in threads && threads[t].queued
      modifies this
      ensures Valid() && cpus.Keys == old(cpus).Keys && rot == old(rot)
      ensures threads == old(threads)[t := old(threads)[t].(queued := false)]
      ensures var c := threads[t].cpu; c in cpus && BitsOk(old(cpus)[c]) && cpus == old(cpus)[c := Drop(old(cpus)[c], threads[t].effec, t)]
    {
      UnlinkOk(threads, cpus, t);
      var c := threads[t].cpu;
      cpus := cpus[c := Drop(cpus[c], threads[t].effec, t)];
      threads := threads[t := threads[t].(queued := false)];
    }

    /** sched_get_top_thread: the first thread of the highest priority, none if the CPU has
        nothing to run. */
    method GetTop(c: CpuNum) returns (top: Option<Tid>)
      requires Valid() && c in cpus
      modifies this
      ensures Valid() && cpus.Keys == old(cpus).Keys && threads.Keys == old(threads).Keys && rot == old(rot)
      ensures top.None? ==> threads == old(threads) && cpus == old(cpus)
      ensures top.None? ==> forall t :: t in threads && threads[t].queued ==> threads[t].cpu != c
      ensures top.Some? ==>
                && top.value in old(threads) && old(threads)[top.value].queued && old(threads)[top.value].cpu == c
                && (forall u :: u in old(threads) && old(threads)[u].queued && old(threads)[u].cpu == c ==>
                      old(threads)[u].effec <= old(threads)[top.value].effec)
                && threads == old(threads)[top.value := old(threads)[top.value].(queued := false)]
                && BitsOk(old(cpus)[c]) && 0 <= threads[top.value].effec < NUM
                && old(cpus)[c].lists[threads[top.value].effec] != []
                && top.value == old(cpus)[c].lists[threads[top.value].effec][0]
                && cpus == old(cpus)[c := Drop(old(cpus)[c], threads[top.value].effec, top.value)]
                && BitsOk(cpus[c]) && cpus[c].lists[threads[top.value].effec] == old(cpus)[c].lists[threads[top.value].effec][1..]
    {
      assert At(threads, cpus, c);
      HighestIsTop(cpus[c]);
      NoneAbove(threads, cpus, c);
      top := None;
      if LeadingZeros(cpus[c].bits) < NUM {
        var p := HighestRunQueue(cpus[c].bits);
        var t := cpus[c].lists[p][0];
        assert t in cpus[c].lists[p];
        WithoutFront(cpus[c].lists[p]);
        top := Some(t);
        Remove(t);
      }
    }

    /** sched_priority_changed for a queued thread: to the front of a higher list, or to the
        back of a lower one, on the same CPU. */
    method PriorityChanged(t: Tid, effec: int)
      requires Valid() && t in threads && 0 <= effec <= HIGHEST
      modifies this
      ensures Valid() && cpus.Keys == old(cpus).Keys && rot == old(rot)
      ensures threads == old(threads)[t := old(threads)[t].(effec := effec)]
      ensures !old(threads)[t].queued || effec == old(threads)[t].effec ==> cpus == old(cpus)
      ensures old(threads)[t].queued && effec != old(threads)[t].effec ==>
                var c, was := threads[t].cpu, old(threads)[t].effec;
                && c in old(cpus) && 0 <= was < NUM && BitsOk(old(cpus)[c])
                && var rest := Drop(old(cpus)[c], was, t);
                && BitsOk(rest)
                && cpus == old(cpus)[c := if effec > was then AddHead(rest, effec, t) else AddTail(rest, effec, t)]
                && BitsOk(cpus[c]) && cpus[c].lists[was] == Without(old(cpus)[c].lists[was], t)
                && cpus[c].lists[effec] == if effec > was then [t] + old(cpus)[c].lists[effec] else old(cpus)[c].lists[effec] + [t]
    {
      var old_, c := threads[t].effec, threads[t].cpu;
      if effec == old_ {
        assert threads[t].(effec := effec) == threads[t];
        return;
      }
      if threads[t].queued {
        Remove(t);
        SetEffec(t, effec);
        Insert(c, t, effec > old_);
      } else {
        SetEffec(t, effec);
      }
    }

    method SetEffec(t: Tid, effec: int)
      requires Valid() && t in threads && !threads[t].queued && 0 <= effec <= HIGHEST
      modifies this`threads
      ensures Valid() && threads == old(threads)[t := old(threads)[t].(effec := effec)]
    {
      var threads' := threads[t := threads[t].(effec := effec)];
      forall c | c in cpus ensures At(threads', cpus, c) {
        assert At(threads, cpus, c);
        UnlinkedOk(threads, threads', cpus[c], c, t);
      }
      forall u | u in threads' ensures Linked(threads', cpus, u) {
        assert Linked(threads, cpus, u);
      }
      threads := threads';
    }

    /** find_cpu_and_insert. */
    method FindCpuAndInsert(t: Tid, here: CpuNum, last: CpuNum, idle: set<CpuNum>, active: set<CpuNum>, sliceLeft: bool)
      returns (c: CpuNum)
      requires Valid() && t in threads && !threads[t].queued && here in cpus && active <= cpus.Keys
      requires forall d :: d in threads[t].affinity ==> d.num >= 0
      modifies this
      ensures Valid() && cpus.Keys == old(cpus).Keys && c in cpus
      ensures threads == old(threads)[t := old(threads)[t].(cpu := c, queued := true)]
      ensures threads[t].affinity * active != {} ==> c in threads[t].affinity * active
      ensures threads[t].affinity * active == {} ==> c == here
      ensures BitsOk(old(cpus)[c]) && BitsOk(cpus[c])
      ensures var p := threads[t].effec;
              cpus[c].lists[p] == if sliceLeft then [t] + old(cpus)[c].lists[p] else old(cpus)[c].lists[p] + [t]
      ensures cpus == old(cpus)[c := if sliceLeft then AddHead(old(cpus)[c], threads[t].effec, t)
                                     else AddTail(old(cpus)[c], threads[t].effec, t)]
    {
      c := FindCpu(t, here, last, idle, active);
      if threads[t].affinity * active != {} {
        assert c in active;
      }
      Insert(c, t, sliceLeft);
    }
  }

  /** No queued thread is above the highest list. */
  lemma NoneAbove(threads: Threads, cpus: map<CpuNum, RunQueue>, c: CpuNum)
    requires AllOk(threads, cpus) && c in cpus
    ensures BitsOk(cpus[c])
    ensures forall u :: u in threads && threads[u].queued && threads[u].cpu == c ==>
              LeadingZeros(cpus[c].bits) < NUM && threads[u].effec <= HighestRunQueue(cpus[c].bits)
  {
    assert At(threads, cpus, c);
    HighestIsTop(cpus[c]);
    forall u | u in threads && threads[u].queued && threads[u].cpu == c
      ensures LeadingZeros(cpus[c].bits) < NUM && threads[u].effec <= HighestRunQueue(cpus[c].bits)
    {
      assert Linked(threads, cpus, u);
      assert cpus[c].bits[threads[u].effec];
    }
  }
}
