/** The run queues of the fair scheduler (kernel/kernel/fair_scheduler.cc): who is queued or
    running where, and the totals each CPU keeps of its tasks. Virtual finish times come
    from the clock and are parameters. */
module FairScheduler {
  import opened PriorityList
  import FairShare

  datatype CpuNum = CpuNum(num: int)

  const GENERATIONS := 0x1_0000_0000_0000_0000

  /** A 64-bit count of insertions. */
  type Gen = x: int | 0 <= x < GENERATIONS

  function NextGen(g: Gen): (n: Gen)
    ensures g < n <= g + 1 || (n == 0 && g == GENERATIONS - 1)
  {
    if g + 1 == GENERATIONS then 0 else g + 1
  }

  datatype ThreadState = Initial | Ready | Running | Blocked | BlockedReadLock | Sleeping | Suspended | Death

  /** Per-thread state; cpu is curr_cpu and means something while the task is active. */
  datatype Task = Task(weight: int, active: bool, cpu: CpuNum, finish: int, gen: Gen, affinity: set<CpuNum>, last: CpuNum,
                       state: ThreadState)

  /** Per-CPU state; current is the running thread, none while the CPU idles. */
  datatype Cpu = Cpu(total: int, count: int, queue: seq<Tid>, current: Option<Tid>, gen: Gen)

  type Tasks = map<Tid, Task>

  /** By how much the total of a CPU is off. */
  type Drift = CpuNum -> int

  // ----- what the totals should be -----

  ghost function ActiveOn(tasks: Tasks, c: CpuNum): set<Tid> {
    set t | t in tasks && tasks[t].active && tasks[t].cpu == c
  }

  ghost function WeightOf(tasks: Tasks, s: set<Tid>): int
    requires s <= tasks.Keys
  {
    if s == {} then 0 else
      var t :| t in s;
      tasks[t].weight + WeightOf(tasks, s - {t})
  }

  lemma {:induction false} WeightWithout(tasks: Tasks, s: set<Tid>, t: Tid)
    requires s <= tasks.Keys && t in s
    ensures WeightOf(tasks, s) == tasks[t].weight + WeightOf(tasks, s - {t})
    decreases s
  {
    var u :| u in s && WeightOf(tasks, s) == tasks[u].weight + WeightOf(tasks, s - {u});
    if u != t {
      WeightWithout(tasks, s - {u}, t);
      WeightWithout(tasks, s - {t}, u);
      assert s - {u} - {t} == s - {t} - {u};
    }
  }

  lemma {:induction false} WeightLocal(tasks: Tasks, tasks': Tasks, s: set<Tid>)
    requires s <= tasks.Keys && s <= tasks'.Keys && forall t :: t in s ==> tasks'[t].weight == tasks[t].weight
    ensures WeightOf(tasks', s) == WeightOf(tasks, s)
  {
    if s != {} {
      var t :| t in s;
      WeightWithout(tasks, s, t);
      WeightWithout(tasks', s, t);
      WeightLocal(tasks, tasks', s - {t});
    }
  }

  lemma {:induction false} WeightNonNegative(tasks: Tasks, s: set<Tid>)
    requires s <= tasks.Keys && forall t :: t in s ==> tasks[t].weight > 0
    ensures WeightOf(tasks, s) >= 0 && (s != {} ==> WeightOf(tasks, s) > 0)
  {
    if s != {} {
      var t :| t in s;
      WeightWithout(tasks, s, t);
      WeightNonNegative(tasks, s - {t});
    }
  }

  // ----- the invariant -----

  function Opt(t: Option<Tid>): seq<Tid> { if t.Some? then [t.value] else [] }

  /** The key of the run queue: the finish time and, among equals, the generation. */
  function Key(x: Task): int { x.finish * GENERATIONS + x.gen }

  lemma KeyOrder(x: Task, y: Task)
    ensures Key(x) <= Key(y) <==> x.finish < y.finish || (x.finish == y.finish && x.gen <= y.gen)
  {
  }

  /** The smaller its key, the sooner a task runs. */
  function Urgency(tasks: Tasks): Tid -> int {
    (t: Tid) => if t in tasks then -Key(tasks[t]) else 0
  }

  /** Each active task of this CPU is in exactly one place: queued and ready, running, or in
      the hands of the operation under way. */
  ghost predicate Placed(tasks: Tasks, p: Cpu, c: CpuNum, held: seq<Tid>) {
    && p.count == |ActiveOn(tasks, c)|
    && multiset(p.queue) + multiset(Opt(p.current)) + multiset(held) == multiset(ActiveOn(tasks, c))
    && Sorted(Urgency(tasks), p.queue)
    && (forall t :: t in p.queue && t in tasks ==> tasks[t].state.Ready?)
  }

  /** The total is the weight of the active tasks of this CPU, up to d. */
  ghost predicate CpuOk(tasks: Tasks, p: Cpu, c: CpuNum, held: seq<Tid>, d: int) {
    && Placed(tasks, p, c, held)
    && p.total == WeightOf(tasks, ActiveOn(tasks, c)) + d
  }

  function HeldOn(h: CpuNum, held: seq<Tid>, c: CpuNum): seq<Tid> { if c == h then held else [] }

  ghost predicate At(tasks: Tasks, cpus: map<CpuNum, Cpu>, drift: Drift, h: CpuNum, held: seq<Tid>, c: CpuNum) {
    c in cpus ==> CpuOk(tasks, cpus[c], c, HeldOn(h, held, c), drift(c))
  }

  ghost predicate AllOk(tasks: Tasks, cpus: map<CpuNum, Cpu>, drift: Drift, h: CpuNum, held: seq<Tid>) {
    && (forall c {:trigger At(tasks, cpus, drift, h, held, c)} :: c in cpus ==> At(tasks, cpus, drift, h, held, c))
    && (forall t :: t in tasks ==> tasks[t].weight > 0)
    && (forall t :: t in tasks && tasks[t].active ==> tasks[t].cpu in cpus)
  }

  /** A thread that is queued, running or held is active on that CPU. */
  lemma IsActive(tasks: Tasks, p: Cpu, c: CpuNum, held: seq<Tid>, t: Tid)
    requires Placed(tasks, p, c, held)
    ensures t in p.queue || p.current == Some(t) || t in held <==> t in ActiveOn(tasks, c)
    ensures t in p.queue ==> p.current != Some(t) && t !in held
    ensures p.current == Some(t) ==> t !in held
  {
    var m := multiset(p.queue) + multiset(Opt(p.current)) + multiset(held);
    assert t in m <==> t in ActiveOn(tasks, c);
    assert m[t] <= 1;
    assert t in p.queue <==> multiset(p.queue)[t] > 0;
    assert p.current == Some(t) <==> multiset(Opt(p.current))[t] > 0;
    assert t in held <==> multiset(held)[t] > 0;
  }

  /** What one task changing does to the other CPUs: nothing. */
  lemma OthersOk(tasks: Tasks, tasks': Tasks, p: Cpu, c: CpuNum, held: seq<Tid>, d: int, t: Tid)
    requires CpuOk(tasks, p, c, held, d) && t in tasks && tasks'.Keys == tasks.Keys && t !in ActiveOn(tasks, c)
    requires forall u :: u in tasks && u != t ==> tasks'[u] == tasks[u]
    requires !(tasks'[t].active && tasks'[t].cpu == c)
    ensures CpuOk(tasks', p, c, held, d)
  {
    assert ActiveOn(tasks', c) == ActiveOn(tasks, c);
    WeightLocal(tasks, tasks', ActiveOn(tasks, c));
    IsActive(tasks, p, c, held, t);
    SortedLocal(Urgency(tasks), Urgency(tasks'), p.queue);
  }

  // ----- moving a task -----

  lemma {:induction false} InsertMultiset(prio: Tid -> int, l: seq<Tid>, t: Tid)
    ensures multiset(Insert(prio, l, t)) == multiset(l) + multiset{t}
  {
    if l != [] && prio(t) <= prio(l[0]) {
      InsertMultiset(prio, l[1..], t);
      assert l == [l[0]] + l[1..];
    }
  }

  lemma OneMoreHeld(held: seq<Tid>, t: Tid)
    ensures multiset(held + [t]) == multiset(held) + multiset{t}
  {
  }

  lemma OneMoreActive(a: set<Tid>, t: Tid)
    requires t !in a
    ensures multiset(a + {t}) == multiset(a) + multiset{t}
  {
  }

  lemma AddToBoth(q: multiset<Tid>, c: multiset<Tid>, h: multiset<Tid>, a: multiset<Tid>, t: Tid)
    requires q + c + h == a
    ensures q + c + (h + multiset{t}) == a + multiset{t}
  {
  }

  lemma TakeFromBoth(q: multiset<Tid>, c: multiset<Tid>, h: multiset<Tid>, a: multiset<Tid>, t: Tid)
    requires q + c + (h + multiset{t}) == a + multiset{t}
    ensures q + c + h == a
  {
    assert forall u :: (q + c + (h + multiset{t}))[u] == (q + c + h)[u] + multiset{t}[u];
    assert forall u :: (a + multiset{t})[u] == a[u] + multiset{t}[u];
  }

  /** Only CPU c changed. */
  lemma OneCpuOk(tasks: Tasks, cpus: map<CpuNum, Cpu>, c: CpuNum, p: Cpu, drift: Drift, h: CpuNum,
                 held: seq<Tid>, held': seq<Tid>)
    requires AllOk(tasks, cpus, drift, h, held) && c in cpus && (held == [] || h == c) && CpuOk(tasks, p, c, held', drift(c))
    ensures AllOk(tasks, cpus[c := p], drift, c, held')
  {
    forall e | e in cpus ensures At(tasks, cpus[c := p], drift, c, held', e) {
      assert At(tasks, cpus, drift, h, held, e);
    }
  }

  /** Only task t and CPU c changed, and t is at home on no other CPU. */
  lemma OneTaskOk(tasks: Tasks, cpus: map<CpuNum, Cpu>, t: Tid, x: Task, c: CpuNum, p: Cpu, drift: Drift,
                  h: CpuNum, held: seq<Tid>, h': CpuNum, held': seq<Tid>)
    requires AllOk(tasks, cpus, drift, h, held) && c in cpus && CpuOk(tasks[t := x], p, c, HeldOn(h', held', c), drift(c))
    requires forall e :: e in cpus && e != c ==> HeldOn(h, held, e) == HeldOn(h', held', e)
    requires t in tasks && (tasks[t].active ==> tasks[t].cpu == c) && (x.active ==> x.cpu == c) && x.weight > 0
    ensures AllOk(tasks[t := x], cpus[c := p], drift, h', held')
  {
    forall e | e in cpus ensures At(tasks[t := x], cpus[c := p], drift, h', held', e) {
      assert At(tasks, cpus, drift, h, held, e);
      if e != c {
        OthersOk(tasks, tasks[t := x], cpus[e], e, HeldOn(h, held, e), drift(e), t);
      }
    }
  }

  /** A task changes, but not its weight or its home, and not while it is queued. */
  lemma RetimedOk(tasks: Tasks, p: Cpu, c: CpuNum, held: seq<Tid>, d: int, t: Tid, x: Task)
    requires CpuOk(tasks, p, c, held, d) && t in tasks && (t !in p.queue || (Key(x) == Key(tasks[t]) && x.state.Ready?))
    requires x.weight == tasks[t].weight && x.active == tasks[t].active && x.cpu == tasks[t].cpu
    ensures CpuOk(tasks[t := x], p, c, held, d)
  {
    var tasks' := tasks[t := x];
    assert ActiveOn(tasks', c) == ActiveOn(tasks, c);
    WeightLocal(tasks, tasks', ActiveOn(tasks, c));
    SortedLocal(Urgency(tasks), Urgency(tasks'), p.queue);
  }

  /** The weight of an active task and the total move together. */
  lemma ReweighedOk(tasks: Tasks, p: Cpu, c: CpuNum, held: seq<Tid>, d: int, t: Tid, w: int)
    requires CpuOk(tasks, p, c, held, d) && t in ActiveOn(tasks, c)
    ensures CpuOk(tasks[t := tasks[t].(weight := w)], p.(total := p.total - tasks[t].weight + w), c, held, d)
  {
    var tasks', a := tasks[t := tasks[t].(weight := w)], ActiveOn(tasks, c);
    assert ActiveOn(tasks', c) == a;
    WeightWithout(tasks, a, t);
    WeightWithout(tasks', a, t);
    WeightLocal(tasks, tasks', a - {t});
    SortedLocal(Urgency(tasks), Urgency(tasks'), p.queue);
  }

  /** The weight of an active task moves alone: the total is off by the difference. */
  lemma WeightAloneOk(tasks: Tasks, p: Cpu, c: CpuNum, held: seq<Tid>, d: int, t: Tid, w: int)
    requires CpuOk(tasks, p, c, held, d) && t in ActiveOn(tasks, c)
    ensures CpuOk(tasks[t := tasks[t].(weight := w)], p, c, held, d + tasks[t].weight - w)
  {
    ReweighedOk(tasks, p, c, held, d, t, w);
  }

  /** Remove: a held task leaves the totals. */
  lemma RemoveOk(tasks: Tasks, p: Cpu, c: CpuNum, held: seq<Tid>, d: int, t: Tid, x: Task)
    requires CpuOk(tasks, p, c, held + [t], d) && t in tasks && !x.active
    ensures CpuOk(tasks[t := x], p.(total := p.total - tasks[t].weight, count := p.count - 1), c, held, d)
  {
    var tasks', a := tasks[t := x], ActiveOn(tasks, c);
    IsActive(tasks, p, c, held + [t], t);
    assert ActiveOn(tasks', c) == a - {t};
    WeightWithout(tasks, a, t);
    WeightLocal(tasks, tasks', a - {t});
    SortedLocal(Urgency(tasks), Urgency(tasks'), p.queue);
    OneMoreHeld(held, t);
    OneMoreActive(a - {t}, t);
    assert a - {t} + {t} == a;
    TakeFromBoth(multiset(p.queue), multiset(Opt(p.current)), multiset(held), multiset(a - {t}), t);
  }

  lemma JoinWeight(tasks: Tasks, c: CpuNum, t: Tid, x: Task)
    requires t in tasks && !tasks[t].active && x.active && x.cpu == c
    ensures t !in ActiveOn(tasks, c) && ActiveOn(tasks[t := x], c) == ActiveOn(tasks, c) + {t}
    ensures WeightOf(tasks[t := x], ActiveOn(tasks[t := x], c)) == WeightOf(tasks, ActiveOn(tasks, c)) + x.weight
  {
    var tasks', a := tasks[t := x], ActiveOn(tasks, c);
    assert ActiveOn(tasks', c) == a + {t};
    WeightWithout(tasks', a + {t}, t);
    assert a + {t} - {t} == a;
    WeightLocal(tasks, tasks', a);
  }

  /** Insert: a task that was on no CPU joins the totals, in the operation's hands. */
  lemma JoinOk(tasks: Tasks, p: Cpu, c: CpuNum, held: seq<Tid>, d: int, t: Tid, x: Task)
    requires CpuOk(tasks, p, c, held, d) && t in tasks && !tasks[t].active && x.active && x.cpu == c
    ensures CpuOk(tasks[t := x], p.(total := p.total + x.weight, count := p.count + 1), c, held + [t], d)
  {
    var tasks', a := tasks[t := x], ActiveOn(tasks, c);
    JoinWeight(tasks, c, t, x);
    IsActive(tasks, p, c, held, t);
    SortedLocal(Urgency(tasks), Urgency(tasks'), p.queue);
    OneMoreHeld(held, t);
    OneMoreActive(a, t);
    AddToBoth(multiset(p.queue), multiset(Opt(p.current)), multiset(held), multiset(a), t);
  }

  /** QueueThread: the last task held goes where its finish time puts it. */
  lemma QueueOk(tasks: Tasks, p: Cpu, c: CpuNum, held: seq<Tid>, d: int, t: Tid)
    requires CpuOk(tasks, p, c, held + [t], d) && t in tasks && tasks[t].state.Ready?
    ensures CpuOk(tasks, p.(queue := Insert(Urgency(tasks), p.queue, t)), c, held, d)
  {
    InsertMultiset(Urgency(tasks), p.queue, t);
    InsertMembers(Urgency(tasks), p.queue, t);
    InsertKeepsOrder(Urgency(tasks), p.queue, t);
    OneMoreHeld(held, t);
  }

  // ----- the scheduler -----

  predicate IsLowest(s: set<CpuNum>, c: CpuNum) {
    c in s && forall d :: d in s ==> c.num <= d.num
  }

  lemma {:induction false} LowestExists(s: set<CpuNum>) returns (c: CpuNum)
    requires s != {}
    ensures IsLowest(s, c)
  {
    c :| c in s;
    if s != {c} {
      var d := LowestExists(s - {c});
      c := if c.num <= d.num then c else d;
    }
  }

  /** CPU p after it got the task t. */
  function WithTask(p: Cpu, tasks: Tasks, t: Tid): Cpu
    requires t in tasks
  {
    Cpu(p.total + tasks[t].weight, p.count + 1, Insert(Urgency(tasks), p.queue, t), p.current, NextGen(p.gen))
  }

  lemma InsertOk(tasks: Tasks, cpus: map<CpuNum, Cpu>, c: CpuNum, t: Tid, x: Task, drift: Drift, h: CpuNum, held: seq<Tid>)
    requires AllOk(tasks, cpus, drift, h, held) && c in cpus && t in tasks && (held == [] || h != c)
    requires !tasks[t].active && x.active && x.cpu == c && x.weight > 0 && x.state.Ready?
    ensures AllOk(tasks[t := x], cpus[c := WithTask(cpus[c], tasks[t := x], t)], drift, h, held)
  {
    assert At(tasks, cpus, drift, h, held, c);
    assert HeldOn(h, held, c) == [];
    WithTaskOk(tasks, cpus[c], c, drift(c), t, x);
    OneTaskOk(tasks, cpus, t, x, c, WithTask(cpus[c], tasks[t := x], t), drift, h, held, h, held);
  }

  lemma WithTaskOk(tasks: Tasks, p: Cpu, c: CpuNum, d: int, t: Tid, x: Task)
    requires CpuOk(tasks, p, c, [], d) && t in tasks && !tasks[t].active && x.active && x.cpu == c && x.state.Ready?
    ensures CpuOk(tasks[t := x], WithTask(p, tasks[t := x], t), c, [], d)
  {
    var p1 := p.(total := p.total + x.weight, count := p.count + 1);
    JoinOk(tasks, p, c, [], d, t, x);
    assert [] + [t] == [t];
    QueueOk(tasks[t := x], p1, c, [], d, t);
  }

  // ----- what the operations do to a thread -----

  /** EvaluateNextThread goes on with the running thread. */
  predicate KeepsRunning(x: Task, c: CpuNum, expired: bool) {
    x.state.Ready? && c in x.affinity && !expired
  }

  /** What becomes of the running thread x: it leaves the totals if it is not ready, and stays
      active where it may run if it is. */
  predicate PutDown(x: Task, y: Task, c: CpuNum, online: set<CpuNum>) {
    if !x.state.Ready? then y == x.(active := false, cpu := CpuNum(-1), finish := 0)
    else
      && y.active && y.weight == x.weight && y.affinity == x.affinity
      && if c in x.affinity then y.cpu == c else y.cpu in x.affinity * online
  }

  /** The states in which a change of weight reaches the total. */
  predicate Counted(s: ThreadState) { s.Ready? || s.Running? }

  /** The weight of this thread would change without the total it is part of. */
  predicate LosesCount(x: Task) { x.active && !Counted(x.state) && !x.state.Death? }

  function Reweighed(x: Task, w: int, finish: int): Task {
    match x.state
    case Ready => x.(weight := w, finish := finish)
    case Death => x
    case _ => x.(weight := w)
  }

  /** The CPUs after the weight of t, which was the task x, became w. */
  function CpusReweighed(cpus: map<CpuNum, Cpu>, x: Task, tasks: Tasks, t: Tid, w: int): map<CpuNum, Cpu> {
    if !Counted(x.state) || x.cpu !in cpus then cpus
    else
      var p := cpus[x.cpu];
      cpus[x.cpu := p.(total := p.total - x.weight + w,
                       queue := if x.state.Ready? then Insert(Urgency(tasks), Without(p.queue, t), t) else p.queue)]
  }

  lemma IsCurrent(tasks: Tasks, cpus: map<CpuNum, Cpu>, drift: Drift, c: CpuNum, t: Tid)
    requires AllOk(tasks, cpus, drift, c, []) && c in cpus && cpus[c].current == Some(t)
    ensures t in tasks && tasks[t].active && tasks[t].cpu == c && t !in cpus[c].queue
  {
    assert At(tasks, cpus, drift, c, [], c);
    IsActive(tasks, cpus[c], c, [], t);
  }

  /** No CPU of s has a smaller total than c, or that of c is not positive. */
  predicate Suits(cpus: map<CpuNum, Cpu>, s: set<CpuNum>, c: CpuNum) {
    c in s && c in cpus && forall d :: d in s && d in cpus ==> cpus[c].total <= 0 || cpus[c].total <= cpus[d].total
  }

  /** No CPU of s has a smaller total than c. */
  predicate Lightest(cpus: map<CpuNum, Cpu>, s: set<CpuNum>, c: CpuNum) {
    c in s && c in cpus && forall d :: d in s && d in cpus ==> cpus[c].total <= cpus[d].total
  }

  class Scheduler {
    var tasks: Tasks
    var cpus: map<CpuNum, Cpu>
    ghost var drift: Drift

    ghost predicate Valid(h: CpuNum, held: seq<Tid>)
      reads this
    {
      AllOk(tasks, cpus, drift, h, held)
    }

    /** A thread that is ready or running is active. */
    ghost predicate Settled()
      reads this
    {
      forall t :: t in tasks && (tasks[t].state.Ready? || tasks[t].state.Running?) ==> tasks[t].active
    }

    /** By how much the total of a CPU exceeds the weight of its active tasks. */
    ghost function Off(c: CpuNum): int
      requires c in cpus
      reads this
    {
      cpus[c].total - WeightOf(tasks, ActiveOn(tasks, c))
    }

    ghost predicate Balanced()
      reads this
    {
      forall c :: c in cpus ==> Off(c) == 0
    }

    lemma OffIsDrift(h: CpuNum, held: seq<Tid>)
      requires Valid(h, held)
      ensures forall c :: c in cpus ==> Off(c) == drift(c)
    {
      forall c | c in cpus ensures Off(c) == drift(c) {
        assert At(tasks, cpus, drift, h, held, c);
      }
    }

    constructor (all: set<CpuNum>)
      ensures Valid(CpuNum(0), []) && Settled() && Balanced() && tasks == map[] && cpus.Keys == all
      ensures forall c :: c in all ==> cpus[c] == Cpu(0, 0, [], None, 0)
    {
      drift := (c: CpuNum) => 0;
      tasks, cpus := map[], map c | c in all :: Cpu(0, 0, [], None, 0);
      new;
      forall c | c in cpus ensures At(tasks, cpus, drift, CpuNum(0), [], c) {
        assert ActiveOn(tasks, c) == {};
      }
      OffIsDrift(CpuNum(0), []);
    }

    method AddTask(t: Tid, weight: int, affinity: set<CpuNum>)
      requires Valid(CpuNum(0), []) && Settled() && t !in tasks && weight > 0
      modifies this`tasks
      ensures Valid(CpuNum(0), []) && Settled()
      ensures tasks == old(tasks)[t := Task(weight, false, CpuNum(-1), 0, 0, affinity, CpuNum(-1), Initial)]
    {
      var x := Task(weight, false, CpuNum(-1), 0, 0, affinity, CpuNum(-1), Initial);
      forall c | c in cpus ensures At(tasks[t := x], cpus, drift, CpuNum(0), [], c) {
        assert At(tasks, cpus, drift, CpuNum(0), [], c);
        if c in cpus {
          assert ActiveOn(tasks[t := x], c) == ActiveOn(tasks, c);
          WeightLocal(tasks, tasks[t := x], ActiveOn(tasks, c));
          IsActive(tasks, cpus[c], c, [], t);
          SortedLocal(Urgency(tasks), Urgency(tasks[t := x]), cpus[c].queue);
        }
      }
      tasks := tasks[t := x];
    }

    /** lowest_cpu_set. */
    method FirstOf(s: set<CpuNum>) returns (c: CpuNum)
      requires s != {}
      ensures IsLowest(s, c)
    {
      ghost var d := LowestExists(s);
      c :| IsLowest(s, c);
    }

    /** FindTargetCpu: the least loaded of the CPUs the thread may run on. The search stops
        early at a CPU without any load. */
    method FindTargetCpu(t: Tid, here: CpuNum, online: set<CpuNum>, ghost h: CpuNum, ghost held: seq<Tid>) returns (target: CpuNum)
      requires Valid(h, held) && t in tasks && here in cpus
      requires online <= cpus.Keys && (online != {} ==> tasks[t].affinity * online != {})
      ensures target in cpus
      ensures target in (if online == {} then {here} else tasks[t].affinity * online)
      ensures online != {} ==> Suits(cpus, tasks[t].affinity * online, target)
      ensures Balanced() ==> cpus[target].total >= 0 && forall c :: c in tasks[t].affinity * online ==> cpus[c].total >= 0
      ensures var s := if online == {} then {here} else tasks[t].affinity * online;
              && (Lightest(cpus, s, tasks[t].last) ==> target == tasks[t].last)
              && (tasks[t].last !in s && Lightest(cpus, s, here) ==> target == here)
    {
      var available := if online == {} then {here} else tasks[t].affinity * online;
      if tasks[t].last in available {
        target := tasks[t].last;
      } else if here in available {
        target := here;
      } else {
        target := FirstOf(available);
      }
      target := LeastLoaded(available, target);
      forall c | c in cpus ensures WeightOf(tasks, ActiveOn(tasks, c)) >= 0 {
        WeightNonNegative(tasks, ActiveOn(tasks, c));
      }
    }

    /** The search itself: `start` stays unless another one has a smaller total. */
    method LeastLoaded(available: set<CpuNum>, start: CpuNum) returns (target: CpuNum)
      requires start in available && available <= cpus.Keys
      ensures target in available && Suits(cpus, available, target) && (Lightest(cpus, available, start) ==> target == start)
    {
      target := start;
      var remaining := available - {target};
      while remaining != {} && cpus[target].total > 0
        invariant target in available && remaining <= available
        invariant Lightest(cpus, available, start) ==> target == start
        invariant forall c :: c in available - remaining ==> cpus[target].total <= 0 || cpus[target].total <= cpus[c].total
        decreases |remaining|
      {
        var candidate := FirstOf(remaining);
        if cpus[candidate].total < cpus[target].total {
          target := candidate;
        }
        remaining := remaining - {candidate};
      }
    }

    /** DequeueThread: the task that should finish first. */
    method TakeFront(c: CpuNum, ghost held: seq<Tid>) returns (t: Tid)
      requires Valid(c, held) && c in cpus && cpus[c].queue != []
      modifies this`cpus
      ensures Valid(c, held + [t]) && t in tasks && t == old(cpus)[c].queue[0] && tasks[t].state.Ready?
      ensures cpus == old(cpus)[c := old(cpus)[c].(queue := old(cpus)[c].queue[1..])]
      ensures forall u :: u in old(cpus)[c].queue && u in tasks ==>
                Key(tasks[t]) <= Key(tasks[u]) && tasks[t].finish <= tasks[u].finish
    {
      var p := cpus[c];
      t := p.queue[0];
      assert p.queue == [t] + p.queue[1..];
      assert At(tasks, cpus, drift, c, held, c);
      OneMoreHeld(held, t);
      IsActive(tasks, p, c, held, t);
      OneCpuOk(tasks, cpus, c, p.(queue := p.queue[1..]), drift, c, held, held + [t]);
      forall u | u in p.queue && u in tasks ensures Key(tasks[t]) <= Key(tasks[u]) && tasks[t].finish <= tasks[u].finish {
        KeyOrder(tasks[t], tasks[u]);
        var i :| 0 <= i < |p.queue| && p.queue[i] == u;
        assert i == 0 || Urgency(tasks)(p.queue[0]) >= Urgency(tasks)(p.queue[i]);
      }
      cpus := cpus[c := p.(queue := p.queue[1..])];
    }

    /** The running thread is about to give up its CPU. */
    method TakeCurrent(c: CpuNum) returns (t: Tid)
      requires Valid(c, []) && c in cpus && cpus[c].current.Some?
      modifies this`cpus
      ensures Valid(c, [t]) && t in tasks && old(cpus)[c].current == Some(t)
      ensures cpus == old(cpus)[c := old(cpus)[c].(current := None)]
    {
      var p := cpus[c];
      assert At(tasks, cpus, drift, c, [], c);
      t := p.current.value;
      IsActive(tasks, p, c, [], t);
      OneCpuOk(tasks, cpus, c, p.(current := None), drift, c, [], [t]);
      cpus := cpus[c := p.(current := None)];
    }

    /** The task in hand becomes the running thread. */
    method Run(c: CpuNum, t: Tid)
      requires Valid(c, [t]) && c in cpus && cpus[c].current.None? && t in tasks
      modifies this`tasks, this`cpus
      ensures Valid(c, []) && cpus == old(cpus)[c := old(cpus)[c].(current := Some(t))]
      ensures tasks == old(tasks)[t := old(tasks)[t].(last := c, state := Running)]
    {
      var p, x := cpus[c], tasks[t].(last := c, state := Running);
      assert At(tasks, cpus, drift, c, [t], c);
      IsActive(tasks, p, c, [t], t);
      RetimedOk(tasks, p, c, [t], drift(c), t, x);
      OneTaskOk(tasks, cpus, t, x, c, p.(current := Some(t)), drift, c, [t], c, []);
      tasks := tasks[t := x];
      cpus := cpus[c := p.(current := Some(t))];
    }

    /** A queued task is taken out of the middle of the queue. */
    method Erase(c: CpuNum, t: Tid)
      requires Valid(c, []) && c in cpus && t in cpus[c].queue
      modifies this`cpus
      ensures Valid(c, [t]) && t in tasks && tasks[t].state.Ready?
      ensures cpus == old(cpus)[c := old(cpus)[c].(queue := Without(old(cpus)[c].queue, t))]
    {
      var p := cpus[c];
      assert At(tasks, cpus, drift, c, [], c);
      IsActive(tasks, p, c, [], t);
      WithoutMultiset(tasks, p, c, t);
      WithoutMembers(p.queue, t);
      WithoutKeepsOrder(Urgency(tasks), p.queue, t);
      OneCpuOk(tasks, cpus, c, p.(queue := Without(p.queue, t)), drift, c, [], [t]);
      cpus := cpus[c := p.(queue := Without(p.queue, t))];
    }

    /** UpdateThreadTimeline and QueueThread on this CPU. A task whose place is only adjusted
        keeps its generation. */
    method Requeue(c: CpuNum, t: Tid, finish: int, insertion: bool)
      requires Valid(c, [t]) && c in cpus && t in tasks && tasks[t].state.Ready?
      modifies this`tasks, this`cpus
      ensures Valid(c, [])
      ensures var g := if insertion then NextGen(old(cpus)[c].gen) else old(cpus)[c].gen;
              && tasks == old(tasks)[t := old(tasks)[t].(finish := finish, gen := if insertion then g else old(tasks)[t].gen)]
              && cpus == old(cpus)[c := old(cpus)[c].(queue := Insert(Urgency(tasks), old(cpus)[c].queue, t), gen := g)]
    {
      var p := cpus[c];
      var g := if insertion then NextGen(p.gen) else p.gen;
      var x := tasks[t].(finish := finish, gen := if insertion then g else tasks[t].gen);
      assert At(tasks, cpus, drift, c, [t], c);
      IsActive(tasks, p, c, [t], t);
      RetimedOk(tasks, p, c, [t], drift(c), t, x);
      assert [] + [t] == [t];
      QueueOk(tasks[t := x], p, c, [], drift(c), t);
      OneTaskOk(tasks, cpus, t, x, c, p.(queue := Insert(Urgency(tasks[t := x]), p.queue, t), gen := g), drift,
                c, [t], c, []);
      tasks := tasks[t := x];
      cpus := cpus[c := p.(queue := Insert(Urgency(tasks), p.queue, t), gen := g)];
    }

    /** Remove: the totals forget the task. */
    method Remove(c: CpuNum, t: Tid, ghost held: seq<Tid>)
      requires Valid(c, held + [t]) && c in cpus && t in tasks
      modifies this`tasks, this`cpus
      ensures Valid(c, held) && tasks == old(tasks)[t := old(tasks)[t].(active := false, cpu := CpuNum(-1), finish := 0)]
      ensures cpus == old(cpus)[c := old(cpus)[c].(
                total := old(cpus)[c].total - old(tasks)[t].weight, count := old(cpus)[c].count - 1)]
    {
      var p, x := cpus[c], tasks[t].(active := false, cpu := CpuNum(-1), finish := 0);
      assert At(tasks, cpus, drift, c, held + [t], c);
      IsActive(tasks, p, c, held + [t], t);
      RemoveOk(tasks, p, c, held, drift(c), t, x);
      OneTaskOk(tasks, cpus, t, x, c, p.(total := p.total - x.weight, count := p.count - 1), drift,
                c, held + [t], c, held);
      tasks := tasks[t := x];
      cpus := cpus[c := p.(total := p.total - x.weight, count := p.count - 1)];
    }

    /** Insert: happens once, however often it is asked for. */
    method InsertTask(c: CpuNum, t: Tid, finish: int, ghost h: CpuNum, ghost held: seq<Tid>)
      requires Valid(h, held) && c in cpus && t in tasks && tasks[t].state.Ready? && (held == [] || h != c)
      modifies this`tasks, this`cpus
      ensures Valid(h, held) && tasks.Keys == old(tasks).Keys && cpus.Keys == old(cpus).Keys
      ensures old(tasks)[t].active ==> tasks == old(tasks) && cpus == old(cpus)
      ensures !old(tasks)[t].active ==>
                && tasks == old(tasks)[t := old(tasks)[t].(active := true, cpu := c, finish := finish, gen := NextGen(old(cpus)[c].gen))]
                && cpus == old(cpus)[c := WithTask(old(cpus)[c], tasks, t)]
    {
      if tasks[t].active {
        return;
      }
      var x := tasks[t].(active := true, cpu := c, finish := finish, gen := NextGen(cpus[c].gen));
      InsertOk(tasks, cpus, c, t, x, drift, h, held);
      tasks := tasks[t := x];
      cpus := cpus[c := WithTask(cpus[c], tasks, t)];
    }

    // ----- the operations -----

    /** Removes the running or dequeued thread in hand from CPU c and gives it to the CPU
        that suits it best. */
    method Rehome(c: CpuNum, t: Tid, finish: int, online: set<CpuNum>, ghost held: seq<Tid>) returns (target: CpuNum)
      requires Valid(c, held + [t]) && c in cpus && t in tasks && tasks[t].state.Ready?
      requires online <= cpus.Keys && tasks[t].affinity * online != {} && c !in tasks[t].affinity * online
      modifies this`tasks, this`cpus
      ensures Valid(c, held) && tasks.Keys == old(tasks).Keys && cpus.Keys == old(cpus).Keys
      ensures target in online * old(tasks)[t].affinity && tasks[t].active && tasks[t].cpu == target
      ensures SameThread(old(tasks)[t], tasks[t]) && tasks[t].finish == finish && tasks[t].gen == NextGen(old(cpus)[target].gen)
      ensures forall u :: u in tasks && u != t ==> tasks[u] == old(tasks)[u]
      ensures forall e :: e in cpus && e != c && e != target ==> cpus[e] == old(cpus)[e]
      ensures cpus[c].queue == old(cpus)[c].queue && cpus[c].current == old(cpus)[c].current
      ensures t in cpus[target].queue && cpus[target].total == old(cpus)[target].total + tasks[t].weight
      ensures cpus[c].total == old(cpus)[c].total - tasks[t].weight
      ensures Suits(old(cpus), old(tasks)[t].affinity * online, target)
    {
      Remove(c, t, held);
      target := Place(c, t, finish, online, held);
    }

    /** Gives a thread that is on no CPU to the one that suits it best. */
    method Place(c: CpuNum, t: Tid, finish: int, online: set<CpuNum>, ghost held: seq<Tid>) returns (target: CpuNum)
      requires Valid(c, held) && c in cpus && t in tasks && tasks[t].state.Ready? && !tasks[t].active
      requires online <= cpus.Keys && tasks[t].affinity * online != {} && c !in tasks[t].affinity * online
      modifies this`tasks, this`cpus
      ensures Valid(c, held) && target in online * old(tasks)[t].affinity && target in old(cpus)
      ensures Suits(old(cpus), old(tasks)[t].affinity * online, target)
      ensures tasks == old(tasks)[t := old(tasks)[t].(active := true, cpu := target, finish := finish, gen := NextGen(old(cpus)[target].gen))]
      ensures cpus.Keys == old(cpus).Keys && forall e :: e in cpus && e != target ==> cpus[e] == old(cpus)[e]
      ensures t in cpus[target].queue && cpus[target].total == old(cpus)[target].total + tasks[t].weight
    {
      target := FindTargetCpu(t, c, online, c, held);
      InsertMembers(Urgency(tasks[t := tasks[t].(active := true, cpu := target, finish := finish, gen := NextGen(cpus[target].gen))]),
                    cpus[target].queue, t);
      InsertTask(target, t, finish, c, held);
    }

    /** The running thread says what it is about to do: wait, sleep, or let others run. */
    method Mark(c: CpuNum, t: Tid, state: ThreadState)
      requires Valid(c, []) && Settled() && c in cpus && cpus[c].current == Some(t)
      modifies this`tasks
      ensures Valid(c, []) && Settled() && t in old(tasks) && tasks == old(tasks)[t := old(tasks)[t].(state := state)]
    {
      IsCurrent(tasks, cpus, drift, c, t);
      Resettled(c, t, tasks[t].(state := state));
    }

    /** The running thread changes neither its home nor its weight. */
    method Resettled(c: CpuNum, t: Tid, x: Task)
      requires Valid(c, []) && c in cpus && cpus[c].current == Some(t) && t in tasks && tasks[t].active && tasks[t].cpu == c
      requires x.weight == tasks[t].weight && x.active && x.cpu == c
      modifies this`tasks
      ensures Valid(c, []) && tasks == old(tasks)[t := x]
    {
      var p := cpus[c];
      assert At(tasks, cpus, drift, c, [], c);
      IsActive(tasks, p, c, [], t);
      RetimedOk(tasks, p, c, [], drift(c), t, x);
      OneTaskOk(tasks, cpus, t, x, c, p, drift, c, [], c, []);
      assert cpus[c := p] == cpus;
      tasks := tasks[t := x];
    }

    /** EvaluateNextThread: what becomes of the running thread, and who runs next. The CPU
        idles only if its queue is empty. */
    method EvaluateNext(c: CpuNum, expired: bool, finish: int, online: set<CpuNum>) returns (next: Option<Tid>)
      requires Valid(c, []) && Settled() && c in cpus && online <= cpus.Keys
      requires forall t :: cpus[c].current == Some(t) && t in tasks ==> !tasks[t].state.Running?
      requires forall t :: cpus[c].current == Some(t) && t in tasks && tasks[t].state.Ready? && c !in tasks[t].affinity ==>
                 tasks[t].affinity * online != {}
      modifies this`tasks, this`cpus
      ensures Valid(c, []) && Settled() && cpus.Keys == old(cpus).Keys && tasks.Keys == old(tasks).Keys
      ensures cpus[c].current == next
      ensures next.None? ==> cpus[c].queue == []
      ensures next.Some? ==> next.value in tasks && tasks[next.value].state.Running? && tasks[next.value].last == c
      ensures forall t :: old(cpus)[c].current == Some(t) && t in old(tasks) && KeepsRunning(old(tasks)[t], c, expired) ==>
                next == Some(t) && cpus == old(cpus) && tasks == old(tasks)[t := old(tasks)[t].(last := c, state := Running)]
      ensures next.Some? && (next != old(cpus)[c].current || expired) ==>
                forall u :: u in cpus[c].queue && u in tasks ==> tasks[next.value].finish <= tasks[u].finish
      ensures forall t :: old(cpus)[c].current == Some(t) && t in tasks ==> PutDown(old(tasks)[t], tasks[t], c, online)
      ensures forall t :: old(cpus)[c].current == Some(t) && t in tasks && old(tasks)[t].state.Ready? && !KeepsRunning(old(tasks)[t], c, expired) ==>
                tasks[t].cpu in old(cpus) && tasks[t].finish == finish && tasks[t].gen == NextGen(old(cpus)[tasks[t].cpu].gen)
      ensures expired ==> forall u :: u in old(cpus)[c].queue && u in old(tasks) && old(tasks)[u].finish < finish ==>
                next != old(cpus)[c].current
      ensures forall u :: u in tasks && old(cpus)[c].current != Some(u) ==>
                tasks[u] == if next == Some(u) then old(tasks)[u].(last := c, state := Running) else old(tasks)[u]
      ensures forall e :: e in cpus && e != c && (forall t :: old(cpus)[c].current == Some(t) && t in tasks ==> tasks[t].cpu != e) ==>
                cpus[e] == old(cpus)[e]
    {
      if cpus[c].current.Some? {
        var t := cpus[c].current.value;
        IsCurrent(tasks, cpus, drift, c, t);
        if KeepsRunning(tasks[t], c, expired) {
          Resettled(c, t, tasks[t].(last := c, state := Running));
          return Some(t);
        }
        next := Switch(c, t, finish, online);
      } else {
        next := Dispatch(c);
      }
    }

    /** The running thread t gives way. */
    method Switch(c: CpuNum, t: Tid, finish: int, online: set<CpuNum>) returns (next: Option<Tid>)
      requires Valid(c, []) && Settled() && c in cpus && cpus[c].current == Some(t) && t in tasks && online <= cpus.Keys
      requires !tasks[t].state.Running?
      requires tasks[t].state.Ready? && c !in tasks[t].affinity ==> tasks[t].affinity * online != {}
      modifies this`tasks, this`cpus
      ensures Valid(c, []) && Settled() && cpus.Keys == old(cpus).Keys && tasks.Keys == old(tasks).Keys
      ensures cpus[c].current == next && (next.None? ==> cpus[c].queue == [])
      ensures next.Some? ==> next.value in tasks && tasks[next.value].state.Running? && tasks[next.value].last == c
      ensures next.Some? ==> forall u :: u in cpus[c].queue && u in tasks ==> tasks[next.value].finish <= tasks[u].finish
      ensures PutDown(old(tasks)[t], tasks[t], c, online)
      ensures old(tasks)[t].state.Ready? ==>
                tasks[t].cpu in old(cpus) && tasks[t].finish == finish && tasks[t].gen == NextGen(old(cpus)[tasks[t].cpu].gen)
      ensures forall u :: u in old(cpus)[c].queue && u in old(tasks) && old(tasks)[u].finish < finish ==> next != Some(t)
      ensures forall u :: u in tasks && u != t ==>
                tasks[u] == if next == Some(u) then old(tasks)[u].(last := c, state := Running) else old(tasks)[u]
      ensures forall e :: e in cpus && e != c && tasks[t].cpu != e ==> cpus[e] == old(cpus)[e]
    {
      PutBack(c, t, finish, online);
      next := Dispatch(c);
    }

    method PutBack(c: CpuNum, t: Tid, finish: int, online: set<CpuNum>)
      requires Valid(c, []) && Settled() && c in cpus && cpus[c].current == Some(t) && t in tasks && online <= cpus.Keys
      requires !tasks[t].state.Running?
      requires tasks[t].state.Ready? && c !in tasks[t].affinity ==> tasks[t].affinity * online != {}
      modifies this`tasks, this`cpus
      ensures Valid(c, []) && Settled() && cpus.Keys == old(cpus).Keys && tasks.Keys == old(tasks).Keys && cpus[c].current.None?
      ensures forall u :: u in tasks && u != t ==> tasks[u] == old(tasks)[u]
      ensures tasks[t].state == old(tasks)[t].state && PutDown(old(tasks)[t], tasks[t], c, online)
      ensures old(tasks)[t].state.Ready? ==>
                tasks[t].cpu in old(cpus) && tasks[t].finish == finish && tasks[t].gen == NextGen(old(cpus)[tasks[t].cpu].gen)
      ensures (forall u :: u in old(cpus)[c].queue ==> u in cpus[c].queue && u != t) && (t in cpus[c].queue ==> old(tasks)[t].state.Ready?)
      ensures forall e :: e in cpus && e != c && e != tasks[t].cpu ==> cpus[e] == old(cpus)[e]
    {
      IsCurrent(tasks, cpus, drift, c, t);
      var u := TakeCurrent(c);
      assert [] + [t] == [t];
      if !tasks[t].state.Ready? {
        Remove(c, t, []);
      } else if c !in tasks[t].affinity {
        var target := Rehome(c, t, finish, online, []);
      } else {
        InsertMembers(Urgency(tasks[t := tasks[t].(finish := finish, gen := NextGen(cpus[c].gen))]), cpus[c].queue, t);
        Requeue(c, t, finish, true);
      }
    }

    method Dispatch(c: CpuNum) returns (next: Option<Tid>)
      requires Valid(c, []) && Settled() && c in cpus && cpus[c].current.None?
      modifies this`tasks, this`cpus
      ensures Valid(c, []) && Settled() && cpus.Keys == old(cpus).Keys && cpus[c].current == next
      ensures next.None? <==> old(cpus)[c].queue == []
      ensures next.None? ==> cpus == old(cpus) && tasks == old(tasks)
      ensures next.Some? ==>
                && next.value in old(tasks) && tasks == old(tasks)[next.value := old(tasks)[next.value].(last := c, state := Running)]
                && next.value == old(cpus)[c].queue[0] && cpus[c].queue == old(cpus)[c].queue[1..]
                && forall u :: u in old(cpus)[c].queue && u in tasks ==> tasks[next.value].finish <= tasks[u].finish
      ensures forall e :: e in cpus && e != c ==> cpus[e] == old(cpus)[e]
    {
      next := None;
      if cpus[c].queue != [] {
        var t := TakeFront(c, []);
        assert [] + [t] == [t];
        Run(c, t);
        next := Some(t);
      }
    }

    /** Unblock: the thread joins the least loaded CPU it may run on. */
    method Unblock(t: Tid, here: CpuNum, finish: int, online: set<CpuNum>) returns (target: CpuNum)
      requires Valid(here, []) && Settled() && t in tasks && here in cpus
      requires online <= cpus.Keys && (online != {} ==> tasks[t].affinity * online != {})
      modifies this`tasks, this`cpus
      ensures Valid(here, []) && Settled() && t in tasks && tasks[t].active
      ensures !old(tasks)[t].active ==>
                && tasks[t].cpu == target && target in old(cpus)
                && target in (if online == {} then {here} else tasks[t].affinity * online)
                && tasks == old(tasks)[t := old(tasks)[t].(active := true, cpu := target, finish := finish,
                                                           gen := NextGen(old(cpus)[target].gen), state := Ready)]
                && cpus == old(cpus)[target := WithTask(old(cpus)[target], tasks, t)]
                && forall c :: old(Balanced()) && online != {} && c in tasks[t].affinity * online ==>
                     old(cpus)[target].total <= old(cpus)[c].total
      ensures old(tasks)[t].active ==> tasks == old(tasks)[t := old(tasks)[t].(state := Ready)] && cpus == old(cpus)
    {
      target := FindTargetCpu(t, here, online, here, []);
      MarkReady(t, here);
      InsertTask(target, t, finish, here, []);
    }

    method MarkReady(t: Tid, ghost h: CpuNum)
      requires Valid(h, []) && t in tasks
      modifies this`tasks
      ensures Valid(h, []) && tasks == old(tasks)[t := old(tasks)[t].(state := Ready)]
    {
      var x := tasks[t].(state := Ready);
      forall e | e in cpus ensures At(tasks[t := x], cpus, drift, h, [], e) {
        assert At(tasks, cpus, drift, h, [], e);
        RetimedOk(tasks, cpus[e], e, [], drift(e), t, x);
      }
      tasks := tasks[t := x];
    }

    /** InQueue. */
    ghost predicate Queued(t: Tid)
      requires t in tasks
      reads this
    {
      tasks[t].cpu in cpus && t in cpus[tasks[t].cpu].queue
    }

    /** Migrate: a thread that waits in the queue of a CPU it may no longer use moves at once,
        one that runs there is left to EvaluateNext. */
    method Migrate(t: Tid, finish: int, online: set<CpuNum>)
      requires Valid(CpuNum(0), []) && Settled() && t in tasks && online <= cpus.Keys
      requires tasks[t].state.Ready? && tasks[t].cpu !in tasks[t].affinity ==> Queued(t) && tasks[t].affinity * online != {}
      modifies this`tasks, this`cpus
      ensures Valid(CpuNum(0), []) && Settled() && tasks.Keys == old(tasks).Keys
      ensures forall u :: u in tasks && u != t ==> tasks[u] == old(tasks)[u]
      ensures tasks[t].active == old(tasks)[t].active && tasks[t].affinity == old(tasks)[t].affinity
      ensures old(tasks)[t].state.Ready? && old(tasks)[t].cpu !in tasks[t].affinity ==>
                && tasks[t].cpu in tasks[t].affinity * online && Queued(t) && tasks[t].weight == old(tasks)[t].weight
                && cpus[tasks[t].cpu].total == old(cpus)[tasks[t].cpu].total + tasks[t].weight
                && tasks[t].finish == finish && tasks[t].gen == NextGen(old(cpus)[tasks[t].cpu].gen)
                && Suits(old(cpus), tasks[t].affinity * online, tasks[t].cpu)
      ensures !old(tasks)[t].state.Ready? || old(tasks)[t].cpu in tasks[t].affinity ==> tasks == old(tasks) && cpus == old(cpus)
    {
      var c := tasks[t].cpu;
      if tasks[t].state.Ready? && c !in tasks[t].affinity {
        SameHands(tasks, cpus, drift, CpuNum(0), c);
        Erase(c, t);
        assert [] + [t] == [t];
        var target := Rehome(c, t, finish, online, []);
        SameHands(tasks, cpus, drift, c, CpuNum(0));
      }
    }

    method DrainOne(c: CpuNum, finish: Tid -> int, online: set<CpuNum>, pinned: seq<Tid>, ghost tasks0: Tasks, ghost queue0: seq<Tid>)
      returns (pinned': seq<Tid>)
      requires Valid(c, pinned) && Settled() && c in cpus && cpus[c].queue != []
      requires Drained(tasks, cpus[c].queue, c, online, finish, pinned, tasks0, queue0)
      requires online <= cpus.Keys && c !in online && CanLeave(tasks0, queue0, c, online)
      modifies this`tasks, this`cpus
      ensures Valid(c, pinned') && Settled() && cpus.Keys == old(cpus).Keys && c in cpus
      ensures Drained(tasks, cpus[c].queue, c, online, finish, pinned', tasks0, queue0)
      ensures |cpus[c].queue| < |old(cpus)[c].queue| && cpus[c].current == old(cpus)[c].current
    {
      ghost var q := cpus[c].queue;
      var t := TakeFront(c, pinned);
      if tasks[t].affinity == {c} {
        pinned' := pinned + [t];
        DrainPinned(tasks, q, c, online, finish, pinned, tasks0, queue0);
      } else {
        pinned' := pinned;
        ghost var before := tasks;
        assert At(tasks, cpus, drift, c, pinned + [t], c);
        NotThere(tasks, cpus[c], c, pinned, t);
        assert t in queue0;
        var target := Rehome(c, t, finish(t), online, pinned);
        DrainMoved(before, tasks, q, c, online, finish, pinned, tasks0, queue0);
      }
    }

    /** MigrateUnpinnedThreads: only threads pinned to this CPU stay in its queue. */
    method MigrateUnpinned(c: CpuNum, finish: Tid -> int, online: set<CpuNum>)
      requires Valid(c, []) && Settled() && c in cpus && online <= cpus.Keys && c !in online
      requires CanLeave(tasks, cpus[c].queue, c, online)
      modifies this`tasks, this`cpus
      ensures Valid(c, []) && Settled() && cpus.Keys == old(cpus).Keys && cpus[c].current == old(cpus)[c].current
      ensures Drained(tasks, [], c, online, finish, cpus[c].queue, old(tasks), old(cpus)[c].queue)
    {
      ghost var tasks0, queue0 := tasks, cpus[c].queue;
      var pinned: seq<Tid> := [];
      DrainStarts(tasks, cpus, drift, c, online, finish);
      while cpus[c].queue != []
        invariant Valid(c, pinned) && Settled() && c in cpus && cpus.Keys == old(cpus).Keys
        invariant Drained(tasks, cpus[c].queue, c, online, finish, pinned, tasks0, queue0)
        invariant cpus[c].current == old(cpus)[c].current
        decreases |cpus[c].queue|
      {
        pinned := DrainOne(c, finish, online, pinned, tasks0, queue0);
      }
      assert pinned + [] == pinned;
      DrainEnds(tasks, cpus, drift, c, pinned);
      cpus := cpus[c := cpus[c].(queue := pinned)];
    }

    /** UpdateWeightCommon. The total follows the weight of a thread that is ready or running,
        so a thread that is active in any other state leaves it off by the difference. */
    method UpdateWeight(t: Tid, w: int, finish: int)
      requires Valid(CpuNum(0), []) && Settled() && t in tasks && w > 0 && (tasks[t].state.Ready? ==> Queued(t))
      modifies this
      ensures Valid(CpuNum(0), []) && Settled()
      ensures tasks == old(tasks)[t := Reweighed(old(tasks)[t], w, finish)]
      ensures cpus == CpusReweighed(old(cpus), old(tasks)[t], tasks, t, w)
      ensures !old(tasks)[t].state.Death? ==> tasks[t].weight == w
      ensures old(tasks)[t].state.Ready? ==> tasks[t].finish == finish
      ensures cpus.Keys == old(cpus).Keys
      ensures forall c :: c in cpus ==>
                cpus[c].total == old(cpus)[c].total + if Counted(old(tasks)[t].state) && c == old(tasks)[t].cpu then w - old(tasks)[t].weight else 0
      ensures forall c :: c in cpus ==>
                Off(c) == old(Off(c)) + if LosesCount(old(tasks)[t]) && c == old(tasks)[t].cpu then old(tasks)[t].weight - w else 0
      ensures forall c :: drift(c) == old(drift)(c) +
                if LosesCount(old(tasks)[t]) && c == old(tasks)[t].cpu then old(tasks)[t].weight - w else 0
      ensures old(Balanced()) ==> (Balanced() <==> !LosesCount(old(tasks)[t]) || w == old(tasks)[t].weight)
    {
      OffIsDrift(CpuNum(0), []);
      ghost var x := tasks[t];
      Adjust(t, w, finish);
      OffIsDrift(CpuNum(0), []);
      assert LosesCount(x) ==> x.cpu in cpus && Off(x.cpu) == old(Off(tasks[t].cpu)) + x.weight - w;
    }

    method Adjust(t: Tid, w: int, finish: int)
      requires Valid(CpuNum(0), []) && Settled() && t in tasks && w > 0 && (tasks[t].state.Ready? ==> Queued(t))
      modifies this
      ensures Valid(CpuNum(0), []) && Settled()
      ensures tasks == old(tasks)[t := Reweighed(old(tasks)[t], w, finish)]
      ensures cpus == CpusReweighed(old(cpus), old(tasks)[t], tasks, t, w)
      ensures LosesCount(old(tasks)[t]) ==> old(tasks)[t].cpu in cpus
      ensures forall c :: drift(c) == old(drift)(c) +
                if LosesCount(old(tasks)[t]) && c == old(tasks)[t].cpu then old(tasks)[t].weight - w else 0
    {
      if Counted(tasks[t].state) {
        AdjustCounted(t, w, finish);
      } else if !tasks[t].state.Death? {
        SetWeight(t, w);
      }
    }

    method AdjustCounted(t: Tid, w: int, finish: int)
      requires Valid(CpuNum(0), []) && Settled() && t in tasks && w > 0 && (tasks[t].state.Ready? ==> Queued(t))
      requires Counted(tasks[t].state)
      modifies this`tasks, this`cpus
      ensures Valid(CpuNum(0), []) && Settled()
      ensures tasks == old(tasks)[t := Reweighed(old(tasks)[t], w, finish)]
      ensures cpus == CpusReweighed(old(cpus), old(tasks)[t], tasks, t, w)
    {
      var c := tasks[t].cpu;
      Reweigh(c, t, w);
      if tasks[t].state.Ready? {
        Erase(c, t);
        Requeue(c, t, finish, false);
      }
      SameHands(tasks, cpus, drift, c, CpuNum(0));
    }

    /** The weight changes and nothing else does. */
    method SetWeight(t: Tid, w: int)
      requires Valid(CpuNum(0), []) && t in tasks && w > 0
      modifies this`tasks, this`drift
      ensures Valid(CpuNum(0), []) && tasks == old(tasks)[t := old(tasks)[t].(weight := w)]
      ensures forall c :: drift(c) == old(drift)(c) +
                if old(tasks)[t].active && c == old(tasks)[t].cpu then old(tasks)[t].weight - w else 0
    {
      ghost var x := tasks[t];
      ghost var drift0 := drift;
      drift := (c: CpuNum) => drift0(c) + if x.active && c == x.cpu then x.weight - w else 0;
      forall e | e in cpus ensures At(tasks[t := x.(weight := w)], cpus, drift, CpuNum(0), [], e) {
        assert At(tasks, cpus, drift0, CpuNum(0), [], e);
        if x.active && e == x.cpu {
          WeightAloneOk(tasks, cpus[e], e, [], drift0(e), t, w);
        } else {
          OthersOk(tasks, tasks[t := x.(weight := w)], cpus[e], e, [], drift0(e), t);
        }
      }
      tasks := tasks[t := tasks[t].(weight := w)];
    }

    method Reweigh(c: CpuNum, t: Tid, w: int)
      requires Valid(CpuNum(0), []) && t in tasks && tasks[t].active && tasks[t].cpu == c && w > 0
      modifies this`tasks, this`cpus
      ensures Valid(c, []) && tasks == old(tasks)[t := old(tasks)[t].(weight := w)] && c in old(cpus)
      ensures cpus == old(cpus)[c := old(cpus)[c].(total := old(cpus)[c].total - old(tasks)[t].weight + w)]
    {
      AllReweighed(tasks, cpus, drift, c, t, w);
      cpus := cpus[c := cpus[c].(total := cpus[c].total - tasks[t].weight + w)];
      tasks := tasks[t := tasks[t].(weight := w)];
    }
  }

  method MarkReweighed(s: Scheduler, c: CpuNum, t: Tid, w: int, state: ThreadState)
    requires s.Valid(c, []) && s.Settled() && c in s.cpus && s.cpus[c].current == Some(t)
    requires w > 0 && (state.Blocked? || state.BlockedReadLock?)
    modifies s
    ensures s.Valid(c, []) && s.Settled() && s.cpus == old(s.cpus)
    ensures t in old(s.tasks) && s.tasks == old(s.tasks)[t := old(s.tasks)[t].(state := state, weight := w)]
    ensures forall e :: s.drift(e) == old(s.drift)(e) + if e == c then old(s.tasks)[t].weight - w else 0
  {
    IsCurrent(s.tasks, s.cpus, s.drift, c, t);
    s.Mark(c, t, state);
    ReweighBlocked(s, c, t, w);
  }

  method ReweighBlocked(s: Scheduler, c: CpuNum, t: Tid, w: int)
    requires s.Valid(c, []) && s.Settled() && t in s.tasks && s.tasks[t].active && s.tasks[t].cpu == c
    requires w > 0 && (s.tasks[t].state.Blocked? || s.tasks[t].state.BlockedReadLock?)
    modifies s
    ensures s.Valid(c, []) && s.Settled() && s.cpus == old(s.cpus)
    ensures s.tasks == old(s.tasks)[t := old(s.tasks)[t].(weight := w)]
    ensures forall e :: s.drift(e) == old(s.drift)(e) + if e == c then old(s.tasks)[t].weight - w else 0
  {
    SameHands(s.tasks, s.cpus, s.drift, c, CpuNum(0));
    s.UpdateWeight(t, w, 0);
    SameHands(s.tasks, s.cpus, s.drift, CpuNum(0), c);
  }

  /** A thread marks itself blocked and only then loses what it inherited, before it leaves
      its CPU: the total stays off by the difference for good. Any scheduler will do. */
  method BlockReweighed(s: Scheduler, c: CpuNum, t: Tid, w: int, state: ThreadState, online: set<CpuNum>) returns (next: Option<Tid>)
    requires s.Valid(c, []) && s.Settled() && c in s.cpus && s.cpus[c].current == Some(t) && online <= s.cpus.Keys
    requires w > 0 && (state.Blocked? || state.BlockedReadLock?)
    modifies s
    ensures s.Valid(c, []) && s.Settled() && s.cpus.Keys == old(s.cpus).Keys && s.tasks.Keys == old(s.tasks).Keys
    ensures t in s.tasks && !s.tasks[t].active && next != Some(t)
    ensures forall e :: e in s.cpus ==> s.Off(e) == old(s.Off(e)) + if e == c then old(s.tasks)[t].weight - w else 0
    ensures old(s.Balanced()) ==> (s.Balanced() <==> w == old(s.tasks)[t].weight)
  {
    s.OffIsDrift(c, []);
    MarkReweighed(s, c, t, w, state);
    next := s.EvaluateNext(c, false, 0, online);
    s.OffIsDrift(c, []);
    assert s.Off(c) == old(s.Off(c)) + old(s.tasks)[t].weight - w;
  }

  /** One thread of weight 20, running on the only CPU. */
  method OneRunning() returns (s: Scheduler)
    ensures fresh(s) && s.Valid(CpuNum(0), []) && s.Settled() && s.Balanced() && s.cpus.Keys == {CpuNum(0)}
    ensures s.tasks.Keys == {Tid(0)} && s.tasks[Tid(0)].weight == 20 && s.cpus[CpuNum(0)].current == Some(Tid(0))
  {
    var c, t := CpuNum(0), Tid(0);
    s := new Scheduler({c});
    s.OffIsDrift(c, []);
    s.AddTask(t, 20, {c});
    var target := s.Unblock(t, c, 0, {c});
    var next := s.EvaluateNext(c, false, 0, {c});
    s.OffIsDrift(c, []);
    assert At(s.tasks, s.cpus, s.drift, c, [], c);
    IsActive(s.tasks, s.cpus[c], c, [], t);
  }

  /** It does happen: nobody is left, and 10 units of weight still are. */
  method TotalLeftBehind() returns (s: Scheduler)
    ensures fresh(s) && s.cpus.Keys == {CpuNum(0)} && ActiveOn(s.tasks, CpuNum(0)) == {}
    ensures s.cpus[CpuNum(0)].total == 10 && s.cpus[CpuNum(0)].count == 0
  {
    s := OneRunning();
    var next := BlockReweighed(s, CpuNum(0), Tid(0), 10, Blocked, {CpuNum(0)});
    assert ActiveOn(s.tasks, CpuNum(0)) == {};
    assert s.Off(CpuNum(0)) == 10;
    assert At(s.tasks, s.cpus, s.drift, CpuNum(0), [], CpuNum(0));
  }

  lemma AllReweighed(tasks: Tasks, cpus: map<CpuNum, Cpu>, drift: Drift, c: CpuNum, t: Tid, w: int)
    requires AllOk(tasks, cpus, drift, CpuNum(0), []) && t in tasks && tasks[t].active && tasks[t].cpu == c && w > 0
    ensures c in cpus
    ensures AllOk(tasks[t := tasks[t].(weight := w)], cpus[c := cpus[c].(total := cpus[c].total - tasks[t].weight + w)], drift, c, [])
  {
    var p, x := cpus[c], tasks[t].(weight := w);
    assert At(tasks, cpus, drift, CpuNum(0), [], c);
    ReweighedOk(tasks, p, c, [], drift(c), t, w);
    OneTaskOk(tasks, cpus, t, x, c, p.(total := p.total - tasks[t].weight + w), drift, CpuNum(0), [], c, []);
  }

  /** The pinned threads become the queue again. */
  lemma DrainEnds(tasks: Tasks, cpus: map<CpuNum, Cpu>, drift: Drift, c: CpuNum, pinned: seq<Tid>)
    requires AllOk(tasks, cpus, drift, c, pinned) && c in cpus && cpus[c].queue == [] && Sorted(Urgency(tasks), pinned)
    requires forall t :: t in pinned && t in tasks ==> tasks[t].state.Ready?
    ensures AllOk(tasks, cpus[c := cpus[c].(queue := pinned)], drift, c, [])
  {
    assert At(tasks, cpus, drift, c, pinned, c);
    OneCpuOk(tasks, cpus, c, cpus[c].(queue := pinned), drift, c, pinned, []);
  }

  lemma SameHands(tasks: Tasks, cpus: map<CpuNum, Cpu>, drift: Drift, h: CpuNum, h': CpuNum)
    requires AllOk(tasks, cpus, drift, h, [])
    ensures AllOk(tasks, cpus, drift, h', [])
  {
    forall e | e in cpus ensures At(tasks, cpus, drift, h', [], e) {
      assert At(tasks, cpus, drift, h, [], e);
    }
  }

  // ----- draining a CPU -----

  /** Every queued thread that is not pinned to c may run on a CPU that stays. */
  ghost predicate CanLeave(tasks: Tasks, queue: seq<Tid>, c: CpuNum, online: set<CpuNum>) {
    forall t :: t in queue && t in tasks && tasks[t].affinity != {c} ==> tasks[t].affinity * online != {}
  }

  /** Of the threads queue0 held, those pinned to c are in `pinned` or still in the queue,
      in order of finish time, and all that left are at home on a CPU that stays, with a new finish time. Nothing
      happened to any other thread. */
  ghost predicate Drained(tasks: Tasks, queue: seq<Tid>, c: CpuNum, online: set<CpuNum>, finish: Tid -> int, pinned: seq<Tid>,
                          tasks0: Tasks, queue0: seq<Tid>) {
    && tasks.Keys == tasks0.Keys && Sorted(Urgency(tasks), pinned + queue)
    && (forall t :: t in queue || t in pinned ==> t in queue0)
    && (forall t :: t in tasks && (t !in queue0 || t in queue || t in pinned) ==> tasks[t] == tasks0[t])
    && (forall t :: t in pinned ==> t in tasks && tasks[t].affinity == {c} && tasks[t].state.Ready?)
    && (forall t :: t in queue0 ==> t in tasks && tasks[t].active && SameThread(tasks0[t], tasks[t]))
    && (forall t :: t in queue0 ==> t in queue || t in pinned || (tasks[t].cpu in tasks[t].affinity * online && tasks[t].finish == finish(t)))
  }

  /** What moving to another CPU leaves of a thread. */
  predicate SameThread(x: Task, y: Task) {
    y.weight == x.weight && y.affinity == x.affinity && y.last == x.last && y.state == x.state
  }

  lemma DrainStarts(tasks: Tasks, cpus: map<CpuNum, Cpu>, drift: Drift, c: CpuNum, online: set<CpuNum>, finish: Tid -> int)
    requires AllOk(tasks, cpus, drift, c, []) && c in cpus
    ensures Drained(tasks, cpus[c].queue, c, online, finish, [], tasks, cpus[c].queue)
  {
    assert At(tasks, cpus, drift, c, [], c);
    var p := cpus[c];
    assert [] + p.queue == p.queue;
    forall t | t in p.queue ensures t in tasks && tasks[t].active {
      IsActive(tasks, p, c, [], t);
    }
  }

  lemma DrainPinned(tasks: Tasks, q: seq<Tid>, c: CpuNum, online: set<CpuNum>, finish: Tid -> int, pinned: seq<Tid>,
                    tasks0: Tasks, queue0: seq<Tid>)
    requires Drained(tasks, q, c, online, finish, pinned, tasks0, queue0) && q != [] && q[0] in tasks && tasks[q[0]].affinity == {c}
    requires tasks[q[0]].state.Ready?
    ensures Drained(tasks, q[1..], c, online, finish, pinned + [q[0]], tasks0, queue0)
  {
    assert (pinned + [q[0]]) + q[1..] == pinned + q;
    assert q == [q[0]] + q[1..];
  }

  lemma DrainMoved(tasks: Tasks, tasks': Tasks, q: seq<Tid>, c: CpuNum, online: set<CpuNum>,
                   finish: Tid -> int, pinned: seq<Tid>, tasks0: Tasks, queue0: seq<Tid>)
    requires Drained(tasks, q, c, online, finish, pinned, tasks0, queue0) && q != [] && q[0] in tasks && tasks'.Keys == tasks.Keys
    requires forall u :: u in tasks && u != q[0] ==> tasks'[u] == tasks[u]
    requires tasks'[q[0]].active && SameThread(tasks[q[0]], tasks'[q[0]]) && tasks'[q[0]].cpu in tasks[q[0]].affinity * online
    requires tasks'[q[0]].finish == finish(q[0])
    requires q[0] !in q[1..] && q[0] !in pinned
    ensures Drained(tasks', q[1..], c, online, finish, pinned, tasks0, queue0)
  {
    assert q == [q[0]] + q[1..];
    AheadWithout(Urgency(tasks), pinned, q);
    SortedLocal(Urgency(tasks), Urgency(tasks'), pinned + q[1..]);
  }

  lemma AheadWithout(prio: Tid -> int, a: seq<Tid>, q: seq<Tid>)
    requires Sorted(prio, a + q) && q != []
    ensures Sorted(prio, a + q[1..])
  {
    var l, l' := a + q, a + q[1..];
    assert forall i :: 0 <= i < |l'| ==> l'[i] == l[if i < |a| then i else i + 1];
  }

  /** The task in hand is in no other place on its CPU. */
  lemma NotThere(tasks: Tasks, p: Cpu, c: CpuNum, held: seq<Tid>, t: Tid)
    requires Placed(tasks, p, c, held + [t])
    ensures t !in p.queue && t !in held
  {
    OneMoreHeld(held, t);
    assert multiset(ActiveOn(tasks, c))[t] <= 1;
    assert t in p.queue ==> multiset(p.queue)[t] > 0;
    assert t in held ==> multiset(held)[t] > 0;
  }

  lemma WithoutMultiset(tasks: Tasks, p: Cpu, c: CpuNum, t: Tid)
    requires Placed(tasks, p, c, []) && t in p.queue
    ensures multiset(Without(p.queue, t)) + multiset{t} == multiset(p.queue)
  {
    assert multiset(p.queue)[t] <= multiset(ActiveOn(tasks, c))[t] <= 1;
    OneLess(p.queue, t);
  }

  lemma {:induction false} OneLess(l: seq<Tid>, t: Tid)
    requires multiset(l)[t] == 1
    ensures multiset(Without(l, t)) + multiset{t} == multiset(l)
  {
    assert l == [l[0]] + l[1..];
    if l[0] == t {
      assert multiset(l[1..])[t] == 0;
      WithoutMembers(l[1..], t);
    } else {
      OneLess(l[1..], t);
    }
  }

  // ----- a round on one CPU -----

  function Weights(tasks: Tasks, l: seq<Tid>): (ws: seq<int>)
    requires forall t :: t in l ==> t in tasks
    ensures |ws| == |l| && forall i :: 0 <= i < |l| ==> ws[i] == tasks[l[i]].weight
  {
    seq(|l|, i requires 0 <= i < |l| => tasks[l[i]].weight)
  }

  lemma WithoutLast(l: seq<Tid>, a: set<Tid>)
    requires l != [] && multiset(l) == multiset(a)
    ensures l[|l| - 1] in a && multiset(l[..|l| - 1]) == multiset(a - {l[|l| - 1]})
  {
    var front, t := l[..|l| - 1], l[|l| - 1];
    assert l == front + [t];
    OneMoreHeld(front, t);
    assert multiset(l)[t] > 0;
    OneMoreActive(a - {t}, t);
    assert a - {t} + {t} == a;
    assert multiset(front) == multiset(l) - multiset{t};
  }

  lemma {:induction false} SumIsWeight(tasks: Tasks, l: seq<Tid>, a: set<Tid>)
    requires multiset(l) == multiset(a) && a <= tasks.Keys && forall t :: t in l ==> t in tasks
    ensures FairShare.Sum(Weights(tasks, l)) == WeightOf(tasks, a) && |l| == |a|
  {
    if l == [] {
      assert |multiset(a)| == 0;
    } else {
      var front, t := l[..|l| - 1], l[|l| - 1];
      WithoutLast(l, a);
      SumIsWeight(tasks, front, a - {t});
      WeightWithout(tasks, a, t);
      assert Weights(tasks, l)[..|l| - 1] == Weights(tasks, front);
    }
  }

  lemma WeightsAddUp(tasks: Tasks, p: Cpu, c: CpuNum, d: int)
    requires CpuOk(tasks, p, c, [], d)
    ensures forall t :: t in p.queue + Opt(p.current) <==> t in ActiveOn(tasks, c)
    ensures var ws := Weights(tasks, p.queue + Opt(p.current)); FairShare.Sum(ws) == p.total - d && |ws| == p.count
  {
    var l, a := p.queue + Opt(p.current), ActiveOn(tasks, c);
    forall t ensures t in l <==> t in a {
      IsActive(tasks, p, c, [], t);
    }
    assert multiset(l) == multiset(p.queue) + multiset(Opt(p.current)) + multiset([]);
    SumIsWeight(tasks, l, a);
  }

  /** One round over the tasks of a CPU, with the period and the slices computed from the
      count and the total it keeps: the queued and the running ones all get their turn, and
      if the total is right they take at most twice the period. */
  lemma RoundOnCpu(tasks: Tasks, p: Cpu, c: CpuNum, d: int, normal: int)
    requires CpuOk(tasks, p, c, [], d) && p.total > 0 && normal >= 1 && forall t :: t in tasks ==> tasks[t].weight > 0
    ensures forall t :: t in p.queue + Opt(p.current) <==> t in ActiveOn(tasks, c)
    ensures var ws, period := Weights(tasks, p.queue + Opt(p.current)), FairShare.Period(p.count, normal);
            && FairShare.Sum(ws) == p.total - d && |ws| == p.count
            && p.count <= FairShare.Slices(period, ws, p.total)
            && FairShare.Slices(period, ws, p.total) * p.total <= period * FairShare.Sum(ws) + p.count * p.total
            && (d == 0 ==> FairShare.Slices(period, ws, p.total) <= period + p.count <= 2 * period)
  {
    WeightsAddUp(tasks, p, c, d);
    FairShare.RoundAt(Weights(tasks, p.queue + Opt(p.current)), p.total, normal);
  }
}
