/** The timer queues of all CPUs and the hardware timers that serve them
    (kernel/kernel/timer.cc). A tick is split at the points where it gives up timer_lock,
    so that the other operations may come in between, on this CPU from a callback or from
    another CPU. */
module Timers {
  import opened PriorityList
  import opened TimerQueue

  /** hw is the deadline the hardware is programmed for, next what the kernel believes. */
  datatype PerCpu = PerCpu(queue: seq<Timer>, next: int, preempt: int, hw: Option<int>, ticking: bool)

  const FRESH := PerCpu([], INFINITE, INFINITE, None, false)

  /** The kernel's belief is not later than the first timer or the preemption timer. */
  ghost predicate Armed(p: PerCpu) {
    p.next <= p.preempt && (p.queue != [] ==> p.next <= p.queue[0].time)
  }

  ghost predicate CpuOk(p: PerCpu) {
    && Ordered(p.queue) && IsTime(p.next) && IsTime(p.preempt)
    && (p.next < INFINITE ==> p.hw == Some(p.next))
    && (!p.ticking ==> Armed(p))
  }

  /** update_platform_timer on one CPU: the deadline only ever moves down. */
  function Lowered(p: PerCpu, d: int): PerCpu {
    if d < p.next then p.(next := d, hw := Some(d)) else p
  }

  function Min(a: int, b: int): int { if b < a then b else a }

  /** Time of the first timer, or infinite. */
  function FirstTime(q: seq<Timer>): int { if q == [] then INFINITE else q[0].time }

  /** n is the soonest of d, the preemption timer and the queued timers. */
  ghost predicate Soonest(n: int, d: int, p: PerCpu) {
    && n <= d && n <= p.preempt && (forall i :: 0 <= i < |p.queue| ==> n <= p.queue[i].time)
    && (n == d || n == p.preempt || exists i :: 0 <= i < |p.queue| && n == p.queue[i].time)
  }

  /** What the hardware is for: no timer with a finite time, and no preemption, is due
      before the hardware goes off. */
  lemma HardwareInTime(p: PerCpu, i: nat)
    requires CpuOk(p) && !p.ticking
    ensures i < |p.queue| && p.queue[i].time < INFINITE ==> p.hw.Some? && p.hw.value <= p.queue[i].time
    ensures p.preempt < INFINITE ==> p.hw.Some? && p.hw.value <= p.preempt
  {
    if i < |p.queue| {
      assert i == 0 || p.queue[0].time <= p.queue[i].time;
    }
  }

  // ----- contents -----

  /** How often a timer with this identity and time is queued. */
  function Occurs(q: seq<Timer>, id: int, time: int): int {
    if q == [] then 0
    else (if q[0].id == id && q[0].time == time then 1 else 0) + Occurs(q[1..], id, time)
  }

  lemma {:induction false} OccursConcat(a: seq<Timer>, b: seq<Timer>, id: int, time: int)
    ensures Occurs(a + b, id, time) == Occurs(a, id, time) + Occurs(b, id, time)
  {
    if a == [] {
      assert a + b == b;
    } else {
      OccursConcat(a[1..], b, id, time);
      assert (a + b)[1..] == a[1..] + b;
    }
  }

  lemma OccursInserted(q: seq<Timer>, k: int, t: Timer, id: int, time: int)
    requires 0 <= k <= |q|
    ensures Occurs(q[..k] + [t] + q[k..], id, time) == Occurs(q, id, time) + Occurs([t], id, time)
  {
    OccursConcat(q[..k] + [t], q[k..], id, time);
    OccursConcat(q[..k], [t], id, time);
    OccursConcat(q[..k], q[k..], id, time);
    assert q == q[..k] + q[k..];
  }

  /** q holds exactly the timers of a and of b. */
  ghost predicate Merges(q: seq<Timer>, a: seq<Timer>, b: seq<Timer>) {
    forall id, time :: Occurs(q, id, time) == Occurs(a, id, time) + Occurs(b, id, time)
  }

  predicate Holds(q: seq<Timer>, id: int, time: int) {
    exists i :: 0 <= i < |q| && q[i].id == id && q[i].time == time
  }

  lemma {:induction false} OccursIs(q: seq<Timer>, id: int, time: int)
    ensures Occurs(q, id, time) >= 0 && (Occurs(q, id, time) > 0 <==> Holds(q, id, time))
  {
    if q != [] {
      OccursIs(q[1..], id, time);
      assert forall i :: 0 < i < |q| ==> q[i] == q[1..][i - 1];
      if Holds(q[1..], id, time) {
        var i :| 0 <= i < |q[1..]| && q[1..][i].id == id && q[1..][i].time == time;
        assert q[i + 1].id == id;
      }
    }
  }

  /** A merge loses no timer, makes up none, and leaves each its time. */
  lemma MergedHolds(q: seq<Timer>, a: seq<Timer>, b: seq<Timer>, id: int, time: int)
    requires Merges(q, a, b)
    ensures Holds(q, id, time) <==> Holds(a, id, time) || Holds(b, id, time)
  {
    OccursIs(q, id, time);
    OccursIs(a, id, time);
    OccursIs(b, id, time);
  }

  lemma MergesOneMore(q: seq<Timer>, q': seq<Timer>, a: seq<Timer>, b: seq<Timer>, i: int, k: int, t: Timer)
    requires 0 <= i < |b| && 0 <= k <= |q| && Merges(q, a, b[..i])
    requires q' == q[..k] + [t] + q[k..] && t.id == b[i].id && t.time == b[i].time
    ensures Merges(q', a, b[..i + 1])
  {
    assert b[..i + 1] == b[..i] + [b[i]];
    forall id, time ensures Occurs(q', id, time) == Occurs(a, id, time) + Occurs(b[..i + 1], id, time) {
      OccursInserted(q, k, t, id, time);
      OccursConcat(b[..i], [b[i]], id, time);
      assert Occurs([t], id, time) == Occurs([b[i]], id, time);
    }
  }

  /** A CPU with one more timer: only a new first timer can need the hardware, and that
      one was not coalesced. */
  function WithTimer(p: PerCpu, q: seq<Timer>, k: int, when: int): PerCpu {
    if k == 0 then Lowered(p.(queue := q), when) else p.(queue := q)
  }

  lemma WithTimerOk(p: PerCpu, q: seq<Timer>, k: int, t: Timer, when: int)
    requires CpuOk(p) && 0 <= k <= |p.queue| && q == p.queue[..k] + [t] + p.queue[k..] && Ordered(q) && IsTime(when)
    requires k == 0 ==> t.time == when
    ensures CpuOk(WithTimer(p, q, k, when))
  {
  }

  /** The hardware after a timer left: set to a new first timer that is sooner, stopped if
      nothing at all is left to wait for, as before otherwise. */
  predicate HardwareAfter(p: PerCpu, p': PerCpu, first: bool) {
    && p'.ticking == p.ticking
    && if first && p'.queue != [] && p'.queue[0].time < p.next then
         p'.next == p'.queue[0].time && p'.hw == Some(p'.queue[0].time)
       else
         p'.next == p.next && p'.hw == if first && p'.queue == [] && p.next == INFINITE then None else p.hw
  }

  function WithoutTimer(p: PerCpu, i: int): PerCpu
    requires 0 <= i < |p.queue|
  {
    p.(queue := p.queue[..i] + p.queue[i + 1..])
  }

  lemma WithoutOrdered(q: seq<Timer>, i: int)
    requires Ordered(q) && 0 <= i < |q|
    ensures Ordered(q[..i] + q[i + 1..]) && FirstTime(q) <= FirstTime(q[..i] + q[i + 1..])
  {
    var q' := q[..i] + q[i + 1..];
    assert forall k :: 0 <= k < |q'| ==> q'[k] == q[if k < i then k else k + 1];
  }

  /** A CPU with one timer less. If the first one went, the code looks at the hardware
      again, but there is nothing to program: the next timer is not earlier. */
  lemma WithoutTimerOk(p: PerCpu, i: int)
    requires CpuOk(p) && 0 <= i < |p.queue|
    ensures var p' := WithoutTimer(p, i);
            && CpuOk(p') && (!p.ticking ==> p.next <= FirstTime(p'.queue))
            && (p'.queue != [] ==> IsTime(p'.queue[0].time) && CpuOk(Lowered(p', p'.queue[0].time)))
            && (p.next == INFINITE ==> CpuOk(p'.(hw := None)))
  {
    WithoutOrdered(p.queue, i);
  }

  // ----- which queue a timer is in -----

  ghost predicate HasId(q: seq<Timer>, id: int) {
    exists i :: 0 <= i < |q| && q[i].id == id
  }

  ghost predicate DistinctIds(q: seq<Timer>) {
    forall i, j :: 0 <= i < j < |q| ==> q[i].id != q[j].id
  }

  /** The queue of CPU c holds exactly the timers that are said to be there, once each. */
  ghost predicate Home(q: seq<Timer>, c: int, place: map<int, int>) {
    DistinctIds(q) && forall id {:trigger HasId(q, id)} :: HasId(q, id) <==> id in place && place[id] == c
  }

  lemma InsertedId(q: seq<Timer>, k: int, t: Timer)
    requires 0 <= k <= |q| && DistinctIds(q) && !HasId(q, t.id)
    ensures var q' := q[..k] + [t] + q[k..];
            DistinctIds(q') && forall id {:trigger HasId(q', id)} :: HasId(q', id) <==> id == t.id || HasId(q, id)
  {
    var q' := q[..k] + [t] + q[k..];
    assert q'[k] == t;
    assert forall i :: 0 <= i < |q'| && i != k ==> q'[i] == q[if i < k then i else i - 1];
    forall id | HasId(q, id) ensures HasId(q', id) {
      var i :| 0 <= i < |q| && q[i].id == id;
      assert q'[if i < k then i else i + 1].id == id;
    }
  }

  lemma RemovedId(q: seq<Timer>, i: int)
    requires 0 <= i < |q| && DistinctIds(q)
    ensures var q' := q[..i] + q[i + 1..];
            DistinctIds(q') && forall id {:trigger HasId(q', id)} :: HasId(q', id) <==> id != q[i].id && HasId(q, id)
  {
    var q' := q[..i] + q[i + 1..];
    assert forall k :: 0 <= k < |q'| ==> q'[k] == q[if k < i then k else k + 1];
    forall id | HasId(q, id) && id != q[i].id ensures HasId(q', id) {
      var k :| 0 <= k < |q| && q[k].id == id;
      assert q'[if k < i then k else k - 1].id == id;
    }
  }

  /** Every timer is in one queue at most, and its node says in which. */
  ghost predicate PlacesOk(cpus: seq<PerCpu>, place: map<int, int>) {
    && (forall c {:trigger Home(cpus[c].queue, c, place)} :: 0 <= c < |cpus| ==> Home(cpus[c].queue, c, place))
    && forall id :: id in place ==> 0 <= place[id] < |cpus|
  }

  /** The queues have not changed. */
  lemma SamePlaces(cpus: seq<PerCpu>, place: map<int, int>, c: int, p: PerCpu)
    requires PlacesOk(cpus, place) && 0 <= c < |cpus| && p.queue == cpus[c].queue
    ensures PlacesOk(cpus[c := p], place)
  {
    var cpus' := cpus[c := p];
    forall d | 0 <= d < |cpus'| ensures Home(cpus'[d].queue, d, place) {
      assert Home(cpus[d].queue, d, place);
    }
  }

  /** A timer has been inserted into the queue of c. */
  lemma PlacedOne(cpus: seq<PerCpu>, place: map<int, int>, c: int, p: PerCpu, k: int, t: Timer)
    requires PlacesOk(cpus, place) && 0 <= c < |cpus| && 0 <= k <= |cpus[c].queue| && t.id !in place
    requires p.queue == cpus[c].queue[..k] + [t] + cpus[c].queue[k..]
    ensures PlacesOk(cpus[c := p], place[t.id := c])
  {
    var cpus', place' := cpus[c := p], place[t.id := c];
    assert Home(cpus[c].queue, c, place);
    InsertedId(cpus[c].queue, k, t);
    forall d | 0 <= d < |cpus'| ensures Home(cpus'[d].queue, d, place') {
      assert Home(cpus[d].queue, d, place);
    }
  }

  /** Element i of the queue of c has been removed. */
  lemma UnplacedOne(cpus: seq<PerCpu>, place: map<int, int>, c: int, p: PerCpu, i: int)
    requires PlacesOk(cpus, place) && 0 <= c < |cpus| && 0 <= i < |cpus[c].queue|
    requires p.queue == cpus[c].queue[..i] + cpus[c].queue[i + 1..]
    ensures PlacesOk(cpus[c := p], place - {cpus[c].queue[i].id})
  {
    var cpus', place' := cpus[c := p], place - {cpus[c].queue[i].id};
    assert Home(cpus[c].queue, c, place) && HasId(cpus[c].queue, cpus[c].queue[i].id);
    RemovedId(cpus[c].queue, i);
    forall d | 0 <= d < |cpus'| ensures Home(cpus'[d].queue, d, place') {
      assert Home(cpus[d].queue, d, place);
    }
  }

  /** The first timer leaves. */
  lemma FirstGoes(cpus: seq<PerCpu>, place: map<int, int>, c: int)
    requires PlacesOk(cpus, place) && 0 <= c < |cpus| && cpus[c].queue != [] && Ordered(cpus[c].queue)
    ensures var q := cpus[c].queue;
            && q[0].id in place && Ordered(q[1..]) && (forall i :: 0 <= i < |q| ==> q[0].time <= q[i].time)
            && PlacesOk(cpus[c := cpus[c].(queue := q[1..])], place - {q[0].id})
  {
    var q := cpus[c].queue;
    assert Home(q, c, place) && HasId(q, q[0].id);
    assert q[..0] + q[1..] == q[1..];
    UnplacedOne(cpus, place, c, cpus[c].(queue := q[1..]), 0);
  }

  /** One more timer of `moving` has been merged in. */
  lemma AdoptedId(q0: seq<Timer>, moving: seq<Timer>, q: seq<Timer>, i: int, k: int, t: Timer)
    requires DistinctIds(q) && DistinctIds(moving) && 0 <= i < |moving| && t.id == moving[i].id && 0 <= k <= |q|
    requires forall id :: !(HasId(q0, id) && HasId(moving, id))
    requires forall id {:trigger HasId(q, id)} :: HasId(q, id) <==> HasId(q0, id) || HasId(moving[..i], id)
    ensures var q' := q[..k] + [t] + q[k..];
            && DistinctIds(q')
            && forall id {:trigger HasId(q', id)} :: HasId(q', id) <==> HasId(q0, id) || HasId(moving[..i + 1], id)
  {
    assert HasId(moving, t.id);
    InsertedId(q, k, t);
    forall id ensures HasId(moving[..i + 1], id) <==> id == t.id || HasId(moving[..i], id) {
      OneMoreId(moving, i, id);
    }
  }

  lemma OneMoreId(moving: seq<Timer>, i: int, id: int)
    requires 0 <= i < |moving|
    ensures HasId(moving[..i + 1], id) <==> id == moving[i].id || HasId(moving[..i], id)
  {
    var a, b := moving[..i], moving[..i + 1];
    assert b[i] == moving[i] && forall j :: 0 <= j < i ==> b[j] == a[j];
    if HasId(a, id) {
      var j :| 0 <= j < |a| && a[j].id == id;
      assert b[j].id == id;
    }
  }

  /** place with the timers of CPU e moved to CPU c. */
  function Rehomed(place: map<int, int>, c: int, e: int): map<int, int> {
    map id | id in place :: if place[id] == e then c else place[id]
  }

  lemma RehomedOk(cpus: seq<PerCpu>, place: map<int, int>, c: int, e: int, p: PerCpu, r: PerCpu)
    requires PlacesOk(cpus, place) && 0 <= c < |cpus| && 0 <= e < |cpus| && c != e
    requires DistinctIds(p.queue) && r.queue == []
    requires forall id {:trigger HasId(p.queue, id)} ::
               HasId(p.queue, id) <==> HasId(cpus[c].queue, id) || HasId(cpus[e].queue, id)
    ensures PlacesOk(cpus[c := p][e := r], Rehomed(place, c, e))
  {
    var cpus', place' := cpus[c := p][e := r], Rehomed(place, c, e);
    assert Home(cpus[c].queue, c, place) && Home(cpus[e].queue, e, place);
    forall d | 0 <= d < |cpus'| ensures Home(cpus'[d].queue, d, place') {
      assert Home(cpus[d].queue, d, place);
    }
  }

  class System {
    var cpus: seq<PerCpu>
    /** The queue each timer is in; a timer that is in none is not in the map. */
    var place: map<int, int>
    /** Timers whose callback is running, with the CPU it runs on. */
    var active: map<int, int>
    var cancelled: set<int>
    /** Timers whose callback is not NULL. */
    var callbacks: set<int>

    ghost predicate Valid()
      reads this
    {
      (forall c :: 0 <= c < |cpus| ==> CpuOk(cpus[c])) && PlacesOk(cpus, place)
    }

    /** Every timer that is queued can be called when it is due. */
    ghost predicate Callable()
      reads this
    {
      place.Keys <= callbacks
    }

    constructor (n: nat)
      ensures Valid() && Callable() && cpus == seq(n, c => FRESH)
      ensures place == map[] && active == map[] && cancelled == {} && callbacks == {}
    {
      cpus, place, active, cancelled, callbacks := seq(n, c => FRESH), map[], map[], {}, {};
      new;
      forall c | 0 <= c < |cpus| ensures Home(cpus[c].queue, c, place) {
        assert cpus[c] == FRESH;
      }
    }

    /** update_platform_timer. */
    method UpdatePlatformTimer(c: int, d: int)
      requires 0 <= c < |cpus|
      modifies this`cpus
      ensures cpus == old(cpus)[c := Lowered(old(cpus)[c], d)]
      ensures PlacesOk(old(cpus), place) ==> PlacesOk(cpus, place)
    {
      if PlacesOk(cpus, place) {
        SamePlaces(cpus, place, c, Lowered(cpus[c], d));
      }
      if d < cpus[c].next {
        cpus := cpus[c := cpus[c].(next := d, hw := Some(d))];
      }
    }

    static method WithDeadline(q: seq<Timer>, id: int, d: Deadline) returns (q': seq<Timer>, k: int, t: Timer)
      requires Ordered(q) && IsTime(d.when) && 0 <= d.amount <= INFINITE
      ensures 0 <= k <= |q| && q' == q[..k] + [t] + q[k..] && Ordered(q') && t.id == id && Earliest(d) <= t.time <= Latest(d)
      ensures Coalesced(q, d, k, t.time) && t.slack == t.time - d.when && (k == 0 ==> t.time == d.when)
      ensures (d.mode.Late? ==> d.when <= t.time) && (d.mode.Early? ==> t.time <= d.when)
      ensures d.when - d.amount <= t.time <= d.when + d.amount
    {
      WindowHoldsDeadline(d);
      var time;
      q', k, time := InsertTimer(q, id, d.when, Earliest(d), Latest(d));
      t := q'[k];
      CoalescedIf(q, d, k, time);
      SaturationClamps(time - d.when);
      WindowIs(d, time);
    }

    method Enqueue(c: int, id: int, d: Deadline) returns (k: int, t: Timer)
      requires Valid() && 0 <= c < |cpus| && IsTime(d.when) && 0 <= d.amount <= INFINITE && id !in place
      modifies this`cpus, this`place
      ensures PlacesOk(cpus, place) && place == old(place)[id := c]
      ensures 0 <= k <= |old(cpus)[c].queue| && t.id == id && Earliest(d) <= t.time <= Latest(d)
      ensures var p := old(cpus)[c];
              && |cpus| == old(|cpus|)
              && cpus == old(cpus)[c := WithTimer(p, p.queue[..k] + [t] + p.queue[k..], k, d.when)]
              && CpuOk(cpus[c])
      ensures Coalesced(old(cpus)[c].queue, d, k, t.time) && t.slack == t.time - d.when
      ensures (d.mode.Late? ==> d.when <= t.time) && (d.mode.Early? ==> t.time <= d.when)
      ensures d.when - d.amount <= t.time <= d.when + d.amount
    {
      var q;
      q, k, t := WithDeadline(cpus[c].queue, id, d);
      WithTimerOk(cpus[c], q, k, t, d.when);
      PlacedOne(cpus, place, c, cpus[c].(queue := q), k, t);
      cpus, place := cpus[c := cpus[c].(queue := q)], place[id := c];
      if k == 0 {
        UpdatePlatformTimer(c, d.when);
      }
    }

    /** timer_set, on CPU c, for a timer that is in no queue and not active elsewhere: for
        others it panics. Inside its own callback a cancelled timer is not set again. */
    method Set(c: int, id: int, d: Deadline) returns (done: bool, k: int, t: Timer)
      requires Valid() && 0 <= c < |cpus| && IsTime(d.when) && 0 <= d.amount <= INFINITE
      requires id !in place && (id in active ==> active[id] == c)
      modifies this
      ensures Valid() && |cpus| == old(|cpus|) && active == old(active)
      ensures done == !(id in old(active) && id in old(cancelled))
      ensures !done ==> cpus == old(cpus) && cancelled == old(cancelled) && place == old(place) && callbacks == old(callbacks)
      ensures done ==> 0 <= k <= |old(cpus)[c].queue| && t.id == id && Earliest(d) <= t.time <= Latest(d)
      ensures done ==> Coalesced(old(cpus)[c].queue, d, k, t.time)
      ensures done ==> (d.mode.Late? ==> d.when <= t.time) && (d.mode.Early? ==> t.time <= d.when)
      ensures done ==> d.when - d.amount <= t.time <= d.when + d.amount && t.slack == t.time - d.when
      ensures done ==> var p, p' := old(cpus)[c], cpus[c];
                && p'.queue == p.queue[..k] + [t] + p.queue[k..] && p'.preempt == p.preempt && p'.ticking == p.ticking
                && (if k == 0 && d.when < p.next then p'.next == d.when && p'.hw == Some(d.when) else p'.next == p.next && p'.hw == p.hw)
      ensures done ==> var p := old(cpus)[c];
                cpus == old(cpus)[c := WithTimer(p, p.queue[..k] + [t] + p.queue[k..], k, d.when)]
      ensures done ==> cancelled == old(cancelled) - {id} && place == old(place)[id := c] && callbacks == old(callbacks) + {id}
      ensures old(Callable()) ==> Callable()
    {
      done, k, t := !(id in active && id in cancelled), 0, Timer(id, d.when, 0);
      if done {
        cancelled, callbacks := cancelled - {id}, callbacks + {id};
        k, t := Enqueue(c, id, d);
      }
    }

    method PreemptReset(c: int, d: int)
      requires Valid() && 0 <= c < |cpus| && IsTime(d)
      modifies this`cpus
      ensures Valid() && cpus == old(cpus)[c := Lowered(old(cpus)[c].(preempt := d), d)]
      ensures var p, p' := old(cpus)[c], cpus[c];
              && p'.queue == p.queue && p'.preempt == d
              && (if d < p.next then p'.next == d && p'.hw == Some(d) else p'.next == p.next && p'.hw == p.hw)
    {
      SamePlaces(cpus, place, c, cpus[c].(preempt := d));
      cpus := cpus[c := cpus[c].(preempt := d)];
      UpdatePlatformTimer(c, d);
    }

    /** The hardware is left alone: a spurious interrupt is harmless. */
    method PreemptCancel(c: int)
      requires Valid() && 0 <= c < |cpus|
      modifies this`cpus
      ensures Valid() && cpus == old(cpus)[c := old(cpus)[c].(preempt := INFINITE)]
    {
      SamePlaces(cpus, place, c, cpus[c].(preempt := INFINITE));
      cpus := cpus[c := cpus[c].(preempt := INFINITE)];
    }

    /** Element i leaves the queue of CPU e. */
    method Detach(e: int, i: int)
      requires Valid() && 0 <= e < |cpus| && 0 <= i < |cpus[e].queue|
      modifies this`cpus, this`place
      ensures Valid() && place == old(place) - {old(cpus)[e].queue[i].id}
      ensures cpus == old(cpus)[e := WithoutTimer(old(cpus)[e], i)]
      ensures !cpus[e].ticking ==> cpus[e].next <= FirstTime(cpus[e].queue)
    {
      WithoutTimerOk(cpus[e], i);
      UnplacedOne(cpus, place, e, WithoutTimer(cpus[e], i), i);
      place := place - {cpus[e].queue[i].id};
      cpus := cpus[e := WithoutTimer(cpus[e], i)];
    }

    /** The first timer of CPU c has left. */
    method FirstLeft(c: int)
      requires Valid() && 0 <= c < |cpus|
      modifies this`cpus
      ensures Valid() && |cpus| == old(|cpus|) && cpus == old(cpus)[c := cpus[c]]
      ensures cpus[c].queue == old(cpus)[c].queue && cpus[c].preempt == old(cpus)[c].preempt
      ensures old(cpus)[c].next < INFINITE && old(cpus)[c].next <= FirstTime(cpus[c].queue) ==> cpus[c] == old(cpus)[c]
      ensures HardwareAfter(old(cpus)[c], cpus[c], true)
    {
      if cpus[c].queue != [] {
        UpdatePlatformTimer(c, cpus[c].queue[0].time);
      } else if cpus[c].next == INFINITE {
        SamePlaces(cpus, place, c, cpus[c].(hw := None));
        cpus := cpus[c := cpus[c].(hw := None)];
      }
    }

    /** Element i of the queue of CPU e is removed by CPU c. If that is another CPU, or not
        the first timer, no hardware is touched. */
    method Unlink(c: int, e: int, i: int)
      requires Valid() && 0 <= c < |cpus| && 0 <= e < |cpus| && 0 <= i < |cpus[e].queue|
      modifies this`cpus, this`place
      ensures Valid() && |cpus| == old(|cpus|) && place == old(place) - {old(cpus)[e].queue[i].id}
      ensures forall f :: 0 <= f < |cpus| && f != e ==> cpus[f] == old(cpus)[f]
      ensures cpus[e].queue == old(cpus)[e].queue[..i] + old(cpus)[e].queue[i + 1..] && cpus[e].preempt == old(cpus)[e].preempt
      ensures HardwareAfter(old(cpus)[e], cpus[e], c == e && i == 0)
      ensures c != e || i != 0 || (!cpus[e].ticking && cpus[e].next < INFINITE) ==> cpus[e] == WithoutTimer(old(cpus)[e], i)
    {
      Detach(e, i);
      if c == e && i == 0 {
        FirstLeft(c);
      }
    }

    /** timer_cancel on CPU c, up to the point where it gives up timer_lock; done says that
        it returns there. A timer whose callback is running on this very CPU only loses its
        callback: if the callback has set it again it stays in its queue. */
    method Cancel(c: int, id: int) returns (done: bool, notRunning: bool, ghost i: int)
      requires Valid() && 0 <= c < |cpus|
      modifies this
      ensures Valid() && |cpus| == old(|cpus|) && active == old(active) && cancelled == old(cancelled) + {id}
      ensures done == (id in active && active[id] == c) && notRunning == (!done && id in old(place))
      ensures done ==> cpus == old(cpus) && place == old(place) && callbacks == old(callbacks) - {id}
      ensures !done ==> callbacks == old(callbacks)
      ensures id in place <==> id in old(place) && id in active && active[id] == c
      ensures place == if done then old(place) else old(place) - {id}
      ensures !done && id !in old(place) ==> cpus == old(cpus)
      ensures !done && id in old(place) ==>
                var e := old(place)[id];
                && 0 <= e < |cpus| && 0 <= i < |old(cpus)[e].queue| && old(cpus)[e].queue[i].id == id
                && (forall f :: 0 <= f < |cpus| && f != e ==> cpus[f] == old(cpus)[f])
                && cpus[e].queue == old(cpus)[e].queue[..i] + old(cpus)[e].queue[i + 1..] && cpus[e].preempt == old(cpus)[e].preempt
                && HardwareAfter(old(cpus)[e], cpus[e], c == e && i == 0)
                && (c != e || i != 0 || (!cpus[e].ticking && cpus[e].next < INFINITE) ==> cpus[e] == WithoutTimer(old(cpus)[e], i))
      ensures old(Callable()) ==> (Callable() <==> !(done && id in old(place)))
    {
      cancelled := cancelled + {id};
      done, notRunning, i := id in active && active[id] == c, false, 0;
      if done {
        callbacks := callbacks - {id};
        return;
      }
      notRunning := id in place;
      if notRunning {
        var e := place[id];
        assert Home(cpus[e].queue, e, place) && HasId(cpus[e].queue, id);
        var k :| 0 <= k < |cpus[e].queue| && cpus[e].queue[k].id == id;
        i := k;
        Unlink(c, e, k);
      }
    }

    /** The rest of timer_cancel, once the callback has ended on whatever CPU. Whoever sets
        the timer meanwhile loses the callback. */
    method CancelEnd(id: int)
      requires Valid() && id !in active
      modifies this`callbacks
      ensures Valid() && callbacks == old(callbacks) - {id} && (old(Callable()) ==> (Callable() <==> id !in place))
    {
      callbacks := callbacks - {id};
    }

    // ----- a tick -----

    method TickBegin(c: int, now: int) returns (preempts: bool)
      requires Valid() && 0 <= c < |cpus| && !cpus[c].ticking
      modifies this`cpus
      ensures Valid() && preempts == (now >= old(cpus)[c].preempt)
      ensures cpus == old(cpus)[c := old(cpus)[c].(
                next := INFINITE, hw := None, ticking := true, preempt := if preempts then INFINITE else old(cpus)[c].preempt)]
    {
      var p := cpus[c].(next := INFINITE, hw := None, ticking := true);
      preempts := now >= p.preempt;
      SamePlaces(cpus, place, c, if preempts then p.(preempt := INFINITE) else p);
      cpus := cpus[c := if preempts then p.(preempt := INFINITE) else p];
    }

    /** Takes the first timer off the queue if it is due, and marks it busy. */
    method TickFire(c: int, now: int) returns (fired: Option<Timer>)
      requires Valid() && 0 <= c < |cpus| && cpus[c].ticking
      modifies this
      ensures Valid() && cancelled == old(cancelled) && callbacks == old(callbacks)
      ensures old(Callable()) ==> Callable() && (fired.Some? ==> fired.value.id in callbacks)
      ensures fired.None? <==> forall i :: 0 <= i < |old(cpus)[c].queue| ==> now < old(cpus)[c].queue[i].time
      ensures fired.None? ==> cpus == old(cpus) && active == old(active) && place == old(place)
      ensures fired.Some? ==>
                && fired.value.time <= now
                && (forall i :: 0 <= i < |old(cpus)[c].queue| ==> fired.value.time <= old(cpus)[c].queue[i].time)
                && cpus == old(cpus)[c := old(cpus)[c].(queue := old(cpus)[c].queue[1..])]
                && old(cpus)[c].queue[0] == fired.value && active == old(active)[fired.value.id := c]
                && fired.value.id in old(place) && place == old(place) - {fired.value.id}
    {
      fired := None;
      var q := cpus[c].queue;
      if q != [] && q[0].time <= now {
        fired := Some(q[0]);
        FirstGoes(cpus, place, c);
        cpus, place := cpus[c := cpus[c].(queue := q[1..])], place - {q[0].id};
        active := active[q[0].id := c];
      }
    }

    /** The callback has returned. */
    method TickFired(id: int)
      modifies this`active
      ensures active == old(active) - {id}
    {
      active := active - {id};
    }

    /** After the last due timer the hardware is set for whatever comes first. */
    method TickEnd(c: int, now: int)
      requires Valid() && 0 <= c < |cpus| && cpus[c].ticking
      requires cpus[c].queue == [] || now < cpus[c].queue[0].time
      modifies this`cpus
      ensures Valid() && |cpus| == old(|cpus|) && !cpus[c].ticking
      ensures cpus == old(cpus)[c := Lowered(old(cpus)[c].(ticking := false),
                                             Min(FirstTime(old(cpus)[c].queue), old(cpus)[c].preempt))]
      ensures Soonest(cpus[c].next, old(cpus)[c].next, cpus[c])
    {
      var d := INFINITE;
      if cpus[c].queue != [] {
        d := cpus[c].queue[0].time;
        assert d > now;
      }
      if cpus[c].preempt < d {
        d := cpus[c].preempt;
      }
      SamePlaces(cpus, place, c, cpus[c].(ticking := false));
      cpus := cpus[c := cpus[c].(ticking := false)];
      UpdatePlatformTimer(c, d);
    }

    // ----- CPUs coming and going -----

    method Thaw(c: int)
      requires Valid() && 0 <= c < |cpus|
      modifies this`cpus
      ensures Valid() && |cpus| == old(|cpus|) && Soonest(cpus[c].next, INFINITE, cpus[c])
      ensures cpus[c].queue == old(cpus)[c].queue && cpus[c].preempt == old(cpus)[c].preempt
      ensures forall e :: 0 <= e < |cpus| && e != c ==> cpus[e] == old(cpus)[e]
    {
      SamePlaces(cpus, place, c, cpus[c].(next := INFINITE));
      cpus := cpus[c := cpus[c].(next := INFINITE)];
      var d := cpus[c].preempt;
      if cpus[c].queue != [] && cpus[c].queue[0].time < d {
        d := cpus[c].queue[0].time;
      }
      UpdatePlatformTimer(c, d);
    }

    /** Merges the timers of `moving` into a queue, each at exactly its time. */
    method Adopt(q0: seq<Timer>, moving: seq<Timer>) returns (q: seq<Timer>, front: bool)
      requires Ordered(q0) && Ordered(moving) && DistinctIds(q0) && DistinctIds(moving)
      requires forall id :: !(HasId(q0, id) && HasId(moving, id))
      ensures Ordered(q) && Merges(q, q0, moving) && DistinctIds(q)
      ensures forall id {:trigger HasId(q, id)} :: HasId(q, id) <==> HasId(q0, id) || HasId(moving, id)
      ensures if front then q != [] else q0 == [] == q || (q != [] && q0 != [] && q[0] == q0[0])
    {
      q, front := q0, false;
      var i := 0;
      assert moving[..0] == [];
      while i < |moving|
        invariant 0 <= i <= |moving| && Ordered(q) && Merges(q, q0, moving[..i]) && DistinctIds(q)
        invariant forall id {:trigger HasId(q, id)} :: HasId(q, id) <==> HasId(q0, id) || HasId(moving[..i], id)
        invariant if front then q != [] else q0 == [] == q || (q != [] && q0 != [] && q[0] == q0[0])
      {
        var t := moving[i];
        var k, time;
        ghost var before := q;
        q, k, time := InsertTimer(q, t.id, t.time, t.time, t.time);
        MergesOneMore(before, q, q0, moving, i, k, q[k]);
        AdoptedId(q0, moving, before, i, k, q[k]);
        front := front || k == 0;
        i := i + 1;
      }
      assert moving[..i] == moving;
    }

    /** timer_transition_off_cpu: CPU c takes over every timer of CPU e. */
    method TransitionOff(c: int, e: int)
      requires Valid() && 0 <= c < |cpus| && 0 <= e < |cpus| && c != e
      modifies this`cpus, this`place
      ensures Valid() && |cpus| == old(|cpus|) && (old(Callable()) ==> Callable())
      ensures place.Keys == old(place).Keys && forall id :: id in place ==> place[id] == if old(place)[id] == e then c else old(place)[id]
      ensures cpus[c].next <= old(cpus)[c].next
      ensures cpus[c].next == old(cpus)[c].next || (cpus[c].queue != [] && cpus[c].next == cpus[c].queue[0].time)
      ensures Merges(cpus[c].queue, old(cpus)[c].queue, old(cpus)[e].queue)
      ensures cpus[e].queue == [] && cpus[e].next == INFINITE && cpus[e].preempt == INFINITE
      ensures cpus[c].preempt == old(cpus)[c].preempt && cpus[c].ticking == old(cpus)[c].ticking
      ensures forall f :: 0 <= f < |cpus| && f != c && f != e ==> cpus[f] == old(cpus)[f]
    {
      var front := TakeOver(c, e);
      if front {
        UpdatePlatformTimer(c, cpus[c].queue[0].time);
      }
    }

    /** The same before the hardware is looked at; front says that there is a new first timer. */
    method TakeOver(c: int, e: int) returns (front: bool)
      requires Valid() && 0 <= c < |cpus| && 0 <= e < |cpus| && c != e
      modifies this`cpus, this`place
      ensures PlacesOk(cpus, place) && |cpus| == old(|cpus|)
      ensures place.Keys == old(place).Keys && forall id :: id in place ==> place[id] == if old(place)[id] == e then c else old(place)[id]
      ensures Merges(cpus[c].queue, old(cpus)[c].queue, old(cpus)[e].queue) && Ordered(cpus[c].queue)
      ensures cpus == old(cpus)[c := old(cpus)[c].(queue := cpus[c].queue)][e := old(cpus)[e].(queue := [], preempt := INFINITE, next := INFINITE)]
      ensures var q0, q := old(cpus)[c].queue, cpus[c].queue;
              if front then q != [] else q0 == [] == q || (q != [] && q0 != [] && q[0] == q0[0])
    {
      assert Home(cpus[c].queue, c, place) && Home(cpus[e].queue, e, place);
      var q;
      q, front := Adopt(cpus[c].queue, cpus[e].queue);
      var p, r := cpus[c].(queue := q), cpus[e].(queue := [], preempt := INFINITE, next := INFINITE);
      RehomedOk(cpus, place, c, e, p, r);
      cpus, place := cpus[c := p][e := r], Rehomed(place, c, e);
    }
  }

  /** A callback that sets its timer and then cancels it leaves it in the queue, with no
      callback to call. */
  method SetThenCancel(s: System, c: int, id: int, d: Deadline) returns (k: int, t: Timer)
    requires s.Valid() && s.Callable() && 0 <= c < |s.cpus| && IsTime(d.when) && 0 <= d.amount <= INFINITE
    requires id in s.active && s.active[id] == c && id !in s.place && id !in s.cancelled
    modifies s
    ensures s.Valid() && |s.cpus| == old(|s.cpus|) && s.active == old(s.active)
    ensures s.place == old(s.place)[id := c] && id !in s.callbacks && !s.Callable() && id in s.cancelled
    ensures 0 <= k <= |old(s.cpus)[c].queue| && t.id == id && Earliest(d) <= t.time <= Latest(d)
    ensures var p := old(s.cpus)[c];
            s.cpus == old(s.cpus)[c := WithTimer(p, p.queue[..k] + [t] + p.queue[k..], k, d.when)]
  {
    var done;
    done, k, t := s.Set(c, id, d);
    var stop, notRunning, i := s.Cancel(c, id);
  }

  /** One CPU, inside the callback of a timer that fired at 10. */
  method FirstCallback() returns (s: System)
    ensures fresh(s) && s.Valid() && s.Callable() && |s.cpus| == 1 && s.cpus[0].queue == [] && s.cpus[0].ticking
    ensures s.active == map[0 := 0] && s.place == map[] && s.cancelled == {}
  {
    s := new System(1);
    var done, k, t := s.Set(0, 0, Deadline(10, 0, Late));
    assert s.cpus[0].queue == [t];
    var preempts := s.TickBegin(0, 10);
    var fired := s.TickFire(0, 10);
  }

  /** One CPU, one timer: it fires at 10, its callback sets it for 20 and cancels it, and
      the tick at 20 takes it off the queue although its callback is NULL. */
  method CancelledTimerFires() returns (s: System, fired: Option<Timer>)
    ensures fresh(s) && s.Valid()
    ensures fired.Some? && fired.value.id == 0 && fired.value.time == 20
    ensures 0 in s.cancelled && 0 !in s.callbacks
  {
    s := FirstCallback();
    var k, t := SetThenCancel(s, 0, 0, Deadline(20, 0, Late));
    assert s.cpus[0].queue == [t];
    s.TickFired(0);
    s.TickEnd(0, 10);
    var preempts := s.TickBegin(0, 20);
    fired := s.TickFire(0, 20);
  }
}
