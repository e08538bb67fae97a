/** Insertion into a timer queue with coalescing (kernel/kernel/timer.cc) and the window a
    deadline allows (kernel/kernel/deadline.cc). */
module TimerQueue {
  // ----- times are 64-bit and saturate -----

  const INFINITE := 0x7FFF_FFFF_FFFF_FFFF
  const INFINITE_PAST := -0x8000_0000_0000_0000

  predicate IsTime(t: int) { INFINITE_PAST <= t <= INFINITE }

  /** The two's complement value of x in 64 bits. */
  function Wrapped(x: int): int {
    (x - INFINITE_PAST) % 0x1_0000_0000_0000_0000 + INFINITE_PAST
  }

  /** What the zx_time arithmetic returns for the exact result x: on overflow it looks at
      the sign of the wrapped value. */
  function Saturated(x: int): int {
    if IsTime(x) then x else if Wrapped(x) >= 0 then INFINITE_PAST else INFINITE
  }

  function AddDuration(t: int, d: int): int { Saturated(t + d) }

  function SubTime(t: int, u: int): int { Saturated(t - u) }

  /** For sums and differences of two times the sign test is right. */
  lemma SaturationClamps(x: int)
    requires 2 * INFINITE_PAST <= x <= -2 * INFINITE_PAST - 1
    ensures Saturated(x) == if x < INFINITE_PAST then INFINITE_PAST else if x > INFINITE then INFINITE else x
  {
  }

  // ----- deadlines -----

  datatype Mode = Center | Late | Early

  datatype Deadline = Deadline(when: int, amount: int, mode: Mode)

  function Earliest(d: Deadline): int {
    match d.mode
    case Center => SubTime(d.when, d.amount)
    case Late => d.when
    case Early => SubTime(d.when, d.amount)
  }

  function Latest(d: Deadline): int {
    match d.mode
    case Center => AddDuration(d.when, d.amount)
    case Late => AddDuration(d.when, d.amount)
    case Early => d.when
  }

  /** The window always holds the deadline, also where it saturates. */
  lemma WindowHoldsDeadline(d: Deadline)
    requires IsTime(d.when) && 0 <= d.amount <= INFINITE
    ensures IsTime(Earliest(d)) && IsTime(Latest(d)) && Earliest(d) <= d.when <= Latest(d)
  {
    SaturationClamps(d.when - d.amount);
    SaturationClamps(d.when + d.amount);
  }

  /** When a timer for d may fire: late by the slack, early by it, or both. */
  predicate InWindow(d: Deadline, time: int) {
    match d.mode
    case Center => d.when - d.amount <= time <= d.when + d.amount
    case Late => d.when <= time <= d.when + d.amount
    case Early => d.when - d.amount <= time <= d.when
  }

  /** The window computed with saturation is that one, for all times there are. */
  lemma WindowIs(d: Deadline, time: int)
    requires IsTime(d.when) && 0 <= d.amount <= INFINITE && IsTime(time)
    ensures Earliest(d) <= time <= Latest(d) <==> InWindow(d, time)
  {
    SaturationClamps(d.when - d.amount);
    SaturationClamps(d.when + d.amount);
  }

  // ----- the queue -----

  datatype Timer = Timer(id: int, time: int, slack: int)

  ghost predicate Ordered(q: seq<Timer>) {
    && (forall i, j :: 0 <= i < j < |q| ==> q[i].time <= q[j].time)
    && forall i :: 0 <= i < |q| ==> IsTime(q[i].time)
  }

  ghost predicate Overlaps(q: seq<Timer>, earliest: int, latest: int) {
    exists i :: 0 <= i < |q| && earliest <= q[i].time <= latest
  }

  function Distance(t: int, u: int): int { if t <= u then u - t else t - u }

  /** The walk may pass entry i: it is early, and either before the window or beaten by
      the entry after it. */
  predicate Passes(q: seq<Timer>, i: int, when: int, earliest: int, latest: int) {
    && 0 <= i < |q| && q[i].time < when
    && (|| q[i].time < earliest
        || (i + 1 < |q| && (q[i + 1].time <= when ||
                            (q[i + 1].time < latest && SubTime(q[i + 1].time, when) < SubTime(when, q[i].time)))))
  }

  /** Saturation never changes which of two neighbours is closer. */
  lemma CloserExactly(e: int, when: int, n: int, latest: int)
    requires IsTime(e) && IsTime(n) && IsTime(latest) && e < when < n < latest
    ensures SubTime(n, when) < SubTime(when, e) <==> n - when < when - e
  {
    SaturationClamps(n - when);
    SaturationClamps(when - e);
  }

  /** No queued time of the closed window is closer. */
  ghost predicate Closest(q: seq<Timer>, time: int, when: int, earliest: int, latest: int) {
    forall i :: 0 <= i < |q| && earliest <= q[i].time <= latest ==> Distance(time, when) <= Distance(q[i].time, when)
  }

  /** A queued time at the very end of the window is the closest one, and something else
      in the window comes before it. */
  ghost predicate LosesAtEnd(q: seq<Timer>, when: int, earliest: int, latest: int) {
    && when < latest
    && (exists i :: 0 <= i < |q| && q[i].time == latest)
    && (exists i :: 0 <= i < |q| && earliest <= q[i].time < latest)
    && forall i :: 0 <= i < |q| && earliest <= q[i].time < latest ==> latest - when < Distance(q[i].time, when)
  }

  /** Where a walk that stopped at i puts the timer, and for when. */
  function PlaceAt(q: seq<Timer>, i: int, when: int, latest: int): (int, int)
    requires 0 <= i <= |q|
  {
    if i == |q| || q[i].time > latest then (i, when) else (i + 1, q[i].time)
  }

  /** The walk has a reason to stop at i. */
  predicate Stops(q: seq<Timer>, i: int, when: int, earliest: int, latest: int) {
    0 <= i <= |q| && (i < |q| ==> !Passes(q, i, when, earliest, latest))
  }

  /** The walk of insert_timer_in_queue. */
  method FindPlace(q: seq<Timer>, when: int, earliest: int, latest: int) returns (k: int, time: int, ghost i: int)
    requires earliest <= when <= latest
    ensures Stops(q, i, when, earliest, latest) && forall j :: 0 <= j < i ==> Passes(q, j, when, earliest, latest)
    ensures (k, time) == PlaceAt(q, i, when, latest)
  {
    var n := 0;
    while n < |q|
      invariant 0 <= n <= |q|
      invariant forall j :: 0 <= j < n ==> Passes(q, j, when, earliest, latest)
    {
      var e := q[n].time;
      if e > latest {
        return n, when, n;
      }
      if e >= when {
        return n + 1, e, n;
      }
      if !(e < earliest) {
        var hasNext := n + 1 < |q|;
        if !(hasNext && q[n + 1].time <= when) {
          if !(hasNext && q[n + 1].time < latest && SubTime(q[n + 1].time, when) < SubTime(when, e)) {
            return n + 1, e, n;
          }
        }
      }
      n := n + 1;
    }
    return |q|, when, |q|;
  }

  /** insert_timer_in_queue. The timer goes in at position k with the time it will fire. */
  method InsertTimer(q: seq<Timer>, id: int, when: int, earliest: int, latest: int)
    returns (q': seq<Timer>, k: int, time: int)
    requires Ordered(q) && IsTime(earliest) && IsTime(latest) && earliest <= when <= latest
    ensures 0 <= k <= |q| && q' == q[..k] + [Timer(id, time, SubTime(time, when))] + q[k..]
    ensures Ordered(q')
    ensures earliest <= time <= latest
    ensures if Overlaps(q, earliest, latest) then k > 0 && time == q[k - 1].time else time == when
    ensures forall i :: 0 <= i < |q| && earliest <= q[i].time < latest ==> Distance(time, when) <= Distance(q[i].time, when)
    ensures forall i :: 0 <= i < |q| && earliest <= q[i].time < latest && Distance(time, when) == Distance(q[i].time, when) ==>
              time <= q[i].time
    ensures time == latest > when ==> forall i :: 0 <= i < |q| && earliest <= q[i].time ==> latest <= q[i].time
    ensures Closest(q, time, when, earliest, latest) <==> !LosesAtEnd(q, when, earliest, latest)
  {
    ghost var i;
    k, time, i := FindPlace(q, when, earliest, latest);
    PassedAreFar(q, i, when, earliest, latest);
    PlaceFits(q, i, when, earliest, latest);
    ClosestOfAll(q, i, when, earliest, latest);
    q' := q[..k] + [Timer(id, time, SubTime(time, when))] + q[k..];
    InsertedInOrder(q, q', k, Timer(id, time, SubTime(time, when)));
  }

  /** Where the walk stops, nothing it passed is a better fit. */
  lemma PassedAreFar(q: seq<Timer>, i: int, when: int, earliest: int, latest: int)
    requires Ordered(q) && IsTime(earliest) && IsTime(latest) && earliest <= when <= latest && 0 <= i <= |q|
    requires forall j :: 0 <= j < i ==> Passes(q, j, when, earliest, latest)
    ensures i == |q| || q[i].time > latest ==> forall j :: 0 <= j < i ==> q[j].time < earliest
    ensures i < |q| && q[i].time <= latest ==>
              forall j :: 0 <= j < i && q[j].time >= earliest ==> Distance(q[i].time, when) <= Distance(q[j].time, when)
    ensures i < |q| && when < q[i].time <= latest ==>
              forall j :: 0 <= j < i && q[j].time >= earliest ==>
                q[i].time < latest && Distance(q[i].time, when) < Distance(q[j].time, when)
  {
    if i > 0 {
      assert Passes(q, i - 1, when, earliest, latest);
      if i < |q| && q[i].time > when && q[i].time < latest {
        CloserExactly(q[i - 1].time, when, q[i].time, latest);
      }
    }
  }

  /** The place keeps the order, is in the window, and follows an entry with the same time
      exactly if anything overlaps. */
  lemma PlaceFits(q: seq<Timer>, i: int, when: int, earliest: int, latest: int)
    requires Ordered(q) && earliest <= when <= latest && Stops(q, i, when, earliest, latest)
    requires i == |q| || q[i].time > latest ==> forall j :: 0 <= j < i ==> q[j].time < earliest
    ensures var (k, time) := PlaceAt(q, i, when, latest);
            && 0 <= k <= |q| && earliest <= time <= latest
            && (if Overlaps(q, earliest, latest) then k > 0 && time == q[k - 1].time else time == when)
            && (k < |q| ==> time <= q[k].time)
  {
    if i < |q| && q[i].time <= latest {
      assert earliest <= q[i].time;
    }
  }

  /** Which entries the chosen one beats. */
  lemma ClosestOfAll(q: seq<Timer>, i: int, when: int, earliest: int, latest: int)
    requires Ordered(q) && earliest <= when <= latest && Stops(q, i, when, earliest, latest)
    requires IsTime(earliest) && IsTime(latest)
    requires forall j :: 0 <= j < i ==> Passes(q, j, when, earliest, latest)
    ensures var time := PlaceAt(q, i, when, latest).1;
            && (forall j :: 0 <= j < |q| && earliest <= q[j].time < latest ==>
                  Distance(time, when) <= Distance(q[j].time, when) &&
                  (Distance(time, when) == Distance(q[j].time, when) ==> time <= q[j].time))
            && (Closest(q, time, when, earliest, latest) <==> !LosesAtEnd(q, when, earliest, latest))
  {
    PassedAreFar(q, i, when, earliest, latest);
    if i < |q| && q[i].time <= latest {
      if q[i].time < when {
        EarlyChoice(q, i, when, earliest, latest);
      } else {
        forall j | 0 <= j < i ensures q[j].time < when {
          assert Passes(q, j, when, earliest, latest);
        }
        LateChoice(q, i, when, earliest, latest);
      }
    }
  }

  /** The walk stopped at an entry before `when`: only one at the very end can be closer. */
  lemma EarlyChoice(q: seq<Timer>, i: int, when: int, earliest: int, latest: int)
    requires Ordered(q) && earliest <= when <= latest && Stops(q, i, when, earliest, latest) && i < |q| && q[i].time < when
    requires IsTime(earliest) && IsTime(latest)
    requires forall j :: 0 <= j < i && q[j].time >= earliest ==> Distance(q[i].time, when) <= Distance(q[j].time, when)
    ensures forall j :: 0 <= j < |q| && earliest <= q[j].time < latest ==>
              Distance(q[i].time, when) <= Distance(q[j].time, when) &&
              (Distance(q[i].time, when) == Distance(q[j].time, when) ==> q[i].time <= q[j].time)
    ensures Closest(q, q[i].time, when, earliest, latest) <==> !LosesAtEnd(q, when, earliest, latest)
  {
    forall j | i < j < |q| ensures q[i + 1].time <= q[j].time && when < q[j].time {
      assert j == i + 1 || q[i + 1].time <= q[j].time;
    }
    if i + 1 < |q| && q[i + 1].time < latest {
      CloserExactly(q[i].time, when, q[i + 1].time, latest);
    }
    if j :| 0 <= j < |q| && q[j].time == latest && latest - when < when - q[i].time {
      assert earliest <= q[j].time <= latest;
    }
  }

  /** The walk stopped at an entry that is not before `when`: that one is the closest. */
  lemma LateChoice(q: seq<Timer>, i: int, when: int, earliest: int, latest: int)
    requires Ordered(q) && earliest <= when <= latest && 0 <= i < |q| && when <= q[i].time <= latest
    requires forall j :: 0 <= j < i ==> q[j].time < when
    requires forall j :: 0 <= j < i && q[j].time >= earliest ==>
               Distance(q[i].time, when) <= Distance(q[j].time, when) &&
               (when < q[i].time ==> q[i].time < latest && Distance(q[i].time, when) < Distance(q[j].time, when))
    ensures forall j :: 0 <= j < |q| && earliest <= q[j].time < latest ==>
              Distance(q[i].time, when) <= Distance(q[j].time, when) &&
              (Distance(q[i].time, when) == Distance(q[j].time, when) ==> q[i].time <= q[j].time)
    ensures Closest(q, q[i].time, when, earliest, latest) && !LosesAtEnd(q, when, earliest, latest)
  {
    assert forall j :: i < j < |q| ==> q[i].time <= q[j].time;
  }

  lemma InsertedInOrder(q: seq<Timer>, q': seq<Timer>, k: int, t: Timer)
    requires Ordered(q) && 0 <= k <= |q| && q' == q[..k] + [t] + q[k..] && IsTime(t.time)
    requires k > 0 ==> q[k - 1].time <= t.time
    requires k < |q| ==> t.time <= q[k].time
    ensures Ordered(q')
  {
  }

  /** Only a window cut off at the end of time has a queued time at its end that is closer
      than another in it. */
  lemma OnlyCutOffLoses(q: seq<Timer>, d: Deadline)
    requires IsTime(d.when) && 0 <= d.amount <= INFINITE && LosesAtEnd(q, d.when, Earliest(d), Latest(d))
    ensures CutOff(d) && Latest(d) == INFINITE
  {
    WindowHoldsDeadline(d);
    SaturationClamps(d.when - d.amount);
    SaturationClamps(d.when + d.amount);
  }

  /** Centered slack that reaches beyond the end of time. */
  predicate CutOff(d: Deadline) { d.mode.Center? && d.when + d.amount > INFINITE }

  /** A timer for d that went in behind k others takes the time of a neighbour whenever one
      is in its window, the closest unless the window is cut off, and its own otherwise. */
  ghost predicate Coalesced(q: seq<Timer>, d: Deadline, k: int, time: int) {
    && InWindow(d, time)
    && (if exists i :: 0 <= i < |q| && InWindow(d, q[i].time) then 0 < k <= |q| && time == q[k - 1].time else time == d.when)
    && (!CutOff(d) ==> forall i :: 0 <= i < |q| && InWindow(d, q[i].time) ==> Distance(time, d.when) <= Distance(q[i].time, d.when))
    && (Closest(q, time, d.when, Earliest(d), Latest(d)) <==> !LosesAtEnd(q, d.when, Earliest(d), Latest(d)))
  }

  lemma CoalescedIf(q: seq<Timer>, d: Deadline, k: int, time: int)
    requires IsTime(d.when) && 0 <= d.amount <= INFINITE && 0 <= k <= |q| && Ordered(q) && Earliest(d) <= time <= Latest(d)
    requires if Overlaps(q, Earliest(d), Latest(d)) then k > 0 && time == q[k - 1].time else time == d.when
    requires Closest(q, time, d.when, Earliest(d), Latest(d)) <==> !LosesAtEnd(q, d.when, Earliest(d), Latest(d))
    ensures Coalesced(q, d, k, time)
  {
    if LosesAtEnd(q, d.when, Earliest(d), Latest(d)) {
      OnlyCutOffLoses(q, d);
    }
    WindowIs(d, time);
    forall i | 0 <= i < |q| ensures Earliest(d) <= q[i].time <= Latest(d) <==> InWindow(d, q[i].time) {
      WindowIs(d, q[i].time);
    }
  }

  /** There the closest queued time is not always chosen. */
  method EndOfWindowLoses() returns (q: seq<Timer>, d: Deadline, q': seq<Timer>, time: int)
    ensures q == [Timer(0, INFINITE - 11, 0), Timer(1, INFINITE, 0)] && d == Deadline(INFINITE - 1, 10, Center) && |q'| == 3
    ensures Ordered(q) && CutOff(d) && LosesAtEnd(q, d.when, Earliest(d), Latest(d))
    ensures time == INFINITE - 11 && !Closest(q, time, d.when, Earliest(d), Latest(d))
  {
    var k;
    q, d := [Timer(0, INFINITE - 11, 0), Timer(1, INFINITE, 0)], Deadline(INFINITE - 1, 10, Center);
    WindowHoldsDeadline(d);
    SaturationClamps(d.when - d.amount);
    SaturationClamps(d.when + d.amount);
    assert q[0].time == Earliest(d) && q[1].time == Latest(d);
    assert LosesAtEnd(q, d.when, Earliest(d), Latest(d));
    assert Overlaps(q, Earliest(d), Latest(d));
    q', k, time := InsertTimer(q, 2, d.when, Earliest(d), Latest(d));
  }
}
