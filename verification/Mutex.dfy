/** The kernel mutex of kernel/kernel/mutex.cc: one word holding the owner and a CONTESTED
    flag, and an owned wait queue changed under thread_lock. Each step is one atomic
    access to the word, or one operation on the queue. */
module Mutex {
  import opened PriorityList

  /** val_: the holder (STATE_FREE without one) and STATE_FLAG_CONTESTED. */
  datatype Word = Word(holder: Option<Tid>, contested: bool)

  datatype Pc =
    // outside thread_lock
    | Idle
    | WantAcquire                          // the fast path of Acquire failed
    | Holder
    | WantRelease                          // the fast path of Release failed
    | Waiting                              // in the wait queue
    | Woken                                // taken out of it, not yet running
    // inside thread_lock
    | InAcquire                            // saw the flag clear
    | Racing                               // set the flag on a free mutex
    | InRelease(woken: Option<Tid>)        // has woken a thread, word not yet updated

  /** prio are the effective priorities, by which the wait queue is ordered. */
  datatype State = State(
    pc: map<Tid, Pc>, word: Word, lock: Option<Tid>, queue: seq<Tid>, owner: Option<Tid>, prio: map<Tid, int>)

  function Level(prio: map<Tid, int>): Tid -> int {
    (t: Tid) => if t in prio then prio[t] else 0
  }

  predicate Inside(p: Pc) { p.InAcquire? || p.Racing? || p.InRelease? }

  const FREE := Word(None, false)

  // ----- Acquire -----

  ghost predicate FastAcquire(s: State, s': State, t: Tid) {
    && t in s.pc && s.pc[t] == Idle
    && if s.word == FREE then s' == s.(pc := s.pc[t := Holder], word := Word(Some(t), false))
       else s' == s.(pc := s.pc[t := WantAcquire])
  }

  /** BlockAndAssignOwner on the thread named by the word. */
  ghost predicate Block(s: State, s': State, t: Tid, holder: Option<Tid>, word: Word) {
    && t in s.pc
    && s' == State(s.pc[t := Waiting], word, None, Insert(Level(s.prio), s.queue, t), holder, s.prio)
  }

  ghost predicate EnterAcquire(s: State, s': State, t: Tid) {
    && t in s.pc && s.pc[t] == WantAcquire && s.lock.None?
    && if s.word.contested then Block(s, s', t, s.word.holder, s.word)
       else s' == s.(pc := s.pc[t := InAcquire], lock := Some(t))
  }

  /** fetch_or of the flag. */
  ghost predicate SetContested(s: State, s': State, t: Tid) {
    && t in s.pc && s.pc[t] == InAcquire && s.lock == Some(t)
    && var word := s.word.(contested := true);
       if s.word == FREE then s' == s.(pc := s.pc[t := Racing], word := word)
       else Block(s, s', t, s.word.holder, word)
  }

  ghost predicate TakeRaced(s: State, s': State, t: Tid) {
    && t in s.pc && s.pc[t] == Racing && s.lock == Some(t)
    && s' == s.(pc := s.pc[t := Holder], word := Word(Some(t), false), lock := None)
  }

  // ----- Release -----

  ghost predicate FastRelease(s: State, s': State, t: Tid) {
    && t in s.pc && s.pc[t] == Holder
    && if s.word == Word(Some(t), false) then s' == s.(pc := s.pc[t := Idle], word := FREE)
       else s' == s.(pc := s.pc[t := WantRelease])
  }

  /** WakeThreads(1): the first waiter leaves the queue and, if others remain, owns it. */
  ghost predicate WakeOne(s: State, s': State, t: Tid) {
    && t in s.pc && s.pc[t] == WantRelease && s.lock.None?
    && if s.queue == [] then s' == s.(pc := s.pc[t := InRelease(None)], lock := Some(t), owner := None)
       else var u, rest := s.queue[0], s.queue[1..];
            s' == s.(pc := s.pc[u := Woken][t := InRelease(Some(u))], lock := Some(t), queue := rest,
                     owner := if rest == [] then None else Some(u))
  }

  /** The compare-and-swap that hands the mutex over; it fails only where the code panics. */
  ghost predicate HandOver(s: State, s': State, t: Tid) {
    && t in s.pc && s.pc[t].InRelease? && s.lock == Some(t)
    && s.word == Word(Some(t), true)
    && s' == s.(pc := s.pc[t := Idle], lock := None, word := Word(s.pc[t].woken, s.pc[t].woken.Some? && s.queue != []))
  }

  /** A woken thread returns from Block once it gets thread_lock. */
  ghost predicate Resume(s: State, s': State, t: Tid) {
    t in s.pc && s.pc[t] == Woken && s.lock.None? && s' == s.(pc := s.pc[t := Holder])
  }

  /** Somebody's priority changes; a waiter then leaves the queue and enters it again. */
  ghost predicate Reprice(s: State, s': State, t: Tid, p: int) {
    && s.lock.None?
    && var prio := s.prio[t := p];
       s' == s.(prio := prio, queue := if t in s.queue then Insert(Level(prio), Without(s.queue, t), t) else s.queue)
  }

  ghost predicate AcquireStep(s: State, s': State, t: Tid) {
    FastAcquire(s, s', t) || EnterAcquire(s, s', t) || SetContested(s, s', t) || TakeRaced(s, s', t)
  }

  ghost predicate ReleaseStep(s: State, s': State, t: Tid) {
    FastRelease(s, s', t) || WakeOne(s, s', t) || HandOver(s, s', t) || Resume(s, s', t)
  }

  ghost predicate Step(s: State, s': State) {
    (exists t, p :: Reprice(s, s', t, p)) || exists t :: AcquireStep(s, s', t) || ReleaseStep(s, s', t)
  }

  ghost predicate Init(s: State) {
    && (forall t :: t in s.pc ==> s.pc[t] == Idle)
    && s.word == FREE && s.lock.None? && s.queue == [] && s.owner.None?
  }

  // ----- the invariant -----

  function Here(s: State): Pc {
    if s.lock.Some? && s.lock.value in s.pc then s.pc[s.lock.value] else Idle
  }

  /** The word names this thread as the holder. A woken thread is named as soon as its
      waker has written the word. */
  ghost predicate Named(s: State, t: Tid) {
    t in s.pc && match s.pc[t]
      case Holder => true
      case WantRelease => true
      case InRelease(u) => true
      case Woken => Here(s) != InRelease(Some(t))
      case _ => false
  }

  ghost predicate LockOk(s: State) {
    && (s.lock.Some? ==> s.lock.value in s.pc && Inside(s.pc[s.lock.value]))
    && forall t :: t in s.pc && Inside(s.pc[t]) ==> s.lock == Some(t)
  }

  ghost predicate QueueOk(s: State) {
    && Distinct(s.queue) && Sorted(Level(s.prio), s.queue)
    && (forall t :: t in s.queue ==> t in s.pc && s.pc[t].Waiting?)
    && (forall t :: t in s.pc && s.pc[t].Waiting? ==> t in s.queue)
  }

  ghost predicate HolderOk(s: State) {
    && (forall t :: Named(s, t) ==> s.word.holder == Some(t))
    && (s.word.holder.Some? ==> Named(s, s.word.holder.value))
    && forall t :: t in s.pc && s.pc[t].WantRelease? ==> s.word.contested
  }

  /** The word and the queue agree; inside thread_lock they may briefly differ. */
  ghost predicate AgreeOk(s: State) {
    match Here(s)
    case InAcquire => !s.word.contested && s.queue == [] && s.owner.None?
    case Racing => s.word == Word(None, true) && s.queue == [] && s.owner.None?
    case InRelease(woken) =>
      && s.word == Word(s.lock, true)
      && woken.Some? && woken.value in s.pc && s.pc[woken.value].Woken?
      && s.owner == (if s.queue == [] then None else woken)
    case _ =>
      && (s.word.contested <==> s.queue != [])
      && s.owner == (if s.queue == [] then None else s.word.holder)
      && (s.word.contested ==> s.word.holder.Some?)
  }

  ghost predicate Inv(s: State) {
    LockOk(s) && QueueOk(s) && HolderOk(s) && AgreeOk(s)
  }

  lemma InitOk(s: State)
    requires Init(s)
    ensures Inv(s)
  {
  }

  lemma FastAcquireOk(s: State, s': State, t: Tid)
    requires Inv(s) && FastAcquire(s, s', t)
    ensures Inv(s')
  {
  }

  lemma BlockOk(s: State, s': State, t: Tid)
    requires LockOk(s) && QueueOk(s) && HolderOk(s) && t in s.pc && (s.pc[t].WantAcquire? || s.pc[t].InAcquire?)
    requires s.lock.None? || s.lock == Some(t)
    requires s.word.holder.Some? && Block(s, s', t, s.word.holder, s.word.(contested := true))
    ensures Inv(s')
  {
    InsertKeepsOrder(Level(s.prio), s.queue, t);
    InsertMembers(Level(s.prio), s.queue, t);
  }

  lemma EnterAcquireOk(s: State, s': State, t: Tid)
    requires Inv(s) && EnterAcquire(s, s', t)
    ensures Inv(s')
  {
    if s.word.contested {
      assert s.word == s.word.(contested := true);
      BlockOk(s, s', t);
    }
  }

  lemma SetContestedOk(s: State, s': State, t: Tid)
    requires Inv(s) && SetContested(s, s', t)
    ensures Inv(s')
  {
    if s.word != FREE {
      BlockOk(s, s', t);
    }
  }

  lemma TakeRacedOk(s: State, s': State, t: Tid)
    requires Inv(s) && TakeRaced(s, s', t)
    ensures Inv(s')
  {
    forall u ensures Named(s', u) ==> u == t {
      assert !Named(s, u);
    }
    assert forall u :: u in s.pc && s.pc[u].WantRelease? ==> Named(s, u);
  }

  lemma FastReleaseOk(s: State, s': State, t: Tid)
    requires Inv(s) && FastRelease(s, s', t)
    ensures Inv(s')
  {
    assert Named(s, t);
  }

  lemma WakeOneOk(s: State, s': State, t: Tid)
    requires Inv(s) && WakeOne(s, s', t)
    ensures Inv(s')
  {
    assert Named(s, t);
    assert s.queue[0] in s.queue;
    assert s.queue == [s.queue[0]] + s.queue[1..];
  }

  lemma HandOverOk(s: State, s': State, t: Tid)
    requires Inv(s) && HandOver(s, s', t)
    ensures Inv(s')
  {
    assert Named(s, t);
    assert forall u :: u in s.pc && s.pc[u].WantRelease? ==> Named(s, u);
  }

  lemma ResumeOk(s: State, s': State, t: Tid)
    requires Inv(s) && Resume(s, s', t)
    ensures Inv(s')
  {
    assert Named(s, t);
  }

  lemma RepriceOk(s: State, s': State, t: Tid, p: int)
    requires Inv(s) && Reprice(s, s', t, p)
    ensures Inv(s')
  {
    var old_, new_ := Level(s.prio), Level(s'.prio);
    if t in s.queue {
      ReinsertKeepsOrder(old_, new_, s.queue, t);
    } else {
      SortedLocal(old_, new_, s.queue);
    }
  }

  // ----- every run -----

  lemma StepOk(s: State, s': State)
    requires Inv(s) && Step(s, s')
    ensures Inv(s')
  {
    if u, p :| Reprice(s, s', u, p) {
      RepriceOk(s, s', u, p);
    } else {
      var t :| AcquireStep(s, s', t) || ReleaseStep(s, s', t);
      if FastAcquire(s, s', t) { FastAcquireOk(s, s', t); }
      else if EnterAcquire(s, s', t) { EnterAcquireOk(s, s', t); }
      else if SetContested(s, s', t) { SetContestedOk(s, s', t); }
      else if TakeRaced(s, s', t) { TakeRacedOk(s, s', t); }
      else if FastRelease(s, s', t) { FastReleaseOk(s, s', t); }
      else if WakeOne(s, s', t) { WakeOneOk(s, s', t); }
      else if HandOver(s, s', t) { HandOverOk(s, s', t); }
      else { ResumeOk(s, s', t); }
    }
  }

  ghost predicate Run(run: seq<State>) {
    && run != [] && Init(run[0])
    && forall i :: 0 <= i < |run| - 1 ==> Step(run[i], run[i + 1])
  }

  lemma {:induction false} RunOk(run: seq<State>, i: nat)
    requires Run(run) && i < |run|
    ensures Inv(run[i])
  {
    if i == 0 {
      InitOk(run[0]);
    } else {
      RunOk(run, i - 1);
      assert Step(run[i - 1], run[i - 1 + 1]);
      StepOk(run[i - 1], run[i]);
    }
  }

  // ----- what it is for -----

  /** At most one thread holds the mutex. */
  lemma OneHolder(run: seq<State>, i: nat, t: Tid, u: Tid)
    requires Run(run) && i < |run| && t in run[i].pc && u in run[i].pc
    requires run[i].pc[t].Holder? || run[i].pc[t].WantRelease?
    requires run[i].pc[u].Holder? || run[i].pc[u].WantRelease?
    ensures t == u
  {
    RunOk(run, i);
    assert Named(run[i], t) && Named(run[i], u);
  }

  /** Whenever thread_lock is free the flag is set iff somebody waits, and then the queue
      is owned by the holder the word names. */
  lemma WordAndQueueAgree(run: seq<State>, i: nat)
    requires Run(run) && i < |run| && run[i].lock.None?
    ensures run[i].word.contested <==> exists t :: t in run[i].pc && run[i].pc[t].Waiting?
    ensures run[i].queue != [] ==> run[i].owner == run[i].word.holder && run[i].owner.Some?
    ensures run[i].queue == [] ==> run[i].owner.None?
  {
    RunOk(run, i);
    if run[i].queue != [] {
      assert run[i].queue[0] in run[i].queue;
    }
  }

  /** Whoever waits, waits for somebody: the word names a thread that holds the mutex, is on
      its way out, or has been handed it and is about to run. */
  lemma WaitersHaveHolder(run: seq<State>, i: nat) returns (h: Tid)
    requires Run(run) && i < |run| && run[i].queue != []
    ensures run[i].word.holder == Some(h) && h in run[i].pc
    ensures run[i].pc[h].Holder? || run[i].pc[h].WantRelease? || run[i].pc[h].InRelease? || run[i].pc[h].Woken?
  {
    RunOk(run, i);
    h := run[i].word.holder.value;
    assert Named(run[i], h);
  }

  /** Neither panic of ReleaseInternal can happen: a holder whose fast path fails finds
      itself in the word with the flag set, and so does its last compare-and-swap; and
      the thread it hands over to is never left uninitialised. */
  lemma ReleaseNeverPanics(run: seq<State>, i: nat, t: Tid)
    requires Run(run) && i < |run| && t in run[i].pc
    requires run[i].pc[t].Holder? || run[i].pc[t].WantRelease? || run[i].pc[t].InRelease?
    ensures run[i].word.holder == Some(t)
    ensures run[i].pc[t].WantRelease? || run[i].pc[t].InRelease? ==> run[i].word.contested
    ensures run[i].pc[t].WantRelease? && run[i].lock.None? ==> run[i].queue != []
    ensures run[i].pc[t].InRelease? ==> run[i].pc[t].woken.Some?
  {
    RunOk(run, i);
    assert Named(run[i], t);
  }

  /** Hand-off: the next holder is the first waiter, and none has a higher priority; nobody
      can slip in between. */
  lemma HandsOffToFirst(s: State, s1: State, s2: State, t: Tid)
    requires Inv(s) && WakeOne(s, s1, t) && HandOver(s1, s2, t)
    ensures s.queue != [] && s2.word.holder == Some(s.queue[0]) && s2.queue == s.queue[1..]
    ensures forall u :: u in s.queue ==> Level(s.prio)(u) <= Level(s.prio)(s.queue[0])
    ensures s2.word.contested <==> s2.queue != []
    ensures forall u, s'' :: FastAcquire(s1, s'', u) ==> s''.word == s1.word
  {
    assert Named(s, t);
    WakeOneOk(s, s1, t);
    forall u | u in s.queue ensures Level(s.prio)(u) <= Level(s.prio)(s.queue[0]) {
      var i :| 0 <= i < |s.queue| && s.queue[i] == u;
      assert i == 0 || Level(s.prio)(s.queue[0]) >= Level(s.prio)(s.queue[i]);
    }
  }

  /** A woken thread that gets to run is the holder the word names. */
  lemma WokenIsHolder(run: seq<State>, i: nat, t: Tid)
    requires Run(run) && i < |run| && t in run[i].pc && run[i].pc[t].Woken? && run[i].lock.None?
    ensures run[i].word.holder == Some(t)
  {
    RunOk(run, i);
    assert Named(run[i], t);
  }

  // ----- which way every thread goes -----

  /** Where thread t goes from where it is: who gets in at once, who waits, who hands on. */
  predicate Decides(s: State, t: Tid, p: Pc, p': Pc) {
    match p
    case Idle => p' == if s.word == FREE then Holder else WantAcquire
    case WantAcquire => p' == if s.word.contested then Waiting else InAcquire
    case InAcquire => p' == if s.word == FREE then Racing else Waiting
    case Racing => p' == Holder
    case Holder => p' == if s.word.contested then WantRelease else Idle
    case WantRelease => s.queue != [] && p' == InRelease(Some(s.queue[0]))
    case InRelease(woken) => p' == Idle
    case Waiting => s.queue != [] && t == s.queue[0] && p' == Woken
    case Woken => p' == Holder
  }

  lemma AcquireDecides(s: State, s': State, t: Tid, u: Tid)
    requires AcquireStep(s, s', u) && t in s.pc && t in s'.pc && s'.pc[t] != s.pc[t]
    ensures Decides(s, t, s.pc[t], s'.pc[t])
  {
  }

  lemma ReleaseDecides(s: State, s': State, t: Tid, u: Tid)
    requires Inv(s) && ReleaseStep(s, s', u) && t in s.pc && t in s'.pc && s'.pc[t] != s.pc[t]
    ensures Decides(s, t, s.pc[t], s'.pc[t])
  {
    if WakeOne(s, s', u) {
      assert Named(s, u) && s.queue[0] in s.queue;
    } else if FastRelease(s, s', u) {
      assert Named(s, u);
    }
  }

  /** In every run: a thread that moves goes where the word and the queue send it. */
  lemma EveryMoveDecides(run: seq<State>, i: nat, t: Tid)
    requires Run(run) && i + 1 < |run| && t in run[i].pc && t in run[i + 1].pc && run[i + 1].pc[t] != run[i].pc[t]
    ensures Decides(run[i], t, run[i].pc[t], run[i + 1].pc[t])
  {
    RunOk(run, i);
    assert Step(run[i], run[i + 1]);
    var u :| AcquireStep(run[i], run[i + 1], u) || ReleaseStep(run[i], run[i + 1], u);
    if AcquireStep(run[i], run[i + 1], u) {
      AcquireDecides(run[i], run[i + 1], t, u);
    } else {
      ReleaseDecides(run[i], run[i + 1], t, u);
    }
  }

  lemma OnlyRelease(s: State, s': State, t: Tid, u: Tid)
    requires Inv(s) && (AcquireStep(s, s', u) || ReleaseStep(s, s', u))
    requires t in s.pc && t in s'.pc && s.pc[t].Waiting? && !s'.pc[t].Waiting?
    ensures s.queue != [] && s.queue[0] == t && s'.queue == s.queue[1..]
    ensures s.word.holder == Some(u) && u in s'.pc && s'.pc[u] == InRelease(Some(t))
  {
    assert WakeOne(s, s', u) && Named(s, u);
    assert s.queue[0] in s.queue;
  }

  /** In every run: whoever stops waiting was first, nobody who waits is more urgent, and
      the holder is releasing the mutex to it. */
  lemma FirstLeavesFirst(run: seq<State>, i: nat, t: Tid) returns (h: Tid)
    requires Run(run) && i + 1 < |run| && t in run[i].pc && t in run[i + 1].pc
    requires run[i].pc[t].Waiting? && !run[i + 1].pc[t].Waiting?
    ensures run[i].queue == [t] + run[i + 1].queue
    ensures forall u :: u in run[i].queue ==> Level(run[i].prio)(u) <= Level(run[i].prio)(t)
    ensures run[i].word.holder == Some(h) && h in run[i + 1].pc && run[i + 1].pc[h] == InRelease(Some(t))
  {
    RunOk(run, i);
    var s, s' := run[i], run[i + 1];
    assert Step(s, s');
    h :| AcquireStep(s, s', h) || ReleaseStep(s, s', h);
    OnlyRelease(s, s', t, h);
    forall u | u in s.queue ensures Level(s.prio)(u) <= Level(s.prio)(t) {
      var k :| 0 <= k < |s.queue| && s.queue[k] == u;
      assert k == 0 || Level(s.prio)(s.queue[0]) >= Level(s.prio)(s.queue[k]);
    }
  }

  lemma OnlyBlock(s: State, s': State, t: Tid, u: Tid)
    requires LockOk(s) && AgreeOk(s) && (AcquireStep(s, s', u) || ReleaseStep(s, s', u))
    requires t in s.pc && t in s'.pc && !s.pc[t].Waiting? && s'.pc[t].Waiting?
    ensures s'.queue == Insert(Level(s.prio), s.queue, t) && s'.word == s.word.(contested := true)
    ensures s'.owner == s.word.holder && s.word.holder.Some?
  {
    if EnterAcquire(s, s', u) {
      assert s.word == s.word.(contested := true);
    } else {
      assert SetContested(s, s', u);
    }
  }

  /** In every run: whoever starts to wait goes behind all who are at least as urgent and
      before all others, and the queue is owned by the holder from then on. */
  lemma WaitsBehindEquals(run: seq<State>, i: nat, t: Tid) returns (k: nat)
    requires Run(run) && i + 1 < |run| && t in run[i].pc && t in run[i + 1].pc
    requires !run[i].pc[t].Waiting? && run[i + 1].pc[t].Waiting?
    ensures k <= |run[i].queue| && run[i + 1].queue == run[i].queue[..k] + [t] + run[i].queue[k..]
    ensures forall m :: 0 <= m < k ==> Level(run[i].prio)(run[i].queue[m]) >= Level(run[i].prio)(t)
    ensures forall m :: k <= m < |run[i].queue| ==> Level(run[i].prio)(run[i].queue[m]) < Level(run[i].prio)(t)
    ensures run[i + 1].word == run[i].word.(contested := true) && run[i + 1].owner == run[i].word.holder && run[i].word.holder.Some?
  {
    RunOk(run, i);
    assert Step(run[i], run[i + 1]);
    var u :| AcquireStep(run[i], run[i + 1], u) || ReleaseStep(run[i], run[i + 1], u);
    OnlyBlock(run[i], run[i + 1], t, u);
    k := InsertSplits(Level(run[i].prio), run[i].queue, t);
  }

  // ----- nobody is stuck -----

  /** t can take its next step. */
  ghost predicate Advances(s: State, s': State, t: Tid) {
    t in s.pc && t in s'.pc && Step(s, s') && s'.pc[t] != s.pc[t]
  }

  lemma AcquireAdvances(s: State, t: Tid) returns (s': State)
    requires t in s.pc && match s.pc[t]
      case Idle => true
      case WantAcquire => s.lock.None?
      case InAcquire => s.lock == Some(t)
      case Racing => s.lock == Some(t)
      case _ => false
    ensures Advances(s, s', t)
  {
    var queue, word := Insert(Level(s.prio), s.queue, t), s.word.(contested := true);
    if s.pc[t].Idle? {
      s' := if s.word == FREE then s.(pc := s.pc[t := Holder], word := Word(Some(t), false)) else s.(pc := s.pc[t := WantAcquire]);
    } else if s.pc[t].WantAcquire? {
      s' := if s.word.contested then State(s.pc[t := Waiting], s.word, None, queue, s.word.holder, s.prio)
            else s.(pc := s.pc[t := InAcquire], lock := Some(t));
    } else if s.pc[t].InAcquire? {
      s' := if s.word == FREE then s.(pc := s.pc[t := Racing], word := word)
            else State(s.pc[t := Waiting], word, None, queue, s.word.holder, s.prio);
    } else {
      s' := s.(pc := s.pc[t := Holder], word := Word(Some(t), false), lock := None);
    }
    assert AcquireStep(s, s', t);
  }

  lemma ReleaseAdvances(s: State, t: Tid) returns (s': State)
    requires Inv(s) && t in s.pc && match s.pc[t]
      case Holder => true
      case WantRelease => s.lock.None?
      case InRelease(_) => s.lock == Some(t)
      case Woken => s.lock.None?
      case _ => false
    ensures Advances(s, s', t)
  {
    if s.pc[t].Holder? {
      s' := if s.word == Word(Some(t), false) then s.(pc := s.pc[t := Idle], word := FREE) else s.(pc := s.pc[t := WantRelease]);
    } else if s.pc[t].WantRelease? {
      assert Named(s, t) && s.queue[0] in s.queue;
      var u, rest := s.queue[0], s.queue[1..];
      s' := s.(pc := s.pc[u := Woken][t := InRelease(Some(u))], lock := Some(t), queue := rest, owner := if rest == [] then None else Some(u));
    } else if s.pc[t].InRelease? {
      s' := s.(pc := s.pc[t := Idle], lock := None, word := Word(s.pc[t].woken, s.pc[t].woken.Some? && s.queue != []));
    } else {
      s' := s.(pc := s.pc[t := Holder]);
    }
    assert ReleaseStep(s, s', t);
  }

  /** In every state of every run: a thread that does not wait in the queue can go on,
      unless another thread has thread_lock and it needs that too. */
  lemma NeverStuck(run: seq<State>, i: nat, t: Tid) returns (s': State)
    requires Run(run) && i < |run| && t in run[i].pc && !run[i].pc[t].Waiting?
    requires run[i].pc[t].Idle? || run[i].pc[t].Holder? || run[i].lock.None? || run[i].lock == Some(t)
    ensures Advances(run[i], s', t)
  {
    RunOk(run, i);
    var p := run[i].pc[t];
    if p.Idle? || p.WantAcquire? || p.InAcquire? || p.Racing? {
      s' := AcquireAdvances(run[i], t);
    } else {
      s' := ReleaseAdvances(run[i], t);
    }
  }

  /** No deadlock: in every state of every run, while anybody waits, the thread inside
      thread_lock or else the one the word names can go on. */
  lemma NoDeadlock(run: seq<State>, i: nat) returns (t: Tid, s': State)
    requires Run(run) && i < |run| && run[i].queue != []
    ensures Advances(run[i], s', t) && !run[i].pc[t].Waiting? && !run[i].pc[t].Idle?
    ensures if run[i].lock.Some? then run[i].lock == Some(t) else run[i].word.holder == Some(t)
  {
    RunOk(run, i);
    if run[i].lock.Some? {
      t := run[i].lock.value;
    } else {
      t := WaitersHaveHolder(run, i);
    }
    s' := NeverStuck(run, i, t);
  }
}
