/** What every interleaving of the reader-writer lock keeps. */
module BrwLockSafety {
  import opened PriorityList
  import opened BrwLock

  // ----- head counts -----

  datatype Role = Neutral | Hopeful | Holding | Writing | Leaving

  function RoleOf(p: Pc): Role {
    if p.Optimistic? then Hopeful
    else if p.Reader? || p.WantUpgrade? then Holding
    else if p.Writer? || p.WriterLeaving? then Writing
    else if p.Releasing? then Leaving
    else Neutral
  }

  ghost function Members(pc: map<Tid, Pc>, role: Role): set<Tid> {
    set t | t in pc && RoleOf(pc[t]) == role
  }

  ghost function Num(pc: map<Tid, Pc>, role: Role): int { |Members(pc, role)| }

  function One(b: bool): int { if b then 1 else 0 }

  lemma SizeMoves(a: set<Tid>, a': set<Tid>, t: Tid)
    requires forall u :: u != t ==> (u in a' <==> u in a)
    ensures |a'| == |a| - One(t in a) + One(t in a')
  {
    assert a' - {t} == a - {t};
    assert a == if t in a then (a - {t}) + {t} else a - {t};
    assert a' == if t in a' then (a' - {t}) + {t} else a' - {t};
  }

  lemma OneMoves(pc: map<Tid, Pc>, t: Tid, p: Pc, role: Role)
    requires t in pc
    ensures Num(pc[t := p], role) == Num(pc, role) - One(RoleOf(pc[t]) == role) + One(RoleOf(p) == role)
  {
    SizeMoves(Members(pc, role), Members(pc[t := p], role), t);
  }

  /** The lock as seen from its word: how many threads are in which role, the length of
      the queue, and where the thread inside thread_lock is. */
  datatype View = View(hopeful: int, holding: int, writing: int, leaving: int, word: Word, queued: int, here: Pc)

  function Here(s: State): Pc {
    if s.lock.Some? && s.lock.value in s.pc then s.pc[s.lock.value] else Idle
  }

  ghost function ViewOf(s: State): View {
    View(Num(s.pc, Hopeful), Num(s.pc, Holding), Num(s.pc, Writing), Num(s.pc, Leaving),
         s.word, |s.queue|, Here(s))
  }

  /** One thread moving changes at most two head counts. */
  lemma Moves(s: State, s': State, t: Tid, p: Pc)
    requires t in s.pc && s'.pc == s.pc[t := p]
    ensures var v, v', a, b := ViewOf(s), ViewOf(s'), RoleOf(s.pc[t]), RoleOf(p);
            && v'.hopeful == v.hopeful - One(a == Hopeful) + One(b == Hopeful)
            && v'.holding == v.holding - One(a == Holding) + One(b == Holding)
            && v'.writing == v.writing - One(a == Writing) + One(b == Writing)
            && v'.leaving == v.leaving - One(a == Leaving) + One(b == Leaving)
  {
    OneMoves(s.pc, t, p, Hopeful);
    OneMoves(s.pc, t, p, Holding);
    OneMoves(s.pc, t, p, Writing);
    OneMoves(s.pc, t, p, Leaving);
  }

  // ----- the invariant of the word -----

  /** Somebody outside thread_lock will see to the waiters. */
  predicate Covered(v: View) { v.word.x || v.word.r > 0 || v.leaving > 0 }

  /** Free of writers and of real readers. */
  predicate Vacant(v: View) { !v.word.x && v.holding == 0 }

  /** What the thread inside thread_lock may rely on, though fast paths went on. */
  predicate InsideOk(v: View) {
    match v.here
    case InRead(prev) =>
      && prev.w == v.queued && prev.r >= 1
      && (if prev.x then Covered(v) else !v.word.x && if prev.r == 1 then Vacant(v) else Covered(v))
    case InWrite(prev) =>
      && prev.w == v.queued && prev.r >= 0
      && (if prev.x then Covered(v) else !v.word.x && if prev.r == 0 then Vacant(v) else Covered(v))
    case InUpgrade(prev) =>
      && prev.r >= 1 && !prev.x && !v.word.x && if prev.r == 1 then Vacant(v) else Covered(v)
    case Stored => Vacant(v)
    case Waking(cont, readers) =>
      if readers then v.word.w > 0 ==> !v.word.x && Covered(v) else Vacant(v) && v.queued > 0
    case WakingWriter(cont) => Vacant(v) && v.queued > 0
    case _ => v.word.w > 0 ==> Covered(v)
  }

  /** The reader field counts optimistic readers too; the waiter field is the length of
      the queue, plus the thread inside thread_lock that has announced itself; the
      writer bit is set exactly while one thread holds the lock for writing, and then
      no thread holds it for reading. */
  predicate ViewOk(v: View) {
    && v.hopeful >= 0 && v.holding >= 0 && v.writing >= 0 && v.leaving >= 0 && v.queued >= 0
    && v.word.r == v.hopeful + v.holding
    && v.word.w == v.queued + One(SelfWaiting(v.here))
    && v.writing == One(v.word.x)
    && (v.word.x ==> v.holding == 0)
    && InsideOk(v)
  }

  // ----- the invariant of the rest -----

  ghost predicate LockOk(s: State) {
    && (s.lock.Some? ==> s.lock.value in s.pc && Inside(s.pc[s.lock.value]))
    && forall t :: t in s.pc && Inside(s.pc[t]) ==> s.lock == Some(t)
  }

  ghost predicate QueueOk(s: State) {
    && Distinct(s.queue)
    && (forall t :: t in s.queue ==> t in s.pc && Waits(s.pc[t]))
    && (forall t :: t in s.pc && Waits(s.pc[t]) ==> t in s.queue)
  }

  /** writer_ names the thread that holds the lock for writing, or is just about to. */
  ghost predicate WriterOk(s: State) {
    && (forall t :: t in s.pc && s.pc[t].Writer? ==> s.writer == Some(t))
    && (Here(s).Stored? ==> s.writer == s.lock)
    && (Here(s).WakingWriter? ==>
          s.queue != [] && s.queue[0] in s.pc && s.pc[s.queue[0]].BlockedW? && s.writer == Some(s.queue[0]))
    && (s.writer.Some? ==>
          || Here(s).Stored? || Here(s).WakingWriter?
          || (s.writer.value in s.pc && s.pc[s.writer.value].Writer?))
  }

  ghost predicate Inv(s: State) {
    LockOk(s) && QueueOk(s) && WriterOk(s) && ViewOk(ViewOf(s))
  }

  lemma InitOk(s: State)
    requires Init(s)
    ensures Inv(s)
  {
    assert forall role :: role != Neutral ==> Members(s.pc, role) == {};
  }

  // ----- steps outside thread_lock -----

  /** One thread moves outside thread_lock and outside the queue. */
  ghost predicate Outside(s: State, s': State, t: Tid, p: Pc) {
    && t in s.pc && s'.pc == s.pc[t := p] && s'.lock == s.lock && s'.queue == s.queue
    && !Inside(s.pc[t]) && !Inside(p) && !Waits(s.pc[t]) && !Waits(p)
  }

  lemma OutsideOk(s: State, s': State, t: Tid, p: Pc)
    requires LockOk(s) && QueueOk(s) && Outside(s, s', t, p)
    ensures LockOk(s') && QueueOk(s') && Here(s') == Here(s)
  {
  }

  /** A fast path seen from the word. */
  predicate FastView(v: View, v': View) {
    && v'.here == v.here && v'.queued == v.queued
    && (|| v' == v
        || (v.word.w == 0 && !v.word.x && v' == v.(word := v.word.(r := v.word.r + 1), holding := v.holding + 1))
        || ((v.word.w != 0 || v.word.x) && v' == v.(word := v.word.(r := v.word.r + 1), hopeful := v.hopeful + 1))
        || (v.word == Word(0, 0, false) && v' == v.(word := Word(0, 0, true), writing := v.writing + 1))
        || (v.word == Word(1, 0, false) && v.holding > 0 &&
            v' == v.(word := Word(0, 0, true), holding := v.holding - 1, writing := v.writing + 1))
        || (v.holding > 0 && v.word.r == 1 && v.word.w != 0 &&
            v' == v.(word := v.word.(r := 0), holding := v.holding - 1, leaving := v.leaving + 1))
        || (v.holding > 0 && !(v.word.r == 1 && v.word.w != 0) &&
            v' == v.(word := v.word.(r := v.word.r - 1), holding := v.holding - 1))
        || (v.writing > 0 && v.word.w != 0 &&
            v' == v.(word := v.word.(x := false), writing := v.writing - 1, leaving := v.leaving + 1))
        || (v.writing > 0 && v.word.w == 0 && v' == v.(word := v.word.(x := false), writing := v.writing - 1)))
  }

  lemma FastViewOk(v: View, v': View)
    requires ViewOk(v) && FastView(v, v')
    ensures ViewOk(v')
  {
  }

  lemma Present(pc: map<Tid, Pc>, t: Tid)
    requires t in pc
    ensures Num(pc, RoleOf(pc[t])) > 0
  {
    assert t in Members(pc, RoleOf(pc[t]));
  }

  /** Every fast path moves one thread outside, and looks like one of the above. */
  lemma FastIsOutside(s: State, s': State, t: Tid)
    requires FastStep(s, s', t)
    ensures t in s'.pc && Outside(s, s', t, s'.pc[t])
  {
  }

  lemma AcquireView(s: State, s': State, t: Tid)
    requires LockOk(s) && QueueOk(s) && (ReadAcquire(s, s', t) || WriteAcquire(s, s', t) || ForgetWriter(s, s', t))
    ensures FastView(ViewOf(s), ViewOf(s'))
  {
    FastIsOutside(s, s', t);
    OutsideOk(s, s', t, s'.pc[t]);
    Moves(s, s', t, s'.pc[t]);
  }

  lemma ReleaseView(s: State, s': State, t: Tid)
    requires LockOk(s) && QueueOk(s) && (ReadUpgrade(s, s', t) || ReadRelease(s, s', t) || WriteRelease(s, s', t))
    ensures FastView(ViewOf(s), ViewOf(s'))
  {
    FastIsOutside(s, s', t);
    OutsideOk(s, s', t, s'.pc[t]);
    Moves(s, s', t, s'.pc[t]);
    Present(s.pc, t);
  }

  lemma FastWriter(s: State, s': State, t: Tid)
    requires LockOk(s) && QueueOk(s) && WriterOk(s) && FastStep(s, s', t)
    ensures WriterOk(s')
  {
    FastIsOutside(s, s', t);
    OutsideOk(s, s', t, s'.pc[t]);
  }

  lemma FastOk(s: State, s': State, t: Tid)
    requires Inv(s) && FastStep(s, s', t)
    ensures Inv(s')
  {
    FastIsOutside(s, s', t);
    OutsideOk(s, s', t, s'.pc[t]);
    FastWriter(s, s', t);
    if ReadAcquire(s, s', t) || WriteAcquire(s, s', t) || ForgetWriter(s, s', t) {
      AcquireView(s, s', t);
    } else {
      ReleaseView(s, s', t);
    }
    FastViewOk(ViewOf(s), ViewOf(s'));
  }

  // ----- taking thread_lock -----

  predicate EnterView(v: View, v': View) {
    && v.here == Idle && v'.queued == v.queued
    && (|| (v.hopeful > 0 && v' == v.(hopeful := v.hopeful - 1, here := InRead(v.word),
                                      word := v.word.(r := v.word.r - 1, w := v.word.w + 1)))
        || v' == v.(here := InWrite(v.word), word := v.word.(w := v.word.w + 1))
        || (v.holding > 0 && v' == v.(holding := v.holding - 1, here := InUpgrade(v.word),
                                      word := v.word.(r := v.word.r - 1, w := v.word.w + 1)))
        || (v.leaving > 0 && v.word.w != 0 && !v.word.x && v.word.r == 0 &&
            v' == v.(leaving := v.leaving - 1, here := Waking(ThenLeave, false)))
        || (v.leaving > 0 && !(v.word.w != 0 && !v.word.x && v.word.r == 0) && v' == v.(leaving := v.leaving - 1)))
  }

  lemma EnterViewOk(v: View, v': View)
    requires ViewOk(v) && EnterView(v, v')
    ensures ViewOk(v')
  {
  }

  lemma EnterSeen(s: State, s': State, t: Tid)
    requires EnterStep(s, s', t)
    ensures EnterView(ViewOf(s), ViewOf(s'))
  {
    Moves(s, s', t, s'.pc[t]);
    Present(s.pc, t);
  }

  lemma EnterOk(s: State, s': State, t: Tid)
    requires Inv(s) && EnterStep(s, s', t)
    ensures Inv(s')
  {
    EnterSeen(s, s', t);
    EnterViewOk(ViewOf(s), ViewOf(s'));
    EnterRest(s, s', t);
  }

  /** What all ways of taking thread_lock have in common. */
  ghost predicate Entered(s: State, s': State, t: Tid, p: Pc) {
    && t in s.pc && s.lock.None? && s'.pc == s.pc[t := p] && s'.queue == s.queue && s'.writer == s.writer
    && !Inside(s.pc[t]) && !Waits(s.pc[t]) && !Waits(p) && !s.pc[t].Writer? && !p.Writer?
    && !p.Stored? && !p.WakingWriter? && s'.lock == if Inside(p) then Some(t) else None
  }

  lemma EnterIsEntered(s: State, s': State, t: Tid)
    requires EnterStep(s, s', t)
    ensures t in s'.pc && Entered(s, s', t, s'.pc[t])
  {
  }

  lemma EnterRest(s: State, s': State, t: Tid)
    requires LockOk(s) && QueueOk(s) && WriterOk(s) && EnterStep(s, s', t)
    ensures LockOk(s') && QueueOk(s') && WriterOk(s')
  {
    EnterIsEntered(s, s', t);
    EnteredLock(s, s', t, s'.pc[t]);
    EnteredWriter(s, s', t, s'.pc[t]);
  }

  lemma EnteredLock(s: State, s': State, t: Tid, p: Pc)
    requires LockOk(s) && QueueOk(s) && Entered(s, s', t, p)
    ensures LockOk(s') && QueueOk(s')
  {
  }

  lemma EnteredWriter(s: State, s': State, t: Tid, p: Pc)
    requires WriterOk(s) && Entered(s, s', t, p)
    ensures WriterOk(s')
  {
  }

  // ----- the ways to go on inside thread_lock -----

  ghost predicate WriterHeld(s: State) {
    && (forall t :: t in s.pc && s.pc[t].Writer? ==> s.writer == Some(t))
    && (s.writer.Some? ==> s.writer.value in s.pc && s.pc[s.writer.value].Writer?)
  }

  predicate BlockView(v: View, v': View) { v' == v.(queued := v.queued + 1, here := Idle) }

  predicate JoinView(v: View, v': View) {
    v' == v.(holding := v.holding + 1, here := Idle, word := v.word.(r := v.word.r + 1, w := v.word.w - 1))
  }

  predicate WokenView(v: View, v': View, cont: Cont, readers: bool) {
    match cont
    case ThenLeave => v' == v.(here := Idle)
    case ThenBlock => BlockView(v, v')
    case ThenJoinOrBlock => if readers then JoinView(v, v') else BlockView(v, v')
  }

  lemma BlockSeen(s: State, s': State, t: Tid, p: Pc)
    requires LockOk(s) && QueueOk(s) && WriterHeld(s) && Block(s, s', t, p) && Waits(p)
    ensures LockOk(s') && QueueOk(s') && WriterHeld(s') && BlockView(ViewOf(s), ViewOf(s'))
  {
    Moves(s, s', t, p);
    BlockRest(s, s', t, p);
  }

  lemma BlockRest(s: State, s': State, t: Tid, p: Pc)
    requires LockOk(s) && QueueOk(s) && WriterHeld(s) && Block(s, s', t, p) && Waits(p)
    ensures LockOk(s') && QueueOk(s') && WriterHeld(s') && |s'.queue| == |s.queue| + 1
  {
    var k :| 0 <= k <= |s.queue| &&
             s' == State(s.pc[t := p], s.word, s.writer, None, s.queue[..k] + [t] + s.queue[k..]);
    assert t !in s.queue;
    InsertedOnce(s.queue, t, k);
  }

  lemma JoinSeen(s: State, s': State, t: Tid)
    requires LockOk(s) && QueueOk(s) && WriterHeld(s) && Join(s, s', t)
    ensures LockOk(s') && QueueOk(s') && WriterHeld(s') && JoinView(ViewOf(s), ViewOf(s'))
  {
    Moves(s, s', t, Reader);
  }

  lemma StaySeen(s: State, s': State, t: Tid, p: Pc)
    requires LockOk(s) && QueueOk(s) && Stay(s, s', t, p) && Inside(p)
    ensures LockOk(s') && QueueOk(s') && ViewOf(s') == ViewOf(s).(here := p)
  {
    Moves(s, s', t, p);
  }

  lemma WokenSeen(s: State, s': State, t: Tid, cont: Cont, readers: bool)
    requires LockOk(s) && QueueOk(s) && WriterHeld(s) && Woken(s, s', t, cont, readers)
    ensures LockOk(s') && QueueOk(s') && WriterHeld(s') && WokenView(ViewOf(s), ViewOf(s'), cont, readers)
  {
    match cont
    case ThenLeave => Moves(s, s', t, Idle);
    case ThenBlock => BlockSeen(s, s', t, BlockedW);
    case ThenJoinOrBlock => if readers { JoinSeen(s, s', t); } else { BlockSeen(s, s', t, BlockedR); }
  }

  /** The head of the queue leaves it with p as its program counter. */
  ghost predicate Popped(s: State, s1: State, u: Tid, p: Pc) {
    && s.queue != [] && u == s.queue[0] && u in s.pc && s1.pc == s.pc[u := p]
    && s1.queue == s.queue[1..] && s1.lock == s.lock && !Inside(p) && !Waits(p)
  }

  lemma PoppedRest(s: State, s1: State, u: Tid, p: Pc)
    requires LockOk(s) && QueueOk(s) && Popped(s, s1, u, p)
    ensures LockOk(s1) && QueueOk(s1) && Here(s1) == Here(s) && RoleOf(s.pc[u]) == Neutral
  {
    assert u in s.queue;
    TailMembers(s.queue);
  }

  lemma PoppedView(s: State, s1: State, u: Tid, p: Pc)
    requires LockOk(s) && QueueOk(s) && Popped(s, s1, u, p)
    ensures p == Reader ==> ViewOf(s1) == ViewOf(s).(word := s1.word, queued := |s.queue| - 1, holding := Num(s.pc, Holding) + 1)
    ensures p == Writer ==> ViewOf(s1) == ViewOf(s).(word := s1.word, queued := |s.queue| - 1, writing := Num(s.pc, Writing) + 1)
  {
    PoppedRest(s, s1, u, p);
    Moves(s, s1, u, p);
  }

  // ----- steps inside thread_lock -----

  predicate InsideView(v: View, v': View) {
    match v.here
    case InRead(prev) =>
      if prev.x then BlockView(v, v')
      else if prev.w == 0 then JoinView(v, v')
      else if prev.r == 1 then v' == v.(here := Waking(ThenJoinOrBlock, false))
      else BlockView(v, v')
    case InWrite(prev) =>
      if prev.x || prev.r != 0 then BlockView(v, v')
      else if prev.w == 0 then v' == v.(here := Stored)
      else v' == v.(here := Waking(ThenBlock, false))
    case InUpgrade(prev) =>
      if prev.r == 1 && !prev.x then v' == v.(here := Stored) else BlockView(v, v')
    case Stored =>
      v' == v.(here := Idle, writing := v.writing + 1, word := v.word.(w := v.word.w - 1, x := true))
    case Waking(cont, readers) =>
      || (v.queued > 0 && v' == v.(here := Waking(cont, true), queued := v.queued - 1, holding := v.holding + 1,
                                   word := v.word.(r := v.word.r + 1, w := v.word.w - 1)))
      || (readers && WokenView(v, v', cont, true))
      || (!readers && v.queued == 0 && WokenView(v, v', cont, false))
      || (!readers && v.queued > 0 && v' == v.(here := WakingWriter(cont)))
    case WakingWriter(cont) =>
      && v.queued > 0
      && WokenView(v.(queued := v.queued - 1, writing := v.writing + 1, word := v.word.(w := v.word.w - 1, x := true)),
                   v', cont, false)
    case _ => false
  }

  lemma InsideViewOk(v: View, v': View)
    requires ViewOk(v) && InsideView(v, v')
    ensures ViewOk(v')
  {
  }

  /** What is left to show of a step inside thread_lock once its view is known. */
  ghost predicate Kept(s: State, s': State) {
    LockOk(s') && QueueOk(s') && WriterOk(s') && InsideView(ViewOf(s), ViewOf(s'))
  }

  lemma StoreOk(s: State, s': State, t: Tid)
    requires LockOk(s) && QueueOk(s) && WriterOk(s) && s.lock == Some(t) && t in s.pc && StoreWriter(s, s', t)
    requires forall u :: u in s.pc ==> !s.pc[u].Writer?
    ensures LockOk(s') && QueueOk(s') && WriterOk(s') && ViewOf(s') == ViewOf(s).(here := Stored)
  {
    StaySeen(s.(writer := Some(t)), s', t, Stored);
  }

  lemma NoWriters(s: State)
    requires ViewOk(ViewOf(s)) && !s.word.x
    ensures forall u :: u in s.pc ==> !s.pc[u].Writer?
  {
    forall u | u in s.pc ensures !s.pc[u].Writer? {
      Present(s.pc, u);
    }
  }

  lemma ContendedReadOk(s: State, s': State, t: Tid)
    requires Inv(s) && ContendedRead(s, s', t)
    ensures Kept(s, s')
  {
    var prev := s.pc[t].prev;
    if !prev.x && prev.w == 0 {
      JoinSeen(s, s', t);
    } else if !prev.x && prev.r == 1 {
      StaySeen(s, s', t, Waking(ThenJoinOrBlock, false));
    } else {
      BlockSeen(s, s', t, BlockedR);
    }
  }

  lemma ContendedWriteOk(s: State, s': State, t: Tid)
    requires Inv(s) && ContendedWrite(s, s', t)
    ensures Kept(s, s')
  {
    var prev := s.pc[t].prev;
    if prev.x || prev.r != 0 {
      BlockSeen(s, s', t, BlockedW);
    } else if prev.w == 0 {
      NoWriters(s);
      StoreOk(s, s', t);
    } else {
      StaySeen(s, s', t, Waking(ThenBlock, false));
    }
  }

  lemma ContendedUpgradeOk(s: State, s': State, t: Tid)
    requires Inv(s) && ContendedUpgrade(s, s', t)
    ensures Kept(s, s')
  {
    var prev := s.pc[t].prev;
    if prev.r == 1 && !prev.x {
      NoWriters(s);
      StoreOk(s, s', t);
    } else {
      BlockSeen(s, s', t, BlockedW);
    }
  }

  lemma BecomeWriterOk(s: State, s': State, t: Tid)
    requires Inv(s) && BecomeWriter(s, s', t)
    ensures Kept(s, s')
  {
    Moves(s, s', t, Writer);
    NoWriters(s);
  }

  lemma WakeStepOk(s: State, s': State, t: Tid)
    requires Inv(s) && WakeStep(s, s', t)
    ensures Kept(s, s')
  {
    var cont, readers := s.pc[t].cont, s.pc[t].readers;
    if s.queue != [] && s.pc[s.queue[0]] == BlockedR {
      AdmitOk(s, s', t, cont);
    } else if readers || s.queue == [] {
      WokenSeen(s, s', t, cont, readers);
    } else {
      ChooseWriterOk(s, s', t, cont);
    }
  }

  lemma AdmitOk(s: State, s': State, t: Tid, cont: Cont)
    requires LockOk(s) && QueueOk(s) && WriterHeld(s) && t in s.pc && s.pc[t].Waking? && s.lock == Some(t)
    requires s.queue != [] && s.queue[0] in s.pc && s.pc[s.queue[0]] == BlockedR
    requires Stay(Admit(s, s.queue[0]), s', t, Waking(cont, true))
    ensures LockOk(s') && QueueOk(s') && WriterHeld(s')
    ensures ViewOf(s') == ViewOf(s).(here := Waking(cont, true), queued := |s.queue| - 1, holding := Num(s.pc, Holding) + 1,
                                     word := s.word.(r := s.word.r + 1, w := s.word.w - 1))
  {
    var s1 := Admit(s, s.queue[0]);
    AdmittedHeld(s, t, cont);
    PoppedRest(s, s1, s.queue[0], Reader);
    PoppedView(s, s1, s.queue[0], Reader);
    StaySeen(s1, s', t, Waking(cont, true));
  }

  lemma AdmittedHeld(s: State, t: Tid, cont: Cont)
    requires WriterHeld(s) && t in s.pc && s.pc[t].Waking? && s.queue != [] && s.queue[0] in s.pc && s.pc[s.queue[0]] == BlockedR
    ensures WriterHeld(Admit(s, s.queue[0]).(pc := s.pc[s.queue[0] := Reader][t := Waking(cont, true)]))
  {
  }

  lemma ChooseWriterOk(s: State, s': State, t: Tid, cont: Cont)
    requires LockOk(s) && QueueOk(s) && t in s.pc && s.lock == Some(t) && s.queue != [] && s.queue[0] in s.pc
    requires s.pc[s.queue[0]] != BlockedR && ViewOk(ViewOf(s)) && !s.word.x
    requires Stay(s.(writer := Some(s.queue[0])), s', t, WakingWriter(cont))
    ensures LockOk(s') && QueueOk(s') && WriterOk(s') && ViewOf(s') == ViewOf(s).(here := WakingWriter(cont))
  {
    assert s.queue[0] in s.queue;
    NoWriters(s);
    StaySeen(s.(writer := Some(s.queue[0])), s', t, WakingWriter(cont));
  }

  lemma WakeWriterOk(s: State, s': State, t: Tid)
    requires Inv(s) && WakeWriter(s, s', t)
    ensures Kept(s, s')
  {
    var u := s.queue[0];
    var s1 := State(s.pc[u := Writer], s.word.(w := s.word.w - 1, x := true), s.writer, s.lock, s.queue[1..]);
    PoppedWriter(s, s1, u);
    PoppedRest(s, s1, u, Writer);
    PoppedView(s, s1, u, Writer);
    WokenSeen(s1, s', t, s.pc[t].cont, false);
    WokenOut(s1, s', t, s.pc[t].cont, false);
  }

  /** A thread that has returned from Wake is outside again. */
  lemma WokenOut(s: State, s': State, t: Tid, cont: Cont, readers: bool)
    requires Woken(s, s', t, cont, readers) && WriterHeld(s')
    ensures WriterOk(s')
  {
  }

  lemma PoppedWriter(s: State, s1: State, u: Tid)
    requires ViewOk(ViewOf(s)) && !s.word.x && u in s.pc && s1.pc == s.pc[u := Writer] && s1.writer == s.writer == Some(u)
    ensures WriterHeld(s1)
  {
    NoWriters(s);
  }

  lemma InsideStepOk(s: State, s': State, t: Tid)
    requires Inv(s) && InsideStep(s, s', t)
    ensures Inv(s')
  {
    if ContendedRead(s, s', t) { ContendedReadOk(s, s', t); }
    else if ContendedWrite(s, s', t) { ContendedWriteOk(s, s', t); }
    else if ContendedUpgrade(s, s', t) { ContendedUpgradeOk(s, s', t); }
    else if BecomeWriter(s, s', t) { BecomeWriterOk(s, s', t); }
    else if WakeStep(s, s', t) { WakeStepOk(s, s', t); }
    else { WakeWriterOk(s, s', t); }
    InsideViewOk(ViewOf(s), ViewOf(s'));
  }

  lemma ReorderOk(s: State, s': State)
    requires Inv(s) && Reorder(s, s')
    ensures Inv(s')
  {
  }

  // ----- every run -----

  lemma StepOk(s: State, s': State)
    requires Inv(s) && Step(s, s')
    ensures Inv(s')
  {
    if Reorder(s, s') {
      ReorderOk(s, s');
    } else {
      var t :| FastStep(s, s', t) || EnterStep(s, s', t) || InsideStep(s, s', t);
      if FastStep(s, s', t) { FastOk(s, s', t); }
      else if EnterStep(s, s', t) { EnterOk(s, s', t); }
      else { InsideStepOk(s, s', t); }
    }
  }

  ghost predicate Run(run: seq<State>) {
    && run != [] && Init(run[0])
    && forall i :: 0 <= i < |run| - 1 ==> Step(run[i], run[i + 1])
  }

  lemma {:induction false} RunOk(run: seq<State>, i: nat)
    requires Run(run) && i < |run|
    ensures Inv(run[i])
  {
    if i == 0 {
      InitOk(run[0]);
    } else {
      RunOk(run, i - 1);
      assert Step(run[i - 1], run[i - 1 + 1]);
      StepOk(run[i - 1], run[i]);
    }
  }

  // ----- what it is for -----

  lemma AtMostOne(a: set<Tid>, t: Tid, u: Tid)
    requires |a| <= 1 && t in a && u in a
    ensures t == u
  {
    if t != u {
      assert {t, u} <= a;
      Smaller({t, u}, a);
    }
  }

  lemma {:induction false} Smaller(a: set<Tid>, b: set<Tid>)
    requires a <= b
    ensures |a| <= |b|
  {
    assert b == a + (b - a);
  }

  /** A thread that holds the lock for writing excludes every other holder. */
  lemma WriterExcludes(run: seq<State>, i: nat, t: Tid, u: Tid)
    requires Run(run) && i < |run| && t in run[i].pc && u in run[i].pc && t != u
    requires HoldsWrite(run[i].pc[t])
    ensures !HoldsWrite(run[i].pc[u]) && !HoldsRead(run[i].pc[u])
  {
    RunOk(run, i);
    var s := run[i];
    assert t in Members(s.pc, Writing);
    Present(s.pc, t);
    Present(s.pc, u);
    if HoldsWrite(s.pc[u]) {
      AtMostOne(Members(s.pc, Writing), t, u);
    }
  }

  /** Whenever thread_lock is free the waiter field is the number of queued threads, and
      those are exactly the blocked ones. */
  lemma WaitersAreQueued(run: seq<State>, i: nat)
    requires Run(run) && i < |run| && run[i].lock.None?
    ensures run[i].word.w == |run[i].queue| && Distinct(run[i].queue)
    ensures forall t :: t in run[i].queue <==> t in run[i].pc && Waits(run[i].pc[t])
  {
    RunOk(run, i);
  }

  /** A thread that sees to the waiters: it holds the lock, is on its way into a slow path,
      or is inside thread_lock and about to wake them or to become the writer. Inside, what
      it saw on the way in decides. */
  predicate Minds(p: Pc) {
    match p
    case InRead(prev) => !prev.x && prev.r == 1 && prev.w > 0
    case InWrite(prev) => !prev.x && prev.r == 0 && prev.w > 0
    case InUpgrade(prev) => !prev.x && prev.r == 1
    case Stored => true
    case Waking(cont, readers) => !readers
    case WakingWriter(cont) => true
    case _ => HoldsWrite(p) || HoldsRead(p) || p.Optimistic? || p.Releasing?
  }

  /** No lost wakeup: in every state of every run, while a thread is queued somebody sees
      to the waiters. */
  lemma NoLostWakeup(run: seq<State>, i: nat) returns (t: Tid)
    requires Run(run) && i < |run| && run[i].queue != []
    ensures t in run[i].pc && Minds(run[i].pc[t])
  {
    RunOk(run, i);
    var s := run[i];
    if s.lock.Some? && Minds(s.pc[s.lock.value]) {
      t := s.lock.value;
    } else {
      t := SomebodyOutside(s);
    }
  }

  /** If the thread inside thread_lock does not see to the waiters, somebody outside does. */
  lemma SomebodyOutside(s: State) returns (t: Tid)
    requires Inv(s) && s.queue != [] && (s.lock.Some? ==> !Minds(s.pc[s.lock.value]))
    ensures t in s.pc && !Inside(s.pc[t]) && Minds(s.pc[t])
  {
    var role := if s.word.x then Writing else if Num(s.pc, Leaving) > 0 then Leaving
                else if Num(s.pc, Holding) > 0 then Holding else Hopeful;
    assert Covered(ViewOf(s)) && Num(s.pc, role) > 0;
    t :| t in Members(s.pc, role);
  }

  /** And the last of those on their way does wake: it finds the lock free of others. */
  lemma LastOneWakes(s: State, s': State, t: Tid)
    requires Inv(s) && s.lock.None? && s.queue != [] && EnterStep(s, s', t) && t in s.pc
    requires s.pc[t].Optimistic? || s.pc[t].Releasing?
    requires forall u :: u in s.pc && u != t ==> RoleOf(s.pc[u]) == Neutral
    ensures if s.pc[t].Releasing? then s'.pc[t] == Waking(ThenLeave, false)
            else s'.pc[t].InRead? && forall s'' :: ContendedRead(s', s'', t) ==> s''.pc[t] == Waking(ThenJoinOrBlock, false)
  {
    assert Members(s.pc, Holding) == {} && Members(s.pc, Writing) == {};
    if s.pc[t].Releasing? {
      assert Members(s.pc, Hopeful) == {};
    } else {
      assert Members(s.pc, Hopeful) == {t};
    }
  }

  /** Wake is never called on an empty queue, and a writer it chooses comes first. */
  lemma WakeFindsSomeone(run: seq<State>, i: nat, t: Tid)
    requires Run(run) && i < |run| && t in run[i].pc
    requires run[i].pc[t].WakingWriter? || (run[i].pc[t].Waking? && !run[i].pc[t].readers)
    ensures run[i].queue != [] && !run[i].word.x
    ensures run[i].pc[t].WakingWriter? ==> run[i].queue[0] in run[i].pc && run[i].pc[run[i].queue[0]] == BlockedW
  {
    RunOk(run, i);
  }

  /** A thread that blocks while the lock is held for writing sees who holds it, unless
      the holder is already leaving. */
  lemma WriterIsKnown(run: seq<State>, i: nat, t: Tid)
    requires Run(run) && i < |run| && t in run[i].pc && run[i].pc[t].Writer?
    ensures run[i].writer == Some(t) && run[i].word.x
  {
    RunOk(run, i);
    Present(run[i].pc, t);
  }

  // ----- the word does not overflow -----

  lemma {:induction false} DistinctFits(l: seq<Tid>, a: set<Tid>)
    requires Distinct(l) && forall t :: t in l ==> t in a
    ensures |l| <= |a|
  {
    if l != [] {
      assert l[0] in a;
      assert forall t :: t in l[1..] ==> t in l && t != l[0];
      DistinctFits(l[1..], a - {l[0]});
    }
  }

  /** With fewer than 2^31 threads no field of the word overflows into the next. */
  lemma FieldsFit(run: seq<State>, i: nat)
    requires Run(run) && i < |run| && |run[i].pc| < 0x8000_0000
    ensures Fits(run[i].word)
  {
    RunOk(run, i);
    var s := run[i];
    var keys := s.pc.Keys;
    var a, b := Members(s.pc, Hopeful), Members(s.pc, Holding);
    assert a !! b && |a + b| == |a| + |b| && a + b <= keys;
    Smaller(a + b, keys);
    if s.lock.Some? {
      assert s.lock.value !in s.queue;
      DistinctFits(s.queue, keys - {s.lock.value});
    } else {
      DistinctFits(s.queue, keys);
    }
  }
}
