/** The blocking reader-writer lock of kernel/kernel/brwlock.cc and its fast paths in
    kernel/include/kernel/brwlock.h, with priority inheritance, as a state machine whose
    steps are single atomic accesses. Fast-path steps interleave with the steps of the
    thread that is inside thread_lock. */
module BrwLock {
  import opened PriorityList

  /** The three fields of state_: readers, waiters, and the writer bit. */
  datatype Word = Word(r: int, w: int, x: bool)

  const READER := 1
  const WAITER := 0x1_0000_0000
  const WRITER := 0x8000_0000_0000_0000

  /** The 64-bit value of state_. */
  function Encode(word: Word): int {
    word.r * READER + word.w * WAITER + if word.x then WRITER else 0
  }

  predicate Fits(word: Word) { 0 <= word.r < 0x1_0000_0000 && 0 <= word.w < 0x8000_0000 }

  function ReaderBits(value: int): int { value % 0x1_0000_0000 }

  function WaiterBits(value: int): int { (value % WRITER) / WAITER * WAITER }

  /** While the fields fit, the masks of brwlock.h read them back, and the tests and
      additions of the code act on one field at a time. */
  lemma MasksReadFields(word: Word)
    requires Fits(word)
    ensures 0 <= Encode(word) < 0x1_0000_0000_0000_0000
    ensures ReaderBits(Encode(word)) == word.r && WaiterBits(Encode(word)) == word.w * WAITER
    ensures Encode(word) >= WRITER <==> word.x
    ensures ReaderBits(Encode(word)) != Encode(word) <==> word.w != 0 || word.x
    ensures Encode(word) - WaiterBits(Encode(word)) == READER <==> word.r == 1 && !word.x
    ensures word.r > 0 ==> Encode(word) - READER + WAITER == Encode(word.(r := word.r - 1, w := word.w + 1))
    ensures word.w > 0 && !word.x ==> Encode(word) - WAITER + WRITER == Encode(word.(w := word.w - 1, x := true))
  {
    var low, mid := word.r, word.r + word.w * WAITER;
    assert Encode(word) % WRITER == mid;
    assert mid / WAITER == word.w;
  }

  /** What a thread that calls Wake does afterwards. */
  datatype Cont = ThenJoinOrBlock | ThenBlock | ThenLeave

  datatype Pc =
    // outside thread_lock
    | Idle
    | Optimistic            // counted itself in, saw a writer or waiters
    | Reader                // holds the lock for reading
    | WantWrite             // the compare-and-swap of WriteAcquire failed
    | WantUpgrade           // holds the lock for reading, the compare-and-swap of ReadUpgrade failed
    | Writer                // holds the lock for writing
    | WriterLeaving         // between the two stores of WriteRelease
    | Releasing             // on its way into ReleaseWakeup
    | BlockedR | BlockedW   // in the wait queue
    // inside thread_lock; prev is the word the first fetch_add returned
    | InRead(prev: Word) | InWrite(prev: Word) | InUpgrade(prev: Word)
    | Stored                // writer_ is set, the writer bit not yet
    | Waking(cont: Cont, readers: bool)
    | WakingWriter(cont: Cont)

  datatype State = State(
    pc: map<Tid, Pc>, word: Word, writer: Option<Tid>, lock: Option<Tid>, queue: seq<Tid>)

  predicate Inside(p: Pc) {
    p.InRead? || p.InWrite? || p.InUpgrade? || p.Stored? || p.Waking? || p.WakingWriter?
  }

  /** Really holds the lock for reading. */
  predicate HoldsRead(p: Pc) { p.Reader? || p.WantUpgrade? }

  predicate HoldsWrite(p: Pc) { p.Writer? || p.WriterLeaving? }

  predicate Waits(p: Pc) { p.BlockedR? || p.BlockedW? }

  /** Inside thread_lock and counted in the waiter field without being queued. */
  predicate SelfWaiting(p: Pc) {
    p.InRead? || p.InWrite? || p.InUpgrade? || p.Stored? ||
    ((p.Waking? || p.WakingWriter?) && p.cont != ThenLeave)
  }

  // ----- steps outside thread_lock -----

  /** Only t moved, to p; the wait queue and thread_lock are untouched. */
  ghost predicate Fast(s: State, s': State, t: Tid, p: Pc, word: Word, writer: Option<Tid>) {
    t in s.pc && s' == State(s.pc[t := p], word, writer, s.lock, s.queue)
  }

  ghost predicate ReadAcquire(s: State, s': State, t: Tid) {
    && t in s.pc && s.pc[t] == Idle
    && Fast(s, s', t, if s.word.w == 0 && !s.word.x then Reader else Optimistic,
            s.word.(r := s.word.r + 1), s.writer)
  }

  /** CommonWriteAcquire: word and writer_ are compared and swapped together. */
  ghost predicate WriteAcquire(s: State, s': State, t: Tid) {
    && t in s.pc && s.pc[t] == Idle
    && if s.word == Word(0, 0, false) && s.writer.None?
       then Fast(s, s', t, Writer, Word(0, 0, true), Some(t))
       else Fast(s, s', t, WantWrite, s.word, s.writer)
  }

  ghost predicate ReadUpgrade(s: State, s': State, t: Tid) {
    && t in s.pc && s.pc[t] == Reader
    && if s.word == Word(1, 0, false) && s.writer.None?
       then Fast(s, s', t, Writer, Word(0, 0, true), Some(t))
       else Fast(s, s', t, WantUpgrade, s.word, s.writer)
  }

  ghost predicate ReadRelease(s: State, s': State, t: Tid) {
    && t in s.pc && s.pc[t] == Reader
    && Fast(s, s', t, if s.word.r == 1 && s.word.w != 0 then Releasing else Idle,
            s.word.(r := s.word.r - 1), s.writer)
  }

  ghost predicate ForgetWriter(s: State, s': State, t: Tid) {
    && t in s.pc && s.pc[t] == Writer
    && Fast(s, s', t, WriterLeaving, s.word, None)
  }

  ghost predicate WriteRelease(s: State, s': State, t: Tid) {
    && t in s.pc && s.pc[t] == WriterLeaving
    && Fast(s, s', t, if s.word.w != 0 then Releasing else Idle, s.word.(x := false), s.writer)
  }

  // ----- taking thread_lock -----

  ghost predicate Enter(s: State, s': State, t: Tid, p: Pc, word: Word) {
    && t in s.pc && s.lock.None?
    && s' == State(s.pc[t := p], word, s.writer, Some(t), s.queue)
  }

  ghost predicate EnterRead(s: State, s': State, t: Tid) {
    && t in s.pc && s.pc[t] == Optimistic
    && Enter(s, s', t, InRead(s.word), s.word.(r := s.word.r - 1, w := s.word.w + 1))
  }

  ghost predicate EnterWrite(s: State, s': State, t: Tid) {
    && t in s.pc && s.pc[t] == WantWrite
    && Enter(s, s', t, InWrite(s.word), s.word.(w := s.word.w + 1))
  }

  ghost predicate EnterUpgrade(s: State, s': State, t: Tid) {
    && t in s.pc && s.pc[t] == WantUpgrade
    && Enter(s, s', t, InUpgrade(s.word), s.word.(r := s.word.r - 1, w := s.word.w + 1))
  }

  /** ReleaseWakeup: wake only if the lock is free and somebody waits. */
  ghost predicate EnterRelease(s: State, s': State, t: Tid) {
    && t in s.pc && s.pc[t] == Releasing && s.lock.None?
    && if s.word.w != 0 && !s.word.x && s.word.r == 0
       then Enter(s, s', t, Waking(ThenLeave, false), s.word)
       else s' == s.(pc := s.pc[t := Idle])
  }

  // ----- steps inside thread_lock -----

  /** Block: enter the queue wherever its order demands, and let go of thread_lock. */
  ghost predicate Block(s: State, s': State, t: Tid, p: Pc) {
    && t in s.pc && s.lock == Some(t)
    && exists k :: 0 <= k <= |s.queue| &&
         s' == State(s.pc[t := p], s.word, s.writer, None, s.queue[..k] + [t] + s.queue[k..])
  }

  /** Stay inside with a new program counter. */
  ghost predicate Stay(s: State, s': State, t: Tid, p: Pc) {
    t in s.pc && s.lock == Some(t) && s' == s.(pc := s.pc[t := p])
  }

  /** Turn the own waiter into a reader and leave with the lock. */
  ghost predicate Join(s: State, s': State, t: Tid) {
    && t in s.pc && s.lock == Some(t)
    && s' == State(s.pc[t := Reader], s.word.(r := s.word.r + 1, w := s.word.w - 1), s.writer, None, s.queue)
  }

  ghost predicate ContendedRead(s: State, s': State, t: Tid) {
    && t in s.pc && s.pc[t].InRead?
    && var prev := s.pc[t].prev;
       if prev.x then Block(s, s', t, BlockedR)
       else if prev.w == 0 then Join(s, s', t)
       else if prev.r == 1 then Stay(s, s', t, Waking(ThenJoinOrBlock, false))
       else Block(s, s', t, BlockedR)
  }

  ghost predicate StoreWriter(s: State, s': State, t: Tid) {
    Stay(s.(writer := Some(t)), s', t, Stored)
  }

  ghost predicate ContendedWrite(s: State, s': State, t: Tid) {
    && t in s.pc && s.pc[t].InWrite?
    && var prev := s.pc[t].prev;
       if prev.x || prev.r != 0 then Block(s, s', t, BlockedW)
       else if prev.w == 0 then StoreWriter(s, s', t)
       else Stay(s, s', t, Waking(ThenBlock, false))
  }

  ghost predicate ContendedUpgrade(s: State, s': State, t: Tid) {
    && t in s.pc && s.pc[t].InUpgrade?
    && var prev := s.pc[t].prev;
       if prev.r == 1 && !prev.x then StoreWriter(s, s', t) else Block(s, s', t, BlockedW)
  }

  /** Turn the own waiter into the writer and leave with the lock. */
  ghost predicate BecomeWriter(s: State, s': State, t: Tid) {
    && t in s.pc && s.pc[t].Stored? && s.lock == Some(t)
    && s' == State(s.pc[t := Writer], s.word.(w := s.word.w - 1, x := true), s.writer, None, s.queue)
  }

  /** After Wake has returned. */
  ghost predicate Woken(s: State, s': State, t: Tid, cont: Cont, readers: bool) {
    match cont
    case ThenLeave => t in s.pc && s.lock == Some(t) && s' == s.(pc := s.pc[t := Idle], lock := None)
    case ThenBlock => Block(s, s', t, BlockedW)
    case ThenJoinOrBlock => if readers then Join(s, s', t) else Block(s, s', t, BlockedR)
  }

  /** The state after u, first in the queue, was made a reader. */
  function Admit(s: State, u: Tid): State
    requires s.queue != []
  {
    State(s.pc[u := Reader], s.word.(r := s.word.r + 1, w := s.word.w - 1), s.writer, s.lock, s.queue[1..])
  }

  /** One turn of the Wake loop at the head of the queue. A writer is chosen only when
      it comes first; readers are let in until a writer is met. */
  ghost predicate WakeStep(s: State, s': State, t: Tid) {
    && t in s.pc && s.pc[t].Waking? && s.lock == Some(t)
    && var cont, readers := s.pc[t].cont, s.pc[t].readers;
       if s.queue != [] && s.queue[0] in s.pc && s.pc[s.queue[0]] == BlockedR
       then Stay(Admit(s, s.queue[0]), s', t, Waking(cont, true))
       else if readers then Woken(s, s', t, cont, true)
       else if s.queue == [] then Woken(s, s', t, cont, false)
       else Stay(s.(writer := Some(s.queue[0])), s', t, WakingWriter(cont))
  }

  ghost predicate WakeWriter(s: State, s': State, t: Tid) {
    && t in s.pc && s.pc[t].WakingWriter? && s.lock == Some(t) && s.queue != []
    && Woken(State(s.pc[s.queue[0] := Writer], s.word.(w := s.word.w - 1, x := true), s.writer, s.lock, s.queue[1..]),
             s', t, s.pc[t].cont, false)
  }

  /** Somebody's priority changes: the queue is put in another order. */
  ghost predicate Reorder(s: State, s': State) {
    && s.lock.None?
    && s' == s.(queue := s'.queue) && |s'.queue| == |s.queue|
    && Distinct(s'.queue) && forall u :: u in s'.queue <==> u in s.queue
  }

  ghost predicate FastStep(s: State, s': State, t: Tid) {
    ReadAcquire(s, s', t) || WriteAcquire(s, s', t) || ReadUpgrade(s, s', t) || ReadRelease(s, s', t) ||
    ForgetWriter(s, s', t) || WriteRelease(s, s', t)
  }

  ghost predicate EnterStep(s: State, s': State, t: Tid) {
    EnterRead(s, s', t) || EnterWrite(s, s', t) || EnterUpgrade(s, s', t) || EnterRelease(s, s', t)
  }

  ghost predicate InsideStep(s: State, s': State, t: Tid) {
    ContendedRead(s, s', t) || ContendedWrite(s, s', t) || ContendedUpgrade(s, s', t) ||
    BecomeWriter(s, s', t) || WakeStep(s, s', t) || WakeWriter(s, s', t)
  }

  ghost predicate Step(s: State, s': State) {
    Reorder(s, s') || exists t :: FastStep(s, s', t) || EnterStep(s, s', t) || InsideStep(s, s', t)
  }

  ghost predicate Init(s: State) {
    && (forall t :: t in s.pc ==> s.pc[t] == Idle)
    && s.word == Word(0, 0, false) && s.writer.None? && s.lock.None? && s.queue == []
  }
}
