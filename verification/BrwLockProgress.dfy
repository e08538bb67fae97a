/** Nobody is stuck: in every state of every run each thread that does not wait in the
    queue can go on as soon as thread_lock is free or its own, so there is no deadlock. */
module BrwLockProgress {
  import opened PriorityList
  import opened BrwLock
  import opened BrwLockSafety

  /** t can take its next step, or let one more reader in. */
  ghost predicate Advances(s: State, s': State, t: Tid) {
    && t in s.pc && t in s'.pc && Step(s, s')
    && (s'.pc[t] != s.pc[t] || |s'.queue| < |s.queue|)
  }

  /** The points outside thread_lock where a thread waits for nothing at all. */
  predicate Unhindered(p: Pc) { p.Idle? || p.Reader? || p.Writer? || p.WriterLeaving? }

  /** Where an attempt leads at once: for writing if write, else to read or to let go. */
  predicate Attempted(p: Pc, p': Pc, write: bool) {
    match p
    case Idle => if write then p'.Writer? || p'.WantWrite? else p'.Reader? || p'.Optimistic?
    case Reader => if write then p'.Writer? || p'.WantUpgrade? else p'.Idle? || p'.Releasing?
    case _ => true
  }

  lemma OutsideAdvances(s: State, t: Tid, write: bool) returns (s': State)
    requires t in s.pc && Unhindered(s.pc[t])
    ensures Advances(s, s', t) && Attempted(s.pc[t], s'.pc[t], write)
  {
    var alone := s.word == (if s.pc[t].Idle? then Word(0, 0, false) else Word(1, 0, false)) && s.writer.None?;
    if (s.pc[t].Idle? || s.pc[t].Reader?) && write {
      var p := if alone then Writer else if s.pc[t].Idle? then WantWrite else WantUpgrade;
      s' := State(s.pc[t := p], if alone then Word(0, 0, true) else s.word, if alone then Some(t) else s.writer, s.lock, s.queue);
    } else if s.pc[t].Idle? {
      var p := if s.word.w == 0 && !s.word.x then Reader else Optimistic;
      s' := State(s.pc[t := p], s.word.(r := s.word.r + 1), s.writer, s.lock, s.queue);
    } else if s.pc[t].Reader? {
      var p := if s.word.r == 1 && s.word.w != 0 then Releasing else Idle;
      s' := State(s.pc[t := p], s.word.(r := s.word.r - 1), s.writer, s.lock, s.queue);
    } else if s.pc[t].Writer? {
      s' := State(s.pc[t := WriterLeaving], s.word, None, s.lock, s.queue);
    } else {
      var p := if s.word.w != 0 then Releasing else Idle;
      s' := State(s.pc[t := p], s.word.(x := false), s.writer, s.lock, s.queue);
    }
    assert FastStep(s, s', t);
  }

  lemma EntryAdvances(s: State, t: Tid) returns (s': State)
    requires t in s.pc && s.lock.None? && (s.pc[t].Optimistic? || s.pc[t].WantWrite? || s.pc[t].WantUpgrade? || s.pc[t].Releasing?)
    ensures Advances(s, s', t)
  {
    if s.pc[t].Optimistic? {
      s' := State(s.pc[t := InRead(s.word)], s.word.(r := s.word.r - 1, w := s.word.w + 1), s.writer, Some(t), s.queue);
    } else if s.pc[t].WantWrite? {
      s' := State(s.pc[t := InWrite(s.word)], s.word.(w := s.word.w + 1), s.writer, Some(t), s.queue);
    } else if s.pc[t].WantUpgrade? {
      s' := State(s.pc[t := InUpgrade(s.word)], s.word.(r := s.word.r - 1, w := s.word.w + 1), s.writer, Some(t), s.queue);
    } else if s.word.w != 0 && !s.word.x && s.word.r == 0 {
      s' := State(s.pc[t := Waking(ThenLeave, false)], s.word, s.writer, Some(t), s.queue);
    } else {
      s' := s.(pc := s.pc[t := Idle]);
    }
    assert EnterStep(s, s', t);
  }

  lemma CanBlock(s: State, t: Tid, p: Pc) returns (s': State)
    requires t in s.pc && s.lock == Some(t)
    ensures Block(s, s', t, p) && s'.pc == s.pc[t := p]
  {
    s' := State(s.pc[t := p], s.word, s.writer, None, s.queue[..0] + [t] + s.queue[0..]);
  }

  lemma ContendedAdvances(s: State, t: Tid) returns (s': State)
    requires t in s.pc && s.lock == Some(t) && (s.pc[t].InRead? || s.pc[t].InWrite? || s.pc[t].InUpgrade?)
    ensures Advances(s, s', t)
  {
    var prev := s.pc[t].prev;
    if s.pc[t].InRead? {
      if prev.x || (prev.w != 0 && prev.r != 1) {
        s' := CanBlock(s, t, BlockedR);
      } else if prev.w == 0 {
        s' := State(s.pc[t := Reader], s.word.(r := s.word.r + 1, w := s.word.w - 1), s.writer, None, s.queue);
      } else {
        s' := s.(pc := s.pc[t := Waking(ThenJoinOrBlock, false)]);
      }
    } else if s.pc[t].InWrite? {
      if prev.x || prev.r != 0 {
        s' := CanBlock(s, t, BlockedW);
      } else if prev.w == 0 {
        s' := s.(writer := Some(t), pc := s.pc[t := Stored]);
      } else {
        s' := s.(pc := s.pc[t := Waking(ThenBlock, false)]);
      }
    } else if prev.r == 1 && !prev.x {
      s' := s.(writer := Some(t), pc := s.pc[t := Stored]);
    } else {
      s' := CanBlock(s, t, BlockedW);
    }
    assert InsideStep(s, s', t);
  }

  /** Wake has returned, in a state s1 in which t is still inside. */
  lemma CanReturn(s1: State, t: Tid, cont: Cont, readers: bool) returns (s': State)
    requires t in s1.pc && s1.lock == Some(t)
    ensures Woken(s1, s', t, cont, readers) && t in s'.pc && !Inside(s'.pc[t])
  {
    match cont
    case ThenLeave => s' := s1.(pc := s1.pc[t := Idle], lock := None);
    case ThenBlock => s' := CanBlock(s1, t, BlockedW);
    case ThenJoinOrBlock =>
      if readers {
        s' := State(s1.pc[t := Reader], s1.word.(r := s1.word.r + 1, w := s1.word.w - 1), s1.writer, None, s1.queue);
      } else {
        s' := CanBlock(s1, t, BlockedR);
      }
  }

  lemma WakerAdvances(s: State, t: Tid) returns (s': State)
    requires t in s.pc && s.lock == Some(t) && s.pc[t].Waking?
    ensures Advances(s, s', t)
  {
    var cont := s.pc[t].cont;
    if s.queue != [] && s.queue[0] in s.pc && s.pc[s.queue[0]] == BlockedR {
      var s1 := Admit(s, s.queue[0]);
      s' := s1.(pc := s1.pc[t := Waking(cont, true)]);
    } else if s.pc[t].readers || s.queue == [] {
      s' := CanReturn(s, t, cont, s.pc[t].readers);
    } else {
      s' := s.(writer := Some(s.queue[0]), pc := s.pc[t := WakingWriter(cont)]);
    }
    assert InsideStep(s, s', t);
  }

  lemma InsideAdvances(s: State, t: Tid) returns (s': State)
    requires Inv(s) && t in s.pc && s.lock == Some(t) && Inside(s.pc[t])
    ensures Advances(s, s', t)
  {
    match s.pc[t]
    case Stored =>
      s' := State(s.pc[t := Writer], s.word.(w := s.word.w - 1, x := true), s.writer, None, s.queue);
      assert InsideStep(s, s', t);
    case Waking(_, _) => s' := WakerAdvances(s, t);
    case WakingWriter(cont) =>
      var s1 := State(s.pc[s.queue[0] := Writer], s.word.(w := s.word.w - 1, x := true), s.writer, s.lock, s.queue[1..]);
      s' := CanReturn(s1, t, cont, false);
      assert InsideStep(s, s', t);
    case _ => s' := ContendedAdvances(s, t);
  }

  /** In every state of every run: a thread that does not wait in the queue can go on, with
      what it wants to do, unless another thread has thread_lock and it needs that too. */
  lemma NeverStuck(run: seq<State>, i: nat, t: Tid, write: bool) returns (s': State)
    requires Run(run) && i < |run| && t in run[i].pc && !Waits(run[i].pc[t])
    requires Unhindered(run[i].pc[t]) || run[i].lock.None? || run[i].lock == Some(t)
    ensures Advances(run[i], s', t) && Attempted(run[i].pc[t], s'.pc[t], write)
  {
    RunOk(run, i);
    if Unhindered(run[i].pc[t]) {
      s' := OutsideAdvances(run[i], t, write);
    } else if Inside(run[i].pc[t]) {
      s' := InsideAdvances(run[i], t);
    } else {
      s' := EntryAdvances(run[i], t);
    }
  }

  /** No deadlock: in every state of every run, while anybody waits, a thread that neither
      waits nor is idle can go on, and it is inside thread_lock or sees to the waiters. */
  lemma NoDeadlock(run: seq<State>, i: nat) returns (t: Tid, s': State)
    requires Run(run) && i < |run| && run[i].queue != []
    ensures Advances(run[i], s', t) && !Waits(run[i].pc[t]) && !run[i].pc[t].Idle?
    ensures run[i].lock == Some(t) || Minds(run[i].pc[t])
  {
    RunOk(run, i);
    if run[i].lock.Some? {
      t := run[i].lock.value;
    } else {
      t := NoLostWakeup(run, i);
    }
    s' := NeverStuck(run, i, t, false);
  }
}
