/** How far one call of Wake goes, in every run: fast paths of other threads go on
    meanwhile, but the queue is its own. */
module BrwLockWake {
  import opened PriorityList
  import opened BrwLock
  import opened BrwLockSafety

  /** Everybody in the queue still waits as before. */
  ghost predicate StillWaiting(s: State, s': State, queue: seq<Tid>) {
    forall u :: u in queue ==> u in s.pc && u in s'.pc && s'.pc[u] == s.pc[u]
  }

  predicate HeadReads(s: State) {
    s.queue != [] && s.queue[0] in s.pc && s.pc[s.queue[0]] == BlockedR
  }

  /** Where a thread goes from Wake. */
  predicate Returned(cont: Cont, readers: bool, p: Pc) {
    match cont
    case ThenLeave => p == Idle
    case ThenBlock => p == BlockedW
    case ThenJoinOrBlock => p == if readers then Reader else BlockedR
  }

  /** One thread is let in. */
  ghost predicate LetIn(s: State, s': State, t: Tid) {
    && t in s.pc && s.pc[t].Waking? && t in s'.pc && HeadReads(s)
    && s'.pc[t] == Waking(s.pc[t].cont, true)
    && s.queue[0] in s'.pc && s'.pc[s.queue[0]] == Reader
    && s'.queue == s.queue[1..] && StillWaiting(s, s', s.queue[1..])
  }

  /** Wake is over: readers were let in, and the next in the queue is no reader. */
  ghost predicate Over(s: State, s': State, t: Tid) {
    && t in s.pc && s.pc[t].Waking? && s.pc[t].readers && t in s'.pc
    && !HeadReads(s) && Returned(s.pc[t].cont, true, s'.pc[t]) && StillWaiting(s, s', s.queue)
    && (s.pc[t].cont.ThenBlock? || s'.queue == s.queue)
  }

  /** A writer came first. */
  ghost predicate Chosen(s: State, s': State, t: Tid) {
    && t in s.pc && s.pc[t].Waking? && !s.pc[t].readers && t in s'.pc
    && s.queue != [] && s.queue[0] in s.pc && s.pc[s.queue[0]] == BlockedW
    && s'.pc[t] == WakingWriter(s.pc[t].cont) && s'.queue == s.queue && StillWaiting(s, s', s.queue)
  }

  /** Somebody else moved. */
  ghost predicate Aside(s: State, s': State, t: Tid) {
    && t in s.pc && t in s'.pc && s'.pc[t] == s.pc[t] && s'.queue == s.queue && StillWaiting(s, s', s.queue)
  }

  /** While t is inside thread_lock, nobody but t touches the queue. */
  lemma OthersAside(s: State, s': State, t: Tid, u: Tid)
    requires Inv(s) && s.lock == Some(t) && t in s.pc && Inside(s.pc[t]) && t != u
    requires FastStep(s, s', u) || EnterStep(s, s', u) || InsideStep(s, s', u)
    ensures Aside(s, s', t)
  {
    if FastStep(s, s', u) {
      FastAside(s, s', t, u);
    } else {
      NobodyElseIn(s, s', t, u);
    }
  }

  lemma FastAside(s: State, s': State, t: Tid, u: Tid)
    requires QueueOk(s) && t in s.pc && t != u && FastStep(s, s', u)
    ensures Aside(s, s', t)
  {
    assert u in s.pc && !Waits(s.pc[u]) && s'.pc == s.pc[u := s'.pc[u]] && s'.queue == s.queue;
  }

  lemma NobodyElseIn(s: State, s': State, t: Tid, u: Tid)
    requires LockOk(s) && s.lock == Some(t) && (EnterStep(s, s', u) || InsideStep(s, s', u))
    ensures u == t
  {
  }

  lemma OwnStep(s: State, s': State, t: Tid)
    requires Inv(s) && t in s.pc && s.pc[t].Waking?
    requires FastStep(s, s', t) || EnterStep(s, s', t) || InsideStep(s, s', t)
    ensures WakeStep(s, s', t)
  {
  }

  lemma LetInIs(s: State, s': State, t: Tid)
    requires LockOk(s) && QueueOk(s) && WakeStep(s, s', t) && HeadReads(s)
    ensures LetIn(s, s', t)
  {
    assert s.queue == [s.queue[0]] + s.queue[1..];
    assert t !in s.queue && s.queue[0] !in s.queue[1..];
  }

  lemma OverIs(s: State, s': State, t: Tid)
    requires LockOk(s) && QueueOk(s) && WakeStep(s, s', t) && !HeadReads(s) && s.pc[t].readers
    ensures Over(s, s', t)
  {
    assert t !in s.queue;
  }

  lemma ChosenIs(s: State, s': State, t: Tid)
    requires LockOk(s) && QueueOk(s) && WakeStep(s, s', t) && !HeadReads(s) && !s.pc[t].readers && s.queue != []
    ensures Chosen(s, s', t)
  {
    assert t !in s.queue && s.queue[0] in s.queue;
  }

  /** What any step of any thread does while t is in Wake. */
  lemma DuringWake(s: State, s': State, t: Tid)
    requires Inv(s) && Step(s, s') && t in s.pc && s.pc[t].Waking?
    ensures LetIn(s, s', t) || Over(s, s', t) || Chosen(s, s', t) || Aside(s, s', t)
  {
    assert s.lock == Some(t);
    if !Reorder(s, s') {
      var u :| FastStep(s, s', u) || EnterStep(s, s', u) || InsideStep(s, s', u);
      if u == t {
        OwnStep(s, s', t);
        if HeadReads(s) {
          LetInIs(s, s', t);
        } else if s.pc[t].readers {
          OverIs(s, s', t);
        } else {
          ChosenIs(s, s', t);
        }
      } else {
        OthersAside(s, s', t, u);
      }
    }
  }

  // ----- a whole call, over a run -----

  ghost predicate InWake(run: seq<State>, i: nat, j: nat, t: Tid)
    requires j <= |run|
  {
    forall m :: i <= m < j ==> t in run[m].pc && run[m].pc[t].Waking?
  }

  /** Step j makes a reader of u, who was waiting to read. */
  predicate Admits(run: seq<State>, j: nat, u: Tid) {
    && j + 1 < |run| && u in run[j].pc && run[j].pc[u] == BlockedR
    && u in run[j + 1].pc && run[j + 1].pc[u] == Reader
  }

  ghost predicate Admitted(run: seq<State>, i: nat, j: nat, u: Tid) {
    exists m :: i <= m < j && Admits(run, m, u)
  }

  /** Of the queue q0 at the start, the first n have been let in and the others wait. */
  ghost predicate SoFar(run: seq<State>, i: nat, k: nat, t: Tid, q0: seq<Tid>, n: nat)
    requires i <= k < |run|
  {
    && n <= |q0| && run[k].queue == q0[n..]
    && (forall m :: 0 <= m < |q0| ==> q0[m] in run[i].pc)
    && (forall m :: 0 <= m < n ==> run[i].pc[q0[m]] == BlockedR && Admitted(run, i, k, q0[m]))
    && (forall m :: n <= m < |q0| ==> q0[m] in run[k].pc && run[k].pc[q0[m]] == run[i].pc[q0[m]])
    && t in run[i].pc && run[i].pc[t].Waking? && t in run[k].pc && run[k].pc[t].Waking?
    && run[k].pc[t] == Waking(run[i].pc[t].cont, run[i].pc[t].readers || n > 0)
  }

  lemma StartsSo(run: seq<State>, i: nat, t: Tid)
    requires i < |run| && Inv(run[i]) && t in run[i].pc && run[i].pc[t].Waking?
    ensures SoFar(run, i, i, t, run[i].queue, 0)
  {
    var q0 := run[i].queue;
    assert q0[0..] == q0;
    forall m | 0 <= m < |q0| ensures q0[m] in run[i].pc {
      assert q0[m] in q0;
    }
  }

  lemma AdmittedLater(run: seq<State>, i: nat, k: nat, q0: seq<Tid>, n: nat)
    requires n <= |q0| && forall m :: 0 <= m < n ==> Admitted(run, i, k, q0[m])
    ensures forall m :: 0 <= m < n ==> Admitted(run, i, k + 1, q0[m])
  {
    forall m | 0 <= m < n ensures Admitted(run, i, k + 1, q0[m]) {
      var j :| i <= j < k && Admits(run, j, q0[m]);
    }
  }

  lemma SoFarAside(run: seq<State>, i: nat, k: nat, t: Tid, q0: seq<Tid>, n: nat)
    requires i <= k && k + 1 < |run| && SoFar(run, i, k, t, q0, n) && Aside(run[k], run[k + 1], t)
    ensures SoFar(run, i, k + 1, t, q0, n)
  {
    AdmittedLater(run, i, k, q0, n);
    forall m | n <= m < |q0| ensures q0[m] in run[k + 1].pc && run[k + 1].pc[q0[m]] == run[i].pc[q0[m]] {
      assert q0[n..][m - n] == q0[m] && q0[m] in run[k].queue;
    }
  }

  lemma SoFarOneMore(run: seq<State>, i: nat, k: nat, t: Tid, q0: seq<Tid>, n: nat)
    requires i <= k && k + 1 < |run| && SoFar(run, i, k, t, q0, n) && LetIn(run[k], run[k + 1], t)
    ensures n < |q0| && SoFar(run, i, k + 1, t, q0, n + 1)
  {
    AdmittedLater(run, i, k, q0, n);
    assert run[k].queue[0] == q0[n] && q0[n..][1..] == q0[n + 1..];
    assert Admits(run, k, q0[n]);
    assert Admitted(run, i, k + 1, q0[n]);
    forall m | n + 1 <= m < |q0| ensures q0[m] in run[k + 1].pc && run[k + 1].pc[q0[m]] == run[i].pc[q0[m]] {
      assert q0[n + 1..][m - n - 1] == q0[m] && q0[m] in run[k].queue[1..];
    }
  }

  /** What step m does while t is in Wake. */
  ghost predicate Turn(run: seq<State>, m: nat, t: Tid) {
    && m + 1 < |run|
    && (LetIn(run[m], run[m + 1], t) || Over(run[m], run[m + 1], t) || Chosen(run[m], run[m + 1], t) || Aside(run[m], run[m + 1], t))
  }

  lemma TurnOk(run: seq<State>, m: nat, t: Tid)
    requires Run(run) && m + 1 < |run| && t in run[m].pc && run[m].pc[t].Waking?
    ensures Turn(run, m, t)
  {
    RunOk(run, m);
    assert Step(run[m], run[m + 1]);
    DuringWake(run[m], run[m + 1], t);
  }

  lemma TurnsOk(run: seq<State>, i: nat, j: nat, t: Tid)
    requires Run(run) && i <= j < |run| && InWake(run, i, j, t)
    ensures forall m {:trigger Turn(run, m, t)} :: i <= m < j ==> Turn(run, m, t)
  {
    forall m | i <= m < j ensures Turn(run, m, t) {
      TurnOk(run, m, t);
    }
  }

  lemma {:induction false} WakeSoFar(run: seq<State>, i: nat, k: nat, t: Tid, q0: seq<Tid>) returns (n: nat)
    requires i <= k < |run| && InWake(run, i, k + 1, t) && SoFar(run, i, i, t, q0, 0)
    requires forall m {:trigger Turn(run, m, t)} :: i <= m < k ==> Turn(run, m, t)
    ensures SoFar(run, i, k, t, q0, n)
  {
    n := 0;
    if k > i {
      n := WakeSoFar(run, i, k - 1, t, q0);
      n := OneTurn(run, i, k - 1, t, q0, n);
    }
  }

  lemma OneTurn(run: seq<State>, i: nat, k: nat, t: Tid, q0: seq<Tid>, n: nat) returns (n': nat)
    requires i <= k && k + 1 < |run| && SoFar(run, i, k, t, q0, n) && Turn(run, k, t)
    requires t in run[k + 1].pc && run[k + 1].pc[t].Waking?
    ensures SoFar(run, i, k + 1, t, q0, n')
  {
    if LetIn(run[k], run[k + 1], t) {
      SoFarOneMore(run, i, k, t, q0, n);
      n' := n + 1;
    } else {
      SoFarAside(run, i, k, t, q0, n);
      n' := n;
    }
  }

  /** The readers up to the first writer are let in, and everybody else waits on. */
  ghost predicate ReadersIn(run: seq<State>, i: nat, j: nat, t: Tid, q0: seq<Tid>, n: nat) {
    && i < j < |run| && t in run[i].pc && run[i].pc[t].Waking? && t in run[j].pc
    && 0 < n <= |q0| && (forall m :: 0 <= m < |q0| ==> q0[m] in run[i].pc)
    && (forall m :: 0 <= m < n ==> run[i].pc[q0[m]] == BlockedR && Admitted(run, i, j, q0[m]))
    && (n < |q0| ==> run[i].pc[q0[n]] == BlockedW)
    && (forall m :: n <= m < |q0| ==> q0[m] in run[j].pc && run[j].pc[q0[m]] == run[i].pc[q0[m]])
    && Returned(run[i].pc[t].cont, true, run[j].pc[t]) && (run[i].pc[t].cont.ThenBlock? || run[j].queue == q0[n..])
  }

  lemma TurnsLetIn(run: seq<State>, i: nat, j: nat, t: Tid, q0: seq<Tid>) returns (n: nat)
    requires i < j < |run| && InWake(run, i, j, t) && SoFar(run, i, i, t, q0, 0) && t in run[j].pc && !run[j].pc[t].Waking?
    requires forall m {:trigger Turn(run, m, t)} :: i <= m < j ==> Turn(run, m, t)
    requires !run[i].pc[t].readers
    requires q0 != [] && run[i].pc[q0[0]] == BlockedR && forall m :: 0 <= m < |q0| ==> Waits(run[i].pc[q0[m]])
    ensures ReadersIn(run, i, j, t, q0, n)
  {
    n := WakeSoFar(run, i, j - 1, t, q0);
    assert Turn(run, j - 1, t);
    LastTurn(run, i, j - 1, t, q0, n);
  }

  /** A call that finds a reader first: in every run, exactly the readers up to the first
      writer become readers before it returns. */
  lemma WakesAllReaders(run: seq<State>, i: nat, j: nat, t: Tid) returns (n: nat)
    requires Run(run) && i < j < |run| && InWake(run, i, j, t) && t in run[j].pc && !run[j].pc[t].Waking?
    requires !run[i].pc[t].readers && HeadReads(run[i])
    ensures ReadersIn(run, i, j, t, run[i].queue, n)
  {
    RunOk(run, i);
    StartsSo(run, i, t);
    AllWait(run[i]);
    TurnsOk(run, i, j, t);
    n := TurnsLetIn(run, i, j, t, run[i].queue);
  }

  lemma AllWait(s: State)
    requires QueueOk(s)
    ensures forall m :: 0 <= m < |s.queue| ==> s.queue[m] in s.pc && Waits(s.pc[s.queue[m]])
  {
    forall m | 0 <= m < |s.queue| ensures s.queue[m] in s.pc && Waits(s.pc[s.queue[m]]) {
      assert s.queue[m] in s.queue;
    }
  }

  lemma LastTurn(run: seq<State>, i: nat, k: nat, t: Tid, q0: seq<Tid>, n: nat)
    requires i <= k && k + 1 < |run| && SoFar(run, i, k, t, q0, n) && Turn(run, k, t)
    requires t in run[k + 1].pc && !run[k + 1].pc[t].Waking? && !run[i].pc[t].readers
    requires q0 != [] && run[i].pc[q0[0]] == BlockedR && forall m :: 0 <= m < |q0| ==> Waits(run[i].pc[q0[m]])
    ensures n > 0 && (n < |q0| ==> run[i].pc[q0[n]] == BlockedW)
    ensures forall m :: 0 <= m < n ==> Admitted(run, i, k + 1, q0[m])
    ensures forall m :: n <= m < |q0| ==> q0[m] in run[k + 1].pc && run[k + 1].pc[q0[m]] == run[i].pc[q0[m]]
    ensures Returned(run[i].pc[t].cont, true, run[k + 1].pc[t]) && (run[i].pc[t].cont.ThenBlock? || run[k + 1].queue == q0[n..])
  {
    AdmittedLater(run, i, k, q0, n);
    assert n < |q0| ==> run[k].queue[0] == q0[n];
    forall m | n <= m < |q0| ensures q0[m] in run[k + 1].pc && run[k + 1].pc[q0[m]] == run[i].pc[q0[m]] {
      assert q0[n..][m - n] == q0[m] && q0[m] in run[k].queue;
    }
  }

  // ----- a writer that comes first -----

  /** The writer has the lock. */
  ghost predicate Handed(s: State, s': State, t: Tid) {
    && t in s.pc && s.pc[t].WakingWriter? && t in s'.pc && s.queue != []
    && s.queue[0] in s'.pc && s'.pc[s.queue[0]] == Writer && StillWaiting(s, s', s.queue[1..])
    && Returned(s.pc[t].cont, false, s'.pc[t]) && (!s.pc[t].cont.ThenLeave? || s'.queue == s.queue[1..])
  }

  lemma HandedIs(s: State, s': State, t: Tid)
    requires LockOk(s) && QueueOk(s) && WakeWriter(s, s', t)
    ensures Handed(s, s', t)
  {
    assert s.queue == [s.queue[0]] + s.queue[1..];
    assert t !in s.queue && s.queue[0] !in s.queue[1..];
  }

  lemma OwnHandOver(s: State, s': State, t: Tid)
    requires Inv(s) && t in s.pc && s.pc[t].WakingWriter?
    requires FastStep(s, s', t) || EnterStep(s, s', t) || InsideStep(s, s', t)
    ensures WakeWriter(s, s', t)
  {
  }

  lemma DuringHandOver(s: State, s': State, t: Tid)
    requires Inv(s) && Step(s, s') && t in s.pc && s.pc[t].WakingWriter?
    ensures Handed(s, s', t) || Aside(s, s', t)
  {
    assert s.lock == Some(t);
    if !Reorder(s, s') {
      var u :| FastStep(s, s', u) || EnterStep(s, s', u) || InsideStep(s, s', u);
      if u == t {
        OwnHandOver(s, s', t);
        HandedIs(s, s', t);
      } else {
        OthersAside(s, s', t, u);
      }
    }
  }

  predicate Busy(p: Pc) { p.Waking? || p.WakingWriter? }

  /** What step m does while t is in Wake, a writer having been found or not. */
  ghost predicate AnyTurn(run: seq<State>, m: nat, t: Tid) {
    && m + 1 < |run| && t in run[m].pc
    && (run[m].pc[t].Waking? ==> Turn(run, m, t))
    && (run[m].pc[t].WakingWriter? ==> Handed(run[m], run[m + 1], t) || Aside(run[m], run[m + 1], t))
  }

  lemma AnyTurnOk(run: seq<State>, m: nat, t: Tid)
    requires Run(run) && m + 1 < |run| && t in run[m].pc && Busy(run[m].pc[t])
    ensures AnyTurn(run, m, t)
  {
    if run[m].pc[t].Waking? {
      TurnOk(run, m, t);
    } else {
      RunOk(run, m);
      assert Step(run[m], run[m + 1]);
      DuringHandOver(run[m], run[m + 1], t);
    }
  }

  /** Nobody has been woken yet. */
  ghost predicate Unchanged(run: seq<State>, i: nat, k: nat, t: Tid, q0: seq<Tid>)
    requires i <= k < |run|
  {
    && run[k].queue == q0 && StillWaiting(run[i], run[k], q0)
    && t in run[i].pc && run[i].pc[t].Waking? && t in run[k].pc
    && (run[k].pc[t] == Waking(run[i].pc[t].cont, false) || run[k].pc[t] == WakingWriter(run[i].pc[t].cont))
  }

  lemma UnchangedStep(run: seq<State>, i: nat, k: nat, t: Tid, q0: seq<Tid>)
    requires i <= k && k + 1 < |run| && Unchanged(run, i, k, t, q0) && AnyTurn(run, k, t)
    requires q0 != [] && run[i].pc[q0[0]] == BlockedW && t in run[k + 1].pc && Busy(run[k + 1].pc[t])
    ensures Unchanged(run, i, k + 1, t, q0)
  {
    assert q0[0] in q0;
  }

  lemma {:induction false} UnchangedSoFar(run: seq<State>, i: nat, k: nat, t: Tid, q0: seq<Tid>)
    requires i <= k < |run| && Unchanged(run, i, i, t, q0) && q0 != [] && run[i].pc[q0[0]] == BlockedW
    requires forall m {:trigger AnyTurn(run, m, t)} :: i <= m < k ==> AnyTurn(run, m, t)
    requires forall m :: i <= m <= k ==> t in run[m].pc && Busy(run[m].pc[t])
    ensures Unchanged(run, i, k, t, q0)
  {
    if k > i {
      UnchangedSoFar(run, i, k - 1, t, q0);
      assert AnyTurn(run, k - 1, t);
      UnchangedStep(run, i, k - 1, t, q0);
    }
  }

  /** The writer that was first has the lock, and everybody else waits on. */
  ghost predicate WriterIn(run: seq<State>, i: nat, j: nat, t: Tid, q0: seq<Tid>) {
    && i < j < |run| && t in run[i].pc && run[i].pc[t].Waking? && t in run[j].pc
    && q0 != [] && q0[0] in run[i].pc && run[i].pc[q0[0]] == BlockedW && q0[0] in run[j].pc && run[j].pc[q0[0]] == Writer
    && StillWaiting(run[i], run[j], q0[1..])
    && Returned(run[i].pc[t].cont, false, run[j].pc[t]) && (!run[i].pc[t].cont.ThenLeave? || run[j].queue == q0[1..])
  }

  lemma TurnsHandOver(run: seq<State>, i: nat, j: nat, t: Tid, q0: seq<Tid>)
    requires i < j < |run| && Unchanged(run, i, i, t, q0) && q0 != [] && run[i].pc[q0[0]] == BlockedW
    requires forall m {:trigger AnyTurn(run, m, t)} :: i <= m < j ==> AnyTurn(run, m, t)
    requires forall m :: i <= m < j ==> t in run[m].pc && Busy(run[m].pc[t])
    requires t in run[j].pc && !Busy(run[j].pc[t])
    ensures WriterIn(run, i, j, t, q0)
  {
    UnchangedSoFar(run, i, j - 1, t, q0);
    assert AnyTurn(run, j - 1, t);
    assert q0[0] in q0 && forall u :: u in q0[1..] ==> u in q0;
  }

  /** A call that finds a writer first: in every run, exactly that one becomes the writer. */
  lemma WakesOneWriter(run: seq<State>, i: nat, j: nat, t: Tid)
    requires Run(run) && i < j < |run| && t in run[i].pc && run[i].pc[t].Waking? && !run[i].pc[t].readers && !HeadReads(run[i])
    requires forall m :: i <= m < j ==> t in run[m].pc && Busy(run[m].pc[t])
    requires t in run[j].pc && !Busy(run[j].pc[t])
    ensures WriterIn(run, i, j, t, run[i].queue)
  {
    RunOk(run, i);
    AllWait(run[i]);
    forall m | i <= m < j ensures AnyTurn(run, m, t) {
      AnyTurnOk(run, m, t);
    }
    TurnsHandOver(run, i, j, t, run[i].queue);
  }

  // ----- what each path decides -----

  predicate FreeWord(s: State) { s.word == Word(0, 0, false) && s.writer.None? }

  /** Where a thread can go from p in state s. Outside thread_lock the word decides, inside it
      the word that was seen on the way in; a blocked thread moves only when it is woken. */
  predicate Decides(s: State, p: Pc, p': Pc) {
    match p
    case Idle =>
      || p' == (if s.word.w == 0 && !s.word.x then Reader else Optimistic)
      || p' == (if FreeWord(s) then Writer else WantWrite)
    case Reader =>
      || p' == (if s.word == Word(1, 0, false) && s.writer.None? then Writer else WantUpgrade)
      || p' == (if s.word.r == 1 && s.word.w != 0 then Releasing else Idle)
    case Writer => p' == WriterLeaving
    case WriterLeaving => p' == if s.word.w != 0 then Releasing else Idle
    case Releasing => p' == if s.word.w != 0 && !s.word.x && s.word.r == 0 then Waking(ThenLeave, false) else Idle
    case Optimistic => p' == InRead(s.word)
    case WantWrite => p' == InWrite(s.word)
    case WantUpgrade => p' == InUpgrade(s.word)
    case InRead(prev) =>
      p' == if prev.x then BlockedR else if prev.w == 0 then Reader else if prev.r == 1 then Waking(ThenJoinOrBlock, false) else BlockedR
    case InWrite(prev) =>
      p' == if prev.x || prev.r != 0 then BlockedW else if prev.w == 0 then Stored else Waking(ThenBlock, false)
    case InUpgrade(prev) => p' == if prev.r == 1 && !prev.x then Stored else BlockedW
    case Stored => p' == Writer
    case BlockedR => p' == Reader
    case BlockedW => p' == Writer
    case Waking(cont, readers) => p' == Waking(cont, true) || p' == WakingWriter(cont) || (readers && Returned(cont, true, p'))
    case WakingWriter(cont) => Returned(cont, false, p')
  }

  lemma FastDecides(s: State, s': State, t: Tid)
    requires t in s.pc && t in s'.pc && FastStep(s, s', t)
    ensures Decides(s, s.pc[t], s'.pc[t])
  {
  }

  lemma EnterDecides(s: State, s': State, t: Tid)
    requires t in s.pc && t in s'.pc && EnterStep(s, s', t)
    ensures Decides(s, s.pc[t], s'.pc[t])
  {
  }

  lemma OwnInsideDecides(s: State, s': State, t: Tid)
    requires Inv(s) && t in s.pc && t in s'.pc && s'.pc[t] != s.pc[t] && InsideStep(s, s', t)
    ensures Decides(s, s.pc[t], s'.pc[t])
  {
    assert t !in s.queue;
    if WakeStep(s, s', t) && !HeadReads(s) && !s.pc[t].readers {
      ChosenIs(s, s', t);
    }
  }

  lemma OtherStepWakes(s: State, s': State, t: Tid, u: Tid)
    requires Inv(s) && t in s.pc && t in s'.pc && s'.pc[t] != s.pc[t] && t != u
    requires FastStep(s, s', u) || EnterStep(s, s', u) || InsideStep(s, s', u)
    ensures Decides(s, s.pc[t], s'.pc[t])
  {
    if WakeStep(s, s', u) {
      WakeStepWakes(s, s', t, u);
    } else if WakeWriter(s, s', u) {
      WakeWriterWakes(s, s', t, u);
    } else {
      NotWoken(s, s', t, u);
    }
  }

  lemma WakeStepWakes(s: State, s': State, t: Tid, u: Tid)
    requires t in s.pc && t in s'.pc && s'.pc[t] != s.pc[t] && t != u && WakeStep(s, s', u)
    ensures s.pc[t] == BlockedR && s'.pc[t] == Reader
  {
  }

  lemma WakeWriterWakes(s: State, s': State, t: Tid, u: Tid)
    requires LockOk(s) && WriterOk(s) && t in s.pc && t in s'.pc && s'.pc[t] != s.pc[t] && t != u && WakeWriter(s, s', u)
    ensures s.pc[t] == BlockedW && s'.pc[t] == Writer
  {
  }

  lemma NotWoken(s: State, s': State, t: Tid, u: Tid)
    requires t in s.pc && t in s'.pc && t != u
    requires FastStep(s, s', u) || EnterStep(s, s', u) || ContendedRead(s, s', u) || ContendedWrite(s, s', u) ||
             ContendedUpgrade(s, s', u) || BecomeWriter(s, s', u)
    ensures s'.pc[t] == s.pc[t]
  {
    assert s'.pc == s.pc[u := s'.pc[u]];
  }

  /** In every state of every run, any step takes any thread only there. */
  lemma EveryPathDecides(run: seq<State>, i: nat, t: Tid)
    requires Run(run) && i + 1 < |run| && t in run[i].pc && t in run[i + 1].pc && run[i + 1].pc[t] != run[i].pc[t]
    ensures Decides(run[i], run[i].pc[t], run[i + 1].pc[t])
  {
    RunOk(run, i);
    StepDecides(run[i], run[i + 1], t);
  }

  lemma StepDecides(s: State, s': State, t: Tid)
    requires Inv(s) && Step(s, s') && t in s.pc && t in s'.pc && s'.pc[t] != s.pc[t]
    ensures Decides(s, s.pc[t], s'.pc[t])
  {
    if !Reorder(s, s') {
      var u :| FastStep(s, s', u) || EnterStep(s, s', u) || InsideStep(s, s', u);
      if u != t {
        OtherStepWakes(s, s', t, u);
      } else if InsideStep(s, s', t) {
        OwnInsideDecides(s, s', t);
      } else if FastStep(s, s', t) {
        FastDecides(s, s', t);
      } else {
        EnterDecides(s, s', t);
      }
    }
  }
}
