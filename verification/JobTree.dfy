/** The tree of jobs (kernel/object/job_dispatcher.cc): children come and go, a killed job
    dies when its last child has left, and a dead job leaves its parent. Methods up to
    LeaveParent are single critical sections; Kill and Die are the sequential code. */
module JobTree {
  import opened PriorityList

  datatype Jid = Jid(id: int)

  datatype Pid = Pid(id: int)

  datatype State = Ready | Killing | Dead

  const ROOT_HEIGHT := 32

  datatype Job = Job(
    parent: Option<Jid>, height: int, state: State,
    jobs: set<Jid>, procs: set<Pid>, jobCount: int, procCount: int,
    noJobs: bool, noProcs: bool, terminated: bool)

  type Jobs = map<Jid, Job>

  /** A job that has just been made. */
  function Fresh(parent: Option<Jid>, height: int): Job {
    Job(parent, height, Ready, {}, {}, 0, 0, true, true, false)
  }

  // ----- the invariant -----

  /** Counts and signals match the children; a dead job has none. */
  predicate CountsOk(j: Job) {
    && j.jobCount == |j.jobs| && j.procCount == |j.procs|
    && (j.noJobs <==> j.jobs == {}) && (j.noProcs <==> j.procs == {})
    && (j.terminated <==> j.state.Dead?)
    && (j.state.Dead? ==> j.jobs == {} && j.procs == {})
  }

  /** A job is in its parent's list until, being dead, it has left it; and it is one
      level lower. */
  ghost predicate PlaceOk(m: Jobs, leaving: set<Jid>, k: Jid)
    requires k in m
  {
    && 0 <= m[k].height <= ROOT_HEIGHT
    && (m[k].parent.None? ==> m[k].height == ROOT_HEIGHT)
    && (m[k].parent.Some? ==>
          && m[k].parent.value in m && m[m[k].parent.value].height == m[k].height + 1
          && (k in m[m[k].parent.value].jobs <==> !m[k].state.Dead? || k in leaving))
    && (k in leaving ==> m[k].state.Dead? && m[k].parent.Some?)
  }

  ghost predicate ChildrenOk(m: Jobs, j: Jid)
    requires j in m
  {
    forall k :: k in m[j].jobs ==> k in m && m[k].parent == Some(j)
  }

  /** Exactly the killed jobs without children are about to die. */
  predicate DoomOk(j: Job, doomed: bool) {
    doomed <==> j.state.Killing? && j.jobs == {} && j.procs == {}
  }

  ghost predicate JobOk(m: Jobs, doomed: set<Jid>, leaving: set<Jid>, j: Jid) {
    j in m ==> CountsOk(m[j]) && PlaceOk(m, leaving, j) && ChildrenOk(m, j) && DoomOk(m[j], j in doomed)
  }

  ghost predicate AllOk(m: Jobs, doomed: set<Jid>, leaving: set<Jid>) {
    && (forall j {:trigger JobOk(m, doomed, leaving, j)} :: j in m ==> JobOk(m, doomed, leaving, j))
    && doomed <= m.Keys && leaving <= m.Keys
  }

  // ----- one job changes -----

  /** x differs from the old job only in ways that its relatives do not see. */
  lemma OneJobOk(m: Jobs, doomed: set<Jid>, leaving: set<Jid>, j: Jid, x: Job, doom: bool)
    requires AllOk(m, doomed, leaving) && j in m && x.parent == m[j].parent && x.height == m[j].height
    requires (x.state.Dead? <==> m[j].state.Dead?) && x.jobs == m[j].jobs && CountsOk(x) && DoomOk(x, doom)
    ensures AllOk(m[j := x], if doom then doomed + {j} else doomed - {j}, leaving)
  {
    var m', doomed' := m[j := x], if doom then doomed + {j} else doomed - {j};
    assert JobOk(m, doomed, leaving, j);
    forall k | k in m' ensures JobOk(m', doomed', leaving, k) {
      assert JobOk(m, doomed, leaving, k);
    }
  }

  /** A new job below j. */
  lemma NewJobOk(m: Jobs, doomed: set<Jid>, leaving: set<Jid>, j: Jid, x: Job, k: Jid, y: Job)
    requires AllOk(m, doomed, leaving) && j in m && k !in m && m[j].state.Ready? && m[j].height > 0
    requires x == m[j].(jobs := m[j].jobs + {k}, jobCount := m[j].jobCount + 1, noJobs := false)
    requires y == Fresh(Some(j), m[j].height - 1)
    ensures AllOk(m[j := x][k := y], doomed, leaving)
  {
    var m' := m[j := x][k := y];
    assert JobOk(m, doomed, leaving, j);
    assert k !in m[j].jobs;
    forall i | i in m' ensures JobOk(m', doomed, leaving, i) {
      assert JobOk(m, doomed, leaving, i);
      assert i in m && m[i].parent.Some? ==> m[i].parent.value in m;
    }
  }

  /** A doomed job dies; it is still in its parent's list. */
  lemma DiesOk(m: Jobs, doomed: set<Jid>, leaving: set<Jid>, j: Jid, x: Job, leaving': set<Jid>)
    requires AllOk(m, doomed, leaving) && j in m && j in doomed
    requires x == m[j].(state := Dead, terminated := true)
    requires leaving' == if m[j].parent.Some? then leaving + {j} else leaving
    ensures j !in leaving && AllOk(m[j := x], doomed - {j}, leaving')
    ensures m[j].parent.Some? ==> m[j].parent.value in m && !m[m[j].parent.value].state.Dead?
  {
    assert JobOk(m, doomed, leaving, j);
    if m[j].parent.Some? { assert JobOk(m, doomed, leaving, m[j].parent.value); }
    var m' := m[j := x];
    forall i | i in m' ensures JobOk(m', doomed - {j}, leaving', i) {
      assert JobOk(m, doomed, leaving, i);
    }
  }

  /** A dead job leaves its parent p. */
  lemma LeavesOk(m: Jobs, doomed: set<Jid>, leaving: set<Jid>, k: Jid, p: Jid, x: Job, doomed': set<Jid>)
    requires AllOk(m, doomed, leaving) && k in m && k in leaving && m[k].parent == Some(p)
    requires p in m && x == m[p].(jobs := m[p].jobs - {k}, jobCount := m[p].jobCount - 1,
                                  noJobs := m[p].noJobs || m[p].jobCount == 1, noProcs := m[p].noProcs || m[p].procCount == 0)
    requires doomed' == if x.state.Killing? && x.jobCount == 0 && x.procCount == 0 then doomed + {p} else doomed
    ensures AllOk(m[p := x], doomed', leaving - {k})
  {
    var m' := m[p := x];
    assert JobOk(m, doomed, leaving, k) && JobOk(m, doomed, leaving, p);
    assert k in m[p].jobs && p != k;
    assert |m[p].jobs - {k}| == |m[p].jobs| - 1;
    assert m[p].jobs - {k} == {} <==> |m[p].jobs - {k}| == 0;
    assert m[p].procs == {} <==> |m[p].procs| == 0;
    forall i | i in m' ensures JobOk(m', doomed', leaving - {k}, i) {
      assert JobOk(m, doomed, leaving, i);
    }
  }

  // ----- states only move forward -----

  function Rank(s: State): int { match s case Ready => 0 case Killing => 1 case Dead => 2 }

  /** No job moved backwards or got another parent; new ones may have come. */
  ghost predicate Onward(m: Jobs, m': Jobs) {
    forall j :: j in m ==> j in m' && Rank(m[j].state) <= Rank(m'[j].state) && m'[j].parent == m[j].parent && m'[j].height == m[j].height
  }

  /** No job appears or goes, and none loses or gains a process. */
  ghost predicate SameProcs(m: Jobs, m': Jobs) {
    m'.Keys == m.Keys && forall k :: k in m ==> m'[k].procs == m[k].procs
  }

  class Tree {
    var m: Jobs
    /** Jobs for which a critical section has found that they should die. */
    ghost var doomed: set<Jid>
    /** Dead jobs that have not left their parent yet. */
    ghost var leaving: set<Jid>
    /** Jobs whose Kill has not got through all their children yet. */
    ghost var killing: set<Jid>

    /** Apart from jobs whose Kill is under way, nothing below a job that is not ready is
        ready. */
    ghost predicate Valid()
      reads this
    {
      AllOk(m, doomed, leaving) && Closed(m, killing)
    }

    constructor (root: Jid)
      ensures Valid() && doomed == {} && leaving == {} && killing == {}
      ensures m == map[root := Fresh(None, ROOT_HEIGHT)]
    {
      m := map[root := Fresh(None, ROOT_HEIGHT)];
      doomed, leaving, killing := {}, {}, {};
    }

    method AddChildProcess(j: Jid, p: Pid) returns (ok: bool)
      requires Valid() && j in m && p !in m[j].procs
      modifies this
      ensures Valid() && Onward(old(m), m) && doomed == old(doomed) && leaving == old(leaving) && killing == old(killing)
      ensures ok == old(m)[j].state.Ready?
      ensures if ok then m.Keys == old(m).Keys && m[j].procs == old(m)[j].procs + {p} && m[j].jobs == old(m)[j].jobs
              else m == old(m)
      ensures m[j].state == old(m)[j].state
      ensures forall i :: i in old(m) && i != j ==> m[i] == old(m)[i]
    {
      ok := m[j].state.Ready?;
      if ok {
        var x := m[j].(procs := m[j].procs + {p}, procCount := m[j].procCount + 1);
        x := x.(noProcs := if x.procCount == 1 then false else x.noProcs, noJobs := if x.jobCount == 1 then false else x.noJobs);
        assert JobOk(m, doomed, leaving, j);
        OneJobOk(m, doomed, leaving, j, x, false);
        assert doomed - {j} == doomed;
        ClosedStill(m, m[j := x], killing);
        m := m[j := x];
      }
    }

    /** Create: a job below j, unless j is at the bottom or no longer ready. */
    method CreateChild(j: Jid, k: Jid) returns (ok: bool)
      requires Valid() && j in m && k !in m
      modifies this
      ensures Valid() && Onward(old(m), m) && doomed == old(doomed) && leaving == old(leaving) && killing == old(killing)
      ensures ok == (old(m)[j].height > 0 && old(m)[j].state.Ready?)
      ensures if ok then m.Keys == old(m).Keys + {k} && m[k] == Fresh(Some(j), old(m)[j].height - 1) && m[j].jobs == old(m)[j].jobs + {k}
              else m == old(m)
      ensures m[j].state == old(m)[j].state && m[j].procs == old(m)[j].procs
      ensures forall i :: i in old(m) && i != j ==> m[i] == old(m)[i]
    {
      assert JobOk(m, doomed, leaving, j);
      ok := m[j].height != 0 && m[j].state.Ready?;
      if ok {
        Attach(j, k);
      }
    }

    /** AddChildJob. */
    method Attach(j: Jid, k: Jid)
      requires Valid() && j in m && k !in m && m[j].state.Ready? && m[j].height > 0
      modifies this`m
      ensures Valid()
      ensures m == old(m)[j := old(m)[j].(jobs := old(m)[j].jobs + {k}, jobCount := old(m)[j].jobCount + 1, noJobs := false)]
                         [k := Fresh(Some(j), old(m)[j].height - 1)]
    {
      var x := m[j].(jobs := m[j].jobs + {k}, jobCount := m[j].jobCount + 1);
      x := x.(noProcs := if x.procCount == 1 then false else x.noProcs, noJobs := if x.jobCount == 1 then false else x.noJobs);
      var y := Fresh(Some(j), m[j].height - 1);
      AttachReady(m, doomed, leaving, killing, j, x, k, y);
      m := m[j := x][k := y];
    }

    /** The critical section of RemoveChildProcess: should the job die now? */
    method RemoveChildProcess(j: Jid, p: Pid) returns (die: bool)
      requires Valid() && j in m
      modifies this
      ensures Valid() && Onward(old(m), m) && m.Keys == old(m).Keys && leaving == old(leaving) && killing == old(killing)
      ensures m[j].procs == old(m)[j].procs - {p} && m[j].jobs == old(m)[j].jobs && m[j].state == old(m)[j].state
      ensures die <==> p in old(m)[j].procs && m[j].state.Killing? && m[j].jobs == {} && m[j].procs == {}
      ensures forall i :: i in m && i != j ==> m[i] == old(m)[i]
      ensures doomed == if die then old(doomed) + {j} else old(doomed)
      ensures die ==> j !in old(doomed)
    {
      assert JobOk(m, doomed, leaving, j);
      die := false;
      if p in m[j].procs {
        var x := m[j].(procs := m[j].procs - {p}, procCount := m[j].procCount - 1);
        x := x.(noProcs := x.noProcs || x.procCount == 0, noJobs := x.noJobs || x.jobCount == 0);
        die := x.state.Killing? && x.jobCount == 0 && x.procCount == 0;
        SizesMatter(m[j].jobs, m[j].procs, p);
        OneJobOk(m, doomed, leaving, j, x, die);
        assert j !in doomed && doomed - {j} == doomed;
        ClosedStill(m, m[j := x], killing);
        m := m[j := x];
        if die { doomed := doomed + {j}; }
      }
    }

    /** The critical section of Kill: a ready job is being killed from now on, and its
        children are noted. */
    method BeginKill(j: Jid) returns (ok: bool, die: bool, jobs: set<Jid>)
      requires Valid() && j in m
      modifies this
      ensures Valid() && Onward(old(m), m) && m.Keys == old(m).Keys && leaving == old(leaving)
      ensures ok == old(m)[j].state.Ready? && (!ok ==> m == old(m) && !die)
      ensures ok ==> m[j].state.Killing? && jobs == m[j].jobs == old(m)[j].jobs && m[j].procs == old(m)[j].procs
      ensures ok ==> (die <==> m[j].jobs == {} && m[j].procs == {})
      ensures forall k :: k in m && k != j ==> m[k] == old(m)[k]
      ensures doomed == if die then old(doomed) + {j} else old(doomed)
      ensures killing == if ok then old(killing) + {j} else old(killing)
    {
      assert JobOk(m, doomed, leaving, j);
      ok, die, jobs := m[j].state.Ready?, false, {};
      if ok {
        var x := m[j].(state := Killing);
        die := x.jobCount == 0 && x.procCount == 0;
        jobs := x.jobs;
        assert x.jobs == {} <==> |x.jobs| == 0;
        assert x.procs == {} <==> |x.procs| == 0;
        OneJobOk(m, doomed, leaving, j, x, die);
        assert j !in doomed && doomed - {j} == doomed;
        ClosedExcept(m, m[j := x], killing, j);
        m := m[j := x];
        if die { doomed := doomed + {j}; }
        killing := killing + {j};
      }
    }

    /** The critical section of FinishDeadTransitionUnlocked. Its parent is not dead. */
    method FinishDead(j: Jid)
      requires Valid() && j in m && j in doomed
      modifies this
      ensures Valid() && Onward(old(m), m) && m == old(m)[j := old(m)[j].(state := Dead, terminated := true)]
      ensures old(m)[j].state.Killing? && doomed == old(doomed) - {j} && killing == old(killing)
      ensures leaving == if m[j].parent.Some? then old(leaving) + {j} else old(leaving)
      ensures m[j].parent.Some? ==> m[j].parent.value in old(m) && !old(m)[m[j].parent.value].state.Dead?
    {
      assert JobOk(m, doomed, leaving, j);
      var x := m[j].(state := Dead, terminated := true);
      ghost var leaving' := if m[j].parent.Some? then leaving + {j} else leaving;
      DiesOk(m, doomed, leaving, j, x, leaving');
      ClosedStill(m, m[j := x], killing);
      m := m[j := x];
      doomed, leaving := doomed - {j}, leaving';
    }

    /** The critical section of RemoveChildJob, called by a dead child. */
    method LeaveParent(k: Jid) returns (die: bool)
      requires Valid() && k in m && k in leaving
      modifies this
      ensures Valid() && Onward(old(m), m) && SameProcs(old(m), m) && leaving == old(leaving) - {k} && killing == old(killing)
      ensures m[k].parent.Some? && var p := m[k].parent.value;
              && p in m && m[p].jobs == old(m)[p].jobs - {k} && m[p].state == old(m)[p].state
              && (forall i :: i in m && i != p ==> m[i] == old(m)[i])
              && doomed == (if die then old(doomed) + {p} else old(doomed))
              && (die <==> m[p].state.Killing? && m[p].jobs == {} && m[p].procs == {})
    {
      assert JobOk(m, doomed, leaving, k);
      var p := m[k].parent.value;
      assert JobOk(m, doomed, leaving, p);
      var x := m[p].(jobs := m[p].jobs - {k}, jobCount := m[p].jobCount - 1);
      x := x.(noJobs := x.noJobs || x.jobCount == 0, noProcs := x.noProcs || x.procCount == 0);
      die := x.state.Killing? && x.jobCount == 0 && x.procCount == 0;
      ghost var doomed' := if die then doomed + {p} else doomed;
      LeavesOk(m, doomed, leaving, k, p, x, doomed');
      ClosedStill(m, m[p := x], killing);
      m := m[p := x];
      doomed, leaving := doomed', leaving - {k};
    }

    // ----- the sequential operations -----

    /** FinishDeadTransitionUnlocked: a dead job leaves its parent, which may be the last
        thing the parent was waiting for. */
    method Die(j: Jid)
      requires Valid() && j in m && doomed == {j} && leaving == {}
      modifies this
      ensures Valid() && doomed == {} && leaving == {} && Onward(old(m), m)
      ensures SameProcs(old(m), m) && m[j].state.Dead? && SameReady(old(m), m) && killing == old(killing)
      decreases ROOT_HEIGHT - m[j].height
    {
      var p := DieAndLeave(j);
      if p.Some? {
        ghost var m1 := m;
        Die(p.value);
        OnwardTrans(old(m), m1, m);
        SameReadyTrans(old(m), m1, m);
      }
    }

    /** One level of it: the parent, if it is now to die as well. */
    method DieAndLeave(j: Jid) returns (p: Option<Jid>)
      requires Valid() && j in m && doomed == {j} && leaving == {}
      modifies this
      ensures Valid() && doomed == (if p.Some? then {p.value} else {}) && leaving == {} && Onward(old(m), m)
      ensures SameProcs(old(m), m) && m[j].state.Dead? && SameReady(old(m), m) && killing == old(killing)
      ensures p.Some? ==> p.value in m && m[p.value].height == m[j].height + 1 <= ROOT_HEIGHT
    {
      FinishDead(j);
      assert doomed == {};
      p := None;
      if m[j].parent.Some? {
        ghost var m1 := m;
        assert leaving == {j};
        var die := LeaveParent(j);
        assert leaving == {};
        OnwardTrans(old(m), m1, m);
        if die {
          p := m[j].parent;
          assert JobOk(m, doomed, leaving, j) && JobOk(m, doomed, leaving, p.value);
          assert doomed == {p.value};
        }
      }
    }

    /** The critical section of Kill and, if there is nothing to wait for, the death. */
    method StartKill(j: Jid) returns (ok: bool, jobs: set<Jid>, ghost m1: Jobs)
      requires Valid() && j in m && doomed == {} && leaving == {}
      modifies this
      ensures Valid() && doomed == {} && leaving == {} && m1.Keys == m.Keys && SameProcs(old(m), m)
      ensures Onward(old(m), m1) && Onward(m1, m) && ok == old(m)[j].state.Ready? && !m[j].state.Ready?
      ensures !ok ==> m == old(m) && killing == old(killing)
      ensures ok ==> killing == old(killing) + {j} && NotedChildren(m1, j, jobs)
      ensures old(m)[j].height >= (if ok && jobs != {} then 1 else 0)
      ensures forall k :: Hit(old(m), m, k) ==> k == j
    {
      var die;
      assert JobOk(m, doomed, leaving, j);
      ok, die, jobs := BeginKill(j);
      m1 := m;
      assert forall c :: c in jobs ==> JobOk(m, doomed, leaving, c);
      if ok {
        ChildrenKnown(m, doomed, j, jobs);
        if die {
          assert doomed == {j};
          Die(j);
        }
      }
    }

    /** Kill: afterwards no job below j is ready, and all others are if they were. Recursion
        ends because children are strictly lower. */
    method Kill(j: Jid) returns (ok: bool)
      requires Valid() && j in m && doomed == {} && leaving == {}
      modifies this
      ensures Valid() && doomed == {} && leaving == {} && Onward(old(m), m) && SameProcs(old(m), m)
      ensures ok == old(m)[j].state.Ready? && (!ok ==> m == old(m))
      ensures !m[j].state.Ready? && killing == old(killing)
      ensures forall k :: Hit(old(m), m, k) ==> Below(old(m), k, j, old(m)[j].height)
      decreases m[j].height, 1
    {
      var jobs;
      ghost var m1, h := map[], m[j].height;
      ok, jobs, m1 := StartKill(j);
      if ok {
        ghost var m2 := m;
        KillChildren(jobs, h);
        KillEnds(old(m), m1, m2, m, old(killing), j, jobs);
        killing := old(killing);
      }
    }

    method KillChildren(jobs: set<Jid>, ghost h: int)
      requires Valid() && doomed == {} && leaving == {}
      requires h >= 0 && forall k :: k in jobs ==> k in m && m[k].height == h - 1
      modifies this
      ensures Valid() && doomed == {} && leaving == {} && Onward(old(m), m) && SameProcs(old(m), m) && killing == old(killing)
      ensures forall k :: k in jobs ==> !m[k].state.Ready?
      ensures forall i :: Hit(old(m), m, i) ==> BelowOne(old(m), i, jobs, h - 1)
      decreases h, 0
    {
      var rest := jobs;
      while rest != {}
        invariant rest <= jobs && Valid() && doomed == {} && leaving == {} && SameProcs(old(m), m)
        invariant Onward(old(m), m) && killing == old(killing)
        invariant forall k :: k in jobs - rest ==> !m[k].state.Ready?
        invariant forall i :: Hit(old(m), m, i) ==> BelowOne(old(m), i, jobs, h - 1)
      {
        var k :| k in rest;
        rest := rest - {k};
        KillChild(k, h, old(m), jobs);
      }
    }

    method KillChild(k: Jid, ghost h: int, ghost m0: Jobs, ghost jobs: set<Jid>)
      requires Valid() && doomed == {} && leaving == {} && k in m && k in jobs && m[k].height == h - 1
      requires Onward(m0, m) && m0.Keys == m.Keys && forall i :: Hit(m0, m, i) ==> BelowOne(m0, i, jobs, h - 1)
      modifies this
      ensures Valid() && doomed == {} && leaving == {} && killing == old(killing)
      ensures Onward(old(m), m) && Onward(m0, m) && SameProcs(old(m), m) && m0.Keys == m.Keys && !m[k].state.Ready?
      ensures forall i :: Hit(m0, m, i) ==> BelowOne(m0, i, jobs, h - 1)
      decreases m[k].height, 2
    {
      var killed := Kill(k);
      HitMore(m0, old(m), m, jobs, k, h - 1);
      OnwardTrans(m0, old(m), m);
    }

    /** A job is killed while no other Kill is under way: afterwards exactly those jobs are
        ready that were and are not in its subtree. */
    method KillJob(j: Jid) returns (ok: bool)
      requires Valid() && j in m && doomed == {} && leaving == {} && killing == {}
      modifies this
      ensures Valid() && doomed == {} && leaving == {} && killing == {} && Onward(old(m), m) && SameProcs(old(m), m)
      ensures ok == old(m)[j].state.Ready? && (!ok ==> m == old(m)) && !m[j].state.Ready?
      ensures forall k :: k in m ==> (m[k].state.Ready? <==> old(m)[k].state.Ready? && !Under(old(m), k, j))
    {
      ok := Kill(j);
      forall k | k in m ensures m[k].state.Ready? <==> old(m)[k].state.Ready? && !Under(old(m), k, j) {
        Spared(old(m), m, k, j);
      }
    }
  }

  /** k is in the subtree of j. */
  ghost predicate Under(m: Jobs, k: Jid, j: Jid) {
    exists n: int :: Below(m, k, j, n)
  }

  lemma Spared(m: Jobs, m': Jobs, k: Jid, j: Jid)
    requires Onward(m, m') && m.Keys == m'.Keys && k in m && j in m && !m'[j].state.Ready? && Closed(m', {})
    requires Hit(m, m', k) ==> Below(m, k, j, m[j].height)
    ensures m'[k].state.Ready? <==> m[k].state.Ready? && !Under(m, k, j)
  {
    if Under(m, k, j) {
      var n :| Below(m, k, j, n);
      BelowAfter(m, m', k, j, n);
      SubtreeKilled(m', k, j, n);
    } else {
      assert !Hit(m, m', k);
    }
  }

  lemma {:induction false} BelowAfter(m: Jobs, m': Jobs, k: Jid, j: Jid, n: int)
    requires Onward(m, m') && m.Keys == m'.Keys && Below(m, k, j, n)
    ensures Below(m', k, j, n)
    decreases n
  {
    if k != j {
      BelowAfter(m, m', m[k].parent.value, j, n - 1);
    }
  }

  /** jobs are the children of j that are not dead. */
  ghost predicate NotedChildren(m: Jobs, j: Jid, jobs: set<Jid>) {
    && j in m
    && (forall k :: k in jobs ==> k in m && m[k].parent == Some(j) && m[k].height == m[j].height - 1)
    && (forall k :: k in m && m[k].parent == Some(j) && k !in jobs ==> m[k].state.Dead?)
  }

  /** The same jobs are ready as before. */
  ghost predicate SameReady(m: Jobs, m': Jobs) {
    m.Keys == m'.Keys && forall k :: k in m ==> m'[k].parent == m[k].parent && (m'[k].state.Ready? <==> m[k].state.Ready?)
  }

  /** Below a job that is not ready there is no ready job, unless the job is one of those
      being killed right now. */
  ghost predicate Closed(m: Jobs, but: set<Jid>) {
    forall k {:trigger ClosedAt(m, but, k)} :: k in m ==> ClosedAt(m, but, k)
  }

  ghost predicate ClosedAt(m: Jobs, but: set<Jid>, k: Jid)
    requires k in m
  {
    m[k].parent.Some? && m[k].parent.value in m && m[k].parent.value !in but && !m[m[k].parent.value].state.Ready? ==>
      !m[k].state.Ready?
  }

  lemma SameReadyTrans(a: Jobs, b: Jobs, c: Jobs)
    requires SameReady(a, b) && SameReady(b, c)
    ensures SameReady(a, c)
  {
  }

  lemma OnwardTrans(a: Jobs, b: Jobs, c: Jobs)
    requires Onward(a, b) && Onward(b, c)
    ensures Onward(a, c)
  {
  }

  /** Nobody became ready, and nobody stopped being so. */
  lemma ClosedStill(m: Jobs, m': Jobs, but: set<Jid>)
    requires Closed(m, but) && SameReady(m, m')
    ensures Closed(m', but)
  {
    forall k | k in m' ensures ClosedAt(m', but, k) {
      assert ClosedAt(m, but, k);
    }
  }

  /** A new job below a ready one. */
  lemma ClosedNew(m: Jobs, m': Jobs, doomed: set<Jid>, leaving: set<Jid>, but: set<Jid>, j: Jid, k: Jid)
    requires AllOk(m, doomed, leaving) && Closed(m, but) && j in m && m[j].state.Ready? && k !in m && m'.Keys == m.Keys + {k}
    requires m'[j].state.Ready? && m'[j].parent == m[j].parent && m'[k].parent == Some(j)
    requires forall i :: i in m && i != j ==> m'[i] == m[i]
    ensures Closed(m', but)
  {
    forall i | i in m' ensures ClosedAt(m', but, i) {
      if i != k {
        assert JobOk(m, doomed, leaving, i) && ClosedAt(m, but, i);
      }
    }
  }

  /** All that has to be seen to when k is attached below j. */
  lemma AttachReady(m: Jobs, doomed: set<Jid>, leaving: set<Jid>, but: set<Jid>, j: Jid, x: Job, k: Jid, y: Job)
    requires AllOk(m, doomed, leaving) && Closed(m, but) && j in m && k !in m && m[j].state.Ready? && m[j].height > 0
    requires x == m[j].(jobs := m[j].jobs + {k}, jobCount := m[j].jobCount + 1,
                        noProcs := if m[j].procCount == 1 then false else m[j].noProcs,
                        noJobs := if m[j].jobCount + 1 == 1 then false else m[j].noJobs)
    requires y == Fresh(Some(j), m[j].height - 1)
    ensures x == m[j].(jobs := m[j].jobs + {k}, jobCount := m[j].jobCount + 1, noJobs := false)
    ensures AllOk(m[j := x][k := y], doomed, leaving) && Closed(m[j := x][k := y], but)
  {
    assert JobOk(m, doomed, leaving, j);
    if k in m[j].jobs {
      assert false;
    }
    SignalsCleared(m, j, k, x);
    NewJobOk(m, doomed, leaving, j, x, k, y);
    ClosedNew(m, m[j := x][k := y], doomed, leaving, but, j, k);
  }

  lemma ClosedExcept(m: Jobs, m': Jobs, but: set<Jid>, j: Jid)
    requires Closed(m, but) && m.Keys == m'.Keys && j in m && m'[j].parent == m[j].parent && m[j].state.Ready? && !m'[j].state.Ready?
    requires forall k :: k in m && k != j ==> m'[k] == m[k]
    ensures Closed(m', but + {j})
  {
    forall k | k in m' ensures ClosedAt(m', but + {j}, k) {
      assert ClosedAt(m, but, k);
    }
  }

  /** The children Kill took note of are all those that are not dead. */
  lemma ChildrenKnown(m: Jobs, doomed: set<Jid>, j: Jid, jobs: set<Jid>)
    requires AllOk(m, doomed, {}) && j in m && jobs == m[j].jobs
    ensures NotedChildren(m, j, jobs)
  {
    assert JobOk(m, doomed, {}, j);
    forall k | k in m && m[k].parent == Some(j)
      ensures m[k].height == m[j].height - 1 && (k !in jobs ==> m[k].state.Dead?)
    {
      assert JobOk(m, doomed, {}, k);
    }
  }

  lemma ClosedNow(m1: Jobs, m: Jobs, but: set<Jid>, j: Jid, jobs: set<Jid>)
    requires Closed(m, but + {j}) && Onward(m1, m) && m.Keys == m1.Keys
    requires NotedChildren(m1, j, jobs) && forall k :: k in jobs ==> k in m && !m[k].state.Ready?
    ensures Closed(m, but)
  {
    forall k | k in m ensures ClosedAt(m, but, k) {
      assert ClosedAt(m, but + {j}, k);
      assert m[k].parent == Some(j) ==> m1[k].parent == Some(j);
    }
  }

  /** k is j, or reached from it in at most n steps down. */
  ghost predicate Below(m: Jobs, k: Jid, j: Jid, n: int)
    decreases n
  {
    k in m && (k == j || (n > 0 && m[k].parent.Some? && Below(m, m[k].parent.value, j, n - 1)))
  }

  ghost predicate BelowOne(m: Jobs, k: Jid, jobs: set<Jid>, n: int) {
    exists c :: c in jobs && Below(m, k, c, n)
  }

  /** k was ready and is not any more. */
  ghost predicate Hit(m: Jobs, m': Jobs, k: Jid) {
    k in m && k in m' && m[k].state.Ready? && !m'[k].state.Ready?
  }

  /** What is below a child is below its parent. */
  lemma {:induction false} BelowChild(m: Jobs, k: Jid, c: Jid, j: Jid, n: int)
    requires n >= 0 && Below(m, k, c, n) && c in m && m[c].parent == Some(j) && j in m
    ensures Below(m, k, j, n + 1)
    decreases n
  {
    if k == c {
      assert Below(m, j, j, n);
    } else {
      BelowChild(m, m[k].parent.value, c, j, n - 1);
    }
  }

  /** Nobody gets another parent. */
  lemma {:induction false} BelowBefore(m: Jobs, m': Jobs, k: Jid, j: Jid, n: int)
    requires Onward(m, m') && m.Keys == m'.Keys && Below(m', k, j, n)
    ensures Below(m, k, j, n)
    decreases n
  {
    if k != j {
      BelowBefore(m, m', m[k].parent.value, j, n - 1);
    }
  }

  lemma HitMore(m0: Jobs, m1: Jobs, m2: Jobs, jobs: set<Jid>, c: Jid, n: int)
    requires Onward(m0, m1) && m0.Keys == m1.Keys == m2.Keys && c in jobs
    requires forall i :: Hit(m0, m1, i) ==> BelowOne(m0, i, jobs, n)
    requires forall i :: Hit(m1, m2, i) ==> Below(m1, i, c, n)
    ensures forall i :: Hit(m0, m2, i) ==> BelowOne(m0, i, jobs, n)
  {
    forall i | Hit(m0, m2, i) ensures BelowOne(m0, i, jobs, n) {
      if Hit(m0, m1, i) {
        assert BelowOne(m0, i, jobs, n);
      } else {
        assert Hit(m1, m2, i);
        BelowBefore(m0, m1, i, c, n);
      }
    }
  }

  lemma HitBelow(m0: Jobs, m1: Jobs, m2: Jobs, j: Jid, jobs: set<Jid>, h: int)
    requires Onward(m0, m1) && m0.Keys == m1.Keys == m2.Keys && j in m0 && h >= 0
    requires forall c :: c in jobs ==> c in m0 && m0[c].parent == Some(j) && h > 0
    requires forall i :: Hit(m0, m1, i) ==> i == j
    requires forall i :: Hit(m1, m2, i) ==> BelowOne(m1, i, jobs, h - 1)
    ensures forall i :: Hit(m0, m2, i) ==> Below(m0, i, j, h)
  {
    forall i | Hit(m0, m2, i) ensures Below(m0, i, j, h) {
      if i != j {
        assert !Hit(m0, m1, i) && Hit(m1, m2, i);
        assert BelowOne(m1, i, jobs, h - 1);
        var c :| c in jobs && Below(m1, i, c, h - 1);
        BelowBefore(m0, m1, i, c, h - 1);
        BelowChild(m0, i, c, j, h - 1);
      }
    }
  }

  /** Kill has marked j (m1), let it die if there was nothing to wait for (m2), and gone
      through the children it had noted. */
  lemma KillEnds(m0: Jobs, m1: Jobs, m2: Jobs, m: Jobs, but: set<Jid>, j: Jid, jobs: set<Jid>)
    requires Onward(m0, m1) && Onward(m1, m2) && Onward(m2, m) && m0.Keys == m1.Keys == m2.Keys == m.Keys
    requires NotedChildren(m1, j, jobs) && m0[j].height >= if jobs != {} then 1 else 0
    requires Closed(m, but + {j}) && forall c :: c in jobs ==> c in m && !m[c].state.Ready?
    requires forall i :: Hit(m0, m2, i) ==> i == j
    requires forall i :: Hit(m2, m, i) ==> BelowOne(m2, i, jobs, m0[j].height - 1)
    ensures Onward(m0, m) && Closed(m, but) && forall i :: Hit(m0, m, i) ==> Below(m0, i, j, m0[j].height)
  {
    OnwardTrans(m0, m1, m2);
    OnwardTrans(m0, m2, m);
    OnwardTrans(m1, m2, m);
    ClosedNow(m1, m, but, j, jobs);
    HitBelow(m0, m2, m, j, jobs, m0[j].height);
  }

  /** Kill leaves no ready job anywhere in the subtree. */
  lemma {:induction false} SubtreeKilled(m: Jobs, k: Jid, j: Jid, n: int)
    requires Closed(m, {}) && j in m && !m[j].state.Ready? && Below(m, k, j, n)
    ensures !m[k].state.Ready?
    decreases n
  {
    if k != j {
      assert ClosedAt(m, {}, k);
      SubtreeKilled(m, m[k].parent.value, j, n - 1);
    }
  }

  lemma SignalsCleared(m: Jobs, j: Jid, k: Jid, x: Job)
    requires j in m && CountsOk(m[j]) && k !in m[j].jobs
    requires x == m[j].(jobs := m[j].jobs + {k}, jobCount := m[j].jobCount + 1,
                        noProcs := if m[j].procCount == 1 then false else m[j].noProcs,
                        noJobs := if m[j].jobCount + 1 == 1 then false else m[j].noJobs)
    ensures x == m[j].(jobs := m[j].jobs + {k}, jobCount := m[j].jobCount + 1, noJobs := false)
  {
    assert m[j].jobs == {} <==> |m[j].jobs| == 0;
    assert m[j].procs == {} <==> |m[j].procs| == 0;
  }

  lemma SizesMatter(jobs: set<Jid>, procs: set<Pid>, p: Pid)
    requires p in procs
    ensures |procs - {p}| == |procs| - 1 && (procs - {p} == {} <==> |procs| == 1) && (jobs == {} <==> |jobs| == 0)
  {
    assert procs - {p} == {} <==> |procs - {p}| == 0;
  }
}
