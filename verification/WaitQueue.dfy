/** The two-level wait queue of kernel/kernel/wait.cc: a list of priority classes, highest
    first, each a list of threads whose first element is the head of its class. Every
    operation is proved equal to the operation on the single list of PriorityList. */
module WaitQueue {
  import opened PriorityList

  type Class = seq<Tid>

  /** The threads in the order in which they will be woken. */
  function Flat(rows: seq<Class>): seq<Tid> {
    if rows == [] then [] else rows[0] + Flat(rows[1..])
  }

  /** What wait_queue_validate_queue checks: one priority to a class, highest first. */
  ghost predicate Classes(prio: Tid -> int, rows: seq<Class>) {
    && (forall i :: 0 <= i < |rows| ==> rows[i] != [] && OneClass(prio, rows[i]))
    && (forall i, j :: 0 <= i < j < |rows| ==> prio(rows[i][0]) > prio(rows[j][0]))
  }

  /** And no thread is queued twice. */
  ghost predicate ValidRows(prio: Tid -> int, rows: seq<Class>) {
    Classes(prio, rows) && Distinct(Flat(rows))
  }

  ghost predicate OneClass(prio: Tid -> int, row: Class) {
    row != [] ==> forall u :: u in row ==> prio(u) == prio(row[0])
  }

  // ----- the flat view -----

  lemma {:induction false} FlatConcat(a: seq<Class>, b: seq<Class>)
    ensures Flat(a + b) == Flat(a) + Flat(b)
  {
    if a == [] {
      assert a + b == b;
    } else {
      FlatConcat(a[1..], b);
      assert (a + b)[1..] == a[1..] + b;
    }
  }

  lemma FlatAround(rows: seq<Class>, i: nat)
    requires i < |rows|
    ensures Flat(rows) == Flat(rows[..i]) + rows[i] + Flat(rows[i + 1..])
  {
    var a, b := rows[..i], rows[i..];
    assert b[0] == rows[i] && b[1..] == rows[i + 1..];
    assert Flat(b) == rows[i] + Flat(rows[i + 1..]);
    FlatConcat(a, b);
    assert rows == a + b;
    Joined(Flat(a), rows[i], Flat(rows[i + 1..]));
  }

  lemma Joined(a: seq<Tid>, b: seq<Tid>, c: seq<Tid>)
    ensures a + (b + c) == a + b + c
  {
  }

  lemma FlatWith(a: seq<Class>, row: Class, b: seq<Class>)
    ensures Flat(a + [row] + b) == Flat(a) + row + Flat(b)
  {
    var rows := a + [row] + b;
    FlatAround(rows, |a|);
    assert rows[..|a|] == a && rows[|a| + 1..] == b;
  }

  lemma {:induction false} ClassOf(rows: seq<Class>, u: Tid) returns (i: int)
    requires u in Flat(rows)
    ensures 0 <= i < |rows| && u in rows[i]
  {
    if u in rows[0] {
      i := 0;
    } else {
      i := ClassOf(rows[1..], u);
      i := i + 1;
    }
  }

  lemma InFlat(rows: seq<Class>, i: int, u: Tid)
    requires 0 <= i < |rows| && u in rows[i]
    ensures u in Flat(rows)
  {
    FlatAround(rows, i);
  }

  lemma DistinctParts(a: seq<Tid>, b: seq<Tid>)
    requires Distinct(a + b)
    ensures Distinct(a) && Distinct(b) && forall u :: u in a ==> u !in b
  {
    var l := a + b;
    assert forall i :: 0 <= i < |a| ==> a[i] == l[i];
    assert forall j :: 0 <= j < |b| ==> b[j] == l[|a| + j];
  }

  lemma TailValid(prio: Tid -> int, rows: seq<Class>)
    requires ValidRows(prio, rows) && rows != []
    ensures ValidRows(prio, rows[1..])
    ensures forall u :: u in Flat(rows[1..]) ==> prio(u) < prio(rows[0][0]) && u !in rows[0]
  {
    DistinctParts(rows[0], Flat(rows[1..]));
    forall u | u in Flat(rows[1..]) ensures prio(u) < prio(rows[0][0]) {
      var i := ClassOf(rows[1..], u);
      assert u in rows[i + 1];
    }
  }

  /** Refinement: a valid two-level queue is a sorted list without repetition. */
  lemma {:induction false} FlatSorted(prio: Tid -> int, rows: seq<Class>)
    requires ValidRows(prio, rows)
    ensures Sorted(prio, Flat(rows)) && Distinct(Flat(rows))
    ensures Head(prio, Flat(rows)) == if rows == [] then -1 else prio(rows[0][0])
  {
    if rows != [] {
      TailValid(prio, rows);
      FlatSorted(prio, rows[1..]);
      var a, b := rows[0], Flat(rows[1..]);
      forall i, j | 0 <= i < j < |a + b| ensures prio((a + b)[i]) >= prio((a + b)[j]) {
        if i < |a| { assert a[i] in a; }
        if j < |a| { assert a[j] in a; } else { assert b[j - |a|] in b; }
      }
    }
  }

  /** And the list determines it: two valid queues with the same order are the same. */
  lemma {:induction false} FlatInjective(prio: Tid -> int, rows: seq<Class>, rows': seq<Class>)
    requires ValidRows(prio, rows) && ValidRows(prio, rows') && Flat(rows) == Flat(rows')
    ensures rows == rows'
  {
    if rows != [] && rows' != [] {
      var a, b, a', b' := rows[0], Flat(rows[1..]), rows'[0], Flat(rows'[1..]);
      TailValid(prio, rows);
      TailValid(prio, rows');
      assert (a + b)[0] == (a' + b')[0];
      FirstClass(prio, a, b, a', b');
      FirstClass(prio, a', b', a, b);
      assert a == (a + b)[..|a|] && b == (a + b)[|a|..];
      assert a' == (a' + b')[..|a|] && b' == (a' + b')[|a|..];
      FlatInjective(prio, rows[1..], rows'[1..]);
      assert rows == [a] + rows[1..] && rows' == [a'] + rows'[1..];
    }
  }

  lemma FirstClass(prio: Tid -> int, a: seq<Tid>, b: seq<Tid>, a': seq<Tid>, b': seq<Tid>)
    requires a + b == a' + b' && a != [] && a' != [] && OneClass(prio, a) && a[0] == a'[0]
    requires forall u :: u in b' ==> prio(u) < prio(a'[0])
    ensures |a| <= |a'|
  {
    forall k | 0 <= k < |a| ensures prio((a + b)[k]) == prio(a[0]) {
      assert a[k] in a;
    }
    assert b' != [] ==> (a' + b')[|a'|] == b'[0] && b'[0] in b';
  }

  // ----- insertion -----

  lemma {:induction false} InsertBetween(prio: Tid -> int, x: seq<Tid>, y: seq<Tid>, t: Tid)
    requires forall u :: u in x ==> prio(u) >= prio(t)
    requires y != [] ==> prio(y[0]) < prio(t)
    ensures Insert(prio, x + y, t) == x + [t] + y
  {
    if x == [] {
      assert x + y == y;
    } else {
      assert x[0] in x;
      assert (x + y)[1..] == x[1..] + y;
      InsertBetween(prio, x[1..], y, t);
    }
  }

  /** Position i is where t belongs: every class before it is more urgent. */
  ghost predicate Place(prio: Tid -> int, rows: seq<Class>, i: int, t: Tid) {
    && 0 <= i <= |rows|
    && forall k :: 0 <= k < i ==> rows[k] != [] && prio(rows[k][0]) > prio(t)
  }

  lemma BeforeIsUrgent(prio: Tid -> int, rows: seq<Class>, i: int, t: Tid)
    requires ValidRows(prio, rows) && Place(prio, rows, i, t)
    ensures forall u :: u in Flat(rows[..i]) ==> prio(u) > prio(t)
  {
    forall u | u in Flat(rows[..i]) ensures prio(u) > prio(t) {
      var k := ClassOf(rows[..i], u);
      assert u in rows[k];
    }
  }

  lemma NewClassFlat(prio: Tid -> int, rows: seq<Class>, i: int, t: Tid)
    requires ValidRows(prio, rows) && Place(prio, rows, i, t)
    requires i < |rows| ==> prio(t) > prio(rows[i][0])
    ensures Flat(rows[..i] + [[t]] + rows[i..]) == Insert(prio, Flat(rows), t)
  {
    var a, b := rows[..i], rows[i..];
    assert rows == a + b;
    BeforeIsUrgent(prio, rows, i, t);
    if i < |rows| {
      assert b[0] == rows[i] && rows[i] != [];
    }
    BetweenClasses(prio, a, b, t);
  }

  lemma BetweenClasses(prio: Tid -> int, a: seq<Class>, b: seq<Class>, t: Tid)
    requires forall u :: u in Flat(a) ==> prio(u) > prio(t)
    requires b != [] ==> b[0] != [] && prio(t) > prio(b[0][0])
    ensures Flat(a + [[t]] + b) == Insert(prio, Flat(a + b), t)
  {
    FlatWith(a, [t], b);
    FlatConcat(a, b);
    InsertBetween(prio, Flat(a), Flat(b), t);
  }

  lemma NewClass(prio: Tid -> int, rows: seq<Class>, i: int, t: Tid)
    requires ValidRows(prio, rows) && Place(prio, rows, i, t) && t !in Flat(rows)
    requires i < |rows| ==> prio(t) > prio(rows[i][0])
    ensures var rows' := rows[..i] + [[t]] + rows[i..];
            ValidRows(prio, rows') && Flat(rows') == Insert(prio, Flat(rows), t)
  {
    NewClassFlat(prio, rows, i, t);
    InsertDistinct(prio, rows, t);
    NewClassInOrder(prio, rows, i, t);
  }

  lemma NewClassInOrder(prio: Tid -> int, rows: seq<Class>, i: int, t: Tid)
    requires Classes(prio, rows) && Place(prio, rows, i, t)
    requires i < |rows| ==> prio(t) > prio(rows[i][0])
    ensures Classes(prio, rows[..i] + [[t]] + rows[i..])
  {
    var rows' := rows[..i] + [[t]] + rows[i..];
    assert forall k :: 0 <= k < |rows'| ==>
             rows'[k] == if k < i then rows[k] else if k == i then [t] else rows[k - 1];
  }

  lemma InsertDistinct(prio: Tid -> int, rows: seq<Class>, t: Tid)
    requires ValidRows(prio, rows) && t !in Flat(rows)
    ensures Distinct(Insert(prio, Flat(rows), t))
  {
    FlatSorted(prio, rows);
    InsertKeepsOrder(prio, Flat(rows), t);
  }

  lemma JoinClass(prio: Tid -> int, rows: seq<Class>, i: int, t: Tid)
    requires ValidRows(prio, rows) && Place(prio, rows, i, t) && t !in Flat(rows)
    requires i < |rows| && prio(t) == prio(rows[i][0])
    ensures var rows' := rows[i := rows[i] + [t]];
            ValidRows(prio, rows') && Flat(rows') == Insert(prio, Flat(rows), t)
  {
    var rows' := rows[i := rows[i] + [t]];
    var x, y := Flat(rows[..i]), Flat(rows[i + 1..]);
    FlatAround(rows, i);
    FlatAround(rows', i);
    assert rows'[..i] == rows[..i] && rows'[i + 1..] == rows[i + 1..];
    BeforeIsUrgent(prio, rows, i, t);
    AfterIsLater(prio, rows, i);
    InsertBetween(prio, x + rows[i], y, t);
    assert x + rows[i] + [t] + y == x + (rows[i] + [t]) + y;
    InsertDistinct(prio, rows, t);
  }

  lemma AfterIsLater(prio: Tid -> int, rows: seq<Class>, i: nat)
    requires ValidRows(prio, rows) && i < |rows|
    ensures Flat(rows[i + 1..]) != [] ==> prio(Flat(rows[i + 1..])[0]) < prio(rows[i][0])
  {
    if i + 1 < |rows| {
      assert Flat(rows[i + 1..])[0] == rows[i + 1][0];
    }
  }

  // ----- removal -----

  lemma {:induction false} WithoutOne(row: seq<Tid>, j: nat)
    requires Distinct(row) && j < |row|
    ensures Without(row, row[j]) == row[..j] + row[j + 1..]
  {
    if j == 0 {
      assert forall i :: 0 <= i < |row[1..]| ==> row[1..][i] == row[i + 1];
      WithoutMembers(row[1..], row[0]);
    } else {
      WithoutOne(row[1..], j - 1);
      assert [row[0]] + (row[1..][..j - 1] + row[1..][j..]) == row[..j] + row[j + 1..];
    }
  }

  lemma WithoutMiddle(x: seq<Tid>, row: seq<Tid>, y: seq<Tid>, j: nat)
    requires Distinct(x + row + y) && j < |row|
    ensures Without(x + row + y, row[j]) == x + (row[..j] + row[j + 1..]) + y
  {
    DistinctParts(x + row, y);
    DistinctParts(x, row);
    WithoutConcat(x + row, y, row[j]);
    WithoutConcat(x, row, row[j]);
    assert row[j] in x + row;
    WithoutMembers(x, row[j]);
    WithoutMembers(y, row[j]);
    WithoutOne(row, j);
  }

  /** The queue after row i lost its element j. */
  function Cut(rows: seq<Class>, i: int, j: int): seq<Class>
    requires 0 <= i < |rows| && 0 <= j < |rows[i]|
  {
    if |rows[i]| == 1 then rows[..i] + rows[i + 1..]
    else rows[i := rows[i][..j] + rows[i][j + 1..]]
  }

  lemma CutFlat(rows: seq<Class>, i: int, j: int)
    requires Distinct(Flat(rows)) && 0 <= i < |rows| && 0 <= j < |rows[i]|
    ensures Flat(Cut(rows, i, j)) == Without(Flat(rows), rows[i][j])
  {
    var x, y := Flat(rows[..i]), Flat(rows[i + 1..]);
    FlatAround(rows, i);
    WithoutMiddle(x, rows[i], y, j);
    if |rows[i]| == 1 {
      FlatConcat(rows[..i], rows[i + 1..]);
      assert x + (rows[i][..j] + rows[i][j + 1..]) + y == x + y;
    } else {
      var rows' := Cut(rows, i, j);
      FlatAround(rows', i);
      assert rows'[..i] == rows[..i] && rows'[i + 1..] == rows[i + 1..];
    }
  }

  lemma CutValid(prio: Tid -> int, rows: seq<Class>, i: int, j: int)
    requires ValidRows(prio, rows) && 0 <= i < |rows| && 0 <= j < |rows[i]|
    ensures ValidRows(prio, Cut(rows, i, j))
  {
    CutFlat(rows, i, j);
    WithoutKeepsDistinct(Flat(rows), rows[i][j]);
    CutClasses(prio, rows, i, j);
  }

  lemma CutClasses(prio: Tid -> int, rows: seq<Class>, i: int, j: int)
    requires Classes(prio, rows) && 0 <= i < |rows| && 0 <= j < |rows[i]|
    ensures Classes(prio, Cut(rows, i, j))
  {
    var rows' := Cut(rows, i, j);
    if |rows[i]| == 1 {
      assert forall k :: 0 <= k < |rows'| ==> rows'[k] == if k < i then rows[k] else rows[k + 1];
    } else {
      assert rows'[i][0] in rows[i];
      assert forall u :: u in rows'[i] ==> u in rows[i];
    }
  }

  /** Only the priorities of queued threads matter. */
  lemma ValidLocal(p: Tid -> int, p': Tid -> int, rows: seq<Class>)
    requires ValidRows(p, rows) && forall u :: u in Flat(rows) ==> p(u) == p'(u)
    ensures ValidRows(p', rows)
  {
    forall i, u | 0 <= i < |rows| && u in rows[i] ensures p(u) == p'(u) {
      InFlat(rows, i, u);
    }
    assert forall i :: 0 <= i < |rows| ==> rows[i][0] in rows[i];
  }

  /** The head of the first class is the front of the list, and nobody is more urgent. */
  lemma FrontIsHead(prio: Tid -> int, rows: seq<Class>)
    requires ValidRows(prio, rows) && rows != []
    ensures var l, t := Flat(rows), rows[0][0];
            l == [t] + Without(l, t) && t in l && forall u :: u in l ==> prio(u) <= prio(t)
  {
    FlatSorted(prio, rows);
    var l := Flat(rows);
    WithoutOne(l, 0);
    forall u | u in l ensures prio(u) <= prio(l[0]) {
      var i :| 0 <= i < |l| && l[i] == u;
    }
  }

  // ----- the object -----

  class Queue {
    var rows: seq<Class>
    var count: nat

    ghost predicate Valid(prio: Tid -> int)
      reads this
    {
      ValidRows(prio, rows) && count == |Flat(rows)|
    }

    ghost function Order(): seq<Tid>
      reads this
    {
      Flat(rows)
    }

    constructor ()
      ensures forall prio :: Valid(prio)
      ensures Order() == []
    {
      rows, count := [], 0;
    }

    /** wait_queue_blocked_priority. */
    method BlockedPriority(prio: Tid -> int) returns (p: int)
      requires Valid(prio)
      ensures p == Head(prio, Order())
    {
      FlatSorted(prio, rows);
      p := if rows == [] then -1 else prio(rows[0][0]);
    }

    /** wait_queue_insert, with the count its callers keep. */
    method Add(prio: Tid -> int, t: Tid)
      requires Valid(prio) && t !in Order()
      modifies this
      ensures Valid(prio) && Order() == Insert(prio, old(Order()), t)
    {
      InsertMembers(prio, Flat(rows), t);
      var i := 0;
      while i < |rows|
        invariant Place(prio, rows, i, t)
        invariant Valid(prio) && rows == old(rows) && count == old(count)
      {
        if prio(t) > prio(rows[i][0]) {
          break;
        } else if prio(rows[i][0]) == prio(t) {
          JoinClass(prio, rows, i, t);
          rows := rows[i := rows[i] + [t]];
          count := count + 1;
          return;
        }
        i := i + 1;
      }
      NewClass(prio, rows, i, t);
      rows := rows[..i] + [[t]] + rows[i..];
      count := count + 1;
    }

    /** wait_queue_remove_head: the next thread of the class becomes its head, or the
        class disappears. */
    method RemoveHead(ghost prio: Tid -> int, i: int)
      requires ValidRows(prio, rows) && 0 <= i < |rows|
      modifies this`rows
      ensures rows == Cut(old(rows), i, 0)
    {
      if |rows[i]| == 1 {
        rows := rows[..i] + rows[i + 1..];
      } else {
        var newHead := rows[i][1];
        assert [newHead] + rows[i][2..] == rows[i][..0] + rows[i][1..];
        rows := rows[i := [newHead] + rows[i][2..]];
      }
    }

    /** wait_queue_remove_thread. The priorities are those by which t was queued. */
    method Remove(ghost prio: Tid -> int, t: Tid)
      requires Valid(prio) && t in Order()
      modifies this
      ensures Valid(prio) && Order() == Without(old(Order()), t)
    {
      ghost var k := ClassOf(rows, t);
      var i :| 0 <= i < |rows| && t in rows[i];
      var j :| 0 <= j < |rows[i]| && rows[i][j] == t;
      RemoveAt(prio, i, j);
    }

    method RemoveAt(ghost prio: Tid -> int, i: int, j: int)
      requires Valid(prio) && 0 <= i < |rows| && 0 <= j < |rows[i]|
      modifies this
      ensures Valid(prio) && rows == Cut(old(rows), i, j)
      ensures Order() == Without(old(Order()), old(rows[i][j]))
    {
      CutFlat(rows, i, j);
      CutValid(prio, rows, i, j);
      InFlat(rows, i, rows[i][j]);
      WithoutKeepsDistinct(Flat(rows), rows[i][j]);
      if j > 0 {
        rows := rows[i := rows[i][..j] + rows[i][j + 1..]];
      } else {
        RemoveHead(prio, i);
      }
      count := count - 1;
    }

    /** wait_queue_dequeue_one: the longest waiting thread of the highest priority. */
    method DequeueOne(prio: Tid -> int) returns (t: seq<Tid>)
      requires Valid(prio)
      modifies this
      ensures Valid(prio) && old(Order()) == t + Order()
      ensures |t| == 1 || (t == [] && old(Order()) == [])
      ensures forall u :: u in old(Order()) && t != [] ==> prio(u) <= prio(t[0])
    {
      if rows == [] {
        return [];
      }
      t := [rows[0][0]];
      FrontIsHead(prio, rows);
      Remove(prio, t[0]);
    }

    /** wait_queue_wake_all: everybody, in order. */
    method WakeAll(prio: Tid -> int) returns (woken: seq<Tid>)
      requires Valid(prio)
      modifies this
      ensures woken == old(Order()) && Order() == [] && count == 0
    {
      woken := [];
      while rows != []
        invariant Valid(prio) && woken + Order() == old(Order())
        decreases count
      {
        assert rows[0][0] in Order();
        var t := DequeueOne(prio);
        Joined(woken, t, Order());
        woken := woken + t;
      }
    }

    /** wait_queue_priority_changed: t already has its new priority. The result is the
        pressure the queue had before, also when t itself was in front. */
    method PriorityChanged(prio: Tid -> int, t: Tid, oldPrio: int, ghost oldPrios: Tid -> int)
      returns (oldPressure: int)
      requires Valid(oldPrios) && t in Order() && oldPrios(t) == oldPrio
      requires forall u :: u != t ==> prio(u) == oldPrios(u)
      modifies this
      ensures Valid(prio) && Order() == Insert(prio, Without(old(Order()), t), t)
      ensures oldPressure == Head(oldPrios, old(Order()))
    {
      FlatSorted(oldPrios, rows);
      WithoutMembers(Flat(rows), t);
      oldPressure := if rows[0][0] == t then oldPrio else prio(rows[0][0]);
      Remove(oldPrios, t);
      ValidLocal(oldPrios, prio, rows);
      Add(prio, t);
    }
  }

  /** wait_queue_move_thread. */
  method MoveThread(source: Queue, dest: Queue, prio: Tid -> int, t: Tid)
    requires source != dest && source.Valid(prio) && dest.Valid(prio)
    requires t in source.Order() && t !in dest.Order()
    modifies source, dest
    ensures source.Valid(prio) && dest.Valid(prio)
    ensures source.Order() == Without(old(source.Order()), t)
    ensures dest.Order() == Insert(prio, old(dest.Order()), t)
  {
    source.Remove(prio, t);
    dest.Add(prio, t);
  }
}
