/** OwnedWaitQueue::ForeachThread: a walk over a wait queue whose visitor may take the
    visited thread out of the queue. */
module QueueWalk {
  import opened PriorityList
  import opened WaitQueue

  datatype Visit = Visit(remove: bool, go: bool)

  /** The threads a visitor gets to see when the queue holds l. */
  function Seen(l: seq<Tid>, visit: Tid -> Visit): seq<Tid> {
    if l == [] then [] else if visit(l[0]).go then [l[0]] + Seen(l[1..], visit) else [l[0]]
  }

  /** Those that are left in the queue afterwards. */
  function Kept(l: seq<Tid>, visit: Tid -> Visit): seq<Tid> {
    if l == [] then []
    else
      var rest := if visit(l[0]).go then Kept(l[1..], visit) else l[1..];
      if visit(l[0]).remove then rest else [l[0]] + rest
  }

  /** Whom the visitor sees: everybody up to the first one at whom it stops, which it sees too. */
  lemma {:induction false} SeenIs(l: seq<Tid>, visit: Tid -> Visit) returns (n: nat)
    ensures n <= |l| && Seen(l, visit) == l[..n] && (n == 0 <==> l == [])
    ensures forall i :: 0 <= i < n - 1 ==> visit(l[i]).go
    ensures n < |l| ==> !visit(l[n - 1]).go
  {
    if l == [] {
      n := 0;
    } else if visit(l[0]).go {
      n := SeenIs(l[1..], visit);
      assert l[..n + 1] == [l[0]] + l[1..][..n];
      assert forall i :: 1 <= i <= n ==> l[i] == l[1..][i - 1];
      n := n + 1;
    } else {
      n := 1;
      assert l[..1] == [l[0]];
    }
  }

  /** Who is left: all but those it saw and took out, in the same order. */
  lemma {:induction false} KeptIs(l: seq<Tid>, visit: Tid -> Visit)
    requires Distinct(l)
    ensures forall t :: t in Kept(l, visit) <==> t in l && !(t in Seen(l, visit) && visit(t).remove)
    ensures Subsequence(Kept(l, visit), l)
  {
    if l != [] {
      TailMembers(l);
      assert l == [l[0]] + l[1..];
      var rest := if visit(l[0]).go then Kept(l[1..], visit) else l[1..];
      if visit(l[0]).go {
        KeptIs(l[1..], visit);
        var n := SeenIs(l[1..], visit);
      } else {
        SubSame(l[1..]);
      }
      if visit(l[0]).remove {
        SubLater(rest, l);
      } else {
        assert Kept(l, visit)[1..] == rest;
      }
    }
  }

  predicate AllGo(l: seq<Tid>, visit: Tid -> Visit) {
    forall t :: t in l ==> visit(t).go
  }

  lemma {:induction false} SeenConcat(a: seq<Tid>, b: seq<Tid>, visit: Tid -> Visit)
    requires AllGo(a, visit)
    ensures Seen(a + b, visit) == a + Seen(b, visit)
  {
    if a == [] {
      assert a + b == b;
    } else {
      assert a[0] in a && (a + b)[1..] == a[1..] + b;
      SeenConcat(a[1..], b, visit);
      Assoc([a[0]], a[1..], Seen(b, visit));
      assert [a[0]] + a[1..] == a;
    }
  }

  lemma {:induction false} KeptConcat(a: seq<Tid>, b: seq<Tid>, visit: Tid -> Visit)
    requires AllGo(a, visit)
    ensures Kept(a + b, visit) == Kept(a, visit) + Kept(b, visit)
  {
    if a == [] {
      assert a + b == b;
    } else {
      assert a[0] in a && (a + b)[1..] == a[1..] + b;
      KeptConcat(a[1..], b, visit);
      Assoc([a[0]], Kept(a[1..], visit), Kept(b, visit));
    }
  }

  lemma {:induction false} WalkStops(a: seq<Tid>, b: seq<Tid>, visit: Tid -> Visit)
    requires !AllGo(a, visit)
    ensures Seen(a + b, visit) == Seen(a, visit)
    ensures Kept(a + b, visit) == Kept(a, visit) + b
  {
    assert a != [];
    assert (a + b)[1..] == a[1..] + b;
    if visit(a[0]).go {
      assert forall t :: t in a ==> t == a[0] || t in a[1..];
      WalkStops(a[1..], b, visit);
      Assoc([a[0]], Kept(a[1..], visit), b);
    } else {
      Assoc([a[0]], a[1..], b);
    }
  }

  /** The first k threads of row have been visited, and all of them said to go on. */
  ghost predicate Walked(row: seq<Tid>, visit: Tid -> Visit, k: int, cur: seq<Tid>) {
    0 <= k <= |row| && AllGo(row[..k], visit) && cur == Kept(row[..k], visit) + row[k..]
  }

  lemma KeptOneMore(row: seq<Tid>, visit: Tid -> Visit, k: int)
    requires 0 <= k < |row| && AllGo(row[..k], visit)
    ensures Kept(row[..k + 1], visit) == if visit(row[k]).remove then Kept(row[..k], visit) else Kept(row[..k], visit) + [row[k]]
    ensures visit(row[k]).go ==> AllGo(row[..k + 1], visit)
  {
    assert row[..k + 1] == row[..k] + [row[k]];
    KeptConcat(row[..k], [row[k]], visit);
    assert [row[k]][1..] == [];
    assert Kept([row[k]], visit) == if visit(row[k]).remove then [] else [row[k]];
  }

  lemma WalkStep(row: seq<Tid>, visit: Tid -> Visit, k: int, cur: seq<Tid>, j: int)
    requires Walked(row, visit, k, cur) && k < |row| && j == |Kept(row[..k], visit)|
    ensures j < |cur| && cur[j] == row[k]
    ensures visit(row[k]).go ==> Walked(row, visit, k + 1, After(cur, j, visit))
    ensures !visit(row[k]).go ==>
              After(cur, j, visit) == Kept(row, visit) && Seen(row, visit) == row[..k + 1] && !AllGo(row, visit)
    ensures if k + 1 < |row| then j + 1 < |cur| && cur[j + 1] == row[k + 1] else j + 1 == |cur|
    ensures Kept(row[..k + 1], visit) == [] <==> j == 0 && visit(row[k]).remove
  {
    KeptOneMore(row, visit, k);
    AfterVisit(Kept(row[..k], visit), row, k, visit);
    if !visit(row[k]).go {
      StopHere(row, visit, k);
    }
  }

  lemma StopHere(row: seq<Tid>, visit: Tid -> Visit, k: int)
    requires 0 <= k < |row| && AllGo(row[..k], visit) && !visit(row[k]).go
    ensures Kept(row, visit) == Kept(row[..k], visit) + if visit(row[k]).remove then row[k + 1..] else row[k..]
    ensures Seen(row, visit) == row[..k + 1] && !AllGo(row, visit)
  {
    SplitThere(row, k);
    StopAfter(row[..k], row[k..], visit);
  }

  lemma SplitThere(row: seq<Tid>, k: int)
    requires 0 <= k < |row|
    ensures row[..k] + row[k..] == row && row[k..][1..] == row[k + 1..] && row[k..][0] == row[k]
    ensures row[..k] + [row[k]] == row[..k + 1] && row[k] in row
  {
  }

  lemma StopAfter(a: seq<Tid>, b: seq<Tid>, visit: Tid -> Visit)
    requires AllGo(a, visit) && b != [] && !visit(b[0]).go
    ensures Kept(a + b, visit) == Kept(a, visit) + if visit(b[0]).remove then b[1..] else b
    ensures Seen(a + b, visit) == a + [b[0]]
  {
    StopNow(b, visit);
    KeptConcat(a, b, visit);
    SeenConcat(a, b, visit);
  }

  lemma StopNow(b: seq<Tid>, visit: Tid -> Visit)
    requires b != [] && !visit(b[0]).go
    ensures Seen(b, visit) == [b[0]] && Kept(b, visit) == if visit(b[0]).remove then b[1..] else b
  {
  }

  lemma AfterVisit(kept: seq<Tid>, row: seq<Tid>, k: int, visit: Tid -> Visit)
    requires 0 <= k < |row|
    ensures After(kept + row[k..], |kept|, visit) ==
            if visit(row[k]).remove then kept + row[k + 1..] else (kept + [row[k]]) + row[k + 1..]
    ensures !visit(row[k]).remove ==> After(kept + row[k..], |kept|, visit) == kept + row[k..]
  {
  }

  lemma WalkEnds(row: seq<Tid>, visit: Tid -> Visit, cur: seq<Tid>)
    requires Walked(row, visit, |row|, cur)
    ensures AllGo(row, visit) && cur == Kept(row, visit) && Seen(row, visit) == row
  {
    assert row[..|row|] == row && row[|row|..] == [];
    SeenConcat(row, [], visit);
    assert row + [] == row;
  }

  /** One class of the queue after some of its threads have been visited. */
  function Around(before: seq<Class>, row: Class, after: seq<Class>): seq<Class> {
    if row == [] then before + after else before + [row] + after
  }

  lemma AroundFlat(before: seq<Class>, row: Class, after: seq<Class>)
    ensures Flat(Around(before, row, after)) == Flat(before) + row + Flat(after)
  {
    if row == [] {
      FlatConcat(before, after);
    } else {
      FlatWith(before, row, after);
    }
  }

  lemma AroundCut(before: seq<Class>, row: Class, after: seq<Class>, j: nat)
    requires j < |row|
    ensures var rows := Around(before, row, after);
            && |before| < |rows| && rows[|before|] == row
            && Cut(rows, |before|, j) == Around(before, row[..j] + row[j + 1..], after)
  {
    var rows := before + [row] + after;
    assert rows[..|before|] == before && rows[|before| + 1..] == after;
    if |row| == 1 {
      assert row[..j] + row[j + 1..] == [];
    } else {
      assert rows[|before| := row[..j] + row[j + 1..]] == before + [row[..j] + row[j + 1..]] + after;
    }
  }

  lemma ClassUnique(rows: seq<Class>, i: nat, i': nat, t: Tid)
    requires Distinct(Flat(rows)) && i < |rows| && i' < |rows| && t in rows[i] && t in rows[i']
    ensures i == i'
  {
    if i < i' {
      ClassEarlier(rows, i, i', t);
    } else if i' < i {
      ClassEarlier(rows, i', i, t);
    }
  }

  lemma ClassEarlier(rows: seq<Class>, i: nat, i': nat, t: Tid)
    requires Distinct(Flat(rows)) && i < i' < |rows| && t in rows[i]
    ensures t !in rows[i']
  {
    FlatAround(rows, i);
    DistinctParts(Flat(rows[..i]) + rows[i], Flat(rows[i + 1..]));
    if t in rows[i'] {
      assert rows[i + 1..][i' - i - 1] == rows[i'];
      InFlat(rows[i + 1..], i' - i - 1, t);
    }
  }

  lemma ClassDistinct(before: seq<Class>, row: Class, after: seq<Class>)
    requires Distinct(Flat(Around(before, row, after)))
    ensures Distinct(row)
  {
    AroundFlat(before, row, after);
    DistinctParts(Flat(before) + row, Flat(after));
    DistinctParts(Flat(before), row);
  }

  /** A kept thread stays where it is, a removed one leaves a gap. */
  function After(row: Class, j: nat, visit: Tid -> Visit): Class
    requires j < |row|
  {
    if visit(row[j]).remove then row[..j] + row[j + 1..] else row
  }

  /** visit_thread on t, the element j of a class. */
  method VisitThread(q: Queue, t: Tid, visit: Tid -> Visit, ghost prio: Tid -> int,
                     ghost before: seq<Class>, ghost row: Class, ghost after: seq<Class>, ghost j: nat)
    returns (go: bool)
    requires q.Valid(prio) && q.rows == Around(before, row, after) && j < |row| && row[j] == t
    modifies q
    ensures q.Valid(prio) && q.rows == Around(before, After(row, j, visit), after)
    ensures go == visit(t).go
  {
    go := visit(t).go;
    AroundCut(before, row, after, j);
    ClassDistinct(before, row, after);
    if visit(t).remove {
      assert t in q.rows[|before|];
      var i :| 0 <= i < |q.rows| && t in q.rows[i];
      ClassUnique(q.rows, i, |before|, t);
      var k :| 0 <= k < |q.rows[i]| && q.rows[i][k] == t;
      q.RemoveAt(prio, i, k);
    }
  }

  // ----- following the lists -----

  predicate IsHead(rows: seq<Class>, t: Tid) {
    exists i :: 0 <= i < |rows| && rows[i] != [] && rows[i][0] == t
  }

  lemma HeadOfClass(before: seq<Class>, row: Class, after: seq<Class>, k: nat)
    requires Distinct(Flat(Around(before, row, after))) && k < |row|
    ensures IsHead(Around(before, row, after), row[k]) <==> k == 0
  {
    var rows := Around(before, row, after);
    assert rows[|before|] == row;
    ClassDistinct(before, row, after);
    if IsHead(rows, row[k]) {
      var i :| 0 <= i < |rows| && rows[i] != [] && rows[i][0] == row[k];
      assert row[k] in rows[i];
      ClassUnique(rows, i, |before|, row[k]);
    }
  }

  lemma HeadIsHead(before: seq<Class>, row: Class, after: seq<Class>)
    requires row != []
    ensures IsHead(Around(before, row, after), row[0])
  {
    assert Around(before, row, after)[|before|] == row;
  }

  /** The thread behind t in the class that `head` leads. */
  method NextInClass(q: Queue, head: Tid, t: Tid, ghost before: seq<Class>, ghost row: Class, ghost after: seq<Class>, ghost k: nat)
    returns (next: Option<Tid>)
    requires Distinct(Flat(q.rows)) && q.rows == Around(before, row, after) && k < |row| && row[k] == t && row[0] == head
    ensures next == if k + 1 < |row| then Some(row[k + 1]) else None
  {
    assert q.rows[|before|] == row;
    ClassDistinct(before, row, after);
    var i :| 0 <= i < |q.rows| && q.rows[i] != [] && q.rows[i][0] == head;
    assert head in q.rows[i];
    ClassUnique(q.rows, i, |before|, head);
    var j :| 0 <= j < |q.rows[i]| && q.rows[i][j] == t;
    next := if j + 1 < |q.rows[i]| then Some(q.rows[i][j + 1]) else None;
  }

  /** Looks up the next thread of the class, then visits t. If t was the head and left,
      the next thread is the new head; otherwise the head stays what it was. */
  method VisitNext(q: Queue, head: Tid, t: Tid, visit: Tid -> Visit, ghost prio: Tid -> int,
                   ghost before: seq<Class>, ghost row: Class, ghost after: seq<Class>, ghost k: int, ghost cur: seq<Tid>)
    returns (go: bool, next: Option<Tid>, ghost cur': seq<Tid>)
    requires q.Valid(prio) && q.rows == Around(before, cur, after) && Walked(row, visit, k, cur) && k < |row| && t == row[k]
    requires cur != [] && cur[0] == head
    modifies q
    ensures q.Valid(prio) && q.rows == Around(before, cur', after) && go == visit(t).go
    ensures go ==> Walked(row, visit, k + 1, cur')
    ensures !go ==> cur' == Kept(row, visit) && Seen(row, visit) == row[..k + 1] && !AllGo(row, visit)
    ensures next == if k + 1 < |row| then Some(row[k + 1]) else None
    ensures go && next.Some? ==> cur' != [] && cur'[0] == if IsHead(q.rows, next.value) then next.value else head
    ensures go && next.Some? && t != head ==> next.value != head && cur'[0] == head
  {
    ghost var j := |Kept(row[..k], visit)|;
    WalkStep(row, visit, k, cur, j);
    ClassDistinct(before, cur, after);
    next := NextInClass(q, head, t, before, cur, after, j);
    go := VisitThread(q, t, visit, prio, before, cur, after, j);
    cur' := After(cur, j, visit);
    if go && next.Some? {
      HeadOfClass(before, cur', after, if visit(t).remove then j else j + 1);
    }
  }

  lemma OneMore(row: seq<Tid>, k: int)
    requires 0 <= k < |row|
    ensures row[..k] + [row[k]] == row[..k + 1]
  {
  }

  /** consider_queue: visit one class from its head on. */
  method ConsiderClass(q: Queue, first: Tid, visit: Tid -> Visit, ghost prio: Tid -> int,
                       ghost before: seq<Class>, ghost row: Class, ghost after: seq<Class>)
    returns (go: bool, seen: seq<Tid>)
    requires q.Valid(prio) && q.rows == Around(before, row, after) && row != [] && row[0] == first
    modifies q
    ensures q.Valid(prio) && q.rows == Around(before, Kept(row, visit), after)
    ensures go == AllGo(row, visit) && seen == Seen(row, visit)
  {
    seen := [];
    var head, next := first, None;
    ghost var cur, k := row, 0;
    assert Walked(row, visit, 0, row) by { assert row[..0] == [] && row[0..] == row; }
    while true
      invariant 0 <= k < |row| && Walked(row, visit, k, cur)
      invariant q.Valid(prio) && q.rows == Around(before, cur, after)
      invariant head == row[k] && seen == row[..k] && cur != [] && cur[0] == head
      decreases |row| - k
    {
      go, next, cur := VisitNext(q, head, head, visit, prio, before, row, after, k, cur);
      seen := seen + [head];
      OneMore(row, k);
      if !go {
        return;
      }
      k := k + 1;
      if next.None? {
        WalkEnds(row, visit, cur);
        return;
      }
      if !IsHead(q.rows, next.value) {
        HeadIsHead(before, cur, after);
        break;
      }
      head := next.value;
    }
    go, seen := ConsiderRest(q, head, next.value, visit, prio, before, row, after, k, cur, seen);
  }

  /** Once one thread of the class stays, the head can no longer change. */
  method ConsiderRest(q: Queue, head: Tid, second: Tid, visit: Tid -> Visit, ghost prio: Tid -> int,
                      ghost before: seq<Class>, ghost row: Class, ghost after: seq<Class>,
                      ghost k0: int, ghost cur0: seq<Tid>, seen0: seq<Tid>)
    returns (go: bool, seen: seq<Tid>)
    requires q.Valid(prio) && q.rows == Around(before, cur0, after)
    requires Walked(row, visit, k0, cur0) && k0 < |row| && second == row[k0] && seen0 == row[..k0]
    requires cur0 != [] && cur0[0] == head && second != head
    modifies q
    ensures q.Valid(prio) && q.rows == Around(before, Kept(row, visit), after)
    ensures go == AllGo(row, visit) && seen == Seen(row, visit)
  {
    seen := seen0;
    var next := Some(second);
    ghost var cur, k := cur0, k0;
    go := true;
    while next.Some?
      invariant Walked(row, visit, k, cur) && seen == row[..k] && go
      invariant q.Valid(prio) && q.rows == Around(before, cur, after)
      invariant next.Some? ==> k < |row| && next.value == row[k] && cur != [] && cur[0] == head && row[k] != head
      invariant next.None? ==> k == |row|
      decreases |row| - k
    {
      go, next, seen, cur := VisitInner(q, head, next.value, visit, prio, before, row, after, k, cur, seen);
      if !go {
        return;
      }
      k := k + 1;
    }
    WalkEnds(row, visit, cur);
  }

  /** Visits a thread that is not the head. */
  method VisitInner(q: Queue, head: Tid, t: Tid, visit: Tid -> Visit, ghost prio: Tid -> int,
                    ghost before: seq<Class>, ghost row: Class, ghost after: seq<Class>,
                    ghost k: int, ghost cur: seq<Tid>, seen: seq<Tid>)
    returns (go: bool, next: Option<Tid>, seen': seq<Tid>, ghost cur': seq<Tid>)
    requires q.Valid(prio) && q.rows == Around(before, cur, after) && Walked(row, visit, k, cur) && k < |row| && t == row[k]
    requires cur != [] && cur[0] == head && t != head && seen == row[..k]
    modifies q
    ensures q.Valid(prio) && q.rows == Around(before, cur', after) && seen' == row[..k + 1]
    ensures go ==> Walked(row, visit, k + 1, cur')
    ensures !go ==> cur' == Kept(row, visit) && Seen(row, visit) == seen' && !AllGo(row, visit)
    ensures go && next.Some? ==> k + 1 < |row| && next.value == row[k + 1] && cur' != [] && cur'[0] == head && row[k + 1] != head
    ensures go && next.None? ==> k + 1 == |row|
  {
    go, next, cur' := VisitNext(q, head, t, visit, prio, before, row, after, k, cur);
    OneMore(row, k);
    seen' := seen + [t];
  }

  // ----- the whole queue -----

  /** The first n classes are finished; d is what they have become. */
  ghost predicate Finished(rows: seq<Class>, visit: Tid -> Visit, n: int, d: seq<Class>, seen: seq<Tid>) {
    && 0 <= n <= |rows| && seen == Flat(rows[..n]) && AllGo(seen, visit)
    && Flat(d) == Kept(seen, visit)
  }

  function Extended(d: seq<Class>, row: Class): seq<Class> {
    if row == [] then d else d + [row]
  }

  lemma FinishOne(rows: seq<Class>, visit: Tid -> Visit, n: int, d: seq<Class>, seen: seq<Tid>)
    requires Finished(rows, visit, n, d, seen) && n < |rows| && AllGo(rows[n], visit)
    ensures Finished(rows, visit, n + 1, Extended(d, Kept(rows[n], visit)), seen + rows[n])
  {
    assert rows[..n + 1] == rows[..n] + [rows[n]];
    FlatConcat(rows[..n], [rows[n]]);
    assert [rows[n]][1..] == [] && Flat([rows[n]]) == rows[n];
    KeptConcat(seen, rows[n], visit);
    var kept := Kept(rows[n], visit);
    FlatConcat(d, [kept]);
    assert [kept][1..] == [] && Flat([kept]) == kept;
  }

  lemma StopInClass(rows: seq<Class>, visit: Tid -> Visit, n: int, d: seq<Class>, seen: seq<Tid>)
    requires Finished(rows, visit, n, d, seen) && n < |rows| && !AllGo(rows[n], visit)
    ensures Seen(Flat(rows), visit) == seen + Seen(rows[n], visit)
    ensures Flat(Around(d, Kept(rows[n], visit), rows[n + 1..])) == Kept(Flat(rows), visit)
  {
    var row, rest := rows[n], Flat(rows[n + 1..]);
    FlatAround(rows, n);
    assert Flat(rows) == seen + (row + rest);
    SeenConcat(seen, row + rest, visit);
    KeptConcat(seen, row + rest, visit);
    WalkStops(row, rest, visit);
    AroundFlat(d, Kept(row, visit), rows[n + 1..]);
    Assoc(Kept(seen, visit), Kept(row, visit), rest);
  }

  lemma AllFinished(rows: seq<Class>, visit: Tid -> Visit, d: seq<Class>, seen: seq<Tid>)
    requires Finished(rows, visit, |rows|, d, seen)
    ensures seen == Seen(Flat(rows), visit) && Flat(d) == Kept(Flat(rows), visit)
  {
    assert rows[..|rows|] == rows;
    SeenConcat(seen, [], visit);
    assert seen + [] == seen;
  }

  lemma AroundExtended(d: seq<Class>, row: Class, after: seq<Class>)
    ensures Around(d, row, after) == Extended(d, row) + after
  {
  }

  lemma HeadUnique(prio: Tid -> int, rows: seq<Class>, i: nat, j: nat)
    requires Classes(prio, rows) && i < |rows| && j < |rows| && rows[i][0] == rows[j][0]
    ensures i == j
  {
  }

  function First(rows: seq<Class>, n: int): Option<Tid> {
    if 0 <= n < |rows| && rows[n] != [] then Some(rows[n][0]) else None
  }

  /** The head of the class after the one that h leads. */
  method HeadAfter(q: Queue, h: Tid, ghost prio: Tid -> int, ghost d: seq<Class>, ghost rows: seq<Class>, ghost n: int)
    returns (next: Option<Tid>)
    requires ValidRows(prio, q.rows) && 0 <= n < |rows| && q.rows == d + rows[n..] && First(rows, n) == Some(h)
    ensures next == First(rows, n + 1) && (next.Some? <==> n + 1 < |rows|)
  {
    assert q.rows[|d|] == rows[n];
    assert n + 1 < |rows| ==> q.rows[|d| + 1] == rows[n + 1];
    var i :| 0 <= i < |q.rows| && q.rows[i][0] == h;
    HeadUnique(prio, q.rows, i, |d|);
    next := if i + 1 < |q.rows| then Some(q.rows[i + 1][0]) else None;
  }

  /** Considers the class that `last` leads and steps over it. */
  method Consider(q: Queue, last: Tid, visit: Tid -> Visit, ghost prio: Tid -> int,
                  ghost rows: seq<Class>, ghost n: int, ghost d: seq<Class>, seen: seq<Tid>)
    returns (go: bool, seen': seq<Tid>, ghost d': seq<Class>)
    requires q.Valid(prio) && Finished(rows, visit, n, d, seen) && n < |rows| && q.rows == d + rows[n..]
    requires rows[n] != [] && rows[n][0] == last
    modifies q
    ensures q.Valid(prio)
    ensures go ==> q.rows == d' + rows[n + 1..] && Finished(rows, visit, n + 1, d', seen')
    ensures !go ==> seen' == Seen(Flat(rows), visit) && q.Order() == Kept(Flat(rows), visit)
  {
    ghost var row := rows[n];
    assert d + rows[n..] == Around(d, row, rows[n + 1..]);
    var s;
    go, s := ConsiderClass(q, last, visit, prio, d, row, rows[n + 1..]);
    seen' := seen + s;
    d' := Extended(d, Kept(row, visit));
    if go {
      AroundExtended(d, Kept(row, visit), rows[n + 1..]);
      SeenConcat(row, [], visit);
      assert row + [] == row;
      FinishOne(rows, visit, n, d, seen);
    } else {
      StopInClass(rows, visit, n, d, seen);
    }
  }

  /** Every thread is visited once, in queue order, until the visitor says stop, and
      exactly the threads it took out are gone. The head of the class after the one
      being considered is looked up before that class is touched. */
  method ForeachThread(q: Queue, visit: Tid -> Visit, ghost prio: Tid -> int) returns (seen: seq<Tid>)
    requires q.Valid(prio)
    modifies q
    ensures q.Valid(prio)
    ensures seen == Seen(old(q.Order()), visit)
    ensures q.Order() == Kept(old(q.Order()), visit)
  {
    seen := [];
    if q.rows == [] {
      return;
    }
    var last := q.rows[0][0];
    ghost var rows, n, d := q.rows, 0, [];
    assert rows[..0] == [] && d + rows[0..] == rows;
    var cur := HeadAfter(q, last, prio, d, rows, n);
    while cur.Some?
      invariant q.Valid(prio) && Finished(rows, visit, n, d, seen) && n < |rows| && q.rows == d + rows[n..]
      invariant First(rows, n) == Some(last) && cur == First(rows, n + 1) && (cur.Some? <==> n + 1 < |rows|)
      decreases |rows| - n
    {
      var go;
      go, seen, d := Consider(q, last, visit, prio, rows, n, d, seen);
      if !go {
        return;
      }
      n := n + 1;
      last := cur.value;
      cur := HeadAfter(q, last, prio, d, rows, n);
    }
    var go;
    go, seen, d := Consider(q, last, visit, prio, rows, n, d, seen);
    if go {
      AllFinished(rows, visit, d, seen);
      assert rows[n + 1..] == [] && q.rows == d;
    }
  }
}
