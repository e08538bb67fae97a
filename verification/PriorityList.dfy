/** One wait queue seen as a single list: highest effective priority first and,
    among threads of equal priority, in order of arrival. This is the simple form
    that the two-level structure of kernel/kernel/wait.cc is proved to refine, and
    the form in which the other modules use a wait queue. */
module PriorityList {
  datatype Tid = Tid(id: int)

  datatype Option<+T> = None | Some(value: T)

  ghost predicate Sorted(prio: Tid -> int, l: seq<Tid>) {
    forall i, j :: 0 <= i < j < |l| ==> prio(l[i]) >= prio(l[j])
  }

  ghost predicate Distinct(l: seq<Tid>) {
    forall i, j :: 0 <= i < j < |l| ==> l[i] != l[j]
  }

  /** Priority of the first waiter, -1 when nobody waits (wait_queue_blocked_priority). */
  function Head(prio: Tid -> int, l: seq<Tid>): int {
    if l == [] then -1 else prio(l[0])
  }

  /** t goes behind every thread of at least its own priority. */
  function Insert(prio: Tid -> int, l: seq<Tid>, t: Tid): seq<Tid> {
    if l == [] then [t]
    else if prio(t) > prio(l[0]) then [t] + l
    else [l[0]] + Insert(prio, l[1..], t)
  }

  function Without(l: seq<Tid>, t: Tid): seq<Tid> {
    if l == [] then []
    else if l[0] == t then Without(l[1..], t)
    else [l[0]] + Without(l[1..], t)
  }

  /** Insertion splits the list in two at the place priority and arrival order demand. */
  lemma {:induction false} InsertSplits(prio: Tid -> int, l: seq<Tid>, t: Tid) returns (k: nat)
    requires Sorted(prio, l)
    ensures k <= |l|
    ensures Insert(prio, l, t) == l[..k] + [t] + l[k..]
    ensures forall i :: 0 <= i < k ==> prio(l[i]) >= prio(t)
    ensures forall i :: k <= i < |l| ==> prio(l[i]) < prio(t)
  {
    if l == [] || prio(t) > prio(l[0]) {
      k := 0;
    } else {
      var k' := InsertSplits(prio, l[1..], t);
      k := k' + 1;
      assert l[..k] == [l[0]] + l[1..][..k'];
      assert l[k..] == l[1..][k'..];
    }
  }

  /** Whatever the order of the list, insertion adds one element somewhere. */
  lemma {:induction false} InsertPlace(prio: Tid -> int, l: seq<Tid>, t: Tid) returns (k: nat)
    ensures k <= |l| && Insert(prio, l, t) == l[..k] + [t] + l[k..]
  {
    if l == [] || prio(t) > prio(l[0]) {
      k := 0;
    } else {
      var k' := InsertPlace(prio, l[1..], t);
      k := k' + 1;
      assert l[..k] == [l[0]] + l[1..][..k'];
      assert l[k..] == l[1..][k'..];
    }
  }

  lemma InsertMembers(prio: Tid -> int, l: seq<Tid>, t: Tid)
    ensures forall u :: u in Insert(prio, l, t) <==> u == t || u in l
    ensures |Insert(prio, l, t)| == |l| + 1
  {
    if l != [] && prio(t) <= prio(l[0]) {
      InsertMembers(prio, l[1..], t);
      assert l == [l[0]] + l[1..];
    }
  }

  lemma {:induction false} InsertKeepsOrder(prio: Tid -> int, l: seq<Tid>, t: Tid)
    requires Sorted(prio, l)
    ensures Sorted(prio, Insert(prio, l, t))
    ensures Distinct(l) && t !in l ==> Distinct(Insert(prio, l, t))
    ensures Head(prio, Insert(prio, l, t)) == if l == [] || prio(t) > prio(l[0]) then prio(t) else prio(l[0])
  {
    var k := InsertSplits(prio, l, t);
    InsertedSorted(prio, l, t, k);
    if Distinct(l) && t !in l {
      InsertedOnce(l, t, k);
    }
  }

  lemma InsertedSorted(prio: Tid -> int, l: seq<Tid>, t: Tid, k: int)
    requires Sorted(prio, l) && 0 <= k <= |l|
    requires forall i :: 0 <= i < k ==> prio(l[i]) >= prio(t)
    requires forall i :: k <= i < |l| ==> prio(l[i]) < prio(t)
    ensures Sorted(prio, l[..k] + [t] + l[k..])
  {
  }

  lemma InsertedOnce(l: seq<Tid>, t: Tid, k: int)
    requires Distinct(l) && t !in l && 0 <= k <= |l|
    ensures Distinct(l[..k] + [t] + l[k..])
    ensures forall u :: u in l[..k] + [t] + l[k..] <==> u in l || u == t
  {
    assert l == l[..k] + l[k..];
  }

  lemma TailMembers(l: seq<Tid>)
    requires Distinct(l) && l != []
    ensures Distinct(l[1..]) && forall u :: u in l[1..] <==> u in l && u != l[0]
  {
    assert l == [l[0]] + l[1..];
    assert forall i :: 0 <= i < |l[1..]| ==> l[1..][i] == l[i + 1];
  }

  lemma WithoutMembers(l: seq<Tid>, t: Tid)
    ensures forall u :: u in Without(l, t) <==> u != t && u in l
    ensures |Without(l, t)| <= |l|
    ensures t !in l ==> Without(l, t) == l
  {
    if l != [] {
      WithoutMembers(l[1..], t);
      assert l == [l[0]] + l[1..];
    }
  }

  lemma WithoutFront(l: seq<Tid>)
    requires Distinct(l) && l != []
    ensures Without(l, l[0]) == l[1..]
  {
    TailMembers(l);
    WithoutMembers(l[1..], l[0]);
  }

  lemma Assoc(a: seq<Tid>, b: seq<Tid>, c: seq<Tid>)
    ensures a + (b + c) == (a + b) + c
  {
  }

  lemma {:induction false} WithoutKeepsOrder(prio: Tid -> int, l: seq<Tid>, t: Tid)
    requires Sorted(prio, l)
    ensures Sorted(prio, Without(l, t))
  {
    if l != [] {
      WithoutKeepsOrder(prio, l[1..], t);
      WithoutMembers(l[1..], t);
      var r := Without(l[1..], t);
      forall i | 0 <= i < |r| ensures prio(l[0]) >= prio(r[i]) {
        assert r[i] in l[1..];
      }
    }
  }

  lemma {:induction false} WithoutKeepsDistinct(l: seq<Tid>, t: Tid)
    requires Distinct(l)
    ensures Distinct(Without(l, t))
    ensures t in l ==> |Without(l, t)| == |l| - 1
  {
    if l != [] {
      WithoutKeepsDistinct(l[1..], t);
      WithoutMembers(l[1..], t);
      var r := Without(l[1..], t);
      forall i | 0 <= i < |r| ensures l[0] != r[i] {
        assert r[i] in l[1..];
      }
    }
  }

  lemma SortedLocal(p: Tid -> int, p': Tid -> int, l: seq<Tid>)
    requires Sorted(p, l) && forall u :: u in l ==> p(u) == p'(u)
    ensures Sorted(p', l)
  {
    forall i, j | 0 <= i < j < |l| ensures p'(l[i]) >= p'(l[j]) {
      assert l[i] in l && l[j] in l;
    }
  }

  /** Leaving a sorted list and entering it again with another priority. */
  lemma ReinsertKeepsOrder(p: Tid -> int, p': Tid -> int, l: seq<Tid>, t: Tid)
    requires Sorted(p, l) && Distinct(l) && t in l
    requires forall u :: u in l && u != t ==> p(u) == p'(u)
    ensures var l' := Insert(p', Without(l, t), t);
            Sorted(p', l') && Distinct(l') && |l'| == |l| && forall u :: u in l' <==> u in l
  {
    WithoutMembers(l, t);
    WithoutKeepsOrder(p, l, t);
    WithoutKeepsDistinct(l, t);
    SortedLocal(p, p', Without(l, t));
    InsertKeepsOrder(p', Without(l, t), t);
    InsertMembers(p', Without(l, t), t);
  }

  lemma {:induction false} WithoutConcat(a: seq<Tid>, b: seq<Tid>, t: Tid)
    ensures Without(a + b, t) == Without(a, t) + Without(b, t)
  {
    if a == [] {
      assert a + b == b;
    } else {
      WithoutConcat(a[1..], b, t);
      assert (a + b)[1..] == a[1..] + b;
    }
  }

  // ----- parts of a list -----

  /** The threads of a are some of those of l, in the same order. */
  predicate Subsequence(a: seq<Tid>, l: seq<Tid>) {
    if a == [] then true
    else if l == [] then false
    else (a[0] == l[0] && Subsequence(a[1..], l[1..])) || Subsequence(a, l[1..])
  }

  lemma {:induction false} SubSame(l: seq<Tid>)
    ensures Subsequence(l, l)
  {
    if l != [] { SubSame(l[1..]); }
  }

  lemma SubLater(a: seq<Tid>, l: seq<Tid>)
    requires l != [] && Subsequence(a, l[1..])
    ensures Subsequence(a, l)
  {
  }

  lemma {:induction false} SubTrans(a: seq<Tid>, b: seq<Tid>, l: seq<Tid>)
    requires Subsequence(a, b) && Subsequence(b, l)
    ensures Subsequence(a, l)
    decreases |b| + |l|
  {
    if a != [] {
      if b[0] == l[0] && Subsequence(b[1..], l[1..]) {
        if a[0] == b[0] && Subsequence(a[1..], b[1..]) {
          SubTrans(a[1..], b[1..], l[1..]);
        } else {
          SubTrans(a, b[1..], l[1..]);
          SubLater(a, l);
        }
      } else {
        SubTrans(a, b, l[1..]);
        SubLater(a, l);
      }
    }
  }

  lemma {:induction false} WithoutSub(l: seq<Tid>, t: Tid)
    ensures Subsequence(Without(l, t), l)
  {
    if l != [] {
      WithoutSub(l[1..], t);
      if l[0] == t {
        SubLater(Without(l, t), l);
      } else {
        assert Without(l, t)[1..] == Without(l[1..], t);
      }
    }
  }

  lemma {:induction false} InsertSub(prio: Tid -> int, l: seq<Tid>, t: Tid)
    ensures Subsequence(l, Insert(prio, l, t))
  {
    var r := Insert(prio, l, t);
    if l == [] {
    } else if prio(t) > prio(l[0]) {
      SubSame(l);
      assert r[1..] == l;
      SubLater(l, r);
    } else {
      InsertSub(prio, l[1..], t);
      assert r[1..] == Insert(prio, l[1..], t);
    }
  }

  /** With its members known and none of them twice, a subsequence is known. */
  lemma {:induction false} SubUnique(a: seq<Tid>, b: seq<Tid>, l: seq<Tid>)
    requires Distinct(l) && Subsequence(a, l) && Subsequence(b, l) && forall t :: t in a <==> t in b
    ensures a == b
    decreases |l|
  {
    SubMembers(a, l);
    SubMembers(b, l);
    if l == [] {
    } else if l[0] in a {
      HeadFirst(a, l);
      HeadFirst(b, l);
      TailMembers(l);
      assert a == [a[0]] + a[1..] && b == [b[0]] + b[1..];
      SubDistinct(a, l);
      SubDistinct(b, l);
      TailMembers(a);
      TailMembers(b);
      SubUnique(a[1..], b[1..], l[1..]);
    } else {
      NotHead(a, l);
      NotHead(b, l);
      TailMembers(l);
      SubUnique(a, b, l[1..]);
    }
  }

  lemma {:induction false} SubMembers(a: seq<Tid>, l: seq<Tid>)
    requires Subsequence(a, l)
    ensures forall t :: t in a ==> t in l
    decreases |l|
  {
    if a != [] {
      assert l == [l[0]] + l[1..] && a == [a[0]] + a[1..];
      if a[0] == l[0] && Subsequence(a[1..], l[1..]) {
        SubMembers(a[1..], l[1..]);
      } else {
        SubMembers(a, l[1..]);
      }
    }
  }

  lemma {:induction false} SubDistinct(a: seq<Tid>, l: seq<Tid>)
    requires Distinct(l) && Subsequence(a, l)
    ensures Distinct(a)
    decreases |l|
  {
    if a != [] {
      TailMembers(l);
      if a[0] == l[0] && Subsequence(a[1..], l[1..]) {
        SubDistinct(a[1..], l[1..]);
        SubMembers(a[1..], l[1..]);
        assert forall i :: 1 <= i < |a| ==> a[i] == a[1..][i - 1] && a[i] in a[1..];
      } else {
        SubDistinct(a, l[1..]);
      }
    }
  }

  lemma HeadFirst(a: seq<Tid>, l: seq<Tid>)
    requires Distinct(l) && Subsequence(a, l) && l != [] && l[0] in a
    ensures a[0] == l[0] && Subsequence(a[1..], l[1..])
  {
    TailMembers(l);
    if Subsequence(a, l[1..]) {
      SubMembers(a, l[1..]);
    }
  }

  lemma NotHead(a: seq<Tid>, l: seq<Tid>)
    requires Subsequence(a, l) && l != [] && l[0] !in a
    ensures Subsequence(a, l[1..])
  {
  }
}
