/** One endpoint of a channel (kernel/object/channel_dispatcher.cc): its message queue, the
    calls that wait for a reply, and what became of every message written to it. */
module Channel {
  import opened PriorityList

  datatype Wid = Wid(id: int)

  datatype Txid = Txid(v: int)

  datatype Message = Message(txid: Txid, size: int, handles: int, body: int)

  datatype Status = Ok | TimedOut | Canceled | PeerClosed | BadHandle | BadState | ShouldWait | BufferTooSmall

  /** A MessageWaiter that has begun to wait here. */
  datatype Slot = Slot(txid: Txid, status: Status, reply: Option<Message>)

  /** What became of a message: still queued, taken by a reader, or handed to a waiter. */
  datatype Fate = Queued | Taken | Delivered(waiter: Wid)

  // ----- transaction ids -----

  const HIGH := 0x8000_0000

  /** A counter value with the high bit set. */
  function WithHighBit(n: int): Txid { Txid(HIGH + n % HIGH) }

  /** ++txid_ in 32 bits. */
  function Next(n: int): int { if n + 1 == 2 * HIGH then 0 else n + 1 }

  ghost predicate TxidsOk(waiters: seq<Wid>, slots: map<Wid, Slot>) {
    && (forall w :: w in waiters ==> w in slots && HIGH <= slots[w].txid.v < 2 * HIGH)
    && (forall i, j :: 0 <= i < j < |waiters| ==> waiters[i] != waiters[j])
    && (forall v, w :: v in waiters && w in waiters && slots[v].txid == slots[w].txid ==> v == w)
  }

  ghost predicate InUse(waiters: seq<Wid>, slots: map<Wid, Slot>, x: Txid) {
    exists w :: w in waiters && w in slots && slots[w].txid == x
  }

  ghost predicate UsedAt(waiters: seq<Wid>, slots: map<Wid, Slot>, c: int) {
    InUse(waiters, slots, WithHighBit(c))
  }

  /** x is the id n steps after the counter value c, and those before it are in use. */
  ghost predicate FreeAfter(waiters: seq<Wid>, slots: map<Wid, Slot>, c: int, n: nat, x: Txid) {
    && x == WithHighBit(c + n) && !InUse(waiters, slots, x)
    && forall d {:trigger UsedAt(waiters, slots, d)} :: c <= d < c + n ==> UsedAt(waiters, slots, d)
  }

  ghost predicate FirstFree(waiters: seq<Wid>, slots: map<Wid, Slot>, c: int, x: Txid) {
    exists n :: FreeAfter(waiters, slots, c, n, x)
  }

  /** Consecutive counter values give different ids for 2^31 steps. */
  lemma HighBitsDiffer(n: int, i: int, j: int)
    requires 0 <= n && 0 <= i < j < i + HIGH
    ensures WithHighBit(n + i) != WithHighBit(n + j)
  {
  }

  lemma NextKeepsHighBits(n: int, m: int)
    requires n % HIGH == m % HIGH && 0 <= m && 0 <= n < 2 * HIGH
    ensures 0 <= Next(n) < 2 * HIGH && Next(n) % HIGH == (m + 1) % HIGH
  {
    OneUp(n);
    OneUp(m);
  }

  lemma OneUp(n: int)
    requires 0 <= n
    ensures (n + 1) % HIGH == if n % HIGH == HIGH - 1 then 0 else n % HIGH + 1
  {
  }

  /** More ids than waiters cannot all be in use. */
  lemma {:induction false} Pigeonhole(tried: seq<Txid>, waiters: seq<Wid>, slots: map<Wid, Slot>)
    requires forall i, j :: 0 <= i < j < |tried| ==> tried[i] != tried[j]
    requires forall i :: 0 <= i < |tried| ==> InUse(waiters, slots, tried[i])
    ensures |tried| <= |waiters|
    decreases |tried|
  {
    if tried != [] {
      var k := |tried| - 1;
      assert InUse(waiters, slots, tried[k]);
      var w :| w in waiters && w in slots && slots[w].txid == tried[k];
      var p :| 0 <= p < |waiters| && waiters[p] == w;
      var rest := waiters[..p] + waiters[p + 1..];
      forall i | 0 <= i < k ensures InUse(rest, slots, tried[..k][i]) {
        assert InUse(waiters, slots, tried[i]);
        var v :| v in waiters && v in slots && slots[v].txid == tried[i];
        assert v != w && v in rest;
      }
      Pigeonhole(tried[..k], rest, slots);
    }
  }

  /** The counter goes on from the last id: with fewer than 2^31 - 1 waiters the next call
      does not get it, whether or not the last one still waits. */
  lemma NextIdDiffers(waiters: seq<Wid>, slots: map<Wid, Slot>, c: int, x: Txid)
    requires 0 <= c && |waiters| < HIGH - 1 && FirstFree(waiters, slots, c + 1, x)
    ensures x != WithHighBit(c)
  {
    var n: nat :| FreeAfter(waiters, slots, c + 1, n, x);
    if n > |waiters| {
      var tried := seq(|waiters| + 1, i => WithHighBit(c + 1 + i));
      forall i | 0 <= i < |tried| ensures InUse(waiters, slots, tried[i]) {
        assert UsedAt(waiters, slots, c + 1 + i);
      }
      forall i, j | 0 <= i < j < |tried| ensures tried[i] != tried[j] {
        HighBitsDiffer(c + 1, i, j);
      }
      Pigeonhole(tried, waiters, slots);
    }
    HighBitsDiffer(c, 0, n + 1);
  }

  // ----- what became of the messages -----

  /** The messages of hist with the given fate, in the order in which they were written. */
  function Having(hist: seq<Message>, fate: seq<Fate>, f: Fate): seq<Message>
    requires |hist| == |fate|
  {
    if hist == [] then []
    else
      var n := |hist| - 1;
      var front := Having(hist[..n], fate[..n], f);
      if fate[n] == f then front + [hist[n]] else front
  }

  /** The queue holds what was written and neither taken nor delivered; readers took
      messages in order. */
  ghost predicate Accounted(hist: seq<Message>, fate: seq<Fate>, messages: seq<Message>, taken: seq<Message>) {
    && |hist| == |fate| && messages == Having(hist, fate, Queued) && taken == Having(hist, fate, Taken)
    && forall i, j :: 0 <= i < j < |fate| && fate[i].Queued? ==> !fate[j].Taken?
  }

  lemma WrittenOk(hist: seq<Message>, fate: seq<Fate>, messages: seq<Message>, taken: seq<Message>, m: Message, f: Fate)
    requires Accounted(hist, fate, messages, taken) && !f.Taken?
    ensures Accounted(hist + [m], fate + [f], if f.Queued? then messages + [m] else messages, taken)
  {
    assert (hist + [m])[..|hist|] == hist && (fate + [f])[..|fate|] == fate;
  }

  /** The first queued message is the one a reader takes. */
  lemma {:induction false} FirstQueued(hist: seq<Message>, fate: seq<Fate>) returns (k: nat)
    requires |hist| == |fate| && Having(hist, fate, Queued) != []
    ensures k < |hist| && fate[k] == Queued && hist[k] == Having(hist, fate, Queued)[0]
    ensures forall i :: 0 <= i < k ==> fate[i] != Queued
  {
    var n := |hist| - 1;
    if Having(hist[..n], fate[..n], Queued) == [] {
      k := n;
      NoneQueued(hist[..n], fate[..n]);
    } else {
      k := FirstQueued(hist[..n], fate[..n]);
    }
  }

  lemma {:induction false} NoneQueued(hist: seq<Message>, fate: seq<Fate>)
    requires |hist| == |fate| && Having(hist, fate, Queued) == []
    ensures forall i :: 0 <= i < |fate| ==> fate[i] != Queued
  {
    if hist != [] {
      NoneQueued(hist[..|hist| - 1], fate[..|hist| - 1]);
    }
  }

  /** Marking it taken removes it from the front of the one list and adds it to the back
      of the other, since nothing after it has been taken. */
  lemma {:induction false} TakeFirst(hist: seq<Message>, fate: seq<Fate>, k: nat)
    requires |hist| == |fate| && k < |hist| && fate[k] == Queued && (forall i :: 0 <= i < k ==> fate[i] != Queued)
    requires forall j :: k < j < |fate| ==> !fate[j].Taken?
    ensures Having(hist, fate, Queued) == [hist[k]] + Having(hist, fate[k := Taken], Queued)
    ensures Having(hist, fate[k := Taken], Taken) == Having(hist, fate, Taken) + [hist[k]]
  {
    var n := |hist| - 1;
    if k < n {
      assert fate[k := Taken][..n] == fate[..n][k := Taken];
      TakeFirst(hist[..n], fate[..n], k);
    } else {
      assert fate[k := Taken][..n] == fate[..n];
      NotQueuedEmpty(hist[..n], fate[..n]);
    }
  }

  lemma {:induction false} NotQueuedEmpty(hist: seq<Message>, fate: seq<Fate>)
    requires |hist| == |fate| && forall i :: 0 <= i < |fate| ==> fate[i] != Queued
    ensures Having(hist, fate, Queued) == []
  {
    if hist != [] {
      NotQueuedEmpty(hist[..|hist| - 1], fate[..|hist| - 1]);
    }
  }

  lemma TakenOk(hist: seq<Message>, fate: seq<Fate>, messages: seq<Message>, taken: seq<Message>) returns (fate': seq<Fate>)
    requires Accounted(hist, fate, messages, taken) && messages != []
    ensures Accounted(hist, fate', messages[1..], taken + [messages[0]])
    ensures forall i :: 0 <= i < |fate| && fate[i].Delivered? ==> fate'[i] == fate[i]
    ensures exists k :: 0 <= k < |fate| && fate[k] == Queued && fate' == fate[k := Taken]
  {
    var k := FirstQueued(hist, fate);
    fate' := fate[k := Taken];
    TakeFirst(hist, fate, k);
  }

  // ----- waiters -----

  /** A waiter is in the list exactly while its status is still TimedOut. */
  ghost predicate WaitersOk(waiters: seq<Wid>, slots: map<Wid, Slot>) {
    && TxidsOk(waiters, slots)
    && (forall w :: w in slots ==> (w in waiters <==> slots[w].status == TimedOut))
    && (forall w :: w in slots ==> (slots[w].reply.Some? <==> slots[w].status == Ok))
  }

  /** A reply that waits to be picked up was written here, for that waiter. */
  ghost predicate RepliesOk(slots: map<Wid, Slot>, hist: seq<Message>, fate: seq<Fate>) {
    && |hist| == |fate|
    && forall w :: w in slots && slots[w].reply.Some? ==>
         exists i :: 0 <= i < |hist| && hist[i] == slots[w].reply.value && fate[i] == Delivered(w)
  }

  function Drop(waiters: seq<Wid>, i: int): seq<Wid>
    requires 0 <= i < |waiters|
  {
    waiters[..i] + waiters[i + 1..]
  }

  /** Waiter i leaves the list with a new status. */
  lemma LeavesOk(waiters: seq<Wid>, slots: map<Wid, Slot>, i: int, x: Slot)
    requires WaitersOk(waiters, slots) && 0 <= i < |waiters|
    requires waiters[i] in slots && x.status != TimedOut && (x.reply.Some? <==> x.status == Ok)
    ensures WaitersOk(Drop(waiters, i), slots[waiters[i] := x])
  {
    DropMembers(waiters, i);
  }

  lemma DropMembers(waiters: seq<Wid>, i: int)
    requires 0 <= i < |waiters| && forall a, b :: 0 <= a < b < |waiters| ==> waiters[a] != waiters[b]
    ensures forall w :: w in Drop(waiters, i) <==> w in waiters && w != waiters[i]
    ensures forall a, b :: 0 <= a < b < |Drop(waiters, i)| ==> Drop(waiters, i)[a] != Drop(waiters, i)[b]
  {
    var l := Drop(waiters, i);
    assert forall k :: 0 <= k < |l| ==> l[k] == waiters[if k < i then k else k + 1];
    forall w | w in waiters && w != waiters[i] ensures w in l {
      var k :| 0 <= k < |waiters| && waiters[k] == w;
      assert l[if k < i then k else k - 1] == w;
    }
  }

  lemma RepliesMore(slots: map<Wid, Slot>, hist: seq<Message>, fate: seq<Fate>, m: Message, f: Fate)
    requires RepliesOk(slots, hist, fate)
    ensures RepliesOk(slots, hist + [m], fate + [f])
  {
    forall w | w in slots && slots[w].reply.Some?
      ensures exists i :: 0 <= i < |hist| + 1 && (hist + [m])[i] == slots[w].reply.value && (fate + [f])[i] == Delivered(w)
    {
      var i :| 0 <= i < |hist| && hist[i] == slots[w].reply.value && fate[i] == Delivered(w);
      assert (hist + [m])[i] == slots[w].reply.value && (fate + [f])[i] == Delivered(w);
    }
  }

  lemma RepliesKept(slots: map<Wid, Slot>, hist: seq<Message>, fate: seq<Fate>, fate': seq<Fate>)
    requires RepliesOk(slots, hist, fate) && |fate'| == |fate|
    requires forall i :: 0 <= i < |fate| && fate[i].Delivered? ==> fate'[i] == fate[i]
    ensures RepliesOk(slots, hist, fate')
  {
    forall w | w in slots && slots[w].reply.Some?
      ensures exists i :: 0 <= i < |hist| && hist[i] == slots[w].reply.value && fate'[i] == Delivered(w)
    {
      var i :| 0 <= i < |hist| && hist[i] == slots[w].reply.value && fate[i] == Delivered(w);
      assert fate'[i] == Delivered(w);
    }
  }

  class Inbox {
    var messages: seq<Message>
    var count: int
    var readable: bool
    var waiters: seq<Wid>
    var slots: map<Wid, Slot>
    var txid: int
    ghost var hist: seq<Message>
    ghost var fate: seq<Fate>
    ghost var taken: seq<Message>

    ghost predicate Valid()
      reads this
    {
      && Accounted(hist, fate, messages, taken)
      && count == |messages| && (readable <==> messages != [])
      && WaitersOk(waiters, slots) && RepliesOk(slots, hist, fate)
      && 0 <= txid < 2 * HIGH
    }

    constructor ()
      ensures Valid() && messages == [] && waiters == [] && slots == map[] && hist == [] && taken == [] && txid == 0
    {
      messages, count, readable, waiters, slots, txid := [], 0, false, [], map[], 0;
      hist, fate, taken := [], [], [];
    }

    /** The waiter a message is for, if there is one. */
    method FindWaiter(x: Txid) returns (i: int)
      requires TxidsOk(waiters, slots)
      ensures -1 <= i < |waiters|
      ensures i >= 0 ==> waiters[i] in slots && slots[waiters[i]].txid == x
      ensures i < 0 ==> !InUse(waiters, slots, x)
    {
      i := 0;
      while i < |waiters|
        invariant 0 <= i <= |waiters|
        invariant forall k :: 0 <= k < i ==> waiters[k] in slots && slots[waiters[k]].txid != x
      {
        assert waiters[i] in waiters;
        if slots[waiters[i]].txid == x {
          return;
        }
        i := i + 1;
      }
      i := -1;
    }

    /** WriteSelf: to the one waiter with that txid, otherwise to the back of the queue. */
    method WriteSelf(m: Message)
      requires Valid()
      modifies this
      ensures Valid() && hist == old(hist) + [m] && taken == old(taken) && txid == old(txid)
      ensures |fate| == |hist| && fate[..|old(fate)|] == old(fate)
      ensures fate[|hist| - 1].Queued? <==> !InUse(old(waiters), old(slots), m.txid)
      ensures fate[|hist| - 1].Delivered? <==> InUse(old(waiters), old(slots), m.txid)
      ensures fate[|hist| - 1].Queued? ==>
                messages == old(messages) + [m] && waiters == old(waiters) && slots == old(slots)
      ensures fate[|hist| - 1].Delivered? ==>
                var w := fate[|hist| - 1].waiter;
                && w in old(waiters) && w in old(slots) && old(slots)[w].txid == m.txid && messages == old(messages)
                && slots == old(slots)[w := Slot(m.txid, Ok, Some(m))]
                && (forall v :: v in waiters <==> v in old(waiters) && v != w)
    {
      var i := FindWaiter(m.txid);
      if i >= 0 {
        Deliver(i, m);
      } else {
        WrittenOk(hist, fate, messages, taken, m, Queued);
        RepliesMore(slots, hist, fate, m, Queued);
        messages, count, readable := messages + [m], count + 1, true;
        hist, fate := hist + [m], fate + [Queued];
      }
    }

    method Deliver(i: int, m: Message)
      requires Valid() && 0 <= i < |waiters| && waiters[i] in slots && slots[waiters[i]].txid == m.txid
      modifies this
      ensures Valid() && hist == old(hist) + [m] && fate == old(fate) + [Delivered(old(waiters)[i])]
      ensures taken == old(taken) && messages == old(messages) && txid == old(txid)
      ensures slots == old(slots)[old(waiters)[i] := Slot(m.txid, Ok, Some(m))]
      ensures forall v :: v in waiters <==> v in old(waiters) && v != old(waiters)[i]
    {
      var w, x := waiters[i], Slot(m.txid, Ok, Some(m));
      WrittenOk(hist, fate, messages, taken, m, Delivered(w));
      RepliesMore(slots, hist, fate, m, Delivered(w));
      LeavesOk(waiters, slots, i, x);
      DropMembers(waiters, i);
      waiters, slots := Drop(waiters, i), slots[w := x];
      hist, fate := hist + [m], fate + [Delivered(w)];
      assert hist[|hist| - 1] == m && fate[|hist| - 1] == Delivered(w);
    }

    /** Read: the oldest message that was not a reply. One that does not fit stays, unless
        the reader allows it to be thrown away. */
    method Read(ownerOk: bool, peer: bool, maxSize: int, maxHandles: int, mayDiscard: bool) returns (r: Status, msg: Option<Message>)
      requires Valid()
      modifies this
      ensures Valid() && hist == old(hist) && waiters == old(waiters) && slots == old(slots) && txid == old(txid)
      ensures msg.None? ==> messages == old(messages) && taken == old(taken) && fate == old(fate)
      ensures msg.Some? ==> old(messages) == [msg.value] + messages && taken == old(taken) + [msg.value]
      ensures msg.Some? ==> exists k :: 0 <= k < |old(fate)| && old(fate)[k] == Queued && fate == old(fate)[k := Taken]
      ensures r == if !ownerOk then BadHandle
                   else if old(messages) == [] then (if peer then ShouldWait else PeerClosed)
                   else if old(messages)[0].size > maxSize || old(messages)[0].handles > maxHandles then BufferTooSmall
                   else Ok
      ensures msg.Some? <==> r == Ok || (r == BufferTooSmall && mayDiscard)
    {
      msg := None;
      if !ownerOk {
        return BadHandle, None;
      }
      if messages == [] {
        return (if peer then ShouldWait else PeerClosed), None;
      }
      var m := messages[0];
      r := Ok;
      if m.size > maxSize || m.handles > maxHandles {
        r := BufferTooSmall;
        if !mayDiscard {
          return;
        }
      }
      ghost var fate' := TakenOk(hist, fate, messages, taken);
      RepliesKept(slots, hist, fate, fate');
      taken, fate := taken + [m], fate';
      msg := Some(m);
      messages, count := messages[1..], count - 1;
      if messages == [] {
        readable := false;
      }
    }

    /** The txid search of Call: the first id after the counter that nobody uses. It ends
        because there are fewer than 2^31 waiters. */
    method AllocTxid() returns (x: Txid)
      requires Valid() && |waiters| < HIGH
      modifies this`txid
      ensures Valid() && HIGH <= x.v < 2 * HIGH && FirstFree(waiters, slots, old(txid) + 1, x) && WithHighBit(txid) == x
    {
      ghost var start, tried := txid, [];
      while true
        invariant 0 <= txid < 2 * HIGH && txid % HIGH == (start + |tried|) % HIGH
        invariant forall i :: 0 <= i < |tried| ==> tried[i] == WithHighBit(start + 1 + i) && InUse(waiters, slots, tried[i])
        invariant |tried| <= |waiters|
        decreases |waiters| - |tried|
      {
        NextKeepsHighBits(txid, start + |tried|);
        txid := Next(txid);
        x := WithHighBit(txid);
        assert x == WithHighBit(start + 1 + |tried|);
        var i := FindWaiter(x);
        if i < 0 {
          forall d | start + 1 <= d < start + 1 + |tried| ensures UsedAt(waiters, slots, d) {
            assert tried[d - start - 1] == WithHighBit(d);
          }
          assert FreeAfter(waiters, slots, start + 1, |tried|, x);
          return;
        }
        assert InUse(waiters, slots, x) by { assert waiters[i] in waiters; }
        ghost var tried' := tried + [x];
        forall a, b | 0 <= a < b < |tried'| ensures tried'[a] != tried'[b] {
          HighBitsDiffer(start + 1, a, b);
        }
        Pigeonhole(tried', waiters, slots);
        tried := tried';
      }
    }

    /** The waiter goes to the back of the list with a txid nobody else has. */
    method Register(w: Wid) returns (x: Txid)
      requires Valid() && w !in slots && |waiters| < HIGH
      modifies this
      ensures Valid() && waiters == old(waiters) + [w] && slots == old(slots)[w := Slot(x, TimedOut, None)]
      ensures HIGH <= x.v < 2 * HIGH && FirstFree(old(waiters), old(slots), old(txid) + 1, x) && !InUse(old(waiters), old(slots), x)
      ensures WithHighBit(txid) == x
      ensures messages == old(messages) && hist == old(hist) && fate == old(fate) && taken == old(taken)
    {
      x := AllocTxid();
      assert w !in waiters;
      waiters, slots := waiters + [w], slots[w := Slot(x, TimedOut, None)];
    }

    /** The end of a call, after a signal or at its deadline: the waiter takes itself off
        the list if, and only if, nobody else has. */
    method EndCall(w: Wid) returns (r: Status, reply: Option<Message>)
      requires Valid() && w in slots
      modifies this
      ensures Valid() && slots == old(slots) - {w}
      ensures r == old(slots)[w].status && reply == old(slots)[w].reply
      ensures r == TimedOut <==> w in old(waiters)
      ensures forall v :: v in waiters <==> v in old(waiters) && v != w
      ensures messages == old(messages) && hist == old(hist) && fate == old(fate) && taken == old(taken) && txid == old(txid)
    {
      r, reply := slots[w].status, slots[w].reply;
      if r == TimedOut {
        var i :| 0 <= i < |waiters| && waiters[i] == w;
        DropMembers(waiters, i);
        waiters := Drop(waiters, i);
      }
      slots := slots - {w};
    }

    /** An endpoint goes away: every call that still waits ends with this status. */
    method CancelAll(status: Status)
      requires Valid() && (status == Canceled || status == PeerClosed)
      modifies this
      ensures Valid() && waiters == [] && slots.Keys == old(slots).Keys
      ensures forall w :: w in slots ==>
                slots[w] == if w in old(waiters) then old(slots)[w].(status := status) else old(slots)[w]
      ensures messages == old(messages) && hist == old(hist) && fate == old(fate) && taken == old(taken) && txid == old(txid)
    {
      while waiters != []
        invariant Valid() && slots.Keys == old(slots).Keys
        invariant messages == old(messages) && hist == old(hist) && fate == old(fate) && taken == old(taken) && txid == old(txid)
        invariant forall w :: w in waiters ==> w in old(waiters)
        invariant forall w :: w in slots ==>
                    slots[w] == if w in old(waiters) && w !in waiters then old(slots)[w].(status := status) else old(slots)[w]
        decreases |waiters|
      {
        var w := waiters[0];
        assert w in waiters;
        LeavesOk(waiters, slots, 0, slots[w].(status := status));
        DropMembers(waiters, 0);
        slots, waiters := slots[w := slots[w].(status := status)], Drop(waiters, 0);
      }
    }
  }

  // ----- both ends -----

  /** Write: the message goes to the other endpoint. */
  method Write(peer: Inbox, ownerOk: bool, open: bool, m: Message) returns (r: Status)
    requires peer.Valid()
    modifies peer
    ensures peer.Valid() && r == if !ownerOk then BadHandle else if !open then PeerClosed else Ok
    ensures r != Ok ==> unchanged(peer)
    ensures r == Ok ==>
              && peer.hist == old(peer.hist) + [m] && peer.taken == old(peer.taken)
              && |peer.fate| == |peer.hist| && peer.fate[..|old(peer.fate)|] == old(peer.fate)
              && (peer.fate[|peer.hist| - 1].Queued? <==> !InUse(old(peer.waiters), old(peer.slots), m.txid))
              && (peer.fate[|peer.hist| - 1].Delivered? <==> InUse(old(peer.waiters), old(peer.slots), m.txid))
  {
    if !ownerOk {
      return BadHandle;
    }
    if !open {
      return PeerClosed;
    }
    peer.WriteSelf(m);
    r := Ok;
  }

  /** The message waiters of all threads: those that have begun to wait, on whatever channel. */
  class Threads {
    var begun: set<Wid>

    constructor ()
      ensures begun == {}
    {
      begun := {};
    }
  }

  /** The first half of Call. The waiter is registered here before the message is written
      there, under the id that the message carries. A waiter that has already begun to
      wait, here or on another channel, is refused; one whose owner check fails is left
      behind. The request is taken for a reply iff somebody at the other end waits under
      the same id. */
  method Call(self: Inbox, peer: Inbox, threads: Threads, w: Wid, ownerOk: bool, open: bool, m: Message) returns (r: Status)
    requires self.Valid() && peer.Valid() && self != peer && |self.waiters| < HIGH && self.slots.Keys <= threads.begun
    modifies self, peer, threads
    ensures self.Valid() && peer.Valid() && self.slots.Keys <= threads.begun
    ensures r == if w in old(threads.begun) then BadState
                 else if !ownerOk then BadHandle else if !open then PeerClosed else Ok
    ensures r == Ok ==>
              && self.waiters == old(self.waiters) + [w]
              && w in self.slots && self.slots == old(self.slots)[w := Slot(self.slots[w].txid, TimedOut, None)]
              && var x := self.slots[w].txid;
              && HIGH <= x.v && FirstFree(old(self.waiters), old(self.slots), old(self.txid) + 1, x)
              && !InUse(old(self.waiters), old(self.slots), x) && WithHighBit(self.txid) == x
              && peer.hist == old(peer.hist) + [m.(txid := x)] && |peer.fate| == |peer.hist|
              && peer.txid == old(peer.txid)
              && (peer.fate[|peer.hist| - 1].Queued? <==> !InUse(old(peer.waiters), old(peer.slots), x))
              && (peer.fate[|peer.hist| - 1].Delivered? <==> InUse(old(peer.waiters), old(peer.slots), x))
              && (peer.fate[|peer.hist| - 1].Queued? ==> peer.waiters == old(peer.waiters) && peer.slots == old(peer.slots))
              && (peer.fate[|peer.hist| - 1].Delivered? ==>
                    var v := peer.fate[|peer.hist| - 1].waiter;
                    && v in old(peer.waiters) && v in old(peer.slots) && old(peer.slots)[v].txid == x
                    && peer.slots == old(peer.slots)[v := Slot(x, Ok, Some(m.(txid := x)))])
    ensures r != Ok ==> unchanged(peer) && unchanged(self)
    ensures threads.begun == if r == Ok || r == BadHandle then old(threads.begun) + {w} else old(threads.begun)
  {
    if w in threads.begun {
      return BadState;
    }
    threads.begun := threads.begun + {w};
    if !ownerOk {
      return BadHandle;
    }
    if !open {
      threads.begun := threads.begun - {w};
      return PeerClosed;
    }
    var x := self.Register(w);
    peer.WriteSelf(m.(txid := x));
    r := Ok;
  }

  /** The second half: the waiter may be used again. */
  method Resume(self: Inbox, threads: Threads, w: Wid) returns (r: Status, reply: Option<Message>)
    requires self.Valid() && w in self.slots && self.slots.Keys <= threads.begun
    modifies self, threads
    ensures self.Valid() && self.slots == old(self.slots) - {w} && threads.begun == old(threads.begun) - {w}
    ensures self.slots.Keys <= threads.begun
    ensures r == old(self.slots)[w].status && reply == old(self.slots)[w].reply
    ensures r == TimedOut <==> w in old(self.waiters)
    ensures self.txid == old(self.txid) && forall v :: v in self.waiters <==> v in old(self.waiters) && v != w
  {
    r, reply := self.EndCall(w);
    threads.begun := threads.begun - {w};
  }

  /** A call that ended, by its deadline or otherwise, and the next one have different ids:
      a late reply to the first is not taken for a reply to the second. */
  method CallAgain(self: Inbox, peer: Inbox, threads: Threads, w: Wid, m: Message, n: Message) returns (x: Txid, y: Txid)
    requires self.Valid() && peer.Valid() && self != peer && |self.waiters| < HIGH - 2 && self.slots.Keys <= threads.begun
    requires w !in threads.begun
    modifies self, peer, threads
    ensures self.Valid() && peer.Valid() && x != y && w in self.slots && self.slots[w].txid == y && !InUse(self.waiters, self.slots, x)
  {
    x := CallAndEnd(self, peer, threads, w, m);
    ghost var c, waiters, slots := self.txid, self.waiters, self.slots;
    var r := Call(self, peer, threads, w, true, true, n);
    y := self.slots[w].txid;
    NextIdDiffers(waiters, slots, c, y);
  }

  method CallAndEnd(self: Inbox, peer: Inbox, threads: Threads, w: Wid, m: Message) returns (x: Txid)
    requires self.Valid() && peer.Valid() && self != peer && |self.waiters| < HIGH - 2 && self.slots.Keys <= threads.begun
    requires w !in threads.begun
    modifies self, peer, threads
    ensures self.Valid() && peer.Valid() && |self.waiters| < HIGH - 2 && self.slots.Keys <= threads.begun && w !in threads.begun
    ensures x == WithHighBit(self.txid) && !InUse(self.waiters, self.slots, x)
  {
    var r := Call(self, peer, threads, w, true, true, m);
    x := self.slots[w].txid;
    var reply;
    r, reply := Resume(self, threads, w);
    FewerWaiters(old(self.waiters), self.waiters);
  }

  lemma FewerWaiters(l: seq<Wid>, l': seq<Wid>)
    requires (forall i, j :: 0 <= i < j < |l'| ==> l'[i] != l'[j]) && forall w :: w in l' ==> w in l
    ensures |l'| <= |l|
    decreases |l'|
  {
    if l' != [] {
      var w := l'[|l'| - 1];
      assert w in l' && w in l;
      var p :| 0 <= p < |l| && l[p] == w;
      var rest := l[..p] + l[p + 1..];
      forall v | v in l'[..|l'| - 1] ensures v in rest {
        assert v in l' && v in l;
        var i :| 0 <= i < |l| && l[i] == v;
        assert v != w;
        assert rest[if i < p then i else i - 1] == v;
      }
      FewerWaiters(rest, l'[..|l'| - 1]);
    }
  }

  /** Both ends count from the same value, so two calls that cross get the same id: the
      second request is handed to the first caller as its reply. */
  method CrossingCalls(v: Wid, w: Wid, m: Message, n: Message) returns (a: Inbox, b: Inbox)
    requires v != w
    ensures fresh(a) && fresh(b) && a.Valid() && b.Valid()
    ensures v in a.slots && a.slots[v].status == Ok && a.slots[v].reply == Some(n.(txid := a.slots[v].txid))
    ensures w in b.slots && b.slots[w].txid == a.slots[v].txid && b.slots[w].reply.None?
  {
    a := new Inbox();
    b := new Inbox();
    var threads := new Threads();
    var r := Call(a, b, threads, v, true, true, m);
    NobodyYet(a.slots[v].txid);
    assert !InUse([], map[], a.slots[v].txid);
    AnswerByCalling(b, a, threads, w, v, n);
  }

  /** A fresh endpoint calls back while one call from the other end waits. */
  method AnswerByCalling(self: Inbox, peer: Inbox, threads: Threads, w: Wid, v: Wid, n: Message)
    requires self.Valid() && peer.Valid() && self != peer && self.waiters == [] && self.slots == map[] && self.txid == 0
    requires w !in threads.begun && peer.waiters == [v] && v in peer.slots && peer.slots[v].txid == WithHighBit(1)
    modifies self, peer, threads
    ensures self.Valid() && peer.Valid()
    ensures v in peer.slots && peer.slots[v] == Slot(WithHighBit(1), Ok, Some(n.(txid := WithHighBit(1))))
    ensures w in self.slots && self.slots[w] == Slot(WithHighBit(1), TimedOut, None)
  {
    assert InUse(peer.waiters, peer.slots, WithHighBit(1)) by { assert v in peer.waiters; }
    var r := Call(self, peer, threads, w, true, true, n);
    NobodyYet(self.slots[w].txid);
  }

  lemma NobodyYet(x: Txid)
    requires FirstFree([], map[], 1, x)
    ensures x == WithHighBit(1)
  {
    var n :| FreeAfter([], map[], 1, n, x);
    assert !UsedAt([], map[], 1);
  }
}
