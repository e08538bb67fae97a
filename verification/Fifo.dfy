/** One direction of a FIFO (kernel/object/fifo_dispatcher.cc): a ring buffer whose head and
    tail are 32-bit counters that wrap. It refines a bounded sequence. */
module Fifo {
  type Elem = int

  const WORD := 0x1_0000_0000
  const MAX_SIZE := 4096               // kMaxSizeBytes, one page

  datatype Status = Ok | OutOfRange | ShouldWait | PeerClosed | InvalidArgs

  function Pow2(k: nat): int { if k == 0 then 1 else 2 * Pow2(k - 1) }

  lemma {:induction false} Pow2Divides(k: nat, m: nat)
    requires k <= m
    ensures Pow2(k) > 0 && Pow2(m) % Pow2(k) == 0
  {
    if k == 0 {
      Pow2Positive(m);
    } else {
      Pow2Divides(k - 1, m - 1);
      DoubleMod(Pow2(m - 1), Pow2(k - 1));
    }
  }

  lemma {:induction false} Pow2Positive(m: nat)
    ensures Pow2(m) > 0
  {
    if m > 0 { Pow2Positive(m - 1); }
  }

  lemma DoubleMod(a: int, b: int)
    requires b > 0 && a % b == 0
    ensures (2 * a) % (2 * b) == 0
  {
    var q := a / b;
    assert a == b * q;
    assert 2 * a == (2 * b) * q;
    MulMod(2 * b, q);
  }

  lemma MulMod(n: int, q: int)
    requires n > 0
    ensures (n * q) % n == 0
  {
    ModUnique(n * q, n, q, 0);
  }

  /** The only multiple of n strictly between -n and n is zero. */
  lemma SmallMultiple(n: int, q: int, d: int)
    requires n > 0 && d == n * q && -n < d < n
    ensures q == 0 && d == 0
  {
    assert q >= 1 ==> n * q >= n;
    assert q <= -1 ==> n * q <= -n;
  }

  lemma ModUnique(x: int, n: int, q: int, r: int)
    requires n > 0 && x == n * q + r && 0 <= r < n
    ensures x % n == r
  {
    var q', r' := x / n, x % n;
    assert x == n * q' + r';
    assert n * (q' - q) == n * q' - n * q;
    SmallMultiple(n, q' - q, r - r');
  }

  /** The counters count modulo 2^32, the slots modulo n, and n divides 2^32. */
  predicate Divides(n: int) { n > 0 && WORD % n == 0 }

  lemma WrapMod(x: int, n: int)
    requires Divides(n)
    ensures (x % WORD) % n == x % n
  {
    var q, m := x / WORD, WORD / n;
    var r := x % WORD;
    assert WORD == n * m;
    assert x == n * (m * q) + r by { assert WORD * q == n * (m * q); }
    var q', r' := r / n, r % n;
    assert x == n * (m * q + q') + r' by { assert n * (m * q + q') == n * (m * q) + n * q'; }
    ModUnique(x, n, m * q + q', r');
  }

  /** Different positions within n of each other are different slots. */
  lemma SlotsDiffer(x: int, i: int, j: int, n: int)
    requires n > 0 && i < j < i + n
    ensures (x + i) % n != (x + j) % n
  {
    var a, b := (x + i) / n, (x + j) / n;
    var d := (x + j) % n - (x + i) % n;
    assert n * (b - a) == n * b - n * a;
    assert j - i - d == n * (b - a);
    if d == 0 {
      SmallMultiple(n, b - a, j - i);
    }
  }

  /** Within one run of slots the slot number goes up by one. */
  lemma SlotPlus(x: int, j: int, n: int)
    requires n > 0 && 0 <= j && x % n + j < n
    ensures (x + j) % n == x % n + j
  {
    ModUnique(x + j, n, x / n, x % n + j);
  }

  // ----- the ring as a sequence -----

  /** The size elements from tail on. */
  function View(d: seq<Elem>, tail: int, size: int): seq<Elem>
    requires |d| > 0 && size >= 0
  {
    seq(size, i requires 0 <= i < size => d[(tail + i) % |d|])
  }

  /** The buffer with a chunk copied in at an offset. */
  function Patch(d: seq<Elem>, offset: int, chunk: seq<Elem>): seq<Elem>
    requires 0 <= offset && offset + |chunk| <= |d|
  {
    d[..offset] + chunk + d[offset + |chunk|..]
  }

  lemma PatchOne(d: seq<Elem>, offset: int, src: seq<Elem>, i: int)
    requires 0 <= offset && 0 <= i < |src| && offset + |src| <= |d|
    ensures Patch(d, offset, src[..i])[offset + i := src[i]] == Patch(d, offset, src[..i + 1])
  {
  }

  /** Copying into the slots after the last element appends. */
  lemma PatchAppends(d: seq<Elem>, tail: int, size: int, chunk: seq<Elem>)
    requires |d| > 0 && 0 <= size && size + |chunk| <= |d| && (tail + size) % |d| + |chunk| <= |d|
    ensures View(Patch(d, (tail + size) % |d|, chunk), tail, size + |chunk|) == View(d, tail, size) + chunk
  {
    var n, offset := |d|, (tail + size) % |d|;
    var d' := Patch(d, offset, chunk);
    forall i | 0 <= i < size + |chunk| ensures d'[(tail + i) % n] == (View(d, tail, size) + chunk)[i] {
      if i < size {
        OldSlot(tail, i, size, |chunk|, n);
      } else {
        SlotPlus(tail + size, i - size, n);
      }
    }
  }

  /** The slots in use are not among those that come next. */
  lemma OldSlot(tail: int, i: int, size: int, len: int, n: int)
    requires n > 0 && 0 <= i < size && size + len <= n && (tail + size) % n + len <= n
    ensures !((tail + size) % n <= (tail + i) % n < (tail + size) % n + len)
  {
    var j := (tail + i) % n - (tail + size) % n;
    if 0 <= j < len {
      SlotPlus(tail + size, j, n);
      SlotsDiffer(tail, i, size + j, n);
    }
  }

  lemma ViewPrefix(d: seq<Elem>, tail: int, size: int, size': int)
    requires |d| > 0 && 0 <= size <= size'
    ensures View(d, tail, size') [..size] == View(d, tail, size)
  {
  }

  /** The first m elements are the slots from tail's on, up to the end of the buffer. */
  lemma ViewSplits(d: seq<Elem>, tail: int, size: int, m: int)
    requires Divides(|d|) && 0 <= m <= size && tail % |d| + m <= |d|
    ensures View(d, tail, size) == d[tail % |d|..tail % |d| + m] + View(d, (tail + m) % WORD, size - m)
  {
    var n := |d|;
    var a, b := d[tail % n..tail % n + m], View(d, (tail + m) % WORD, size - m);
    forall i | 0 <= i < size ensures d[(tail + i) % n] == (a + b)[i] {
      if i < m {
        SlotPlus(tail, i, n);
      } else {
        AddMod((tail + m) % WORD, tail + m, i - m, n);
      }
    }
  }

  lemma AddMod(x: int, y: int, k: int, n: int)
    requires Divides(n) && x == y % WORD
    ensures (x + k) % n == (y + k) % n
  {
    var q := y / WORD;
    WrapMod(x + k, n);
    WrapMod(y + k, n);
    assert y + k == WORD * q + (x + k);
    ModShift(x + k, WORD, q);
  }

  lemma ModShift(x: int, n: int, q: int)
    requires n > 0
    ensures (n * q + x) % n == x % n
  {
    assert n * (q + x / n) == n * q + n * (x / n);
    ModUnique(n * q + x, n, q + x / n, x % n);
  }

  function Min(a: int, b: int): int { if b < a then b else a }

  /** Create: count must be a power of two, and everything must fit in one page. */
  predicate CreateOk(count: int, elemSize: int) {
    count > 0 && elemSize > 0 && (exists k: nat :: k <= 12 && Pow2(k) == count) &&
    count <= MAX_SIZE && elemSize <= MAX_SIZE && count * elemSize <= MAX_SIZE
  }

  class Ring {
    const elemSize: int
    var data: array<Elem>
    var head: int
    var tail: int
    /** READABLE on this end, WRITABLE on the other. */
    var readable: bool
    var writable: bool
    /** The other end still exists. */
    var open: bool
    ghost var size: int

    ghost predicate Valid()
      reads this, data
    {
      && Divides(data.Length) && data.Length <= MAX_SIZE
      && 0 <= tail < WORD && 0 <= size <= data.Length && head == (tail + size) % WORD
      && (readable <==> size > 0) && (open ==> (writable <==> size < data.Length))
    }

    ghost function Contents(): seq<Elem>
      requires Valid()
      reads this, data
    {
      View(data[..], tail, size)
    }

    constructor (count: int, elemSize: int)
      requires CreateOk(count, elemSize)
      ensures Valid() && fresh(data) && data.Length == count && Contents() == [] && this.elemSize == elemSize && open
    {
      this.elemSize := elemSize;
      data := new Elem[count];
      head, tail, readable, writable, open, size := 0, 0, false, true, true, 0;
      new;
      ghost var k: nat :| k <= 12 && Pow2(k) == count;
      Pow2Divides(k, 32);
      assert Pow2(32) == WORD by { Pow2Values(); }
    }

    /** head_ - tail_ in 32 bits. */
    method Used(ghost n: int) returns (used: int)
      requires 0 <= tail < WORD && 0 <= n < WORD && head == (tail + n) % WORD
      ensures used == n
    {
      SizeBack(head, tail, n);
      used := (head - tail) % WORD;
    }

    /** The other end goes away; what it has written can still be read. */
    method PeerGone()
      requires Valid()
      modifies this`open
      ensures Valid() && !open && Contents() == old(Contents())
    {
      open := false;
    }

    /** copy_array_from_user into the slots at offset; `room` elements of user memory can
        be read. Those are copied even if that is not enough. */
    method CopyIn(offset: int, src: seq<Elem>, room: int) returns (ok: bool)
      requires 0 <= offset && offset + |src| <= data.Length
      modifies data
      ensures ok == (|src| <= room)
      ensures data[..] == Patch(old(data[..]), offset, if ok then src else src[..Max0(room)])
    {
      ok := |src| <= room;
      var m := if ok then |src| else Max0(room);
      var i := 0;
      while i < m
        invariant 0 <= i <= m <= |src|
        invariant data[..] == Patch(old(data[..]), offset, src[..i])
      {
        PatchOne(old(data[..]), offset, src, i);
        data[offset + i] := src[i];
        i := i + 1;
      }
    }

    /** WriteSelfLocked: as many elements as there is room for go in at the back. If the
        caller's memory runs out, even in the second part of a copy that wraps, nothing
        has been written. */
    method Write(elem: int, src: seq<Elem>, room: int) returns (r: Status, actual: int)
      requires Valid() && open
      modifies this`head, this`readable, this`writable, this`size, data
      ensures Valid()
      ensures r == if elem != elemSize || |src| == 0 then OutOfRange
                   else if old(size) == data.Length then ShouldWait
                   else if Min(|src|, data.Length - old(size)) > room then InvalidArgs
                   else Ok
      ensures r == Ok ==> actual == Min(|src|, data.Length - old(size)) && Contents() == old(Contents()) + src[..actual]
      ensures r != Ok ==> Contents() == old(Contents())
    {
      actual := 0;
      if elem != elemSize || |src| == 0 {
        return OutOfRange, 0;
      }
      var used := Used(size);
      var avail := data.Length - used;
      if avail == 0 {
        return ShouldWait, 0;
      }
      var k := Min(|src|, avail);
      r := WriteAll(src, k, room);
      if r == Ok {
        if used == 0 {
          readable := true;
        }
        var now := Used(size + k);
        if now == data.Length {
          writable := false;
        }
        size := size + k;
        actual := k;
      }
    }

    /** The copy loop, with its roll-back. */
    method WriteAll(src: seq<Elem>, k: int, room: int) returns (r: Status)
      requires Valid() && 0 < k <= |src| && size + k <= data.Length
      modifies this`head, data
      ensures r == if k > room then InvalidArgs else Ok
      ensures r != Ok ==> head == old(head) && View(data[..], tail, size) == old(View(data[..], tail, size))
      ensures r == Ok ==> head == (tail + size + k) % WORD
      ensures r == Ok ==> View(data[..], tail, size + k) == old(View(data[..], tail, size)) + src[..k]
    {
      var oldHead, done := head, 0;
      ghost var was := View(data[..], tail, size);
      r := Ok;
      while done < k
        invariant 0 <= done <= k && done <= Max0(room) && r == Ok
        invariant head == (tail + size + done) % WORD
        invariant View(data[..], tail, size + done) == was + src[..done]
        decreases k - done
      {
        done, r := WriteChunk(src, done, k, room, was);
        if r != Ok {
          head := oldHead;
          return;
        }
      }
    }

    /** One copy of the loop: up to the end of the buffer. */
    method WriteChunk(src: seq<Elem>, done: int, k: int, room: int, ghost was: seq<Elem>) returns (done': int, r: Status)
      requires Divides(data.Length) && 0 <= done < k <= |src| && 0 <= size && size + k <= data.Length && done <= Max0(room)
      requires head == (tail + size + done) % WORD && |was| == size
      requires View(data[..], tail, size + done) == was + src[..done]
      modifies this`head, data
      ensures r == Ok || r == InvalidArgs
      ensures r == Ok ==> done < done' <= k && done' <= Max0(room) && head == (tail + size + done') % WORD
      ensures r == Ok ==> View(data[..], tail, size + done') == was + src[..done']
      ensures r == InvalidArgs ==> room < k && View(data[..], tail, size) == was
    {
      ghost var d := data[..];
      WrapMod(tail + size + done, data.Length);
      var offset := Slot(head, data.Length);
      var m := Min(k - done, data.Length - offset);
      var chunk := src[done..done + m];
      var ok := CopyIn(offset, chunk, room - done);
      if ok {
        Appended(d, data[..], tail, size, done, offset, was, src, m);
        HeadOn(tail + size + done, m);
        head := (head + m) % WORD;
        return done + m, Ok;
      } else {
        Spoiled(d, data[..], tail, size, done, offset, was, src[..done], chunk[..Max0(room - done)]);
        return done, InvalidArgs;
      }
    }

    /** ReadToUser: elements leave from the front, or all stay if the caller's memory runs
        out. */
    method Read(elem: int, count: int, room: int) returns (r: Status, dst: seq<Elem>)
      requires Valid() && count >= 0
      modifies this`tail, this`readable, this`writable, this`size
      ensures Valid()
      ensures r == if elem != elemSize || count == 0 then OutOfRange
                   else if old(size) == 0 then (if open then ShouldWait else PeerClosed)
                   else if Min(count, old(size)) > room then InvalidArgs
                   else Ok
      ensures r == Ok ==> |dst| == Min(count, old(size)) && old(Contents()) == dst + Contents()
      ensures r != Ok ==> Contents() == old(Contents()) && dst == []
      ensures !open ==> writable == old(writable)
    {
      if elem != elemSize || count == 0 {
        return OutOfRange, [];
      }
      var used := Used(size);
      if used == 0 {
        return (if open then ShouldWait else PeerClosed), [];
      }
      var k := Min(count, used);
      r, dst := ReadAll(k, room);
      if r == Ok {
        if used == data.Length && open {
          writable := true;
        }
        size := size - k;
        var now := Used(size);
        if now == 0 {
          readable := false;
        }
      }
    }

    method ReadAll(k: int, room: int) returns (r: Status, dst: seq<Elem>)
      requires Valid() && 0 < k <= size
      modifies this`tail
      ensures r == if k > room then InvalidArgs else Ok
      ensures r != Ok ==> tail == old(tail) && dst == []
      ensures r == Ok ==> 0 <= tail < WORD && |dst| == k && head == (tail + (size - k)) % WORD
      ensures r == Ok ==> old(View(data[..], tail, size)) == dst + View(data[..], tail, size - k)
    {
      var oldTail := tail;
      ghost var all := View(data[..], oldTail, size);
      r, dst := Ok, [];
      while |dst| < k
        invariant 0 <= |dst| <= k && |dst| <= Max0(room) && r == Ok && 0 <= tail < WORD
        invariant head == (tail + (size - |dst|)) % WORD && all == dst + View(data[..], tail, size - |dst|)
        decreases k - |dst|
      {
        r, dst := ReadChunk(dst, k, room, all);
        if r != Ok {
          tail := oldTail;
          return InvalidArgs, [];
        }
      }
    }

    method ReadChunk(dst: seq<Elem>, k: int, room: int, ghost all: seq<Elem>) returns (r: Status, dst': seq<Elem>)
      requires Divides(data.Length) && 0 <= |dst| < k <= size <= data.Length <= MAX_SIZE && 0 <= tail < WORD
      requires head == (tail + (size - |dst|)) % WORD && all == dst + View(data[..], tail, size - |dst|)
      modifies this`tail
      ensures r == Ok || (r == InvalidArgs && room < k)
      ensures r == Ok ==> |dst| < |dst'| <= k && |dst'| <= Max0(room) && 0 <= tail < WORD
      ensures r == Ok ==> head == (tail + (size - |dst'|)) % WORD && all == dst' + View(data[..], tail, size - |dst'|)
    {
      var offset := Slot(tail, data.Length);
      var m := Min(k - |dst|, data.Length - offset);
      if |dst| + m > room {
        return InvalidArgs, dst;
      }
      ghost var left := size - |dst|;
      ViewSplits(data[..], tail, left, m);
      TailOn(tail, left, m);
      var chunk := data[offset..offset + m];
      assert chunk == data[..][offset..offset + m];
      Regroup(all, dst, chunk, View(data[..], (tail + m) % WORD, left - m));
      tail := (tail + m) % WORD;
      return Ok, dst + chunk;
    }
  }

  function Slot(x: int, n: int): (o: int)
    requires n > 0
    ensures 0 <= o < n
  {
    x % n
  }

  lemma Regroup(all: seq<Elem>, a: seq<Elem>, b: seq<Elem>, c: seq<Elem>)
    requires all == a + (b + c)
    ensures all == (a + b) + c
  {
  }

  lemma Appended(d: seq<Elem>, d': seq<Elem>, tail: int, size: int, done: int, offset: int, was: seq<Elem>, src: seq<Elem>, m: int)
    requires |d| > 0 && 0 <= done && 0 <= m && done + m <= |src| && 0 <= size && size + done + m <= |d| && |was| == size
    requires offset == (tail + size + done) % |d| && offset + m <= |d| && d' == Patch(d, offset, src[done..done + m])
    requires View(d, tail, size + done) == was + src[..done]
    ensures |d'| == |d| && View(d', tail, size + done + m) == was + src[..done + m]
  {
    PatchAppends(d, tail, size + done, src[done..done + m]);
    assert src[..done] + src[done..done + m] == src[..done + m];
    assert (was + src[..done]) + src[done..done + m] == was + (src[..done] + src[done..done + m]);
  }

  lemma Spoiled(d: seq<Elem>, d': seq<Elem>, tail: int, size: int, done: int, offset: int, was: seq<Elem>, front: seq<Elem>, part: seq<Elem>)
    requires |d| > 0 && 0 <= done && 0 <= size && size + done + |part| <= |d| && |was| == size && |front| == done
    requires offset == (tail + size + done) % |d| && offset + |part| <= |d| && d' == Patch(d, offset, part)
    requires View(d, tail, size + done) == was + front
    ensures |d'| == |d| && View(d', tail, size) == was
  {
    PatchAppends(d, tail, size + done, part);
    ViewPrefix(d', tail, size, size + done + |part|);
    assert ((was + front) + part)[..size] == was;
  }

  function Max0(x: int): int { if x > 0 then x else 0 }

  lemma SizeBack(head: int, tail: int, size: int)
    requires 0 <= tail < WORD && 0 <= size < WORD && head == (tail + size) % WORD
    ensures (head - tail) % WORD == size
  {
  }

  lemma HeadOn(x: int, m: int)
    ensures (x % WORD + m) % WORD == (x + m) % WORD
  {
  }

  lemma TailOn(tail: int, size: int, m: int)
    requires 0 <= tail < WORD && 0 <= m <= size < WORD
    ensures (tail + size) % WORD == ((tail + m) % WORD + (size - m)) % WORD
  {
  }

  lemma Pow2Values()
    ensures Pow2(32) == WORD
  {
    assert Pow2(8) == 256;
    assert Pow2(16) == 65536;
    assert Pow2(24) == 0x100_0000;
  }

  /** WriteFromUser: into the buffer of the other end, if that still exists. */
  method WriteFromUser(peer: Ring?, elem: int, src: seq<Elem>, room: int) returns (r: Status, actual: int)
    requires peer != null ==> peer.Valid() && peer.open
    modifies peer, if peer == null then {} else {peer.data}
    ensures peer == null <==> r == PeerClosed
    ensures peer != null ==>
              && peer.Valid() && peer.data == old(peer.data)
              && peer.Contents() == old(peer.Contents()) + (if r == Ok && 0 <= actual <= |src| then src[..actual] else [])
              && (r == Ok ==> 0 < actual == Min(|src|, peer.data.Length - old(peer.size)))
  {
    if peer == null {
      return PeerClosed, 0;
    }
    r, actual := peer.Write(elem, src, room);
  }
}
