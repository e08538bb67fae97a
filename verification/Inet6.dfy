/** The Internet checksum of the boot loader's IPv6 stack (bootloader/src/inet6.c): what the
    sender puts into a packet and what the receiver tests. */
module Inet6 {
  type Byte = int

  const WORD32 := 0x1_0000_0000
  const ONES := 0xFFFF

  const HDR_UDP := 0x1100              // htons(17)
  const HDR_ICMP6 := 0x3A00            // htons(58)

  predicate Bytes(data: seq<Byte>) { forall i :: 0 <= i < |data| ==> 0 <= data[i] <= 255 }

  /** The sum of the 16-bit words of data, low byte first; an odd last byte counts as is. */
  function Words(data: seq<Byte>): int {
    if data == [] then 0
    else if |data| == 1 then data[0]
    else data[0] + 256 * data[1] + Words(data[2..])
  }

  lemma {:induction false} WordsBound(data: seq<Byte>)
    requires Bytes(data)
    ensures 0 <= Words(data) <= ONES * ((|data| + 1) / 2)
  {
    if |data| >= 2 {
      WordsBound(data[2..]);
    }
  }

  /** Sums can be split at an even place. */
  lemma {:induction false} WordsConcat(a: seq<Byte>, b: seq<Byte>)
    requires |a| % 2 == 0
    ensures Words(a + b) == Words(a) + Words(b)
  {
    if a == [] {
      assert a + b == b;
    } else {
      WordsConcat(a[2..], b);
      assert (a + b)[2..] == a[2..] + b;
    }
  }

  /** The one representative of t modulo 65535 that is not zero unless t is. */
  function Rep(t: int): int { if t == 0 then 0 else 1 + (t - 1) % ONES }

  lemma RepRange(t: int)
    requires t >= 0
    ensures 0 <= Rep(t) <= ONES && (Rep(t) == 0 <==> t == 0) && (Rep(t) == ONES <==> t > 0 && t % ONES == 0)
    ensures Rep(t) % ONES == t % ONES
  {
  }

  /** Folding the upper half into the lower keeps the representative. */
  lemma FoldStep(t: int)
    requires t > ONES
    ensures 0 < t % 65536 + t / 65536 < t && Rep(t % 65536 + t / 65536) == Rep(t)
  {
    var hi, lo := t / 65536, t % 65536;
    assert t == hi * 65536 + lo;
    assert (lo + hi) - 1 + hi * ONES == t - 1;
    ModAdd(lo + hi - 1, hi);
  }

  lemma ModAdd(x: int, k: int)
    ensures (x + k * ONES) % ONES == x % ONES
  {
  }

  /** The first loop of checksum: the words are added up in 32 bits, which is enough. */
  method AddUp(data: seq<Byte>, start: int) returns (sum: int)
    requires Bytes(data) && |data| <= 2 * ONES && 0 <= start <= ONES
    ensures sum == start + Words(data) && 0 <= sum < WORD32
  {
    sum := start;
    var i := 0;
    assert data[0..] == data;
    while |data| - i > 1
      invariant 0 <= i <= |data| && i % 2 == 0
      invariant 0 <= sum <= ONES + ONES * (i / 2) && sum + Words(data[i..]) == start + Words(data)
    {
      assert data[i..][2..] == data[i + 2..];
      sum := (sum + data[i] + 256 * data[i + 1]) % WORD32;
      i := i + 2;
    }
    if |data| - i > 0 {
      sum := (sum + data[i]) % WORD32;
    }
  }

  /** checksum: the folded sum of data and a start value. */
  method Checksum(data: seq<Byte>, start: int) returns (sum: int)
    requires Bytes(data) && |data| <= 2 * ONES && 0 <= start <= ONES
    ensures sum == Rep(start + Words(data)) && 0 <= sum <= ONES
  {
    sum := AddUp(data, start);
    while sum > ONES
      invariant 0 <= sum < WORD32 && Rep(sum) == Rep(start + Words(data))
      decreases sum
    {
      FoldStep(sum);
      sum := sum % 65536 + sum / 65536;
    }
    RepRange(sum);
  }

  /** A checksum may be taken in two parts. */
  lemma RepTwice(a: int, b: int)
    requires a >= 0 && b >= 0
    ensures Rep(Rep(a) + b) == Rep(a + b)
  {
    if a > 0 {
      var k := (a - 1) / ONES;
      assert a == Rep(a) + k * ONES;
      ModAdd(Rep(a) + b - 1, k);
    }
  }

  // ----- packets -----

  /** The parts of a packet that count: the length field as a stored word, and everything
      from the source address on. */
  datatype Packet = Packet(length: int, body: seq<Byte>)

  /** A packet whose checksum field is at an even place. */
  predicate PacketOk(p: Packet, at: int) {
    && 0 <= p.length <= ONES && Bytes(p.body) && |p.body| <= 2 * ONES
    && 0 <= at && at % 2 == 0 && at + 2 <= |p.body|
  }

  function Field(p: Packet, at: int): int
    requires 0 <= at && at + 2 <= |p.body|
  {
    p.body[at] + 256 * p.body[at + 1]
  }

  function WithField(p: Packet, at: int, c: int): Packet
    requires 0 <= at && at + 2 <= |p.body|
  {
    p.(body := p.body[at := c % 256][at + 1 := c / 256])
  }

  /** The sum both sides take: protocol, length, addresses and payload. */
  function Total(p: Packet, proto: int): int { proto + p.length + Words(p.body) }

  lemma FieldCounts(p: Packet, at: int, c: int, proto: int)
    requires PacketOk(p, at) && 0 <= c <= ONES
    ensures PacketOk(WithField(p, at, c), at) && Field(WithField(p, at, c), at) == c
    ensures Total(WithField(p, at, c), proto) == Total(p, proto) - Field(p, at) + c
  {
    var b, b' := p.body, WithField(p, at, c).body;
    SplitAt(b, at);
    SplitAt(b', at);
    assert b'[..at] == b[..at] && b'[at + 2..] == b[at + 2..];
  }

  lemma SplitAt(b: seq<Byte>, at: int)
    requires 0 <= at && at % 2 == 0 && at + 2 <= |b|
    ensures Words(b) == Words(b[..at]) + b[at] + 256 * b[at + 1] + Words(b[at + 2..])
  {
    WordsConcat(b[..at], b[at..]);
    assert b == b[..at] + b[at..];
    assert b[at..][2..] == b[at + 2..];
  }

  lemma TotalPositive(p: Packet, at: int, proto: int)
    requires PacketOk(p, at) && proto > 0
    ensures Total(p, proto) > 0
  {
    WordsBound(p.body);
  }

  // ----- sending -----

  /** What ip6_checksum makes of a total: the complement, except that all ones stay. */
  function Complement(t: int): int { if Rep(t) != ONES then ONES - Rep(t) else ONES }

  method Ip6Checksum(p: Packet, at: int, proto: int) returns (c: int)
    requires PacketOk(p, at) && 0 < proto <= ONES
    ensures c == Complement(Total(p, proto)) && 0 < c <= ONES
  {
    assert p.length % 256 + 256 * (p.length / 256) == p.length;
    var header := [p.length % 256, p.length / 256];
    assert Words(header) == p.length by { assert header[2..] == []; }
    var sum := Checksum(header, proto);
    sum := Checksum(p.body, sum);
    WordsBound(p.body);
    RepTwice(proto + p.length, Words(p.body));
    TotalPositive(p, at, proto);
    RepRange(Total(p, proto));
    c := if sum != ONES then ONES - sum else sum;
  }

  /** udp6_send clears the field before it takes the sum. */
  method UdpSeal(p: Packet, at: int) returns (sent: Packet)
    requires PacketOk(p, at)
    ensures sent == Sealed(WithField(p, at, 0), at, HDR_UDP) && PacketOk(sent, at)
  {
    FieldCounts(p, at, 0, HDR_UDP);
    var clear := WithField(p, at, 0);
    var c := Ip6Checksum(clear, at, HDR_UDP);
    FieldCounts(clear, at, c, HDR_UDP);
    sent := WithField(clear, at, c);
  }

  /** icmp6_send takes the sum over whatever the caller left in the field. */
  method IcmpSeal(p: Packet, at: int) returns (sent: Packet)
    requires PacketOk(p, at)
    ensures sent == Sealed(p, at, HDR_ICMP6) && PacketOk(sent, at)
  {
    var c := Ip6Checksum(p, at, HDR_ICMP6);
    FieldCounts(p, at, c, HDR_ICMP6);
    sent := WithField(p, at, c);
  }

  function Sealed(p: Packet, at: int, proto: int): Packet
    requires 0 <= at && at + 2 <= |p.body|
  {
    WithField(p, at, Complement(Total(p, proto)))
  }

  // ----- receiving -----

  /** The packet as the receiver sums it: a field of all ones counts as zero. */
  function AsSummed(p: Packet, at: int): Packet
    requires 0 <= at && at + 2 <= |p.body|
  {
    if Field(p, at) == ONES then WithField(p, at, 0) else p
  }

  predicate Accepted(p: Packet, at: int, proto: int)
    requires 0 <= at && at + 2 <= |p.body|
  {
    Field(p, at) != 0 && Rep(Total(AsSummed(p, at), proto)) == ONES
  }

  /** The tests of udp6_recv and icmp6_recv. */
  method Receive(p: Packet, at: int, proto: int) returns (ok: bool)
    requires PacketOk(p, at) && 0 < proto <= ONES
    ensures ok == Accepted(p, at, proto)
  {
    if Field(p, at) == 0 {
      return false;
    }
    var q := AsSummed(p, at);
    FieldCounts(p, at, 0, proto);
    assert q.length % 256 + 256 * (q.length / 256) == q.length;
    var header := [q.length % 256, q.length / 256];
    assert Words(header) == q.length by { assert header[2..] == []; }
    var sum := Checksum(header, proto);
    sum := Checksum(q.body, sum);
    WordsBound(q.body);
    RepTwice(proto + q.length, Words(q.body));
    ok := sum == ONES;
  }

  // ----- they agree -----

  /** A packet sealed over a field that held f is accepted exactly if f is a zero of
      one's complement arithmetic. */
  lemma SealedAccepted(p: Packet, at: int, proto: int)
    requires PacketOk(p, at) && 0 < proto <= ONES
    ensures Accepted(Sealed(p, at, proto), at, proto) <==> Field(p, at) == 0 || Field(p, at) == ONES
  {
    var t, f := Total(p, proto), Field(p, at);
    var c := Complement(t);
    TotalPositive(p, at, proto);
    RepRange(t);
    FieldCounts(p, at, c, proto);
    FieldCounts(p, at, 0, proto);
    var sent := Sealed(p, at, proto);
    FieldCounts(sent, at, 0, proto);
    var u := Total(AsSummed(sent, at), proto);
    TotalPositive(p, at, proto);
    SumNonNegative(sent, at, proto);
    RepRange(u);
    assert u == t - f + if c == ONES then 0 else c;
    Cancels(t, f, u);
  }

  lemma SumNonNegative(p: Packet, at: int, proto: int)
    requires PacketOk(p, at) && 0 < proto <= ONES
    ensures Total(AsSummed(p, at), proto) > 0
  {
    FieldCounts(p, at, 0, proto);
    WordsBound(AsSummed(p, at).body);
  }

  /** What is left of the sum once the complement is in it is minus the old field. */
  lemma Cancels(t: int, f: int, u: int)
    requires t > 0 && 0 <= f <= ONES && u > 0 && u == t - f + if Complement(t) == ONES then 0 else Complement(t)
    ensures u % ONES == 0 <==> f == 0 || f == ONES
  {
    RepRange(t);
    var k := (t - 1) / ONES;
    assert t == Rep(t) + k * ONES;
    assert u == (k + 1) * ONES - f;
    ModAdd(-f, k + 1);
  }

  /** Every UDP packet the sender builds passes the receiver's test, whatever its payload
      and its length. */
  lemma UdpRoundTrip(p: Packet, at: int)
    requires PacketOk(p, at)
    ensures PacketOk(WithField(p, at, 0), at)
    ensures Accepted(Sealed(WithField(p, at, 0), at, HDR_UDP), at, HDR_UDP)
  {
    FieldCounts(p, at, 0, HDR_UDP);
    SealedAccepted(WithField(p, at, 0), at, HDR_UDP);
  }

  /** So does every ICMP packet: both callers of icmp6_send clear the field. */
  lemma IcmpRoundTrip(p: Packet, at: int)
    requires PacketOk(p, at)
    ensures PacketOk(WithField(p, at, 0), at)
    ensures Accepted(Sealed(WithField(p, at, 0), at, HDR_ICMP6), at, HDR_ICMP6)
  {
    FieldCounts(p, at, 0, HDR_ICMP6);
    SealedAccepted(WithField(p, at, 0), at, HDR_ICMP6);
  }

  /** A packet in which one other word was changed is still accepted only if the change
      is invisible to one's complement arithmetic: zero for all ones, or the reverse. */
  lemma OneWordChanged(p: Packet, at: int, proto: int, k: int, w: int)
    requires PacketOk(p, at) && PacketOk(p, k) && 0 < proto <= ONES && k != at && 0 <= w <= ONES && Accepted(p, at, proto)
    ensures Accepted(WithField(p, k, w), at, proto) <==>
            w == Field(p, k) || (w == 0 && Field(p, k) == ONES) || (w == ONES && Field(p, k) == 0)
  {
    var q := WithField(p, k, w);
    FieldCounts(p, k, w, proto);
    assert Field(q, at) == Field(p, at);
    FieldCounts(p, at, 0, proto);
    FieldCounts(q, at, 0, proto);
    SumNonNegative(p, at, proto);
    SumNonNegative(q, at, proto);
    var t, u := Total(AsSummed(p, at), proto), Total(AsSummed(q, at), proto);
    assert u == t - Field(p, k) + w;
    RepRange(t);
    RepRange(u);
    SameMod(t, Field(p, k), w);
  }

  /** An odd last byte counts like the word it forms with a zero byte. */
  lemma OddLikePadded(data: seq<Byte>)
    requires |data| % 2 == 1
    ensures Words(data) == Words(data + [0])
  {
    var front := data[..|data| - 1];
    assert data == front + [data[|data| - 1]] && data + [0] == front + [data[|data| - 1], 0];
    WordsConcat(front, [data[|data| - 1]]);
    WordsConcat(front, [data[|data| - 1], 0]);
    assert [data[|data| - 1], 0][2..] == [];
  }

  /** Any change to it is noticed. */
  lemma OddByteChanged(p: Packet, at: int, proto: int, b: Byte)
    requires PacketOk(p, at) && 0 < proto <= ONES && |p.body| % 2 == 1 && 0 <= b <= 255 && Accepted(p, at, proto)
    ensures Accepted(p.(body := p.body[|p.body| - 1 := b]), at, proto) <==> b == p.body[|p.body| - 1]
  {
    var last := |p.body| - 1;
    var q := p.(body := p.body[last := b]);
    assert PacketOk(q, at) && Field(q, at) == Field(p, at);
    var s, s' := AsSummed(p, at).body, AsSummed(q, at).body;
    assert s' == s[last := b] && s[last] == p.body[last];
    LastByte(s, b);
    SumNonNegative(p, at, proto);
    SumNonNegative(q, at, proto);
    var t, u := Total(AsSummed(p, at), proto), Total(AsSummed(q, at), proto);
    RepRange(t);
    RepRange(u);
    SameMod(t, p.body[last], b);
  }

  lemma LastByte(s: seq<Byte>, b: Byte)
    requires |s| % 2 == 1
    ensures Words(s[|s| - 1 := b]) == Words(s) - s[|s| - 1] + b
  {
    var front := s[..|s| - 1];
    assert s == front + [s[|s| - 1]] && s[|s| - 1 := b] == front + [b];
    WordsConcat(front, [s[|s| - 1]]);
    WordsConcat(front, [b]);
  }

  /** So is a change of the length, zero and all ones apart, and one of the protocol. */
  lemma HeaderChanged(p: Packet, at: int, proto: int, n: int, proto': int)
    requires PacketOk(p, at) && 0 < proto <= ONES && 0 < proto' <= ONES && 0 <= n <= ONES && Accepted(p, at, proto)
    ensures Accepted(p.(length := n), at, proto) <==> n == p.length || (n == 0 && p.length == ONES) || (n == ONES && p.length == 0)
    ensures Accepted(p, at, proto') <==> proto' == proto
  {
    var q := p.(length := n);
    assert AsSummed(q, at) == AsSummed(p, at).(length := n);
    SumNonNegative(p, at, proto);
    SumNonNegative(p, at, proto');
    SumNonNegative(q, at, proto);
    var t := Total(AsSummed(p, at), proto);
    RepRange(t);
    RepRange(Total(AsSummed(q, at), proto));
    RepRange(Total(AsSummed(p, at), proto'));
    SameMod(t, p.length, n);
    SameMod(t, proto, proto');
  }

  lemma SameMod(t: int, a: int, b: int)
    requires t % ONES == 0 && 0 <= a <= ONES && 0 <= b <= ONES
    ensures (t - a + b) % ONES == 0 <==> a == b || (b == 0 && a == ONES) || (b == ONES && a == 0)
  {
    var k := t / ONES;
    assert t == k * ONES;
    ModAdd(b - a, k);
  }
}
