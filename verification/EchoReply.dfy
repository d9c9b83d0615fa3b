/** The userspace exit's own ICMP echo: recognising an IPv4 echo request, building the reply,
    and the Internet checksum of RFC 1071. */
module EchoReply {
  import opened Options
  import opened Octets

  const IPV4_HEADER := 20
  const ICMP_HEADER := 8
  const U32 := 0x1_0000_0000

  // ------------------------------------------------------------------ the checksum

  /** The sum of the big-endian 16-bit words, an odd last byte padded with zero. */
  function WordSum(b: Bytes): nat {
    if |b| == 0 then 0
    else if |b| == 1 then b[0] as nat * 256
    else b[0] as nat * 256 + b[1] as nat + WordSum(b[2..])
  }

  /** End-around carry until the sum fits 16 bits. */
  function Fold(sum: nat): nat {
    if sum <= 0xffff then sum else Fold(sum / 0x10000 + sum % 0x10000)
  }

  /** `checksum`, with the accumulator as the uint32 it is. */
  method Checksum(b: Bytes) returns (c: nat)
    ensures c == Fold(WordSum(b) % U32) && c <= 0xffff
  {
    var sum := SumWords(b);
    ghost var whole := sum;
    while sum > 0xffff
      invariant Fold(sum) == Fold(whole)
    {
      sum := sum / 0x10000 + sum % 0x10000;
    }
    c := sum;
  }

  lemma WordSumFrom(b: Bytes, i: nat)
    requires i <= |b|
    ensures i == |b| ==> WordSum(b[i..]) == 0
    ensures i + 1 == |b| ==> WordSum(b[i..]) == b[i] as nat * 256
    ensures i + 1 < |b| ==> WordSum(b[i..]) == b[i] as nat * 256 + b[i + 1] as nat + WordSum(b[i + 2..])
  {
    assert i + 1 < |b| ==> b[i..][2..] == b[i + 2..];
  }

  method SumWords(b: Bytes) returns (sum: nat)
    ensures sum == WordSum(b) % U32
  {
    hide WordSum;
    sum := 0;
    ghost var exact: nat := 0;
    var i := 0;
    assert b[0..] == b;
    while i + 1 < |b|
      invariant 0 <= i <= |b| && i % 2 == 0
      invariant sum == exact % U32 && exact + WordSum(b[i..]) == WordSum(b)
    {
      var word := b[i] as nat * 256 + b[i + 1] as nat;
      WordSumFrom(b, i);
      AddWrap(exact, word);
      sum, exact := (sum + word) % U32, exact + word;
      i := i + 2;
    }
    WordSumFrom(b, i);
    if |b| % 2 == 1 {
      AddWrap(exact, b[|b| - 1] as nat * 256);
      sum := (sum + b[|b| - 1] as nat * 256) % U32;
    }
  }

  lemma AddWrap(exact: nat, word: nat)
    ensures (exact % U32 + word) % U32 == (exact + word) % U32
  {}

  /** No IPv4 packet is long enough to overflow the 32-bit sum. */
  lemma {:induction false} WordSumBound(b: Bytes)
    ensures 2 * WordSum(b) <= 0xffff * (|b| + 1)
    ensures |b| <= 0xffff ==> WordSum(b) < U32
    decreases |b|
  {
    if |b| >= 2 {
      WordSumBound(b[2..]);
    }
  }

  lemma ModStep(x: nat, h: nat)
    requires x >= 0xffff * h
    ensures (x - 0xffff * h) % 0xffff == x % 0xffff
  {}

  /** Folding ends, within 16 bits, congruent modulo 65535, and at zero only from zero. */
  lemma {:induction false} FoldMeans(sum: nat)
    ensures Fold(sum) <= 0xffff && Fold(sum) % 0xffff == sum % 0xffff && (Fold(sum) == 0 <==> sum == 0)
    decreases sum
  {
    if sum > 0xffff {
      var h := sum / 0x10000;
      assert sum / 0x10000 + sum % 0x10000 == sum - 0xffff * h;
      ModStep(sum, h);
      FoldMeans(sum / 0x10000 + sum % 0x10000);
    }
  }

  lemma {:induction false} WordSumConcat(a: Bytes, b: Bytes)
    requires |a| % 2 == 0
    ensures WordSum(a + b) == WordSum(a) + WordSum(b)
    decreases |a|
  {
    if a == [] {
      assert a + b == b;
    } else {
      assert (a + b)[2..] == a[2..] + b;
      WordSumConcat(a[2..], b);
    }
  }

  /** Storing a 16-bit value in an aligned zero field adds it to the sum. */
  lemma StoreWord(b: Bytes, at: nat, v: nat)
    requires at % 2 == 0 && at + 2 <= |b| && b[at] == 0 && b[at + 1] == 0 && v <= 0xffff
    ensures WordSum(b[at := (v / 256) as Byte][at + 1 := (v % 256) as Byte]) == WordSum(b) + v
  {
    var high, low := (v / 256) as Byte, (v % 256) as Byte;
    var stored := b[at := high][at + 1 := low];
    assert b == b[..at] + ([b[at], b[at + 1]] + b[at + 2..]);
    assert stored == b[..at] + ([high, low] + b[at + 2..]);
    WordSumConcat(b[..at], [b[at], b[at + 1]] + b[at + 2..]);
    WordSumConcat(b[..at], [high, low] + b[at + 2..]);
    assert ([b[at], b[at + 1]] + b[at + 2..])[2..] == b[at + 2..] && ([high, low] + b[at + 2..])[2..] == b[at + 2..];
  }

  /** `b` with the complemented checksum stored at `at`. */
  function Sealed(b: Bytes, at: nat): Bytes
    requires at + 2 <= |b|
  {
    FoldMeans(WordSum(b) % U32);
    var v := 0xffff - Fold(WordSum(b) % U32);
    b[at := (v / 256) as Byte][at + 1 := (v % 256) as Byte]
  }

  /** A sealed block verifies: its words sum to 0xffff. */
  lemma SealedVerifies(b: Bytes, at: nat)
    requires at % 2 == 0 && at + 2 <= |b| <= 0xffff && b[at] == 0 && b[at + 1] == 0
    ensures Fold(WordSum(Sealed(b, at))) == 0xffff && WordSum(Sealed(b, at)) < U32
  {
    hide WordSum, Fold;
    var s := WordSum(b);
    WordSumBound(b);
    FoldMeans(s);
    var total := s + (0xffff - Fold(s));
    StoreWord(b, at, 0xffff - Fold(s));
    WordSumBound(Sealed(b, at));
    FoldMeans(total);
    SumIsMultiple(s, Fold(s));
  }

  lemma SumIsMultiple(s: nat, f: nat)
    requires f <= 0xffff && f % 0xffff == s % 0xffff
    ensures (s + (0xffff - f)) % 0xffff == 0
  {
    var q := s / 0xffff;
    var p := f / 0xffff;
    assert s + (0xffff - f) == 0xffff * (q + 1 - p);
  }

  // --------------------------------------------------------------- echo requests

  predicate IsEchoRequest(pkt: Bytes) {
    |pkt| >= IPV4_HEADER
    && var ihl := (pkt[0] % 16) as nat * 4;
       ihl >= IPV4_HEADER && |pkt| >= ihl + ICMP_HEADER && pkt[9] == 1 && pkt[ihl] == 8
       && pkt[6] % 64 == 0 && pkt[7] == 0
  }

  function HeaderLength(pkt: Bytes): nat requires |pkt| > 0 { (pkt[0] % 16) as nat * 4 }
  function TotalLength(pkt: Bytes): nat requires |pkt| > 3 { pkt[2] as nat * 256 + pkt[3] as nat }

  predicate Accepted(pkt: Bytes) {
    IsEchoRequest(pkt) && HeaderLength(pkt) + ICMP_HEADER <= TotalLength(pkt) <= |pkt|
  }

  /** `icmpv4EchoTarget`: the destination and the payload after the ICMP header. */
  function EchoTarget(pkt: Bytes): Option<(Bytes, Bytes)> {
    if Accepted(pkt) then Some((pkt[16..20], pkt[HeaderLength(pkt) + ICMP_HEADER..TotalLength(pkt)])) else None
  }

  /** The plain 20-byte header of the reply, its checksum still zero. */
  function BareHeader(length: nat, src: Bytes, dst: Bytes): Bytes
    requires length <= 0xffff
  {
    [0x45, 0, (length / 256) as Byte, (length % 256) as Byte, 0, 0, 0, 0, 64, 1, 0, 0] + src + dst
  }

  function BareIcmp(icmp: Bytes): Bytes
    requires |icmp| >= ICMP_HEADER
  {
    icmp[0 := 0][1 := 0][2 := 0][3 := 0]
  }

  /** `icmpv4EchoReply`. */
  function Reply(request: Bytes): Option<Bytes> {
    if !Accepted(request) then None
    else
      var ihl, total := HeaderLength(request), TotalLength(request);
      Some(Sealed(BareHeader(IPV4_HEADER + total - ihl, request[16..20], request[12..16]), 10)
           + Sealed(BareIcmp(request[ihl..total]), 2))
  }

  method BuildReply(request: Bytes) returns (reply: Option<Bytes>)
    ensures reply == Reply(request)
  {
    hide Sealed;
    if !IsEchoRequest(request) {
      return None;
    }
    var ihl := (request[0] % 16) as nat * 4;
    var total := request[2] as nat * 256 + request[3] as nat;
    if total < ihl + ICMP_HEADER || total > |request| {
      return None;
    }
    var buf := new Byte[IPV4_HEADER + total - ihl];
    EncodeHeader(buf, request[16..20], request[12..16]);
    EncodeIcmp(buf, request[ihl..total]);
    assert buf[..] == buf[..IPV4_HEADER] + buf[IPV4_HEADER..];
    return Some(buf[..]);
  }

  /** The library's header encoder, then the checksum over the header. */
  method EncodeHeader(buf: array<Byte>, src: Bytes, dst: Bytes)
    requires IPV4_HEADER <= buf.Length <= 0xffff && |src| == |dst| == 4
    modifies buf
    ensures buf[..IPV4_HEADER] == Sealed(BareHeader(buf.Length, src, dst), 10)
  {
    hide WordSum, Fold;
    var bare := BareHeader(buf.Length, src, dst);
    for i := 0 to IPV4_HEADER
      invariant forall j :: 0 <= j < i ==> buf[j] == bare[j]
    {
      buf[i] := bare[i];
    }
    assert buf[..IPV4_HEADER] == bare;
    var c := Checksum(buf[..IPV4_HEADER]);
    buf[10], buf[11] := ((0xffff - c) / 256) as Byte, ((0xffff - c) % 256) as Byte;
    assert buf[..IPV4_HEADER] == bare[10 := buf[10]][11 := buf[11]];
  }

  method EncodeIcmp(buf: array<Byte>, request: Bytes)
    requires |request| >= ICMP_HEADER && buf.Length == IPV4_HEADER + |request|
    modifies buf
    ensures buf[..IPV4_HEADER] == old(buf[..IPV4_HEADER])
    ensures buf[IPV4_HEADER..] == Sealed(BareIcmp(request), 2)
  {
    hide WordSum, Fold;
    for i := 0 to |request|
      invariant forall j :: 0 <= j < IPV4_HEADER ==> buf[j] == old(buf[j])
      invariant forall j :: 0 <= j < i ==> buf[IPV4_HEADER + j] == request[j]
    {
      buf[IPV4_HEADER + i] := request[i];
    }
    buf[20], buf[21], buf[22], buf[23] := 0, 0, 0, 0;
    ghost var bare := BareIcmp(request);
    assert buf[IPV4_HEADER..] == bare;
    var c := Checksum(buf[IPV4_HEADER..]);
    buf[22], buf[23] := ((0xffff - c) / 256) as Byte, ((0xffff - c) % 256) as Byte;
    assert buf[IPV4_HEADER..] == bare[2 := buf[22]][3 := buf[23]];
  }

  // ------------------------------------------------------------------ main result

  /** Exactly the accepted requests are answered; the 32-bit sums do not overflow, both
      checksums verify, the addresses are swapped, and identifier, sequence number and
      payload come back unchanged. */
  lemma ReplyIsSound(request: Bytes)
    ensures Reply(request).Some? <==> Accepted(request)
    ensures Reply(request).Some? ==>
              var reply := Reply(request).value;
              var ihl, total := HeaderLength(request), TotalLength(request);
              && |reply| == IPV4_HEADER + total - ihl == TotalLength(reply)
              && reply[12..16] == request[16..20] && reply[16..20] == request[12..16]
              && reply[0] == 0x45 && reply[6] == 0 && reply[7] == 0 && reply[8] == 64
              && reply[9] == 1 && reply[20] == 0 && reply[21] == 0
              && reply[24..] == request[ihl + 4..total]
              && WordSum(reply[..20]) < U32 && Fold(WordSum(reply[..20])) == 0xffff
              && WordSum(reply[20..]) < U32 && Fold(WordSum(reply[20..])) == 0xffff
              && EchoTarget(request) == Some((reply[12..16], reply[28..]))
  {
    hide WordSum, Fold;
    if Accepted(request) {
      var ihl, total := HeaderLength(request), TotalLength(request);
      var bare := BareHeader(IPV4_HEADER + total - ihl, request[16..20], request[12..16]);
      var icmp := BareIcmp(request[ihl..total]);
      SealedVerifies(bare, 10);
      SealedVerifies(icmp, 2);
      var reply := Reply(request).value;
      assert reply[..20] == Sealed(bare, 10) && reply[20..] == Sealed(icmp, 2);
      assert reply[24..] == icmp[4..];
      assert reply[12..16] == bare[12..16] && reply[16..20] == bare[16..20];
      assert reply[28..] == icmp[8..];
    }
  }

  // -------------------------------------------------------------- which packets it answers

  /** An echo request without options: any identification, don't-fragment bit, time to live and
      checksums. */
  function BuiltRequest(src: Bytes, dst: Bytes, id: Bytes, dontFragment: bool, ttl: Byte, sums: Bytes,
                        rest: Bytes): Bytes
    requires |id| == 2 && |sums| == 4 && 24 + |rest| <= 0xffff
  {
    [0x45, 0, ((24 + |rest|) / 256) as Byte, ((24 + |rest|) % 256) as Byte] + id
    + [if dontFragment then 0x40 else 0, 0, ttl, 1] + sums[..2] + src + dst + [8, 0] + sums[2..] + rest
  }

  /** Every echo request is answered, with its identifier, sequence number and payload and the
      addresses swapped. */
  lemma RequestIsAnswered(src: Bytes, dst: Bytes, id: Bytes, dontFragment: bool, ttl: Byte, sums: Bytes, rest: Bytes)
    requires |src| == 4 && |dst| == 4 && |id| == 2 && |sums| == 4 && |rest| >= 4 && 24 + |rest| <= 0xffff
    ensures var reply := Reply(BuiltRequest(src, dst, id, dontFragment, ttl, sums, rest));
            && reply.Some? && |reply.value| == 24 + |rest|
            && reply.value[12..16] == dst && reply.value[16..20] == src && reply.value[20] == 0
            && reply.value[24..] == rest
  {
    hide Reply, Sealed;
    var pkt := BuiltRequest(src, dst, id, dontFragment, ttl, sums, rest);
    assert |pkt| == 24 + |rest| && pkt[0] == 0x45 && pkt[9] == 1 && pkt[20] == 8 && pkt[7] == 0;
    assert pkt[6] == if dontFragment then 0x40 else 0;
    assert TotalLength(pkt) == |pkt| by { assert (|pkt| / 256) * 256 + |pkt| % 256 == |pkt|; }
    assert HeaderLength(pkt) == 20;
    assert Accepted(pkt);
    assert pkt[12..16] == src && pkt[16..20] == dst && pkt[24..] == rest;
    assert pkt[24..TotalLength(pkt)] == rest;
    ReplyIsSound(pkt);
  }

  /** No reply is itself answered; nor is a packet of another protocol, a fragment, a packet too
      short for its own lengths, or an ICMP message of another type. */
  lemma OthersAreNotAnswered(pkt: Bytes)
    ensures Reply(pkt).Some? ==> Reply(Reply(pkt).value).None?
    ensures |pkt| < 28 ==> Reply(pkt).None?
    ensures |pkt| >= 28 && (pkt[9] != 1 || (pkt[6] as nat * 256 + pkt[7] as nat) % 0x4000 != 0) ==> Reply(pkt).None?
    ensures |pkt| >= 28 && (HeaderLength(pkt) < 20 || |pkt| < HeaderLength(pkt) + 8) ==> Reply(pkt).None?
    ensures |pkt| >= 28 && (TotalLength(pkt) > |pkt| || TotalLength(pkt) < HeaderLength(pkt) + 8) ==> Reply(pkt).None?
    ensures |pkt| >= 28 && HeaderLength(pkt) < |pkt| && pkt[HeaderLength(pkt)] != 8 ==> Reply(pkt).None?
  {
    hide Sealed;
    ReplyIsSound(pkt);
    if Reply(pkt).Some? {
      var reply := Reply(pkt).value;
      ReplyHeader(pkt);
      ReplyIsSound(reply);
    }
  }

  lemma ReplyHeader(pkt: Bytes)
    requires Reply(pkt).Some?
    ensures |Reply(pkt).value| >= 28 && Reply(pkt).value[0] == 0x45 && Reply(pkt).value[20] == 0
  {
    ReplyIsSound(pkt);
  }
}
