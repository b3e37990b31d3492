/** IPv6/UDP packets of the DNS proxy: build, checksum, parse. */
module Packet {
  import opened Bytes

  type U32 = w: int | 0 <= w < 0x1_0000_0000

  type Addr = a: seq<Byte> | |a| == 16 witness seq(16, _ => 0)

  /** The most payload whose word sum fits 32 bits whatever its bytes: (20 + 65517) * 0xffff == 0xffff_ffff. */
  const MAX_SUMMED: nat := 131026

  /** No payload is longer than a segment's length as a u32 can say. */
  const MAX_SEGMENT: nat := 0xffff_ffff

  /** The largest payload of a UDP datagram. */
  const MAX_PAYLOAD: nat := 65527

  // ---------------------------------------------------------------------------------
  // One's-complement sums
  // ---------------------------------------------------------------------------------

  /** Sum of the big-endian 16-bit words, an odd last octet counting as the high one. */
  function WordSum(s: seq<Byte>): (sum: nat)
    ensures sum <= (|s| + 1) / 2 * 0xffff
  {
    if |s| == 0 then 0
    else if |s| == 1 then s[0] as int * 0x100
    else U16At(s, 0) + WordSum(s[2..])
  }

  /** Carries folded back in until 16 bits are left. */
  function Fold(sum: nat): (r: U16)
    ensures r == 0 <==> sum == 0
    ensures r % 0xffff == sum % 0xffff
  {
    if sum > 0xffff then
      assert sum == sum / 0x1_0000 * 0xffff + (sum % 0x1_0000 + sum / 0x1_0000);
      ModAddMultiple(sum % 0x1_0000 + sum / 0x1_0000, sum / 0x1_0000);
      Fold(sum % 0x1_0000 + sum / 0x1_0000)
    else sum
  }

  lemma ModAddMultiple(a: nat, k: nat)
    ensures (k * 0xffff + a) % 0xffff == a % 0xffff
    decreases k
  {
    if k > 0 {
      ModAddMultiple(a, k - 1);
      assert k * 0xffff + a == ((k - 1) * 0xffff + a) + 0xffff;
    }
  }

  lemma {:induction false} WordSumConcat(a: seq<Byte>, b: seq<Byte>)
    requires |a| % 2 == 0
    ensures WordSum(a + b) == WordSum(a) + WordSum(b)
    decreases |a|
  {
    if a == [] {
      assert a + b == b;
    } else {
      WordSumConcat(a[2..], b);
      assert (a + b)[2..] == a[2..] + b;
    }
  }

  function Be32(w: U32): (s: seq<Byte>)
    ensures |s| == 4
  {
    Be16(w / 0x1_0000) + Be16(w % 0x1_0000)
  }

  /** Section 8.1 of RFC 8200: addresses, upper-layer length, next header. */
  function PseudoHeader(src: Addr, dst: Addr, udpLen: U32): seq<Byte> {
    src + dst + Be32(udpLen) + [0, 0, 0, 17]
  }

  /** What a receiver computes over pseudo-header and segment, checksum included. */
  function VerifySum(src: Addr, dst: Addr, udp: seq<Byte>): U16
    requires |udp| < 0x1_0000_0000
  {
    Fold(WordSum(PseudoHeader(src, dst, |udp|) + udp))
  }

  /** The checksum of a segment whose checksum field is zero. */
  function UdpChecksum(src: Addr, dst: Addr, udp: seq<Byte>): (c: U16)
    requires |udp| < 0x1_0000_0000
    ensures c != 0
  {
    var sum := VerifySum(src, dst, udp);
    if sum == 0xffff then 0xffff else 0xffff - sum
  }

  /** The segment with `c` in its checksum field. */
  function WithChecksum(udp: seq<Byte>, c: U16): seq<Byte>
    requires 8 <= |udp|
  {
    udp[..6] + Be16(c) + udp[8..]
  }

  lemma ChecksumFieldAdds(udp: seq<Byte>, c: U16)
    requires 8 <= |udp| && udp[6] == 0 && udp[7] == 0
    ensures WordSum(WithChecksum(udp, c)) == WordSum(udp) + c
  {
    WordSumConcat(udp[..6], Be16(c) + udp[8..]);
    WordSumConcat(Be16(c), udp[8..]);
    WordSumConcat(udp[..6], udp[6..]);
    assert WithChecksum(udp, c) == udp[..6] + (Be16(c) + udp[8..]);
    assert udp == udp[..6] + udp[6..];
    assert udp[6..][2..] == udp[8..];
    assert Be16(c)[2..] == [];
    assert WordSum(Be16(c)) == U16At(Be16(c), 0) + WordSum(Be16(c)[2..]);
    assert WordSum(udp[6..]) == U16At(udp[6..], 0) + WordSum(udp[8..]);
  }

  /** The completed segment verifies: its sum is all ones. */
  lemma ChecksumVerifies(src: Addr, dst: Addr, udp: seq<Byte>)
    requires 8 <= |udp| < 0x1_0000_0000 && udp[6] == 0 && udp[7] == 0
    ensures VerifySum(src, dst, WithChecksum(udp, UdpChecksum(src, dst, udp))) == 0xffff
  {
    var c := UdpChecksum(src, dst, udp);
    var full := WithChecksum(udp, c);
    var pseudo := PseudoHeader(src, dst, |udp|);
    WordSumConcat(pseudo, udp);
    WordSumConcat(pseudo, full);
    ChecksumFieldAdds(udp, c);
    ProtocolWordIsPositive(src, dst, |udp|);
    ComplementFillsUp(WordSum(pseudo + udp), c);
  }

  /** Adding the complement of the folded sum, or all ones for zero, folds to all ones. */
  lemma ComplementFillsUp(sum: nat, c: U16)
    requires 0 < sum
    requires c == if Fold(sum) == 0xffff then 0xffff else 0xffff - Fold(sum)
    ensures Fold(sum + c) == 0xffff
  {
    var f := Fold(sum);
    assert sum == sum / 0xffff * 0xffff + sum % 0xffff;
    if f == 0xffff {
      ModAddMultiple(sum, 1);
    } else {
      assert sum % 0xffff == f;
      ModAddMultiple(0, sum / 0xffff + 1);
      assert sum + c == (sum / 0xffff + 1) * 0xffff;
    }
    assert Fold(sum + c) % 0xffff == 0;
  }

  lemma ProtocolWordIsPositive(src: Addr, dst: Addr, udpLen: U32)
    ensures WordSum(PseudoHeader(src, dst, udpLen)) > 0
  {
    var front := src + dst + Be32(udpLen);
    WordSumConcat(front, [0, 0, 0, 17]);
    assert WordSum([0, 0, 0, 17]) == U16At([0, 0, 0, 17], 0) + WordSum([0, 0, 0, 17][2..]);
    assert [0, 0, 0, 17][2..] == [0, 17];
    assert WordSum([0, 17]) == U16At([0, 17], 0) + WordSum([0, 17][2..]);
  }

  // ---------------------------------------------------------------------------------
  // The packet
  // ---------------------------------------------------------------------------------

  /** The segment with a zero checksum; the length field keeps 16 bits only. */
  function Segment(srcPort: U16, dstPort: U16, payload: seq<Byte>): (udp: seq<Byte>)
    ensures |udp| == 8 + |payload| && udp[6] == 0 && udp[7] == 0
  {
    Be16(srcPort) + Be16(dstPort) + Be16((8 + |payload|) % 0x1_0000) + [0, 0] + payload
  }

  function Header(src: Addr, dst: Addr, udpLen: nat): (h: seq<Byte>)
    ensures |h| == 40
  {
    [0x60, 0, 0, 0] + Be16(udpLen % 0x1_0000) + [17, 64] + src + dst
  }

  function Packet(src: Addr, dst: Addr, srcPort: U16, dstPort: U16, payload: seq<Byte>): seq<Byte>
    requires 8 + |payload| <= MAX_SEGMENT
  {
    var udp := Segment(srcPort, dstPort, payload);
    Header(src, dst, |udp|) + WithChecksum(udp, UdpChecksum(src, dst, udp))
  }

  datatype Ipv6Udp = Ipv6Udp(src: Addr, dst: Addr, srcPort: U16, dstPort: U16, payload: seq<Byte>)

  /** parse_ipv6_udp: plain UDP over IPv6 only. */
  function Parse(packet: seq<Byte>): (p: Option<Ipv6Udp>) {
    if |packet| < 48 || packet[0] / 16 != 6 || packet[6] != 17 then None
    else
      var payloadLen := U16At(packet, 4);
      if payloadLen < 8 || |packet| < 40 + payloadLen then None
      else
        var udpLen := U16At(packet, 44);
        if udpLen < 8 || udpLen > payloadLen then None
        else Some(Ipv6Udp(packet[8..24], packet[24..40], U16At(packet, 40), U16At(packet, 42),
                          packet[48..40 + udpLen]))
  }

  lemma PacketFields(src: Addr, dst: Addr, srcPort: U16, dstPort: U16, payload: seq<Byte>)
    requires 8 + |payload| <= MAX_SEGMENT
    ensures var p := Packet(src, dst, srcPort, dstPort, payload);
      && |p| == 48 + |payload| && p[0] == 0x60 && p[6] == 17
      && p[8..24] == src && p[24..40] == dst
      && U16At(p, 4) == (8 + |payload|) % 0x1_0000
      && U16At(p, 40) == srcPort && U16At(p, 42) == dstPort && U16At(p, 44) == (8 + |payload|) % 0x1_0000
      && p[48..] == payload
  {
    var udp := Segment(srcPort, dstPort, payload);
    var full := WithChecksum(udp, UdpChecksum(src, dst, udp));
    var h := Header(src, dst, |udp|);
    var p := h + full;
    assert p[8..24] == h[8..24] == src;
    assert p[24..40] == h[24..40] == dst;
    assert forall i :: 0 <= i < 6 ==> p[40 + i] == full[i] == udp[i];
    assert p[48..] == full[8..] == udp[8..] == payload;
    assert p[4] == h[4] && p[5] == h[5];
  }

  /** What was built parses back to itself, exactly for payloads a UDP length can express. */
  lemma RoundTripIffFits(src: Addr, dst: Addr, srcPort: U16, dstPort: U16, payload: seq<Byte>)
    requires 8 + |payload| <= MAX_SEGMENT
    ensures (Parse(Packet(src, dst, srcPort, dstPort, payload))
             == Some(Ipv6Udp(src, dst, srcPort, dstPort, payload))) <==> |payload| <= MAX_PAYLOAD
  {
    PacketFields(src, dst, srcPort, dstPort, payload);
    var p := Packet(src, dst, srcPort, dstPort, payload);
    if |payload| <= MAX_PAYLOAD {
      assert p[48..40 + U16At(p, 44)] == p[48..];
    } else {
      assert |p[48..]| > MAX_PAYLOAD;
    }
  }

  /** And its segment verifies at the receiver, checksum never zero. */
  lemma BuiltPacketVerifies(src: Addr, dst: Addr, srcPort: U16, dstPort: U16, payload: seq<Byte>)
    requires 8 + |payload| <= MAX_SEGMENT
    ensures var p := Packet(src, dst, srcPort, dstPort, payload);
      VerifySum(src, dst, p[40..]) == 0xffff && U16At(p, 46) != 0
  {
    var udp := Segment(srcPort, dstPort, payload);
    var c := UdpChecksum(src, dst, udp);
    ChecksumVerifies(src, dst, udp);
    var p := Packet(src, dst, srcPort, dstPort, payload);
    assert p[40..] == WithChecksum(udp, c);
    assert p[46] == Be16(c)[0] && p[47] == Be16(c)[1];
  }

  /** What the wire format leaves open around a datagram: class and flow label, IPv6 payload length, hop limit,
      checksum, and octets behind the datagram. */
  datatype Frame = Frame(lead: seq<Byte>, payloadLen: U16, hop: Byte, checksum: seq<Byte>, rest: seq<Byte>)

  /** The frame holds the whole datagram: section 3 of RFC 8200, RFC 768. */
  predicate Holds(f: Frame, u: Ipv6Udp) {
    && |f.lead| == 4 && f.lead[0] / 16 == 6 && |f.checksum| == 2
    && 8 + |u.payload| <= f.payloadLen <= 8 + |u.payload| + |f.rest|
  }

  function Fields(f: Frame, u: Ipv6Udp): (h: seq<Byte>)
    requires Holds(f, u)
    ensures |h| == 48
  {
    f.lead + Be16(f.payloadLen) + [17, f.hop] + u.src + u.dst
    + Be16(u.srcPort) + Be16(u.dstPort) + Be16(8 + |u.payload|) + f.checksum
  }

  function Wire(f: Frame, u: Ipv6Udp): seq<Byte>
    requires Holds(f, u)
  {
    Fields(f, u) + u.payload + f.rest
  }

  lemma FieldsRead(f: Frame, u: Ipv6Udp)
    requires Holds(f, u)
    ensures var h := Fields(f, u);
      && h[0] / 16 == 6 && U16At(h, 4) == f.payloadLen && h[6] == 17 && h[8..24] == u.src && h[24..40] == u.dst
      && U16At(h, 40) == u.srcPort && U16At(h, 42) == u.dstPort && U16At(h, 44) == 8 + |u.payload|
  {
    var h := Fields(f, u);
    var front := f.lead + Be16(f.payloadLen) + [17, f.hop];
    var ports := Be16(u.srcPort) + Be16(u.dstPort) + Be16(8 + |u.payload|) + f.checksum;
    assert h == front + (u.src + u.dst) + ports;
    assert forall i :: 0 <= i < 8 ==> h[i] == front[i];
    assert forall i :: 0 <= i < 8 ==> h[40 + i] == ports[i];
    assert h[8..24] == u.src && h[24..40] == u.dst;
  }

  lemma SameFields(p: seq<Byte>, h: seq<Byte>)
    requires |h| == 48 && h <= p
    ensures p[0] == h[0] && U16At(p, 4) == U16At(h, 4) && p[6] == h[6] && p[8..24] == h[8..24] && p[24..40] == h[24..40]
    ensures U16At(p, 40) == U16At(h, 40) && U16At(p, 42) == U16At(h, 42) && U16At(p, 44) == U16At(h, 44)
  {
    assert forall i :: 0 <= i < 48 ==> p[i] == h[i];
  }

  /** Every frame around a datagram parses to it. */
  lemma WireParses(f: Frame, u: Ipv6Udp)
    requires Holds(f, u)
    ensures Parse(Wire(f, u)) == Some(u)
  {
    FieldsRead(f, u);
    SameFields(Wire(f, u), Fields(f, u));
    assert Wire(f, u)[48..48 + |u.payload|] == u.payload;
  }

  /** And only those do. */
  lemma ParsedIsWire(p: seq<Byte>) returns (f: Frame)
    requires Parse(p).Some?
    ensures Holds(f, Parse(p).value) && p == Wire(f, Parse(p).value)
  {
    var u := Parse(p).value;
    f := Frame(p[..4], U16At(p, 4), p[7], p[46..48], p[48 + |u.payload|..]);
    Be16Inverts(p, 4);
    Be16Inverts(p, 40);
    Be16Inverts(p, 42);
    Be16Inverts(p, 44);
    FrontIs(p);
    assert Fields(f, u) == p[..48];
    assert p == p[..48] + p[48..48 + |u.payload|] + p[48 + |u.payload|..];
  }

  lemma FrontIs(p: seq<Byte>)
    requires |p| >= 48
    ensures p[..48]
         == p[..4] + p[4..6] + [p[6], p[7]] + p[8..24] + p[24..40] + p[40..42] + p[42..44] + p[44..46] + p[46..48]
  {
  }

  // ---------------------------------------------------------------------------------
  // The loops
  // ---------------------------------------------------------------------------------

  /** Adds the words of `bytes`, if their sum fits the accumulator. */
  method AddWords(sum: U32, bytes: seq<Byte>) returns (r: U32)
    requires sum as int + WordSum(bytes) < 0x1_0000_0000
    ensures r == sum + WordSum(bytes)
  {
    r := sum;
    var i := 0;
    while i < |bytes|
      invariant 0 <= i <= |bytes| + 1
      invariant r == sum + WordSum(bytes) - WordSum(if i <= |bytes| then bytes[i..] else [])
    {
      var rest := bytes[i..];
      var low: Byte := if i + 1 < |bytes| then bytes[i + 1] else 0;
      assert i + 1 < |bytes| ==> bytes[i + 2..] == rest[2..];
      r := r + bytes[i] as int * 0x100 + low as int;
      i := i + 2;
    }
  }

  /** The sum over pseudo-header and segment fits a u32. */
  predicate Summable(src: Addr, dst: Addr, udp: seq<Byte>) {
    |udp| <= MAX_SEGMENT && WordSum(PseudoHeader(src, dst, |udp|) + udp) < 0x1_0000_0000
  }

  /** Payloads that always leave room; the limit of a UDP datagram is half of it. */
  lemma ShortIsSummable(src: Addr, dst: Addr, srcPort: U16, dstPort: U16, payload: seq<Byte>)
    requires |payload| <= MAX_SUMMED
    ensures Summable(src, dst, Segment(srcPort, dstPort, payload))
  {
    var udp := Segment(srcPort, dstPort, payload);
    PseudoSum(src, dst, udp);
    assert WordSum([0, 0, 0, 17]) <= 17 by {
      assert [0, 0, 0, 17][2..] == [0, 17];
      assert [0, 17][2..] == [];
      assert WordSum([0, 17]) == U16At([0, 17], 0) + WordSum([0, 17][2..]);
      assert WordSum([0, 0, 0, 17]) == U16At([0, 0, 0, 17], 0) + WordSum([0, 0, 0, 17][2..]);
    }
  }

  method UdpChecksumLoop(src: Addr, dst: Addr, udp: seq<Byte>) returns (c: U16)
    requires Summable(src, dst, udp)
    ensures c == UdpChecksum(src, dst, udp)
  {
    PseudoSum(src, dst, udp);
    var sum: U32 := 0;
    sum := AddWords(sum, src);
    sum := AddWords(sum, dst);
    sum := AddWords(sum, Be32(|udp|));
    sum := AddWords(sum, [0, 0, 0, 17]);
    sum := AddWords(sum, udp);
    ghost var total := sum;
    while sum > 0xffff
      invariant Fold(sum) == Fold(total)
    {
      sum := sum % 0x1_0000 + sum / 0x1_0000;
    }
    c := 0xffff - sum;
    if c == 0 {
      c := 0xffff;
    }
  }

  lemma PseudoSum(src: Addr, dst: Addr, udp: seq<Byte>)
    requires |udp| < 0x1_0000_0000
    ensures WordSum(PseudoHeader(src, dst, |udp|) + udp)
         == WordSum(src) + WordSum(dst) + WordSum(Be32(|udp|)) + WordSum([0, 0, 0, 17]) + WordSum(udp)
  {
    WordSumConcat(PseudoHeader(src, dst, |udp|), udp);
    WordSumConcat(src + dst + Be32(|udp|), [0, 0, 0, 17]);
    WordSumConcat(src + dst, Be32(|udp|));
    WordSumConcat(src, dst);
  }

  method BuildIpv6Udp(src: Addr, dst: Addr, srcPort: U16, dstPort: U16, payload: seq<Byte>)
      returns (pkt: seq<Byte>)
    requires Summable(src, dst, Segment(srcPort, dstPort, payload))
    ensures pkt == Packet(src, dst, srcPort, dstPort, payload)
    ensures VerifySum(src, dst, pkt[40..]) == 0xffff
    ensures |payload| <= MAX_PAYLOAD ==> Parse(pkt) == Some(Ipv6Udp(src, dst, srcPort, dstPort, payload))
  {
    var udpLen := 8 + |payload|;
    var udp := Be16(srcPort);
    udp := udp + Be16(dstPort);
    udp := udp + Be16(udpLen % 0x1_0000);
    udp := udp + [0, 0];
    udp := udp + payload;
    assert udp == Segment(srcPort, dstPort, payload);
    var checksum := UdpChecksumLoop(src, dst, udp);
    udp := udp[..6] + Be16(checksum) + udp[8..];

    pkt := [0x60, 0, 0, 0];
    pkt := pkt + Be16(udpLen % 0x1_0000);
    pkt := pkt + [17];
    pkt := pkt + [64];
    pkt := pkt + src + dst;
    assert pkt == Header(src, dst, udpLen);
    pkt := pkt + udp;
    BuiltPacketVerifies(src, dst, srcPort, dstPort, payload);
    RoundTripIffFits(src, dst, srcPort, dstPort, payload);
  }
}
