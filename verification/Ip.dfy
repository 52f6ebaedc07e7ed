/** IPv4 and IPv6 headers as bytes and as fields. */
module Ip {
  import opened Common

  type byte = x: int | 0 <= x < 256

  const ICMP: byte := 1
  const IPV6_ICMP: byte := 58
  const AUTH: byte := 51
  const HOP_BY_HOP: byte := 0
  const ROUTE: byte := 43
  const FRAGMENT: byte := 44
  const DESTINATION_OPTIONS: byte := 60

  const IPV4_MIN_LEN: nat := 20
  const IPV6_LEN: nat := 40

  predicate IsU16(n: int) { 0 <= n < 0x1_0000 }

  function U16(hi: byte, lo: byte): (n: int)
    ensures IsU16(n)
  {
    hi * 256 + lo
  }

  function Hi(n: int): byte requires IsU16(n) { n / 256 }

  function Lo(n: int): byte requires IsU16(n) { n % 256 }

  datatype Ipv4Header = Ipv4Header(
    dscp: int, ecn: int, totalLen: int, identification: int,
    dontFragment: bool, moreFragments: bool, fragmentOffset: int,
    ttl: byte, protocol: byte, source: seq<byte>, destination: seq<byte>, options: seq<byte>)
  {
    function Len(): nat { IPV4_MIN_LEN + |options| }

    predicate Valid() {
      && 0 <= dscp < 64 && 0 <= ecn < 4 && IsU16(totalLen) && IsU16(identification) && 0 <= fragmentOffset < 0x2000
      && |source| == 4 && |destination| == 4 && |options| <= 40 && |options| % 4 == 0
    }
  }

  datatype Ipv6Header = Ipv6Header(
    trafficClass: byte, flowLabel: int, payloadLength: int, nextHeader: byte, hopLimit: byte,
    source: seq<byte>, destination: seq<byte>)
  {
    predicate Valid() {
      0 <= flowLabel < 0x10_0000 && IsU16(payloadLength) && |source| == 16 && |destination| == 16
    }
  }

  // ---------- Reading ----------

  function HeaderLen4(p: seq<byte>): nat requires p != [] { (p[0] % 16) * 4 }

  function TotalLen4(p: seq<byte>): nat requires |p| >= 4 { U16(p[2], p[3]) }

  /** An IPv4 packet as the parser accepts it; bytes may follow. */
  predicate IsIpv4(p: seq<byte>) {
    && |p| >= IPV4_MIN_LEN && p[0] / 16 == 4
    && IPV4_MIN_LEN <= HeaderLen4(p) <= TotalLen4(p) <= |p|
  }

  predicate IsIpv6(p: seq<byte>) {
    && |p| >= IPV6_LEN && p[0] / 16 == 6
    && IPV6_LEN + U16(p[4], p[5]) <= |p|
  }

  lemma Fragment(hi: byte, lo: byte)
    ensures U16(hi % 32, lo) < 0x2000
  {
  }

  lemma ServiceType(b: byte)
    ensures 0 <= b / 4 < 64 && 0 <= b % 4 < 4
  {
  }

  lemma OptionsLength(length: nat)
    ensures length * 4 >= IPV4_MIN_LEN ==> (length * 4 - IPV4_MIN_LEN) % 4 == 0
  {
  }

  function Parse4(p: seq<byte>): (h: Ipv4Header)
    requires IsIpv4(p)
    ensures h.Valid() && h.Len() == HeaderLen4(p) && h.totalLen == TotalLen4(p) && h.protocol == p[9]
  {
    Fragment(p[6], p[7]);
    ServiceType(p[1]);
    OptionsLength(p[0] % 16);
    Ipv4Header(p[1] / 4, p[1] % 4, TotalLen4(p), U16(p[4], p[5]),
               p[6] / 64 % 2 == 1, p[6] / 32 % 2 == 1, U16(p[6] % 32, p[7]),
               p[8], p[9], p[12..16], p[16..20], p[20..HeaderLen4(p)])
  }

  function ClassOf(b0: byte, b1: byte): byte { (b0 % 16) * 16 + b1 / 16 }

  function LabelOf(b1: byte, b2: byte, b3: byte): (flow: int)
    ensures 0 <= flow < 0x10_0000
  {
    (b1 % 16) * 0x1_0000 + U16(b2, b3)
  }

  function Parse6(p: seq<byte>): (h: Ipv6Header)
    requires IsIpv6(p)
    ensures h.Valid() && h.payloadLength == U16(p[4], p[5]) && h.nextHeader == p[6]
  {
    Ipv6Header(ClassOf(p[0], p[1]), LabelOf(p[1], p[2], p[3]), U16(p[4], p[5]), p[6], p[7], p[8..24], p[24..40])
  }

  // ---------- Writing ----------

  function SumOfWords(bytes: seq<byte>): nat {
    if |bytes| < 2 then 0 else U16(bytes[0], bytes[1]) + SumOfWords(bytes[2..])
  }

  /** The Internet checksum: the one's complement of the one's complement sum. */
  function Checksum(bytes: seq<byte>): (c: int)
    ensures IsU16(c)
  {
    var sum := SumOfWords(bytes);
    if sum == 0 then 0xFFFF else 0xFFFF - ((sum - 1) % 0xFFFF + 1)
  }

  /** The fixed part of an IPv4 header, up to the addresses. */
  function Fixed4(h: Ipv4Header, checksum: int): (bytes: seq<byte>)
    requires h.Valid() && IsU16(checksum)
    ensures |bytes| == 12
  {
    [0x40 + h.Len() / 4, h.dscp * 4 + h.ecn, Hi(h.totalLen), Lo(h.totalLen),
     Hi(h.identification), Lo(h.identification),
     (if h.dontFragment then 0x40 else 0) + (if h.moreFragments then 0x20 else 0) + h.fragmentOffset / 256,
         h.fragmentOffset % 256,
     h.ttl, h.protocol, Hi(checksum), Lo(checksum)]
  }

  function HeaderChecksum(h: Ipv4Header): (c: int)
    requires h.Valid()
    ensures IsU16(c)
  {
    Checksum(Fixed4(h, 0) + h.source + h.destination + h.options)
  }

  function Encode4(h: Ipv4Header): (bytes: seq<byte>)
    requires h.Valid()
    ensures |bytes| == h.Len()
  {
    Fixed4(h, HeaderChecksum(h)) + h.source + h.destination + h.options
  }

  /** An IPv6 header up to the addresses. */
  function Fixed6(h: Ipv6Header): (bytes: seq<byte>)
    requires h.Valid()
    ensures |bytes| == 8
  {
    Label(h.flowLabel);
    [0x60 + h.trafficClass / 16, (h.trafficClass % 16) * 16 + h.flowLabel / 0x1_0000, h.flowLabel / 256 % 256,
        h.flowLabel % 256,
     Hi(h.payloadLength), Lo(h.payloadLength), h.nextHeader, h.hopLimit]
  }

  lemma Label(flow: int)
    requires 0 <= flow < 0x10_0000
    ensures 0 <= flow / 0x1_0000 < 16 && (flow / 0x1_0000) * 0x1_0000 + U16(flow / 256 % 256, flow % 256) == flow
  {
    assert flow == flow / 256 * 256 + flow % 256;
    assert flow / 256 == flow / 0x1_0000 * 256 + flow / 256 % 256;
  }

  function Encode6(h: Ipv6Header): (bytes: seq<byte>)
    requires h.Valid()
    ensures |bytes| == IPV6_LEN
  {
    Fixed6(h) + h.source + h.destination
  }

  // ---------- Round trips ----------

  lemma Fields4(h: Ipv4Header, checksum: int, b: seq<byte>)
    requires h.Valid() && IsU16(checksum) && b == Fixed4(h, checksum)
    ensures b[0] / 16 == 4 && (b[0] % 16) * 4 == h.Len()
    ensures b[1] / 4 == h.dscp && b[1] % 4 == h.ecn
    ensures U16(b[2], b[3]) == h.totalLen && U16(b[4], b[5]) == h.identification
    ensures (b[6] / 64 % 2 == 1) == h.dontFragment && (b[6] / 32 % 2 == 1) == h.moreFragments
    ensures U16(b[6] % 32, b[7]) == h.fragmentOffset && b[8] == h.ttl && b[9] == h.protocol
  {
  }

  lemma Word16(n: int)
    requires IsU16(n)
    ensures U16(Hi(n), Lo(n)) == n
  {
  }

  lemma Halves(hi: int, lo: int)
    requires 0 <= hi && 0 <= lo < 16
    ensures (hi * 16 + lo) / 16 == hi && (hi * 16 + lo) % 16 == lo
  {
  }

  lemma Fields6(h: Ipv6Header, b: seq<byte>)
    requires h.Valid() && b == Fixed6(h)
    ensures b[0] / 16 == 6 && ClassOf(b[0], b[1]) == h.trafficClass && LabelOf(b[1], b[2], b[3]) == h.flowLabel
    ensures U16(b[4], b[5]) == h.payloadLength && b[6] == h.nextHeader && b[7] == h.hopLimit
  {
    hide U16, Hi, Lo;
    Word16(h.payloadLength);
    Label(h.flowLabel);
    Halves(6, h.trafficClass / 16);
    Halves(h.trafficClass % 16, h.flowLabel / 0x1_0000);
  }

  /** What is written is what is read. */
  lemma ParseEncode4(h: Ipv4Header, rest: seq<byte>)
    requires h.Valid() && h.Len() <= h.totalLen <= h.Len() + |rest|
    ensures IsIpv4(Encode4(h) + rest) && Parse4(Encode4(h) + rest) == h
  {
    var p := Encode4(h) + rest;
    var b := Fixed4(h, HeaderChecksum(h));
    hide Fixed4, HeaderChecksum;
    Fields4(h, HeaderChecksum(h), b);
    assert p[..12] == b;
    assert forall i :: 0 <= i < 12 ==> p[i] == b[i];
    assert p[12..16] == h.source && p[16..20] == h.destination;
    assert p[20..h.Len()] == h.options;
  }

  lemma ParseEncode6(h: Ipv6Header, rest: seq<byte>)
    requires h.Valid() && h.payloadLength <= |rest|
    ensures IsIpv6(Encode6(h) + rest) && Parse6(Encode6(h) + rest) == h
  {
    hide Fixed6, U16, ClassOf, LabelOf;
    var p := Encode6(h) + rest;
    var b := Fixed6(h);
    Fields6(h, b);
    assert p[..8] == b;
    assert forall i :: 0 <= i < 8 ==> p[i] == b[i];
    assert p[8..24] == h.source && p[24..40] == h.destination;
  }

  lemma Reclass(b0: byte, b1: byte, b2: byte, b3: byte)
    requires b0 / 16 == 6
    ensures var c, l := ClassOf(b0, b1), LabelOf(b1, b2, b3);
            0x60 + c / 16 == b0 && (c % 16) * 16 + l / 0x1_0000 == b1
  {
    Halves(b0 % 16, b1 / 16);
    Upper(b1 % 16, U16(b2, b3));
  }

  lemma Upper(hi: int, lo: int)
    requires IsU16(lo)
    ensures (hi * 0x1_0000 + lo) / 0x1_0000 == hi && (hi * 0x1_0000 + lo) % 0x1_0000 == lo
  {
  }

  lemma Bytes16(hi: byte, lo: byte)
    ensures Hi(U16(hi, lo)) == hi && Lo(U16(hi, lo)) == lo
  {
  }

  lemma Relabel(b1: byte, b2: byte, b3: byte)
    ensures LabelOf(b1, b2, b3) / 256 % 256 == b2 && LabelOf(b1, b2, b3) % 256 == b3
  {
    var l := LabelOf(b1, b2, b3);
    assert l == ((b1 % 16) * 256 + b2) * 256 + b3;
    assert l / 256 == (b1 % 16) * 256 + b2;
  }

  lemma Refixed6(h: Ipv6Header, b: seq<byte>)
    requires h.Valid() && |b| == 8 && b[0] / 16 == 6
    requires h.trafficClass == ClassOf(b[0], b[1]) && h.flowLabel == LabelOf(b[1], b[2], b[3])
    requires h.payloadLength == U16(b[4], b[5]) && h.nextHeader == b[6] && h.hopLimit == b[7]
    ensures Fixed6(h) == b
  {
    hide ClassOf, LabelOf, U16, Hi, Lo;
    Reclass(b[0], b[1], b[2], b[3]);
    Relabel(b[1], b[2], b[3]);
    Bytes16(b[4], b[5]);
  }

  /** An IPv6 header has no slack: writing what was read gives the same bytes. */
  lemma EncodeParse6(p: seq<byte>)
    requires IsIpv6(p)
    ensures Encode6(Parse6(p)) == p[..IPV6_LEN]
  {
    hide Fixed6, ClassOf, LabelOf, U16;
    Refixed6(Parse6(p), p[..8]);
    assert p[..IPV6_LEN] == p[..8] + p[8..24] + p[24..40];
  }
}
