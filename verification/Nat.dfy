/**
 IP/ICMP translation (RFC 6145): as functions from packets to packets, and in place.

 `parses` stands for the header parser's verdict on the extension headers, whose content it checks
 before anything is translated: in IPv4 these are authentication headers only.
 */
module Nat {
  import opened Common
  import opened Ip
  import opened Icmp

  const NAT46_OVERHEAD: nat := 20

  datatype NatError = Malformed | Impossible | UnsupportedNextHeader

  // ---------- IPv4 to IPv6 ----------

  function Header46(h: Ipv4Header, src: seq<byte>, dst: seq<byte>): (r: Ipv6Header)
    requires h.Valid() && h.Len() <= h.totalLen && |src| == 16 && |dst| == 16
    ensures r.Valid()
  {
    Ipv6Header(h.dscp, 0, h.totalLen - h.Len(), if h.protocol == ICMP then IPV6_ICMP else h.protocol, h.ttl, src, dst)
  }

  /** What becomes of the bytes after the IPv4 header. */
  function Payload46(h: Ipv4Header, payload: seq<byte>): (r: Result<seq<byte>, NatError>)
    requires h.Valid() && 0 <= h.totalLen - h.Len() <= |payload|
    ensures r.Success? ==> |r.value| == |payload|
  {
    if h.protocol != ICMP then Success(payload)
    else if h.totalLen - h.Len() < HEADER_LEN then Failure(Malformed)
    else
      var t := Translate46(Read4(payload), h.totalLen);
      if t.None? then Failure(Impossible) else Success(Write6(t.value) + payload[HEADER_LEN..])
  }

  function Nat46(p: seq<byte>, src: seq<byte>, dst: seq<byte>, parses: bool): (r: Result<seq<byte>, NatError>)
    requires |src| == 16 && |dst| == 16
    ensures r.Success? ==> IsIpv4(p) && |r.value| == |p| + IPV6_LEN - HeaderLen4(p)
  {
    if !IsIpv4(p) || (p[9] == AUTH && !parses) then Failure(Malformed) else
    var h := Parse4(p);
    var payload := Payload46(h, p[h.Len()..]);
    if payload.Failure? then payload else Success(Encode6(Header46(h, src, dst)) + payload.value)
  }

  // ---------- IPv6 to IPv4 ----------

  predicate IsUnsupported(nextHeader: byte) {
    nextHeader == FRAGMENT || nextHeader == HOP_BY_HOP || nextHeader == ROUTE || nextHeader == DESTINATION_OPTIONS
  }

  predicate IsExtension(nextHeader: byte) { IsUnsupported(nextHeader) || nextHeader == AUTH }

  function Header64(h: Ipv6Header, src: seq<byte>, dst: seq<byte>): (r: Ipv4Header)
    requires h.Valid() && h.payloadLength + IPV4_MIN_LEN < 0x1_0000 && |src| == 4 && |dst| == 4
    ensures r.Valid() && r.Len() == IPV4_MIN_LEN
  {
    Ipv4Header(if h.trafficClass < 64 then h.trafficClass else 0, 0, h.payloadLength + IPV4_MIN_LEN, 0, true, false, 0,
               h.hopLimit, if h.nextHeader == IPV6_ICMP then ICMP else h.nextHeader, src, dst, [])
  }

  /** The header parser takes a payload length of zero to mean that the payload is the rest of the buffer. */
  function ReadableLength(h: Ipv6Header, payload: seq<byte>): int {
    if h.payloadLength == 0 then |payload| else h.payloadLength
  }

  function Payload64(h: Ipv6Header, payload: seq<byte>): (r: Result<seq<byte>, NatError>)
    requires h.Valid() && h.payloadLength <= |payload|
    ensures r.Success? ==> |r.value| == |payload|
  {
    if h.nextHeader != IPV6_ICMP then Success(payload)
    else if ReadableLength(h, payload) < HEADER_LEN then Failure(Malformed)
    else
      var t := Translate64(Read6(payload));
      if t.None? then Failure(Impossible) else Success(Write4(t.value) + payload[HEADER_LEN..])
  }

  function Nat64(p: seq<byte>, src: seq<byte>, dst: seq<byte>, parses: bool): (r: Result<seq<byte>, NatError>)
    requires |src| == 4 && |dst| == 4 && |p| < 0x1_0000
    ensures r.Success? ==> IsIpv6(p) && |r.value| == |p| - IPV6_LEN + IPV4_MIN_LEN
  {
    if !IsIpv6(p) || (IsExtension(p[6]) && !parses) then Failure(Malformed)
    else if IsUnsupported(p[6]) then Failure(UnsupportedNextHeader) else
    var h := Parse6(p);
    var payload := Payload64(h, p[IPV6_LEN..]);
    if payload.Failure? then payload else Success(Encode4(Header64(h, src, dst)) + payload.value)
  }

  // ---------- In place ----------

  function Overwrite(s: seq<byte>, at: nat, bytes: seq<byte>): seq<byte>
    requires at + |bytes| <= |s|
  {
    s[..at] + bytes + s[at + |bytes|..]
  }

  method WriteAt(buf: array<byte>, at: nat, bytes: seq<byte>)
    requires at + |bytes| <= buf.Length
    modifies buf
    ensures buf[..] == Overwrite(old(buf[..]), at, bytes)
  {
    var i := 0;
    while i < |bytes|
      invariant 0 <= i <= |bytes|
      invariant forall k :: 0 <= k < buf.Length ==> buf[k] == if at <= k < at + i then bytes[k - at] else old(buf[k])
    {
      buf[at + i] := bytes[i];
      i := i + 1;
    }
  }

  /** A header written right before a payload whose beginning was overwritten first. */
  lemma TwoWrites(s: seq<byte>, payloadAt: nat, icmp: seq<byte>, header: seq<byte>, hi: nat)
    requires |header| <= payloadAt && payloadAt + |icmp| <= hi <= |s|
    ensures Overwrite(Overwrite(s, payloadAt, icmp), payloadAt - |header|, header)
            == s[..payloadAt - |header|] + (header + (icmp + s[payloadAt..hi][|icmp|..])) + s[hi..]
  {
    var once := Overwrite(s, payloadAt, icmp);
    assert once[payloadAt..] == icmp + s[payloadAt + |icmp|..];
    assert once[..payloadAt - |header|] == s[..payloadAt - |header|];
    assert s[payloadAt + |icmp|..] == s[payloadAt..hi][|icmp|..] + s[hi..];
  }

  /**
   The IPv4 packet sits 20 bytes into `buf[lo..hi]`; the IPv6 header is written so that it ends where
   the payload begins, over the IPv4 header. Returns where in `buf[lo..hi]` the IPv6 packet begins.
   */
  method TranslateInPlace46(buf: array<byte>, lo: nat, hi: nat, src: seq<byte>, dst: seq<byte>, parses: bool)
    returns (r: Result<nat, NatError>)
    requires lo + NAT46_OVERHEAD <= hi <= buf.Length && |src| == 16 && |dst| == 16
    modifies buf
    ensures match Nat46(old(buf[lo + NAT46_OVERHEAD..hi]), src, dst, parses)
            case Failure(e) => r == Failure(e) && buf[..] == old(buf[..])
            case Success(q) =>
              && r == Success(HeaderLen4(old(buf[lo + NAT46_OVERHEAD..hi])) - 20)
              && lo + r.value + |q| == hi
              && buf[..] == old(buf[..])[..lo + r.value] + q + old(buf[..])[hi..]
  {
    hide Encode6, Parse4, Write6, Read4, Translate46, Overwrite, Header46;
    var packet := buf[lo + NAT46_OVERHEAD..hi];
    if !IsIpv4(packet) || (packet[9] == AUTH && !parses) { return Failure(Malformed); }
    var h := Parse4(packet);
    var ipv6Header := Header46(h, src, dst);
    var startOfPayload := lo + NAT46_OVERHEAD + h.Len();
    ghost var before := buf[..];
    assert before[startOfPayload..hi] == packet[h.Len()..];
    var icmp := [];
    assert icmp + packet[h.Len()..][0..] == packet[h.Len()..];
    if packet[9] == ICMP {
      if h.totalLen - h.Len() < HEADER_LEN { return Failure(Malformed); }
      var t := Translate46(Read4(packet[h.Len()..]), h.totalLen);
      if t.None? { return Failure(Impossible); }
      icmp := Write6(t.value);
    }
    assert Payload46(h, packet[h.Len()..]) == Success(icmp + packet[h.Len()..][|icmp|..]);
    WriteAt(buf, startOfPayload, icmp);
    WriteAt(buf, startOfPayload - IPV6_LEN, Encode6(ipv6Header));
    TwoWrites(before, startOfPayload, icmp, Encode6(ipv6Header), hi);
    r := Success(startOfPayload - IPV6_LEN - lo);
  }

  function Zeros(n: nat): (s: seq<byte>)
    ensures |s| == n && forall i :: 0 <= i < n ==> s[i] == 0
  {
    seq(n, _ => 0)
  }

  /** As before, but the forty bytes in front are first filled with zeros. */
  lemma ThreeWrites(s: seq<byte>, lo: nat, icmp: seq<byte>, header: seq<byte>, hi: nat)
    requires |header| == IPV4_MIN_LEN && lo + IPV6_LEN + |icmp| <= hi <= |s|
    ensures Overwrite(Overwrite(Overwrite(s, lo + IPV6_LEN, icmp), lo, Zeros(IPV6_LEN)), lo + IPV4_MIN_LEN, header)
            == s[..lo] + Zeros(20) + (header + (icmp + s[lo + IPV6_LEN..hi][|icmp|..])) + s[hi..]
  {
    TwoWrites(s, lo + IPV6_LEN, icmp, Zeros(IPV6_LEN), hi);
    var rest := icmp + s[lo + IPV6_LEN..hi][|icmp|..];
    var twice := s[..lo] + (Zeros(IPV6_LEN) + rest) + s[hi..];
    assert twice[..lo + IPV4_MIN_LEN] == s[..lo] + Zeros(20);
    assert twice[lo + IPV6_LEN..] == rest + s[hi..];
  }

  /** The IPv6 packet fills `buf[lo..hi]`; the IPv4 packet ends up 20 bytes into it, behind zeros. */
  method TranslateInPlace64(buf: array<byte>, lo: nat, hi: nat, src: seq<byte>, dst: seq<byte>, parses: bool)
    returns (r: Result<(), NatError>)
    requires lo <= hi <= buf.Length && hi - lo < 0x1_0000 && |src| == 4 && |dst| == 4
    modifies buf
    ensures match Nat64(old(buf[lo..hi]), src, dst, parses)
            case Failure(e) => r == Failure(e) && buf[..] == old(buf[..])
            case Success(q) =>
              r == Success(()) && buf[..] == old(buf[..])[..lo] + Zeros(20) + q + old(buf[..])[hi..]
  {
    hide Encode4, Parse6, Write4, Read6, Translate64, Overwrite, Zeros, Header64;
    var packet := buf[lo..hi];
    if !IsIpv6(packet) || (IsExtension(packet[6]) && !parses) { return Failure(Malformed); }
    var h := Parse6(packet);
    if IsUnsupported(packet[6]) { return Failure(UnsupportedNextHeader); }
    var ipv4Header := Header64(h, src, dst);
    ghost var before := buf[..];
    assert before[lo + IPV6_LEN..hi] == packet[IPV6_LEN..];
    var icmp := [];
    assert icmp + packet[IPV6_LEN..][0..] == packet[IPV6_LEN..];
    if packet[6] == IPV6_ICMP {
      if ReadableLength(h, packet[IPV6_LEN..]) < HEADER_LEN { return Failure(Malformed); }
      var t := Translate64(Read6(packet[IPV6_LEN..]));
      if t.None? { return Failure(Impossible); }
      icmp := Write4(t.value);
    }
    assert Payload64(h, packet[IPV6_LEN..]) == Success(icmp + packet[IPV6_LEN..][|icmp|..]);
    WriteAt(buf, lo + IPV6_LEN, icmp);
    WriteAt(buf, lo, Zeros(IPV6_LEN));
    WriteAt(buf, lo + IPV4_MIN_LEN, Encode4(ipv4Header));
    ThreeWrites(before, lo, icmp, Encode4(ipv4Header), hi);
    r := Success(());
  }
}
