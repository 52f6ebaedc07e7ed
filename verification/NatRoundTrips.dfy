/** What translating a packet there and back preserves, for every packet. */
module NatRoundTrips {
  import opened Common
  import opened Ip
  import opened Icmp
  import opened Nat

  // ---------- A translated packet is a packet ----------

  lemma Translated46(p: seq<byte>, src: seq<byte>, dst: seq<byte>, parses: bool)
    requires |src| == 16 && |dst| == 16
    ensures var q := Nat46(p, src, dst, parses);
            q.Success? ==>
              && IsIpv6(q.value) && Parse6(q.value) == Header46(Parse4(p), src, dst)
              && Payload46(Parse4(p), p[HeaderLen4(p)..]) == Success(q.value[IPV6_LEN..])
  {
    hide Encode6, Parse6, Parse4, Payload46, Header46;
    if Nat46(p, src, dst, parses).Success? {
      var h := Parse4(p);
      var payload := Payload46(h, p[h.Len()..]).value;
      var header := Header46(h, src, dst);
      PayloadLength46(h, src, dst);
      ParseEncode6(header, payload);
      assert (Encode6(header) + payload)[IPV6_LEN..] == payload;
    }
  }

  lemma PayloadLength46(h: Ipv4Header, src: seq<byte>, dst: seq<byte>)
    requires h.Valid() && h.Len() <= h.totalLen && |src| == 16 && |dst| == 16
    ensures Header46(h, src, dst).payloadLength == h.totalLen - h.Len()
  {
  }

  lemma Translated64(p: seq<byte>, src: seq<byte>, dst: seq<byte>, parses: bool)
    requires |src| == 4 && |dst| == 4 && |p| < 0x1_0000
    ensures var q := Nat64(p, src, dst, parses);
            q.Success? ==>
              && IsIpv4(q.value) && HeaderLen4(q.value) == IPV4_MIN_LEN
                 && Parse4(q.value) == Header64(Parse6(p), src, dst)
              && Payload64(Parse6(p), p[IPV6_LEN..]) == Success(q.value[IPV4_MIN_LEN..])
  {
    hide Encode4, Parse6, Parse4, Payload64, Header64;
    if Nat64(p, src, dst, parses).Success? {
      var h := Parse6(p);
      var payload := Payload64(h, p[IPV6_LEN..]).value;
      var header := Header64(h, src, dst);
      TotalLength64(h, src, dst);
      ParseEncode4(header, payload);
      assert (Encode4(header) + payload)[IPV4_MIN_LEN..] == payload;
    }
  }

  lemma TotalLength64(h: Ipv6Header, src: seq<byte>, dst: seq<byte>)
    requires h.Valid() && h.payloadLength + IPV4_MIN_LEN < 0x1_0000 && |src| == 4 && |dst| == 4
    ensures Header64(h, src, dst).totalLen == h.payloadLength + IPV4_MIN_LEN
  {
  }

  lemma Protocol64(h: Ipv6Header, src: seq<byte>, dst: seq<byte>)
    requires h.Valid() && h.payloadLength + IPV4_MIN_LEN < 0x1_0000 && |src| == 4 && |dst| == 4
    ensures Header64(h, src, dst).protocol == if h.nextHeader == IPV6_ICMP then ICMP else h.nextHeader
  {
  }

  // ---------- IPv6 to IPv4 to IPv6 ----------

  /** An IPv6 packet translated to any IPv4 addresses and back to its own. */
  function Trip6(p: seq<byte>, src: seq<byte>, dst: seq<byte>, parses: bool): Result<seq<byte>, NatError>
    requires |src| == 4 && |dst| == 4 && |p| < 0x1_0000
  {
    var there := Nat64(p, src, dst, parses);
    if there.Failure? then there else Nat46(there.value, p[8..24], p[24..40], parses)
  }

  /** The translations leave the ICMP checksum zero. */
  function ChecksumCleared(icmp: seq<byte>): seq<byte>
    requires |icmp| >= HEADER_LEN
  {
    icmp[..2] + [0, 0] + icmp[4..]
  }

  function ExpectedPayload(h: Ipv6Header, payload: seq<byte>): seq<byte> {
    if h.nextHeader == IPV6_ICMP && HEADER_LEN <= |payload| then ChecksumCleared(payload) else payload
  }

  /** The unused word of a message without parameters is zero. */
  predicate Canonical(icmp: seq<byte>)
    requires |icmp| >= HEADER_LEN
  {
    Read6(icmp).Unreachable6? || Read6(icmp).TimeExceeded6? ==> icmp[4..8] == [0, 0, 0, 0]
  }

  predicate PayloadReturns(h: Ipv6Header, payload: seq<byte>) {
    h.nextHeader == IPV6_ICMP ==>
      HEADER_LEN <= h.payloadLength <= |payload| && Survives(Read6(payload)) && Canonical(payload)
  }

  predicate HeaderReturns(h: Ipv6Header) {
    h.trafficClass < 64 && h.flowLabel == 0 && h.nextHeader != ICMP
  }

  lemma HeaderTrip6(h: Ipv6Header, src: seq<byte>, dst: seq<byte>)
    requires h.Valid() && h.payloadLength + IPV4_MIN_LEN < 0x1_0000 && |src| == 4 && |dst| == 4
    ensures Header46(Header64(h, src, dst), h.source, h.destination) == h <==> HeaderReturns(h)
  {
  }

  lemma Rewritten(t: Icmp6, icmp: seq<byte>)
    requires |icmp| >= HEADER_LEN && t.Valid() && !t.Other6?
    ensures Write6(t) + icmp[HEADER_LEN..] == ChecksumCleared(icmp) <==> t == Read6(icmp) && Canonical(icmp)
  {
    var cleared := ChecksumCleared(icmp);
    assert Read6(cleared) == Read6(icmp) by {
      assert cleared[0] == icmp[0] && cleared[1] == icmp[1] && cleared[4..8] == icmp[4..8];
    }
    if Write6(t) + icmp[HEADER_LEN..] == cleared {
      ReadWrite6(t, icmp[HEADER_LEN..]);
      assert cleared[4..8] == Write6(t)[4..8];
      assert cleared[4..8] == icmp[4..8];
    }
    if t == Read6(icmp) && Canonical(icmp) {
      RewrittenSame(t, icmp);
      assert cleared == cleared[..HEADER_LEN] + cleared[HEADER_LEN..];
      assert cleared[HEADER_LEN..] == icmp[HEADER_LEN..];
      assert cleared[..HEADER_LEN] == icmp[..2] + [0, 0] + icmp[4..8];
    }
  }

  lemma Word(b: seq<byte>)
    requires |b| == 4
    ensures 0 <= U32(b) < 0x1_0000_0000 && Bytes32(U32(b)) == b
  {
    var hi, lo := U16(b[0], b[1]), U16(b[2], b[3]);
    hide U16, Hi, Lo;
    Bytes16(b[0], b[1]);
    Bytes16(b[2], b[3]);
    Upper(hi, lo);
    assert Bytes32(U32(b)) == [Hi(hi), Lo(hi), Hi(lo), Lo(lo)];
  }

  lemma RewrittenSame(t: Icmp6, icmp: seq<byte>)
    requires |icmp| >= HEADER_LEN && !t.Other6? && t == Read6(icmp) && Canonical(icmp)
    ensures Write6(t) == icmp[..2] + [0, 0] + icmp[4..8]
  {
    hide U32, Bytes32;
    assert icmp[..2] == [icmp[0], icmp[1]];
    Word(icmp[4..8]);
  }

  /** The two translations of an ICMPv6 header, one after the other, in a packet of the given IPv4 length. */
  lemma IcmpTrip6(icmp: seq<byte>, total: int)
    requires |icmp| >= HEADER_LEN
    ensures var t := Translate64(Read6(icmp));
            Survives(Read6(icmp)) && Canonical(icmp) <==>
              && t.Some? && Translate46(t.value, total).Some?
              && Write6(Translate46(t.value, total).value) + icmp[HEADER_LEN..] == ChecksumCleared(icmp)
  {
    hide Read6, Write6, Translate46, Translate64, Survives, Canonical, ChecksumCleared;
    var t := Read6(icmp);
    SurvivesExactly(t, total);
    if Translate64(t).Some? && Translate46(Translate64(t).value, total).Some? {
      Rewritten(Translate46(Translate64(t).value, total).value, icmp);
    }
  }

  lemma PayloadTrip6(h: Ipv6Header, payload: seq<byte>, src: seq<byte>, dst: seq<byte>)
    requires h.Valid() && h.payloadLength + IPV4_MIN_LEN < 0x1_0000 && |src| == 4 && |dst| == 4
    requires h.payloadLength <= |payload| && h.nextHeader != ICMP
    ensures PayloadReturns(h, payload) <==>
              && Payload64(h, payload).Success?
              && Payload46(Header64(h, src, dst), Payload64(h, payload).value) == Success(ExpectedPayload(h, payload))
  {
    hide Read4, Read6, Write4, Write6, Translate46, Translate64, Survives, Canonical, ChecksumCleared;
    if h.nextHeader == IPV6_ICMP && HEADER_LEN <= h.payloadLength {
      IcmpTrip6(payload, h.payloadLength + IPV4_MIN_LEN);
      var t := Translate64(Read6(payload));
      if t.Some? {
        var rest := payload[HEADER_LEN..];
        ReadWrite4(t.value, rest);
        assert (Write4(t.value) + rest)[HEADER_LEN..] == rest;
      }
    }
  }

  lemma EncodeInjective6(h: Ipv6Header, rest: seq<byte>, g: Ipv6Header, tail: seq<byte>)
    requires h.Valid() && g.Valid()
    ensures Encode6(h) + rest == Encode6(g) + tail <==> h == g && rest == tail
  {
    hide Encode6, Parse6;
    if Encode6(h) + rest == Encode6(g) + tail {
      assert (Encode6(h) + rest)[..IPV6_LEN] == Encode6(h) && (Encode6(g) + tail)[..IPV6_LEN] == Encode6(g);
      assert (Encode6(h) + rest)[IPV6_LEN..] == rest && (Encode6(g) + tail)[IPV6_LEN..] == tail;
      var padding := Zeros(0xFFFF);
      ParseEncode6(h, padding);
      ParseEncode6(g, padding);
    }
  }

  lemma SecondLeg(q: seq<byte>, src: seq<byte>, dst: seq<byte>, parses: bool, h: Ipv6Header, payload: seq<byte>)
    requires |src| == 16 && |dst| == 16 && h.Valid() && IsIpv4(q)
    ensures Nat46(q, src, dst, parses) == Success(Encode6(h) + payload) <==>
              && (Parse4(q).protocol == AUTH ==> parses)
              && Header46(Parse4(q), src, dst) == h
              && Payload46(Parse4(q), q[HeaderLen4(q)..]) == Success(payload)
  {
    hide Encode6, Parse4, Payload46, Header46;
    var back := Payload46(Parse4(q), q[HeaderLen4(q)..]);
    if back.Success? {
      EncodeInjective6(Header46(Parse4(q), src, dst), back.value, h, payload);
    }
  }

  /**
   Exactly these IPv6 packets come back unchanged, up to the checksum of ICMPv6: traffic class below
   64, no flow label, no ICMPv4 inside, no extension that is dropped or unreadable, and only ICMPv6
   messages that have an ICMPv4 counterpart.
   */
  lemma Trip6Exactly(p: seq<byte>, src: seq<byte>, dst: seq<byte>, parses: bool)
    requires |src| == 4 && |dst| == 4 && |p| < 0x1_0000 && IsIpv6(p)
    ensures var h := Parse6(p);
            Trip6(p, src, dst, parses) == Success(p[..IPV6_LEN] + ExpectedPayload(h, p[IPV6_LEN..])) <==>
              && HeaderReturns(h) && PayloadReturns(h, p[IPV6_LEN..])
              && !IsUnsupported(h.nextHeader) && (h.nextHeader == AUTH ==> parses)
  {
    var h := Parse6(p);
    var payload := p[IPV6_LEN..];
    var there := Nat64(p, src, dst, parses);
    assert h.source == p[8..24] && h.destination == p[24..40];
    HeaderTrip6(h, src, dst);
    if h.nextHeader != ICMP { PayloadTrip6(h, payload, src, dst); }
    EncodeParse6(p);
    hide Payload46, Payload64, Header46, Header64, Encode6, Encode4, PayloadReturns, HeaderReturns, ExpectedPayload,
         Parse4, Parse6;
    if there.Success? {
      Translated64(p, src, dst, parses);
      SecondLeg(there.value, h.source, h.destination, parses, h, ExpectedPayload(h, payload));
      Protocol64(h, src, dst);
    }
  }

  // ---------- IPv4 to IPv6 to IPv4 ----------

  /** An IPv4 packet translated to any IPv6 addresses and back to its own. */
  function Trip(p: seq<byte>, src: seq<byte>, dst: seq<byte>, parses: bool): Result<seq<byte>, NatError>
    requires |src| == 16 && |dst| == 16 && |p| + 20 < 0x1_0000
  {
    var there := Nat46(p, src, dst, parses);
    if there.Failure? then there else Nat64(there.value, p[12..16], p[16..20], parses)
  }

  /** What is left of an IPv4 header: no options, no fragmentation, no congestion marks. */
  function Normal(h: Ipv4Header): (r: Ipv4Header)
    requires h.Valid() && h.Len() <= h.totalLen
    ensures r.Valid() && r.Len() == IPV4_MIN_LEN
  {
    h.(ecn := 0, totalLen := h.totalLen - |h.options|, identification := 0, dontFragment := true,
       moreFragments := false, fragmentOffset := 0, options := [],
       protocol := if h.protocol == IPV6_ICMP then ICMP else h.protocol)
  }

  /** What is left of the payload. ICMPv6 inside IPv4 is mistaken for a translated message on the way back. */
  function PayloadTrip(h: Ipv4Header, payload: seq<byte>): (r: Result<seq<byte>, NatError>)
    requires h.Valid() && 0 <= h.totalLen - h.Len() <= |payload|
  {
    var length := h.totalLen - h.Len();
    if h.protocol != ICMP && h.protocol != IPV6_ICMP then Success(payload)
    else if (if h.protocol == IPV6_ICMP && length == 0 then |payload| else length) < HEADER_LEN then Failure(Malformed)
    else
      var t := if h.protocol == ICMP then Trip4(Read4(payload), h.totalLen) else Translate64(Read6(payload));
      if t.None? then Failure(Impossible) else Success(Write4(t.value) + payload[HEADER_LEN..])
  }

  lemma HeaderTrip(h: Ipv4Header, src: seq<byte>, dst: seq<byte>)
    requires h.Valid() && h.Len() <= h.totalLen && |src| == 16 && |dst| == 16
    ensures Header64(Header46(h, src, dst), h.source, h.destination) == Normal(h)
  {
  }

  lemma PayloadTripIs(h: Ipv4Header, payload: seq<byte>, src: seq<byte>, dst: seq<byte>)
    requires h.Valid() && 0 <= h.totalLen - h.Len() <= |payload| && |src| == 16 && |dst| == 16
    ensures var there := Payload46(h, payload);
            PayloadTrip(h, payload) == if there.Failure? then there else Payload64(Header46(h, src, dst), there.value)
  {
    hide Read4, Read6, Write4, Write6, Translate46, Translate64;
    if h.protocol == ICMP && HEADER_LEN <= h.totalLen - h.Len() {
      var t := Translate46(Read4(payload), h.totalLen);
      if t.Some? {
        var rest := payload[HEADER_LEN..];
        ReadWrite6(t.value, rest);
        assert (Write6(t.value) + rest)[HEADER_LEN..] == rest;
      }
    }
  }

  /** The outcome for every packet, including why and when one is refused. */
  lemma TripIs(p: seq<byte>, src: seq<byte>, dst: seq<byte>, parses: bool)
    requires |src| == 16 && |dst| == 16 && |p| + 20 < 0x1_0000
    ensures Trip(p, src, dst, parses) ==
            if !IsIpv4(p) then Failure(Malformed) else
            var h := Parse4(p);
            if IsExtension(h.protocol) && !parses then Failure(Malformed)
            else if IsUnsupported(h.protocol) then Failure(UnsupportedNextHeader)
            else
              var payload := PayloadTrip(h, p[h.Len()..]);
              if payload.Failure? then payload else Success(Encode4(Normal(h)) + payload.value)
  {
    if IsIpv4(p) {
      var h := Parse4(p);
      assert h.source == p[12..16] && h.destination == p[16..20];
      HeaderTrip(h, src, dst);
      PayloadTripIs(h, p[h.Len()..], src, dst);
      NextHeader46(h, src, dst);
      hide Payload46, Payload64, Header46, Header64, Encode4, Encode6, PayloadTrip, Parse4, Parse6;
      if Nat46(p, src, dst, parses).Success? {
        Translated46(p, src, dst, parses);
      } else if Payload46(h, p[h.Len()..]).Failure? {
        OnlyIcmpFails(h, p[h.Len()..]);
      }
    }
  }

  lemma OnlyIcmpFails(h: Ipv4Header, payload: seq<byte>)
    requires h.Valid() && 0 <= h.totalLen - h.Len() <= |payload| && Payload46(h, payload).Failure?
    ensures h.protocol == ICMP
  {
  }

  lemma NextHeader46(h: Ipv4Header, src: seq<byte>, dst: seq<byte>)
    requires h.Valid() && h.Len() <= h.totalLen && |src| == 16 && |dst| == 16
    ensures Header46(h, src, dst).nextHeader == if h.protocol == ICMP then IPV6_ICMP else h.protocol
  {
  }

  /** ICMPv6 inside IPv4, behind a header whose length leaves no payload or with an MTU of at most 20. */
  predicate IsOdd(h: Ipv4Header, payload: seq<byte>) {
    && h.protocol == IPV6_ICMP && HEADER_LEN <= |payload|
    && (h.totalLen == h.Len() || (Read6(payload).PacketTooBig? && Read6(payload).mtu <= 20))
  }

  lemma TranslatedIsStable(t: Icmp6, totalLength: int)
    requires t.Valid() && Translate64(t).Some?
    ensures Trip4(Translate64(t).value, totalLength) == Translate64(t) <==> !(t.PacketTooBig? && t.mtu <= 20)
  {
    hide GreatestBelow;
    PlateauInRange(totalLength);
  }

  lemma PayloadTripIsStable(h: Ipv4Header, payload: seq<byte>)
    requires h.Valid() && 0 <= h.totalLen - h.Len() <= |payload| && PayloadTrip(h, payload).Success?
    ensures var once := PayloadTrip(h, payload).value;
            |once| == |payload| && (PayloadTrip(Normal(h), once) == Success(once) <==> !IsOdd(h, payload))
  {
    hide Read4, Read6, Write4, Translate46, Translate64, Trip4;
    var once := PayloadTrip(h, payload).value;
    var total := Normal(h).totalLen;
    if h.protocol == ICMP || h.protocol == IPV6_ICMP {
      var t := if h.protocol == ICMP then Trip4(Read4(payload), h.totalLen) else Translate64(Read6(payload));
      var rest := payload[HEADER_LEN..];
      ReadWrite4(t.value, rest);
      assert once[HEADER_LEN..] == rest;
      if h.protocol == ICMP { TripIsStable(Read4(payload), h.totalLen, total); }
      else { TranslatedIsStable(Read6(payload), total); }
      if Trip4(t.value, total).Some? { WriteInjective4(Trip4(t.value, total).value, t.value, rest); }
    }
  }

  lemma WriteInjective4(t: Icmp4, u: Icmp4, rest: seq<byte>)
    requires t.Valid() && u.Valid() && !t.Other4? && !u.Other4?
    ensures Write4(t) + rest == Write4(u) + rest <==> t == u
  {
    ReadWrite4(t, rest);
    ReadWrite4(u, rest);
  }

  /**
   One trip is enough: whatever comes back from it comes back from every further trip unchanged, except
   exactly ICMPv6 inside IPv4 that is beyond the packet's length or reports an MTU of at most 20.
   */
  lemma TripIsProjection(p: seq<byte>, src: seq<byte>, dst: seq<byte>, parses: bool)
    requires |src| == 16 && |dst| == 16 && |p| + 20 < 0x1_0000
    ensures var once := Trip(p, src, dst, parses);
            once.Success? ==>
              && IsIpv4(p) && |once.value| <= |p|
              && (Trip(once.value, src, dst, parses) == once <==> !IsOdd(Parse4(p), p[HeaderLen4(p)..]))
  {
    TripIs(p, src, dst, parses);
    if Trip(p, src, dst, parses).Success? {
      SecondTrip(p, src, dst, parses);
    }
  }

  lemma SecondTrip(p: seq<byte>, src: seq<byte>, dst: seq<byte>, parses: bool)
    requires |src| == 16 && |dst| == 16 && |p| + 20 < 0x1_0000 && IsIpv4(p)
    requires (IsExtension(Parse4(p).protocol) ==> parses) && !IsUnsupported(Parse4(p).protocol)
    requires PayloadTrip(Parse4(p), p[HeaderLen4(p)..]).Success?
    ensures var once := Encode4(Normal(Parse4(p))) + PayloadTrip(Parse4(p), p[HeaderLen4(p)..]).value;
            |once| <= |p| && (Trip(once, src, dst, parses) == Success(once) <==> !IsOdd(Parse4(p), p[HeaderLen4(p)..]))
  {
    var h := Parse4(p);
    var payload := PayloadTrip(h, p[h.Len()..]).value;
    PayloadTripIsStable(h, p[h.Len()..]);
    hide PayloadTrip, Encode4, Trip, IsOdd, Parse4;
    var n := Normal(h);
    var once := Encode4(n) + payload;
    ParseEncode4(n, payload);
    assert once[n.Len()..] == payload;
    TripIs(once, src, dst, parses);
    assert Normal(n) == n;
    var again := PayloadTrip(n, payload);
    if again.Success? {
      assert (Encode4(n) + again.value)[IPV4_MIN_LEN..] == again.value;
    }
  }
}
