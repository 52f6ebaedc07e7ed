/**
 Translation together with the checksum updates that follow it on every leg.

 The transport checksums and the transport parsers are parameters: any function of the bytes other
 than the checksum itself.
 */
module NatChecksums {
  import opened Common
  import opened Ip
  import opened Icmp
  import opened Nat
  import opened NatRoundTrips

  const UDP: byte := 17
  const TCP: byte := 6

  type Sum = (seq<byte>, seq<byte>) -> (byte, byte)

  /** Where in the transport header the checksum is. */
  function ChecksumAt(protocol: byte): Option<nat> {
    if protocol == ICMP || protocol == IPV6_ICMP then Some(2)
    else if protocol == UDP then Some(6)
    else if protocol == TCP then Some(16)
    else None
  }

  function WithChecksum(payload: seq<byte>, at: nat, sum: (byte, byte)): (r: seq<byte>)
    requires at + 2 <= |payload|
    ensures |r| == |payload|
  {
    payload[..at] + [sum.0, sum.1] + payload[at + 2..]
  }

  /** Whether the transport header can be read; `length` is the length of the payload as the IP header has it. */
  predicate IsReadable(protocol: byte, length: int, payload: seq<byte>, readable: seq<byte> -> bool)
    requires length <= |payload|
  {
    var at := ChecksumAt(protocol);
    && at.Some? && at.value + 2 <= length
    && if at.value == 2 then HEADER_LEN <= length else readable(WithChecksum(payload, at.value, (0, 0)))
  }

  function Sealed(header: seq<byte>, protocol: byte, length: int, payload: seq<byte>, readable: seq<byte> -> bool,
                  sum: Sum): (r: seq<byte>)
    requires length <= |payload|
    ensures |r| == |payload|
  {
    if !IsReadable(protocol, length, payload, readable) then payload else
    var at := ChecksumAt(protocol).value;
    WithChecksum(payload, at, sum(header, WithChecksum(payload, at, (0, 0))))
  }

  function UpdateChecksum6(p: seq<byte>, readable: seq<byte> -> bool, sum: Sum): seq<byte>
    requires IsIpv6(p)
  {
    var h := Parse6(p);
    p[..IPV6_LEN] + Sealed(p[..IPV6_LEN], h.nextHeader, h.payloadLength, p[IPV6_LEN..], readable, sum)
  }

  /** ICMPv6 is left alone in IPv4; the header's own checksum comes last. */
  function UpdateChecksum4(p: seq<byte>, readable: seq<byte> -> bool, sum: Sum): seq<byte>
    requires IsIpv4(p)
  {
    var h := Parse4(p);
    var header, payload := p[..h.Len()], p[h.Len()..];
    var c := HeaderChecksum(h);
    WithChecksum(header, 10, (Hi(c), Lo(c)))
    + if h.protocol == IPV6_ICMP then payload else Sealed(header, h.protocol, h.totalLen - h.Len(), payload, readable,
        sum)
  }

  lemma WrittenChecksum(payload: seq<byte>, at: nat, a: (byte, byte), b: (byte, byte))
    requires at + 2 <= |payload|
    ensures WithChecksum(WithChecksum(payload, at, a), at, b) == WithChecksum(payload, at, b)
  {
  }

  /** Two payloads that differ in the checksum only are sealed alike. */
  lemma SealedAlike(header: seq<byte>, other: seq<byte>, protocol: byte, length: int, payload: seq<byte>,
                    readable: seq<byte> -> bool, sum: Sum, otherSum: Sum)
    requires length <= |payload|
    ensures Sealed(header, protocol, length, Sealed(other, protocol, length, payload, readable, otherSum), readable,
            sum)
            == Sealed(header, protocol, length, payload, readable, sum)
  {
    if IsReadable(protocol, length, payload, readable) {
      var at := ChecksumAt(protocol).value;
      var s := otherSum(other, WithChecksum(payload, at, (0, 0)));
      WrittenChecksum(payload, at, s, (0, 0));
      WrittenChecksum(payload, at, s, sum(header, WithChecksum(payload, at, (0, 0))));
    }
  }

  /** The header that a translation to IPv4 writes has its checksum already. */
  lemma EncodedHasChecksum(h: Ipv4Header)
    requires h.Valid()
    ensures var c := HeaderChecksum(h); WithChecksum(Encode4(h), 10, (Hi(c), Lo(c))) == Encode4(h)
  {
    var c := HeaderChecksum(h);
    var b := Encode4(h);
    hide HeaderChecksum;
    assert b[10] == Hi(c) && b[11] == Lo(c);
    assert b == b[..10] + [b[10], b[11]] + b[12..];
  }

  lemma Updated4(h: Ipv4Header, payload: seq<byte>, readable: seq<byte> -> bool, sum: Sum)
    requires h.Valid() && h.Len() <= h.totalLen <= h.Len() + |payload| && h.protocol != IPV6_ICMP
    ensures IsIpv4(Encode4(h) + payload)
    ensures UpdateChecksum4(Encode4(h) + payload, readable, sum)
            == Encode4(h) + Sealed(Encode4(h), h.protocol, h.totalLen - h.Len(), payload, readable, sum)
  {
    ParseEncode4(h, payload);
    EncodedHasChecksum(h);
    hide Encode4, Parse4, HeaderChecksum, Sealed, WithChecksum;
    var p := Encode4(h) + payload;
    assert p[..h.Len()] == Encode4(h) && p[h.Len()..] == payload;
  }

  /** The ICMP checksum that was written in between does not matter to the translation back. */
  lemma PayloadBack(h: Ipv4Header, payload: seq<byte>, sealed: seq<byte>)
    requires h.Valid() && h.protocol == ICMP && HEADER_LEN <= h.totalLen - h.Len() <= |payload|
    requires exists s :: sealed == WithChecksum(payload, 2, s)
    ensures Payload46(h, sealed) == Payload46(h, payload)
  {
    assert sealed[..2] == payload[..2] && sealed[4..8] == payload[4..8]
           && sealed[HEADER_LEN..] == payload[HEADER_LEN..];
    assert sealed[0] == sealed[..2][0] && sealed[1] == sealed[..2][1];
    assert sealed[6] == sealed[4..8][2] && sealed[7] == sealed[4..8][3];
    assert payload[6] == payload[4..8][2] && payload[7] == payload[4..8][3];
  }

  // ---------- IPv6 to IPv4 to IPv6, with checksums ----------

  function UpdatedTrip6(p: seq<byte>, src: seq<byte>, dst: seq<byte>, parses: bool,
                        readable: seq<byte> -> bool, sum4: Sum, sum6: Sum): Result<seq<byte>, NatError>
    requires |src| == 4 && |dst| == 4 && |p| < 0x1_0000
  {
    var there := Nat64(p, src, dst, parses);
    if there.Failure? then there else
    Translated64(p, src, dst, parses);
    var back := Nat46(UpdateChecksum4(there.value, readable, sum4), p[8..24], p[24..40], parses);
    if back.Failure? then back else
    Translated46(UpdateChecksum4(there.value, readable, sum4), p[8..24], p[24..40], parses);
    Success(UpdateChecksum6(back.value, readable, sum6))
  }

  /** The second leg, from an IPv4 header without options and a payload. */
  lemma BackFrom(h: Ipv4Header, payload: seq<byte>, src: seq<byte>, dst: seq<byte>, parses: bool)
    requires h.Valid() && h.options == [] && h.Len() <= h.totalLen <= h.Len() + |payload| && |src| == 16 && |dst| == 16
    ensures IsIpv4(Encode4(h) + payload)
    ensures var back := Payload46(h, payload);
            Nat46(Encode4(h) + payload, src, dst, parses)
            == if h.protocol == AUTH && !parses then Failure(Malformed)
               else if back.Failure? then back else Success(Encode6(Header46(h, src, dst)) + back.value)
  {
    ParseEncode4(h, payload);
    hide Encode4, Parse4, Payload46, Encode6, Header46;
    var q := Encode4(h) + payload;
    assert q[h.Len()..] == payload;
  }

  lemma Updated6(h: Ipv6Header, payload: seq<byte>, readable: seq<byte> -> bool, sum: Sum)
    requires h.Valid() && h.payloadLength <= |payload|
    ensures IsIpv6(Encode6(h) + payload)
    ensures UpdateChecksum6(Encode6(h) + payload, readable, sum)
            == Encode6(h) + Sealed(Encode6(h), h.nextHeader, h.payloadLength, payload, readable, sum)
  {
    ParseEncode6(h, payload);
    hide Encode6, Parse6, Sealed;
    var p := Encode6(h) + payload;
    assert p[..IPV6_LEN] == Encode6(h) && p[IPV6_LEN..] == payload;
  }

  /** Sealing the payload in between is undone by the translation back and the update after it. */
  lemma SealedInBetween(h: Ipv4Header, payload: seq<byte>, src: seq<byte>, dst: seq<byte>, header: seq<byte>,
                        readable: seq<byte> -> bool, sum4: Sum, sum6: Sum)
    requires h.Valid() && h.protocol != IPV6_ICMP && 0 <= h.totalLen - h.Len() <= |payload| && |src| == 16
             && |dst| == 16
    ensures var g := Header46(h, src, dst);
            var sealed := Sealed(header, h.protocol, h.totalLen - h.Len(), payload, readable, sum4);
            var plain, back := Payload46(h, payload), Payload46(h, sealed);
            && (plain.Failure? ==> back == plain)
            && (plain.Success? ==>
                  && back.Success?
                  && Sealed(Encode6(g), g.nextHeader, g.payloadLength, back.value, readable, sum6)
                     == Sealed(Encode6(g), g.nextHeader, g.payloadLength, plain.value, readable, sum6))
  {
    var g := Header46(h, src, dst);
    var length := h.totalLen - h.Len();
    if h.protocol == ICMP {
      if HEADER_LEN <= length {
        var s := sum4(header, WithChecksum(payload, 2, (0, 0)));
        assert Sealed(header, h.protocol, length, payload, readable, sum4) == WithChecksum(payload, 2, s);
        PayloadBack(h, payload, WithChecksum(payload, 2, s));
      }
    } else {
      SealedAlike(Encode6(g), header, h.protocol, length, payload, readable, sum6, sum4);
    }
  }

  /** The update on the first leg leaves no trace: only the last one counts. */
  lemma LastUpdateCounts(p: seq<byte>, src: seq<byte>, dst: seq<byte>, parses: bool,
                         readable: seq<byte> -> bool, sum4: Sum, sum6: Sum)
    requires |src| == 4 && |dst| == 4 && |p| < 0x1_0000
    ensures var plain := Trip6(p, src, dst, parses);
            && (plain.Success? ==> IsIpv6(plain.value))
            && UpdatedTrip6(p, src, dst, parses, readable, sum4, sum6)
               == if plain.Failure? then plain else Success(UpdateChecksum6(plain.value, readable, sum6))
  {
    var there := Nat64(p, src, dst, parses);
    if there.Success? {
      var h := Header64(Parse6(p), src, dst);
      var payload := Payload64(Parse6(p), p[IPV6_LEN..]).value;
      var s6, d6 := p[8..24], p[24..40];
      var sealed := Sealed(Encode4(h), h.protocol, h.totalLen - h.Len(), payload, readable, sum4);
      assert h.protocol != IPV6_ICMP && h.options == [] && there.value == Encode4(h) + payload;
      Translated64(p, src, dst, parses);
      Updated4(h, payload, readable, sum4);
      BackFrom(h, payload, s6, d6, parses);
      BackFrom(h, sealed, s6, d6, parses);
      SealedInBetween(h, payload, s6, d6, Encode4(h), readable, sum4, sum6);
      var g := Header46(h, s6, d6);
      if Payload46(h, payload).Success? {
        Updated6(g, Payload46(h, payload).value, readable, sum6);
        Updated6(g, Payload46(h, sealed).value, readable, sum6);
      }
    }
  }

  /** With its checksum cleared or as it is, a payload is sealed the same way. */
  lemma SealedExpected(header: seq<byte>, h: Ipv6Header, payload: seq<byte>, readable: seq<byte> -> bool, sum: Sum)
    requires h.payloadLength <= |payload| && PayloadReturns(h, payload)
    ensures Sealed(header, h.nextHeader, h.payloadLength, ExpectedPayload(h, payload), readable, sum)
            == Sealed(header, h.nextHeader, h.payloadLength, payload, readable, sum)
  {
    if h.nextHeader == IPV6_ICMP {
      assert ExpectedPayload(h, payload) == WithChecksum(payload, 2, (0, 0));
      WrittenChecksum(payload, 2, (0, 0), (0, 0));
      WrittenChecksum(payload, 2, (0, 0), sum(header, WithChecksum(payload, 2, (0, 0))));
    }
  }

  /** What comes back before the last update has no ICMP checksum and is otherwise what it will be after it. */
  lemma ExpectedFrom(g: Ipv6Header, back: seq<byte>, h: Ipv6Header, payload: seq<byte>, header: seq<byte>,
                     readable: seq<byte> -> bool, sum: Sum)
    requires g.payloadLength <= |back| && g == h && h.payloadLength <= |payload|
    requires h.nextHeader == IPV6_ICMP ==> HEADER_LEN <= h.payloadLength && back[2] == 0 && back[3] == 0
    requires h.nextHeader != IPV6_ICMP ==> back == payload
    requires Sealed(header, g.nextHeader, g.payloadLength, back, readable, sum) == payload
    ensures back == ExpectedPayload(h, payload)
  {
    if h.nextHeader == IPV6_ICMP {
      var s := sum(header, WithChecksum(back, 2, (0, 0)));
      assert payload == WithChecksum(back, 2, s);
      WrittenChecksum(back, 2, s, (0, 0));
      assert back == WithChecksum(back, 2, (0, 0));
    }
  }

  lemma IcmpBack(h: Ipv4Header, payload: seq<byte>)
    requires h.Valid() && 0 <= h.totalLen - h.Len() <= |payload| && Payload46(h, payload).Success?
    ensures var back := Payload46(h, payload).value;
            if h.protocol == ICMP then HEADER_LEN <= h.totalLen - h.Len() && back[2] == 0 && back[3] == 0
                else back == payload
  {
  }

  /**
   Exactly the packets of `Trip6Exactly` come back entirely unchanged, provided that their checksum is
   the one the updates compute.
   */
  lemma UpdatedTrip6Exactly(p: seq<byte>, src: seq<byte>, dst: seq<byte>, parses: bool,
                            readable: seq<byte> -> bool, sum4: Sum, sum6: Sum)
    requires |src| == 4 && |dst| == 4 && |p| < 0x1_0000 && IsIpv6(p) && UpdateChecksum6(p, readable, sum6) == p
    ensures var h := Parse6(p);
            UpdatedTrip6(p, src, dst, parses, readable, sum4, sum6) == Success(p) <==>
              && HeaderReturns(h) && PayloadReturns(h, p[IPV6_LEN..])
              && !IsUnsupported(h.nextHeader) && (h.nextHeader == AUTH ==> parses)
  {
    var h, payload := Parse6(p), p[IPV6_LEN..];
    LastUpdateCounts(p, src, dst, parses, readable, sum4, sum6);
    Trip6Exactly(p, src, dst, parses);
    EncodeParse6(p);
    assert p == Encode6(h) + payload;
    Updated6(h, payload, readable, sum6);
    hide HeaderReturns, PayloadReturns, Sealed, Encode6, UpdatedTrip6, ExpectedPayload;
    EncodeInjective6(h, Sealed(Encode6(h), h.nextHeader, h.payloadLength, payload, readable, sum6), h, payload);
    var plain := Trip6(p, src, dst, parses);
    if plain == Success(Encode6(h) + ExpectedPayload(h, payload)) {
      SealedExpected(Encode6(h), h, payload, readable, sum6);
      ExpectedLength(h, payload);
      Updated6(h, ExpectedPayload(h, payload), readable, sum6);
    } else if plain.Success? {
      NotRestored(p, src, dst, parses, readable, sum6);
    }
  }

  lemma ExpectedLength(h: Ipv6Header, payload: seq<byte>)
    ensures |ExpectedPayload(h, payload)| == |payload|
  {
  }

  lemma NotRestored(p: seq<byte>, src: seq<byte>, dst: seq<byte>, parses: bool, readable: seq<byte> -> bool, sum6: Sum)
    requires |src| == 4 && |dst| == 4 && |p| < 0x1_0000 && IsIpv6(p) && Trip6(p, src, dst, parses).Success?
    requires Trip6(p, src, dst, parses).value != Encode6(Parse6(p)) + ExpectedPayload(Parse6(p), p[IPV6_LEN..])
    ensures IsIpv6(Trip6(p, src, dst, parses).value)
    ensures UpdateChecksum6(Trip6(p, src, dst, parses).value, readable, sum6) != p
  {
    var h6, payload6 := Parse6(p), p[IPV6_LEN..];
    EncodeParse6(p);
    assert p == Encode6(h6) + payload6;
    var h := Header64(h6, src, dst);
    var payload := Payload64(h6, payload6).value;
    var g := Header46(h, p[8..24], p[24..40]);
    BackFrom(h, payload, p[8..24], p[24..40], parses);
    var back := Payload46(h, payload).value;
    IcmpBack(h, payload);
    if h6.nextHeader != IPV6_ICMP { PlainPayload(h6, payload6); }
    hide Payload64, Payload46, Encode4, Encode6, Sealed, ExpectedPayload, UpdateChecksum6;
    Updated6(g, back, readable, sum6);
    var sealed := Sealed(Encode6(g), g.nextHeader, g.payloadLength, back, readable, sum6);
    EncodeInjective6(g, sealed, h6, payload6);
    if g == h6 && sealed == payload6 {
      ExpectedFrom(g, back, h6, payload6, Encode6(g), readable, sum6);
      assert false;
    }
  }

  lemma PlainPayload(h: Ipv6Header, payload: seq<byte>)
    requires h.Valid() && h.payloadLength <= |payload| && Payload64(h, payload).Success? && h.nextHeader != IPV6_ICMP
    ensures Payload64(h, payload).value == payload
  {
  }

  // ---------- IPv4 to IPv6 to IPv4, with checksums ----------

  function UpdatedTrip(p: seq<byte>, src: seq<byte>, dst: seq<byte>, parses: bool,
                       readable: seq<byte> -> bool, sum4: Sum, sum6: Sum): Result<seq<byte>, NatError>
    requires |src| == 16 && |dst| == 16 && |p| + 20 < 0x1_0000
  {
    var there := Nat46(p, src, dst, parses);
    if there.Failure? then there else
    Translated46(p, src, dst, parses);
    var back := Nat64(UpdateChecksum6(there.value, readable, sum6), p[12..16], p[16..20], parses);
    if back.Failure? then back else
    Translated64(UpdateChecksum6(there.value, readable, sum6), p[12..16], p[16..20], parses);
    Success(UpdateChecksum4(back.value, readable, sum4))
  }

  /** The second leg, by the header and the payload that the packet consists of. */
  lemma ForthFrom(q: seq<byte>, h: Ipv6Header, payload: seq<byte>, src: seq<byte>, dst: seq<byte>, parses: bool)
    requires IsIpv6(q) && Parse6(q) == h && q[IPV6_LEN..] == payload && |q| < 0x1_0000 && |src| == 4 && |dst| == 4
    ensures h.Valid() && h.payloadLength <= |payload| && h.payloadLength + IPV4_MIN_LEN < 0x1_0000
    ensures var forth := Payload64(h, payload);
            Nat64(q, src, dst, parses)
            == if IsExtension(h.nextHeader) && !parses then Failure(Malformed)
               else if IsUnsupported(h.nextHeader) then Failure(UnsupportedNextHeader)
               else if forth.Failure? then forth else Success(Encode4(Header64(h, src, dst)) + forth.value)
  {
    hide Encode4, Payload64, Header64;
  }

  /** The ICMPv6 checksum that was written in between does not matter to the translation back. */
  lemma PayloadForth(h: Ipv6Header, payload: seq<byte>, sealed: seq<byte>)
    requires h.Valid() && h.nextHeader == IPV6_ICMP && HEADER_LEN <= h.payloadLength <= |payload|
    requires exists s :: sealed == WithChecksum(payload, 2, s)
    ensures Payload64(h, sealed) == Payload64(h, payload)
  {
    assert sealed[..2] == payload[..2] && sealed[4..8] == payload[4..8]
           && sealed[HEADER_LEN..] == payload[HEADER_LEN..];
    assert sealed[0] == sealed[..2][0] && sealed[1] == sealed[..2][1];
  }

  lemma SealedInBetween6(h: Ipv6Header, payload: seq<byte>, header: seq<byte>, final: seq<byte>,
                         readable: seq<byte> -> bool, sum4: Sum, sum6: Sum)
    requires h.Valid() && h.nextHeader != ICMP && h.payloadLength <= |payload|
    ensures var protocol := if h.nextHeader == IPV6_ICMP then ICMP else h.nextHeader;
            var sealed := Sealed(header, h.nextHeader, h.payloadLength, payload, readable, sum6);
            var plain, forth := Payload64(h, payload), Payload64(h, sealed);
            && (plain.Failure? ==> forth == plain)
            && (plain.Success? ==>
                  && forth.Success?
                  && Sealed(final, protocol, h.payloadLength, forth.value, readable, sum4)
                     == Sealed(final, protocol, h.payloadLength, plain.value, readable, sum4))
  {
    if h.nextHeader == IPV6_ICMP {
      if HEADER_LEN <= h.payloadLength {
        var s := sum6(header, WithChecksum(payload, 2, (0, 0)));
        assert Sealed(header, h.nextHeader, h.payloadLength, payload, readable, sum6) == WithChecksum(payload, 2, s);
        PayloadForth(h, payload, WithChecksum(payload, 2, s));
      }
    } else {
      SealedAlike(final, header, h.nextHeader, h.payloadLength, payload, readable, sum4, sum6);
    }
  }

  /** The header and payload lengths that matter on the way back. */
  lemma BackHeader(h: Ipv4Header, src: seq<byte>, dst: seq<byte>)
    requires h.Valid() && h.Len() <= h.totalLen && |src| == 16 && |dst| == 16
    ensures var g := Header46(h, src, dst); var n := Normal(h);
            && g.nextHeader != ICMP && g.payloadLength == n.totalLen - n.Len() == h.totalLen - h.Len()
            && n.protocol == (if g.nextHeader == IPV6_ICMP then ICMP else g.nextHeader) && n.protocol != IPV6_ICMP
            && Header64(g, h.source, h.destination) == n
  {
  }

  /**
   With the checksum updates after each leg, the outcome of 4 to 6 to 4 for every packet: the same error,
   or the header that is left of the original, followed by the payload that is left with its checksum
   computed anew.
   */
  lemma UpdatedTripIs(p: seq<byte>, src: seq<byte>, dst: seq<byte>, parses: bool,
                      readable: seq<byte> -> bool, sum4: Sum, sum6: Sum)
    requires |src| == 16 && |dst| == 16 && |p| + 20 < 0x1_0000
    ensures var plain, updated := Trip(p, src, dst, parses), UpdatedTrip(p, src, dst, parses, readable, sum4, sum6);
            && (plain.Failure? ==> updated == plain)
            && (plain.Success? ==>
                  && IsIpv4(p)
                  && var h := Parse4(p); var n := Normal(h); var payload := PayloadTrip(h, p[h.Len()..]);
                     && payload.Success? && plain == Success(Encode4(n) + payload.value)
                        && |payload.value| >= n.totalLen - n.Len()
                     && updated == Success(Encode4(n) + Sealed(Encode4(n), n.protocol, n.totalLen - n.Len(),
                        payload.value, readable, sum4)))
  {
    TripIs(p, src, dst, parses);
    var there := Nat46(p, src, dst, parses);
    if there.Success? {
      var h := Parse4(p);
      var g, n := Header46(h, src, dst), Normal(h);
      var payload := Payload46(h, p[h.Len()..]).value;
      assert h.source == p[12..16] && h.destination == p[16..20] && there.value == Encode6(g) + payload;
      Translated46(p, src, dst, parses);
      BackHeader(h, src, dst);
      UpdatedBack(g, n, payload, h.source, h.destination, parses, readable, sum4, sum6);
      PayloadTripIs(h, p[h.Len()..], src, dst);
      hide Encode4, Encode6, Header46, Header64, Payload46, Payload64, Parse4, UpdateChecksum4, UpdateChecksum6,
           PayloadTrip, Normal, Sealed;
    }
  }

  lemma UpdatedBack(g: Ipv6Header, n: Ipv4Header, payload: seq<byte>, src: seq<byte>, dst: seq<byte>, parses: bool,
                    readable: seq<byte> -> bool, sum4: Sum, sum6: Sum)
    requires g.Valid() && g.payloadLength <= |payload| && |payload| + IPV6_LEN < 0x1_0000 && |src| == 4 && |dst| == 4
    requires g.nextHeader != ICMP && n == Header64(g, src, dst)
    ensures IsIpv6(Encode6(g) + payload) && IsIpv6(UpdateChecksum6(Encode6(g) + payload, readable, sum6))
    ensures |UpdateChecksum6(Encode6(g) + payload, readable, sum6)| == IPV6_LEN + |payload|
    ensures var plain := Nat64(Encode6(g) + payload, src, dst, parses);
            var updated := Nat64(UpdateChecksum6(Encode6(g) + payload, readable, sum6), src, dst, parses);
            && (plain.Failure? ==> updated == plain)
            && (plain.Success? ==>
                  && Payload64(g, payload).Success? && updated.Success? && IsIpv4(updated.value)
                  && UpdateChecksum4(updated.value, readable, sum4)
                     == Encode4(n) + Sealed(Encode4(n), n.protocol, n.totalLen - n.Len(), Payload64(g, payload).value,
                         readable, sum4))
  {
    var sealed := Sealed(Encode6(g), g.nextHeader, g.payloadLength, payload, readable, sum6);
    Updated6(g, payload, readable, sum6);
    ParseEncode6(g, payload);
    ParseEncode6(g, sealed);
    assert (Encode6(g) + payload)[IPV6_LEN..] == payload && (Encode6(g) + sealed)[IPV6_LEN..] == sealed;
    ForthFrom(Encode6(g) + payload, g, payload, src, dst, parses);
    ForthFrom(Encode6(g) + sealed, g, sealed, src, dst, parses);
    SealedInBetween6(g, payload, Encode6(g), Encode4(n), readable, sum4, sum6);
    if Payload64(g, sealed).Success? { Updated4(n, Payload64(g, sealed).value, readable, sum4); }
    TotalLength64(g, src, dst);
    Protocol64(g, src, dst);
    hide Encode4, Encode6, Payload64, UpdateChecksum4, UpdateChecksum6, Sealed, Nat64;
  }
}
