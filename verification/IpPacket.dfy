/** A packet that is translated, any number of times, inside the buffer it was read into. */
module IpPackets {
  import opened Common
  import opened Ip
  import opened Nat
  import NatRoundTrips

  const MAX_IP_SIZE: nat := 1280
  const WG_OVERHEAD: nat := 32
  const DATA_CHANNEL_OVERHEAD: nat := 4
  const MAX_FZ_PAYLOAD: nat := MAX_IP_SIZE + WG_OVERHEAD + NAT46_OVERHEAD + DATA_CHANNEL_OVERHEAD

  datatype PacketError = TooLarge | InvalidVersion | Invalid

  /** The verdict on `len` bytes that were read into a buffer behind the room for translation. */
  function Accepts(buf: seq<byte>, len: nat, parses: bool): (r: Result<Family, PacketError>)
    requires |buf| == MAX_FZ_PAYLOAD
  {
    if len > MAX_IP_SIZE then Failure(TooLarge) else
    var packet := buf[NAT46_OVERHEAD..NAT46_OVERHEAD + len];
    var version := buf[NAT46_OVERHEAD] / 16;
    if version == 4 then if IsIpv4(packet) && (packet[9] == AUTH ==> parses) then Success(V4) else Failure(Invalid)
    else if version == 6 then if IsIpv6(packet) && (IsExtension(packet[6]) ==> parses) then Success(V6)
        else Failure(Invalid)
    else Failure(InvalidVersion)
  }

  class IpPacket {
    const buf: array<byte>
    var version: Family
    var start: nat
    var len: nat

    /**
     There is always room for the next translation: an IPv4 packet has 20 bytes in front of it, and no
     packet reaches past the end of the largest packet that can be read.
     */
    ghost predicate Valid()
      reads this, buf
    {
      && buf.Length == MAX_FZ_PAYLOAD && start + len <= NAT46_OVERHEAD + MAX_IP_SIZE
      && (version.V4? ==> NAT46_OVERHEAD <= start && IsIpv4(Packet()))
      && (version.V6? ==> IsIpv6(Packet()))
    }

    function Packet(): seq<byte>
      requires start + len <= buf.Length
      reads this, buf
    {
      buf[start..start + len]
    }

    constructor (buf: array<byte>, len: nat, version: Family)
      requires buf.Length == MAX_FZ_PAYLOAD && NAT46_OVERHEAD + len <= buf.Length
      ensures this.buf == buf && this.version == version && start == NAT46_OVERHEAD && this.len == len
    {
      this.buf, this.version, this.start, this.len := buf, version, NAT46_OVERHEAD, len;
    }

    static method Read(buf: array<byte>, len: nat, parses: bool) returns (r: Result<IpPacket, PacketError>)
      requires buf.Length == MAX_FZ_PAYLOAD
      ensures match Accepts(buf[..], len, parses)
              case Failure(e) => r == Failure(e)
              case Success(version) =>
                && r.Success? && fresh(r.value) && r.value.buf == buf && r.value.Valid()
                && r.value.version == version && r.value.Packet() == buf[NAT46_OVERHEAD..NAT46_OVERHEAD + len]
    {
      if len > MAX_IP_SIZE { return Failure(TooLarge); }
      ghost var all := buf[..];
      var packet := buf[NAT46_OVERHEAD..NAT46_OVERHEAD + len];
      assert packet == all[NAT46_OVERHEAD..NAT46_OVERHEAD + len];
      var version := buf[NAT46_OVERHEAD] / 16;
      if version == 4 {
        if !IsIpv4(packet) || (packet[9] == AUTH && !parses) { return Failure(Invalid); }
        var p := new IpPacket(buf, len, V4);
        r := Success(p);
      } else if version == 6 {
        if !IsIpv6(packet) || (IsExtension(packet[6]) && !parses) { return Failure(Invalid); }
        var p := new IpPacket(buf, len, V6);
        r := Success(p);
      } else {
        r := Failure(InvalidVersion);
      }
    }

    method ConsumeToIpv6(src: seq<byte>, dst: seq<byte>, parses: bool) returns (r: Result<(), NatError>)
      requires Valid() && |src| == 16 && |dst| == 16
      modifies this, buf
      ensures Valid() && start + len == old(start + len)
      ensures buf[start + len..] == old(buf[start + len..])
      ensures old(version).V6? ==> r == Success(()) && version.V6? && Packet() == old(Packet())
      ensures old(version).V4? ==>
                match Nat46(old(Packet()), src, dst, parses)
                case Failure(e) => r == Failure(e) && version.V4? && Packet() == old(Packet())
                case Success(q) => r == Success(()) && version.V6? && Packet() == q
    {
      hide Nat46, IsIpv4, IsIpv6;
      if version.V6? { return Success(()); }
      r := TranslateToIpv6(src, dst, parses);
    }

    /** The bytes in front of the packet are handed over as well; there is always enough of them. */
    method TranslateToIpv6(src: seq<byte>, dst: seq<byte>, parses: bool) returns (r: Result<(), NatError>)
      requires Valid() && version.V4? && |src| == 16 && |dst| == 16
      modifies this, buf
      ensures Valid() && start + len == old(start + len)
      ensures buf[start + len..] == old(buf[start + len..])
      ensures match Nat46(old(Packet()), src, dst, parses)
              case Failure(e) => r == Failure(e) && version.V4? && Packet() == old(Packet())
              case Success(q) => r == Success(()) && version.V6? && Packet() == q
    {
      hide Nat46, IsIpv4, IsIpv6, HeaderLen4, Parse4, Parse6, Header46, Payload46;
      var startMinusPadding, end := start - NAT46_OVERHEAD, start + len;
      ghost var before, packet := buf[..], Packet();
      var offset := TranslateInPlace46(buf, startMinusPadding, end, src, dst, parses);
      ghost var after := buf[..];
      assert Packet() == after[start..end] && buf[end..] == after[end..];
      if offset.Failure? { return Failure(offset.error); }
      version, start, len := V6, startMinusPadding + offset.value, len + NAT46_OVERHEAD - offset.value;
      Placed(before, start, Nat46(packet, src, dst, parses).value, end, after);
      NatRoundTrips.Translated46(packet, src, dst, parses);
      r := Success(());
    }

    method ConsumeToIpv4(src: seq<byte>, dst: seq<byte>, parses: bool) returns (r: Result<(), NatError>)
      requires Valid() && |src| == 4 && |dst| == 4
      modifies this, buf
      ensures Valid() && start + len == old(start + len)
      ensures buf[start + len..] == old(buf[start + len..])
      ensures old(version).V4? ==> r == Success(()) && version.V4? && Packet() == old(Packet())
      ensures old(version).V6? ==>
                match Nat64(old(Packet()), src, dst, parses)
                case Failure(e) => r == Failure(e) && version.V6? && Packet() == old(Packet())
                case Success(q) => r == Success(()) && version.V4? && Packet() == q
    {
      hide Nat64, IsIpv4, IsIpv6, HeaderLen4, Zeros, Parse4, Parse6, Header64, Payload64;
      if version.V4? { return Success(()); }
      var end := start + len;
      ghost var before, packet := buf[..], Packet();
      var outcome := TranslateInPlace64(buf, start, end, src, dst, parses);
      ghost var after := buf[..];
      assert Packet() == after[start..end] && buf[end..] == after[end..];
      if outcome.Failure? { return outcome; }
      Padded(before, start, Nat64(packet, src, dst, parses).value, end, after);
      version, start, len := V4, start + 20, len - 20;
      NatRoundTrips.Translated64(packet, src, dst, parses);
      r := Success(());
    }
  }

  lemma Placed(before: seq<byte>, start: nat, packet: seq<byte>, end: nat, after: seq<byte>)
    requires start + |packet| == end <= |before| && after == before[..start] + packet + before[end..]
    ensures |after| == |before| && after[start..end] == packet && after[end..] == before[end..]
  {
  }

  lemma Padded(before: seq<byte>, start: nat, packet: seq<byte>, end: nat, after: seq<byte>)
    requires start + 20 + |packet| == end <= |before| && after == before[..start] + Zeros(20) + packet + before[end..]
    ensures |after| == |before| && after[start + 20..end] == packet && after[end..] == before[end..]
  {
  }
}
