/** ICMP headers and their translation between IPv4 and IPv6 (sections 4.2 and 5.2 of RFC 6145). */
module Icmp {
  import opened Common
  import opened Ip

  const HEADER_LEN: nat := 8

  /** Everything that is never translated is one case. `mtu` is used with code 4 only. */
  datatype Icmp4 =
    | EchoReply4(rest: seq<byte>)
    | EchoRequest4(rest: seq<byte>)
    | Unreachable4(code: byte, mtu: int)
    | TimeExceeded4(code: byte)
    | Other4
  {
    predicate Valid() {
      match this
      case EchoReply4(rest) => |rest| == 4
      case EchoRequest4(rest) => |rest| == 4
      case Unreachable4(code, mtu) => code <= 15 && IsU16(mtu) && (code != 4 ==> mtu == 0)
      case TimeExceeded4(code) => code <= 1
      case Other4 => true
    }
  }

  datatype Icmp6 =
    | EchoRequest6(rest: seq<byte>)
    | EchoReply6(rest: seq<byte>)
    | Unreachable6(code: byte)
    | PacketTooBig(mtu: int)
    | TimeExceeded6(code: byte)
    | ParameterProblem(code: byte, pointer: int)
    | Other6
  {
    predicate Valid() {
      match this
      case EchoReply6(rest) => |rest| == 4
      case EchoRequest6(rest) => |rest| == 4
      case Unreachable6(code) => code <= 6
      case PacketTooBig(mtu) => 0 <= mtu < 0x1_0000_0000
      case TimeExceeded6(code) => code <= 1
      case ParameterProblem(code, pointer) => code <= 10 && 0 <= pointer < 0x1_0000_0000
      case Other6 => true
    }
  }

  // ---------- Bytes ----------

  function U32(b: seq<byte>): int requires |b| == 4 { U16(b[0], b[1]) * 0x1_0000 + U16(b[2], b[3]) }

  function Bytes32(n: int): (b: seq<byte>)
    requires 0 <= n < 0x1_0000_0000
    ensures |b| == 4 && U32(b) == n
  {
    [Hi(n / 0x1_0000), Lo(n / 0x1_0000), Hi(n % 0x1_0000), Lo(n % 0x1_0000)]
  }

  function Read4(b: seq<byte>): (t: Icmp4)
    requires |b| >= HEADER_LEN
    ensures t.Valid()
  {
    if b[0] == 0 && b[1] == 0 then EchoReply4(b[4..8])
    else if b[0] == 8 && b[1] == 0 then EchoRequest4(b[4..8])
    else if b[0] == 3 && b[1] <= 15 then Unreachable4(b[1], if b[1] == 4 then U16(b[6], b[7]) else 0)
    else if b[0] == 11 && b[1] <= 1 then TimeExceeded4(b[1])
    else Other4
  }

  /** The checksum is left zero. */
  function Write4(t: Icmp4): (b: seq<byte>)
    requires t.Valid() && !t.Other4?
    ensures |b| == HEADER_LEN
  {
    match t
    case EchoReply4(rest) => [0, 0, 0, 0] + rest
    case EchoRequest4(rest) => [8, 0, 0, 0] + rest
    case Unreachable4(code, mtu) => [3, code, 0, 0, 0, 0, Hi(mtu), Lo(mtu)]
    case TimeExceeded4(code) => [11, code, 0, 0, 0, 0, 0, 0]
  }

  function Read6(b: seq<byte>): (t: Icmp6)
    requires |b| >= HEADER_LEN
    ensures t.Valid()
  {
    if b[0] == 128 && b[1] == 0 then EchoRequest6(b[4..8])
    else if b[0] == 129 && b[1] == 0 then EchoReply6(b[4..8])
    else if b[0] == 1 && b[1] <= 6 then Unreachable6(b[1])
    else if b[0] == 2 && b[1] == 0 then PacketTooBig(U32(b[4..8]))
    else if b[0] == 3 && b[1] <= 1 then TimeExceeded6(b[1])
    else if b[0] == 4 && b[1] <= 10 then ParameterProblem(b[1], U32(b[4..8]))
    else Other6
  }

  function Write6(t: Icmp6): (b: seq<byte>)
    requires t.Valid() && !t.Other6?
    ensures |b| == HEADER_LEN
  {
    match t
    case EchoRequest6(rest) => [128, 0, 0, 0] + rest
    case EchoReply6(rest) => [129, 0, 0, 0] + rest
    case Unreachable6(code) => [1, code, 0, 0, 0, 0, 0, 0]
    case PacketTooBig(mtu) => [2, 0, 0, 0] + Bytes32(mtu)
    case TimeExceeded6(code) => [3, code, 0, 0, 0, 0, 0, 0]
    case ParameterProblem(code, pointer) => [4, code, 0, 0] + Bytes32(pointer)
  }

  lemma ReadWrite4(t: Icmp4, rest: seq<byte>)
    requires t.Valid() && !t.Other4?
    ensures Read4(Write4(t) + rest) == t
  {
    var b := Write4(t) + rest;
    assert b[..HEADER_LEN] == Write4(t);
    assert b[4..8] == Write4(t)[4..8];
  }

  lemma ReadWrite6(t: Icmp6, rest: seq<byte>)
    requires t.Valid() && !t.Other6?
    ensures Read6(Write6(t) + rest) == t
  {
    var b := Write6(t) + rest;
    assert b[..HEADER_LEN] == Write6(t);
    assert b[4..8] == Write6(t)[4..8];
  }

  // ---------- Translation ----------

  const PLATEAU_VALUES: seq<int> := [68, 296, 508, 1006, 1492, 2002, 4352, 8166, 32000, 65535]

  /** The greatest of `values` below `limit`. */
  function GreatestBelow(values: seq<int>, limit: int): Option<int> {
    if values == [] then None else
    var rest := GreatestBelow(values[1..], limit);
    if values[0] < limit && (rest.None? || rest.value < values[0]) then Some(values[0]) else rest
  }

  lemma {:induction false} GreatestBelowIs(values: seq<int>, limit: int)
    ensures match GreatestBelow(values, limit)
            case None => forall v :: v in values ==> limit <= v
            case Some(m) => m in values && m < limit && forall v :: v in values && v < limit ==> v <= m
  {
    if values != [] {
      GreatestBelowIs(values[1..], limit);
      assert values == [values[0]] + values[1..];
    }
  }

  lemma PlateauInRange(limit: int)
    ensures GreatestBelow(PLATEAU_VALUES, limit).Some? ==> 68 <= GreatestBelow(PLATEAU_VALUES, limit).value <= 0xFFFF
  {
    GreatestBelowIs(PLATEAU_VALUES, limit);
    assert forall v :: v in PLATEAU_VALUES ==> 68 <= v <= 0xFFFF;
  }

  function TranslateUnreachable4(code: byte, mtu: int, totalLength: int): (t: Option<Icmp6>)
    requires code <= 15 && IsU16(mtu)
    ensures t.Some? ==> t.value.Valid() && !t.value.Other6?
  {
    if code == 2 then Some(ParameterProblem(1, 6))
    else if code == 3 then Some(Unreachable6(4))
    else if code == 4 then
      if mtu == 0 then
        PlateauInRange(totalLength);
        var plateau := GreatestBelow(PLATEAU_VALUES, totalLength);
        if plateau.Some? then Some(PacketTooBig(plateau.value)) else None
      else Some(PacketTooBig(mtu + 20))
    else if code == 9 || code == 10 || code == 13 || code == 15 then Some(Unreachable6(1))
    else if code == 14 then None
    else Some(Unreachable6(0))
  }

  function Translate46(t: Icmp4, totalLength: int): (r: Option<Icmp6>)
    requires t.Valid()
    ensures r.Some? ==> r.value.Valid() && !r.value.Other6?
  {
    match t
    case EchoRequest4(rest) => Some(EchoRequest6(rest))
    case EchoReply4(rest) => Some(EchoReply6(rest))
    case TimeExceeded4(code) => Some(TimeExceeded6(code))
    case Unreachable4(code, mtu) => TranslateUnreachable4(code, mtu, totalLength)
    case Other4 => None
  }

  /** Sixteen-bit subtraction wraps around. */
  function NextHopMtu(mtu: int): int { ((if IsU16(mtu) then mtu else 0xFFFF) - 20) % 0x1_0000 }

  function TranslateUnreachable6(code: byte): Option<Icmp4> {
    if code == 1 then Some(Unreachable4(10, 0))
    else if code == 4 then Some(Unreachable4(3, 0))
    else if code <= 3 then Some(Unreachable4(1, 0))
    else None
  }

  function Translate64(t: Icmp6): (r: Option<Icmp4>)
    requires t.Valid()
    ensures r.Some? ==> r.value.Valid() && !r.value.Other4?
  {
    match t
    case EchoRequest6(rest) => Some(EchoRequest4(rest))
    case EchoReply6(rest) => Some(EchoReply4(rest))
    case Unreachable6(code) => TranslateUnreachable6(code)
    case PacketTooBig(mtu) => Some(Unreachable4(4, NextHopMtu(mtu)))
    case TimeExceeded6(code) => Some(TimeExceeded4(code))
    case ParameterProblem(code, _) => if code == 1 then Some(Unreachable4(2, 0)) else None
    case Other6 => None
  }

  // ---------- What the translations promise ----------

  /**
   A missing next-hop MTU is replaced by the greatest plateau value of RFC 1191 below the packet's
   length, and the packet is dropped exactly if there is none.
   */
  lemma PlateauMtu(totalLength: int)
    requires IsU16(totalLength)
    ensures match Translate46(Unreachable4(4, 0), totalLength)
            case None => totalLength <= 68
            case Some(t) =>
              && t.PacketTooBig? && t.mtu in PLATEAU_VALUES && t.mtu < totalLength
              && forall v :: v in PLATEAU_VALUES && v < totalLength ==> v <= t.mtu
  {
    GreatestBelowIs(PLATEAU_VALUES, totalLength);
    assert PLATEAU_VALUES[0] == 68;
  }

  /** Which codes of "destination unreachable" become what: section 4.2 of RFC 6145. */
  lemma UnreachableClasses46(code: byte, mtu: int, totalLength: int)
    requires code <= 15 && IsU16(mtu) && IsU16(totalLength)
    ensures var r := TranslateUnreachable4(code, mtu, totalLength);
            && (r == Some(Unreachable6(0)) <==> code in [0, 1, 5, 6, 7, 8, 11, 12])
            && (r == Some(Unreachable6(1)) <==> code in [9, 10, 13, 15])
            && (r == Some(Unreachable6(4)) <==> code == 3)
            && (r == Some(ParameterProblem(1, 6)) <==> code == 2)
            && (r.None? <==> code == 14 || (code == 4 && mtu == 0 && totalLength <= 68))
            && (code == 4 && mtu != 0 ==> r == Some(PacketTooBig(mtu + 20)))
  {
    hide GreatestBelow;
    if code == 4 && mtu == 0 { PlateauMtu(totalLength); }
  }

  /** The same for ICMPv6: section 5.2 of RFC 6145. */
  lemma UnreachableClasses64(code: byte)
    requires code <= 6
    ensures var r := TranslateUnreachable6(code);
            && (r == Some(Unreachable4(1, 0)) <==> code in [0, 2, 3])
            && (r == Some(Unreachable4(10, 0)) <==> code == 1)
            && (r == Some(Unreachable4(3, 0)) <==> code == 4)
            && (r.None? <==> code == 5 || code == 6)
  {
  }

  /** The MTU is lowered by the difference in header size exactly if it is at least 20; below that it wraps around. */
  lemma MtuLoweredExactly(mtu: int)
    requires 0 <= mtu < 0x1_0000_0000
    ensures NextHopMtu(mtu) == (if IsU16(mtu) then mtu else 0xFFFF) - 20 <==> 20 <= mtu
    ensures mtu < 20 ==> NextHopMtu(mtu) == 0x1_0000 - 20 + mtu
  {
  }

  /** The ICMPv6 messages that come back unchanged from a trip through ICMPv4. */
  predicate Survives(t: Icmp6) {
    match t
    case EchoRequest6(_) => true
    case EchoReply6(_) => true
    case Unreachable6(code) => code == 0 || code == 1 || code == 4
    case PacketTooBig(mtu) => 20 < mtu <= 0xFFFF
    case TimeExceeded6(_) => true
    case ParameterProblem(code, pointer) => code == 1 && pointer == 6
    case Other6 => false
  }

  lemma SurvivesExactly(t: Icmp6, totalLength: int)
    requires t.Valid()
    ensures Survives(t) <==> Translate64(t).Some? && Translate46(Translate64(t).value, totalLength) == Some(t)
  {
    hide GreatestBelow;
    PlateauInRange(totalLength);
  }

  /** There and back: from ICMPv4 through ICMPv6, in a packet of the given length. */
  function Trip4(t: Icmp4, totalLength: int): (r: Option<Icmp4>)
    requires t.Valid()
    ensures r.Some? ==> r.value.Valid() && !r.value.Other4?
  {
    var there := Translate46(t, totalLength);
    if there.Some? then Translate64(there.value) else None
  }

  /** Whatever ICMPv4 message such a trip ends with, a further trip in a packet of any length keeps. */
  lemma TripIsStable(t: Icmp4, totalLength: int, laterLength: int)
    requires t.Valid() && Trip4(t, totalLength).Some?
    ensures Trip4(Trip4(t, totalLength).value, laterLength) == Trip4(t, totalLength)
  {
    hide GreatestBelow;
    PlateauInRange(totalLength);
  }
}
