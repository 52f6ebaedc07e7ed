/**
 The TURN relay, specified on its two primary tables.

 The server keeps five maps. Two of them determine the rest: who holds which allocation, and
 which channel number of which client goes to which peer. `Core` holds these two and the queue of
 outgoing commands; every operation of the server is specified here as a function on `Core`,
 looking things up by their meaning rather than through an index.
 */
module RelayCore {
  import opened Common

  type Port = nat
  type ChannelNumber = nat
  type Client = SocketAddr
  type Peer = SocketAddr

  const UDP_TRANSPORT: nat := 17
  const CHANNEL_BINDING_DURATION: int := 600 * SECOND
  const CHANNEL_REBIND_TIMEOUT: int := 300 * SECOND
  const MAX_ALLOCATION_LIFETIME: int := 3600 * SECOND
  const DEFAULT_ALLOCATION_LIFETIME: int := 600 * SECOND

  /** Section 12 of RFC 8656: the time a pair stays reserved after its last bind or refresh. */
  const COOLDOWN: int := CHANNEL_BINDING_DURATION + CHANNEL_REBIND_TIMEOUT

  datatype Allocation = Allocation(port: Port, expiresAt: Instant, first: IpAddr, second: Option<IpAddr>) {
    predicate IsExpired(now: Instant) { expiresAt <= now }

    /** As the server decides it: an IPv4 address is only ever looked for in `first`. */
    predicate CanRelayTo(peer: Peer) {
      match peer.Family()
      case V4 => first.family == V4
      case V6 => first.family == V6 || (second.Some? && second.value.family == V6)
    }

    /** What it should mean: one of the relay addresses has the family. */
    predicate HasFamily(family: Family) {
      first.family == family || (second.Some? && second.value.family == family)
    }
  }

  datatype Channel = Channel(expiry: Instant, peer: Peer, allocation: Port, bound: bool) {
    predicate IsExpired(now: Instant) { expiry <= now }

    predicate CanBeDeleted(now: Instant) { expiry + CHANNEL_REBIND_TIMEOUT <= now }

    /** The instant at which this channel next needs attention. */
    function Deadline(): Instant { if bound then expiry else expiry + CHANNEL_REBIND_TIMEOUT }
  }

  datatype IpStack = Ip4(ip4: IpAddr) | Ip6(ip6: IpAddr) | Dual(ip4: IpAddr, ip6: IpAddr) {
    predicate Valid() {
      (this.Ip6? || ip4.family == V4) && (this.Ip4? || ip6.family == V6)
    }
  }

  datatype Config = Config(address: IpStack, lowest: Port, highest: Port) {
    predicate InRange(port: int) { lowest <= port <= highest }

    /** The number of ports, truncated to 16 bits as the server computes it. */
    function MaxAvailablePorts(): nat {
      (if lowest <= highest then highest - lowest + 1 else 0) % 0x1_0000
    }

    predicate Valid() { address.Valid() && lowest < 0x1_0000 && highest < 0x1_0000 }
  }

  datatype ErrorCode =
    | BadRequest
    | Unauthorized
    | StaleNonce
    | AllocationMismatch
    | InsufficientCapacity
    | AddressFamilyNotSupported
    | PeerAddressFamilyMismatch

  /** The verdict on a request's credentials. `answerable` says whether the user name lets the error be signed. */
  datatype Auth = Authentic | Rejected(code: ErrorCode, answerable: bool)

  datatype Request =
    | Binding(tid: nat)
    | Allocate(tid: nat, auth: Auth, transport: nat, lifetime: Option<nat>,
               requested: Option<Family>, additional: Option<Family>)
    | Refresh(tid: nat, auth: Auth, lifetime: Option<nat>)
    | ChannelBind(tid: nat, auth: Auth, number: ChannelNumber, peer: Peer)
    | CreatePermission(tid: nat, auth: Auth)

  datatype Outcome =
    | Failed(code: ErrorCode)
    | Mapped(address: SocketAddr)
    | Allocated(first: SocketAddr, second: Option<SocketAddr>, mapped: SocketAddr, lifetime: int)
    | Refreshed(lifetime: int)
    | ChannelBound
    | Permitted

  datatype Command =
    | SendMessage(tid: nat, outcome: Outcome, recipient: Client)
    | CreateAllocation(port: Port, family: Family)
    | FreeAllocation(port: Port, family: Family)

  datatype Core = Core(
    allocations: map<Client, Allocation>,
    channels: map<(Client, ChannelNumber), Channel>,
    commands: seq<Command>)

  const EMPTY: Core := Core(map[], map[], [])

  // ---------- What every reachable state satisfies ----------

  /** `client` holds the allocation on `port`. */
  predicate Owns(allocations: map<Client, Allocation>, client: Client, port: Port) {
    client in allocations && allocations[client].port == port
  }

  /** `number` of `client` is reserved for `peer`: bound to it, or cooling down. */
  predicate Reserved(channels: map<(Client, ChannelNumber), Channel>,
                     client: Client, number: ChannelNumber, peer: Peer) {
    (client, number) in channels && channels[(client, number)].peer == peer
  }

  /** `number` of `client` currently carries traffic between `port` and `peer`. */
  predicate Carries(channels: map<(Client, ChannelNumber), Channel>,
                    client: Client, number: ChannelNumber, port: Port, peer: Peer) {
    && (client, number) in channels
    && channels[(client, number)].bound
    && channels[(client, number)].allocation == port
    && channels[(client, number)].peer == peer
  }

  predicate WellFormed(a: Allocation, config: Config) {
    && config.InRange(a.port)
    && (a.second.Some? ==> a.first.family == V4 && a.second.value.family == V6)
  }

  ghost predicate AllocationsInv(allocations: map<Client, Allocation>, config: Config) {
    && |allocations| <= config.MaxAvailablePorts()
    && (forall c :: c in allocations ==> WellFormed(allocations[c], config))
    && (forall c, d, port :: Owns(allocations, c, port) && Owns(allocations, d, port) ==> c == d)
  }

  ghost predicate ChannelsInv(allocations: map<Client, Allocation>, channels: map<(Client, ChannelNumber), Channel>) {
    && (forall k :: k in channels ==>
          && k.0 in allocations
          && channels[k].allocation == allocations[k.0].port
          && allocations[k.0].HasFamily(channels[k].peer.Family()))
    && (forall c, n, m, p :: Reserved(channels, c, n, p) && Reserved(channels, c, m, p) ==> n == m)
  }

  /**
   Ports are distinct, in range and within capacity, every channel belongs to the live allocation of
   its client and to an address family that allocation has, and no peer has two channels of one client.
   */
  ghost predicate Inv(s: Core, config: Config) {
    AllocationsInv(s.allocations, config) && ChannelsInv(s.allocations, s.channels)
  }

  // ---------- Allocations ----------

  function EffectiveLifetime(requested: Option<nat>): int {
    match requested
    case None => DEFAULT_ALLOCATION_LIFETIME
    case Some(l) => if l <= MAX_ALLOCATION_LIFETIME then l else MAX_ALLOCATION_LIFETIME
  }

  function DeriveRelayAddresses(stack: IpStack, requested: Option<Family>, additional: Option<Family>)
    : Result<(IpAddr, Option<IpAddr>), ErrorCode>
  {
    match (stack, requested, additional)
    case (_, Some(_), Some(_)) => Failure(BadRequest)
    case (_, _, Some(V4)) => Failure(BadRequest)
    case (Ip4(ip4), None, Some(V6)) => Success((ip4, None))
    case (Ip6(ip6), None, Some(V6)) => Success((ip6, None))
    case (Dual(ip4, ip6), None, Some(V6)) => Success((ip4, Some(ip6)))
    case (Ip4(ip4), Some(V6), None) => Failure(AddressFamilyNotSupported)
    case (Ip6(ip6), Some(V6), None) => Success((ip6, None))
    case (Dual(_, ip6), Some(V6), None) => Success((ip6, None))
    case (Ip6(_), _, None) => Failure(AddressFamilyNotSupported)
    case (Ip4(ip4), _, None) => Success((ip4, None))
    case (Dual(ip4, _), _, None) => Success((ip4, None))
  }

  /** A port the server may hand out. */
  ghost predicate IsFreePort(s: Core, config: Config, port: Port) {
    config.InRange(port) && !exists c :: Owns(s.allocations, c, port)
  }

  /** Why an authentic ALLOCATE is refused, or the addresses it is granted. */
  function Admit(s: Core, config: Config, r: Request, sender: Client): Result<(IpAddr, Option<IpAddr>), ErrorCode>
    requires r.Allocate?
  {
    if sender in s.allocations then Failure(AllocationMismatch)
    else if |s.allocations| == config.MaxAvailablePorts() then Failure(InsufficientCapacity)
    else if r.transport != UDP_TRANSPORT then Failure(BadRequest)
    else DeriveRelayAddresses(config.address, r.requested, r.additional)
  }

  function Respond(s: Core, sender: Client, tid: nat, outcome: Outcome): Core {
    s.(commands := s.commands + [SendMessage(tid, outcome, sender)])
  }

  function Refuse(s: Core, sender: Client, tid: nat, auth: Auth): Core
    requires auth.Rejected?
  {
    if auth.answerable then Respond(s, sender, tid, Failed(auth.code)) else s
  }

  function CreateCommands(a: Allocation): seq<Command> {
    [CreateAllocation(a.port, a.first.family)] +
    (if a.second.Some? then [CreateAllocation(a.port, a.second.value.family)] else [])
  }

  function FreeCommands(a: Allocation): seq<Command> {
    [FreeAllocation(a.port, a.first.family)] +
    (if a.second.Some? then [FreeAllocation(a.port, a.second.value.family)] else [])
  }

  /** The success response names every relay address of the new allocation. */
  function GrantMessage(tid: nat, a: Allocation, lifetime: int, sender: Client): Command {
    var second := if a.second.Some? then Some(SocketAddr(a.second.value, a.port)) else None;
    SendMessage(tid, Allocated(SocketAddr(a.first, a.port), second, sender, lifetime), sender)
  }

  /** `port` is the port the server samples; it matters only when the request is granted. */
  function DoAllocate(s: Core, config: Config, r: Request, sender: Client, now: Instant, port: Port): Core
    requires r.Allocate?
  {
    if r.auth.Rejected? then Refuse(s, sender, r.tid, r.auth) else
    match Admit(s, config, r, sender)
    case Failure(code) => Respond(s, sender, r.tid, Failed(code))
    case Success((first, second)) =>
      var lifetime := EffectiveLifetime(r.lifetime);
      var a := Allocation(port, now + lifetime, first, second);
      Core(s.allocations[sender := a], s.channels,
           s.commands + CreateCommands(a) + [GrantMessage(r.tid, a, lifetime, sender)])
  }

  /** The allocation of `client` goes, and all its channels with it. */
  function Drop(s: Core, client: Client): Core
    requires client in s.allocations
  {
    Core(s.allocations - {client},
         map k | k in s.channels && k.0 != client :: s.channels[k],
         s.commands + FreeCommands(s.allocations[client]))
  }

  /** Deleting a port drops the client that owns it; an unknown port is ignored. */
  ghost function DeletePort(s: Core, port: Port): Core {
    if exists c :: Owns(s.allocations, c, port) then
      var c :| Owns(s.allocations, c, port); Drop(s, c)
    else s
  }

  function DoRefresh(s: Core, r: Request, sender: Client, now: Instant): Core
    requires r.Refresh?
  {
    if r.auth.Rejected? then Refuse(s, sender, r.tid, r.auth) else
    if sender !in s.allocations then Respond(s, sender, r.tid, Failed(AllocationMismatch)) else
    var lifetime := EffectiveLifetime(r.lifetime);
    if lifetime == 0 then
      Respond(Drop(s, sender), sender, r.tid, Refreshed(0))
    else
      Respond(s.(allocations := s.allocations[sender := s.allocations[sender].(expiresAt := now + lifetime)]),
              sender, r.tid, Refreshed(lifetime))
  }

  // ---------- Channels ----------

  /** The number is reserved for another peer, or the peer for another number. */
  ghost predicate Conflicts(s: Core, client: Client, number: ChannelNumber, peer: Peer) {
    || (exists p :: p != peer && Reserved(s.channels, client, number, p))
    || (exists n :: n != number && Reserved(s.channels, client, n, peer))
  }

  ghost function BindOutcome(s: Core, r: Request, sender: Client): Outcome
    requires r.ChannelBind? && r.auth.Authentic?
  {
    if sender !in s.allocations then Failed(AllocationMismatch)
    else if !s.allocations[sender].CanRelayTo(r.peer) then Failed(PeerAddressFamilyMismatch)
    else if Conflicts(s, sender, r.number, r.peer) then Failed(BadRequest)
    else ChannelBound
  }

  /** A bind and a refresh have the same effect: the pair is bound for another ten minutes. */
  ghost function DoChannelBind(s: Core, r: Request, sender: Client, now: Instant): Core
    requires r.ChannelBind?
  {
    if r.auth.Rejected? then Refuse(s, sender, r.tid, r.auth) else
    var outcome := BindOutcome(s, r, sender);
    if outcome.Failed? then Respond(s, sender, r.tid, outcome) else
    var channel := Channel(now + CHANNEL_BINDING_DURATION, r.peer, s.allocations[sender].port, true);
    Respond(s.(channels := s.channels[(sender, r.number) := channel]), sender, r.tid, outcome)
  }

  function DoCreatePermission(s: Core, r: Request, sender: Client): Core
    requires r.CreatePermission?
  {
    if r.auth.Rejected? then Refuse(s, sender, r.tid, r.auth) else Respond(s, sender, r.tid, Permitted)
  }

  // ---------- Time ----------

  /** `order` lists the clients whose allocations have expired, each once, in the order they are deleted. */
  ghost predicate IsExpiryOrder(allocations: map<Client, Allocation>, now: Instant, order: seq<Client>) {
    && (forall c :: c in order <==> c in allocations && allocations[c].IsExpired(now))
    && Distinct(order)
  }

  function FreeAll(allocations: map<Client, Allocation>, order: seq<Client>): seq<Command>
    requires forall c :: c in order ==> c in allocations
  {
    if order == [] then []
    else FreeAll(allocations, order[..|order| - 1]) + FreeCommands(allocations[order[|order| - 1]])
  }

  /**
   One look at the clock: expired allocations go with all their channels, channels past ten minutes
   stop carrying traffic, and channels past fifteen minutes are forgotten.
   */
  ghost function DoTimeout(s: Core, now: Instant, order: seq<Client>): Core
    requires IsExpiryOrder(s.allocations, now, order)
  {
    Core(map c | c in s.allocations && !s.allocations[c].IsExpired(now) :: s.allocations[c],
         map k | k in s.channels && Survives(s, k, now) :: Aged(s.channels[k], now),
         s.commands + FreeAll(s.allocations, order))
  }

  predicate Survives(s: Core, k: (Client, ChannelNumber), now: Instant)
    requires k in s.channels
  {
    && !s.channels[k].CanBeDeleted(now)
    && k.0 in s.allocations
    && !s.allocations[k.0].IsExpired(now)
  }

  function Aged(channel: Channel, now: Instant): Channel {
    if channel.IsExpired(now) then channel.(bound := false) else channel
  }

  /** `t` is a moment at which something is due. */
  ghost predicate IsDeadline(s: Core, t: Instant) {
    || (exists c :: c in s.allocations && s.allocations[c].expiresAt == t)
    || (exists k :: k in s.channels && s.channels[k].Deadline() == t)
  }

  ghost predicate NothingBefore(s: Core, t: Instant) {
    && (forall c :: c in s.allocations ==> t <= s.allocations[c].expiresAt)
    && (forall k :: k in s.channels ==> t <= s.channels[k].Deadline())
  }

  /** `r` is the earliest deadline, if there is one. */
  ghost predicate IsPollTimeout(s: Core, r: Option<Instant>) {
    match r
    case None => s.allocations == map[] && s.channels == map[]
    case Some(t) => IsDeadline(s, t) && NothingBefore(s, t)
  }
}
