/**
 The sans-IO TURN server, updating its five maps in place.

 `allocations` and `channels` are the primary tables. The other three maps are redundant indexes;
 `Valid` says that each is exact. Every method is proved to compute the operation that `RelayCore`
 specifies on the primary tables, and to leave every index exact. The assertions inside the method
 bodies stand where the server has its own `expect`s and "internal state" assertions.
 */
module RelayServer {
  import opened Common
  import opened RelayCore
  import opened RelayInvariant

  predicate HeldBy(clients: map<Port, Client>, c: Client, p: Port) {
    p in clients && clients[p] == c
  }

  /** Each port maps back to the client holding it. */
  ghost predicate PortsExact(allocations: map<Client, Allocation>, clients: map<Port, Client>) {
    forall c, p :: Owns(allocations, c, p) <==> HeldBy(clients, c, p)
  }

  predicate Numbered(numbers: map<(Client, Peer), ChannelNumber>, c: Client, n: ChannelNumber, p: Peer) {
    (c, p) in numbers && numbers[(c, p)] == n
  }

  /** Each (client, peer) maps back to the one channel between them. */
  ghost predicate NumbersExact(channels: map<(Client, ChannelNumber), Channel>,
                               numbers: map<(Client, Peer), ChannelNumber>) {
    forall c, n, p :: Reserved(channels, c, n, p) <==> Numbered(numbers, c, n, p)
  }

  predicate Routed(hotPath: map<(Port, Peer), (Client, ChannelNumber)>,
                   c: Client, n: ChannelNumber, port: Port, p: Peer) {
    (port, p) in hotPath && hotPath[(port, p)] == (c, n)
  }

  /** The hot-path map holds the bound channels and nothing else. */
  ghost predicate HotPathExact(channels: map<(Client, ChannelNumber), Channel>,
                               hotPath: map<(Port, Peer), (Client, ChannelNumber)>) {
    forall c, n, port, p :: Carries(channels, c, n, port, p) <==> Routed(hotPath, c, n, port, p)
  }

  ghost function BoundKeys(channels: map<(Client, ChannelNumber), Channel>): set<(Client, ChannelNumber)> {
    set k | k in channels && channels[k].bound
  }

  lemma HotPathSize(channels: map<(Client, ChannelNumber), Channel>,
                    hotPath: map<(Port, Peer), (Client, ChannelNumber)>)
    requires HotPathExact(channels, hotPath)
    ensures |hotPath| == |BoundKeys(channels)|
  {
    forall q | q in hotPath
      ensures hotPath[q] in BoundKeys(channels) && q == (channels[hotPath[q]].allocation, channels[hotPath[q]].peer)
    {
      assert Routed(hotPath, hotPath[q].0, hotPath[q].1, q.0, q.1);
    }
    forall k | k in BoundKeys(channels)
      ensures exists q :: q in hotPath && hotPath[q] == k
    {
      assert Carries(channels, k.0, k.1, channels[k].allocation, channels[k].peer);
      assert Routed(hotPath, k.0, k.1, channels[k].allocation, channels[k].peer);
    }
    InjectiveSize(hotPath, BoundKeys(channels));
  }

  method CountBound(channels: map<(Client, ChannelNumber), Channel>) returns (count: nat)
    ensures count == |BoundKeys(channels)|
  {
    count := 0;
    var todo := channels.Keys;
    ghost var counted: set<(Client, ChannelNumber)> := {};
    while todo != {}
      invariant todo <= channels.Keys
      invariant counted == set k | k in channels && k !in todo && channels[k].bound
      invariant count == |counted|
    {
      var k :| k in todo;
      todo := todo - {k};
      if channels[k].bound {
        counted := counted + {k};
        count := count + 1;
      }
    }
    assert counted == BoundKeys(channels);
  }

  function Earliest(left: Option<Instant>, right: Option<Instant>): Option<Instant> {
    match (left, right)
    case (Some(l), Some(r)) => Some(if l <= r then l else r)
    case (Some(l), None) => Some(l)
    case (None, r) => r
  }

  /** A range with fewer ports in use than it has leaves one free. */
  lemma FreePortExists(config: Config, clients: map<Port, Client>)
    requires config.Valid() && |clients| < config.MaxAvailablePorts()
    ensures exists p: Port :: config.InRange(p) && p !in clients
  {
    if forall p: Port :: config.InRange(p) ==> p in clients {
      var used: set<int> := set p | p in clients.Keys :: p;
      assert used == clients.Keys;
      forall p: int | config.lowest <= p <= config.highest
        ensures p in used
      {
        assert config.InRange(p);
      }
      Pigeonhole(used, config.lowest, config.highest);
    }
  }

  lemma PortCount(allocations: map<Client, Allocation>, clients: map<Port, Client>)
    requires PortsExact(allocations, clients)
    ensures |clients| == |allocations|
  {
    forall p | p in clients
      ensures clients[p] in allocations && allocations[clients[p]].port == p
    {
      assert HeldBy(clients, clients[p], p);
    }
    forall c | c in allocations
      ensures exists p :: p in clients && clients[p] == c
    {
      assert Owns(allocations, c, allocations[c].port);
    }
    InjectiveSize(clients, allocations.Keys);
  }

  lemma GrantKeepsPorts(allocations: map<Client, Allocation>, clients: map<Port, Client>, sender: Client, a: Allocation)
    requires PortsExact(allocations, clients)
    requires sender !in allocations && !exists c :: Owns(allocations, c, a.port)
    ensures PortsExact(allocations[sender := a], clients[a.port := sender])
  {
    var after := allocations[sender := a];
    forall c, p
      ensures Owns(after, c, p) <==> HeldBy(clients[a.port := sender], c, p)
    {
      assert Owns(allocations, c, p) <==> HeldBy(clients, c, p);
    }
  }

  lemma ProlongKeepsPorts(allocations: map<Client, Allocation>, clients: map<Port, Client>, client: Client,
                          expiresAt: Instant)
    requires PortsExact(allocations, clients) && client in allocations
    ensures PortsExact(allocations[client := allocations[client].(expiresAt := expiresAt)], clients)
  {
    var after := allocations[client := allocations[client].(expiresAt := expiresAt)];
    assert forall c, p :: Owns(after, c, p) <==> Owns(allocations, c, p);
  }

  lemma DropKeepsPorts(allocations: map<Client, Allocation>, clients: map<Port, Client>, client: Client)
    requires PortsExact(allocations, clients) && client in allocations
    ensures PortsExact(allocations - {client}, clients - {allocations[client].port})
  {
    var port := allocations[client].port;
    assert Owns(allocations, client, port);
    forall c, p
      ensures Owns(allocations - {client}, c, p) <==> HeldBy(clients - {port}, c, p)
    {
      assert Owns(allocations, c, p) <==> HeldBy(clients, c, p);
      assert Owns(allocations, c, port) <==> HeldBy(clients, c, port);
    }
  }

  /** Removing a channel and its entries keeps both indexes exact; an unbound channel has no hot-path entry. */
  lemma RemovalKeepsIndexes(channels: map<(Client, ChannelNumber), Channel>,
                            numbers: map<(Client, Peer), ChannelNumber>,
                            hotPath: map<(Port, Peer), (Client, ChannelNumber)>,
                            k: (Client, ChannelNumber))
    requires NumbersExact(channels, numbers) && HotPathExact(channels, hotPath)
    requires k in channels
    requires forall l :: l in channels && channels[l].allocation == channels[k].allocation ==> l.0 == k.0
    ensures NumbersExact(channels - {k}, numbers - {(k.0, channels[k].peer)})
    ensures HotPathExact(channels - {k}, hotPath - {(channels[k].allocation, channels[k].peer)})
    ensures (channels[k].allocation, channels[k].peer) in hotPath ==>
            hotPath[(channels[k].allocation, channels[k].peer)] == k
  {
    var peer, port := channels[k].peer, channels[k].allocation;
    assert Reserved(channels, k.0, k.1, peer) && Numbered(numbers, k.0, k.1, peer);
    if (port, peer) in hotPath {
      var l := hotPath[(port, peer)];
      assert Routed(hotPath, l.0, l.1, port, peer) && Carries(channels, l.0, l.1, port, peer);
      assert Reserved(channels, l.0, l.1, peer) && Numbered(numbers, l.0, l.1, peer);
    }
    forall c, n, p
      ensures Reserved(channels - {k}, c, n, p) <==> Numbered(numbers - {(k.0, peer)}, c, n, p)
    {
      assert Reserved(channels, c, n, p) <==> Numbered(numbers, c, n, p);
    }
    forall c, n, q, p
      ensures Carries(channels - {k}, c, n, q, p) <==> Routed(hotPath - {(port, peer)}, c, n, q, p)
    {
      assert Carries(channels, c, n, q, p) <==> Routed(hotPath, c, n, q, p);
    }
  }

  lemma BindKeepsIndexes(s: Core, config: Config,
                         numbers: map<(Client, Peer), ChannelNumber>,
                         hotPath: map<(Port, Peer), (Client, ChannelNumber)>,
                         client: Client, number: ChannelNumber, channel: Channel)
    requires Inv(s, config) && client in s.allocations
    requires NumbersExact(s.channels, numbers) && HotPathExact(s.channels, hotPath)
    requires channel.bound && channel.allocation == s.allocations[client].port
    requires !Conflicts(s, client, number, channel.peer)
    ensures NumbersExact(s.channels[(client, number) := channel], numbers[(client, channel.peer) := number])
    ensures HotPathExact(s.channels[(client, number) := channel],
                         hotPath[(channel.allocation, channel.peer) := (client, number)])
  {
    var after := s.channels[(client, number) := channel];
    var peer, port := channel.peer, channel.allocation;
    forall c, n, p
      ensures Reserved(after, c, n, p) <==> Numbered(numbers[(client, peer) := number], c, n, p)
    {
      assert Reserved(s.channels, c, n, p) <==> Numbered(numbers, c, n, p);
    }
    forall c, n, q, p
      ensures Carries(after, c, n, q, p) <==> Routed(hotPath[(port, peer) := (client, number)], c, n, q, p)
    {
      assert Carries(s.channels, c, n, q, p) <==> Routed(hotPath, c, n, q, p);
      if q == port && p == peer && Carries(s.channels, c, n, q, p) {
        assert Owns(s.allocations, c, port) && Owns(s.allocations, client, port);
        assert Reserved(s.channels, c, n, peer);
      }
      if c == client && n == number && Carries(s.channels, c, n, q, p) {
        assert Reserved(s.channels, c, n, p);
        assert Owns(s.allocations, c, q) && Owns(s.allocations, client, port);
      }
    }
  }

  /** A conflict is what the two look-ups of the server find. */
  lemma ConflictsThroughIndex(s: Core, numbers: map<(Client, Peer), ChannelNumber>,
                              client: Client, number: ChannelNumber, peer: Peer)
    requires NumbersExact(s.channels, numbers)
    ensures Conflicts(s, client, number, peer) <==>
            || ((client, peer) in numbers && numbers[(client, peer)] != number)
            || ((client, number) in s.channels && s.channels[(client, number)].peer != peer)
    ensures Numbered(numbers, client, number, peer) ==> (client, number) in s.channels
  {
    assert Reserved(s.channels, client, number, peer) <==> Numbered(numbers, client, number, peer);
    if (client, peer) in numbers {
      assert Numbered(numbers, client, numbers[(client, peer)], peer);
      assert Reserved(s.channels, client, numbers[(client, peer)], peer);
    }
    if (client, number) in s.channels {
      assert Reserved(s.channels, client, number, s.channels[(client, number)].peer);
    }
    assert forall n :: Reserved(s.channels, client, n, peer) ==> Numbered(numbers, client, n, peer);
  }

  /** A peer without a channel has no hot-path entry on the client's port. */
  lemma HotPathVacant(s: Core, config: Config,
                      numbers: map<(Client, Peer), ChannelNumber>,
                      hotPath: map<(Port, Peer), (Client, ChannelNumber)>,
                      client: Client, peer: Peer)
    requires Inv(s, config) && client in s.allocations
    requires NumbersExact(s.channels, numbers) && HotPathExact(s.channels, hotPath)
    requires (client, peer) !in numbers
    ensures (s.allocations[client].port, peer) !in hotPath
  {
    var port := s.allocations[client].port;
    if (port, peer) in hotPath {
      var (c, n) := hotPath[(port, peer)];
      assert Routed(hotPath, c, n, port, peer) && Carries(s.channels, c, n, port, peer);
      assert Reserved(s.channels, c, n, peer) && Numbered(numbers, c, n, peer);
      assert Owns(s.allocations, c, port) && Owns(s.allocations, client, port);
      assert false;
    }
  }

  /** The clients in `order` gone, one after the other. */
  function WithoutClients(s: Core, order: seq<Client>): Core
    requires forall c :: c in order ==> c in s.allocations
  {
    Core(map c | c in s.allocations && c !in order :: s.allocations[c],
         map k | k in s.channels && k.0 !in order :: s.channels[k],
         s.commands + FreeAll(s.allocations, order))
  }

  lemma FreeOneMore(allocations: map<Client, Allocation>, order: seq<Client>, client: Client)
    requires client in allocations && forall c :: c in order ==> c in allocations
    ensures FreeAll(allocations, order + [client]) == FreeAll(allocations, order) + FreeCommands(allocations[client])
  {
    assert (order + [client])[..|order|] == order;
  }

  lemma WithoutOneMore(s: Core, order: seq<Client>, client: Client)
    requires forall c :: c in order ==> c in s.allocations
    requires client in s.allocations && client !in order
    ensures WithoutClients(s, order + [client]) == Drop(WithoutClients(s, order), client)
  {
    hide FreeAll, FreeCommands;
    FreeOneMore(s.allocations, order, client);
    var before, after := WithoutClients(s, order), WithoutClients(s, order + [client]);
    assert after.allocations == before.allocations - {client};
    assert after.channels == map k | k in before.channels && k.0 != client :: before.channels[k];
  }

  function AllAged(channels: map<(Client, ChannelNumber), Channel>, now: Instant)
    : map<(Client, ChannelNumber), Channel>
  {
    map k | k in channels :: Aged(channels[k], now)
  }

  function Fresh(channels: map<(Client, ChannelNumber), Channel>, now: Instant): map<(Client, ChannelNumber), Channel> {
    map k | k in channels && !channels[k].CanBeDeleted(now) :: channels[k]
  }

  /** The three phases together compute what one look at the clock should. */
  lemma TimeoutByPhases(s: Core, config: Config, now: Instant, order: seq<Client>)
    requires Inv(s, config) && IsExpiryOrder(s.allocations, now, order)
    ensures var kept := WithoutClients(s, order);
            DoTimeout(s, now, order) == kept.(channels := Fresh(AllAged(kept.channels, now), now))
  {
    var kept := WithoutClients(s, order);
    assert DoTimeout(s, now, order).allocations == kept.allocations;
    assert DoTimeout(s, now, order).channels == Fresh(AllAged(kept.channels, now), now);
  }

  method EarliestDeadline(allocations: map<Client, Allocation>, channels: map<(Client, ChannelNumber), Channel>)
    returns (r: Option<Instant>)
    ensures IsPollTimeout(Core(allocations, channels, []), r)
  {
    r := None;
    var todo := channels.Keys;
    while todo != {}
      invariant todo <= channels.Keys
      invariant r.None? ==> todo == channels.Keys
      invariant r.Some? ==> exists k :: k in channels && channels[k].Deadline() == r.value
      invariant r.Some? ==> forall k :: k in channels && k !in todo ==> r.value <= channels[k].Deadline()
    {
      var k :| k in todo;
      todo := todo - {k};
      r := Earliest(r, Some(channels[k].Deadline()));
    }
    assert r.None? ==> channels == map[];
    var clients := allocations.Keys;
    while clients != {}
      invariant clients <= allocations.Keys
      invariant r.None? ==> clients == allocations.Keys && channels == map[]
      invariant r.Some? ==> IsDeadline(Core(allocations, channels, []), r.value)
      invariant r.Some? ==> forall k :: k in channels ==> r.value <= channels[k].Deadline()
      invariant r.Some? ==> forall c :: c in allocations && c !in clients ==> r.value <= allocations[c].expiresAt
    {
      var c :| c in clients;
      clients := clients - {c};
      r := Earliest(r, Some(allocations[c].expiresAt));
    }
    assert r.None? ==> allocations == map[];
  }

  lemma UnbindKeepsAll(s: Core, config: Config,
                       numbers: map<(Client, Peer), ChannelNumber>,
                       hotPath: map<(Port, Peer), (Client, ChannelNumber)>,
                       k: (Client, ChannelNumber))
    requires Inv(s, config) && NumbersExact(s.channels, numbers) && HotPathExact(s.channels, hotPath)
    requires k in s.channels && s.channels[k].bound
    ensures var after := s.channels[k := s.channels[k].(bound := false)];
            && Inv(s.(channels := after), config)
            && NumbersExact(after, numbers)
            && HotPathExact(after, hotPath - {(s.channels[k].allocation, s.channels[k].peer)})
    ensures Routed(hotPath, k.0, k.1, s.channels[k].allocation, s.channels[k].peer)
  {
    var after := s.channels[k := s.channels[k].(bound := false)];
    var peer, port := s.channels[k].peer, s.channels[k].allocation;
    assert forall c, n, p :: Reserved(after, c, n, p) <==> Reserved(s.channels, c, n, p);
    assert Carries(s.channels, k.0, k.1, port, peer);
    forall c, n, q, p
      ensures Carries(after, c, n, q, p) <==> Routed(hotPath - {(port, peer)}, c, n, q, p)
    {
      assert Carries(s.channels, c, n, q, p) <==> Routed(hotPath, c, n, q, p);
    }
  }

  /** Forgetting an unbound channel leaves the hot path alone. */
  lemma ForgetKeepsAll(s: Core, config: Config,
                       numbers: map<(Client, Peer), ChannelNumber>,
                       hotPath: map<(Port, Peer), (Client, ChannelNumber)>,
                       k: (Client, ChannelNumber))
    requires Inv(s, config) && NumbersExact(s.channels, numbers) && HotPathExact(s.channels, hotPath)
    requires k in s.channels && !s.channels[k].bound
    ensures Inv(s.(channels := s.channels - {k}), config)
    ensures NumbersExact(s.channels - {k}, numbers - {(k.0, s.channels[k].peer)})
    ensures HotPathExact(s.channels - {k}, hotPath)
    ensures Numbered(numbers, k.0, k.1, s.channels[k].peer)
  {
    var after := s.channels - {k};
    var peer := s.channels[k].peer;
    assert Reserved(s.channels, k.0, k.1, peer);
    assert forall c, n, p :: Reserved(after, c, n, p) ==> Reserved(s.channels, c, n, p);
    forall c, n, p
      ensures Reserved(after, c, n, p) <==> Numbered(numbers - {(k.0, peer)}, c, n, p)
    {
      assert Reserved(s.channels, c, n, p) <==> Numbered(numbers, c, n, p);
    }
    assert forall c, n, q, p :: Carries(after, c, n, q, p) <==> Carries(s.channels, c, n, q, p);
  }

  class Server {
    const config: Config
    var allocations: map<Client, Allocation>
    var clientsByAllocation: map<Port, Client>
    var hotPath: map<(Port, Peer), (Client, ChannelNumber)>
    var channels: map<(Client, ChannelNumber), Channel>
    var numbers: map<(Client, Peer), ChannelNumber>
    var pendingCommands: seq<Command>

    ghost function Core(): Core
      reads this
    {
      RelayCore.Core(allocations, channels, pendingCommands)
    }

    ghost predicate Valid()
      reads this
    {
      && config.Valid()
      && Inv(Core(), config)
      && PortsExact(allocations, clientsByAllocation)
      && NumbersExact(channels, numbers)
      && HotPathExact(channels, hotPath)
    }

    constructor (config: Config)
      requires config.Valid()
      ensures Valid() && Core() == EMPTY && this.config == config
    {
      this.config := config;
      allocations, clientsByAllocation, hotPath := map[], map[], map[];
      channels, numbers, pendingCommands := map[], map[], [];
    }

    method SendMessage(tid: nat, outcome: Outcome, recipient: Client)
      requires Valid()
      modifies this`pendingCommands
      ensures Valid()
      ensures Core() == Respond(old(Core()), recipient, tid, outcome)
    {
      pendingCommands := pendingCommands + [Command.SendMessage(tid, outcome, recipient)];
    }

    method NextCommand() returns (command: Option<Command>)
      requires Valid()
      modifies this`pendingCommands
      ensures Valid()
      ensures command.None? ==> old(pendingCommands) == [] && pendingCommands == []
      ensures command.Some? ==> old(pendingCommands) == [command.value] + pendingCommands
    {
      if pendingCommands == [] { return None; }
      command := Some(pendingCommands[0]);
      pendingCommands := pendingCommands[1..];
    }

    // ---------- Traffic ----------

    method HandleChannelData(sender: Client, number: ChannelNumber) returns (r: Option<(Port, Peer)>)
      requires Valid()
      ensures forall port: Port, peer :: r == Some((port, peer)) <==> Carries(channels, sender, number, port, peer)
    {
      if (sender, number) !in channels { return None; }
      var channel := channels[(sender, number)];
      if !channel.bound { return None; }
      r := Some((channel.allocation, channel.peer));
    }

    method HandlePeerTraffic(sender: Peer, port: Port) returns (r: Option<(Client, ChannelNumber)>)
      requires Valid()
      ensures forall c, n: ChannelNumber :: r == Some((c, n)) <==> Carries(channels, c, n, port, sender)
    {
      if (port, sender) !in hotPath { return None; }
      r := Some(hotPath[(port, sender)]);
    }

    method NumActiveChannels() returns (count: nat)
      requires Valid()
      ensures count == |hotPath|
    {
      count := CountBound(channels);
      HotPathSize(channels, hotPath);
    }

    // ---------- Requests ----------

    method HandleBindingRequest(r: Request, sender: Client)
      requires Valid() && r.Binding?
      modifies this
      ensures Valid() && Core() == Respond(old(Core()), sender, r.tid, Mapped(sender))
    {
      SendMessage(r.tid, Mapped(sender), sender);
    }

    method HandleCreatePermission(r: Request, sender: Client)
      requires Valid() && r.CreatePermission?
      modifies this
      ensures Valid() && Core() == DoCreatePermission(old(Core()), r, sender)
    {
      if r.auth.Rejected? {
        if r.auth.answerable { SendMessage(r.tid, Failed(r.auth.code), sender); }
        return;
      }
      SendMessage(r.tid, Permitted, sender);
    }

    /**
     Samples ports until one is unused. `draws` is what the random number generator yields; that it
     eventually yields every port of the range is all that is asked of it.
     */
    method SamplePort(draws: seq<Port>) returns (port: Port)
      requires Valid()
      requires forall p :: config.InRange(p) <==> p in draws
      requires |clientsByAllocation| < config.MaxAvailablePorts()
      ensures IsFreePort(Core(), config, port)
    {
      FreePortExists(config, clientsByAllocation);
      var i := 0;
      ghost var free: Port :| config.InRange(free) && free !in clientsByAllocation;
      ghost var last :| 0 <= last < |draws| && draws[last] == free;
      while draws[i] in clientsByAllocation
        invariant 0 <= i <= last
        decreases last - i
      {
        i := i + 1;
      }
      port := draws[i];
      assert port in draws && forall c :: Owns(allocations, c, port) ==> HeldBy(clientsByAllocation, c, port);
    }

    method HandleAllocate(r: Request, sender: Client, now: Instant, draws: seq<Port>) returns (ghost port: Port)
      requires Valid() && r.Allocate?
      requires forall p :: config.InRange(p) <==> p in draws
      modifies this
      ensures Valid()
      ensures r.auth.Authentic? && Admit(old(Core()), config, r, sender).Success? ==>
              IsFreePort(old(Core()), config, port)
      ensures Core() == DoAllocate(old(Core()), config, r, sender, now, port)
    {
      port := 0;
      if r.auth.Rejected? {
        if r.auth.answerable { SendMessage(r.tid, Failed(r.auth.code), sender); }
        return;
      }
      if sender in allocations {
        SendMessage(r.tid, Failed(AllocationMismatch), sender);
        return;
      }
      PortCount(allocations, clientsByAllocation);
      if |clientsByAllocation| == config.MaxAvailablePorts() {
        SendMessage(r.tid, Failed(InsufficientCapacity), sender);
        return;
      }
      if r.transport != UDP_TRANSPORT {
        SendMessage(r.tid, Failed(BadRequest), sender);
        return;
      }
      var addresses := DeriveRelayAddresses(config.address, r.requested, r.additional);
      if addresses.Failure? {
        SendMessage(r.tid, Failed(addresses.error), sender);
        return;
      }
      var (first, second) := addresses.value;
      var lifetime := EffectiveLifetime(r.lifetime);

      assert |clientsByAllocation| < config.MaxAvailablePorts(); // "No more ports available"
      var sampled := SamplePort(draws);
      port := sampled;
      Grant(r, sender, Allocation(sampled, now + lifetime, first, second), lifetime);
    }

    method Grant(r: Request, sender: Client, a: Allocation, lifetime: int)
      requires Valid() && r.Allocate?
      requires sender !in allocations && |allocations| < config.MaxAvailablePorts()
      requires IsFreePort(Core(), config, a.port)
      requires WellFormed(a, config)
      modifies this
      ensures Valid()
      ensures allocations == old(allocations)[sender := a] && channels == old(channels)
      ensures pendingCommands == old(pendingCommands) + CreateCommands(a) + [GrantMessage(r.tid, a, lifetime, sender)]
    {
      GrantKeepsInv(Core(), config, sender, a);
      pendingCommands := pendingCommands + [CreateAllocation(a.port, a.first.family)];
      if a.second.Some? {
        pendingCommands := pendingCommands + [CreateAllocation(a.port, a.second.value.family)];
      }
      pendingCommands := pendingCommands + [GrantMessage(r.tid, a, lifetime, sender)];
      GrantKeepsPorts(allocations, clientsByAllocation, sender, a);
      clientsByAllocation := clientsByAllocation[a.port := sender];
      allocations := allocations[sender := a];
    }

    method HandleRefresh(r: Request, sender: Client, now: Instant)
      requires Valid() && r.Refresh?
      modifies this
      ensures Valid()
      ensures Core() == DoRefresh(old(Core()), r, sender, now)
    {
      if r.auth.Rejected? {
        if r.auth.answerable { SendMessage(r.tid, Failed(r.auth.code), sender); }
        return;
      }
      if sender !in allocations {
        SendMessage(r.tid, Failed(AllocationMismatch), sender);
        return;
      }
      var lifetime := EffectiveLifetime(r.lifetime);
      if lifetime == 0 {
        DeletePortOf(Core(), config, sender);
        DeleteAllocation(allocations[sender].port);
        SendMessage(r.tid, Refreshed(0), sender);
        return;
      }
      ProlongKeepsInv(Core(), config, sender, now + lifetime);
      ProlongKeepsPorts(allocations, clientsByAllocation, sender, now + lifetime);
      allocations := allocations[sender := allocations[sender].(expiresAt := now + lifetime)];
      SendMessage(r.tid, Refreshed(lifetime), sender);
    }

    method DeleteAllocation(port: Port)
      requires Valid()
      modifies this
      ensures Valid()
      ensures Core() == DeletePort(old(Core()), port)
    {
      if port !in clientsByAllocation {
        assert forall c :: Owns(allocations, c, port) ==> HeldBy(clientsByAllocation, c, port);
        return;
      }
      var client := clientsByAllocation[port];
      assert HeldBy(clientsByAllocation, client, port) && Owns(allocations, client, port);
      DeletePortOf(Core(), config, client);
      DeleteAllocationOf(client, port);
    }

    method DeleteAllocationOf(client: Client, port: Port)
      requires Valid() && Owns(allocations, client, port)
      modifies this
      ensures Valid() && Core() == Drop(old(Core()), client)
    {
      hide PortsExact, NumbersExact, HotPathExact, AllocationsInv, ChannelsInv;
      assert client in allocations; // "internal state mismatch"
      var allocation := allocations[client];
      DropKeepsInv(Core(), config, client);
      ChannelsOfPort(Core(), config, client);
      DropKeepsPorts(allocations, clientsByAllocation, client);
      clientsByAllocation := clientsByAllocation - {port};
      allocations := allocations - {client};
      RemoveChannelsOf(port, client);
      pendingCommands := pendingCommands + [FreeAllocation(port, allocation.first.family)];
      if allocation.second.Some? {
        pendingCommands := pendingCommands + [FreeAllocation(port, allocation.second.value.family)];
      }
    }

    /** Goes over all channels and keeps those of other allocations, updating both indexes. */
    method RemoveChannelsOf(port: Port, client: Client)
      requires forall k :: k in channels ==> (channels[k].allocation == port <==> k.0 == client)
      requires NumbersExact(channels, numbers) && HotPathExact(channels, hotPath)
      modifies this`channels, this`numbers, this`hotPath
      ensures channels == map k | k in old(channels) && k.0 != client :: old(channels)[k]
      ensures NumbersExact(channels, numbers) && HotPathExact(channels, hotPath)
    {
      var todo := channels.Keys;
      while todo != {}
        invariant todo <= channels.Keys
        invariant channels == map k | k in old(channels) && (k in todo || k.0 != client) :: old(channels)[k]
        invariant NumbersExact(channels, numbers) && HotPathExact(channels, hotPath)
      {
        var k :| k in todo;
        todo := todo - {k};
        var channel := channels[k];
        if channel.allocation == port {
          assert k.0 == client; // "internal state should be consistent"
          RemoveChannel(k);
        }
      }
    }

    /** Removes one channel from the table and from both indexes. */
    method RemoveChannel(k: (Client, ChannelNumber))
      requires k in channels
      requires NumbersExact(channels, numbers) && HotPathExact(channels, hotPath)
      requires forall l :: l in channels && channels[l].allocation == channels[k].allocation ==> l.0 == k.0
      modifies this`channels, this`numbers, this`hotPath
      ensures channels == old(channels) - {k}
      ensures NumbersExact(channels, numbers) && HotPathExact(channels, hotPath)
    {
      var peer := channels[k].peer;
      var port := channels[k].allocation;
      RemovalKeepsIndexes(channels, numbers, hotPath, k);
      assert Reserved(channels, k.0, k.1, peer);
      if (k.0, peer) in numbers {
        assert Numbered(numbers, k.0, k.1, peer);
        assert numbers[(k.0, peer)] == k.1; // "internal state should be consistent"
        numbers := numbers - {(k.0, peer)};
      }
      if (port, peer) in hotPath {
        assert hotPath[(port, peer)] == k; // "internal state should be consistent"
        hotPath := hotPath - {(port, peer)};
      }
      channels := channels - {k};
    }

    method HandleChannelBind(r: Request, sender: Client, now: Instant)
      requires Valid() && r.ChannelBind?
      modifies this
      ensures Valid()
      ensures Core() == DoChannelBind(old(Core()), r, sender, now)
    {
      if r.auth.Rejected? {
        if r.auth.answerable { SendMessage(r.tid, Failed(r.auth.code), sender); }
        return;
      }
      if sender !in allocations {
        SendMessage(r.tid, Failed(AllocationMismatch), sender);
        return;
      }
      var allocation := allocations[sender];
      if !allocation.CanRelayTo(r.peer) {
        SendMessage(r.tid, Failed(PeerAddressFamilyMismatch), sender);
        return;
      }
      ConflictsThroughIndex(Core(), numbers, sender, r.number, r.peer);
      if (sender, r.peer) in numbers && numbers[(sender, r.peer)] != r.number {
        SendMessage(r.tid, Failed(BadRequest), sender);
        return;
      }
      if (sender, r.number) in channels {
        if channels[(sender, r.number)].peer != r.peer {
          SendMessage(r.tid, Failed(BadRequest), sender);
          return;
        }
        RefreshChannel(sender, r.number, now);
        SendMessage(r.tid, ChannelBound, sender);
        return;
      }
      CreateChannelBinding(sender, r.number, r.peer, allocation.port, now);
      SendMessage(r.tid, ChannelBound, sender);
    }

    /** The channel is bound again, and put back on the hot path in case it had expired. */
    method RefreshChannel(client: Client, number: ChannelNumber, now: Instant)
      requires Valid()
      requires (client, number) in channels && client in allocations
      requires allocations[client].CanRelayTo(channels[(client, number)].peer)
      requires !Conflicts(Core(), client, number, channels[(client, number)].peer)
      modifies this`channels, this`hotPath
      ensures Valid()
      ensures channels == old(channels)[(client, number) :=
                old(channels)[(client, number)].(expiry := now + CHANNEL_BINDING_DURATION, bound := true)]
    {
      var channel := channels[(client, number)].(expiry := now + CHANNEL_BINDING_DURATION, bound := true);
      assert Reserved(channels, client, number, channel.peer) && Numbered(numbers, client, number, channel.peer);
      assert numbers[(client, channel.peer) := number] == numbers;
      BindKeepsInv(Core(), config, client, number, channel.peer, channel.expiry);
      BindKeepsIndexes(Core(), config, numbers, hotPath, client, number, channel);
      channels := channels[(client, number) := channel];
      hotPath := hotPath[(channel.allocation, channel.peer) := (client, number)];
    }

    method CreateChannelBinding(client: Client, number: ChannelNumber, peer: Peer, port: Port, now: Instant)
      requires Valid()
      requires client in allocations && allocations[client].port == port && allocations[client].CanRelayTo(peer)
      requires (client, number) !in channels && (client, peer) !in numbers
      requires !Conflicts(Core(), client, number, peer)
      modifies this`channels, this`numbers, this`hotPath
      ensures Valid()
      ensures channels == old(channels)[(client, number) := Channel(now + CHANNEL_BINDING_DURATION, peer, port, true)]
    {
      var channel := Channel(now + CHANNEL_BINDING_DURATION, peer, port, true);
      BindKeepsInv(Core(), config, client, number, peer, channel.expiry);
      BindKeepsIndexes(Core(), config, numbers, hotPath, client, number, channel);
      HotPathVacant(Core(), config, numbers, hotPath, client, peer);
      channels := channels[(client, number) := channel];
      numbers := numbers[(client, peer) := number];
      assert (port, peer) !in hotPath; // nothing is there yet, as the server asserts
      hotPath := hotPath[(port, peer) := (client, number)];
    }

    // ---------- Time ----------

    method PollTimeout() returns (r: Option<Instant>)
      requires Valid()
      ensures IsPollTimeout(Core(), r)
    {
      r := EarliestDeadline(allocations, channels);
    }

    /**
     The three phases, in this order. The second takes every expired channel off the hot path; only
     because of it may the third forget channels without touching the hot-path map.
     */
    method HandleTimeout(now: Instant) returns (ghost order: seq<Client>)
      requires Valid()
      modifies this
      ensures Valid()
      ensures IsExpiryOrder(old(allocations), now, order)
      ensures Core() == DoTimeout(old(Core()), now, order)
    {
      order := DeleteExpiredAllocations(now);
      UnbindExpiredChannels(now);
      DeleteStaleChannels(now);
      TimeoutByPhases(old(Core()), config, now, order);
    }

    method DeleteExpiredAllocations(now: Instant) returns (ghost order: seq<Client>)
      requires Valid()
      modifies this
      ensures Valid()
      ensures IsExpiryOrder(old(allocations), now, order)
      ensures Core() == WithoutClients(old(Core()), order)
    {
      var expired := set c | c in allocations && allocations[c].IsExpired(now);
      order := [];
      while expired != {}
        invariant Valid()
        invariant forall c :: c in old(allocations) && old(allocations)[c].IsExpired(now) <==>
                  c in order || c in expired
        invariant forall c :: c in order ==> c !in expired
        invariant Distinct(order)
        invariant Core() == WithoutClients(old(Core()), order)
        decreases |expired|
      {
        var client :| client in expired;
        expired := expired - {client};
        WithoutOneMore(old(Core()), order, client);
        DeletePortOf(Core(), config, client);
        DeleteAllocation(allocations[client].port);
        DistinctSnoc(order, client);
        order := order + [client];
      }
    }

    method UnbindExpiredChannels(now: Instant)
      requires Valid()
      modifies this`channels, this`hotPath
      ensures Valid()
      ensures channels == AllAged(old(channels), now)
    {
      hide Server.Valid;
      var todo := channels.Keys;
      while todo != {}
        invariant Valid()
        invariant todo <= channels.Keys
        invariant channels == map k | k in old(channels) ::
                                if k in todo then old(channels)[k] else Aged(old(channels)[k], now)
      {
        var k :| k in todo;
        todo := todo - {k};
        if channels[k].IsExpired(now) && channels[k].bound {
          Unbind(k);
        }
      }
    }

    method Unbind(k: (Client, ChannelNumber))
      requires Valid() && k in channels && channels[k].bound
      modifies this`channels, this`hotPath
      ensures Valid()
      ensures channels == old(channels)[k := old(channels)[k].(bound := false)]
    {
      var channel := channels[k];
      UnbindKeepsAll(Core(), config, numbers, hotPath, k);
      channels := channels[k := channel.(bound := false)];
      if (channel.allocation, channel.peer) in hotPath {
        assert hotPath[(channel.allocation, channel.peer)] == k; // "internal state should be consistent"
        hotPath := hotPath - {(channel.allocation, channel.peer)};
      }
    }

    method DeleteStaleChannels(now: Instant)
      requires Valid()
      requires forall k :: k in channels && channels[k].IsExpired(now) ==> !channels[k].bound
      modifies this`channels, this`numbers
      ensures Valid()
      ensures channels == Fresh(old(channels), now)
    {
      hide Server.Valid;
      var stale := set k | k in channels && channels[k].CanBeDeleted(now);
      while stale != {}
        invariant Valid()
        invariant forall k :: k in stale ==> k in channels && channels[k].CanBeDeleted(now)
        invariant channels == map k | k in old(channels)
                  && (k in stale || !old(channels)[k].CanBeDeleted(now)) :: old(channels)[k]
        decreases |stale|
      {
        var k :| k in stale;
        stale := stale - {k};
        DeleteChannelBinding(k.0, k.1);
      }
    }

    /** Does not touch the hot-path map, so it is only right for a channel that is no longer bound. */
    method DeleteChannelBinding(client: Client, number: ChannelNumber)
      requires Valid()
      requires (client, number) in channels ==> !channels[(client, number)].bound
      modifies this`channels, this`numbers
      ensures Valid()
      ensures channels == old(channels) - {(client, number)}
    {
      if (client, number) !in channels { return; }
      var peer := channels[(client, number)].peer;
      ForgetKeepsAll(Core(), config, numbers, hotPath, (client, number));
      if (client, peer) in numbers {
        assert numbers[(client, peer)] == number; // "internal state should be consistent"
        numbers := numbers - {(client, peer)};
      }
      channels := channels - {(client, number)};
    }
  }
}
