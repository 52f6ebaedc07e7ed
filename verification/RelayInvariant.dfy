/** Every operation of the relay keeps its tables consistent. */
module RelayInvariant {
  import opened Common
  import opened RelayCore

  /** Granting a free port to a client without allocation keeps the tables consistent. */
  lemma GrantKeepsInv(s: Core, config: Config, sender: Client, a: Allocation)
    requires Inv(s, config) && |s.allocations| < config.MaxAvailablePorts()
    requires sender !in s.allocations && IsFreePort(s, config, a.port)
    requires WellFormed(a, config)
    ensures Inv(s.(allocations := s.allocations[sender := a]), config)
  {
    var after := s.allocations[sender := a];
    assert after.Keys == s.allocations.Keys + {sender};
    forall c, d, port | Owns(after, c, port) && Owns(after, d, port)
      ensures c == d
    {
      assert c != sender ==> Owns(s.allocations, c, port);
      assert d != sender ==> Owns(s.allocations, d, port);
    }
  }

  lemma ProlongKeepsInv(s: Core, config: Config, client: Client, expiresAt: Instant)
    requires Inv(s, config) && client in s.allocations
    ensures Inv(s.(allocations := s.allocations[client := s.allocations[client].(expiresAt := expiresAt)]), config)
  {
    var after := s.allocations[client := s.allocations[client].(expiresAt := expiresAt)];
    assert after.Keys == s.allocations.Keys;
    assert forall c, p :: Owns(after, c, p) ==> Owns(s.allocations, c, p);
  }

  /** Deleting the port of a known client drops exactly that client. */
  lemma DeletePortOf(s: Core, config: Config, client: Client)
    requires Inv(s, config) && client in s.allocations
    ensures DeletePort(s, s.allocations[client].port) == Drop(s, client)
  {
    assert Owns(s.allocations, client, s.allocations[client].port);
  }

  /** The channels on a client's port are the client's channels. */
  lemma ChannelsOfPort(s: Core, config: Config, client: Client)
    requires Inv(s, config) && client in s.allocations
    ensures forall k :: k in s.channels ==> (s.channels[k].allocation == s.allocations[client].port <==> k.0 == client)
  {
    forall k | k in s.channels
      ensures s.channels[k].allocation == s.allocations[client].port <==> k.0 == client
    {
      assert Owns(s.allocations, k.0, s.channels[k].allocation);
      assert Owns(s.allocations, client, s.allocations[client].port);
    }
  }

  lemma DropKeepsInv(s: Core, config: Config, client: Client)
    requires Inv(s, config) && client in s.allocations
    ensures Inv(Drop(s, client), config)
  {
    var after := Drop(s, client);
    assert after.allocations.Keys == s.allocations.Keys - {client};
    assert forall c, p :: Owns(after.allocations, c, p) ==> Owns(s.allocations, c, p);
    assert forall c, n, p :: Reserved(after.channels, c, n, p) ==> Reserved(s.channels, c, n, p);
  }

  /** Binding a pair that conflicts with nothing keeps the tables consistent. */
  lemma BindKeepsInv(s: Core, config: Config, client: Client, number: ChannelNumber, peer: Peer, expiry: Instant)
    requires Inv(s, config) && client in s.allocations
    requires s.allocations[client].CanRelayTo(peer) && !Conflicts(s, client, number, peer)
    ensures Inv(s.(channels := s.channels[(client, number) := Channel(expiry, peer, s.allocations[client].port, true)]),
            config)
  {
    var after := s.channels[(client, number) := Channel(expiry, peer, s.allocations[client].port, true)];
    forall c, n: ChannelNumber, m: ChannelNumber, p | Reserved(after, c, n, p) && Reserved(after, c, m, p)
      ensures n == m
    {
      assert (c, n) != (client, number) ==> Reserved(s.channels, c, n, p);
      assert (c, m) != (client, number) ==> Reserved(s.channels, c, m, p);
    }
  }
}
