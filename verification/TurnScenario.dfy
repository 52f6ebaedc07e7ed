/**
 The tables of a scenario: a client binds all its channel numbers at time zero and lets them cool down.
 Half a second before the cooldown ends it asks again for the first number; when the cooldown ends it
 takes that number for another peer.
 */
module TurnScenario {
  import opened Common
  import opened TurnLink
  import B = ChannelBindings
  import R = RelayCore

  const ME: SocketAddr := SocketAddr(IpAddr(V4, 0), 0)
  const PORTS: R.Config := R.Config(R.Ip4(IpAddr(V4, 1)), 49152, 49200)
  const LINK: Link := Link(ME, PORTS, {V4})
  const PORT: nat := 49152

  /** The client's allocation was granted or refreshed at `t`, for the default lifetime. */
  function Allocated(t: Instant): map<SocketAddr, R.Allocation> {
    map[ME := R.Allocation(PORT, t + R.DEFAULT_ALLOCATION_LIFETIME, IpAddr(V4, 1), None)]
  }

  function PeerNo(k: nat): Peer { SocketAddr(IpAddr(V4, k), 1) }

  /** The first `k` numbers, confirmed for the first `k` peers at time zero. */
  function Channels(k: nat): map<Number, B.Channel> {
    if k == 0 then map[] else Channels(k - 1)[B.FIRST_CHANNEL + k - 1 := B.Channel(PeerNo(k - 1), true, 0, 0)]
  }

  function Table(k: nat): B.Bindings {
    B.Bindings(Channels(k), if k == B.CHANNEL_COUNT then B.FIRST_CHANNEL else B.FIRST_CHANNEL + k)
  }

  function RelayChannels(k: nat, bound: bool): map<(SocketAddr, Number), R.Channel> {
    if k == 0 then map[] else
    RelayChannels(k - 1, bound)[(ME, B.FIRST_CHANNEL + k - 1) :=
      R.Channel(R.CHANNEL_BINDING_DURATION, PeerNo(k - 1), PORT, bound)]
  }

  lemma {:induction false} ChannelsAre(k: nat)
    ensures forall n :: n in Channels(k) <==> B.FIRST_CHANNEL <= n < B.FIRST_CHANNEL + k
    ensures forall n :: n in Channels(k) ==> Channels(k)[n] == B.Channel(PeerNo(n - B.FIRST_CHANNEL), true, 0, 0)
  {
    if k > 0 { ChannelsAre(k - 1); }
  }

  lemma {:induction false} RelayChannelsAre(k: nat, bound: bool)
    ensures forall c :: c in RelayChannels(k, bound) <==> c.0 == ME && B.FIRST_CHANNEL <= c.1 < B.FIRST_CHANNEL + k
    ensures forall c :: c in RelayChannels(k, bound) ==>
              RelayChannels(k, bound)[c] == R.Channel(R.CHANNEL_BINDING_DURATION, PeerNo(c.1 - B.FIRST_CHANNEL), PORT,
                  bound)
  {
    if k > 0 { RelayChannelsAre(k - 1, bound); }
  }

  // ---------- The relay ----------

  /** Looking at the clock before the cooldown ends, the relay unbinds the channels after ten minutes. */
  lemma TimeoutIs(s: R.Core, k: nat, bound: bool, granted: Instant, now: Instant)
    requires s.allocations == Allocated(granted) && s.channels == RelayChannels(k, bound)
    requires now < granted + R.DEFAULT_ALLOCATION_LIFETIME && now < R.COOLDOWN
    ensures R.IsExpiryOrder(s.allocations, now, [])
    ensures var after := R.DoTimeout(s, now, []);
            && after.allocations == s.allocations
            && after.channels == RelayChannels(k, bound && now < R.CHANNEL_BINDING_DURATION)
  {
    RelayChannelsAre(k, bound);
    RelayChannelsAre(k, bound && now < R.CHANNEL_BINDING_DURATION);
  }

  /** The relay has nothing to do before its channels expire or, once unbound, before they cool down. */
  lemma QuietUntil(s: R.Core, k: nat, bound: bool, granted: Instant, t: Instant)
    requires s.allocations == Allocated(granted) && s.channels == RelayChannels(k, bound)
    requires t <= granted + R.DEFAULT_ALLOCATION_LIFETIME
    requires t <= (if bound then R.CHANNEL_BINDING_DURATION else R.COOLDOWN)
    ensures R.NothingBefore(s, t)
  {
    RelayChannelsAre(k, bound);
  }

  // ---------- The client ----------

  /** A peer beyond the first `k` has no channel. */
  lemma NoChannelYet(inner: map<Number, B.Channel>, k: nat, p: nat, now: Instant)
    requires inner == Channels(k) && k <= p
    ensures var b := B.Bindings(inner, B.FIRST_CHANNEL);
            B.ConnectedChannel(b, PeerNo(p), now).None? && B.BoundChannel(b, PeerNo(p), now).None?
  {
    ChannelsAre(k);
    B.LowestIsLowest(inner, (c: B.Channel) => c.ConnectedTo(PeerNo(p), now), B.FIRST_CHANNEL);
    B.LowestIsLowest(inner, (c: B.Channel) => c.BoundTo(PeerNo(p), now), B.FIRST_CHANNEL);
  }

  /** No channel is ever due for a refresh: nothing is received. */
  lemma NothingToRefresh(k: nat, n: Number, now: Instant)
    ensures n in Channels(k) ==> !Channels(k)[n].NeedsRefresh(now)
  {
    ChannelsAre(k);
  }

  /** The next number for the next peer, at time zero. */
  lemma AskForNext(w: World, k: nat)
    requires w.client == Table(k) && w.now == 0 && k < B.CHANNEL_COUNT && w.sent == map[] && w.collision.None?
    ensures CanBind(w, LINK, PeerNo(k))
    ensures var n := B.FIRST_CHANNEL + k;
            && B.NewChannel(w.client, PeerNo(k), 0).1 == Some(n)
            && DoBindChannel(w, PeerNo(k)) ==
               Send(w.(client := B.Bindings(Channels(k)[n := B.Channel(PeerNo(k), false, 0, 0)], B.Succ(n))), n,
                   PeerNo(k), 0)
  {
    NoChannelYet(w.client.inner, k, k, 0);
    ChannelsAre(k);
    var n: Number := B.FIRST_CHANNEL + k;
    assert w.client.Available(n, 0);
    assert B.NextNumber(w.client, 0) == Some(n);
    assert !Outstanding(w.sent, n);
  }

  lemma ConfirmNext(k: nat)
    requires k < B.CHANNEL_COUNT
    ensures var n := B.FIRST_CHANNEL + k;
            B.Confirm(B.Bindings(Channels(k)[n := B.Channel(PeerNo(k), false, 0, 0)], B.Succ(n)), n, 0) == Table(k + 1)
  {
    var n := B.FIRST_CHANNEL + k;
    var v := B.Confirm(B.Bindings(Channels(k)[n := B.Channel(PeerNo(k), false, 0, 0)], B.Succ(n)), n, 0);
    assert v.inner == Channels(k + 1);
  }

  /** The first peer's number is reserved for it until the cooldown ends. */
  lemma StillReserved(b: B.Bindings, k: nat, now: Instant)
    requires b.inner == Channels(k) && k == B.CHANNEL_COUNT && now == R.COOLDOWN - SECOND / 2
    ensures B.BoundChannel(b, PeerNo(0), now) == Some(B.FIRST_CHANNEL) && B.ConnectedChannel(b, PeerNo(0), now).None?
  {
    ChannelsAre(k);
    B.LowestIsLowest(b.inner, (c: B.Channel) => c.ConnectedTo(PeerNo(0), now), B.FIRST_CHANNEL);
  }

  lemma AskAgain(w: World, k: nat)
    requires k == B.CHANNEL_COUNT && w.client == Table(k) && w.now == R.COOLDOWN - SECOND / 2
    requires w.sent == map[] && w.collision.None?
    ensures CanBind(w, LINK, PeerNo(0)) && B.NewChannel(w.client, PeerNo(0), w.now).1.Some?
    ensures DoBindChannel(w, PeerNo(0)) == Send(w, B.FIRST_CHANNEL, PeerNo(0), w.now)
  {
    StillReserved(w.client, k, w.now);
    hide B.BoundChannel, B.ConnectedChannel;
  }

  /** When the cooldown ends, the first number is the next to be handed out to a new peer. */
  lemma FirstAgain(b: B.Bindings, k: nat)
    requires k == B.CHANNEL_COUNT && b == Table(k)
    ensures B.ConnectedChannel(b, PeerNo(k), R.COOLDOWN).None? && B.BoundChannel(b, PeerNo(k), R.COOLDOWN).None?
    ensures B.NextNumber(b, R.COOLDOWN) == Some(B.FIRST_CHANNEL)
  {
    ChannelsAre(k);
    NoChannelYet(b.inner, k, k, R.COOLDOWN);
    assert b.Available(B.FIRST_CHANNEL, R.COOLDOWN);
  }

  /** The client hands the number out again while its bind is unanswered. */
  lemma HandOutAgain(w: World, k: nat, tid: Tid)
    requires k == B.CHANNEL_COUNT && w.client == Table(k) && w.now == R.COOLDOWN && w.collision.None?
    requires w.sent == map[tid := Bind(B.FIRST_CHANNEL, PeerNo(0), R.COOLDOWN - SECOND / 2, R.COOLDOWN - SECOND / 2)]
    ensures CanBind(w, LINK, PeerNo(k)) && B.NewChannel(w.client, PeerNo(k), w.now).1.Some?
    ensures var v := DoBindChannel(w, PeerNo(k));
            var inner := w.client.inner[B.FIRST_CHANNEL := B.Channel(PeerNo(k), false, w.now, w.now)];
            && v.collision == Some(Collision(B.FIRST_CHANNEL, PeerNo(0), PeerNo(k), R.COOLDOWN))
            && v == Send(w.(client := B.Bindings(inner, B.FIRST_CHANNEL + 1), collision := v.collision),
                         B.FIRST_CHANNEL, PeerNo(k), w.now)
  {
    FirstAgain(w.client, k);
    hide B.ConnectedChannel, B.BoundChannel, B.NextNumber;
    assert Awaits(w.sent, tid, B.FIRST_CHANNEL);
  }
}
