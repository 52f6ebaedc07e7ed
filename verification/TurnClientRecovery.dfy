/** How the TURN client gets out of trouble: what follows a mismatch, and what becomes of buffered binds. */
module TurnClientRecovery {
  import opened Common
  import opened TurnClient
  import opened TurnClientInvariant
  import B = ChannelBindings

  /** `op` is the only thing the client waits for. */
  ghost predicate OnlyAsks(s: Client, op: Op) {
    (exists id :: id in s.sent) && forall id :: id in s.sent ==> s.sent[id].request.op == op
  }

  /**
   After an allocation mismatch the client holds nothing and asks for exactly one thing: the deletion of
   the allocation it did not know of, or a new one. A peer whose bind was answered so is not forgotten.
   */
  lemma MismatchResynchronises(s: Client, from: SocketAddr, local: SocketAddr, m: Message, now: Instant)
    requires Accepts(s, from, m) && m.reply.Error? && m.reply.code == AllocationMismatch
    requires s.active.Some? && s.credentials.Some?
    ensures var v := HandleInput(s, from, local, m, now);
            var op := s.sent[m.tid].request.op;
            && !v.HasAllocation() && v.lifetime.None? && v.bindings.inner == map[]
            && (m.kind == KAllocate ==> OnlyAsks(v, Op.Refresh(true)))
            && (m.kind == KRefresh || m.kind == KChannelBind ==> OnlyAsks(v, Allocate))
            && (m.kind == KChannelBind && op.ChannelBind? ==> op.peer in v.buffered)
  {
    var v := HandleInput(s, from, local, m, now);
    if m.kind == KAllocate || m.kind == KRefresh || m.kind == KChannelBind {
      assert s.nextTid in v.sent;
    }
  }

  /** Once the deletion is confirmed, a new allocation is asked for. */
  lemma DeletionIsFollowedUp(s: Client, from: SocketAddr, local: SocketAddr, m: Message, now: Instant)
    requires Accepts(s, from, m) && m.kind == KRefresh && m.reply.Success? && m.reply.lifetime == Some(0)
    requires s.active.Some? && s.credentials.Some?
    ensures HandleInput(s, from, local, m, now).InFlightKind(KAllocate)
  {
    var v := HandleInput(s, from, local, m, now);
    assert v.sent[s.nextTid].request.op.Kind() == KAllocate;
  }

  // ---------- Buffered binds ----------

  ghost predicate IsConnected(b: B.Bindings, peer: Peer, now: Instant) {
    exists n :: n in b.inner && b.inner[n].ConnectedTo(peer, now)
  }

  ghost predicate AllTaken(b: B.Bindings, now: Instant) {
    forall n: B.Number :: B.InRange(n) ==> n in b.inner && !b.inner[n].CanRebind(now)
  }

  ghost predicate IsBinding(s: Client, peer: Peer) {
    exists id :: id in s.sent && s.sent[id].request.op.ChannelBind? && s.sent[id].request.op.peer == peer
  }

  /** The peer has a channel, or one is asked for, or there is none to be had. */
  ghost predicate TakenCareOf(s: Client, peer: Peer, now: Instant) {
    IsConnected(s.bindings, peer, now) || IsBinding(s, peer) || AllTaken(s.bindings, now)
  }

  ghost predicate Ready(s: Client) {
    s.HasAllocation() && s.active.Some? && s.credentials.Some? && s.bindings.Valid() && SentInv(s.sent, s.nextTid)
  }

  /** Handing out a number leaves every connected channel alone, and a full table as it is. */
  lemma NewChannelKeeps(b: B.Bindings, p: Peer, q: Peer, now: Instant)
    requires b.Valid()
    ensures var after := B.NewChannel(b, q, now).0;
            && after.Valid()
            && (IsConnected(b, p, now) ==> IsConnected(after, p, now))
            && (AllTaken(b, now) ==> AllTaken(after, now))
  {
    B.NextIsFirstAvailable(b, now);
    var after := B.NewChannel(b, q, now).0;
    if n :| n in b.inner && b.inner[n].ConnectedTo(p, now) {
      assert !b.Available(n, now);
      assert after.inner[n].ConnectedTo(p, now);
    }
  }

  lemma BindKeeps(s: Client, p: Peer, q: Peer, now: Instant)
    requires Ready(s)
    ensures var v := BindChannel(s, q, now);
            && Ready(v) && v.relay4 == s.relay4 && v.relay6 == s.relay6
            && (TakenCareOf(s, p, now) ==> TakenCareOf(v, p, now))
  {
    NewChannelKeeps(s.bindings, p, q, now);
    var v := BindChannel(s, q, now);
    if id :| id in s.sent && s.sent[id].request.op.ChannelBind? && s.sent[id].request.op.peer == p {
      assert id in v.sent && v.sent[id] == s.sent[id];
    }
  }

  /** Binding a peer that the allocation can relay to takes care of it. */
  lemma BindTakesCare(s: Client, p: Peer, now: Instant)
    requires Ready(s) && s.CanRelayTo(p) && p !in s.buffered
    ensures TakenCareOf(BindChannel(s, p, now), p, now)
  {
    var v := BindChannel(s, p, now);
    B.LowestIsLowest(s.bindings.inner, (c: B.Channel) => c.ConnectedTo(p, now), B.FIRST_CHANNEL);
    B.ExhaustedExactly(s.bindings, p, now);
    var number := B.NewChannel(s.bindings, p, now).1;
    if B.ConnectedChannel(s.bindings, p, now).None? && !s.BindInFlightTo(p) && number.Some? {
      assert v.sent[s.nextTid].request.op == ChannelBind(number.value, p);
    }
  }

  lemma {:induction false} BindBufferedKeeps(s: Client, p: Peer, now: Instant)
    requires Ready(s)
    ensures var v := BindBuffered(s, now);
            v.relay4 == s.relay4 && v.relay6 == s.relay6 && (TakenCareOf(s, p, now) ==> TakenCareOf(v, p, now))
    decreases |s.buffered|
  {
    hide TakenCareOf, BindChannel;
    if s.buffered != [] {
      var rest := s.(buffered := s.buffered[1..]);
      Unbuffered(s, p, now);
      BindKeeps(rest, p, s.buffered[0], now);
      BindBufferedKeeps(BindChannel(rest, s.buffered[0], now), p, now);
    }
  }

  lemma Unbuffered(s: Client, p: Peer, now: Instant)
    requires s.buffered != []
    ensures TakenCareOf(s.(buffered := s.buffered[1..]), p, now) == TakenCareOf(s, p, now)
  {
    var rest := s.(buffered := s.buffered[1..]);
    assert IsBinding(rest, p) == IsBinding(s, p);
  }

  /** Of a peer that is buffered more than once, the last entry counts. */
  lemma {:induction false} BufferedTakenCareOf(s: Client, p: Peer, now: Instant)
    requires Ready(s) && p in s.buffered && s.CanRelayTo(p)
    ensures TakenCareOf(BindBuffered(s, now), p, now)
    decreases |s.buffered|
  {
    hide TakenCareOf, BindChannel;
    var head, rest := s.buffered[0], s.(buffered := s.buffered[1..]);
    var bound := BindChannel(rest, head, now);
    BindKeeps(rest, p, head, now);
    if p in rest.buffered {
      BufferedTakenCareOf(bound, p, now);
    } else {
      BindTakesCare(rest, p, now);
      BindBufferedKeeps(bound, p, now);
    }
  }

  /**
   When the relay grants an allocation, no bind that was waiting for it is forgotten: every buffered peer
   of a granted family has a channel, is being bound, or finds all numbers taken.
   */
  lemma GrantBindsBuffered(s: Client, from: SocketAddr, local: SocketAddr, m: Message, now: Instant, p: Peer)
    requires Inv(s) && Accepts(s, from, m) && Founded(s, from, m)
    requires m.kind == KAllocate && m.reply.Success? && m.reply.lifetime.Some? && m.reply.relays != []
    requires p in s.buffered
    ensures var v := HandleInput(s, from, local, m, now);
            v.HasAllocation() && (v.CanRelayTo(p) ==> TakenCareOf(v, p, now))
  {
    var rest := s.(sent := s.sent - {m.tid});
    var granted := WithRelays(rest, m.reply, now);
    assert s.active.Some? && s.credentials.Some?;
    FirstAddress(m.reply.relays);
    hide TakenCareOf, BindBuffered;
    BindBufferedKeeps(granted, p, now);
    if granted.CanRelayTo(p) { BufferedTakenCareOf(granted, p, now); }
  }

  lemma FirstAddress(addrs: seq<SocketAddr>)
    requires addrs != []
    ensures FirstOf(addrs, V4).Some? || FirstOf(addrs, V6).Some?
  {
  }
}
