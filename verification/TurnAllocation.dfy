/**
 The TURN allocation as the client keeps it: an object whose fields each method updates, its channel
 table among them. Every method is proved to compute what `TurnClient` specifies.
 */
module TurnAllocation {
  import opened Common
  import opened Backoff
  import opened TurnClient
  import opened TurnClientInvariant
  import B = ChannelBindings

  /** The requests whose backoff has triggered `level` times. */
  function AtLevel(sent: map<Tid, InFlight>, level: nat): set<Tid> {
    set id | id in sent && sent[id].backoff.Level() == level
  }

  /** A retry moves one request up a level, or removes it: levels below do not grow, its own shrinks. */
  lemma RetryDescends(s: Client, id: Tid, now: Instant, level: nat)
    requires Inv(s) && IsDue(s, id, now) && level <= s.sent[id].backoff.Level()
    ensures |AtLevel(Retry(s, id, now).sent, level)| <= |AtLevel(s.sent, level)|
    ensures level == s.sent[id].backoff.Level() ==> |AtLevel(Retry(s, id, now).sent, level)| < |AtLevel(s.sent, level)|
  {
    hide Retry, Inv;
    DueHasValidBackoff(s, id, now);
    RetryIs(s, id, now);
    StepClimbs(s.sent[id].backoff, now);
    var v := Retry(s, id, now);
    assert AtLevel(v.sent, level) <= AtLevel(s.sent, level);
    SubsetSize(AtLevel(v.sent, level), AtLevel(s.sent, level));
    if level == s.sent[id].backoff.Level() {
      assert AtLevel(v.sent, level) <= AtLevel(s.sent, level) - {id};
      SubsetSize(AtLevel(v.sent, level), AtLevel(s.sent, level) - {id});
    }
  }

  lemma DueHasValidBackoff(s: Client, id: Tid, now: Instant)
    requires Inv(s) && IsDue(s, id, now)
    ensures s.sent[id].backoff.Valid() && id < s.nextTid
  {
  }

  lemma UnbufferingKeepsGood(s: Client, taken: seq<Transmit>)
    requires Good(s, taken) && s.buffered != []
    ensures Good(s.(buffered := s.buffered[1..]), taken)
  {
  }

  /** Anything but a BINDING request is only in flight with a socket and credentials. */
  lemma InFlightHasSocket(s: Client, id: Tid, taken: seq<Transmit>)
    requires Good(s, taken) && id in s.sent
    ensures !s.sent[id].request.op.Binding? ==> s.active.Some? && s.credentials.Some?
    ensures s.bindings.Valid()
  {
  }

  lemma GoodIsInv(s: Client, taken: seq<Transmit>)
    requires Good(s, taken)
    ensures Inv(s) && s.bindings.Valid()
  {
  }

  lemma RetriesSnoc(s: Client, picks: seq<Tid>, now: Instant, id: Tid)
    requires AreRetries(s, picks, now) && IsDue(AfterRetries(s, picks, now), id, now)
    ensures AreRetries(s, picks + [id], now)
    ensures AfterRetries(s, picks + [id], now) == Retry(AfterRetries(s, picks, now), id, now)
  {
    assert (picks + [id])[..|picks|] == picks;
  }

  lemma RelaysAreHeld(s: Client, r: Reply, now: Instant)
    requires r.Success? && r.lifetime.Some? && (FirstOf(r.relays, V4).Some? || FirstOf(r.relays, V6).Some?)
    ensures WithRelays(s, r, now).HasAllocation()
  {
  }

  lemma NextToRefresh(s: Client, n: B.Number, now: Instant)
    ensures ToRefresh(s, n, now)
            == if n > B.LAST_CHANNEL then [] else
               (if n in s.bindings.inner && s.bindings.inner[n].NeedsRefresh(now) && !s.BindInFlight(n) then [n]
                   else []) + ToRefresh(s, n + 1, now)
  {
  }

  class Allocation {
    const server: RelaySocket
    const channels: B.ChannelTable
    var active: Option<ActiveSocket>
    var srflx4: Option<Candidate>
    var srflx6: Option<Candidate>
    var relay4: Option<Candidate>
    var relay6: Option<Candidate>
    var lifetime: Option<(Instant, nat)>
    var transmits: seq<Transmit>
    var events: seq<Event>
    var sent: map<Tid, InFlight>
    var buffered: seq<Peer>
    var credentials: Option<bool>
    var failed: bool
    var nextTid: Tid
    ghost var taken: seq<Transmit> // the transmits picked up so far

    ghost function View(): Client
      reads this, channels
    {
      Client(server, active, srflx4, srflx6, relay4, relay6, lifetime, transmits, events, sent, channels.View(),
             buffered, credentials, failed, nextTid)
    }

    ghost predicate Valid()
      reads this, channels
    {
      Good(View(), taken)
    }

    constructor (server: RelaySocket, now: Instant)
      ensures Valid() && View() == Init(server, now) && taken == [] && fresh(channels)
    {
      this.server := server;
      channels := new B.ChannelTable();
      active, srflx4, srflx6, relay4, relay6, lifetime := None, None, None, None, None, None;
      transmits, events, sent, buffered := [], [], map[], [];
      credentials, failed, nextTid, taken := Some(false), false, 0, [];
      new;
      SendBindingRequestsKeepsGood(View(), now, []);
      SendBindingRequests(now);
    }

    method HasAllocation() returns (r: bool)
      ensures r == View().HasAllocation()
    {
      r := relay4.Some? || relay6.Some?;
    }

    // ---------- Sending ----------

    method Queue(dst: SocketAddr, tid: Tid, request: Request, backoff: Option<Backoff>, now: Instant)
      returns (queued: bool)
      modifies this`sent, this`transmits
      ensures (View(), queued) == TurnClient.Queue(old(View()), dst, tid, request, backoff, now)
    {
      var b := if backoff.Some? then backoff.value else Started(now);
      if b.IsExpired(now) { return false; }
      sent := sent[tid := InFlight(dst, request, b)];
      transmits := transmits + [Transmit(dst, tid, request)];
      queued := true;
    }

    method AuthenticateAndQueue(op: Op, origin: Tid, backoff: Option<Backoff>, now: Instant) returns (queued: bool)
      modifies this`sent, this`transmits, this`nextTid
      ensures (View(), queued) == TurnClient.AuthenticateAndQueue(old(View()), op, origin, backoff, now)
    {
      if active.None? { return false; }
      if credentials.None? { return false; }
      var tid := nextTid;
      nextTid := nextTid + 1;
      queued := Queue(active.value.addr, tid, Request(op, credentials.value, origin), backoff, now);
    }

    method Ask(op: Op, now: Instant)
      modifies this`sent, this`transmits, this`nextTid
      ensures View() == TurnClient.Ask(old(View()), op, now)
    {
      var _ := AuthenticateAndQueue(op, nextTid, None, now);
    }

    method AskBinding(dst: SocketAddr, now: Instant)
      modifies this`sent, this`transmits, this`nextTid
      ensures View() == TurnClient.AskBinding(old(View()), dst, now)
    {
      var tid := nextTid;
      nextTid := nextTid + 1;
      var _ := Queue(dst, tid, Request(Binding, false, tid), None, now);
    }

    method SendBindingRequests(now: Instant)
      modifies this`sent, this`transmits, this`nextTid
      ensures View() == TurnClient.SendBindingRequests(old(View()), now)
    {
      if !server.V6Only? { AskBinding(server.v4, now); }
      if !server.V4Only? { AskBinding(server.v6, now); }
    }

    method InvalidateAllocation()
      requires channels.Valid()
      modifies this, channels
      ensures channels.Valid() && View() == Invalidate(old(View())) && taken == old(taken)
    {
      if relay4.Some? {
        events := events + [Invalid(relay4.value)];
        relay4 := None;
      }
      if relay6.Some? {
        events := events + [Invalid(relay6.value)];
        relay6 := None;
      }
      channels.ClearAll();
      lifetime := None;
      sent := map[];
    }

    // ---------- Polling ----------

    method PollTimeout() returns (r: Option<Instant>)
      ensures View().IsPollTimeout(r)
    {
      r := None;
      var todo := sent.Keys;
      while todo != {}
        invariant todo <= sent.Keys
        invariant r.None? ==> todo == sent.Keys
        invariant r.Some? ==> exists id :: id in sent && sent[id].backoff.nextTrigger == r.value
        invariant r.Some? ==> forall id :: id in sent && id !in todo ==> r.value <= sent[id].backoff.nextTrigger
      {
        var id :| id in todo;
        todo := todo - {id};
        if r.None? || sent[id].backoff.nextTrigger < r.value { r := Some(sent[id].backoff.nextTrigger); }
      }
      if lifetime.Some? && !exists id :: id in sent && sent[id].request.op.Kind() == KRefresh {
        var refreshAt := lifetime.value.0 + lifetime.value.1 / 2;
        if r.None? || refreshAt < r.value { r := Some(refreshAt); }
      }
      if (relay4.Some? || relay6.Some?) && active.Some? {
        if r.None? || active.value.nextBinding < r.value { r := Some(active.value.nextBinding); }
      }
    }

    method IsSuspended() returns (r: bool)
      ensures r == View().IsSuspended()
    {
      var waiting := PollTimeout();
      r := relay4.None? && relay6.None? && sent == map[] && transmits == [] && waiting.None?;
    }

    method PollEvent() returns (event: Option<Event>)
      requires Valid()
      modifies this`events
      ensures Valid()
      ensures View() == old(View()).(events := events)
      ensures if event.Some? then old(events) == [event.value] + events else old(events) == [] == events
    {
      if events == [] { return None; }
      event := Some(events[0]);
      events := events[1..];
    }

    method PollTransmit() returns (transmit: Option<Transmit>)
      requires Valid()
      modifies this`transmits, this`taken
      ensures Valid()
      ensures View() == old(View()).(transmits := transmits)
      ensures taken + transmits == old(taken) + old(transmits)
      ensures if transmit.Some? then old(transmits) == [transmit.value] + transmits
              else old(transmits) == [] == transmits
    {
      if transmits == [] { return None; }
      transmit := Some(transmits[0]);
      taken := taken + [transmits[0]];
      transmits := transmits[1..];
      assert taken + transmits == old(taken) + old(transmits);
    }

    // ---------- What the node asks for ----------

    method RefreshAllocation(now: Instant)
      requires Valid()
      modifies this
      ensures Valid() && View() == TurnClient.RefreshAllocation(old(View()), now) && taken == old(taken)
    {
      RefreshKeepsGood(View(), now, taken);
      if relay4.None? && relay6.None? && exists id :: id in sent && sent[id].request.op.Kind() == KAllocate { return; }
      var suspended := IsSuspended();
      if suspended {
        active := None;
        SendBindingRequests(now);
        return;
      }
      Ask(Op.Refresh(false), now);
    }

    method BindChannel(peer: Peer, now: Instant)
      requires Valid()
      modifies this, channels
      ensures Valid() && View() == TurnClient.BindChannel(old(View()), peer, now) && taken == old(taken)
    {
      hide Good, Client.IsSuspended, B.ConnectedChannel, B.BoundChannel, B.NextNumber;
      GoodIsInv(View(), taken);
      BindChannelKeepsGood(View(), peer, now, taken);
      var suspended := IsSuspended();
      if suspended { return; }
      var connected := channels.ConnectedChannelToPeer(peer, now);
      if connected.Some? { return; }
      if (exists id :: id in sent && sent[id].request.op.ChannelBind? && sent[id].request.op.peer == peer)
          || peer in buffered {
        return;
      }
      if relay4.None? && relay6.None? {
        buffered := (if |buffered| < BUFFERED_BINDINGS then buffered else buffered[1..]) + [peer];
        return;
      }
      if !(if peer.Family() == V4 then relay4.Some? else relay6.Some?) { return; }
      var number := channels.NewChannelToPeer(peer, now);
      if number.None? { return; }
      Ask(ChannelBind(number.value, peer), now);
    }

    /** The channel to use for data to `peer`; without one, a channel is bound first. */
    method EncodeChannelDataHeader(peer: Peer, now: Instant) returns (r: Option<(SocketAddr, B.Number)>)
      requires Valid()
      modifies this, channels
      ensures Valid() && View() == Encode(old(View()), peer, now) && taken == old(taken)
      ensures r.Some? <==> old(active).Some? && B.ConnectedChannel(old(View()).bindings, peer, now).Some?
      ensures r.Some? ==> r.value.0 == old(active).value.addr
      ensures r.Some? ==> B.ConnectedChannel(old(View()).bindings, peer, now) == Some(r.value.1)
    {
      if active.None? { return None; }
      var connected := channels.ConnectedChannelToPeer(peer, now);
      if connected.Some? { return Some((active.value.addr, connected.value)); }
      BindChannel(peer, now);
      r := None;
    }

    /** Data on a confirmed channel comes from its peer, on the relay socket of the peer's family. */
    method DecapsulateData(from: SocketAddr, n: B.Number, now: Instant) returns (r: Option<(Peer, SocketAddr)>)
      requires Valid()
      modifies channels
      ensures Valid() && View() == DoDecapsulate(old(View()), from, n, now)
      ensures r == Decapsulate(old(View()), from, n)
      ensures r.None? ==> !(server.Matches(from) && n in old(channels.inner) && old(channels.inner)[n].bound)
    {
      if !server.Matches(from) { return None; }
      var peer := channels.TryDecode(n, now);
      if peer.None? { return None; }
      if peer.value.Family() == V4 {
        if relay4.None? { return None; }
        r := Some((peer.value, relay4.value.addr));
      } else {
        if relay6.None? { return None; }
        r := Some((peer.value, relay6.value.addr));
      }
    }

    // ---------- What the relay answers ----------

    /** Whether the message was for this allocation. */
    method HandleInput(from: SocketAddr, local: SocketAddr, m: Message, now: Instant) returns (handled: bool)
      requires Valid() && Founded(View(), from, m)
      modifies this, channels
      ensures Valid() && View() == TurnClient.HandleInput(old(View()), from, local, m, now) && taken == old(taken)
      ensures handled <==> server.Matches(from) && m.tid in old(sent)
    {
      hide Good, HandleError, HandleSuccess;
      InputKeepsGood(View(), from, local, m, now, taken);
      if !server.Matches(from) { return false; }
      if m.tid !in sent { return false; }
      if m.kind != KBinding && !m.integrity { return true; }
      var f := sent[m.tid];
      ForgettingKeepsGood(View(), m.tid, taken);
      InFlightHasSocket(View(), m.tid, taken);
      sent := sent - {m.tid};
      handled := true;
      match m.reply {
        case Error(code, nonce, foreignRealm) => HandleErrorReply(f.request, m.kind, m.reply, now);
        case Success(mapped, lifetime, relays) => HandleSuccessReply(f, local, m.kind, m.reply, now);
        case NeitherClass =>
      }
    }

    method HandleErrorReply(request: Request, kind: Kind, e: Reply, now: Instant)
      requires channels.Valid() && e.Error?
      modifies this, channels
      ensures channels.Valid() && View() == HandleError(old(View()), request, kind, e, now) && taken == old(taken)
    {
      hide Invalidate, Resync, Reauthenticate;
      if e.code == Unauthorized && request.nonce {
        credentials := None;
        InvalidateAllocation();
      } else if e.code == Unauthorized || e.code == StaleNonce {
        ReauthenticateWith(request, e, now);
      } else if e.code == AllocationMismatch {
        InvalidateAllocation();
        ResyncWith(request, kind, now);
      } else if e.code == UnknownAttribute {
        failed := true;
      } else if kind == KAllocate {
        buffered := [];
      } else if kind == KChannelBind && request.op.ChannelBind? {
        channels.HandleFailedBinding(request.op.number);
      }
    }

    method ReauthenticateWith(request: Request, e: Reply, now: Instant)
      requires e.Error?
      modifies this
      ensures View() == Reauthenticate(old(View()), request, e, now) && taken == old(taken)
    {
      if credentials.None? { return; }
      if e.nonce { credentials := Some(true); }
      if e.foreignRealm { return; }
      Ask(request.op, now);
    }

    method ResyncWith(request: Request, kind: Kind, now: Instant)
      modifies this
      ensures View() == Resync(old(View()), request, kind, now) && taken == old(taken)
    {
      match kind {
        case KAllocate => Ask(Op.Refresh(true), now);
        case KRefresh => Ask(Allocate, now);
        case KChannelBind =>
          Ask(Allocate, now);
          if request.op.ChannelBind? {
            buffered := (if |buffered| < BUFFERED_BINDINGS then buffered else buffered[1..]) + [request.op.peer];
          }
        case _ =>
      }
    }

    method HandleSuccessReply(f: InFlight, local: SocketAddr, kind: Kind, r: Reply, now: Instant)
      requires Valid() && r.Success?
      requires BringsLifetime(kind, r) ==> active.Some? && credentials.Some?
      modifies this, channels
      ensures Valid() && View() == HandleSuccess(old(View()), f, local, kind, r, now) && taken == old(taken)
    {
      SuccessKeepsGood(View(), f, local, kind, r, now, taken);
      match kind {
        case KBinding =>
          UpdateSrflxCandidate(f.dst, local, r);
          NominateSocket(f.dst, now);
        case KAllocate =>
          HandleAllocated(r, now);
        case KRefresh =>
          if r.lifetime.None? { return; }
          if r.lifetime.value == 0 {
            Ask(Allocate, now);
            return;
          }
          lifetime := Some((now, r.lifetime.value));
        case KChannelBind =>
          if f.request.op.ChannelBind? {
            var _ := channels.SetConfirmed(f.request.op.number, now);
          }
        case KOther =>
      }
    }

    method NominateSocket(dst: SocketAddr, now: Instant)
      modifies this`active, this`sent, this`transmits, this`nextTid
      ensures View() == Nominate(old(View()), dst, now)
    {
      if active.Some? { return; }
      active := Some(ActiveSocket(dst, now + BINDING_INTERVAL));
      if relay4.Some? || relay6.Some? {
        Ask(Op.Refresh(false), now);
      } else {
        Ask(Allocate, now);
      }
    }

    method UpdateSrflxCandidate(dst: SocketAddr, local: SocketAddr, r: Reply)
      requires r.Success?
      modifies this`srflx4, this`srflx6, this`events
      ensures View() == UpdateSrflx(old(View()), dst, local, r)
    {
      var offered := if r.mapped.Some? then Some(ServerReflexive(r.mapped.value, local)) else None;
      var told;
      if dst.Family() == V4 {
        srflx4, told := UpdatedCandidate(offered, srflx4);
      } else {
        srflx6, told := UpdatedCandidate(offered, srflx6);
      }
      events := events + told;
    }

    method HandleAllocated(r: Reply, now: Instant)
      requires Valid() && r.Success? && (BringsLifetime(KAllocate, r) ==> active.Some? && credentials.Some?)
      modifies this, channels
      ensures Valid() && View() == Allocated(old(View()), r, now) && taken == old(taken)
    {
      hide Good, BindBuffered, WithRelays;
      if r.lifetime.None? { return; }
      if FirstOf(r.relays, V4).None? && FirstOf(r.relays, V6).None? { return; }
      RelaysKeepGood(View(), r, now, taken);
      AdoptRelays(r, now);
      RelaysAreHeld(old(View()), r, now);
      DrainBuffered(now);
    }

    method AdoptRelays(r: Reply, now: Instant)
      requires r.Success? && r.lifetime.Some?
      modifies this
      ensures View() == WithRelays(old(View()), r, now) && taken == old(taken)
    {
      lifetime := Some((now, r.lifetime.value));
      var told;
      relay4, told := UpdatedCandidate(FirstOf(r.relays, V4), relay4);
      events := events + told;
      relay6, told := UpdatedCandidate(FirstOf(r.relays, V6), relay6);
      events := events + told;
    }

    method DrainBuffered(now: Instant)
      requires Valid() && View().HasAllocation()
      modifies this, channels
      ensures Valid() && View() == BindBuffered(old(View()), now) && taken == old(taken)
    {
      hide Good, TurnClient.BindChannel;
      while buffered != []
        invariant Valid() && taken == old(taken) && View().HasAllocation()
        invariant BindBuffered(View(), now) == BindBuffered(old(View()), now)
        decreases |buffered|
      {
        var peer := buffered[0];
        ghost var rest := View().(buffered := buffered[1..]);
        UnbufferingKeepsGood(View(), taken);
        buffered := buffered[1..];
        assert View() == rest;
        BindChannel(peer, now);
      }
    }

    // ---------- Time ----------

    method HandleTimeout(now: Instant) returns (ghost picks: seq<Tid>)
      requires Valid()
      modifies this, channels
      ensures Valid() && taken == old(taken)
      ensures RetriesAll(BeforeRetries(old(View()), now), picks, now)
      ensures View() == TurnClient.HandleTimeout(old(View()), now, picks)
    {
      hide Good, BeforeRetries, RefreshIfDue, ToRefresh, RefreshChannels;
      GoodIsInv(View(), taken);
      BeforeRetriesKeepsGood(View(), now, taken);
      DropAndKeepAlive(now);
      picks := RetryAll(now);
      StepBackoffs(now);
      TimeoutKeepsGood(old(View()), now, picks, taken);
      RefreshWhenDue(now);
      RefreshDueChannels(now);
    }

    method DropAndKeepAlive(now: Instant)
      requires channels.Valid()
      modifies this, channels
      ensures channels.Valid() && View() == BeforeRetries(old(View()), now) && taken == old(taken)
    {
      if lifetime.Some? && now >= lifetime.value.0 + lifetime.value.1 {
        InvalidateAllocation();
      }
      if (relay4.Some? || relay6.Some?) && active.Some? && now >= active.value.nextBinding {
        active := Some(active.value.(nextBinding := now + BINDING_INTERVAL));
        AskBinding(active.value.addr, now);
      }
    }

    /**
     Keeps picking a request that is due, in any order, until none is. It ends for every set of
     requests and every jump of the clock: each turn moves one request to the next level of its
     backoff, of which there are four, or removes requests.
     */
    method RetryAll(now: Instant) returns (ghost picks: seq<Tid>)
      requires Valid()
      modifies this, channels
      ensures Valid() && taken == old(taken)
      ensures RetriesAll(old(View()), picks, now) && View() == AfterRetries(old(View()), picks, now)
    {
      hide Good, TurnClient.Retry;
      picks := [];
      while exists id :: id in sent && sent[id].backoff.IsDue(now)
        invariant Valid() && taken == old(taken)
        invariant AreRetries(old(View()), picks, now) && View() == AfterRetries(old(View()), picks, now)
        decreases |AtLevel(sent, 0)|, |AtLevel(sent, 1)|, |AtLevel(sent, 2)|, |AtLevel(sent, 3)|
      {
        var id :| id in sent && sent[id].backoff.IsDue(now);
        ghost var s := View();
        GoodIsInv(s, taken);
        forall level: nat | level <= s.sent[id].backoff.Level()
          ensures |AtLevel(TurnClient.Retry(s, id, now).sent, level)| <= |AtLevel(s.sent, level)|
          ensures level == s.sent[id].backoff.Level() ==>
                    |AtLevel(TurnClient.Retry(s, id, now).sent, level)| < |AtLevel(s.sent, level)|
        {
          RetryDescends(s, id, now, level);
        }
        RetryKeepsGood(s, id, now, taken);
        RetriesSnoc(old(View()), picks, now, id);
        RetryOne(id, now);
        picks := picks + [id];
      }
    }

    method RetryOne(id: Tid, now: Instant)
      requires channels.Valid() && id in sent
      modifies this, channels
      ensures channels.Valid() && View() == TurnClient.Retry(old(View()), id, now) && taken == old(taken)
    {
      var f := sent[id];
      sent := sent - {id};
      var backoff := Some(f.backoff.Stepped(now));
      var queued;
      if f.request.op.Binding? {
        queued := Queue(f.dst, id, f.request, backoff, now);
      } else {
        queued := AuthenticateAndQueue(f.request.op, f.request.origin, backoff, now);
      }
      if !queued && active.Some? && active.value.addr.Family() == f.dst.Family() {
        active := None;
        InvalidateAllocation();
      }
    }

    /** After the retries no backoff is due, so this changes nothing. */
    method StepBackoffs(now: Instant)
      requires forall id :: !IsDue(View(), id, now)
      modifies this`sent
      ensures View() == old(View())
    {
      assert forall id :: id in sent ==> !IsDue(View(), id, now);
      sent := map id | id in sent :: sent[id].(backoff := sent[id].backoff.Stepped(now));
      assert sent == old(sent);
    }

    method RefreshWhenDue(now: Instant)
      modifies this`sent, this`transmits, this`nextTid
      ensures View() == RefreshIfDue(old(View()), now)
    {
      if lifetime.Some? && now >= lifetime.value.0 + lifetime.value.1 / 2
         && !exists id :: id in sent && sent[id].request.op.Kind() == KRefresh {
        Ask(Op.Refresh(false), now);
      }
    }

    method RefreshDueChannels(now: Instant)
      modifies this`sent, this`transmits, this`nextTid
      ensures forall n :: n in ToRefresh(old(View()), B.FIRST_CHANNEL, now) ==> n in channels.inner
      ensures View() == RefreshChannels(old(View()), ToRefresh(old(View()), B.FIRST_CHANNEL, now), now)
    {
      var numbers := ChannelsToRefresh(now);
      ToRefreshHeld(View(), B.FIRST_CHANNEL, now);
      while numbers != []
        invariant forall n :: n in numbers ==> n in channels.inner
        invariant RefreshChannels(View(), numbers, now)
                  == RefreshChannels(old(View()), ToRefresh(old(View()), B.FIRST_CHANNEL, now), now)
        decreases |numbers|
      {
        var n := numbers[0];
        numbers := numbers[1..];
        Ask(ChannelBind(n, channels.inner[n].peer), now);
      }
    }

    method ChannelsToRefresh(now: Instant) returns (numbers: seq<B.Number>)
      ensures numbers == ToRefresh(View(), B.FIRST_CHANNEL, now)
    {
      ghost var s := View();
      hide Client.BindInFlight, B.Channel.NeedsRefresh, ToRefresh;
      numbers := [];
      var n := B.FIRST_CHANNEL;
      while n <= B.LAST_CHANNEL
        invariant B.FIRST_CHANNEL <= n <= B.LAST_CHANNEL + 1
        invariant numbers + ToRefresh(s, n, now) == ToRefresh(s, B.FIRST_CHANNEL, now)
      {
        var asked := IsBindInFlight(n);
        NextToRefresh(s, n, now);
        if n in channels.inner && channels.inner[n].NeedsRefresh(now) && !asked {
          numbers := numbers + [n];
        }
        n := n + 1;
      }
      NextToRefresh(s, n, now);
    }

    method IsBindInFlight(n: B.Number) returns (r: bool)
      ensures r == View().BindInFlight(n)
    {
      r := exists id :: id in sent && sent[id].request.op.ChannelBind? && sent[id].request.op.number == n;
    }
  }

  /** An offered candidate takes the slot; the events say what changed. */
  method UpdatedCandidate(offered: Option<Candidate>, current: Option<Candidate>)
    returns (slot: Option<Candidate>, events: seq<Event>)
    ensures (slot, events) == UpdateCandidate(offered, current)
    ensures offered.Some? ==> slot == offered
    ensures slot == current <==> events == []
  {
    slot, events := current, [];
    if offered.Some? && current.Some? && offered != current {
      events := [New(offered.value), Invalid(current.value)];
      slot := offered;
    } else if offered.Some? && current.None? {
      slot := offered;
      events := [New(offered.value)];
    }
  }
}
