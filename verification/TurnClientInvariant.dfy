/** What every operation of the TURN client keeps. */
module TurnClientInvariant {
  import opened Common
  import opened Backoff
  import opened TurnClient
  import B = ChannelBindings

  ghost predicate OnlyBindings(sent: map<Tid, InFlight>) {
    forall id :: id in sent ==> sent[id].request.op.Binding?
  }

  predicate IsRelay(slot: Option<Candidate>, family: Family) {
    slot.Some? ==> slot.value.Relayed? && slot.value.addr.Family() == family
  }

  ghost predicate SentInv(sent: map<Tid, InFlight>, nextTid: Tid) {
    forall id :: id in sent ==> id < nextTid && sent[id].backoff.Valid()
  }

  ghost predicate ChannelsInv(s: Client) {
    s.bindings.Valid() && forall n :: n in s.bindings.inner ==> s.CanRelayTo(s.bindings.inner[n].peer)
  }

  /**
   A relay candidate comes with a lifetime, a lifetime with a socket and credentials; without those
   only BINDING requests are in flight; and every channel leads to a family we have a relay socket for.
   */
  ghost predicate Inv(s: Client) {
    && IsRelay(s.relay4, V4) && IsRelay(s.relay6, V6)
    && (s.HasAllocation() ==> s.lifetime.Some?)
    && (s.lifetime.Some? ==> s.active.Some? && s.credentials.Some?)
    && (s.active.None? || s.credentials.None? ==> OnlyBindings(s.sent))
    && ChannelsInv(s)
    && SentInv(s.sent, s.nextTid)
  }

  // ---------- Transmissions ----------

  /** How often the request that was first sent as `origin` appears in `history`. */
  function Times(history: seq<Transmit>, origin: Tid): nat {
    if history == [] then 0
    else Times(history[..|history| - 1], origin) + (if history[|history| - 1].request.origin == origin then 1 else 0)
  }

  /** A request in flight has been sent once plus once per trigger of its backoff; none more than four times. */
  ghost predicate Sends(sent: map<Tid, InFlight>, nextTid: Tid, history: seq<Transmit>) {
    && (forall id :: id in sent ==>
          sent[id].request.origin < nextTid && Times(history, sent[id].request.origin) == sent[id].backoff.Level() + 1)
    && (forall id, other :: id in sent && other in sent && sent[id].request.origin == sent[other].request.origin ==>
       id == other)
    && (forall origin :: Times(history, origin) <= 4 && (nextTid <= origin ==> Times(history, origin) == 0))
  }

  /** `taken` are the transmits already picked up. */
  ghost predicate Good(s: Client, taken: seq<Transmit>) {
    Inv(s) && Sends(s.sent, s.nextTid, taken + s.transmits)
  }

  lemma TimesSnoc(history: seq<Transmit>, t: Transmit, origin: Tid)
    ensures Times(history + [t], origin) == Times(history, origin) + (if t.request.origin == origin then 1 else 0)
  {
    assert (history + [t])[..|history|] == history;
  }

  /** A new request, its own origin, under a new id. */
  lemma FreshSends(sent: map<Tid, InFlight>, tid: Tid, history: seq<Transmit>, t: Transmit, now: Instant)
    requires Sends(sent, tid, history) && t.request.origin == tid && t.tid == tid && tid !in sent
    ensures Sends(sent[tid := InFlight(t.dst, t.request, Started(now))], tid + 1, history + [t])
  {
    forall origin: Tid
      ensures Times(history + [t], origin) == Times(history, origin) + (if tid == origin then 1 else 0)
    {
      TimesSnoc(history, t, origin);
    }
  }

  lemma FewerSends(sent: map<Tid, InFlight>, nextTid: Tid, history: seq<Transmit>, gone: set<Tid>)
    requires Sends(sent, nextTid, history)
    ensures Sends(sent - gone, nextTid, history)
  {
  }

  /** The request under `id`, sent again under `again` one level up. */
  lemma RepeatedSends(sent: map<Tid, InFlight>, nextTid: Tid, history: seq<Transmit>, id: Tid, again: Tid, t: Transmit,
                      backoff: Backoff, next: Tid)
    requires Sends(sent, nextTid, history) && id in sent && t.request.origin == sent[id].request.origin
    requires again == id || again !in sent
    requires nextTid <= next && backoff.Level() == sent[id].backoff.Level() + 1 && backoff.Level() <= 3
    ensures Sends((sent - {id})[again := InFlight(t.dst, t.request, backoff)], next, history + [t])
  {
    forall origin: Tid
      ensures Times(history + [t], origin) == Times(history, origin) + (if t.request.origin == origin then 1 else 0)
    {
      TimesSnoc(history, t, origin);
    }
  }

  lemma AskKeepsInv(s: Client, op: Op, now: Instant)
    requires Inv(s)
    ensures Inv(Ask(s, op, now))
  {
  }

  lemma AskKeepsGood(s: Client, op: Op, now: Instant, taken: seq<Transmit>)
    requires Good(s, taken)
    ensures Good(Ask(s, op, now), taken)
  {
    AskKeepsInv(s, op, now);
    assert s.nextTid !in s.sent;
    hide Inv, Sends;
    var v := Ask(s, op, now);
    if s.active.Some? && s.credentials.Some? {
      var t := Transmit(s.active.value.addr, s.nextTid, Request(op, s.credentials.value, s.nextTid));
      FreshSends(s.sent, s.nextTid, taken + s.transmits, t, now);
      assert taken + v.transmits == taken + s.transmits + [t];
    }
  }

  lemma AskBindingKeepsGood(s: Client, dst: SocketAddr, now: Instant, taken: seq<Transmit>)
    requires Good(s, taken)
    ensures Good(AskBinding(s, dst, now), taken)
  {
    var t := Transmit(dst, s.nextTid, Request(Binding, false, s.nextTid));
    FreshSends(s.sent, s.nextTid, taken + s.transmits, t, now);
    assert taken + AskBinding(s, dst, now).transmits == taken + s.transmits + [t];
  }

  lemma SendBindingRequestsKeepsGood(s: Client, now: Instant, taken: seq<Transmit>)
    requires Good(s, taken)
    ensures Good(SendBindingRequests(s, now), taken)
  {
    if !s.server.V6Only? {
      AskBindingKeepsGood(s, s.server.v4, now, taken);
    }
    if !s.server.V4Only? {
      AskBindingKeepsGood(if s.server.V6Only? then s else AskBinding(s, s.server.v4, now), s.server.v6, now, taken);
    }
  }

  /** Whatever the state was, invalidating it leaves nothing that could be inconsistent. */
  lemma InvalidateRestoresGood(s: Client, taken: seq<Transmit>)
    requires s.bindings.Valid() && Sends(s.sent, s.nextTid, taken + s.transmits)
    ensures Good(Invalidate(s), taken)
  {
  }

  lemma BindChannelKeepsGood(s: Client, peer: Peer, now: Instant, taken: seq<Transmit>)
    requires Good(s, taken)
    ensures Good(BindChannel(s, peer, now), taken)
  {
    var (bindings, number) := B.NewChannel(s.bindings, peer, now);
    if number.Some? && s.CanRelayTo(peer) {
      NewChannelKeepsInv(s, peer, now);
      hide Inv, Sends, Ask;
      AskKeepsGood(s.(bindings := bindings), ChannelBind(number.value, peer), now, taken);
    } else {
      hide Inv, Sends, Ask;
      BufferingKeepsGood(s, peer, taken);
    }
  }

  lemma NewChannelKeepsInv(s: Client, peer: Peer, now: Instant)
    requires Inv(s) && s.CanRelayTo(peer)
    ensures Inv(s.(bindings := B.NewChannel(s.bindings, peer, now).0))
  {
    B.NextIsFirstAvailable(s.bindings, now);
  }

  lemma BufferingKeepsGood(s: Client, peer: Peer, taken: seq<Transmit>)
    requires Good(s, taken)
    ensures Good(Buffer(s, peer), taken)
  {
    hide Sends;
  }

  lemma {:induction false} BindBufferedKeepsGood(s: Client, now: Instant, taken: seq<Transmit>)
    requires Good(s, taken) && s.HasAllocation()
    ensures Good(BindBuffered(s, now), taken)
    decreases |s.buffered|
  {
    if s.buffered != [] {
      var rest := s.(buffered := s.buffered[1..]);
      assert Good(rest, taken);
      BindChannelKeepsGood(rest, s.buffered[0], now, taken);
      BindBufferedKeepsGood(BindChannel(rest, s.buffered[0], now), now, taken);
    }
  }

  lemma RefreshKeepsGood(s: Client, now: Instant, taken: seq<Transmit>)
    requires Good(s, taken)
    ensures Good(RefreshAllocation(s, now), taken)
  {
    if s.IsSuspended() {
      NotWaiting(s);
      SendBindingRequestsKeepsGood(s.(active := None), now, taken);
    }
    AskKeepsGood(s, Op.Refresh(false), now, taken);
  }

  /** A suspended client has no lifetime recorded: otherwise it would wait for its refresh. */
  lemma NotWaiting(s: Client)
    requires s.IsSuspended()
    ensures s.lifetime.None?
  {
    if s.lifetime.Some? {
      assert s.IsDeadline(s.RefreshAt().value);
    }
  }

  // ---------- Input ----------

  lemma ForgettingKeepsGood(s: Client, tid: Tid, taken: seq<Transmit>)
    requires Good(s, taken)
    ensures Good(s.(sent := s.sent - {tid}), taken)
  {
    FewerSends(s.sent, s.nextTid, taken + s.transmits, {tid});
  }

  lemma ReauthenticateKeepsGood(s: Client, request: Request, e: Reply, now: Instant, taken: seq<Transmit>)
    requires Good(s, taken) && e.Error?
    ensures Good(Reauthenticate(s, request, e, now), taken)
  {
    if s.credentials.Some? {
      var informed := if e.nonce then s.(credentials := Some(true)) else s;
      assert Good(informed, taken);
      AskKeepsGood(informed, request.op, now, taken);
    }
  }

  lemma ResyncKeepsGood(s: Client, request: Request, kind: Kind, now: Instant, taken: seq<Transmit>)
    requires Good(s, taken)
    ensures Good(Resync(s, request, kind, now), taken)
  {
    match kind
    case KAllocate => AskKeepsGood(s, Op.Refresh(true), now, taken);
    case _ => AskKeepsGood(s, Allocate, now, taken);
  }

  lemma ErrorKeepsGood(s: Client, request: Request, kind: Kind, e: Reply, now: Instant, taken: seq<Transmit>)
    requires Good(s, taken) && e.Error?
    ensures Good(HandleError(s, request, kind, e, now), taken)
  {
    match e.code
    case Unauthorized =>
      InvalidateRestoresGood(s.(credentials := None), taken);
      ReauthenticateKeepsGood(s, request, e, now, taken);
    case StaleNonce => ReauthenticateKeepsGood(s, request, e, now, taken);
    case AllocationMismatch =>
      InvalidateRestoresGood(s, taken);
      ResyncKeepsGood(Invalidate(s), request, kind, now, taken);
    case _ =>
  }

  lemma SrflxKeepsGood(s: Client, dst: SocketAddr, local: SocketAddr, r: Reply, taken: seq<Transmit>)
    requires Good(s, taken) && r.Success?
    ensures Good(UpdateSrflx(s, dst, local, r), taken)
  {
  }

  lemma RelaysKeepGood(s: Client, r: Reply, now: Instant, taken: seq<Transmit>)
    requires Good(s, taken) && r.Success? && r.lifetime.Some? && s.active.Some? && s.credentials.Some?
    ensures Good(WithRelays(s, r, now), taken)
  {
  }

  lemma SuccessKeepsGood(s: Client, f: InFlight, local: SocketAddr, kind: Kind, r: Reply, now: Instant,
                         taken: seq<Transmit>)
    requires Good(s, taken) && r.Success?
    requires BringsLifetime(kind, r) ==> s.active.Some? && s.credentials.Some?
    ensures Good(HandleSuccess(s, f, local, kind, r, now), taken)
  {
    match kind
    case KBinding =>
      SrflxKeepsGood(s, f.dst, local, r, taken);
      NominateKeepsGood(UpdateSrflx(s, f.dst, local, r), f.dst, now, taken);
    case KAllocate =>
      if r.lifetime.Some? && (FirstOf(r.relays, V4).Some? || FirstOf(r.relays, V6).Some?) {
        RelaysKeepGood(s, r, now, taken);
        BindBufferedKeepsGood(WithRelays(s, r, now), now, taken);
      }
    case KRefresh => AskKeepsGood(s, Allocate, now, taken);
    case _ =>
  }

  lemma NominateKeepsGood(s: Client, dst: SocketAddr, now: Instant, taken: seq<Transmit>)
    requires Good(s, taken)
    ensures Good(Nominate(s, dst, now), taken)
  {
    if s.active.None? {
      var nominated := s.(active := Some(ActiveSocket(dst, now + BINDING_INTERVAL)));
      AskKeepsGood(nominated, if s.HasAllocation() then Op.Refresh(false) else Allocate, now, taken);
    }
  }

  lemma InputKeepsGood(s: Client, from: SocketAddr, local: SocketAddr, m: Message, now: Instant, taken: seq<Transmit>)
    requires Good(s, taken) && Founded(s, from, m)
    ensures Good(HandleInput(s, from, local, m, now), taken)
  {
    if Accepts(s, from, m) {
      var rest := s.(sent := s.sent - {m.tid});
      ForgettingKeepsGood(s, m.tid, taken);
      if m.reply.Error? {
        ErrorKeepsGood(rest, s.sent[m.tid].request, m.kind, m.reply, now, taken);
      } else if m.reply.Success? {
        SuccessKeepsGood(rest, s.sent[m.tid], local, m.kind, m.reply, now, taken);
      }
    }
  }

  /** A success with the method of the request it answers is always founded. */
  lemma SameMethodIsFounded(s: Client, from: SocketAddr, m: Message)
    requires Inv(s) && (Accepts(s, from, m) && m.reply.Success? ==> m.kind == s.sent[m.tid].request.op.Kind())
    ensures Founded(s, from, m)
  {
  }

  lemma {:induction false} BindBufferedKeepsBasis(s: Client, now: Instant)
    requires s.HasAllocation()
    ensures var v := BindBuffered(s, now);
            v.lifetime == s.lifetime && v.active == s.active && v.credentials == s.credentials
    decreases |s.buffered|
  {
    if s.buffered != [] {
      BindBufferedKeepsBasis(BindChannel(s.(buffered := s.buffered[1..]), s.buffered[0], now), now);
    }
  }

  /** An answer keeps the client consistent if and only if it is founded. */
  lemma FoundedExactly(s: Client, from: SocketAddr, local: SocketAddr, m: Message, now: Instant, taken: seq<Transmit>)
    requires Good(s, taken)
    ensures Inv(HandleInput(s, from, local, m, now)) <==> Founded(s, from, m)
  {
    if Founded(s, from, m) {
      InputKeepsGood(s, from, local, m, now, taken);
    } else if m.kind == KAllocate {
      BindBufferedKeepsBasis(WithRelays(s.(sent := s.sent - {m.tid}), m.reply, now), now);
    }
  }

  // ---------- Time ----------

  /** Sending a request once more. */
  lemma ResendKeepsGood(s: Client, id: Tid, again: Tid, t: Transmit, now: Instant, taken: seq<Transmit>)
    requires Good(s, taken) && IsDue(s, id, now) && !s.sent[id].backoff.IsExpired(now)
    requires again == id || again == s.nextTid
    requires t.request.origin == s.sent[id].request.origin
    requires !t.request.op.Binding? ==> s.active.Some? && s.credentials.Some?
    ensures Good(Resent(s, id, again, t, now), taken)
  {
    var v := Resent(s, id, again, t, now);
    StepClimbs(s.sent[id].backoff, now);
    RepeatedSends(s.sent, s.nextTid, taken + s.transmits, id, again, t, s.sent[id].backoff.Stepped(now), v.nextTid);
    assert taken + v.transmits == taken + s.transmits + [t];
    assert SentInv(v.sent, v.nextTid);
    assert ChannelsInv(v);
  }

  function Resent(s: Client, id: Tid, again: Tid, t: Transmit, now: Instant): Client
    requires id in s.sent
  {
    s.(sent := (s.sent - {id})[again := InFlight(t.dst, t.request, s.sent[id].backoff.Stepped(now))],
       transmits := s.transmits + [t], nextTid := if again == id then s.nextTid else s.nextTid + 1)
  }

  lemma GivingUpKeepsGood(s: Client, id: Tid, next: Tid, taken: seq<Transmit>)
    requires Good(s, taken) && s.nextTid <= next
    ensures Good(s.(sent := s.sent - {id}, nextTid := next), taken)
    ensures Good(Invalidate(s.(sent := s.sent - {id}, nextTid := next, active := None)), taken)
  {
    FewerSends(s.sent, s.nextTid, taken + s.transmits, {id});
    InvalidateRestoresGood(s.(sent := s.sent - {id}, nextTid := next, active := None), taken);
  }

  /** A retry sends the request again, or gives it up. */
  lemma RetryIs(s: Client, id: Tid, now: Instant)
    requires IsDue(s, id, now) && s.sent[id].backoff.Valid() && id < s.nextTid
    ensures var f := s.sent[id];
            var v := Retry(s, id, now);
            || (&& !f.backoff.IsExpired(now) && f.request.op.Binding?
                && v == Resent(s, id, id, Transmit(f.dst, id, f.request), now))
            || (&& !f.backoff.IsExpired(now) && s.active.Some? && s.credentials.Some?
                && v == Resent(s, id, s.nextTid,
                               Transmit(s.active.value.addr, s.nextTid,
                                        Request(f.request.op, s.credentials.value, f.request.origin)), now))
            || (&& s.nextTid <= v.nextTid
                && (|| v == s.(sent := s.sent - {id}, nextTid := v.nextTid)
                    || v == Invalidate(s.(sent := s.sent - {id}, nextTid := v.nextTid, active := None))))
  {
    StepClimbs(s.sent[id].backoff, now);
  }

  lemma RetryKeepsGood(s: Client, id: Tid, now: Instant, taken: seq<Transmit>)
    requires Good(s, taken) && IsDue(s, id, now)
    ensures Good(Retry(s, id, now), taken)
  {
    hide Retry, Good, Resent, Invalidate;
    GoodHasValidBackoff(s, id, taken);
    RetryIs(s, id, now);
    var f := s.sent[id];
    var v := Retry(s, id, now);
    if s.nextTid <= v.nextTid {
      GivingUpKeepsGood(s, id, v.nextTid, taken);
    }
    if !f.backoff.IsExpired(now) {
      if f.request.op.Binding? {
        ResendKeepsGood(s, id, id, Transmit(f.dst, id, f.request), now, taken);
      }
      if s.active.Some? && s.credentials.Some? {
        var request := Request(f.request.op, s.credentials.value, f.request.origin);
        ResendKeepsGood(s, id, s.nextTid, Transmit(s.active.value.addr, s.nextTid, request), now, taken);
      }
    }
  }

  lemma GoodHasValidBackoff(s: Client, id: Tid, taken: seq<Transmit>)
    requires Good(s, taken) && id in s.sent
    ensures s.sent[id].backoff.Valid() && id < s.nextTid
  {
  }

  lemma {:induction false} RetriesKeepGood(s: Client, picks: seq<Tid>, now: Instant, taken: seq<Transmit>)
    requires Good(s, taken) && AreRetries(s, picks, now)
    ensures Good(AfterRetries(s, picks, now), taken)
    decreases |picks|
  {
    if picks != [] {
      RetriesKeepGood(s, picks[..|picks| - 1], now, taken);
      RetryKeepsGood(AfterRetries(s, picks[..|picks| - 1], now), picks[|picks| - 1], now, taken);
    }
  }

  lemma BeforeRetriesKeepsGood(s: Client, now: Instant, taken: seq<Transmit>)
    requires Good(s, taken)
    ensures Good(BeforeRetries(s, now), taken)
  {
    InvalidateRestoresGood(s, taken);
    var kept := DropExpired(s, now);
    assert Good(kept, taken);
    if kept.active.Some? {
      var ticked := kept.(active := Some(ActiveSocket(kept.active.value.addr, now + BINDING_INTERVAL)));
      assert Good(ticked, taken);
      AskBindingKeepsGood(ticked, kept.active.value.addr, now, taken);
    }
  }

  lemma {:induction false} RefreshChannelsKeepsGood(s: Client, numbers: seq<B.Number>, now: Instant,
                                                    taken: seq<Transmit>)
    requires Good(s, taken) && forall n :: n in numbers ==> n in s.bindings.inner
    ensures Good(RefreshChannels(s, numbers, now), taken)
    decreases |numbers|
  {
    if numbers != [] {
      var op := ChannelBind(numbers[0], s.bindings.inner[numbers[0]].peer);
      AskKeepsGood(s, op, now, taken);
      RefreshChannelsKeepsGood(Ask(s, op, now), numbers[1..], now, taken);
    }
  }

  lemma TimeoutKeepsGood(s: Client, now: Instant, picks: seq<Tid>, taken: seq<Transmit>)
    requires Good(s, taken) && RetriesAll(BeforeRetries(s, now), picks, now)
    ensures Good(HandleTimeout(s, now, picks), taken)
  {
    BeforeRetriesKeepsGood(s, now, taken);
    RetriesKeepGood(BeforeRetries(s, now), picks, now, taken);
    var retried := AfterRetries(BeforeRetries(s, now), picks, now);
    AskKeepsGood(retried, Op.Refresh(false), now, taken);
    var refreshed := RefreshIfDue(retried, now);
    ToRefreshHeld(refreshed, B.FIRST_CHANNEL, now);
    RefreshChannelsKeepsGood(refreshed, ToRefresh(refreshed, B.FIRST_CHANNEL, now), now, taken);
  }
}
