/**
 Whole runs of the TURN client: any sequence of requests by its node, answers from the relay, clock
 readings and pick-ups of events and transmits.
 */
module TurnClientRuns {
  import opened Common
  import opened TurnClient
  import opened TurnClientInvariant
  import B = ChannelBindings

  datatype Input =
    | Renew
    | Receive(from: SocketAddr, local: SocketAddr, message: Message)
    | Tick(picks: seq<Tid>)
    | Bind(peer: Peer)
    | Send(peer: Peer)
    | Data(from: SocketAddr, number: B.Number)
    | TakeEvent
    | TakeTransmit

  datatype Run = Start(server: RelaySocket, at: Instant) | Then(before: Run, input: Input, at: Instant)

  ghost predicate Enabled(s: Client, i: Input, now: Instant) {
    match i
    case Receive(from, _, m) => Founded(s, from, m)
    case Tick(picks) => RetriesAll(BeforeRetries(s, now), picks, now)
    case _ => true
  }

  ghost function Step(s: Client, i: Input, now: Instant): Client
    requires Enabled(s, i, now)
  {
    match i
    case Renew => RefreshAllocation(s, now)
    case Receive(from, local, m) => HandleInput(s, from, local, m, now)
    case Tick(picks) => HandleTimeout(s, now, picks)
    case Bind(peer) => BindChannel(s, peer, now)
    case Send(peer) => Encode(s, peer, now)
    case Data(from, n) => DoDecapsulate(s, from, n, now)
    case TakeEvent => if s.events == [] then s else s.(events := s.events[1..])
    case TakeTransmit => if s.transmits == [] then s else s.(transmits := s.transmits[1..])
  }

  ghost predicate IsRun(run: Run)
    decreases run, 0
  {
    match run
    case Start(_, _) => true
    case Then(before, i, now) => IsRun(before) && Enabled(State(before), i, now)
  }

  ghost function State(run: Run): Client
    requires IsRun(run)
    decreases run, 1
  {
    match run
    case Start(server, now) => Init(server, now)
    case Then(before, i, now) => Step(State(before), i, now)
  }

  lemma StepKeepsGood(s: Client, i: Input, now: Instant, taken: seq<Transmit>)
    requires Good(s, taken) && Enabled(s, i, now) && !i.TakeTransmit?
    ensures Good(Step(s, i, now), taken)
  {
    match i
    case Renew => RefreshKeepsGood(s, now, taken);
    case Receive(from, local, m) => InputKeepsGood(s, from, local, m, now, taken);
    case Tick(picks) => TimeoutKeepsGood(s, now, picks, taken);
    case Bind(peer) => BindChannelKeepsGood(s, peer, now, taken);
    case Send(peer) => BindChannelKeepsGood(s, peer, now, taken);
    case _ =>
  }

  /** The transmits picked up in a run. */
  ghost function TakenTransmits(run: Run): seq<Transmit>
    requires IsRun(run)
  {
    match run
    case Start(_, _) => []
    case Then(before, i, _) =>
      if i.TakeTransmit? && State(before).transmits != [] then TakenTransmits(before) + [State(before).transmits[0]]
      else TakenTransmits(before)
  }

  lemma InitIsGood(server: RelaySocket, now: Instant)
    ensures Good(Init(server, now), [])
  {
    var blank := Client(server, None, None, None, None, None, None, [], [], map[], B.NO_BINDINGS, [], Some(false),
        false, 0);
    SendBindingRequestsKeepsGood(blank, now, []);
    hide SendBindingRequests, Good;
  }

  /** Picking up a transmit changes neither the client nor what was sent. */
  lemma TakingKeepsGood(s: Client, now: Instant, taken: seq<Transmit>)
    requires Good(s, taken)
    ensures Good(Step(s, TakeTransmit, now), if s.transmits == [] then taken else taken + [s.transmits[0]])
  {
    hide Sends;
    if s.transmits != [] {
      assert taken + [s.transmits[0]] + s.transmits[1..] == taken + s.transmits;
    }
  }

  lemma {:induction false} ReachableGood(run: Run)
    requires IsRun(run)
    ensures Good(State(run), TakenTransmits(run))
  {
    hide Good, Step, Init, Enabled;
    match run
    case Start(server, now) => InitIsGood(server, now);
    case Then(before, i, now) =>
      ReachableGood(before);
      if i.TakeTransmit? {
        TakingKeepsGood(State(before), now, TakenTransmits(before));
      } else {
        StepKeepsGood(State(before), i, now, TakenTransmits(before));
      }
  }

  /** Every reachable client is consistent. */
  lemma ReachableInv(run: Run)
    requires IsRun(run)
    ensures Inv(State(run))
  {
    ReachableGood(run);
  }

  /**
   A request that gets no answer is transmitted at most four times: while it is in flight, once plus
   once per trigger of its backoff, and never again after it was dropped.
   */
  lemma AtMostFourTransmissions(run: Run, origin: Tid)
    requires IsRun(run)
    ensures var history := TakenTransmits(run) + State(run).transmits;
            && Times(history, origin) <= 4
            && (forall id :: id in State(run).sent && State(run).sent[id].request.origin == origin ==>
                  Times(history, origin) == State(run).sent[id].backoff.Level() + 1)
  {
    ReachableGood(run);
  }

  /** Channel data that decodes is never dropped: the relay socket its peer used is always known. */
  lemma DecapsulateNeverDrops(run: Run, from: SocketAddr, n: B.Number)
    requires IsRun(run) && State(run).server.Matches(from)
    requires n in State(run).bindings.inner && State(run).bindings.inner[n].bound
    ensures var r := Decapsulate(State(run), from, n);
            r.Some? && r.value.0 == State(run).bindings.inner[n].peer && r.value.1.Family() == r.value.0.Family()
  {
    ReachableInv(run);
  }

  /** A client that still has to find out which socket to use never has an allocation to refresh. */
  lemma NominatedWithoutAllocation(run: Run, dst: SocketAddr, now: Instant)
    requires IsRun(run) && State(run).active.None?
    ensures !State(run).HasAllocation()
    ensures Nominate(State(run), dst, now)
            == Ask(State(run).(active := Some(ActiveSocket(dst, now + BINDING_INTERVAL))), Allocate, now)
  {
    ReachableInv(run);
  }

  // ---------- The candidate ledger ----------

  function In(slot: Option<Candidate>, c: Candidate): int { if slot == Some(c) then 1 else 0 }

  /** How many of the four slots hold `c`. */
  function HeldTimes(s: Client, c: Candidate): int {
    In(s.srflx4, c) + In(s.srflx6, c) + In(s.relay4, c) + In(s.relay6, c)
  }

  /** How often `events` announce `c`, less how often they withdraw it. */
  function Balance(events: seq<Event>, c: Candidate): int {
    if events == [] then 0 else
    var before := Balance(events[..|events| - 1], c);
    if events[|events| - 1] == New(c) then before + 1
    else if events[|events| - 1] == Invalid(c) then before - 1
    else before
  }

  lemma {:induction false} BalanceConcat(a: seq<Event>, b: seq<Event>, c: Candidate)
    ensures Balance(a + b, c) == Balance(a, c) + Balance(b, c)
    decreases |b|
  {
    if b == [] {
      assert a + b == a;
    } else {
      BalanceConcat(a, b[..|b| - 1], c);
      assert (a + b)[..|a + b| - 1] == a + b[..|b| - 1];
    }
  }

  /** From `s` to `v`, exactly the change in held candidates is announced. */
  ghost predicate Announced(s: Client, v: Client, c: Candidate) {
    Balance(v.events, c) - Balance(s.events, c) == HeldTimes(v, c) - HeldTimes(s, c)
  }

  lemma InvalidateAnnounced(s: Client, c: Candidate)
    ensures Announced(s, Invalidate(s), c)
  {
    Withdrawn(s.relay4, c);
    Withdrawn(s.relay6, c);
    hide Balance, InvalidEvents;
    BalanceConcat(s.events, InvalidEvents(s.relay4), c);
    BalanceConcat(s.events + InvalidEvents(s.relay4), InvalidEvents(s.relay6), c);
  }

  lemma Withdrawn(slot: Option<Candidate>, c: Candidate)
    ensures Balance(InvalidEvents(slot), c) == -In(slot, c)
  {
    if slot.Some? { assert [Invalid(slot.value)][..0] == []; }
  }

  lemma UpdateAnnounced(before: seq<Event>, offered: Option<Candidate>, current: Option<Candidate>, c: Candidate)
    ensures var (slot, events) := UpdateCandidate(offered, current);
            Balance(before + events, c) - Balance(before, c) == In(slot, c) - In(current, c)
  {
    var (slot, events) := UpdateCandidate(offered, current);
    BalanceConcat(before, events, c);
    if |events| == 2 {
      assert events[..1] == [events[0]];
      assert Balance([events[0]], c) == if events[0] == New(c) then 1 else 0;
    }
  }

  lemma SrflxAnnounced(s: Client, dst: SocketAddr, local: SocketAddr, r: Reply, c: Candidate)
    requires r.Success?
    ensures Announced(s, UpdateSrflx(s, dst, local, r), c)
  {
    var offered := if r.mapped.Some? then Some(ServerReflexive(r.mapped.value, local)) else None;
    UpdateAnnounced(s.events, offered, if dst.Family() == V4 then s.srflx4 else s.srflx6, c);
  }

  lemma RelaysAnnounced(s: Client, r: Reply, now: Instant, c: Candidate)
    requires r.Success? && r.lifetime.Some?
    ensures Announced(s, WithRelays(s, r, now), c)
  {
    var events4 := UpdateCandidate(FirstOf(r.relays, V4), s.relay4).1;
    UpdateAnnounced(s.events, FirstOf(r.relays, V4), s.relay4, c);
    UpdateAnnounced(s.events + events4, FirstOf(r.relays, V6), s.relay6, c);
  }

  /** Nothing a node would notice: same candidates, same events. */
  predicate Quiet(s: Client, v: Client) {
    v.events == s.events && v.srflx4 == s.srflx4 && v.srflx6 == s.srflx6 && v.relay4 == s.relay4 && v.relay6 == s.relay6
  }

  lemma AskIsQuiet(s: Client, op: Op, now: Instant)
    ensures Quiet(s, Ask(s, op, now))
  {
  }

  lemma SendingIsQuiet(s: Client, now: Instant)
    ensures Quiet(s, SendBindingRequests(s, now))
  {
  }

  lemma BindIsQuiet(s: Client, peer: Peer, now: Instant)
    ensures Quiet(s, BindChannel(s, peer, now))
  {
  }

  lemma {:induction false} BindBufferedIsQuiet(s: Client, now: Instant)
    requires s.HasAllocation()
    ensures Quiet(s, BindBuffered(s, now))
    decreases |s.buffered|
  {
    if s.buffered != [] {
      var rest := s.(buffered := s.buffered[1..]);
      BindIsQuiet(rest, s.buffered[0], now);
      BindBufferedIsQuiet(BindChannel(rest, s.buffered[0], now), now);
    }
  }

  lemma ReauthenticateIsQuiet(s: Client, request: Request, e: Reply, now: Instant)
    requires e.Error?
    ensures Quiet(s, Reauthenticate(s, request, e, now))
  {
  }

  lemma ResyncIsQuiet(s: Client, request: Request, kind: Kind, now: Instant)
    ensures Quiet(s, Resync(s, request, kind, now))
  {
    match kind
    case KAllocate => AskIsQuiet(s, Op.Refresh(true), now);
    case _ => AskIsQuiet(s, Allocate, now);
  }

  lemma NominateIsQuiet(s: Client, dst: SocketAddr, now: Instant)
    ensures Quiet(s, Nominate(s, dst, now))
  {
  }

  lemma ErrorAnnounced(s: Client, request: Request, kind: Kind, e: Reply, now: Instant, c: Candidate)
    requires e.Error?
    ensures Announced(s, HandleError(s, request, kind, e, now), c)
  {
    match e.code
    case Unauthorized =>
      InvalidateAnnounced(s.(credentials := None), c);
      ReauthenticateIsQuiet(s, request, e, now);
    case StaleNonce => ReauthenticateIsQuiet(s, request, e, now);
    case AllocationMismatch =>
      InvalidateAnnounced(s, c);
      ResyncIsQuiet(Invalidate(s), request, kind, now);
    case _ =>
  }

  lemma AllocatedAnnounced(s: Client, r: Reply, now: Instant, c: Candidate)
    requires r.Success?
    ensures Announced(s, Allocated(s, r, now), c)
  {
    if r.lifetime.Some? && (FirstOf(r.relays, V4).Some? || FirstOf(r.relays, V6).Some?) {
      RelaysAnnounced(s, r, now, c);
      BindBufferedIsQuiet(WithRelays(s, r, now), now);
    }
  }

  lemma SuccessAnnounced(s: Client, f: InFlight, local: SocketAddr, kind: Kind, r: Reply, now: Instant, c: Candidate)
    requires r.Success?
    ensures Announced(s, HandleSuccess(s, f, local, kind, r, now), c)
  {
    hide UpdateSrflx, Nominate, Allocated, Balance;
    match kind
    case KBinding =>
      SrflxAnnounced(s, f.dst, local, r, c);
      NominateIsQuiet(UpdateSrflx(s, f.dst, local, r), f.dst, now);
    case KAllocate => AllocatedAnnounced(s, r, now, c);
    case KRefresh => AskIsQuiet(s, Allocate, now);
    case _ =>
  }

  lemma {:induction false} RetriesAnnounced(s: Client, picks: seq<Tid>, now: Instant, c: Candidate)
    requires AreRetries(s, picks, now)
    ensures Announced(s, AfterRetries(s, picks, now), c)
    decreases |picks|
  {
    if picks != [] {
      RetriesAnnounced(s, picks[..|picks| - 1], now, c);
      RetryAnnounced(AfterRetries(s, picks[..|picks| - 1], now), picks[|picks| - 1], now, c);
    }
  }

  lemma RetryAnnounced(s: Client, id: Tid, now: Instant, c: Candidate)
    requires id in s.sent
    ensures Announced(s, Retry(s, id, now), c)
  {
    var f := s.sent[id];
    var rest := s.(sent := s.sent - {id});
    var backoff := Some(f.backoff.Stepped(now));
    var after := (if f.request.op.Binding? then Queue(rest, f.dst, id, f.request, backoff, now)
                  else AuthenticateAndQueue(rest, f.request.op, f.request.origin, backoff, now)).0;
    assert Quiet(s, after);
    InvalidateAnnounced(after.(active := None), c);
  }

  lemma {:induction false} RefreshChannelsIsQuiet(s: Client, numbers: seq<B.Number>, now: Instant)
    requires forall n :: n in numbers ==> n in s.bindings.inner
    ensures Quiet(s, RefreshChannels(s, numbers, now))
    decreases |numbers|
  {
    if numbers != [] {
      var op := ChannelBind(numbers[0], s.bindings.inner[numbers[0]].peer);
      AskIsQuiet(s, op, now);
      RefreshChannelsIsQuiet(Ask(s, op, now), numbers[1..], now);
    }
  }

  lemma TimeoutAnnounced(s: Client, now: Instant, picks: seq<Tid>, c: Candidate)
    requires RetriesAll(BeforeRetries(s, now), picks, now)
    ensures Announced(s, HandleTimeout(s, now, picks), c)
  {
    InvalidateAnnounced(s, c);
    assert Quiet(DropExpired(s, now), BeforeRetries(s, now));
    RetriesAnnounced(BeforeRetries(s, now), picks, now, c);
    var retried := AfterRetries(BeforeRetries(s, now), picks, now);
    AskIsQuiet(retried, Op.Refresh(false), now);
    var refreshed := RefreshIfDue(retried, now);
    ToRefreshHeld(refreshed, B.FIRST_CHANNEL, now);
    RefreshChannelsIsQuiet(refreshed, ToRefresh(refreshed, B.FIRST_CHANNEL, now), now);
  }

  lemma InputAnnounced(s: Client, from: SocketAddr, local: SocketAddr, m: Message, now: Instant, c: Candidate)
    ensures Announced(s, HandleInput(s, from, local, m, now), c)
  {
    hide HandleError, HandleSuccess, Balance;
    if Accepts(s, from, m) {
      var rest := s.(sent := s.sent - {m.tid});
      if m.reply.Error? {
        ErrorAnnounced(rest, s.sent[m.tid].request, m.kind, m.reply, now, c);
      } else if m.reply.Success? {
        SuccessAnnounced(rest, s.sent[m.tid], local, m.kind, m.reply, now, c);
      }
    }
  }

  lemma StepAnnounced(s: Client, i: Input, now: Instant, c: Candidate)
    requires Enabled(s, i, now) && !i.TakeEvent?
    ensures Announced(s, Step(s, i, now), c)
  {
    hide HandleInput, TurnClient.HandleTimeout, BindChannel, Ask, SendBindingRequests, Balance;
    match i
    case Renew =>
      SendingIsQuiet(s.(active := None), now);
      AskIsQuiet(s, Op.Refresh(false), now);
    case Receive(from, local, m) => InputAnnounced(s, from, local, m, now, c);
    case Tick(picks) => TimeoutAnnounced(s, now, picks, c);
    case Bind(peer) => BindIsQuiet(s, peer, now);
    case Send(peer) => BindIsQuiet(s, peer, now);
    case _ =>
  }

  function EventsTaken(s: Client, i: Input): seq<Event> {
    if i.TakeEvent? && s.events != [] then [s.events[0]] else []
  }

  /** The events a node has taken in a run. */
  ghost function TakenEvents(run: Run): seq<Event>
    requires IsRun(run)
  {
    match run
    case Start(_, _) => []
    case Then(before, i, _) => TakenEvents(before) + EventsTaken(State(before), i)
  }

  lemma LedgerStep(s: Client, i: Input, now: Instant, taken: seq<Event>, c: Candidate)
    requires Enabled(s, i, now) && Balance(taken + s.events, c) == HeldTimes(s, c)
    ensures var v := Step(s, i, now);
            Balance(taken + EventsTaken(s, i) + v.events, c) == HeldTimes(v, c)
  {
    var v := Step(s, i, now);
    if i.TakeEvent? {
      assert taken + EventsTaken(s, i) + v.events == taken + s.events;
    } else {
      StepAnnounced(s, i, now, c);
      BalanceConcat(taken, s.events, c);
      BalanceConcat(taken, v.events, c);
      assert taken + EventsTaken(s, i) == taken;
    }
  }

  lemma InitLedger(server: RelaySocket, now: Instant, c: Candidate)
    ensures Init(server, now).events == [] && HeldTimes(Init(server, now), c) == 0
  {
  }

  /** The events a node has been told, or will be, always add up to the candidates the client holds. */
  lemma {:induction false} CandidateLedger(run: Run, c: Candidate)
    requires IsRun(run)
    ensures Balance(TakenEvents(run) + State(run).events, c) == HeldTimes(State(run), c)
  {
    hide Step, Init, HeldTimes, EventsTaken;
    match run
    case Start(server, now) => InitLedger(server, now, c);
    case Then(before, i, now) =>
      CandidateLedger(before, c);
      LedgerStep(State(before), i, now, TakenEvents(before), c);
  }
}
