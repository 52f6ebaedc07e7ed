/**
 The client's end of a TURN allocation, as functions on its state.

 Messages are reduced to what the client acts on. Transaction ids are drawn from a counter, so they
 never repeat. `origin` is the model's own bookkeeping: the id under which a request was first sent;
 it stays the same when the request is sent again because no answer came.
 */
module TurnClient {
  import opened Common
  import opened Backoff
  import B = ChannelBindings

  type Tid = nat
  type Peer = SocketAddr

  const BINDING_INTERVAL: int := 25 * SECOND
  const BUFFERED_BINDINGS: nat := 100

  datatype RelaySocket = V4Only(v4: SocketAddr) | V6Only(v6: SocketAddr) | DualStack(v4: SocketAddr, v6: SocketAddr) {
    predicate Matches(addr: SocketAddr) {
      (!V6Only? && v4 == addr) || (!V4Only? && v6 == addr)
    }
  }

  datatype ActiveSocket = ActiveSocket(addr: SocketAddr, nextBinding: Instant)

  datatype Candidate = ServerReflexive(addr: SocketAddr, base: SocketAddr) | Relayed(addr: SocketAddr)

  datatype Event = New(candidate: Candidate) | Invalid(candidate: Candidate)

  datatype Op = Binding | Allocate | Refresh(delete: bool) | ChannelBind(number: B.Number, peer: Peer) {
    function Kind(): Kind {
      match this
      case Binding => KBinding
      case Allocate => KAllocate
      case Refresh(_) => KRefresh
      case ChannelBind(_, _) => KChannelBind
    }
  }

  datatype Kind = KBinding | KAllocate | KRefresh | KChannelBind | KOther

  datatype Request = Request(op: Op, nonce: bool, origin: Tid)

  datatype InFlight = InFlight(dst: SocketAddr, request: Request, backoff: Backoff)

  datatype Transmit = Transmit(dst: SocketAddr, tid: Tid, request: Request)

  datatype ErrorCode = Unauthorized | StaleNonce | AllocationMismatch | UnknownAttribute | OtherError

  datatype Reply =
    | Error(code: ErrorCode, nonce: bool, foreignRealm: bool)
    | Success(mapped: Option<SocketAddr>, lifetime: Option<nat>, relays: seq<SocketAddr>)
    | NeitherClass

  datatype Message = Message(tid: Tid, kind: Kind, integrity: bool, reply: Reply)

  /** `credentials` is present until the relay rejects them; inside is whether a nonce is known. */
  datatype Client = Client(
    server: RelaySocket,
    active: Option<ActiveSocket>,
    srflx4: Option<Candidate>,
    srflx6: Option<Candidate>,
    relay4: Option<Candidate>,
    relay6: Option<Candidate>,
    lifetime: Option<(Instant, nat)>,
    transmits: seq<Transmit>,
    events: seq<Event>,
    sent: map<Tid, InFlight>,
    bindings: B.Bindings,
    buffered: seq<Peer>,
    credentials: Option<bool>,
    failed: bool,
    nextTid: Tid)
  {
    predicate HasAllocation() { relay4.Some? || relay6.Some? }

    predicate CanRelayTo(peer: Peer) { if peer.Family() == V4 then relay4.Some? else relay6.Some? }

    predicate InFlightKind(kind: Kind) { exists id :: id in sent && sent[id].request.op.Kind() == kind }

    predicate BindInFlight(n: B.Number) {
      exists id :: id in sent && sent[id].request.op.ChannelBind? && sent[id].request.op.number == n
    }

    predicate BindInFlightTo(peer: Peer) {
      || (exists id :: id in sent && sent[id].request.op.ChannelBind? && sent[id].request.op.peer == peer)
      || peer in buffered
    }

    function RefreshAt(): Option<Instant> {
      if lifetime.Some? then Some(lifetime.value.0 + lifetime.value.1 / 2) else None
    }

    function ExpiresAt(): Option<Instant> {
      if lifetime.Some? then Some(lifetime.value.0 + lifetime.value.1) else None
    }

    /** Something is due at `t`: a refresh, a keep-alive, or a retry. */
    ghost predicate IsDeadline(t: Instant) {
      || (!InFlightKind(KRefresh) && RefreshAt() == Some(t))
      || (HasAllocation() && active.Some? && active.value.nextBinding == t)
      || (exists id :: id in sent && sent[id].backoff.nextTrigger == t)
    }

    /** `r` is the earliest deadline, if there is one. */
    ghost predicate IsPollTimeout(r: Option<Instant>) {
      match r
      case None => forall t :: !IsDeadline(t)
      case Some(t) => IsDeadline(t) && forall u :: IsDeadline(u) ==> t <= u
    }

    ghost predicate IsSuspended() {
      !HasAllocation() && sent == map[] && transmits == [] && forall t :: !IsDeadline(t)
    }
  }

  // ---------- Sending ----------

  /** Whether the message was queued, and the state afterwards. Without a backoff, a new one is started. */
  function Queue(s: Client, dst: SocketAddr, tid: Tid, request: Request, backoff: Option<Backoff>, now: Instant)
    : (Client, bool)
  {
    var b := if backoff.Some? then backoff.value else Started(now);
    if b.IsExpired(now) then (s, false) else
    (s.(sent := s.sent[tid := InFlight(dst, request, b)], transmits := s.transmits + [Transmit(dst, tid, request)]),
        true)
  }

  /** Needs a socket to send from and credentials to sign with; draws a new transaction id. */
  function AuthenticateAndQueue(s: Client, op: Op, origin: Tid, backoff: Option<Backoff>, now: Instant)
    : (Client, bool)
  {
    if s.active.None? || s.credentials.None? then (s, false) else
    Queue(s.(nextTid := s.nextTid + 1), s.active.value.addr, s.nextTid,
          Request(op, s.credentials.value, origin), backoff, now)
  }

  /** A request of our own accord: it is its own origin. */
  function Ask(s: Client, op: Op, now: Instant): Client {
    AuthenticateAndQueue(s, op, s.nextTid, None, now).0
  }

  function AskBinding(s: Client, dst: SocketAddr, now: Instant): Client {
    Queue(s.(nextTid := s.nextTid + 1), dst, s.nextTid, Request(Binding, false, s.nextTid), None, now).0
  }

  function SendBindingRequests(s: Client, now: Instant): Client {
    var s4 := if s.server.V6Only? then s else AskBinding(s, s.server.v4, now);
    if s.server.V4Only? then s4 else AskBinding(s4, s.server.v6, now)
  }

  function Init(server: RelaySocket, now: Instant): Client {
    SendBindingRequests(
      Client(server, None, None, None, None, None, None, [], [], map[], B.NO_BINDINGS, [], Some(false), false, 0), now)
  }

  // ---------- Candidates ----------

  /** The new content of a candidate slot and the events that tell of the change. */
  function UpdateCandidate(offered: Option<Candidate>, current: Option<Candidate>): (Option<Candidate>, seq<Event>) {
    match (offered, current)
    case (Some(n), Some(c)) => if n != c then (Some(n), [New(n), Invalid(c)]) else (current, [])
    case (Some(n), None) => (Some(n), [New(n)])
    case _ => (current, [])
  }

  function InvalidEvents(slot: Option<Candidate>): seq<Event> {
    if slot.Some? then [Invalid(slot.value)] else []
  }

  function Invalidate(s: Client): Client {
    s.(events := s.events + InvalidEvents(s.relay4) + InvalidEvents(s.relay6),
       relay4 := None, relay6 := None, bindings := B.Clear(s.bindings), lifetime := None, sent := map[])
  }

  function FirstOf(addrs: seq<SocketAddr>, family: Family): (r: Option<Candidate>)
    ensures r.Some? ==> r.value.Relayed? && r.value.addr.Family() == family && r.value.addr in addrs
  {
    if addrs == [] then None
    else if addrs[0].Family() == family then Some(Relayed(addrs[0]))
    else FirstOf(addrs[1..], family)
  }

  // ---------- What the node asks for ----------

  ghost function RefreshAllocation(s: Client, now: Instant): Client {
    if !s.HasAllocation() && s.InFlightKind(KAllocate) then s
    else if s.IsSuspended() then SendBindingRequests(s.(active := None), now)
    else Ask(s, Op.Refresh(false), now)
  }

  /** The ring buffer drops its oldest entry when full. */
  function Buffer(s: Client, peer: Peer): Client {
    if |s.buffered| < BUFFERED_BINDINGS then s.(buffered := s.buffered + [peer])
    else s.(buffered := s.buffered[1..] + [peer])
  }

  ghost function BindChannel(s: Client, peer: Peer, now: Instant): (r: Client)
    ensures s.HasAllocation() ==> r.HasAllocation() && r.buffered == s.buffered
  {
    if s.IsSuspended() || B.ConnectedChannel(s.bindings, peer, now).Some? || s.BindInFlightTo(peer) then s
    else if !s.HasAllocation() then Buffer(s, peer)
    else if !s.CanRelayTo(peer) then s
    else
      var (bindings, number) := B.NewChannel(s.bindings, peer, now);
      if number.None? then s else Ask(s.(bindings := bindings), ChannelBind(number.value, peer), now)
  }

  /** The buffered peers, oldest first, each taken out and bound. */
  ghost function BindBuffered(s: Client, now: Instant): Client
    requires s.HasAllocation()
    decreases |s.buffered|
  {
    if s.buffered == [] then s
    else BindBuffered(BindChannel(s.(buffered := s.buffered[1..]), s.buffered[0], now), now)
  }

  /** Data to a peer without channel makes the client bind one. */
  ghost function Encode(s: Client, peer: Peer, now: Instant): Client {
    if s.active.None? || B.ConnectedChannel(s.bindings, peer, now).Some? then s else BindChannel(s, peer, now)
  }

  /** The sender of channel data and the relay socket it came in on. */
  function Decapsulate(s: Client, from: SocketAddr, n: B.Number): Option<(Peer, SocketAddr)> {
    if !s.server.Matches(from) || n !in s.bindings.inner || !s.bindings.inner[n].bound then None else
    var peer := s.bindings.inner[n].peer;
    match peer.Family()
    case V4 => if s.relay4.Some? then Some((peer, s.relay4.value.addr)) else None
    case V6 => if s.relay6.Some? then Some((peer, s.relay6.value.addr)) else None
  }

  function DoDecapsulate(s: Client, from: SocketAddr, n: B.Number, now: Instant): Client {
    if s.server.Matches(from) then s.(bindings := B.Receive(s.bindings, n, now)) else s
  }

  // ---------- What the relay answers ----------

  /** Only a message from our relay that answers a request of ours is looked at; all but BINDING must be signed. */
  predicate Accepts(s: Client, from: SocketAddr, m: Message) {
    s.server.Matches(from) && m.tid in s.sent && (m.kind == KBinding || m.integrity)
  }

  /** A success that makes the client hold an allocation, or hold it longer. */
  predicate BringsLifetime(kind: Kind, r: Reply) {
    && r.Success? && r.lifetime.Some?
    && match kind
       case KAllocate => FirstOf(r.relays, V4).Some? || FirstOf(r.relays, V6).Some?
       case KRefresh => r.lifetime.value != 0
       case _ => false
  }

  /**
   Such a success finds a socket and credentials. It always does if it has the method of the request it
   answers; a build without debug assertions does not look at that.
   */
  predicate Founded(s: Client, from: SocketAddr, m: Message) {
    Accepts(s, from, m) && BringsLifetime(m.kind, m.reply) ==> s.active.Some? && s.credentials.Some?
  }

  ghost function HandleInput(s: Client, from: SocketAddr, local: SocketAddr, m: Message, now: Instant): Client {
    if !Accepts(s, from, m) then s else
    var f := s.sent[m.tid];
    var rest := s.(sent := s.sent - {m.tid});
    match m.reply
    case Error(code, nonce, foreignRealm) => HandleError(rest, f.request, m.kind, m.reply, now)
    case Success(mapped, lifetime, relays) => HandleSuccess(rest, f, local, m.kind, m.reply, now)
    case NeitherClass => rest
  }

  ghost function HandleError(s: Client, request: Request, kind: Kind, e: Reply, now: Instant): Client
    requires e.Error?
  {
    match e.code
    case Unauthorized =>
      if request.nonce then Invalidate(s.(credentials := None)) else Reauthenticate(s, request, e, now)
    case StaleNonce => Reauthenticate(s, request, e, now)
    case AllocationMismatch => Resync(Invalidate(s), request, kind, now)
    case UnknownAttribute => s.(failed := true)
    case OtherError =>
      match kind
      case KAllocate => s.(buffered := [])
      case KChannelBind =>
        if request.op.ChannelBind? then s.(bindings := B.Forget(s.bindings, request.op.number)) else s
      case _ => s
  }

  function Reauthenticate(s: Client, request: Request, e: Reply, now: Instant): Client
    requires e.Error?
  {
    if s.credentials.None? then s else
    var informed := if e.nonce then s.(credentials := Some(true)) else s;
    if e.foreignRealm then informed else Ask(informed, request.op, now)
  }

  /** Client and relay disagree whether there is an allocation: delete it, or make one. */
  function Resync(s: Client, request: Request, kind: Kind, now: Instant): Client {
    match kind
    case KAllocate => Ask(s, Op.Refresh(true), now)
    case KRefresh => Ask(s, Allocate, now)
    case KChannelBind =>
      var asked := Ask(s, Allocate, now);
      if request.op.ChannelBind? then Buffer(asked, request.op.peer) else asked
    case _ => s
  }

  ghost function HandleSuccess(s: Client, f: InFlight, local: SocketAddr, kind: Kind, r: Reply, now: Instant): Client
    requires r.Success?
  {
    match kind
    case KBinding => Nominate(UpdateSrflx(s, f.dst, local, r), f.dst, now)
    case KAllocate => Allocated(s, r, now)
    case KRefresh =>
      if r.lifetime.None? then s
      else if r.lifetime.value == 0 then Ask(s, Allocate, now)
      else s.(lifetime := Some((now, r.lifetime.value)))
    case KChannelBind =>
      if f.request.op.ChannelBind? then s.(bindings := B.Confirm(s.bindings, f.request.op.number, now)) else s
    case KOther => s
  }

  function UpdateSrflx(s: Client, dst: SocketAddr, local: SocketAddr, r: Reply): Client
    requires r.Success?
  {
    var offered := if r.mapped.Some? then Some(ServerReflexive(r.mapped.value, local)) else None;
    match dst.Family()
    case V4 => var (slot, events) := UpdateCandidate(offered, s.srflx4); s.(srflx4 := slot, events := s.events + events)
    case V6 => var (slot, events) := UpdateCandidate(offered, s.srflx6); s.(srflx6 := slot, events := s.events + events)
  }

  /** The first socket to answer is the one we use. */
  function Nominate(s: Client, dst: SocketAddr, now: Instant): Client {
    if s.active.Some? then s else
    var nominated := s.(active := Some(ActiveSocket(dst, now + BINDING_INTERVAL)));
    Ask(nominated, if s.HasAllocation() then Op.Refresh(false) else Allocate, now)
  }

  function WithRelays(s: Client, r: Reply, now: Instant): Client
    requires r.Success? && r.lifetime.Some?
  {
    var (slot4, events4) := UpdateCandidate(FirstOf(r.relays, V4), s.relay4);
    var (slot6, events6) := UpdateCandidate(FirstOf(r.relays, V6), s.relay6);
    s.(lifetime := Some((now, r.lifetime.value)), relay4 := slot4, relay6 := slot6,
        events := s.events + events4 + events6)
  }

  ghost function Allocated(s: Client, r: Reply, now: Instant): Client
    requires r.Success?
  {
    if r.lifetime.None? || (FirstOf(r.relays, V4).None? && FirstOf(r.relays, V6).None?) then s
    else BindBuffered(WithRelays(s, r, now), now)
  }

  // ---------- Time ----------

  predicate IsDue(s: Client, id: Tid, now: Instant) { id in s.sent && s.sent[id].backoff.IsDue(now) }

  /** One turn of the retry loop: send again, or give up and, if that was on our socket, drop everything. */
  function Retry(s: Client, id: Tid, now: Instant): Client
    requires id in s.sent
  {
    var f := s.sent[id];
    var rest := s.(sent := s.sent - {id});
    var backoff := Some(f.backoff.Stepped(now));
    var (after, queued) :=
      if f.request.op.Binding? then Queue(rest, f.dst, id, f.request, backoff, now)
      else AuthenticateAndQueue(rest, f.request.op, f.request.origin, backoff, now);
    if !queued && after.active.Some? && after.active.value.addr.Family() == f.dst.Family() then
      Invalidate(after.(active := None))
    else after
  }

  /** `picks` are due, one after the other: the order in which the loop finds them. */
  ghost predicate AreRetries(s: Client, picks: seq<Tid>, now: Instant)
    decreases |picks|, 0
  {
    picks == [] ||
    (AreRetries(s, picks[..|picks| - 1], now) && IsDue(AfterRetries(s, picks[..|picks| - 1], now), picks[|picks| - 1],
        now))
  }

  ghost function AfterRetries(s: Client, picks: seq<Tid>, now: Instant): Client
    requires AreRetries(s, picks, now)
    decreases |picks|, 1
  {
    if picks == [] then s
    else Retry(AfterRetries(s, picks[..|picks| - 1], now), picks[|picks| - 1], now)
  }

  /** The loop ends when nothing is due. */
  ghost predicate RetriesAll(s: Client, picks: seq<Tid>, now: Instant) {
    AreRetries(s, picks, now) && forall id :: !IsDue(AfterRetries(s, picks, now), id, now)
  }

  function DropExpired(s: Client, now: Instant): Client {
    if s.lifetime.Some? && now >= s.ExpiresAt().value then Invalidate(s) else s
  }

  function KeepAlive(s: Client, now: Instant): Client {
    if s.HasAllocation() && s.active.Some? && now >= s.active.value.nextBinding then
      AskBinding(s.(active := Some(ActiveSocket(s.active.value.addr, now + BINDING_INTERVAL))), s.active.value.addr,
          now)
    else s
  }

  function RefreshIfDue(s: Client, now: Instant): Client {
    if s.lifetime.Some? && now >= s.RefreshAt().value && !s.InFlightKind(KRefresh) then Ask(s, Op.Refresh(false), now)
        else s
  }

  /** The numbers from `n` on whose channels are due for a refresh, ascending. */
  function ToRefresh(s: Client, n: B.Number, now: Instant): seq<B.Number>
    decreases B.LAST_CHANNEL + 1 - n
  {
    if n > B.LAST_CHANNEL then []
    else if n in s.bindings.inner && s.bindings.inner[n].NeedsRefresh(now) && !s.BindInFlight(n) then
      [n] + ToRefresh(s, n + 1, now)
    else ToRefresh(s, n + 1, now)
  }

  function RefreshChannels(s: Client, numbers: seq<B.Number>, now: Instant): Client
    requires forall n :: n in numbers ==> n in s.bindings.inner
    decreases |numbers|
  {
    if numbers == [] then s else
    RefreshChannels(Ask(s, ChannelBind(numbers[0], s.bindings.inner[numbers[0]].peer), now), numbers[1..], now)
  }

  /** What `handle_timeout` does before and up to the end of the retry loop. */
  function BeforeRetries(s: Client, now: Instant): Client { KeepAlive(DropExpired(s, now), now) }

  ghost function HandleTimeout(s: Client, now: Instant, picks: seq<Tid>): Client
    requires RetriesAll(BeforeRetries(s, now), picks, now)
  {
    var refreshed := RefreshIfDue(AfterRetries(BeforeRetries(s, now), picks, now), now);
    ToRefreshHeld(refreshed, B.FIRST_CHANNEL, now);
    RefreshChannels(refreshed, ToRefresh(refreshed, B.FIRST_CHANNEL, now), now)
  }

  lemma {:induction false} ToRefreshHeld(s: Client, n: B.Number, now: Instant)
    ensures forall m :: m in ToRefresh(s, n, now) <==>
              n <= m <= B.LAST_CHANNEL && m in s.bindings.inner && s.bindings.inner[m].NeedsRefresh(now)
                  && !s.BindInFlight(m)
    decreases B.LAST_CHANNEL + 1 - n
  {
    if n <= B.LAST_CHANNEL { ToRefreshHeld(s, n + 1, now); }
  }
}
