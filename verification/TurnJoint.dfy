/**
 The full client of `TurnClient`, the full relay of `RelayCore`, and the messages between them.

 A run starts when the grant of an allocation reaches the client, which may have peers to bind waiting
 for it. From then on the node, the network and the relay may do anything, as long as every request is
 answered within the client's request timeout, both ends look at the clock when their `poll_timeout`
 says so, and the allocation lives.
 */
module TurnJoint {
  import opened Common
  import B = ChannelBindings
  import C = TurnClient
  import CR = TurnClientRuns
  import CI = TurnClientInvariant
  import L = TurnLink
  import R = RelayCore
  import RelayRuns

  type Tid = C.Tid

  /** `number` was handed out at `at` while a bind of it was unanswered. */
  datatype Clash = Clash(number: B.Number, at: Instant)

  datatype Joint = Joint(
    now: Instant,
    client: C.Client,
    relay: R.Core,
    requests: set<Tid>,           // on their way to the relay
    answers: map<Tid, R.Outcome>, // on their way back
    data: set<L.Datum>,
    since: map<Tid, Instant>,     // when each request was sent first, before stale nonces
    clash: Option<Clash>,         // the first collision, if there was one
    refused: bool)                // a bind was answered with Bad Request

  datatype Input =
    | Pass(t: Instant)
    | Node(input: CR.Input)
    | RequestArrives(tid: Tid, auth: R.Auth, order: seq<SocketAddr>)
    | RelayActs(event: RelayRuns.Event)
    | RelaySends(number: B.Number, port: nat, peer: SocketAddr)
    | AnswerArrives(from: SocketAddr, local: SocketAddr, message: C.Message)
    | DataArrives(from: SocketAddr, datum: L.Datum)

  /** The client has become `s`; what it newly waits for is on its way. */
  function Sends(j: Joint, s: C.Client, first: Instant): Joint {
    j.(client := s, requests := j.requests + (s.sent.Keys - j.client.sent.Keys),
       since := map id | id in s.sent :: if id in j.since then j.since[id] else first)
  }

  /** Binding `p` hands out a number although a bind of it is unanswered. */
  ghost predicate Collides(s: C.Client, p: SocketAddr, now: Instant) {
    && C.BindChannel(s, p, now) != s && s.HasAllocation() && B.BoundChannel(s.bindings, p, now).None?
    && B.NextNumber(s.bindings, now).Some? && s.BindInFlight(B.NextNumber(s.bindings, now).value)
  }

  ghost function ClashAfter(j: Joint, p: SocketAddr): Option<Clash> {
    if j.clash.None? && Collides(j.client, p, j.now)
    then Some(Clash(B.NextNumber(j.client.bindings, j.now).value, j.now)) else j.clash
  }

  /** What the node asks of the client. */
  predicate IsNodeInput(i: CR.Input) { !i.Receive? && !i.Data? }

  ghost function AfterNode(j: Joint, i: CR.Input): Joint
    requires CR.Enabled(j.client, i, j.now)
  {
    var k := Sends(j, CR.Step(j.client, i, j.now), j.now);
    if i.Bind? || i.Send? then k.(clash := ClashAfter(j, i.peer)) else k
  }

  /** Nothing is late, no timer is missed, and the allocation lives at both ends. */
  ghost predicate CanPass(j: Joint, link: L.Link, t: Instant) {
    && j.now <= t
    && (forall d :: j.client.IsDeadline(d) ==> t <= d)
    && (forall id :: id in j.client.sent ==> t < j.client.sent[id].backoff.start + L.REQUEST_TIMEOUT)
    && (forall d :: d in j.data ==> t < d.sentAt + L.REQUEST_TIMEOUT)
    && R.NothingBefore(j.relay, t)
    && link.me in j.relay.allocations && t < j.relay.allocations[link.me].expiresAt
    && j.client.lifetime.Some? && t < j.client.ExpiresAt().value
  }

  /** A request as the relay reads it. */
  function ToRelay(op: C.Op, tid: Tid, auth: R.Auth): R.Request {
    match op
    case Binding => R.Binding(tid)
    case Allocate => R.Allocate(tid, auth, R.UDP_TRANSPORT, None, None, Some(V6))
    case Refresh(delete) => R.Refresh(tid, auth, if delete then Some(0) else None)
    case ChannelBind(n, p) => R.ChannelBind(tid, auth, n, p)
  }

  /** The relay looks at the clock, then handles the request. */
  ghost function Handled(j: Joint, link: L.Link, tid: Tid, auth: R.Auth, order: seq<SocketAddr>): R.Core
    requires tid in j.client.sent && R.IsExpiryOrder(j.relay.allocations, j.now, order)
    requires RelayRuns.Enabled(R.DoTimeout(j.relay, j.now, order), link.config, Delivery(j, link, tid, auth), j.now)
  {
    RelayRuns.Step(R.DoTimeout(j.relay, j.now, order), link.config, Delivery(j, link, tid, auth), j.now)
  }

  function Delivery(j: Joint, link: L.Link, tid: Tid, auth: R.Auth): RelayRuns.Event
    requires tid in j.client.sent
  {
    RelayRuns.Message(ToRelay(j.client.sent[tid].request.op, tid, auth), link.me, 0)
  }

  ghost predicate RequestArrival(j: Joint, link: L.Link, i: Input, k: Joint)
    requires i.RequestArrives?
  {
    && i.tid in j.requests && i.tid in j.client.sent
    && (i.auth.Authentic? || (i.auth.code == R.StaleNonce && i.auth.answerable))
    && R.IsExpiryOrder(j.relay.allocations, j.now, i.order)
    && RelayRuns.Enabled(R.DoTimeout(j.relay, j.now, i.order), link.config, Delivery(j, link, i.tid, i.auth), j.now)
    && var relay := Handled(j, link, i.tid, i.auth, i.order);
       && relay.commands != [] && relay.commands[|relay.commands| - 1].SendMessage?
       && var outcome := relay.commands[|relay.commands| - 1].outcome;
          k == j.(relay := relay, requests := j.requests - {i.tid}, answers := j.answers[i.tid := outcome],
                  refused := j.refused || (j.client.sent[i.tid].request.op.ChannelBind?
                      && outcome == R.Failed(R.BadRequest)))
  }

  /** `m` is how the client sees the relay's answer. */
  predicate Conveys(m: C.Message, op: C.Op, outcome: R.Outcome) {
    && m.kind == op.Kind() && (m.kind == C.KBinding || m.integrity)
    && match outcome
       case Mapped(address) => m.reply.Success? && m.reply.mapped == Some(address)
       case Allocated(_, _, _, lifetime) => m.reply.Success?
       case Refreshed(lifetime) => m.reply.Success? && m.reply.lifetime.Some? && m.reply.lifetime.value == lifetime
       case ChannelBound => m.reply.Success?
       case Permitted => m.reply.Success?
       case Failed(code) =>
         && m.reply.Error? && !m.reply.foreignRealm
         && m.reply.code == (match code
                             case Unauthorized => C.Unauthorized
                             case StaleNonce => C.StaleNonce
                             case AllocationMismatch => C.AllocationMismatch
                             case _ => C.OtherError)
  }

  /** When the request that answer `m` makes the client send, if any, was sent first. */
  function FirstSent(j: Joint, m: C.Message): Instant {
    if m.reply.Error? && m.reply.code == C.StaleNonce && m.tid in j.since then j.since[m.tid] else j.now
  }

  predicate IsAnswer(j: Joint, from: SocketAddr, m: C.Message) {
    && j.client.server.Matches(from) && m.tid in j.answers && m.tid in j.client.sent
    && Conveys(m, j.client.sent[m.tid].request.op, j.answers[m.tid])
  }

  ghost function Answered(j: Joint, from: SocketAddr, local: SocketAddr, m: C.Message): Joint {
    Sends(j.(answers := j.answers - {m.tid}), C.HandleInput(j.client, from, local, m, j.now), FirstSent(j, m))
  }

  ghost predicate Takes(j: Joint, link: L.Link, i: Input, k: Joint) {
    match i
    case Pass(t) => CanPass(j, link, t) && k == j.(now := t)
    case Node(input) => IsNodeInput(input) && CR.Enabled(j.client, input, j.now) && k == AfterNode(j, input)
    case RequestArrives(_, _, _) => RequestArrival(j, link, i, k)
    case RelayActs(e) =>
      && !(e.Message? && e.sender == link.me)
      && RelayRuns.Enabled(j.relay, link.config, e, j.now)
      && k == j.(relay := RelayRuns.Step(j.relay, link.config, e, j.now))
      && L.FamiliesMatch(link, k.relay) && j.now < k.relay.allocations[link.me].expiresAt
    case RelaySends(n, port, p) =>
      R.Carries(j.relay.channels, link.me, n, port, p) && k == j.(data := j.data + {L.Datum(n, j.now)})
    case AnswerArrives(from, local, m) => IsAnswer(j, from, m) && k == Answered(j, from, local, m)
    case DataArrives(from, d) =>
      && j.client.server.Matches(from) && d in j.data
      && k == j.(client := C.DoDecapsulate(j.client, from, d.number, j.now), data := j.data - {d})
  }

  // ---------- Runs ----------

  /** A request that was just sent for the first time, and is not a request for an allocation. */
  predicate IsYoung(f: C.InFlight, now: Instant) {
    && f.backoff.start <= now < f.backoff.start + L.REQUEST_TIMEOUT
    && f.backoff.nextTrigger == f.backoff.start + L.REQUEST_TIMEOUT
    && !f.request.op.Allocate? && f.request.op != C.Op.Refresh(true)
  }

  /** What a relay that knows the allocation answers. */
  predicate Fits(op: C.Op, outcome: R.Outcome) {
    match op
    case Binding => outcome.Mapped?
    case Refresh(delete) => outcome == R.Refreshed(R.DEFAULT_ALLOCATION_LIFETIME) || outcome == R.Failed(R.StaleNonce)
    case ChannelBind(_, _) =>
      outcome == R.ChannelBound || outcome == R.Failed(R.StaleNonce) || outcome == R.Failed(R.BadRequest)
    case Allocate => false
  }

  /** The client before the grant of its allocation, and the message that grants it. */
  datatype Grant = Grant(client: C.Client, from: SocketAddr, local: SocketAddr, message: C.Message)

  /**
   An ALLOCATE of a consistent client is answered with success. The client has no channels and no binds in
   flight; whatever else it waits for is young.
   */
  ghost predicate IsGrant(g: Grant, link: L.Link, now: Instant) {
    var s, m := g.client, g.message;
    && CI.Inv(s) && !s.HasAllocation() && C.Accepts(s, g.from, m) && s.sent[m.tid].request.op.Allocate?
    && m.kind == C.KAllocate && m.reply.Success? && m.reply.lifetime.Some? && m.reply.lifetime.value > 0
    && (forall f :: f in link.families <==> C.FirstOf(m.reply.relays, f).Some?) && link.families != {}
    && (forall id :: id in s.sent && id != m.tid ==> IsYoung(s.sent[id], now) && !s.sent[id].request.op.ChannelBind?)
    && (s.active.Some? ==> s.active.value.nextBinding <= now + L.BINDING_INTERVAL) // the clock never goes back
  }

  ghost predicate Init(j: Joint, g: Grant, link: L.Link) {
    && IsGrant(g, link, j.now)
    && j.client == C.HandleInput(g.client, g.from, g.local, g.message, j.now)
    && link.config.Valid() && R.Inv(j.relay, link.config)
    && L.FamiliesMatch(link, j.relay) && j.now < j.relay.allocations[link.me].expiresAt
    && (forall k :: k in j.relay.channels ==> k.0 != link.me)
    && j.client.sent.Keys == j.requests + j.answers.Keys && j.requests !! j.answers.Keys && j.data == {}
    && (forall id :: id in j.answers ==> id in g.client.sent && Fits(j.client.sent[id].request.op, j.answers[id]))
    && j.since == (map id | id in j.client.sent :: j.now)
    && j.clash.None? && !j.refused
  }

  datatype Run = Start(grant: Grant, joint: Joint) | Then(before: Run, input: Input, joint: Joint)

  ghost predicate IsRun(run: Run, link: L.Link) {
    match run
    case Start(g, j) => Init(j, g, link)
    case Then(before, i, j) => IsRun(before, link) && Takes(before.joint, link, i, j)
  }

  /** The relay has yet to judge the bind. */
  predicate IsUnjudged(j: Joint, id: Tid) {
    && id in j.client.sent && j.client.sent[id].request.op.ChannelBind?
    && (id in j.requests || (id in j.answers && j.answers[id] == R.Failed(R.StaleNonce)))
  }

  /** One of the two binds that collided has yet to be judged. */
  ghost predicate ClashUndecided(j: Joint) {
    && j.clash.Some?
    && exists id :: IsUnjudged(j, id) && j.client.sent[id].request.op.number == j.clash.value.number
                    && id in j.since && j.since[id] <= j.clash.value.at
  }

  /** The colliding binds have not been repeated for as long as the relay keeps a pair reserved. */
  ghost predicate IsPrompt(j: Joint) {
    ClashUndecided(j) ==> j.now < j.clash.value.at + L.PATIENCE
  }

  ghost predicate Prompt(run: Run) { IsPrompt(run.joint) && (run.Then? ==> Prompt(run.before)) }
}
