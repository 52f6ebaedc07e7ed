/**
 A client and its relay, joined by a network.

 The client is its table of channel numbers and its unanswered CHANNEL-BIND requests; the relay is the
 full model of `RelayCore`, which may serve other clients at the same time. The network neither loses
 nor repeats messages and answers every transmission within the client's one-second request timeout,
 but may deliver in any order. Both sides look at the clock when their `poll_timeout` says so.
 */
module TurnLink {
  import opened Common
  import ChannelBindings
  import RelayCore
  import RelayRuns

  type Number = ChannelBindings.Number
  type Peer = SocketAddr
  type Tid = nat
  type Relay = RelayCore.Core

  const REQUEST_TIMEOUT: int := SECOND
  const BINDING_INTERVAL: int := 25 * SECOND

  /**
   A CHANNEL-BIND the client waits for, since `sentAt`. A stale nonce makes the client send it again,
   with a new timeout; `firstAt` is when the first of these was sent.
   */
  datatype Bind = Bind(number: Number, peer: Peer, sentAt: Instant, firstAt: Instant)

  /** Channel data on its way to the client. */
  datatype Datum = Datum(number: Number, sentAt: Instant)

  /** `number` was handed out to `second` while a bind of it to `first` was unanswered. */
  datatype Collision = Collision(number: Number, first: Peer, second: Peer, at: Instant)

  /** Who the client is, how the relay is configured, and the address families of the client's allocation. */
  datatype Link = Link(me: SocketAddr, config: RelayCore.Config, families: set<Family>)

  datatype World = World(
    now: Instant,
    client: ChannelBindings.Bindings,
    sent: map<Tid, Bind>,              // the client's unanswered requests
    lastTick: Instant,                 // when the client last looked at the clock
    relay: Relay,
    requests: set<Tid>,                // on their way to the relay
    answers: map<Tid, RelayCore.Outcome>, // on their way back
    data: set<Datum>,
    nextTid: Tid,
    collision: Option<Collision>,      // the first collision, if there was one
    refused: bool)                     // whether the relay has answered a bind with Bad Request

  predicate Awaits(sent: map<Tid, Bind>, t: Tid, n: Number) { t in sent && sent[t].number == n }

  /** A bind of number `n` is unanswered. */
  ghost predicate Outstanding(sent: map<Tid, Bind>, n: Number) { exists t :: Awaits(sent, t, n) }

  ghost predicate OutstandingPeer(sent: map<Tid, Bind>, p: Peer) { exists t :: t in sent && sent[t].peer == p }

  ghost predicate FamiliesMatch(link: Link, s: Relay) {
    && link.me in s.allocations
    && forall f :: f in link.families <==> s.allocations[link.me].HasFamily(f)
  }

  // ---------- What can happen ----------

  datatype Action =
    | Advance(t: Instant)
    | BindChannel(peer: Peer)
    | RefreshChannel(number: Number)
    | Keepalive
    | OtherRequest
    | DeliverRequest(tid: Tid, auth: RelayCore.Auth, order: seq<SocketAddr>)
    | RelayEvent(event: RelayRuns.Event)
    | RelayData(number: Number, port: nat, peer: Peer)
    | DeliverAnswer(tid: Tid)
    | DeliverData(datum: Datum)

  /** Time passes no deadline: no message is late, no timer is missed, the allocation stays alive. */
  ghost predicate CanAdvance(w: World, link: Link, t: Instant) {
    && w.now <= t <= w.lastTick + BINDING_INTERVAL
    && (forall id :: id in w.sent ==> t < w.sent[id].sentAt + REQUEST_TIMEOUT)
    && (forall d :: d in w.data ==> t < d.sentAt + REQUEST_TIMEOUT)
    && RelayCore.NothingBefore(w.relay, t)
    && link.me in w.relay.allocations && t < w.relay.allocations[link.me].expiresAt
  }

  function Send(w: World, n: Number, p: Peer, firstAt: Instant): World {
    w.(sent := w.sent[w.nextTid := Bind(n, p, w.now, firstAt)],
       requests := w.requests + {w.nextTid},
       nextTid := w.nextTid + 1)
  }

  ghost predicate CanBind(w: World, link: Link, p: Peer) {
    && ChannelBindings.ConnectedChannel(w.client, p, w.now).None?
    && !OutstandingPeer(w.sent, p)
    && p.Family() in link.families
  }

  /** `bind_channel`: reuse the peer's number if it is still reserved, otherwise take the next one. */
  ghost function DoBindChannel(w: World, p: Peer): World {
    var (client, number) := ChannelBindings.NewChannel(w.client, p, w.now);
    if number.None? then w else
    var newlyTaken := ChannelBindings.BoundChannel(w.client, p, w.now).None?;
    var collision :=
      if w.collision.None? && newlyTaken && Outstanding(w.sent, number.value) then
        var t :| Awaits(w.sent, t, number.value);
        Some(Collision(number.value, w.sent[t].peer, p, w.now))
      else w.collision;
    Send(w.(client := client, collision := collision), number.value, p, w.now)
  }

  predicate DueForRefresh(w: World, n: Number) { n in w.client.inner && w.client.inner[n].NeedsRefresh(w.now) }

  function Request(w: World, tid: Tid, auth: RelayCore.Auth): RelayCore.Request
    requires tid in w.sent
  {
    RelayCore.ChannelBind(tid, auth, w.sent[tid].number, w.sent[tid].peer)
  }

  /** The relay looks at the clock, then handles the request. */
  ghost function DoDeliverRequest(w: World, link: Link, tid: Tid, auth: RelayCore.Auth, order: seq<SocketAddr>): World
    requires tid in w.sent && RelayCore.IsExpiryOrder(w.relay.allocations, w.now, order)
  {
    var s := RelayCore.DoTimeout(w.relay, w.now, order);
    var r := Request(w, tid, auth);
    var outcome := if auth.Authentic? then RelayCore.BindOutcome(s, r, link.me) else RelayCore.Failed(auth.code);
    w.(relay := RelayCore.DoChannelBind(s, r, link.me, w.now),
       requests := w.requests - {tid},
       answers := w.answers[tid := outcome],
       refused := w.refused || outcome == RelayCore.Failed(RelayCore.BadRequest))
  }

  /** Success confirms the channel, a stale nonce repeats the request, any other error forgets the channel. */
  function DoDeliverAnswer(w: World, tid: Tid): World
    requires tid in w.sent && tid in w.answers
  {
    var bind := w.sent[tid];
    var rest := w.(sent := w.sent - {tid}, answers := w.answers - {tid});
    if w.answers[tid] == RelayCore.Failed(RelayCore.StaleNonce) then
      Send(rest, bind.number, bind.peer, bind.firstAt)
    else if w.answers[tid].Failed? then
      rest.(client := ChannelBindings.Forget(w.client, bind.number))
    else
      rest.(client := ChannelBindings.Confirm(w.client, bind.number, w.now))
  }

  ghost predicate Does(w: World, link: Link, a: Action, v: World) {
    match a
    case Advance(t) => CanAdvance(w, link, t) && v == w.(now := t)
    case BindChannel(p) => CanBind(w, link, p) && v == DoBindChannel(w, p)
    case RefreshChannel(n) =>
      DueForRefresh(w, n) && !Outstanding(w.sent, n) && v == Send(w, n, w.client.inner[n].peer, w.now)
    case Keepalive =>
      (forall n :: DueForRefresh(w, n) ==> Outstanding(w.sent, n)) && v == w.(lastTick := w.now)
    case OtherRequest => v == w.(nextTid := w.nextTid + 1) // any request but a bind draws a transaction id
    case DeliverRequest(tid, auth, order) =>
      && tid in w.requests && tid in w.sent
      && (auth.Authentic? || auth.code == RelayCore.StaleNonce)
      && RelayCore.IsExpiryOrder(w.relay.allocations, w.now, order)
      && v == DoDeliverRequest(w, link, tid, auth, order)
    case RelayEvent(e) =>
      && !(e.Message? && e.sender == link.me && e.request.ChannelBind?)
      && RelayRuns.Enabled(w.relay, link.config, e, w.now)
      && v == w.(relay := RelayRuns.Step(w.relay, link.config, e, w.now))
      && FamiliesMatch(link, v.relay) && w.now < v.relay.allocations[link.me].expiresAt
    case RelayData(n, port, p) =>
      RelayCore.Carries(w.relay.channels, link.me, n, port, p) && v == w.(data := w.data + {Datum(n, w.now)})
    case DeliverAnswer(tid) => tid in w.answers && tid in w.sent && v == DoDeliverAnswer(w, tid)
    case DeliverData(d) =>
      d in w.data && v == w.(client := ChannelBindings.Receive(w.client, d.number, w.now), data := w.data - {d})
  }

  /** The client has just got its allocation; its cursor may be anywhere. */
  ghost predicate Init(w: World, link: Link) {
    && link.config.Valid() && RelayCore.Inv(w.relay, link.config)
    && FamiliesMatch(link, w.relay)
    && w.now < w.relay.allocations[link.me].expiresAt
    && (forall k :: k in w.relay.channels ==> k.0 != link.me)
    && w.client.inner == map[] && w.client.Valid()
    && w.sent == map[] && w.requests == {} && w.answers == map[] && w.data == {}
    && w.lastTick == w.now
    && w.collision.None? && !w.refused
  }

  /** A run: a first world, then actions and the worlds they lead to. */
  datatype Run = Start(world: World) | Then(before: Run, action: Action, world: World)

  ghost predicate IsRun(run: Run, link: Link) {
    match run
    case Start(w) => Init(w, link)
    case Then(before, a, w) => IsRun(before, link) && Does(before.world, link, a, w)
  }

  // ---------- How long a bind may go on being repeated ----------

  /** One second less than the relay keeps a pair reserved. */
  const PATIENCE: int := RelayCore.COOLDOWN - REQUEST_TIMEOUT

  /** The relay has yet to judge the bind: it is under way, or about to be repeated because of a stale nonce. */
  predicate IsUnjudged(w: World, t: Tid) {
    && t in w.sent
    && (t in w.requests || (t in w.answers && w.answers[t] == RelayCore.Failed(RelayCore.StaleNonce)))
  }

  /** A bind of number `n`, first sent by `at`, has yet to be judged. */
  ghost predicate Undecided(w: World, n: Number, at: Instant) {
    exists t :: IsUnjudged(w, t) && w.sent[t].number == n && w.sent[t].firstAt <= at
  }

  /** One of the two binds that collided has yet to be judged. */
  ghost predicate CollisionUndecided(w: World) {
    w.collision.Some? && Undecided(w, w.collision.value.number, w.collision.value.at)
  }

  /** The colliding binds have not been repeated for as long as that. */
  ghost predicate IsPrompt(w: World) {
    CollisionUndecided(w) ==> w.now < w.collision.value.at + PATIENCE
  }

  ghost predicate Prompt(run: Run) {
    IsPrompt(run.world) && (run.Then? ==> Prompt(run.before))
  }
}
