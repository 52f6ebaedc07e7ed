/** What client and relay know about each other, at every point of every run. */
module TurnLinkSafety {
  import opened Common
  import opened TurnLink
  import B = ChannelBindings
  import R = RelayCore
  import RelayInvariant
  import RelayRuns

  const COOLDOWN: int := B.CHANNEL_LIFETIME + B.CHANNEL_REBIND_TIMEOUT

  predicate Timely(sentAt: Instant, now: Instant) { sentAt <= now < sentAt + REQUEST_TIMEOUT }

  ghost predicate LinkInv(w: World, link: Link) {
    && w.lastTick <= w.now <= w.lastTick + BINDING_INTERVAL
    && w.sent.Keys == w.requests + w.answers.Keys && w.requests !! w.answers.Keys
    && (forall t :: t in w.sent ==>
          && t < w.nextTid && Timely(w.sent[t].sentAt, w.now)
          && w.sent[t].firstAt <= w.sent[t].sentAt && w.sent[t].peer.Family() in link.families)
    && (forall d :: d in w.data ==> Timely(d.sentAt, w.now))
  }

  ghost predicate RelayInv(s: R.Core, link: Link, now: Instant) {
    && link.config.Valid() && R.Inv(s, link.config)
    && FamiliesMatch(link, s) && now < s.allocations[link.me].expiresAt
    && (forall n: Number :: (link.me, n) in s.channels ==>
          && s.channels[(link.me, n)].expiry <= now + R.CHANNEL_BINDING_DURATION
          && (s.channels[(link.me, n)].bound ==> now <= s.channels[(link.me, n)].expiry))
  }

  ghost predicate ClientInv(b: B.Bindings, link: Link) {
    b.Valid() && forall n :: n in b.inner ==> b.inner[n].peer.Family() in link.families
  }

  /** Holds in every reachable world. */
  ghost predicate Base(w: World, link: Link) {
    ClientInv(w.client, link) && LinkInv(w, link) && RelayInv(w.relay, link, w.now)
  }

  /** The client counts on number `n`: it is being bound, or was confirmed less than fifteen minutes ago. */
  ghost predicate Live(w: World, n: Number) {
    && n in w.client.inner
    && (Outstanding(w.sent, n) || (w.client.inner[n].bound && w.now < w.client.inner[n].boundAt + COOLDOWN))
  }

  /** Requests and table agree, numbers and peers are used once, and unconfirmed channels are being bound. */
  ghost predicate TableInv(w: World) {
    && (forall t :: t in w.sent ==>
          w.sent[t].number in w.client.inner && w.client.inner[w.sent[t].number].peer == w.sent[t].peer)
    && (forall t, u, n :: Awaits(w.sent, t, n) && Awaits(w.sent, u, n) ==> t == u)
    && (forall n :: n in w.client.inner ==>
          w.client.inner[n].boundAt <= w.now && (w.client.inner[n].bound || Outstanding(w.sent, n)))
    && (forall n, m :: Live(w, n) && Live(w, m) && w.client.inner[n].peer == w.client.inner[m].peer ==> n == m)
  }

  /** The relay's view of `n` expires no later than the client believes, unless a bind of `n` is unanswered. */
  ghost predicate Agrees(w: World, link: Link, n: Number)
    requires (link.me, n) in w.relay.channels
  {
    var channel := w.relay.channels[(link.me, n)];
    if Outstanding(w.sent, n) then
      n in w.client.inner && (channel.peer == w.client.inner[n].peer || channel.CanBeDeleted(w.now))
    else
      && n in w.client.inner && w.client.inner[n].bound
      && channel.peer == w.client.inner[n].peer
      && channel.expiry <= w.client.inner[n].boundAt + B.CHANNEL_LIFETIME
  }

  ghost predicate RelayAgrees(w: World, link: Link) {
    forall n: Number :: (link.me, n) in w.relay.channels ==> Agrees(w, link, n)
  }

  predicate GoodAnswer(w: World, link: Link, t: Tid)
    requires t in w.answers
  {
    || w.answers[t] == R.Failed(R.StaleNonce)
    || (&& w.answers[t] == R.ChannelBound && t in w.sent
        && R.Reserved(w.relay.channels, link.me, w.sent[t].number, w.sent[t].peer)
        && w.sent[t].sentAt + R.CHANNEL_BINDING_DURATION <= w.relay.channels[(link.me, w.sent[t].number)].expiry)
  }

  ghost predicate AnswersGood(w: World, link: Link) { forall t :: t in w.answers ==> GoodAnswer(w, link, t) }

  /** Data arrives at most a second after the channel expired, so activity is noticed in time to refresh. */
  ghost predicate ActivityInv(w: World) {
    && (forall n :: n in w.client.inner && !w.client.inner[n].NoActivity() && !Outstanding(w.sent, n) ==>
          w.lastTick <= w.client.inner[n].boundAt + B.CHANNEL_LIFETIME + REQUEST_TIMEOUT)
    && (forall d :: d in w.data && !Outstanding(w.sent, d.number) ==>
          && d.number in w.client.inner
          && d.sentAt <= w.client.inner[d.number].boundAt + B.CHANNEL_LIFETIME)
  }

  /** Holds in every reachable world without collision. */
  ghost predicate Calm(w: World, link: Link) {
    TableInv(w) && RelayAgrees(w, link) && AnswersGood(w, link) && ActivityInv(w) && !w.refused
  }

  // ---------- The relay's side of a step ----------

  /** From `s` to `s'` the client's channels have only faded: unbound, or forgotten after the cooldown. */
  ghost predicate Faded(s: R.Core, s': R.Core, me: SocketAddr, now: Instant) {
    && (forall n: Number :: (me, n) in s'.channels ==>
          && (me, n) in s.channels
          && s'.channels[(me, n)].peer == s.channels[(me, n)].peer
          && s'.channels[(me, n)].expiry == s.channels[(me, n)].expiry
          && (s'.channels[(me, n)].bound ==> s.channels[(me, n)].bound))
    && (forall n: Number :: (me, n) in s.channels && !s.channels[(me, n)].CanBeDeleted(now) ==> (me, n) in s'.channels)
  }

  lemma OtherEventsFade(s: R.Core, link: Link, e: RelayRuns.Event, now: Instant)
    requires R.Inv(s, link.config) && RelayRuns.Enabled(s, link.config, e, now)
    requires !(e.Message? && e.sender == link.me && e.request.ChannelBind?)
    requires link.me in s.allocations && link.me in RelayRuns.Step(s, link.config, e, now).allocations
    ensures Faded(s, RelayRuns.Step(s, link.config, e, now), link.me, now)
  {
    if e.AllocationFailed? && exists c :: R.Owns(s.allocations, c, e.port) {
      var c :| R.Owns(s.allocations, c, e.port);
      RelayInvariant.DeletePortOf(s, link.config, c);
    }
  }

  lemma FadingKeepsCalm(w: World, link: Link, s': R.Core)
    requires Base(w, link) && Calm(w, link) && Faded(w.relay, s', link.me, w.now)
    ensures Calm(w.(relay := s'), link)
  {
    var v := w.(relay := s');
    assert forall n :: Live(v, n) <==> Live(w, n);
    forall n: Number | (link.me, n) in s'.channels
      ensures Agrees(v, link, n)
    {
      assert Agrees(w, link, n);
    }
    forall t | t in v.answers
      ensures GoodAnswer(v, link, t)
    {
      assert GoodAnswer(w, link, t);
      if w.answers[t] == R.ChannelBound {
        assert !w.relay.channels[(link.me, w.sent[t].number)].CanBeDeleted(w.now);
      }
    }
  }

  // ---------- Base holds everywhere ----------

  lemma TimeoutKeepsRelayInv(s: R.Core, link: Link, now: Instant, order: seq<SocketAddr>)
    requires RelayInv(s, link, now) && R.IsExpiryOrder(s.allocations, now, order)
    ensures RelayInv(R.DoTimeout(s, now, order), link, now)
    ensures Faded(s, R.DoTimeout(s, now, order), link.me, now)
  {
    RelayRuns.TimeoutKeepsInv(s, link.config, now, order);
  }

  lemma BindKeepsRelayInv(s: R.Core, link: Link, r: R.Request, now: Instant)
    requires RelayInv(s, link, now) && r.ChannelBind?
    ensures RelayInv(R.DoChannelBind(s, r, link.me, now), link, now)
  {
    RelayRuns.MessageKeepsInv(s, link.config, r, link.me, 0, now);
  }

  lemma StepKeepsRelayInv(w: World, link: Link, a: Action, v: World)
    requires Base(w, link) && Does(w, link, a, v)
    ensures RelayInv(v.relay, link, v.now)
  {
    if a.Advance? {
      assert forall n: Number :: (link.me, n) in v.relay.channels && v.relay.channels[(link.me, n)].bound ==>
          a.t <= v.relay.channels[(link.me, n)].Deadline();
    } else if a.DeliverRequest? {
      TimeoutKeepsRelayInv(w.relay, link, w.now, a.order);
      BindKeepsRelayInv(R.DoTimeout(w.relay, w.now, a.order), link, Request(w, a.tid, a.auth), w.now);
    } else if a.RelayEvent? {
      RelayRuns.StepKeepsInv(w.relay, link.config, a.event, w.now);
      OtherEventsFade(w.relay, link, a.event, w.now);
    }
  }

  lemma SendKeepsLinkInv(w: World, link: Link, n: Number, p: Peer, firstAt: Instant)
    requires LinkInv(w, link) && firstAt <= w.now && p.Family() in link.families
    ensures LinkInv(Send(w, n, p, firstAt), link)
  {
  }

  lemma AnswerKeepsLinkInv(w: World, link: Link, tid: Tid)
    requires LinkInv(w, link) && tid in w.sent && tid in w.answers
    ensures LinkInv(DoDeliverAnswer(w, tid), link)
  {
    var rest := w.(sent := w.sent - {tid}, answers := w.answers - {tid});
    assert LinkInv(rest, link);
    SendKeepsLinkInv(rest, link, w.sent[tid].number, w.sent[tid].peer, w.sent[tid].firstAt);
  }

  lemma RequestKeepsLinkInv(w: World, link: Link, tid: Tid, auth: R.Auth, order: seq<SocketAddr>)
    requires LinkInv(w, link) && tid in w.requests && tid in w.sent
    requires R.IsExpiryOrder(w.relay.allocations, w.now, order)
    ensures LinkInv(DoDeliverRequest(w, link, tid, auth, order), link)
  {
  }

  lemma BindKeepsLinkInv(w: World, link: Link, p: Peer)
    requires LinkInv(w, link) && p.Family() in link.families
    ensures LinkInv(DoBindChannel(w, p), link)
  {
    var v := DoBindChannel(w, p);
    var (client, number) := B.NewChannel(w.client, p, w.now);
    if number.Some? {
      var rest := w.(client := v.client, collision := v.collision);
      assert LinkInv(rest, link);
      hide LinkInv;
      SendKeepsLinkInv(rest, link, number.value, p, w.now);
    }
  }

  lemma StepKeepsLinkInv(w: World, link: Link, a: Action, v: World)
    requires ClientInv(w.client, link) && LinkInv(w, link) && Does(w, link, a, v)
    ensures LinkInv(v, link)
  {
    hide DoDeliverRequest, DoDeliverAnswer, DoBindChannel;
    match a
    case DeliverRequest(tid, auth, order) =>
      RequestKeepsLinkInv(w, link, tid, auth, order);
    case BindChannel(p) =>
      BindKeepsLinkInv(w, link, p);
    case RefreshChannel(n) =>
      SendKeepsLinkInv(w, link, n, w.client.inner[n].peer, w.now);
    case DeliverAnswer(tid) =>
      AnswerKeepsLinkInv(w, link, tid);
    case _ =>
  }

  lemma StepKeepsClientInv(w: World, link: Link, a: Action, v: World)
    requires ClientInv(w.client, link) && Does(w, link, a, v)
    ensures ClientInv(v.client, link)
  {
    if a.BindChannel? {
      B.NextIsFirstAvailable(w.client, w.now);
    }
  }

  lemma StepKeepsBase(w: World, link: Link, a: Action, v: World)
    requires Base(w, link) && Does(w, link, a, v)
    ensures Base(v, link)
  {
    StepKeepsRelayInv(w, link, a, v);
    StepKeepsLinkInv(w, link, a, v);
    StepKeepsClientInv(w, link, a, v);
  }

  // ---------- Calm holds until a collision ----------

  lemma AdvanceKeepsCalm(w: World, link: Link, t: Instant)
    requires Base(w, link) && Calm(w, link) && w.now <= t
    ensures Calm(w.(now := t), link)
  {
    var v := w.(now := t);
    assert forall n :: Live(v, n) ==> Live(w, n);
    forall n: Number | (link.me, n) in v.relay.channels
      ensures Agrees(v, link, n)
    {
      assert Agrees(w, link, n);
    }
    assert forall u :: u in v.answers && GoodAnswer(w, link, u) ==> GoodAnswer(v, link, u);
  }

  /** What does not depend on the data under way or on the client's looks at the clock. */
  lemma SameAgreement(w: World, v: World, link: Link)
    requires TableInv(w) && RelayAgrees(w, link) && AnswersGood(w, link)
    requires v.now == w.now && v.sent == w.sent && v.client == w.client && v.relay == w.relay && v.answers == w.answers
    ensures TableInv(v) && RelayAgrees(v, link) && AnswersGood(v, link)
  {
    SameTable(w, v);
    hide TableInv;
    assert forall n: Number :: (link.me, n) in v.relay.channels && Agrees(w, link, n) ==> Agrees(v, link, n);
    assert forall u :: u in v.answers && GoodAnswer(w, link, u) ==> GoodAnswer(v, link, u);
  }

  lemma KeepaliveKeepsCalm(w: World, link: Link)
    requires Base(w, link) && Calm(w, link)
    requires forall n :: DueForRefresh(w, n) ==> Outstanding(w.sent, n)
    ensures Calm(w.(lastTick := w.now), link)
  {
    var v := w.(lastTick := w.now);
    SameAgreement(w, v, link);
    hide TableInv, RelayAgrees, AnswersGood, ClientInv, RelayInv;
    forall n | n in v.client.inner && !v.client.inner[n].NoActivity() && !Outstanding(v.sent, n)
      ensures v.lastTick <= v.client.inner[n].boundAt + B.CHANNEL_LIFETIME + REQUEST_TIMEOUT
    {
      assert !DueForRefresh(w, n);
    }
  }

  lemma OtherRequestKeepsCalm(w: World, link: Link)
    requires Calm(w, link)
    ensures Calm(w.(nextTid := w.nextTid + 1), link)
  {
    var v := w.(nextTid := w.nextTid + 1);
    SameAgreement(w, v, link);
    hide TableInv, RelayAgrees, AnswersGood;
  }

  lemma DataKeepsTable(w: World, v: World, n: Number)
    requires TableInv(w) && v.now == w.now && v.sent == w.sent && v.client == B.Receive(w.client, n, w.now)
    ensures TableInv(v)
  {
    assert forall m :: Live(v, m) <==> Live(w, m);
  }

  lemma DataKeepsCalm(w: World, link: Link, d: Datum)
    requires Base(w, link) && Calm(w, link) && d in w.data
    ensures Calm(w.(client := B.Receive(w.client, d.number, w.now), data := w.data - {d}), link)
  {
    var v := w.(client := B.Receive(w.client, d.number, w.now), data := w.data - {d});
    DataKeepsTable(w, v, d.number);
    forall n: Number | (link.me, n) in v.relay.channels
      ensures Agrees(v, link, n)
    {
      assert Agrees(w, link, n);
    }
    assert forall u :: u in v.answers && GoodAnswer(w, link, u) ==> GoodAnswer(v, link, u);
  }

  lemma RelayDataKeepsCalm(w: World, link: Link, n: Number, port: nat, p: Peer)
    requires Base(w, link) && Calm(w, link) && R.Carries(w.relay.channels, link.me, n, port, p)
    ensures Calm(w.(data := w.data + {Datum(n, w.now)}), link)
  {
    var v := w.(data := w.data + {Datum(n, w.now)});
    SameAgreement(w, v, link);
    assert Agrees(w, link, n);
    assert w.now <= w.relay.channels[(link.me, n)].expiry;
    hide TableInv, RelayAgrees, AnswersGood, Base;
  }

  /** An active channel that is not being refreshed is young enough that the client still counts on it. */
  lemma ActiveIsLive(w: World, link: Link, n: Number)
    requires Base(w, link) && Calm(w, link) && DueForRefresh(w, n) && !Outstanding(w.sent, n)
    ensures Live(w, n)
  {
  }

  lemma OutstandingAfterSend(w: World, n: Number, p: Peer, firstAt: Instant, m: Number)
    requires w.nextTid !in w.sent
    ensures Outstanding(Send(w, n, p, firstAt).sent, m) <==> Outstanding(w.sent, m) || m == n
  {
    var v := Send(w, n, p, firstAt);
    assert Awaits(v.sent, w.nextTid, n);
    assert forall t :: t != w.nextTid ==> (Awaits(v.sent, t, m) <==> Awaits(w.sent, t, m));
  }

  lemma RebindKeepsTable(w: World, v: World, n: Number)
    requires TableInv(w) && Live(w, n) && !Outstanding(w.sent, n) && w.nextTid !in w.sent
    requires v == Send(w, n, w.client.inner[n].peer, w.now)
    requires forall m :: Outstanding(v.sent, m) <==> Outstanding(w.sent, m) || m == n
    ensures TableInv(v)
  {
    assert forall m :: Live(v, m) <==> Live(w, m);
    assert forall t, m :: Awaits(v.sent, t, m) && m != n ==> Awaits(w.sent, t, m);
    assert forall t :: Awaits(v.sent, t, n) ==> t == w.nextTid || Awaits(w.sent, t, n);
  }

  /** Asking again for a number the client counts on. */
  lemma RebindKeepsCalm(w: World, link: Link, n: Number)
    requires Base(w, link) && Calm(w, link) && Live(w, n) && !Outstanding(w.sent, n)
    ensures Calm(Send(w, n, w.client.inner[n].peer, w.now), link)
  {
    var v := Send(w, n, w.client.inner[n].peer, w.now);
    forall m
      ensures Outstanding(v.sent, m) <==> Outstanding(w.sent, m) || m == n
    {
      OutstandingAfterSend(w, n, w.client.inner[n].peer, w.now, m);
    }
    RebindKeepsTable(w, v, n);
    hide TableInv, ActivityInv, RelayAgrees, AnswersGood, Outstanding;
    RebindKeepsRest(w, v, link, n);
  }

  lemma RebindKeepsRest(w: World, v: World, link: Link, n: Number)
    requires LinkInv(w, link) && RelayAgrees(w, link) && AnswersGood(w, link) && ActivityInv(w)
    requires !Outstanding(w.sent, n) && n in w.client.inner && v == Send(w, n, w.client.inner[n].peer, w.now)
    requires forall m :: Outstanding(v.sent, m) <==> Outstanding(w.sent, m) || m == n
    ensures RelayAgrees(v, link) && AnswersGood(v, link) && ActivityInv(v)
  {
    forall m: Number | (link.me, m) in v.relay.channels
      ensures Agrees(v, link, m)
    {
      assert Agrees(w, link, m);
    }
    assert forall u :: u in v.answers && GoodAnswer(w, link, u) ==> GoodAnswer(v, link, u);
  }

  /** Handing out a number that no unanswered bind mentions. */
  lemma FreshKeepsCalm(w: World, link: Link, n: Number, p: Peer, next: Number)
    requires Base(w, link) && Calm(w, link) && !Outstanding(w.sent, n)
    requires w.client.Available(n, w.now)
    requires forall m :: Live(w, m) ==> w.client.inner[m].peer != p
    ensures var client := B.Bindings(w.client.inner[n := B.Channel(p, false, w.now, w.now)], next);
            Calm(Send(w.(client := client), n, p, w.now), link)
  {
    var client := B.Bindings(w.client.inner[n := B.Channel(p, false, w.now, w.now)], next);
    var v := Send(w.(client := client), n, p, w.now);
    forall m
      ensures Outstanding(v.sent, m) <==> Outstanding(w.sent, m) || m == n
    {
      OutstandingAfterSend(w.(client := client), n, p, w.now, m);
    }
    FreshKeepsTable(w, v, n);
    FreshKeepsRest(w, v, link, n);
  }

  lemma FreshKeepsRest(w: World, v: World, link: Link, n: Number)
    requires Base(w, link) && RelayAgrees(w, link) && AnswersGood(w, link) && ActivityInv(w)
    requires !Outstanding(w.sent, n) && w.client.Available(n, w.now) && n in v.client.inner
    requires v == w.(client := v.client, sent := v.sent, requests := v.requests, nextTid := v.nextTid)
    requires v.client.inner == w.client.inner[n := B.Channel(v.client.inner[n].peer, false, w.now, w.now)]
    requires v.sent == w.sent[w.nextTid := Bind(n, v.client.inner[n].peer, w.now, w.now)]
    requires forall m :: Outstanding(v.sent, m) <==> Outstanding(w.sent, m) || m == n
    ensures RelayAgrees(v, link) && AnswersGood(v, link) && ActivityInv(v)
  {
    forall m: Number | (link.me, m) in v.relay.channels
      ensures Agrees(v, link, m)
    {
      assert Agrees(w, link, m);
    }
    assert forall u :: u in v.answers && GoodAnswer(w, link, u) ==> GoodAnswer(v, link, u);
  }

  lemma FreshKeepsTable(w: World, v: World, n: Number)
    requires TableInv(w) && !Outstanding(w.sent, n) && w.nextTid !in w.sent
    requires v.now == w.now && n in v.client.inner
    requires v.client.inner == w.client.inner[n := B.Channel(v.client.inner[n].peer, false, w.now, w.now)]
    requires v.sent == w.sent[w.nextTid := Bind(n, v.client.inner[n].peer, w.now, w.now)]
    requires forall m :: Outstanding(v.sent, m) <==> Outstanding(w.sent, m) || m == n
    requires forall m :: Live(w, m) ==> w.client.inner[m].peer != v.client.inner[n].peer
    ensures TableInv(v)
  {
    assert forall m :: Live(v, m) <==> Live(w, m) || m == n;
    assert forall t, m :: t != w.nextTid ==> (Awaits(v.sent, t, m) <==> Awaits(w.sent, t, m));
    assert forall t :: Awaits(v.sent, t, n) ==> t == w.nextTid || Awaits(w.sent, t, n);
    forall t | t in v.sent
      ensures v.sent[t].number in v.client.inner && v.client.inner[v.sent[t].number].peer == v.sent[t].peer
    {
      assert Awaits(v.sent, t, v.sent[t].number);
    }
  }

  /** No live channel has a peer for which `bind_channel` takes a new number. */
  lemma NoLiveChannelTo(w: World, p: Peer)
    requires TableInv(w) && w.client.Valid() && !OutstandingPeer(w.sent, p)
    requires B.BoundChannel(w.client, p, w.now).None?
    ensures forall m :: Live(w, m) ==> w.client.inner[m].peer != p
  {
    B.LowestIsLowest(w.client.inner, (c: B.Channel) => c.BoundTo(p, w.now), B.FIRST_CHANNEL);
    forall m | Live(w, m)
      ensures w.client.inner[m].peer != p
    {
      if t :| Awaits(w.sent, t, m) {
        assert w.sent[t].peer == w.client.inner[m].peer;
      }
    }
  }

  lemma BindChannelKeepsCalm(w: World, link: Link, p: Peer)
    requires Base(w, link) && Calm(w, link) && CanBind(w, link, p)
    requires w.collision.None? && DoBindChannel(w, p).collision.None?
    ensures Calm(DoBindChannel(w, p), link)
  {
    var existing := B.BoundChannel(w.client, p, w.now);
    if existing.Some? {
      ReuseIsLive(w, p);
      RebindKeepsCalm(w, link, existing.value);
    } else if B.NextNumber(w.client, w.now).Some? {
      var n := B.NextNumber(w.client, w.now).value;
      B.NextIsFirstAvailable(w.client, w.now);
      NoLiveChannelTo(w, p);
      FreshKeepsCalm(w, link, n, p, B.Succ(n));
      assert w.(collision := None) == w;
    }
  }

  lemma ReuseIsLive(w: World, p: Peer)
    requires TableInv(w) && w.client.Valid() && !OutstandingPeer(w.sent, p)
    requires B.BoundChannel(w.client, p, w.now).Some?
    ensures var n := B.BoundChannel(w.client, p, w.now).value;
            Live(w, n) && w.client.inner[n].peer == p && !Outstanding(w.sent, n)
  {
    B.LowestIsLowest(w.client.inner, (c: B.Channel) => c.BoundTo(p, w.now), B.FIRST_CHANNEL);
    var n := B.BoundChannel(w.client, p, w.now).value;
    assert forall t :: Awaits(w.sent, t, n) ==> w.sent[t].peer == w.client.inner[n].peer;
  }

  lemma AnswerKeepsCalm(w: World, link: Link, tid: Tid)
    requires Base(w, link) && Calm(w, link) && tid in w.sent && tid in w.answers
    ensures Calm(DoDeliverAnswer(w, tid), link)
  {
    assert GoodAnswer(w, link, tid);
    if w.answers[tid] == R.ChannelBound {
      ConfirmKeepsTable(w, tid);
      ConfirmKeepsRest(w, link, tid);
    } else {
      RepeatKeepsTable(w, tid);
      RepeatKeepsRest(w, link, tid);
    }
  }

  lemma ConfirmKeepsTable(w: World, tid: Tid)
    requires TableInv(w) && tid in w.sent && tid in w.answers && w.answers[tid] == R.ChannelBound
    ensures var v := DoDeliverAnswer(w, tid);
            TableInv(v) && forall m :: Outstanding(v.sent, m) <==> Outstanding(w.sent, m) && m != w.sent[tid].number
  {
    var v := DoDeliverAnswer(w, tid);
    var n := w.sent[tid].number;
    assert Awaits(w.sent, tid, n);
    forall m
      ensures Outstanding(v.sent, m) <==> Outstanding(w.sent, m) && m != n
      ensures Live(v, m) <==> Live(w, m)
    {
      assert forall t :: t != tid ==> (Awaits(v.sent, t, m) <==> Awaits(w.sent, t, m));
    }
    assert forall t, m :: Awaits(v.sent, t, m) ==> Awaits(w.sent, t, m);
  }

  lemma ConfirmKeepsRest(w: World, link: Link, tid: Tid)
    requires Base(w, link) && RelayAgrees(w, link) && AnswersGood(w, link) && ActivityInv(w)
    requires tid in w.sent && tid in w.answers && w.answers[tid] == R.ChannelBound
             && w.sent[tid].number in w.client.inner
    requires w.client.inner[w.sent[tid].number].peer == w.sent[tid].peer
    requires forall m :: Outstanding(DoDeliverAnswer(w, tid).sent, m) <==>
             Outstanding(w.sent, m) && m != w.sent[tid].number
    ensures var v := DoDeliverAnswer(w, tid);
            RelayAgrees(v, link) && AnswersGood(v, link) && ActivityInv(v)
  {
    hide R.AllocationsInv, R.ChannelsInv;
    var v := DoDeliverAnswer(w, tid);
    var n := w.sent[tid].number;
    assert GoodAnswer(w, link, tid);
    forall m: Number | (link.me, m) in v.relay.channels
      ensures Agrees(v, link, m)
    {
      assert Agrees(w, link, m);
    }
    assert forall u :: u in v.answers && GoodAnswer(w, link, u) ==> GoodAnswer(v, link, u);
  }

  lemma RepeatKeepsTable(w: World, tid: Tid)
    requires TableInv(w) && tid in w.sent && tid in w.answers && w.answers[tid] == R.Failed(R.StaleNonce)
    requires w.nextTid !in w.sent
    ensures var v := DoDeliverAnswer(w, tid);
            TableInv(v) && forall m :: Outstanding(v.sent, m) <==> Outstanding(w.sent, m)
  {
    var v := DoDeliverAnswer(w, tid);
    var n := w.sent[tid].number;
    assert Awaits(w.sent, tid, n) && Awaits(v.sent, w.nextTid, n);
    forall m
      ensures Outstanding(v.sent, m) <==> Outstanding(w.sent, m)
      ensures Live(v, m) <==> Live(w, m)
    {
      assert forall t :: t != tid && t != w.nextTid ==> (Awaits(v.sent, t, m) <==> Awaits(w.sent, t, m));
    }
    forall t, m | t != w.nextTid && Awaits(v.sent, t, m)
      ensures Awaits(w.sent, t, m) && m != n
    {
      assert Awaits(w.sent, t, m) && t != tid;
    }
  }

  lemma RepeatKeepsRest(w: World, link: Link, tid: Tid)
    requires Base(w, link) && RelayAgrees(w, link) && AnswersGood(w, link) && ActivityInv(w)
    requires tid in w.sent && tid in w.answers && w.answers[tid] == R.Failed(R.StaleNonce)
    requires forall m :: Outstanding(DoDeliverAnswer(w, tid).sent, m) <==> Outstanding(w.sent, m)
    ensures var v := DoDeliverAnswer(w, tid);
            RelayAgrees(v, link) && AnswersGood(v, link) && ActivityInv(v)
  {
    var v := DoDeliverAnswer(w, tid);
    forall m: Number | (link.me, m) in v.relay.channels
      ensures Agrees(v, link, m)
    {
      assert Agrees(w, link, m);
    }
    assert forall u :: u in v.answers && GoodAnswer(w, link, u) ==> GoodAnswer(v, link, u);
  }

  /** The relay refuses no bind: whatever else it has reserved is past its cooldown. */
  lemma NothingConflicts(w: World, link: Link, s: R.Core, tid: Tid)
    requires Base(w, link) && Calm(w, link) && tid in w.sent
    requires Faded(w.relay, s, link.me, w.now)
    requires forall n: Number :: (link.me, n) in s.channels ==> !s.channels[(link.me, n)].CanBeDeleted(w.now)
    ensures !R.Conflicts(s, link.me, w.sent[tid].number, w.sent[tid].peer)
  {
    var n, p := w.sent[tid].number, w.sent[tid].peer;
    assert Awaits(w.sent, tid, n) && Live(w, n);
    forall q: Peer | R.Reserved(s.channels, link.me, n, q)
      ensures q == p
    {
      assert Agrees(w, link, n);
    }
    forall m: Number | R.Reserved(s.channels, link.me, m, p)
      ensures m == n
    {
      assert Agrees(w, link, m) && Live(w, m);
    }
  }

  lemma TimeoutForgets(s: R.Core, now: Instant, order: seq<SocketAddr>, me: SocketAddr)
    requires R.IsExpiryOrder(s.allocations, now, order)
    ensures var after := R.DoTimeout(s, now, order);
            forall n: Number :: (me, n) in after.channels ==> !after.channels[(me, n)].CanBeDeleted(now)
  {
  }

  /** An allocation relays to every peer whose family it has: an IPv4 address, if any, comes first. */
  lemma FamilyMeansRelay(s: R.Core, link: Link, p: Peer)
    requires R.Inv(s, link.config) && FamiliesMatch(link, s) && p.Family() in link.families
    ensures s.allocations[link.me].CanRelayTo(p)
  {
  }

  lemma BoundOutcome(w: World, link: Link, tid: Tid, order: seq<SocketAddr>)
    requires Base(w, link) && Calm(w, link) && tid in w.requests
    requires R.IsExpiryOrder(w.relay.allocations, w.now, order)
    ensures var s := R.DoTimeout(w.relay, w.now, order);
            R.BindOutcome(s, Request(w, tid, R.Authentic), link.me) == R.ChannelBound
  {
    var s := R.DoTimeout(w.relay, w.now, order);
    TimeoutKeepsRelayInv(w.relay, link, w.now, order);
    TimeoutForgets(w.relay, w.now, order, link.me);
    NothingConflicts(w, link, s, tid);
    FamilyMeansRelay(s, link, w.sent[tid].peer);
  }

  lemma SameTable(w: World, v: World)
    requires TableInv(w) && v.now == w.now && v.sent == w.sent && v.client == w.client
    ensures TableInv(v)
  {
    assert forall n :: Live(v, n) <==> Live(w, n);
  }

  lemma AcceptKeepsAgreement(w: World, v: World, link: Link, tid: Tid)
    requires Base(w, link) && TableInv(w) && RelayAgrees(w, link) && AnswersGood(w, link) && tid in w.requests
    requires v.now == w.now && v.sent == w.sent && v.client == w.client
    requires v.answers == w.answers[tid := R.ChannelBound]
    requires link.me in w.relay.allocations
    requires v.relay.channels == w.relay.channels[(link.me, w.sent[tid].number) :=
               R.Channel(w.now + R.CHANNEL_BINDING_DURATION, w.sent[tid].peer, w.relay.allocations[link.me].port, true)]
    ensures RelayAgrees(v, link) && AnswersGood(v, link)
  {
    var n := w.sent[tid].number;
    assert Awaits(w.sent, tid, n);
    forall m: Number | (link.me, m) in v.relay.channels
      ensures Agrees(v, link, m)
    {
      if m != n { assert Agrees(w, link, m); }
    }
    forall u | u in v.answers
      ensures GoodAnswer(v, link, u)
    {
      if u != tid {
        assert GoodAnswer(w, link, u);
        assert Awaits(w.sent, u, w.sent[u].number);
      }
    }
  }

  lemma StaleKeepsAgreement(w: World, v: World, link: Link, tid: Tid)
    requires RelayAgrees(w, link) && AnswersGood(w, link) && tid !in w.answers
    requires v.now == w.now && v.sent == w.sent && v.client == w.client && v.relay.channels == w.relay.channels
    requires v.answers == w.answers[tid := R.Failed(R.StaleNonce)]
    ensures RelayAgrees(v, link) && AnswersGood(v, link)
  {
    forall m: Number | (link.me, m) in v.relay.channels
      ensures Agrees(v, link, m)
    {
      assert Agrees(w, link, m);
    }
    forall u | u in v.answers
      ensures GoodAnswer(v, link, u)
    {
      if u != tid { assert GoodAnswer(w, link, u); }
    }
  }

  /** In a calm world a delivered request binds its pair, or is answered with a stale nonce and changes nothing. */
  lemma DeliveryEffect(w: World, link: Link, tid: Tid, auth: R.Auth, order: seq<SocketAddr>)
    requires Base(w, link) && Calm(w, link) && tid in w.requests
    requires auth.Authentic? || auth.code == R.StaleNonce
    requires R.IsExpiryOrder(w.relay.allocations, w.now, order)
    ensures var s := R.DoTimeout(w.relay, w.now, order);
            var v := DoDeliverRequest(w, link, tid, auth, order);
            && !v.refused && link.me in s.allocations
            && v == w.(relay := v.relay, answers := v.answers, requests := v.requests)
            && v.answers == w.answers[tid := if auth.Authentic? then R.ChannelBound else R.Failed(R.StaleNonce)]
            && v.relay.channels ==
               (if auth.Authentic? then
                  s.channels[(link.me, w.sent[tid].number) :=
                    R.Channel(w.now + R.CHANNEL_BINDING_DURATION, w.sent[tid].peer, s.allocations[link.me].port, true)]
                else s.channels)
  {
    hide Base, Calm;
    if auth.Authentic? { BoundOutcome(w, link, tid, order); }
    TimeoutKeepsMine(w, link, order);
  }

  lemma TimeoutKeepsMine(w: World, link: Link, order: seq<SocketAddr>)
    requires Base(w, link) && Calm(w, link) && R.IsExpiryOrder(w.relay.allocations, w.now, order)
    ensures !w.refused && link.me in R.DoTimeout(w.relay, w.now, order).allocations
  {
  }

  lemma DeliveredKeepsCalm(w: World, v: World, link: Link, tid: Tid, s: R.Core, accepted: bool)
    requires Base(w, link) && Calm(w, link) && tid in w.requests && Calm(w.(relay := s), link)
    requires RelayInv(s, link, w.now)
    requires v == w.(relay := v.relay, answers := v.answers, requests := v.requests)
    requires v.answers == w.answers[tid := if accepted then R.ChannelBound else R.Failed(R.StaleNonce)]
    requires v.relay.channels ==
             (if accepted then
                s.channels[(link.me, w.sent[tid].number) :=
                  R.Channel(w.now + R.CHANNEL_BINDING_DURATION, w.sent[tid].peer, s.allocations[link.me].port, true)]
              else s.channels)
    ensures Calm(v, link)
  {
    SameTable(w, v);
    if accepted {
      AcceptKeepsAgreement(w.(relay := s), v, link, tid);
    } else {
      StaleKeepsAgreement(w.(relay := s), v, link, tid);
    }
  }

  lemma RequestKeepsCalm(w: World, link: Link, tid: Tid, auth: R.Auth, order: seq<SocketAddr>)
    requires Base(w, link) && Calm(w, link) && tid in w.requests
    requires auth.Authentic? || auth.code == R.StaleNonce
    requires R.IsExpiryOrder(w.relay.allocations, w.now, order)
    ensures Calm(DoDeliverRequest(w, link, tid, auth, order), link)
  {
    var s := R.DoTimeout(w.relay, w.now, order);
    TimeoutKeepsRelayInv(w.relay, link, w.now, order);
    FadingKeepsCalm(w, link, s);
    DeliveryEffect(w, link, tid, auth, order);
    DeliveredKeepsCalm(w, DoDeliverRequest(w, link, tid, auth, order), link, tid, s, auth.Authentic?);
  }

  lemma StepKeepsCalm(w: World, link: Link, a: Action, v: World)
    requires Base(w, link) && Calm(w, link) && Does(w, link, a, v)
    requires w.collision.None? && v.collision.None?
    ensures Calm(v, link)
  {
    match a
    case Advance(t) => AdvanceKeepsCalm(w, link, t);
    case BindChannel(p) => BindChannelKeepsCalm(w, link, p);
    case RefreshChannel(n) => ActiveIsLive(w, link, n); RebindKeepsCalm(w, link, n);
    case Keepalive => KeepaliveKeepsCalm(w, link);
    case OtherRequest => OtherRequestKeepsCalm(w, link);
    case DeliverRequest(tid, auth, order) => RequestKeepsCalm(w, link, tid, auth, order);
    case RelayEvent(e) => OtherEventsFade(w.relay, link, e, w.now); FadingKeepsCalm(w, link, v.relay);
    case RelayData(n, port, p) => RelayDataKeepsCalm(w, link, n, port, p);
    case DeliverAnswer(tid) => AnswerKeepsCalm(w, link, tid);
    case DeliverData(d) => DataKeepsCalm(w, link, d);
  }
}
