/** What the client knows about the relay's expiries, at every point of every run, collisions or not. */
module TurnLinkExpiry {
  import opened Common
  import opened TurnLink
  import opened TurnLinkSafety
  import B = ChannelBindings
  import R = RelayCore

  predicate IsAccepted(sent: map<Tid, Bind>, answers: map<Tid, R.Outcome>, t: Tid, n: Number) {
    Awaits(sent, t, n) && t in answers && answers[t] == R.ChannelBound
  }

  /** The relay has accepted a bind of `n` that the client still waits for. */
  ghost predicate AcceptedUnanswered(sent: map<Tid, Bind>, answers: map<Tid, R.Outcome>, n: Number) {
    exists t :: IsAccepted(sent, answers, t, n)
  }

  /** A confirmed channel expires no earlier for the client than for the relay. */
  predicate Outlasts(b: B.Bindings, n: Number, channel: R.Channel) {
    n in b.inner && b.inner[n].bound ==> channel.expiry <= b.inner[n].boundAt + B.CHANNEL_LIFETIME
  }

  /** The number of an accepted bind is reserved for ten minutes from when it was sent, at least. */
  predicate Backed(s: R.Core, me: SocketAddr, bind: Bind) {
    (me, bind.number) in s.channels && bind.sentAt + R.CHANNEL_BINDING_DURATION <= s.channels[(me, bind.number)].expiry
  }

  ghost predicate ExpiriesKnown(w: World, link: Link) {
    forall n: Number :: (link.me, n) in w.relay.channels ==>
      AcceptedUnanswered(w.sent, w.answers, n) || Outlasts(w.client, n, w.relay.channels[(link.me, n)])
  }

  ghost predicate AcceptedBacked(w: World, link: Link) {
    forall t, n :: IsAccepted(w.sent, w.answers, t, n) ==> Backed(w.relay, link.me, w.sent[t])
  }

  ghost predicate ExpiryInv(w: World, link: Link) { ExpiriesKnown(w, link) && AcceptedBacked(w, link) }

  lemma FadingKeepsExpiry(w: World, link: Link, s: R.Core)
    requires LinkInv(w, link) && ExpiryInv(w, link) && Faded(w.relay, s, link.me, w.now)
    ensures ExpiryInv(w.(relay := s), link)
  {
    forall t, n | IsAccepted(w.sent, w.answers, t, n)
      ensures Backed(s, link.me, w.sent[t])
    {
      assert Backed(w.relay, link.me, w.sent[t]);
      assert !w.relay.channels[(link.me, n)].CanBeDeleted(w.now);
    }
  }

  /** A request that is sent is not accepted yet; the table changes for the better, if at all. */
  lemma SendKeepsExpiry(w: World, link: Link, client: B.Bindings, n: Number, p: Peer, firstAt: Instant)
    requires LinkInv(w, link) && ExpiryInv(w, link)
    requires forall m :: m in client.inner && client.inner[m].bound ==>
             m in w.client.inner && w.client.inner[m] == client.inner[m]
    ensures ExpiryInv(Send(w.(client := client), n, p, firstAt), link)
  {
    var v := Send(w.(client := client), n, p, firstAt);
    assert forall t, m :: IsAccepted(v.sent, v.answers, t, m) <==> IsAccepted(w.sent, w.answers, t, m);
  }

  lemma BindKeepsExpiry(w: World, link: Link, p: Peer)
    requires LinkInv(w, link) && ExpiryInv(w, link)
    ensures ExpiryInv(DoBindChannel(w, p), link)
  {
    var (client, number) := B.NewChannel(w.client, p, w.now);
    if number.Some? {
      var v := DoBindChannel(w, p);
      SendKeepsExpiry(w, link, client, number.value, p, w.now);
      assert v == Send(w.(client := client), number.value, p, w.now).(collision := v.collision);
    }
  }

  /** The relay judges a bind after it has looked at the clock. */
  lemma JudgementKeepsExpiry(w: World, link: Link, tid: Tid, auth: R.Auth, order: seq<SocketAddr>)
    requires Base(w, link) && ExpiryInv(w, link) && tid in w.requests
    requires R.IsExpiryOrder(w.relay.allocations, w.now, order) && (auth.Authentic? || auth.code == R.StaleNonce)
    ensures ExpiryInv(DoDeliverRequest(w, link, tid, auth, order), link)
  {
    hide R.AllocationsInv, R.ChannelsInv, ClientInv;
    var s := R.DoTimeout(w.relay, w.now, order);
    TimeoutKeepsRelayInv(w.relay, link, w.now, order);
    FadingKeepsExpiry(w, link, s);
    FamilyMeansRelay(s, link, w.sent[tid].peer);
    AnswerAdded(w.(relay := s), link, tid, DoDeliverRequest(w, link, tid, auth, order));
  }

  lemma AnswerAdded(w: World, link: Link, tid: Tid, v: World)
    requires LinkInv(w, link) && ExpiryInv(w, link) && tid in w.requests && tid in v.answers
    requires v == w.(relay := v.relay, requests := w.requests - {tid}, answers := w.answers[tid := v.answers[tid]],
             refused := v.refused)
    requires if v.answers[tid] == R.ChannelBound
             then exists c: R.Channel :: c.expiry == w.now + R.CHANNEL_BINDING_DURATION
                                         && v.relay.channels == w.relay.channels[(link.me, w.sent[tid].number) := c]
             else v.relay.channels == w.relay.channels
    ensures ExpiryInv(v, link)
  {
    var bound, n := v.answers[tid] == R.ChannelBound, w.sent[tid].number;
    assert bound ==> IsAccepted(v.sent, v.answers, tid, n);
    assert forall t, m :: t != tid ==> (IsAccepted(v.sent, v.answers, t, m) <==> IsAccepted(w.sent, w.answers, t, m));
    assert forall m :: !IsAccepted(w.sent, w.answers, tid, m);
  }

  lemma RestAccepted(w: World, tid: Tid)
    requires tid in w.sent && tid in w.answers
    ensures forall t, n :: IsAccepted(w.sent - {tid}, w.answers - {tid}, t, n) <==>
              IsAccepted(w.sent, w.answers, t, n) && t != tid
  {
  }

  lemma StaleKeepsExpiry(w: World, link: Link, tid: Tid)
    requires LinkInv(w, link) && ExpiryInv(w, link) && tid in w.sent && tid in w.answers
    requires w.answers[tid] == R.Failed(R.StaleNonce)
    ensures ExpiryInv(DoDeliverAnswer(w, tid), link)
  {
    var bind, rest := w.sent[tid], w.(sent := w.sent - {tid}, answers := w.answers - {tid});
    RestAccepted(w, tid);
    assert LinkInv(rest, link);
    hide LinkInv;
    SendKeepsExpiry(rest, link, w.client, bind.number, bind.peer, bind.firstAt);
  }

  /** A confirmation starts the client's ten minutes after the relay's; a failure forgets the number. */
  lemma AnswerKeepsExpiry(w: World, link: Link, tid: Tid)
    requires Base(w, link) && ExpiryInv(w, link) && tid in w.sent && tid in w.answers
    ensures ExpiryInv(DoDeliverAnswer(w, tid), link)
  {
    hide R.AllocationsInv, R.ChannelsInv, ClientInv, LinkInv;
    if w.answers[tid] == R.Failed(R.StaleNonce) {
      StaleKeepsExpiry(w, link, tid);
    } else {
      RestAccepted(w, tid);
    }
  }

  lemma StepKeepsExpiry(w: World, link: Link, a: Action, v: World)
    requires Base(w, link) && ExpiryInv(w, link) && Does(w, link, a, v)
    ensures ExpiryInv(v, link)
  {
    hide R.AllocationsInv, R.ChannelsInv, ClientInv, DoBindChannel, DoDeliverRequest, DoDeliverAnswer;
    match a
    case BindChannel(p) => BindKeepsExpiry(w, link, p);
    case RefreshChannel(n) => SendKeepsExpiry(w, link, w.client, n, w.client.inner[n].peer, w.now);
    case DeliverRequest(tid, auth, order) => JudgementKeepsExpiry(w, link, tid, auth, order);
    case DeliverAnswer(tid) => AnswerKeepsExpiry(w, link, tid);
    case RelayEvent(e) =>
      OtherEventsFade(w.relay, link, e, w.now);
      FadingKeepsExpiry(w, link, v.relay);
    case _ =>
  }

  lemma {:induction false} AlwaysKnown(run: Run, link: Link)
    requires IsRun(run, link)
    ensures Base(run.world, link) && ExpiryInv(run.world, link)
  {
    hide Does, Base, ExpiryInv;
    match run
    case Start(w) => InitKnown(w, link);
    case Then(before, a, w) =>
      AlwaysKnown(before, link);
      StepKeepsBase(before.world, link, a, w);
      StepKeepsExpiry(before.world, link, a, w);
  }

  lemma InitKnown(w: World, link: Link)
    requires Init(w, link)
    ensures Base(w, link) && ExpiryInv(w, link)
  {
  }

  /**
   When the client judges a confirmed channel rebindable, the relay's cooldown has ended as well, if and
   only if it is not the case that the relay has accepted a bind of it whose answer is still under way.
   */
  lemma RebindableMeansCooledDown(run: Run, link: Link, n: Number)
    requires IsRun(run, link)
    requires n in run.world.client.inner && run.world.client.inner[n].bound
    requires run.world.client.inner[n].CanRebind(run.world.now)
    ensures var w := run.world;
            ((link.me, n) in w.relay.channels ==> w.relay.channels[(link.me, n)].CanBeDeleted(w.now)) <==>
            !AcceptedUnanswered(w.sent, w.answers, n)
  {
    hide IsRun;
    AlwaysKnown(run, link);
    var w := run.world;
    if t :| IsAccepted(w.sent, w.answers, t, n) {
      assert Backed(w.relay, link.me, w.sent[t]);
    }
  }
}
