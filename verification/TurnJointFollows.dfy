/**
 Every run of the full client with its relay is followed by a run of `TurnLink`: as far as channels go,
 the client of `TurnLink` is the full client. So the theorems on refusals hold for the full client.
 */
module TurnJointFollows {
  import opened Common
  import opened TurnJoint
  import B = ChannelBindings
  import Backoff
  import C = TurnClient
  import L = TurnLink
  import R = RelayCore
  import S = TurnLinkSafety
  import T = TurnLinkTheorems

  // ---------- The relation ----------

  type InFlight = map<Tid, C.InFlight>

  predicate IsBind(sent: InFlight, id: Tid) { id in sent && sent[id].request.op.ChannelBind? }

  predicate SameBind(f: C.InFlight, b: L.Bind) {
    f.request.op == C.ChannelBind(b.number, b.peer) && f.backoff.start == b.sentAt
  }

  /** A client that holds an allocation of the link's families. */
  ghost predicate Connected(s: C.Client, link: L.Link) {
    && s.active.Some? && s.credentials.Some? && s.lifetime.Some? && s.HasAllocation() && s.buffered == []
    && (forall f :: f in link.families <==> if f == V4 then s.relay4.Some? else s.relay6.Some?)
  }

  /** The requests of the client are young, and each is on its way or answered. */
  ghost predicate RequestsInv(j: Joint) {
    && Accounted(j.client.sent, j.requests, j.answers, j.since)
    && (forall id :: id in j.client.sent ==>
          id < j.client.nextTid && IsYoung(j.client.sent[id], j.now) && j.since[id] <= j.now)
  }

  ghost predicate Accounted(sent: InFlight, requests: set<Tid>, answers: map<Tid, R.Outcome>,
                            since: map<Tid, Instant>) {
    && sent.Keys == since.Keys == requests + answers.Keys && requests !! answers.Keys
    && (forall id :: id in answers ==> Fits(sent[id].request.op, answers[id]))
  }

  /** The unanswered binds of both clients are the same, and equally far. */
  ghost predicate SameBinds(sent: InFlight, requests: set<Tid>, answers: map<Tid, R.Outcome>, since: map<Tid, Instant>,
                            w: L.World) {
    && (forall id :: id in w.sent <==> IsBind(sent, id))
    && (forall id :: id in w.requests <==> IsBind(sent, id) && id in requests)
    && (forall id :: id in w.answers <==> IsBind(sent, id) && id in answers)
    && (forall id :: id in w.sent ==> SameBind(sent[id], w.sent[id]) && id in since && since[id] == w.sent[id].firstAt)
    && (forall id :: id in w.answers ==> w.answers[id] == answers[id])
  }

  function ClashOf(c: Option<L.Collision>): Option<Clash> {
    if c.Some? then Some(Clash(c.value.number, c.value.at)) else None
  }

  ghost predicate Follows(j: Joint, w: L.World, link: L.Link) {
    && w.now == j.now && w.client == j.client.bindings && w.nextTid == j.client.nextTid
    && w.relay == j.relay && w.data == j.data && w.refused == j.refused && j.clash == ClashOf(w.collision)
    && Connected(j.client, link) && RequestsInv(j)
    && SameBinds(j.client.sent, j.requests, j.answers, j.since, w)
  }

  /**
   The full client keeps its socket alive at least as often as the linked one looks at the clock, and its
   allocation has not expired.
   */
  ghost predicate OnTime(s: C.Client, now: Instant, lastTick: Instant) {
    && s.active.Some? && s.active.value.nextBinding <= lastTick + L.BINDING_INTERVAL
    && s.lifetime.Some? && now < s.ExpiresAt().value
  }

  // ---------- Asking ----------

  /** `s'` is `s` with a request of its own added, under the next transaction id. */
  predicate HasAsked(s: C.Client, s': C.Client, op: C.Op, now: Instant) {
    && s'.nextTid == s.nextTid + 1 && s.nextTid in s'.sent && s'.sent == s.sent[s.nextTid := s'.sent[s.nextTid]]
    && s'.sent[s.nextTid].request.op == op && s'.sent[s.nextTid].backoff == Backoff.Started(now)
  }

  lemma AskAsks(s: C.Client, op: C.Op, now: Instant)
    requires s.active.Some? && s.credentials.Some?
    ensures var v := C.Ask(s, op, now);
            HasAsked(s, v, op, now) && v == s.(nextTid := v.nextTid, sent := v.sent, transmits := v.transmits)
  {
  }

  lemma AskedRequests(j: Joint, s': C.Client, op: C.Op, first: Instant)
    requires RequestsInv(j) && HasAsked(j.client, s', op, j.now) && first <= j.now
    requires !op.Allocate? && op != C.Op.Refresh(true)
    ensures var k := Sends(j, s', first);
            && RequestsInv(k) && k.requests == j.requests + {j.client.nextTid}
               && k.since == j.since[j.client.nextTid := first]
            && j.client.nextTid !in j.client.sent
  {
    assert s'.sent.Keys - j.client.sent.Keys == {j.client.nextTid};
  }

  lemma OtherKeepsBinds(sent: InFlight, requests: set<Tid>, answers: map<Tid, R.Outcome>, since: map<Tid, Instant>,
                        w: L.World,
                        tid: Tid, f: C.InFlight, first: Instant)
    requires SameBinds(sent, requests, answers, since, w) && tid !in sent && !f.request.op.ChannelBind?
    ensures SameBinds(sent[tid := f], requests + {tid}, answers, since[tid := first], w)
  {
    assert forall id :: IsBind(sent[tid := f], id) <==> IsBind(sent, id);
  }

  lemma BindAddsBind(sent: InFlight, requests: set<Tid>, answers: map<Tid, R.Outcome>, since: map<Tid, Instant>,
                     w: L.World, v: L.World,
                     f: C.InFlight, b: L.Bind)
    requires SameBinds(sent, requests, answers, since, w) && w.nextTid !in sent && w.nextTid !in answers
             && SameBind(f, b)
    requires v.sent == w.sent[w.nextTid := b] && v.requests == w.requests + {w.nextTid} && v.answers == w.answers
    ensures SameBinds(sent[w.nextTid := f], requests + {w.nextTid}, answers, since[w.nextTid := b.firstAt], v)
  {
    var sent' := sent[w.nextTid := f];
    assert forall id :: IsBind(sent', id) <==> IsBind(sent, id) || id == w.nextTid;
  }

  lemma OtherAsked(j: Joint, w: L.World, link: L.Link, s': C.Client, op: C.Op, first: Instant)
    requires Follows(j, w, link) && Connected(s', link) && HasAsked(j.client, s', op, j.now) && first <= j.now
    requires op == C.Op.Binding || op == C.Op.Refresh(false)
    requires s'.bindings == j.client.bindings
    ensures Follows(Sends(j, s', first), w.(nextTid := w.nextTid + 1), link)
  {
    AskedRequests(j, s', op, first);
    hide RequestsInv, Connected, SameBinds;
    var tid := j.client.nextTid;
    OtherKeepsBinds(j.client.sent, j.requests, j.answers, j.since, w, tid, s'.sent[tid], first);
    SameBindsOnly(s'.sent, j.requests + {tid}, j.answers, j.since[tid := first], w, w.(nextTid := w.nextTid + 1));
  }

  lemma SameBindsOnly(sent: InFlight, requests: set<Tid>, answers: map<Tid, R.Outcome>, since: map<Tid, Instant>,
                      w: L.World, v: L.World)
    requires SameBinds(sent, requests, answers, since, w) && v.sent == w.sent && v.requests == w.requests
             && v.answers == w.answers
    ensures SameBinds(sent, requests, answers, since, v)
  {
  }

  lemma BindAsked(j: Joint, w: L.World, link: L.Link, s': C.Client, n: B.Number, p: SocketAddr, first: Instant,
                  collision: Option<L.Collision>)
    requires Follows(j, w, link) && Connected(s', link) && HasAsked(j.client, s', C.ChannelBind(n, p), j.now)
             && first <= j.now
    ensures var k := Sends(j, s', first).(clash := ClashOf(collision));
            Follows(k, L.Send(w.(client := s'.bindings, collision := collision), n, p, first), link)
  {
    AskedRequests(j, s', C.ChannelBind(n, p), first);
    NotAnswered(j);
    var k := Sends(j, s', first).(clash := ClashOf(collision));
    assert RequestsInv(k);
    hide RequestsInv, Connected, SameBinds;
    var v := L.Send(w.(client := s'.bindings, collision := collision), n, p, first);
    BindAddsBind(j.client.sent, j.requests, j.answers, j.since, w, v, s'.sent[w.nextTid], L.Bind(n, p, w.now, first));
  }

  lemma NotAnswered(j: Joint)
    requires RequestsInv(j)
    ensures j.client.nextTid !in j.answers && j.client.nextTid !in j.client.sent
  {
  }

  // ---------- Runs ----------

  /** `longer` goes on from `run`, and is as prompt. */
  ghost predicate GoesOn(run: L.Run, longer: L.Run, link: L.Link) {
    L.IsRun(longer, link) && (L.Prompt(run) ==> L.Prompt(longer))
  }

  lemma PromptStep(w: L.World, link: L.Link, a: L.Action, v: L.World)
    requires L.Does(w, link, a, v) && !a.Advance? && L.IsPrompt(w)
    ensures L.IsPrompt(v)
  {
  }

  lemma Append(start: L.Run, run: L.Run, link: L.Link, a: L.Action, v: L.World) returns (longer: L.Run)
    requires GoesOn(start, run, link) && L.Does(run.world, link, a, v)
             && (a.Advance? && L.Prompt(run) ==> L.IsPrompt(v))
    ensures longer.world == v && GoesOn(start, longer, link)
  {
    hide L.Does, L.IsPrompt;
    longer := L.Then(run, a, v);
    if L.Prompt(run) && !a.Advance? { PromptStep(run.world, link, a, v); }
  }

  lemma SendsSame(j: Joint, s': C.Client, first: Instant)
    requires RequestsInv(j) && s'.sent == j.client.sent
    ensures Sends(j, s', first) == j.(client := s')
  {
    assert s'.sent.Keys - j.client.sent.Keys == {};
    assert (map id | id in s'.sent :: if id in j.since then j.since[id] else first) == j.since;
  }

  lemma SendsTwice(j: Joint, s': C.Client, s'': C.Client, first: Instant)
    requires j.client.sent.Keys <= s'.sent.Keys <= s''.sent.Keys && j.since.Keys == j.client.sent.Keys
    ensures Sends(Sends(j, s', first), s'', first) == Sends(j, s'', first)
  {
    var k := Sends(j, s', first);
    assert k.requests + (s''.sent.Keys - s'.sent.Keys) == j.requests + (s''.sent.Keys - j.client.sent.Keys);
  }

  // ---------- What the node asks for ----------

  lemma SameOutstanding(j: Joint, w: L.World, link: L.Link, p: SocketAddr, n: B.Number)
    requires Follows(j, w, link)
    ensures j.client.BindInFlightTo(p) <==> L.OutstandingPeer(w.sent, p)
    ensures j.client.BindInFlight(n) <==> L.Outstanding(w.sent, n)
  {
    if t :| L.Awaits(w.sent, t, n) { assert IsBind(j.client.sent, t); }
    if t :| t in w.sent && w.sent[t].peer == p { assert IsBind(j.client.sent, t); }
    if id :| IsBind(j.client.sent, id) && j.client.sent[id].request.op.number == n { assert L.Awaits(w.sent, id, n); }
    if id :| IsBind(j.client.sent, id) && j.client.sent[id].request.op.peer == p { assert id in w.sent; }
  }

  ghost function Bound(j: Joint, p: SocketAddr): Joint {
    Sends(j, C.BindChannel(j.client, p, j.now), j.now).(clash := ClashAfter(j, p))
  }

  /** Whether the full client does anything at all, and what: in terms of the linked one. */
  lemma BindEffect(j: Joint, w: L.World, link: L.Link, p: SocketAddr)
    requires Follows(j, w, link)
    ensures var (bindings, number) := B.NewChannel(w.client, p, w.now);
            if L.CanBind(w, link, p) && number.Some?
            then C.BindChannel(j.client, p, j.now)
                == C.Ask(j.client.(bindings := bindings), C.ChannelBind(number.value, p), j.now)
            else C.BindChannel(j.client, p, j.now) == j.client
  {
    hide RequestsInv, SameBinds, C.Ask;
    SameOutstanding(j, w, link, p, 0);
    assert j.client.CanRelayTo(p) <==> p.Family() in link.families;
  }

  lemma BindMatches(j: Joint, w: L.World, link: L.Link, p: SocketAddr)
    requires Follows(j, w, link) && L.CanBind(w, link, p) && B.NewChannel(w.client, p, w.now).1.Some?
    ensures Follows(Bound(j, p), L.DoBindChannel(w, p), link)
    ensures C.BindChannel(j.client, p, j.now).active == j.client.active
            && C.BindChannel(j.client, p, j.now).lifetime == j.client.lifetime
  {
    var (bindings, number) := B.NewChannel(w.client, p, w.now);
    var n, v := number.value, L.DoBindChannel(w, p);
    var s := j.client.(bindings := bindings);
    BindEffect(j, w, link, p);
    SameOutstanding(j, w, link, p, n);
    AskAsks(s, C.ChannelBind(n, p), j.now);
    var s' := C.BindChannel(j.client, p, j.now);
    assert ClashOf(v.collision) == ClashAfter(j, p);
    hide RequestsInv, SameBinds, C.BindChannel, C.Ask, ClashAfter;
    BindAsked(j, w, link, s', n, p, j.now, v.collision);
  }

  lemma BindFollowed(start: L.Run, run: L.Run, link: L.Link, j: Joint, p: SocketAddr) returns (longer: L.Run)
    requires GoesOn(start, run, link) && Follows(j, run.world, link)
    ensures GoesOn(start, longer, link) && Follows(Bound(j, p), longer.world, link)
    ensures longer.world.lastTick == run.world.lastTick
    ensures Bound(j, p).client.active == j.client.active && Bound(j, p).client.lifetime == j.client.lifetime
  {
    longer := run;
    BindEffect(j, run.world, link, p);
    if L.CanBind(run.world, link, p) && B.NewChannel(run.world.client, p, run.world.now).1.Some? {
      BindMatches(j, run.world, link, p);
      hide Follows, C.BindChannel, ClashAfter, GoesOn, L.CanBind;
      longer := Append(start, run, link, L.BindChannel(p), L.DoBindChannel(run.world, p));
    } else {
      NothingBound(j, run.world, link, p);
    }
  }

  lemma NothingBound(j: Joint, w: L.World, link: L.Link, p: SocketAddr)
    requires Follows(j, w, link) && C.BindChannel(j.client, p, j.now) == j.client
    ensures Bound(j, p) == j
  {
    SendsSame(j, j.client, j.now);
  }

  /** Encoding data binds a channel if there is none. */
  lemma EncodeIsBind(s: C.Client, p: SocketAddr, now: Instant)
    requires s.active.Some?
    ensures C.Encode(s, p, now) == C.BindChannel(s, p, now)
  {
  }

  lemma OtherFollowed(start: L.Run, run: L.Run, link: L.Link, j: Joint, s': C.Client, op: C.Op, first: Instant)
    returns (longer: L.Run)
    requires GoesOn(start, run, link) && Follows(j, run.world, link)
    requires Connected(s', link) && HasAsked(j.client, s', op, j.now) && s'.bindings == j.client.bindings
             && first <= j.now
    requires op == C.Op.Binding || op == C.Op.Refresh(false)
    ensures GoesOn(start, longer, link) && Follows(Sends(j, s', first), longer.world, link)
    ensures longer.world == run.world.(nextTid := run.world.nextTid + 1)
  {
    OtherAsked(j, run.world, link, s', op, first);
    hide Follows, GoesOn;
    longer := Append(start, run, link, L.OtherRequest, run.world.(nextTid := run.world.nextTid + 1));
  }

  lemma AskOtherFollowed(start: L.Run, run: L.Run, link: L.Link, j: Joint, op: C.Op, first: Instant)
    returns (longer: L.Run)
    requires GoesOn(start, run, link) && Follows(j, run.world, link) && first <= j.now
    requires op == C.Op.Refresh(false)
    ensures GoesOn(start, longer, link) && Follows(Sends(j, C.Ask(j.client, op, j.now), first), longer.world, link)
    ensures longer.world == run.world.(nextTid := run.world.nextTid + 1)
  {
    AskAsks(j.client, op, j.now);
    hide C.Ask, GoesOn;
    longer := OtherFollowed(start, run, link, j, C.Ask(j.client, op, j.now), op, first);
  }

  /** The client changed, but not in what counts here. */
  lemma Unaffected(j: Joint, w: L.World, link: L.Link, s': C.Client)
    requires Follows(j, w, link) && Connected(s', link)
    requires s'.sent == j.client.sent && s'.bindings == j.client.bindings && s'.nextTid == j.client.nextTid
    ensures Sends(j, s', j.now) == j.(client := s') && Follows(j.(client := s'), w, link)
  {
    SendsSame(j, s', j.now);
  }

  // ---------- Looking at the clock ----------

  lemma {:induction false} NoRetries(s: C.Client, picks: seq<Tid>, now: Instant)
    requires C.AreRetries(s, picks, now) && forall id :: !C.IsDue(s, id, now)
    ensures picks == []
  {
    if picks != [] { NoRetries(s, picks[..|picks| - 1], now); }
  }

  /** No request is due, because all of them are answered in time. */
  lemma NothingDue(j: Joint, id: Tid)
    requires RequestsInv(j) && j.client.lifetime.Some? && j.now < j.client.ExpiresAt().value
    ensures C.BeforeRetries(j.client, j.now) == C.KeepAlive(j.client, j.now)
            && !C.IsDue(C.KeepAlive(j.client, j.now), id, j.now)
  {
  }

  lemma KeepAliveAsks(s: C.Client, now: Instant)
    requires s.active.Some? && C.KeepAlive(s, now) != s
    ensures var v := C.KeepAlive(s, now);
            && HasAsked(s, v, C.Op.Binding, now)
            && v == s.(active := v.active, nextTid := v.nextTid, sent := v.sent, transmits := v.transmits)
            && v.active == Some(s.active.value.(nextBinding := now + L.BINDING_INTERVAL))
  {
  }

  lemma KeepAliveFollowed(start: L.Run, run: L.Run, link: L.Link, j: Joint) returns (longer: L.Run)
    requires GoesOn(start, run, link) && Follows(j, run.world, link)
    ensures GoesOn(start, longer, link) && Follows(Sends(j, C.KeepAlive(j.client, j.now), j.now), longer.world, link)
    ensures longer.world == run.world.(nextTid := longer.world.nextTid)
  {
    var s' := C.KeepAlive(j.client, j.now);
    if s' == j.client {
      longer := run;
      SendsSame(j, s', j.now);
    } else {
      KeepAliveAsks(j.client, j.now);
      hide C.KeepAlive, GoesOn;
      longer := OtherFollowed(start, run, link, j, s', C.Op.Binding, j.now);
    }
  }

  lemma RefreshIfDueFollowed(start: L.Run, run: L.Run, link: L.Link, j: Joint) returns (longer: L.Run)
    requires GoesOn(start, run, link) && Follows(j, run.world, link)
    ensures GoesOn(start, longer, link) && Follows(Sends(j, C.RefreshIfDue(j.client, j.now), j.now), longer.world, link)
    ensures longer.world == run.world.(nextTid := longer.world.nextTid)
  {
    if C.RefreshIfDue(j.client, j.now) == j.client {
      longer := run;
      SendsSame(j, j.client, j.now);
    } else {
      hide C.Ask, GoesOn;
      longer := AskOtherFollowed(start, run, link, j, C.Op.Refresh(false), j.now);
    }
  }

  lemma {:induction false} ToRefreshDistinct(s: C.Client, n: B.Number, now: Instant)
    ensures Distinct(C.ToRefresh(s, n, now)) && forall m :: m in C.ToRefresh(s, n, now) ==> n <= m
    decreases B.LAST_CHANNEL + 1 - n
  {
    if n <= B.LAST_CHANNEL {
      ToRefreshDistinct(s, n + 1, now);
      var rest := C.ToRefresh(s, n + 1, now);
      assert forall j :: 0 <= j < |rest| ==> rest[j] in rest;
    }
  }

  /** The channels the full client refreshes are those that are due in the world and not asked for yet. */
  lemma ToRefreshMatches(j: Joint, w: L.World, link: L.Link, n: B.Number)
    requires Follows(j, w, link) && w.client.Valid()
    ensures n in C.ToRefresh(j.client, B.FIRST_CHANNEL, j.now) <==> L.DueForRefresh(w, n) && !L.Outstanding(w.sent, n)
  {
    hide RequestsInv, SameBinds, Connected;
    C.ToRefreshHeld(j.client, B.FIRST_CHANNEL, j.now);
    SameOutstanding(j, w, link, SocketAddr(IpAddr(V4, 0), 0), n);
  }

  lemma {:induction false} RefreshChannelsGrows(s: C.Client, numbers: seq<B.Number>, now: Instant)
    requires forall n :: n in numbers ==> n in s.bindings.inner
    ensures var v := C.RefreshChannels(s, numbers, now);
            s.sent.Keys <= v.sent.Keys && v.active == s.active && v.lifetime == s.lifetime
    decreases |numbers|
  {
    if numbers != [] {
      HeadIn(numbers);
      RefreshChannelsGrows(C.Ask(s, C.ChannelBind(numbers[0], s.bindings.inner[numbers[0]].peer), now), numbers[1..],
          now);
    }
  }

  lemma RefreshFollowed(start: L.Run, run: L.Run, link: L.Link, j: Joint, n: B.Number) returns (longer: L.Run)
    requires GoesOn(start, run, link) && Follows(j, run.world, link)
    requires L.DueForRefresh(run.world, n) && !L.Outstanding(run.world.sent, n)
    ensures n in j.client.bindings.inner && GoesOn(start, longer, link)
    ensures Follows(Sends(j, C.Ask(j.client, C.ChannelBind(n, j.client.bindings.inner[n].peer), j.now), j.now),
            longer.world, link)
    ensures longer.world == L.Send(run.world, n, run.world.client.inner[n].peer, run.world.now)
  {
    var w, p := run.world, run.world.client.inner[n].peer;
    AskAsks(j.client, C.ChannelBind(n, p), j.now);
    var s' := C.Ask(j.client, C.ChannelBind(n, p), j.now);
    hide RequestsInv, SameBinds, C.Ask;
    BindAsked(j, w, link, s', n, p, j.now, w.collision);
    assert w.(client := s'.bindings, collision := w.collision) == w;
    assert Sends(j, s', j.now).(clash := ClashOf(w.collision)) == Sends(j, s', j.now);
    hide Follows, GoesOn;
    longer := Append(start, run, link, L.RefreshChannel(n), L.Send(w, n, p, w.now));
  }

  lemma SentIsOutstanding(w: L.World, n: B.Number, p: SocketAddr)
    requires forall t :: t in w.sent ==> t < w.nextTid
    ensures forall m :: L.Outstanding(L.Send(w, n, p, w.now).sent, m) <==> L.Outstanding(w.sent, m) || m == n
  {
    forall m ensures L.Outstanding(L.Send(w, n, p, w.now).sent, m) <==> L.Outstanding(w.sent, m) || m == n {
      S.OutstandingAfterSend(w, n, p, w.now, m);
    }
  }

  lemma RunInv(run: L.Run, link: L.Link)
    requires L.IsRun(run, link)
    ensures S.Base(run.world, link)
  {
    hide L.IsRun, S.Base;
    T.AlwaysReached(run, link);
  }

  lemma RunTids(run: L.Run, link: L.Link)
    requires L.IsRun(run, link)
    ensures run.world.client.Valid() && (forall t :: t in run.world.sent ==> t < run.world.nextTid)
  {
    RunInv(run, link);
  }

  /** Due channels are refreshed one after the other. */
  lemma {:induction false} RefreshesFollowed(start: L.Run, run: L.Run, link: L.Link, j: Joint, numbers: seq<B.Number>)
    returns (longer: L.Run)
    requires GoesOn(start, run, link) && Follows(j, run.world, link) && Distinct(numbers)
    requires forall n :: n in numbers ==> L.DueForRefresh(run.world, n) && !L.Outstanding(run.world.sent, n)
    ensures forall n :: n in numbers ==> n in j.client.bindings.inner
    ensures GoesOn(start, longer, link) && Follows(Sends(j, C.RefreshChannels(j.client, numbers, j.now), j.now),
            longer.world, link)
    ensures longer.world.now == run.world.now && longer.world.client == run.world.client
    ensures forall n :: L.Outstanding(longer.world.sent, n) <==> L.Outstanding(run.world.sent, n) || n in numbers
    decreases |numbers|
  {
    if numbers == [] {
      longer := run;
      SendsSame(j, j.client, j.now);
    } else {
      HeadIn(numbers);
      var w, n, rest := run.world, numbers[0], numbers[1..];
      assert forall m :: m in rest ==> m in numbers && m != n;
      RunTids(run, link);
      longer := RefreshFollowed(start, run, link, j, n);
      SentIsOutstanding(w, n, w.client.inner[n].peer);
      var asked := C.Ask(j.client, C.ChannelBind(n, j.client.bindings.inner[n].peer), j.now);
      var k := Sends(j, asked, j.now);
      AskAsks(j.client, C.ChannelBind(n, j.client.bindings.inner[n].peer), j.now);
      assert j.since.Keys == j.client.sent.Keys;
      hide Follows, GoesOn, C.Ask, L.Outstanding;
      longer := RefreshesFollowed(start, longer, link, k, rest);
      RefreshChannelsGrows(asked, rest, j.now);
      SendsTwice(j, asked, C.RefreshChannels(asked, rest, j.now), j.now);
    }
  }

  lemma TickPhases(s: C.Client, now: Instant)
    requires C.RetriesAll(C.BeforeRetries(s, now), [], now) && C.BeforeRetries(s, now) == C.KeepAlive(s, now)
    ensures var refreshed := C.RefreshIfDue(C.KeepAlive(s, now), now);
            var numbers := C.ToRefresh(refreshed, B.FIRST_CHANNEL, now);
            && (forall n :: n in numbers ==> n in refreshed.bindings.inner)
            && C.HandleTimeout(s, now, []) == C.RefreshChannels(refreshed, numbers, now)
  {
    var refreshed := C.RefreshIfDue(C.KeepAlive(s, now), now);
    C.ToRefreshHeld(refreshed, B.FIRST_CHANNEL, now);
  }

  lemma TickBasis(s: C.Client, now: Instant)
    requires s.active.Some?
    ensures var kept := C.KeepAlive(s, now); var refreshed := C.RefreshIfDue(kept, now);
            && s.sent.Keys <= kept.sent.Keys <= refreshed.sent.Keys && refreshed.lifetime == s.lifetime
               && refreshed.active.Some?
            && (refreshed.active == s.active || refreshed.active.value.nextBinding == now + L.BINDING_INTERVAL)
  {
  }

  lemma TickDone(start: L.Run, run: L.Run, link: L.Link, j: Joint) returns (longer: L.Run)
    requires GoesOn(start, run, link) && Follows(j, run.world, link)
    requires forall n :: L.DueForRefresh(run.world, n) ==> L.Outstanding(run.world.sent, n)
    ensures GoesOn(start, longer, link) && Follows(j, longer.world, link) && longer.world.lastTick == j.now
  {
    var v := run.world.(lastTick := run.world.now);
    SameBindsOnly(j.client.sent, j.requests, j.answers, j.since, run.world, v);
    hide GoesOn, SameBinds, RequestsInv, Connected;
    longer := Append(start, run, link, L.Keepalive, v);
  }

  lemma NoPicks(j: Joint, picks: seq<Tid>)
    requires RequestsInv(j) && j.client.lifetime.Some? && j.now < j.client.ExpiresAt().value
    requires C.RetriesAll(C.BeforeRetries(j.client, j.now), picks, j.now)
    ensures picks == [] && C.BeforeRetries(j.client, j.now) == C.KeepAlive(j.client, j.now)
  {
    hide C.KeepAlive, C.BeforeRetries, RequestsInv;
    forall id ensures !C.IsDue(C.BeforeRetries(j.client, j.now), id, j.now) { NothingDue(j, id); }
    NothingDue(j, 0);
    NoRetries(C.BeforeRetries(j.client, j.now), picks, j.now);
  }

  /** Handling a timeout: keep alive, refresh the allocation, refresh the channels; there is nothing to retry. */
  lemma TickFollowed(start: L.Run, run: L.Run, link: L.Link, j: Joint, picks: seq<Tid>) returns (longer: L.Run)
    requires GoesOn(start, run, link) && Follows(j, run.world, link) && OnTime(j.client, j.now, run.world.lastTick)
    requires C.RetriesAll(C.BeforeRetries(j.client, j.now), picks, j.now) && run.world.lastTick <= j.now
    ensures var k := Sends(j, C.HandleTimeout(j.client, j.now, picks), j.now);
            GoesOn(start, longer, link) && Follows(k, longer.world, link)
                && OnTime(k.client, k.now, longer.world.lastTick)
  {
    NoPicks(j, picks);
    hide GoesOn, C.HandleTimeout, C.KeepAlive, C.RefreshIfDue, C.ToRefresh, C.RefreshChannels, C.RetriesAll,
         C.BeforeRetries;
    TickPhases(j.client, j.now);
    TickBasis(j.client, j.now);
    assert j.since.Keys == j.client.sent.Keys;
    longer := PhasesFollowed(start, run, link, j);
    var refreshed := C.RefreshIfDue(C.KeepAlive(j.client, j.now), j.now);
    RefreshChannelsGrows(refreshed, C.ToRefresh(refreshed, B.FIRST_CHANNEL, j.now), j.now);
  }

  lemma PhasesFollowed(start: L.Run, run: L.Run, link: L.Link, j: Joint) returns (longer: L.Run)
    requires GoesOn(start, run, link) && Follows(j, run.world, link)
    ensures var refreshed := C.RefreshIfDue(C.KeepAlive(j.client, j.now), j.now);
            var numbers := C.ToRefresh(refreshed, B.FIRST_CHANNEL, j.now);
            && (forall n :: n in numbers ==> n in refreshed.bindings.inner)
            && GoesOn(start, longer, link) && longer.world.lastTick == j.now
            && Follows(Sends(j, C.RefreshChannels(refreshed, numbers, j.now), j.now), longer.world, link)
  {
    var now := j.now;
    TickBasis(j.client, now);
    var kept := C.KeepAlive(j.client, now);
    var refreshed := C.RefreshIfDue(kept, now);
    var numbers := C.ToRefresh(refreshed, B.FIRST_CHANNEL, now);
    assert j.since.Keys == j.client.sent.Keys;
    hide Follows, GoesOn, C.KeepAlive, C.RefreshIfDue, C.ToRefresh, C.RefreshChannels;
    longer := KeepAliveFollowed(start, run, link, j);
    longer := RefreshIfDueFollowed(start, longer, link, Sends(j, kept, now));
    SendsTwice(j, kept, refreshed, now);
    longer := ChannelsFollowed(start, longer, link, Sends(j, refreshed, now), numbers);
    RefreshChannelsGrows(refreshed, numbers, now);
    SendsTwice(j, refreshed, C.RefreshChannels(refreshed, numbers, now), now);
  }

  lemma ChannelsFollowed(start: L.Run, run: L.Run, link: L.Link, j: Joint, numbers: seq<B.Number>)
    returns (longer: L.Run)
    requires GoesOn(start, run, link) && Follows(j, run.world, link)
             && numbers == C.ToRefresh(j.client, B.FIRST_CHANNEL, j.now)
    ensures forall n :: n in numbers ==> n in j.client.bindings.inner
    ensures GoesOn(start, longer, link) && Follows(Sends(j, C.RefreshChannels(j.client, numbers, j.now), j.now),
            longer.world, link)
    ensures longer.world.lastTick == j.now
  {
    hide C.ToRefresh, C.RefreshChannels, Follows, L.Outstanding;
    var w := run.world;
    RunTids(run, link);
    ToRefreshDistinct(j.client, B.FIRST_CHANNEL, j.now);
    forall n ensures n in numbers <==> L.DueForRefresh(w, n) && !L.Outstanding(w.sent, n) {
      ToRefreshMatches(j, w, link, n);
    }
    longer := RefreshesFollowed(start, run, link, j, numbers);
    longer := TickDone(start, longer, link, Sends(j, C.RefreshChannels(j.client, numbers, j.now), j.now));
  }
}
