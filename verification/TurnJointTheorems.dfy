/** The theorems on refused binds, for the full client with its relay. */
module TurnJointTheorems {
  import opened Common
  import opened TurnJoint
  import opened TurnJointFollows
  import B = ChannelBindings
  import C = TurnClient
  import CR = TurnClientRuns
  import L = TurnLink
  import R = RelayCore
  import RelayRuns
  import S = TurnLinkSafety
  import T = TurnLinkTheorems
  import X = TurnLinkExpiry

  // ---------- Answers ----------

  /** The joint world when the client has taken note of the answer to `tid`, and no more. */
  function Noted(j: Joint, tid: Tid): Joint {
    j.(client := j.client.(sent := j.client.sent - {tid}), answers := j.answers - {tid}, since := j.since - {tid})
  }

  function NotedLink(j: Joint, w: L.World, tid: Tid): L.World {
    if IsBind(j.client.sent, tid) then w.(sent := w.sent - {tid}, answers := w.answers - {tid}) else w
  }

  lemma NotedFollows(j: Joint, w: L.World, link: L.Link, tid: Tid)
    requires Follows(j, w, link) && tid in j.answers
    ensures Follows(Noted(j, tid), NotedLink(j, w, tid), link) && tid in j.client.sent && tid !in j.requests
  {
    NotedRequests(j, tid);
    NotedBinds(j.client.sent, j.requests, j.answers, j.since, w, NotedLink(j, w, tid), tid);
    hide RequestsInv, SameBinds;
  }

  lemma NotedRequests(j: Joint, tid: Tid)
    requires RequestsInv(j) && tid in j.answers
    ensures RequestsInv(Noted(j, tid)) && tid in j.client.sent && tid !in j.requests
  {
    assert (j.client.sent - {tid}).Keys == j.client.sent.Keys - {tid};
    assert (j.since - {tid}).Keys == j.since.Keys - {tid};
    assert j.requests + (j.answers - {tid}).Keys == j.client.sent.Keys - {tid};
  }

  lemma NotedBinds(sent: InFlight, requests: set<Tid>, answers: map<Tid, R.Outcome>, since: map<Tid, Instant>,
                   w: L.World, v: L.World, tid: Tid)
    requires SameBinds(sent, requests, answers, since, w) && tid in answers && tid !in requests
    requires v == if IsBind(sent, tid) then w.(sent := w.sent - {tid}, answers := w.answers - {tid}) else w
    ensures SameBinds(sent - {tid}, requests, answers - {tid}, since - {tid}, v)
  {
    assert forall id :: IsBind(sent - {tid}, id) <==> IsBind(sent, id) && id != tid;
  }

  /** Taking note first makes no difference to what is sent. */
  lemma SendsFromNoted(j: Joint, tid: Tid, s': C.Client, first: Instant)
    requires tid !in s'.sent && tid in j.client.sent
    ensures Sends(j.(answers := j.answers - {tid}), s', first) == Sends(Noted(j, tid), s', first)
  {
    assert s'.sent.Keys - (j.client.sent - {tid}).Keys == s'.sent.Keys - j.client.sent.Keys;
  }

  /** What answers other than to binds leave as it is. */
  predicate Steady(s: C.Client, s': C.Client) {
    && s'.server == s.server && s'.sent == s.sent && s'.bindings == s.bindings && s'.nextTid == s.nextTid
       && s'.active == s.active
    && s'.credentials == s.credentials && s'.relay4 == s.relay4 && s'.relay6 == s.relay6 && s'.buffered == s.buffered
  }

  lemma MappedAnswer(s: C.Client, f: C.InFlight, local: SocketAddr, r: C.Reply, now: Instant)
    requires s.active.Some? && r.Success?
    ensures var s' := C.HandleSuccess(s, f, local, C.KBinding, r, now); Steady(s, s') && s'.lifetime == s.lifetime
  {
  }

  lemma RefreshedAnswer(s: C.Client, f: C.InFlight, local: SocketAddr, r: C.Reply, now: Instant)
    requires r.Success? && r.lifetime.Some? && r.lifetime.value > 0
    ensures var s' := C.HandleSuccess(s, f, local, C.KRefresh, r, now);
            Steady(s, s') && s'.lifetime == Some((now, r.lifetime.value))
  {
  }

  /** The answer to a BINDING request, or to a refresh that was accepted. */
  lemma PlainAnswer(j: Joint, link: L.Link, from: SocketAddr, local: SocketAddr, m: C.Message)
    requires RequestsInv(j) && j.client.active.Some?
    requires IsAnswer(j, from, m)
    requires !j.client.sent[m.tid].request.op.ChannelBind? && j.answers[m.tid] != R.Failed(R.StaleNonce)
    ensures var rest, s' := Noted(j, m.tid).client, C.HandleInput(j.client, from, local, m, j.now);
            && Steady(rest, s')
            && s'.lifetime == if j.client.sent[m.tid].request.op.Binding? then rest.lifetime
                              else Some((j.now, R.DEFAULT_ALLOCATION_LIFETIME))
  {
    hide C.HandleSuccess, C.HandleError, Sends;
    assert m.tid in j.client.sent && Fits(j.client.sent[m.tid].request.op, j.answers[m.tid]);
    assert IsYoung(j.client.sent[m.tid], j.now);
    var rest, f := Noted(j, m.tid).client, j.client.sent[m.tid];
    if f.request.op.Binding? {
      MappedAnswer(rest, f, local, m.reply, j.now);
    } else {
      RefreshedAnswer(rest, f, local, m.reply, j.now);
    }
  }

  /** A stale nonce makes the client ask again. */
  lemma StaleAnswer(j: Joint, link: L.Link, from: SocketAddr, local: SocketAddr, m: C.Message)
    requires Connected(j.client, link) && RequestsInv(j) && IsAnswer(j, from, m)
    requires j.answers[m.tid] == R.Failed(R.StaleNonce)
    ensures var rest, op := Noted(j, m.tid).client, j.client.sent[m.tid].request.op;
            && C.HandleInput(j.client, from, local, m, j.now)
               == C.Ask(rest.(credentials := if m.reply.nonce then Some(true) else rest.credentials), op, j.now)
            && FirstSent(j, m) == j.since[m.tid] <= j.now && (op == C.Op.Refresh(false) || op.ChannelBind?)
  {
    hide C.Ask;
    assert m.tid in j.client.sent && Fits(j.client.sent[m.tid].request.op, j.answers[m.tid]);
    assert IsYoung(j.client.sent[m.tid], j.now);
  }

  /** The relay's verdict on a bind. */
  lemma BindAnswer(j: Joint, link: L.Link, from: SocketAddr, local: SocketAddr, m: C.Message)
    requires Connected(j.client, link) && RequestsInv(j) && IsAnswer(j, from, m)
    requires j.client.sent[m.tid].request.op.ChannelBind? && j.answers[m.tid] != R.Failed(R.StaleNonce)
    ensures var rest, n := Noted(j, m.tid).client, j.client.sent[m.tid].request.op.number;
            && j.answers[m.tid] in {R.ChannelBound, R.Failed(R.BadRequest)}
            && C.HandleInput(j.client, from, local, m, j.now)
               == rest.(bindings := if j.answers[m.tid] == R.ChannelBound then B.Confirm(rest.bindings, n, j.now)
                   else B.Forget(rest.bindings, n))
  {
    assert m.tid in j.client.sent && Fits(j.client.sent[m.tid].request.op, j.answers[m.tid]);
  }

  lemma SendsIgnores(j: Joint, s: C.Client, s': C.Client, first: Instant)
    requires s.sent == j.client.sent
    ensures Sends(j.(client := s), s', first) == Sends(j, s', first)
  {
  }

  lemma NoReuse(j: Joint, tid: Tid)
    requires RequestsInv(j) && tid in j.client.sent
    ensures tid < j.client.nextTid
  {
  }

  lemma InformedFollows(j: Joint, w: L.World, link: L.Link, m: C.Message) returns (informed: C.Client)
    requires Follows(j, w, link) && m.tid in j.answers && m.tid in j.client.sent && m.reply.Error?
    ensures var noted := Noted(j, m.tid);
            && informed == noted.client.(credentials := if m.reply.nonce then Some(true) else noted.client.credentials)
            && Follows(noted.(client := informed), NotedLink(j, w, m.tid), link)
  {
    NotedFollows(j, w, link, m.tid);
    hide SameBinds, RequestsInv;
    var noted := Noted(j, m.tid);
    informed := noted.client.(credentials := if m.reply.nonce then Some(true) else noted.client.credentials);
    Unaffected(noted, NotedLink(j, w, m.tid), link, informed);
  }

  lemma StaleSends(j: Joint, link: L.Link, from: SocketAddr, local: SocketAddr, m: C.Message, informed: C.Client)
    requires Connected(j.client, link) && RequestsInv(j) && IsAnswer(j, from, m)
             && j.answers[m.tid] == R.Failed(R.StaleNonce)
    requires var noted := Noted(j, m.tid);
             informed == noted.client.(credentials := if m.reply.nonce then Some(true) else noted.client.credentials)
    ensures var op := j.client.sent[m.tid].request.op;
            && Answered(j, from, local, m) == Sends(Noted(j, m.tid).(client := informed), C.Ask(informed, op, j.now),
               FirstSent(j, m))
            && Answered(j, from, local, m).client.active == j.client.active
               && Answered(j, from, local, m).client.lifetime == j.client.lifetime
            && FirstSent(j, m) == j.since[m.tid] <= j.now && (op == C.Op.Refresh(false) || op.ChannelBind?)
  {
    var op, s' := j.client.sent[m.tid].request.op, C.HandleInput(j.client, from, local, m, j.now);
    StaleAnswer(j, link, from, local, m);
    AskAsks(informed, op, j.now);
    NoReuse(j, m.tid);
    hide C.HandleInput, C.Ask, RequestsInv;
    SendsIgnores(Noted(j, m.tid), informed, s', FirstSent(j, m));
    SendsFromNoted(j, m.tid, s', FirstSent(j, m));
  }

  /** An answer to anything but a bind changes nothing for the linked client, but for a transaction id. */
  lemma OtherStaleFollowed(start: L.Run, run: L.Run, link: L.Link, j: Joint, from: SocketAddr, local: SocketAddr,
                           m: C.Message)
    returns (longer: L.Run)
    requires GoesOn(start, run, link) && Follows(j, run.world, link) && IsAnswer(j, from, m)
    requires !j.client.sent[m.tid].request.op.ChannelBind? && j.answers[m.tid] == R.Failed(R.StaleNonce)
    ensures GoesOn(start, longer, link) && Follows(Answered(j, from, local, m), longer.world, link)
    ensures longer.world.lastTick == run.world.lastTick
    ensures Answered(j, from, local, m).client.active == j.client.active
            && Answered(j, from, local, m).client.lifetime == j.client.lifetime
  {
    hide GoesOn, C.Ask, SameBinds, RequestsInv, Connected, Answered;
    var informed := InformedFollows(j, run.world, link, m);
    StaleSends(j, link, from, local, m, informed);
    longer := AskOtherFollowed(start, run, link, Noted(j, m.tid).(client := informed), C.Op.Refresh(false),
        FirstSent(j, m));
  }

  lemma PlainFollows(w: L.World, link: L.Link, j: Joint, from: SocketAddr, local: SocketAddr, m: C.Message)
    requires Follows(j, w, link) && IsAnswer(j, from, m) && OnTime(j.client, j.now, w.lastTick)
    requires !j.client.sent[m.tid].request.op.ChannelBind? && j.answers[m.tid] != R.Failed(R.StaleNonce)
    ensures var k := Answered(j, from, local, m); Follows(k, w, link) && OnTime(k.client, k.now, w.lastTick)
  {
    var s' := C.HandleInput(j.client, from, local, m, j.now);
    NotedFollows(j, w, link, m.tid);
    PlainAnswer(j, link, from, local, m);
    hide C.HandleInput, SameBinds, RequestsInv;
    Unaffected(Noted(j, m.tid), w, link, s');
    SendsFromNoted(j, m.tid, s', j.now);
  }

  /** A bind as both clients have it. */
  lemma Corresponding(j: Joint, w: L.World, link: L.Link, tid: Tid)
    requires Follows(j, w, link) && tid in j.answers && IsBind(j.client.sent, tid)
    ensures tid in w.sent && tid in w.answers && w.answers[tid] == j.answers[tid]
    ensures tid in j.since && j.since[tid] == w.sent[tid].firstAt && SameBind(j.client.sent[tid], w.sent[tid])
  {
  }

  lemma HasSocket(s: C.Client, link: L.Link)
    requires Connected(s, link)
    ensures s.active.Some? && s.credentials.Some?
  {
  }

  lemma ConnectedAlike(s: C.Client, s': C.Client, link: L.Link)
    requires Connected(s, link) && s' == s.(nextTid := s'.nextTid, sent := s'.sent, transmits := s'.transmits)
    ensures Connected(s', link)
  {
  }

  lemma BindStaleFollows(w: L.World, link: L.Link, j: Joint, from: SocketAddr, local: SocketAddr, m: C.Message)
    requires Follows(j, w, link) && IsAnswer(j, from, m)
    requires j.client.sent[m.tid].request.op.ChannelBind? && j.answers[m.tid] == R.Failed(R.StaleNonce)
    ensures m.tid in w.sent && m.tid in w.answers
            && Follows(Answered(j, from, local, m), L.DoDeliverAnswer(w, m.tid), link)
    ensures Answered(j, from, local, m).client.active == j.client.active
            && Answered(j, from, local, m).client.lifetime == j.client.lifetime
  {
    hide SameBinds, RequestsInv, Answered, Connected;
    Corresponding(j, w, link, m.tid);
    var informed := InformedFollows(j, w, link, m);
    StaleSends(j, link, from, local, m, informed);
    var bind, v, noted := w.sent[m.tid], NotedLink(j, w, m.tid), Noted(j, m.tid).(client := informed);
    var s' := C.Ask(informed, j.client.sent[m.tid].request.op, j.now);
    HasSocket(informed, link);
    AskAsks(informed, j.client.sent[m.tid].request.op, j.now);
    assert Connected(s', link) by { ConnectedAlike(informed, s', link); }
    hide C.Ask;
    BindAsked(noted, v, link, s', bind.number, bind.peer, bind.firstAt, v.collision);
    assert Sends(noted, s', bind.firstAt).(clash := ClashOf(v.collision)) == Sends(noted, s', bind.firstAt);
    assert v.(client := s'.bindings, collision := v.collision) == v;
  }

  lemma Rebound(j: Joint, w: L.World, link: L.Link, bindings: B.Bindings)
    requires Follows(j, w, link)
    ensures var s' := j.client.(bindings := bindings);
            Sends(j, s', j.now) == j.(client := s') && Follows(j.(client := s'), w.(client := bindings), link)
  {
    SendsSame(j, j.client.(bindings := bindings), j.now);
    SameBindsOnly(j.client.sent, j.requests, j.answers, j.since, w, w.(client := bindings));
    hide SameBinds;
  }

  lemma BindJudgedFollows(w: L.World, link: L.Link, j: Joint, from: SocketAddr, local: SocketAddr, m: C.Message)
    requires Follows(j, w, link) && IsAnswer(j, from, m)
    requires j.client.sent[m.tid].request.op.ChannelBind? && j.answers[m.tid] != R.Failed(R.StaleNonce)
    ensures m.tid in w.sent && m.tid in w.answers
            && Follows(Answered(j, from, local, m), L.DoDeliverAnswer(w, m.tid), link)
    ensures Answered(j, from, local, m).client.active == j.client.active
            && Answered(j, from, local, m).client.lifetime == j.client.lifetime
  {
    hide C.HandleInput, SameBinds, RequestsInv, Connected;
    Corresponding(j, w, link, m.tid);
    var s', v := C.HandleInput(j.client, from, local, m, j.now), L.DoDeliverAnswer(w, m.tid);
    NotedFollows(j, w, link, m.tid);
    BindAnswer(j, link, from, local, m);
    Rebound(Noted(j, m.tid), NotedLink(j, w, m.tid), link, s'.bindings);
    SendsFromNoted(j, m.tid, s', j.now);
    assert v == NotedLink(j, w, m.tid).(client := s'.bindings);
  }

  lemma AnswerFollowed(start: L.Run, run: L.Run, link: L.Link, j: Joint, from: SocketAddr, local: SocketAddr,
                       m: C.Message)
    returns (longer: L.Run)
    requires GoesOn(start, run, link) && Follows(j, run.world, link) && OnTime(j.client, j.now, run.world.lastTick)
             && IsAnswer(j, from, m)
    ensures var k := Answered(j, from, local, m);
            GoesOn(start, longer, link) && Follows(k, longer.world, link)
                && OnTime(k.client, k.now, longer.world.lastTick)
  {
    hide GoesOn, Follows, Answered, L.DoDeliverAnswer;
    var w := run.world;
    if j.client.sent[m.tid].request.op.ChannelBind? {
      if j.answers[m.tid] == R.Failed(R.StaleNonce) {
        BindStaleFollows(w, link, j, from, local, m);
      } else {
        BindJudgedFollows(w, link, j, from, local, m);
      }
      KeepsTick(w, m.tid);
      longer := Append(start, run, link, L.DeliverAnswer(m.tid), L.DoDeliverAnswer(w, m.tid));
      SameNow(j, from, local, m);
    } else if j.answers[m.tid] == R.Failed(R.StaleNonce) {
      longer := OtherStaleFollowed(start, run, link, j, from, local, m);
      SameNow(j, from, local, m);
    } else {
      longer := run;
      PlainFollows(w, link, j, from, local, m);
    }
  }

  lemma KeepsTick(w: L.World, tid: Tid)
    requires tid in w.sent && tid in w.answers
    ensures L.DoDeliverAnswer(w, tid).lastTick == w.lastTick
  {
  }

  lemma SameNow(j: Joint, from: SocketAddr, local: SocketAddr, m: C.Message)
    ensures Answered(j, from, local, m).now == j.now
  {
  }

  // ---------- Requests ----------

  /** What the relay answers to a bind, read from its queue of messages. */
  lemma BindHandled(s: R.Core, link: L.Link, r: R.Request, now: Instant)
    requires r.ChannelBind? && (r.auth.Authentic? || r.auth.answerable)
    ensures var relay := RelayRuns.Step(s, link.config, RelayRuns.Message(r, link.me, 0), now);
            && relay == R.DoChannelBind(s, r, link.me, now) && relay.commands != []
            && relay.commands[|relay.commands| - 1]
               == R.SendMessage(r.tid, if r.auth.Authentic? then R.BindOutcome(s, r, link.me)
                   else R.Failed(r.auth.code), link.me)
  {
  }

  lemma BindOutcomeFits(s: R.Core, link: L.Link, r: R.Request)
    requires R.Inv(s, link.config) && L.FamiliesMatch(link, s) && r.ChannelBind? && r.auth.Authentic?
             && r.peer.Family() in link.families
    ensures R.BindOutcome(s, r, link.me) in {R.ChannelBound, R.Failed(R.BadRequest)}
  {
    S.FamilyMeansRelay(s, link, r.peer);
  }

  /** A refresh without lifetime, or a binding request: the allocation lives on. */
  lemma OtherHandled(s: R.Core, link: L.Link, r: R.Request, now: Instant)
    requires L.FamiliesMatch(link, s) && now < s.allocations[link.me].expiresAt
    requires r.Binding? || (r.Refresh? && r.lifetime.None?
             && (r.auth.Authentic? || (r.auth.answerable && r.auth.code == R.StaleNonce)))
    ensures var relay := RelayRuns.Step(s, link.config, RelayRuns.Message(r, link.me, 0), now);
            && L.FamiliesMatch(link, relay) && now < relay.allocations[link.me].expiresAt && relay.commands != []
            && relay.commands[|relay.commands| - 1]
               == R.SendMessage(r.tid, if r.Binding? then R.Mapped(link.me)
                                       else if r.auth.Authentic? then R.Refreshed(R.DEFAULT_ALLOCATION_LIFETIME)
                                           else R.Failed(R.StaleNonce), link.me)
  {
  }

  /** The request has moved on: it is answered. */
  lemma MovedRequests(j: Joint, tid: Tid, relay: R.Core, outcome: R.Outcome, refused: bool)
    requires RequestsInv(j) && tid in j.requests && Fits(j.client.sent[tid].request.op, outcome)
    ensures RequestsInv(j.(relay := relay, requests := j.requests - {tid}, answers := j.answers[tid := outcome],
            refused := refused))
  {
  }

  lemma MovedBinds(sent: InFlight, requests: set<Tid>, answers: map<Tid, R.Outcome>, since: map<Tid, Instant>,
                   w: L.World, v: L.World,
                   tid: Tid, outcome: R.Outcome)
    requires SameBinds(sent, requests, answers, since, w) && tid in requests && v.sent == w.sent
    requires if IsBind(sent, tid) then v.requests == w.requests - {tid} && v.answers == w.answers[tid := outcome]
             else v.requests == w.requests && v.answers == w.answers
    ensures SameBinds(sent, requests - {tid}, answers[tid := outcome], since, v)
  {
  }

  /** The relay, after it has looked at the clock. */
  lemma RelayReady(run: L.Run, link: L.Link, order: seq<SocketAddr>) returns (s: R.Core)
    requires L.IsRun(run, link) && R.IsExpiryOrder(run.world.relay.allocations, run.world.now, order)
    ensures s == R.DoTimeout(run.world.relay, run.world.now, order) && R.Inv(s, link.config)
    ensures L.FamiliesMatch(link, s) && run.world.now < s.allocations[link.me].expiresAt
    ensures forall t :: t in run.world.sent ==> run.world.sent[t].peer.Family() in link.families
  {
    RunInv(run, link);
    S.TimeoutKeepsRelayInv(run.world.relay, link, run.world.now, order);
    s := R.DoTimeout(run.world.relay, run.world.now, order);
  }

  /** The same judgement in both worlds. */
  lemma BindArrival(w: L.World, link: L.Link, j: Joint, i: Input, k: Joint, s: R.Core) returns (outcome: R.Outcome)
    requires i.RequestArrives? && RequestArrival(j, link, i, k) && i.tid in w.sent
             && SameBind(j.client.sent[i.tid], w.sent[i.tid])
    requires w.relay == j.relay && w.now == j.now && s == R.DoTimeout(j.relay, j.now, i.order)
    requires R.Inv(s, link.config) && L.FamiliesMatch(link, s) && w.sent[i.tid].peer.Family() in link.families
    ensures Fits(j.client.sent[i.tid].request.op, outcome)
    ensures k == j.(relay := k.relay, requests := j.requests - {i.tid}, answers := j.answers[i.tid := outcome],
                    refused := j.refused || outcome == R.Failed(R.BadRequest))
    ensures L.DoDeliverRequest(w, link, i.tid, i.auth, i.order)
            == w.(relay := k.relay, requests := w.requests - {i.tid}, answers := w.answers[i.tid := outcome],
                  refused := w.refused || outcome == R.Failed(R.BadRequest))
  {
    hide R.BindOutcome, R.DoChannelBind, R.DoTimeout, R.Inv, L.FamiliesMatch;
    var r := L.Request(w, i.tid, i.auth);
    BindHandled(s, link, r, j.now);
    outcome := if i.auth.Authentic? then R.BindOutcome(s, r, link.me) else R.Failed(R.StaleNonce);
    if i.auth.Authentic? { BindOutcomeFits(s, link, r); }
  }

  lemma BindArrivalFollows(w: L.World, link: L.Link, j: Joint, i: Input, k: Joint, s: R.Core)
    requires Follows(j, w, link) && i.RequestArrives? && RequestArrival(j, link, i, k) && IsBind(j.client.sent, i.tid)
    requires s == R.DoTimeout(j.relay, j.now, i.order) && R.Inv(s, link.config) && L.FamiliesMatch(link, s)
    requires forall t :: t in w.sent ==> w.sent[t].peer.Family() in link.families
    ensures i.tid in w.requests && i.tid in w.sent
            && Follows(k, L.DoDeliverRequest(w, link, i.tid, i.auth, i.order), link)
    ensures L.DoDeliverRequest(w, link, i.tid, i.auth, i.order).lastTick == w.lastTick
  {
    assert i.tid in w.sent && i.tid in w.requests && SameBind(j.client.sent[i.tid], w.sent[i.tid]);
    assert i.tid in j.requests && R.IsExpiryOrder(w.relay.allocations, w.now, i.order);
    var outcome := BindArrival(w, link, j, i, k, s);
    hide RequestArrival, L.DoDeliverRequest;
    MovedRequests(j, i.tid, k.relay, outcome, k.refused);
    MovedBinds(j.client.sent, j.requests, j.answers, j.since, w, L.DoDeliverRequest(w, link, i.tid, i.auth, i.order),
        i.tid, outcome);
    hide RequestsInv, SameBinds;
  }

  lemma OtherArrival(link: L.Link, j: Joint, i: Input, k: Joint, s: R.Core) returns (outcome: R.Outcome)
    requires i.RequestArrives? && RequestArrival(j, link, i, k) && IsYoung(j.client.sent[i.tid], j.now)
             && !IsBind(j.client.sent, i.tid)
    requires s == R.DoTimeout(j.relay, j.now, i.order) && L.FamiliesMatch(link, s)
             && j.now < s.allocations[link.me].expiresAt
    ensures L.FamiliesMatch(link, k.relay) && j.now < k.relay.allocations[link.me].expiresAt
    ensures Delivery(j, link, i.tid, i.auth).Message? && !Delivery(j, link, i.tid, i.auth).request.ChannelBind?
    ensures Fits(j.client.sent[i.tid].request.op, outcome)
    ensures k == j.(relay := k.relay, requests := j.requests - {i.tid}, answers := j.answers[i.tid := outcome])
  {
    OtherHandled(s, link, ToRelay(j.client.sent[i.tid].request.op, i.tid, i.auth), j.now);
    hide R.DoRefresh, R.DoTimeout, L.FamiliesMatch, RelayRuns.Step;
    outcome := k.answers[i.tid];
  }

  lemma OtherArrivalFollows(w: L.World, link: L.Link, j: Joint, i: Input, k: Joint, s: R.Core)
    requires Follows(j, w, link) && i.RequestArrives? && RequestArrival(j, link, i, k) && !IsBind(j.client.sent, i.tid)
    requires s == R.DoTimeout(j.relay, j.now, i.order) && L.FamiliesMatch(link, s)
             && j.now < s.allocations[link.me].expiresAt
    ensures L.FamiliesMatch(link, k.relay) && k.now < k.relay.allocations[link.me].expiresAt
    ensures Delivery(j, link, i.tid, i.auth).Message? && !Delivery(j, link, i.tid, i.auth).request.ChannelBind?
    ensures Follows(k, w.(relay := k.relay), link)
  {
    assert i.tid in j.requests && IsYoung(j.client.sent[i.tid], j.now);
    var outcome := OtherArrival(link, j, i, k, s);
    hide RequestArrival, L.FamiliesMatch, R.DoTimeout;
    MovedRequests(j, i.tid, k.relay, outcome, k.refused);
    MovedBinds(j.client.sent, j.requests, j.answers, j.since, w, w.(relay := k.relay), i.tid, outcome);
    hide RequestsInv, SameBinds;
  }

  lemma ArrivalFacts(j: Joint, w: L.World, link: L.Link, i: Input, k: Joint)
    requires Follows(j, w, link) && i.RequestArrives? && RequestArrival(j, link, i, k)
    ensures w.relay == j.relay && w.now == j.now == k.now && i.tid in j.client.sent && k.client == j.client
    ensures (i.auth.Authentic? || i.auth.code == R.StaleNonce) && R.IsExpiryOrder(w.relay.allocations, w.now, i.order)
    ensures RelayRuns.Enabled(R.DoTimeout(w.relay, w.now, i.order), link.config, Delivery(j, link, i.tid, i.auth),
            w.now)
    ensures k.relay == RelayRuns.Step(R.DoTimeout(w.relay, w.now, i.order), link.config,
            Delivery(j, link, i.tid, i.auth), w.now)
  {
  }

  lemma BindRequestFollowed(start: L.Run, run: L.Run, link: L.Link, j: Joint, i: Input, k: Joint)
    returns (longer: L.Run)
    requires GoesOn(start, run, link) && Follows(j, run.world, link) && i.RequestArrives?
             && RequestArrival(j, link, i, k)
    requires IsBind(j.client.sent, i.tid)
    ensures GoesOn(start, longer, link) && Follows(k, longer.world, link) && longer.world.lastTick == run.world.lastTick
  {
    hide GoesOn, Follows, RequestArrival, R.Inv, L.FamiliesMatch, R.DoTimeout, Handled, R.IsExpiryOrder,
         L.DoDeliverRequest;
    var w := run.world;
    ArrivalFacts(j, w, link, i, k);
    assert L.IsRun(run, link) by { GoingOn(start, run, link); }
    var s := RelayReady(run, link, i.order);
    BindArrivalFollows(w, link, j, i, k, s);
    longer := Append(start, run, link, L.DeliverRequest(i.tid, i.auth, i.order),
        L.DoDeliverRequest(w, link, i.tid, i.auth, i.order));
  }

  lemma GoingOn(start: L.Run, run: L.Run, link: L.Link)
    requires GoesOn(start, run, link)
    ensures L.IsRun(run, link)
  {
  }

  lemma OtherRequestFollowed(start: L.Run, run: L.Run, link: L.Link, j: Joint, i: Input, k: Joint)
    returns (longer: L.Run)
    requires GoesOn(start, run, link) && Follows(j, run.world, link) && i.RequestArrives?
             && RequestArrival(j, link, i, k)
    requires !IsBind(j.client.sent, i.tid)
    ensures GoesOn(start, longer, link) && Follows(k, longer.world, link) && longer.world.lastTick == run.world.lastTick
  {
    hide GoesOn, Follows, RequestArrival, R.Inv, L.FamiliesMatch, R.DoTimeout, R.IsExpiryOrder;
    var w := run.world;
    ArrivalFacts(j, w, link, i, k);
    var e := Delivery(j, link, i.tid, i.auth);
    assert L.IsRun(run, link) by { GoingOn(start, run, link); }
    var s := RelayReady(run, link, i.order);
    OtherArrivalFollows(w, link, j, i, k, s);
    longer := Append(start, run, link, L.RelayEvent(RelayRuns.Timeout(i.order)), w.(relay := s));
    longer := Append(start, longer, link, L.RelayEvent(e), w.(relay := k.relay));
  }

  // ---------- The rest ----------

  lemma SameUndecided(j: Joint, w: L.World, link: L.Link)
    requires Follows(j, w, link)
    ensures ClashUndecided(j) <==> L.CollisionUndecided(w)
  {
    assert forall id :: IsUnjudged(j, id) <==> L.IsUnjudged(w, id);
    assert forall id :: IsUnjudged(j, id) ==>
             SameBind(j.client.sent[id], w.sent[id]) && j.since[id] == w.sent[id].firstAt;
  }

  lemma PassFollowed(run: L.Run, link: L.Link, j: Joint, t: Instant) returns (longer: L.Run)
    requires L.IsRun(run, link) && Follows(j, run.world, link) && OnTime(j.client, j.now, run.world.lastTick)
             && CanPass(j, link, t)
    ensures var k := j.(now := t);
            && L.IsRun(longer, link) && Follows(k, longer.world, link) && OnTime(k.client, k.now, longer.world.lastTick)
            && (L.Prompt(run) && IsPrompt(k) ==> L.Prompt(longer))
  {
    var w, v := run.world, run.world.(now := t);
    assert j.client.IsDeadline(j.client.active.value.nextBinding);
    PassFollows(j, w, link, t);
    PassAdvances(j, w, link, t);
    SameUndecided(j.(now := t), v, link);
    hide Follows, CanPass, ClashUndecided, L.CollisionUndecided, L.CanAdvance;
    assert L.Does(w, link, L.Advance(t), v);
    longer := L.Then(run, L.Advance(t), v);
  }

  lemma PassFollows(j: Joint, w: L.World, link: L.Link, t: Instant)
    requires Follows(j, w, link) && CanPass(j, link, t)
    ensures Follows(j.(now := t), w.(now := t), link)
  {
    SameBindsOnly(j.client.sent, j.requests, j.answers, j.since, w, w.(now := t));
    hide SameBinds;
  }

  lemma PassAdvances(j: Joint, w: L.World, link: L.Link, t: Instant)
    requires Follows(j, w, link) && CanPass(j, link, t) && t <= w.lastTick + L.BINDING_INTERVAL
    ensures L.CanAdvance(w, link, t)
  {
    forall id | id in w.sent
      ensures t < w.sent[id].sentAt + L.REQUEST_TIMEOUT
    {
      assert IsBind(j.client.sent, id) && SameBind(j.client.sent[id], w.sent[id]);
    }
  }

  lemma RelayFollows(j: Joint, w: L.World, link: L.Link, relay: R.Core, data: set<L.Datum>)
    requires Follows(j, w, link)
    ensures Follows(j.(relay := relay, data := data), w.(relay := relay, data := data), link)
  {
    SameBindsOnly(j.client.sent, j.requests, j.answers, j.since, w, w.(relay := relay, data := data));
    hide SameBinds;
  }

  lemma DataFollows(j: Joint, w: L.World, link: L.Link, from: SocketAddr, d: L.Datum)
    requires Follows(j, w, link) && j.client.server.Matches(from)
    ensures var s' := C.DoDecapsulate(j.client, from, d.number, j.now);
            && Follows(j.(client := s', data := j.data - {d}),
               w.(client := B.Receive(w.client, d.number, w.now), data := w.data - {d}), link)
            && s'.active == j.client.active && s'.lifetime == j.client.lifetime
  {
    var s' := C.DoDecapsulate(j.client, from, d.number, j.now);
    Rebound(j, w, link, s'.bindings);
    hide SameBinds, RequestsInv;
    RelayFollows(j.(client := s'), w.(client := s'.bindings), link, w.relay, w.data - {d});
  }

  lemma RenewAsks(s: C.Client, link: L.Link, now: Instant)
    requires Connected(s, link)
    ensures C.RefreshAllocation(s, now) == C.Ask(s, C.Op.Refresh(false), now)
  {
  }

  lemma BindInputFollowed(start: L.Run, run: L.Run, link: L.Link, j: Joint, i: CR.Input) returns (longer: L.Run)
    requires GoesOn(start, run, link) && Follows(j, run.world, link) && OnTime(j.client, j.now, run.world.lastTick)
    requires CR.Enabled(j.client, i, j.now) && (i.Bind? || i.Send?)
    ensures var k := AfterNode(j, i);
            GoesOn(start, longer, link) && Follows(k, longer.world, link)
                && OnTime(k.client, k.now, longer.world.lastTick)
  {
    hide GoesOn, Follows, Sends, Collides;
    if i.Send? { EncodeIsBind(j.client, i.peer, j.now); }
    assert AfterNode(j, i) == Bound(j, i.peer);
    assert Bound(j, i.peer).now == j.now by { SendsNow(j, C.BindChannel(j.client, i.peer, j.now), j.now); }
    hide AfterNode, Bound, CR.Enabled;
    longer := BindFollowed(start, run, link, j, i.peer);
  }

  lemma SendsNow(j: Joint, s': C.Client, first: Instant)
    ensures Sends(j, s', first).now == j.now
  {
  }

  lemma RenewFollowed(start: L.Run, run: L.Run, link: L.Link, j: Joint) returns (longer: L.Run)
    requires GoesOn(start, run, link) && Follows(j, run.world, link) && OnTime(j.client, j.now, run.world.lastTick)
    ensures var k := Sends(j, C.RefreshAllocation(j.client, j.now), j.now);
            GoesOn(start, longer, link) && Follows(k, longer.world, link)
                && OnTime(k.client, k.now, longer.world.lastTick)
  {
    RenewAsks(j.client, link, j.now);
    AskAsks(j.client, C.Op.Refresh(false), j.now);
    hide GoesOn, Follows, C.Ask, C.RefreshAllocation;
    longer := AskOtherFollowed(start, run, link, j, C.Op.Refresh(false), j.now);
  }

  lemma NodeFollowed(start: L.Run, run: L.Run, link: L.Link, j: Joint, i: CR.Input) returns (longer: L.Run)
    requires GoesOn(start, run, link) && Follows(j, run.world, link) && OnTime(j.client, j.now, run.world.lastTick)
    requires IsNodeInput(i) && CR.Enabled(j.client, i, j.now) && run.world.lastTick <= j.now
    ensures var k := AfterNode(j, i);
            GoesOn(start, longer, link) && Follows(k, longer.world, link)
                && OnTime(k.client, k.now, longer.world.lastTick)
  {
    if i.Bind? || i.Send? {
      hide GoesOn, Follows, OnTime, AfterNode;
      longer := BindInputFollowed(start, run, link, j, i);
    } else if i.Tick? {
      hide GoesOn, Follows, OnTime, Sends;
      longer := TickFollowed(start, run, link, j, i.picks);
    } else if i.Renew? {
      hide GoesOn, Follows, OnTime, Sends;
      longer := RenewFollowed(start, run, link, j);
    } else {
      hide GoesOn, SameBinds, RequestsInv;
      Unaffected(j, run.world, link, CR.Step(j.client, i, j.now));
      longer := run;
    }
  }

  lemma RunOnTime(run: L.Run, link: L.Link)
    requires L.IsRun(run, link)
    ensures run.world.lastTick <= run.world.now
  {
    RunInv(run, link);
  }

  lemma RelayFollowed(start: L.Run, run: L.Run, link: L.Link, j: Joint, i: Input, k: Joint) returns (longer: L.Run)
    requires GoesOn(start, run, link) && Follows(j, run.world, link) && OnTime(j.client, j.now, run.world.lastTick)
    requires Takes(j, link, i, k) && (i.RelayActs? || i.RelaySends? || i.DataArrives?)
    ensures GoesOn(start, longer, link) && Follows(k, longer.world, link)
            && OnTime(k.client, k.now, longer.world.lastTick)
  {
    var w := run.world;
    hide GoesOn, SameBinds, RequestsInv, Connected;
    match i
    case RelayActs(e) =>
      RelayFollows(j, w, link, k.relay, j.data);
      longer := Append(start, run, link, L.RelayEvent(e), w.(relay := k.relay));
    case RelaySends(n, port, p) =>
      RelayFollows(j, w, link, j.relay, k.data);
      longer := Append(start, run, link, L.RelayData(n, port, p), w.(data := k.data));
    case DataArrives(from, d) =>
      DataFollows(j, w, link, from, d);
      longer := Append(start, run, link, L.DeliverData(d),
          w.(client := B.Receive(w.client, d.number, w.now), data := w.data - {d}));
  }

  /** Whatever happens in the joint world happens in the linked one, in one or more actions. */
  lemma StepFollowed(run: L.Run, link: L.Link, j: Joint, i: Input, k: Joint) returns (longer: L.Run)
    requires L.IsRun(run, link) && Follows(j, run.world, link) && OnTime(j.client, j.now, run.world.lastTick)
             && Takes(j, link, i, k)
    ensures L.IsRun(longer, link) && Follows(k, longer.world, link) && OnTime(k.client, k.now, longer.world.lastTick)
    ensures L.Prompt(run) && IsPrompt(k) ==> L.Prompt(longer)
  {
    assert GoesOn(run, run, link);
    RunOnTime(run, link);
    assert run.world.now == j.now;
    hide Follows, L.IsRun, L.Prompt, IsPrompt, OnTime;
    match i
    case Pass(t) => longer := PassFollowed(run, link, j, t);
    case Node(input) => longer := NodeFollowed(run, run, link, j, input);
    case RequestArrives(tid, _, _) =>
      ArrivalFacts(j, run.world, link, i, k);
      if IsBind(j.client.sent, tid) {
        longer := BindRequestFollowed(run, run, link, j, i, k);
      } else {
        longer := OtherRequestFollowed(run, run, link, j, i, k);
      }
    case AnswerArrives(from, local, m) => longer := AnswerFollowed(run, run, link, j, from, local, m);
    case _ => longer := RelayFollowed(run, run, link, j, i, k);
  }

  // ---------- The start ----------

  /** Channels handed out just now: nothing is available that was handed out. */
  ghost predicate AllNew(b: B.Bindings, now: Instant) {
    b.Valid() && forall n :: n in b.inner ==> !b.inner[n].bound && b.inner[n].boundAt == now
  }

  lemma AwaitedAreHeld(run: L.Run, link: L.Link)
    requires L.IsRun(run, link) && run.world.collision.None?
    ensures forall t, n :: L.Awaits(run.world.sent, t, n) ==> n in run.world.client.inner
  {
    T.AlwaysReached(run, link);
  }

  lemma NoCollisionYet(run: L.Run, link: L.Link, j: Joint, p: SocketAddr)
    requires L.IsRun(run, link) && Follows(j, run.world, link) && run.world.collision.None?
             && AllNew(j.client.bindings, j.now)
    ensures !Collides(j.client, p, j.now)
  {
    var w, b, now := run.world, j.client.bindings, j.now;
    AwaitedAreHeld(run, link);
    B.NextIsFirstAvailable(b, now);
    hide L.IsRun, SameBinds, RequestsInv, Connected, C.BindChannel;
    assert forall n :: n in b.inner ==> !b.Available(n, now);
    if B.NextNumber(b, now).Some? { SameOutstanding(j, w, link, p, B.NextNumber(b, now).value); }
  }

  lemma StaysNew(b: B.Bindings, p: SocketAddr, now: Instant)
    requires AllNew(b, now)
    ensures AllNew(B.NewChannel(b, p, now).0, now)
  {
    B.NextIsFirstAvailable(b, now);
    B.LowestIsLowest(b.inner, (c: B.Channel) => c.BoundTo(p, now), B.FIRST_CHANNEL);
  }

  lemma AskWaiting(s: C.Client, rest: seq<SocketAddr>, op: C.Op, now: Instant)
    ensures C.Ask(s.(buffered := rest), op, now) == C.Ask(s, op, now).(buffered := rest)
    ensures var v := C.Ask(s, op, now);
            v.bindings == s.bindings && v.relay4 == s.relay4 && v.relay6 == s.relay6 && v.sent.Keys >= s.sent.Keys
  {
  }

  lemma SameInFlight(s: C.Client, p: SocketAddr, rest: seq<SocketAddr>)
    requires s.buffered == [] && s.HasAllocation()
    ensures var waiting := s.(buffered := rest);
            (waiting.BindInFlightTo(p) <==> s.BindInFlightTo(p) || p in rest) && !waiting.IsSuspended()
                && !s.IsSuspended()
  {
  }

  /** With more peers waiting, the first is bound as if it were alone, unless it is waiting a second time. */
  lemma WaitingBind(s: C.Client, p: SocketAddr, rest: seq<SocketAddr>, now: Instant)
    requires s.buffered == [] && s.HasAllocation()
    ensures C.BindChannel(s.(buffered := rest), p, now)
            == if p in rest then s.(buffered := rest) else C.BindChannel(s, p, now).(buffered := rest)
    ensures C.BindChannel(s, p, now).bindings in {s.bindings, B.NewChannel(s.bindings, p, now).0}
    ensures C.BindChannel(s, p, now).sent.Keys >= s.sent.Keys && C.BindChannel(s, p, now).HasAllocation()
  {
    SameInFlight(s, p, rest);
    hide C.Ask, C.Client.BindInFlightTo, C.Client.IsSuspended;
    var (bindings, number) := B.NewChannel(s.bindings, p, now);
    if number.Some? { AskWaiting(s.(bindings := bindings), rest, C.ChannelBind(number.value, p), now); }
  }

  /** The peers that waited for the allocation are bound one after the other, without collision. */
  lemma {:induction false} DrainFollowed(start: L.Run, run: L.Run, link: L.Link, j: Joint, waiting: seq<SocketAddr>)
    returns (longer: L.Run)
    requires GoesOn(start, run, link) && Follows(j, run.world, link) && j.clash.None?
             && AllNew(j.client.bindings, j.now)
    ensures var v := C.BindBuffered(j.client.(buffered := waiting), j.now);
            && GoesOn(start, longer, link) && Follows(Sends(j, v, j.now), longer.world, link)
               && longer.world.lastTick == run.world.lastTick
            && v.active == j.client.active && v.lifetime == j.client.lifetime && j.client.sent.Keys <= v.sent.Keys
    decreases |waiting|
  {
    if waiting == [] {
      longer := run;
      SendsSame(j, j.client, j.now);
    } else {
      var s, p, rest := j.client, waiting[0], waiting[1..];
      assert j.since.Keys == s.sent.Keys && s.buffered == [];
      WaitingBind(s, p, rest, j.now);
      NoCollisionYet(run, link, j, p);
      StaysNew(s.bindings, p, j.now);
      longer := run;
      var k := j;
      hide GoesOn, C.BindChannel, Collides, AllNew;
      if p !in rest {
        k := Bound(j, p);
        longer := BindFollowed(start, run, link, j, p);
      }
      hide Follows;
      DrainStep(j, p, waiting);
      longer := DrainFollowed(start, longer, link, k, rest);
      SendsTwice(j, k.client, C.BindBuffered(k.client.(buffered := rest), j.now), j.now);
    }
  }

  lemma DrainStep(j: Joint, p: SocketAddr, waiting: seq<SocketAddr>)
    requires waiting != [] && p == waiting[0] && j.client.buffered == [] && j.client.HasAllocation()
    ensures var s, rest := j.client, waiting[1..];
            C.BindBuffered(s.(buffered := waiting), j.now)
            == if p in rest then C.BindBuffered(s.(buffered := rest), j.now) else
               C.BindBuffered(C.BindChannel(s, p, j.now).(buffered := rest), j.now)
    ensures C.BindChannel(j.client, p, j.now).HasAllocation()
  {
    var s, rest := j.client, waiting[1..];
    WaitingBind(s, p, rest, j.now);
    assert s.(buffered := waiting).(buffered := rest) == s.(buffered := rest);
  }

  /** The client that has just been granted its allocation, with no peers waiting. */
  function Granted(g: Grant, now: Instant): C.Client
    requires g.message.reply.Success? && g.message.reply.lifetime.Some?
  {
    C.WithRelays(g.client.(sent := g.client.sent - {g.message.tid}), g.message.reply, now).(buffered := [])
  }

  lemma GrantedBy(g: Grant, link: L.Link, now: Instant)
    requires IsGrant(g, link, now)
    ensures var s := Granted(g, now);
            && Connected(s, link) && s.bindings.inner == map[] && s.bindings.Valid()
            && s.sent == g.client.sent - {g.message.tid} && s.nextTid == g.client.nextTid
            && s.active == g.client.active && s.lifetime == Some((now, g.message.reply.lifetime.value))
            && C.HandleInput(g.client, g.from, g.local, g.message, now)
               == C.BindBuffered(s.(buffered := g.client.buffered), now)
  {
    hide C.BindBuffered;
    var s, c := Granted(g, now), g.client;
    assert c.active.Some? && c.credentials.Some? by { assert !c.sent[g.message.tid].request.op.Binding?; }
    assert c.bindings.inner == map[];
    assert s.(buffered := c.buffered) == C.WithRelays(c.(sent := c.sent - {g.message.tid}), g.message.reply, now);
  }

  function GrantedJoint(j: Joint, g: Grant): Joint
    requires g.message.reply.Success? && g.message.reply.lifetime.Some?
  {
    var s := Granted(g, j.now);
    j.(client := s, requests := s.sent.Keys - j.answers.Keys, since := map id | id in s.sent :: j.now)
  }

  lemma {:induction false} BindBufferedKeepsSent(s: C.Client, now: Instant, id: Tid)
    requires s.HasAllocation() && id < s.nextTid
    ensures var v := C.BindBuffered(s, now);
            (id in v.sent <==> id in s.sent) && (id in s.sent ==> v.sent[id] == s.sent[id])
    decreases |s.buffered|
  {
    if s.buffered != [] {
      BindBufferedKeepsSent(C.BindChannel(s.(buffered := s.buffered[1..]), s.buffered[0], now), now, id);
    }
  }

  /** What the client still waits for when the grant arrives. */
  lemma GrantFacts(g: Grant, link: L.Link, now: Instant)
    requires IsGrant(g, link, now)
    ensures var rest := g.client.sent - {g.message.tid};
            g.message.tid < g.client.nextTid
            && forall id :: id in rest ==> id < g.client.nextTid && IsYoung(rest[id], now) && !IsBind(rest, id)
  {
  }

  /** Nothing that the client waited for before is affected by the binds that follow the grant. */
  ghost predicate Extends(s: C.Client, v: C.Client) {
    && s.sent.Keys <= v.sent.Keys && (forall id :: id in s.sent ==> v.sent[id] == s.sent[id])
    && (forall id :: id in v.sent && id < s.nextTid ==> id in s.sent)
  }

  lemma DrainExtends(s: C.Client, now: Instant)
    requires s.HasAllocation() && forall id :: id in s.sent ==> id < s.nextTid
    ensures Extends(s, C.BindBuffered(s, now))
  {
    forall id: Tid | id < s.nextTid
      ensures var v := C.BindBuffered(s, now);
              (id in v.sent <==> id in s.sent) && (id in s.sent ==> v.sent[id] == s.sent[id])
    {
      BindBufferedKeepsSent(s, now, id);
    }
  }

  lemma GrantedInv(j: Joint, g: Grant, s: C.Client)
    requires g.message.reply.Success? && g.message.reply.lifetime.Some? && s == Granted(g, j.now)
    requires forall id :: id in s.sent ==> id < s.nextTid && IsYoung(s.sent[id], j.now)
    requires j.answers.Keys <= s.sent.Keys && Extends(s, j.client)
    requires forall id :: id in j.answers ==> Fits(j.client.sent[id].request.op, j.answers[id])
    ensures RequestsInv(GrantedJoint(j, g))
  {
    hide Granted;
  }

  lemma GrantedSends(j: Joint, g: Grant, s: C.Client)
    requires g.message.reply.Success? && g.message.reply.lifetime.Some? && s == Granted(g, j.now)
    requires j.client.sent.Keys == j.requests + j.answers.Keys && j.requests !! j.answers.Keys
    requires j.answers.Keys <= s.sent.Keys && Extends(s, j.client) && j.since == map id | id in j.client.sent :: j.now
    ensures Sends(GrantedJoint(j, g), j.client, j.now) == j
  {
    hide Granted;
    var k := GrantedJoint(j, g);
    assert k.requests + (j.client.sent.Keys - s.sent.Keys) == j.requests;
    assert (map id | id in j.client.sent :: if id in k.since then k.since[id] else j.now) == j.since;
  }

  lemma GrantExtends(j: Joint, g: Grant, link: L.Link)
    requires Init(j, g, link)
    ensures Extends(Granted(g, j.now), j.client) && j.answers.Keys <= Granted(g, j.now).sent.Keys
  {
    GrantFacts(g, link, j.now);
    GrantedBy(g, link, j.now);
    hide C.HandleInput, C.BindBuffered, Granted, IsGrant;
    DrainExtends(Granted(g, j.now).(buffered := g.client.buffered), j.now);
  }

  /** Before the waiting peers are bound, the joint world follows a linked one without binds. */
  lemma GrantedFollows(j: Joint, g: Grant, link: L.Link) returns (w: L.World)
    requires Init(j, g, link)
    ensures L.Init(w, link) && Follows(GrantedJoint(j, g), w, link) && w.lastTick == j.now
    ensures Sends(GrantedJoint(j, g), j.client, j.now) == j
  {
    GrantFacts(g, link, j.now);
    GrantedBy(g, link, j.now);
    GrantExtends(j, g, link);
    hide C.HandleInput, Granted, IsGrant, Extends;
    var s := Granted(g, j.now);
    GrantedInv(j, g, s);
    GrantedSends(j, g, s);
    hide RequestsInv, Connected;
    w := L.World(j.now, s.bindings, map[], j.now, j.relay, {}, map[], {}, s.nextTid, None, false);
  }

  lemma InitFollowed(j: Joint, g: Grant, link: L.Link) returns (run: L.Run)
    requires Init(j, g, link)
    ensures L.IsRun(run, link) && L.Prompt(run) && Follows(j, run.world, link)
            && OnTime(j.client, j.now, run.world.lastTick)
  {
    var w := GrantedFollows(j, g, link);
    GrantedBy(g, link, j.now);
    var k := GrantedJoint(j, g);
    assert AllNew(k.client.bindings, k.now) && k.clash.None? && k.client == Granted(g, j.now);
    assert OnTimeAtGrant(g, j.now) by { assert IsGrant(g, link, j.now); }
    var start := L.Start(w);
    assert GoesOn(start, start, link) && L.Prompt(start);
    hide Granted, GrantedJoint, Follows, AllNew, C.BindBuffered, C.HandleInput, IsGrant;
    run := DrainFollowed(start, start, link, k, g.client.buffered);
  }

  predicate OnTimeAtGrant(g: Grant, now: Instant) {
    && (g.client.active.Some? ==> g.client.active.value.nextBinding <= now + L.BINDING_INTERVAL)
    && g.message.reply.Success? && g.message.reply.lifetime.Some? && g.message.reply.lifetime.value > 0
  }

  // ---------- The theorems ----------

  /** Every joint run is followed by a linked one. */
  lemma {:induction false} Followed(run: Run, link: L.Link) returns (linked: L.Run)
    requires IsRun(run, link)
    ensures L.IsRun(linked, link) && Follows(run.joint, linked.world, link)
            && OnTime(run.joint.client, run.joint.now, linked.world.lastTick)
    ensures Prompt(run) ==> L.Prompt(linked)
  {
    hide Follows, OnTime, Takes, Init, L.IsRun, L.Prompt, IsPrompt;
    match run
    case Start(g, j) => linked := InitFollowed(j, g, link);
    case Then(before, i, k) =>
      linked := Followed(before, link);
      linked := StepFollowed(linked, link, before.joint, i, k);
  }

  /** The relay refuses a bind of the full client only after a collision. */
  lemma RefusalNeedsCollision(run: Run, link: L.Link)
    requires IsRun(run, link)
    ensures run.joint.refused ==> run.joint.clash.Some?
  {
    hide IsRun;
    var linked := Followed(run, link);
    T.RefusalNeedsCollision(linked, link);
  }

  /**
   Once the relay has judged the binds of the full client that collided, it has refused one if and only if
   there was a collision, provided that they were not repeated for as long as the relay keeps a pair
   reserved.
   */
  lemma RefusalExactlyOnCollision(run: Run, link: L.Link)
    requires IsRun(run, link) && Prompt(run) && !ClashUndecided(run.joint)
    ensures run.joint.refused <==> run.joint.clash.Some?
  {
    hide IsRun, Prompt;
    var linked := Followed(run, link);
    SameUndecided(run.joint, linked.world, link);
    T.RefusalExactlyOnCollision(linked, link);
  }

  /** The relay has accepted a bind of `n` whose answer has not reached the full client. */
  ghost predicate AcceptedUnanswered(j: Joint, n: B.Number) {
    exists id :: id in j.client.sent && id in j.answers && j.answers[id] == R.ChannelBound
                 && j.client.sent[id].request.op.ChannelBind? && j.client.sent[id].request.op.number == n
  }

  /**
   When the full client judges a confirmed channel rebindable, the relay's cooldown has ended as well, if
   and only if it is not the case that the relay has accepted a bind of it whose answer is under way.
   */
  lemma RebindableMeansCooledDown(run: Run, link: L.Link, n: B.Number)
    requires IsRun(run, link)
    requires var b := run.joint.client.bindings; n in b.inner && b.inner[n].bound && b.inner[n].CanRebind(run.joint.now)
    ensures var j := run.joint;
            ((link.me, n) in j.relay.channels ==> j.relay.channels[(link.me, n)].CanBeDeleted(j.now)) <==>
            !AcceptedUnanswered(j, n)
  {
    hide IsRun;
    var linked := Followed(run, link);
    X.RebindableMeansCooledDown(linked, link, n);
    SameAccepted(run.joint, linked.world, link, n);
  }

  lemma SameAccepted(j: Joint, w: L.World, link: L.Link, n: B.Number)
    requires Follows(j, w, link)
    ensures AcceptedUnanswered(j, n) <==> X.AcceptedUnanswered(w.sent, w.answers, n)
  {
    if t :| X.IsAccepted(w.sent, w.answers, t, n) {
      assert IsBind(j.client.sent, t) && SameBind(j.client.sent[t], w.sent[t]);
    }
    if id :| && IsBind(j.client.sent, id) && id in j.answers && j.answers[id] == R.ChannelBound
             && j.client.sent[id].request.op.number == n {
      assert X.IsAccepted(w.sent, w.answers, id, n);
    }
  }
}
