/** The scenario of `TurnScenario` as a run of the full client with its relay. */
module TurnJointWitness {
  import opened Common
  import opened TurnJoint
  import opened TurnJointFollows
  import opened TurnJointTheorems
  import opened TurnScenario
  import B = ChannelBindings
  import Backoff
  import C = TurnClient
  import CR = TurnClientRuns
  import L = TurnLink
  import R = RelayCore
  import RelayRuns

  const RELAY: SocketAddr := SocketAddr(IpAddr(V4, 1), 3478)
  const SERVER: C.RelaySocket := C.V4Only(RELAY)

  /** A run in which no collision is older than the relay's memory. */
  ghost predicate Goes(run: Run) { IsRun(run, LINK) && Prompt(run) }

  ghost predicate IsFresh(j: Joint) { j.clash.Some? ==> j.now < j.clash.value.at + L.PATIENCE }

  lemma Extended(run: Run, i: Input, k: Joint) returns (longer: Run)
    requires Goes(run) && Takes(run.joint, LINK, i, k) && IsFresh(k)
    ensures Goes(longer) && longer.joint == k
  {
    hide Takes, Init;
    longer := Then(run, i, k);
  }

  /** What `Followed` says about every run. */
  lemma Sound(run: Run)
    requires Goes(run)
    ensures Connected(run.joint.client, LINK) && RequestsInv(run.joint)
  {
    hide IsRun, Prompt;
    var linked := Followed(run, LINK);
  }

  /** Nothing is under way; the allocation was granted or refreshed at `t`. */
  ghost predicate Idle(j: Joint, t: Instant) {
    && j.now == t && j.client.server == SERVER && j.client.sent == map[] && j.data == {} && j.clash.None?
    && j.client.active.Some? && j.client.active.value.nextBinding == t + L.BINDING_INTERVAL
    && j.client.lifetime == Some((t, R.DEFAULT_ALLOCATION_LIFETIME)) && j.relay.allocations == Allocated(t)
  }

  /** The first `k` numbers are in use. */
  ghost predicate Stocked(j: Joint, k: nat, bound: bool) {
    j.client.bindings == Table(k) && j.relay.channels == RelayChannels(k, bound)
  }

  // ---------- The start ----------

  /** The allocation is granted at time zero. */
  function GrantAtZero(): Grant {
    var waiting := map[0 := C.InFlight(RELAY, C.Request(C.Allocate, true, 0), Backoff.Started(0))];
    var client := C.Client(SERVER, Some(C.ActiveSocket(RELAY, L.BINDING_INTERVAL)), None, None, None, None, None, [],
        [],
                           waiting, B.NO_BINDINGS, [], Some(true), false, 1);
    var reply := C.Success(None, Some(R.DEFAULT_ALLOCATION_LIFETIME), [SocketAddr(IpAddr(V4, 1), PORT)]);
    Grant(client, RELAY, RELAY, C.Message(0, C.KAllocate, true, reply))
  }

  lemma GrantIs()
    ensures IsGrant(GrantAtZero(), LINK, 0)
  {
    First(GrantAtZero().message.reply.relays);
  }

  lemma ClientAtZero() returns (s: C.Client)
    ensures var g := GrantAtZero();
            && s == C.HandleInput(g.client, RELAY, RELAY, g.message, 0)
            && s.server == SERVER && s.active == g.client.active
               && s.lifetime == Some((0, R.DEFAULT_ALLOCATION_LIFETIME))
            && s.sent == map[] && s.bindings == B.NO_BINDINGS
  {
    var g := GrantAtZero();
    GrantIs();
    hide IsGrant, C.HandleInput;
    GrantedBy(g, LINK, 0);
    s := Granted(g, 0);
  }

  lemma Begin() returns (run: Run)
    ensures Goes(run) && Idle(run.joint, 0) && Stocked(run.joint, 0, true)
  {
    hide IsGrant, C.HandleInput, GrantAtZero;
    GrantIs();
    var s := ClientAtZero();
    var relay := R.Core(Allocated(0), map[], []);
    RelayAtZero(relay);
    hide R.Inv, L.FamiliesMatch;
    run := Start(GrantAtZero(), Joint(0, s, relay, {}, map[], {}, map[], None, false));
    GrantSides();
  }

  lemma RelayAtZero(s: R.Core)
    requires s.allocations == Allocated(0) && s.channels == map[]
    ensures R.Inv(s, PORTS) && L.FamiliesMatch(LINK, s)
  {
    assert |Allocated(0)| == 1 by { assert Allocated(0).Keys == {ME}; }
  }

  lemma GrantSides()
    ensures var g := GrantAtZero();
            g.from == RELAY && g.local == RELAY && g.client.active == Some(C.ActiveSocket(RELAY, L.BINDING_INTERVAL))
  {
  }

  lemma First(relays: seq<SocketAddr>)
    requires |relays| == 1 && relays[0].Family() == V4
    ensures C.FirstOf(relays, V4).Some? && C.FirstOf(relays, V6).None?
  {
    assert relays[1..] == [];
  }

  // ---------- Binding a channel ----------

  /** The client asks for a channel. */
  lemma BindStep(run: Run, w: L.World, p: SocketAddr) returns (longer: Run)
    requires Goes(run) && Follows(run.joint, w, LINK) && run.joint.clash.None?
    requires L.CanBind(w, LINK, p) && B.NewChannel(w.client, p, w.now).1.Some?
    ensures var s, v := run.joint.client, longer.joint.client;
            && Goes(longer) && Follows(longer.joint, L.DoBindChannel(w, p), LINK)
            && v.server == s.server && v.active == s.active && v.lifetime == s.lifetime
            && v.sent.Keys == s.sent.Keys + {s.nextTid}
  {
    hide Goes, Follows, L.CanBind, L.DoBindChannel, B.NewChannel;
    var j := run.joint;
    BindMatches(j, w, LINK, p);
    BoundIs(j, w, p);
    BindTaken(j, p);
    hide Bound, Takes;
    longer := Extended(run, Node(CR.Bind(p)), Bound(j, p));
  }

  lemma BoundIs(j: Joint, w: L.World, p: SocketAddr)
    requires Follows(j, w, LINK) && L.CanBind(w, LINK, p) && B.NewChannel(w.client, p, w.now).1.Some?
    ensures var s, v := j.client, Bound(j, p).client;
            && v.server == s.server && v.active == s.active && v.lifetime == s.lifetime
            && v.sent.Keys == s.sent.Keys + {s.nextTid}
  {
    BindEffect(j, w, LINK, p);
    var (bindings, number) := B.NewChannel(w.client, p, w.now);
    assert j.client.active.Some? && j.client.credentials.Some?;
    AskAsks(j.client.(bindings := bindings), C.ChannelBind(number.value, p), j.now);
    hide Follows, L.CanBind, B.NewChannel, C.BindChannel, C.Ask;
  }

  lemma BindTaken(j: Joint, p: SocketAddr)
    requires j.clash.None?
    ensures Takes(j, LINK, Node(CR.Bind(p)), Bound(j, p)) && IsFresh(Bound(j, p))
  {
    hide C.BindChannel, Collides, B.NextNumber;
  }

  /** The relay, after it has looked at the clock. */
  lemma Ready(run: Run, w: L.World) returns (s: R.Core)
    requires Goes(run) && Follows(run.joint, w, LINK) && R.IsExpiryOrder(w.relay.allocations, w.now, [])
    ensures s == R.DoTimeout(w.relay, w.now, []) && R.Inv(s, LINK.config) && L.FamiliesMatch(LINK, s)
    ensures forall t :: t in w.sent ==> w.sent[t].peer.Family() in LINK.families
  {
    hide IsRun, Prompt, L.IsRun, L.Prompt, OnTime, R.IsExpiryOrder, R.DoTimeout, R.Inv, L.FamiliesMatch, RequestsInv,
         Connected;
    var linked := Followed(run, LINK);
    s := RelayReady(linked, LINK, []);
    SamePeers(run.joint, w, linked.world);
  }

  lemma SamePeers(j: Joint, w: L.World, v: L.World)
    requires Follows(j, w, LINK) && Follows(j, v, LINK)
    ensures forall t :: t in w.sent ==> t in v.sent && w.sent[t].peer == v.sent[t].peer
  {
    hide RequestsInv, Connected;
    assert forall t :: t in w.sent ==> IsBind(j.client.sent, t);
  }

  /** The relay's judgement of a bind: without a collision it accepts. */
  lemma JudgeStep(run: Run, w: L.World, tid: Tid) returns (longer: Run)
    requires Goes(run) && Follows(run.joint, w, LINK) && IsFresh(run.joint)
    requires tid in w.requests && R.IsExpiryOrder(w.relay.allocations, w.now, [])
    ensures tid in w.sent && Goes(longer) && longer.joint.client == run.joint.client
    ensures var v := L.DoDeliverRequest(w, LINK, tid, R.Authentic, []);
            && Follows(longer.joint, v, LINK) && v.answers[tid] != R.Failed(R.StaleNonce)
            && (w.collision.None? ==> v.answers[tid] == R.ChannelBound)
  {
    hide Goes, Follows, RequestArrival, R.Inv, L.FamiliesMatch, R.DoTimeout, R.IsExpiryOrder, L.DoDeliverRequest;
    var j, i := run.joint, RequestArrives(tid, R.Authentic, []);
    UnderWay(j, w, tid);
    var s := Ready(run, w);
    JudgedWorld(w, tid, s);
    var k := JudgedBind(j, w, tid, s);
    BindArrivalFollows(w, LINK, j, i, k, s);
    SameFate(k, L.DoDeliverRequest(w, LINK, tid, R.Authentic, []));
    longer := Extended(run, i, k);
    NotRefused(longer);
  }

  lemma UnderWay(j: Joint, w: L.World, tid: Tid)
    requires Follows(j, w, LINK) && tid in w.requests
    ensures IsBind(j.client.sent, tid) && tid in j.requests && tid in w.sent
            && SameBind(j.client.sent[tid], w.sent[tid])
    ensures w.relay == j.relay && w.now == j.now && j.clash == ClashOf(w.collision)
  {
    hide RequestsInv, Connected;
  }

  lemma SameFate(j: Joint, w: L.World)
    requires Follows(j, w, LINK)
    ensures j.now == w.now && j.clash == ClashOf(w.collision) && j.refused == w.refused
  {
  }

  lemma JudgedWorld(w: L.World, tid: Tid, s: R.Core)
    requires tid in w.sent && R.IsExpiryOrder(w.relay.allocations, w.now, []) && s == R.DoTimeout(w.relay, w.now, [])
    requires R.Inv(s, LINK.config) && L.FamiliesMatch(LINK, s) && w.sent[tid].peer.Family() in LINK.families
    ensures var v := L.DoDeliverRequest(w, LINK, tid, R.Authentic, []);
            && v.now == w.now && v.collision == w.collision
               && v.answers[tid] in {R.ChannelBound, R.Failed(R.BadRequest)}
            && (v.answers[tid] == R.Failed(R.BadRequest) ==> v.refused)
  {
    BindOutcomeFits(s, LINK, L.Request(w, tid, R.Authentic));
    hide R.DoTimeout, R.IsExpiryOrder, R.Inv, L.FamiliesMatch, R.BindOutcome, R.DoChannelBind;
  }

  lemma NotRefused(run: Run)
    requires Goes(run)
    ensures run.joint.clash.None? ==> !run.joint.refused
  {
    hide IsRun, Prompt;
    TurnJointTheorems.RefusalNeedsCollision(run, LINK);
  }

  lemma JudgedBind(j: Joint, w: L.World, tid: Tid, s: R.Core) returns (k: Joint)
    requires tid in j.client.sent && tid in j.requests && tid in w.sent && SameBind(j.client.sent[tid], w.sent[tid])
    requires w.relay == j.relay && w.now == j.now && R.IsExpiryOrder(j.relay.allocations, j.now, [])
    requires s == R.DoTimeout(j.relay, j.now, [])
    ensures RequestArrival(j, LINK, RequestArrives(tid, R.Authentic, []), k) && k.client == j.client
  {
    var r := L.Request(w, tid, R.Authentic);
    BindHandled(s, LINK, r, j.now);
    hide R.DoTimeout, R.DoChannelBind, R.BindOutcome, R.IsExpiryOrder;
    var outcome := R.BindOutcome(s, r, ME);
    k := j.(relay := R.DoChannelBind(s, r, ME, j.now), requests := j.requests - {tid},
            answers := j.answers[tid := outcome], refused := j.refused || outcome == R.Failed(R.BadRequest));
  }

  /** The client learns that a bind was accepted. */
  lemma ConfirmStep(run: Run, w: L.World, tid: Tid) returns (longer: Run)
    requires Goes(run) && Follows(run.joint, w, LINK) && IsFresh(run.joint) && run.joint.client.server == SERVER
    requires tid in w.answers && w.answers[tid] == R.ChannelBound
    ensures var s, v := run.joint.client, longer.joint.client;
            && tid in w.sent && Goes(longer) && Follows(longer.joint, L.DoDeliverAnswer(w, tid), LINK)
            && v.server == s.server && v.active == s.active && v.lifetime == s.lifetime && v.sent == s.sent - {tid}
  {
    hide Goes, Follows, L.DoDeliverAnswer, Connected, RequestsInv;
    var j := run.joint;
    var m := C.Message(tid, C.KChannelBind, true, C.Success(None, None, []));
    Acknowledged(j, w, tid);
    BindJudgedFollows(w, LINK, j, RELAY, RELAY, m);
    Sound(run);
    BindAnswer(j, LINK, RELAY, RELAY, m);
    AnsweredIs(j, m);
    hide Answered, C.HandleInput;
    longer := Extended(run, AnswerArrives(RELAY, RELAY, m), Answered(j, RELAY, RELAY, m));
  }

  lemma Acknowledged(j: Joint, w: L.World, tid: Tid)
    requires Follows(j, w, LINK) && tid in w.answers && w.answers[tid] == R.ChannelBound && j.client.server == SERVER
    ensures IsBind(j.client.sent, tid) && tid in j.answers && j.answers[tid] == R.ChannelBound
    ensures IsAnswer(j, RELAY, C.Message(tid, C.KChannelBind, true, C.Success(None, None, [])))
  {
    hide RequestsInv, Connected;
  }

  lemma AnsweredIs(j: Joint, m: C.Message)
    ensures var k := Answered(j, RELAY, RELAY, m);
            k.client == C.HandleInput(j.client, RELAY, RELAY, m, j.now) && k.now == j.now && k.clash == j.clash
  {
    hide C.HandleInput;
  }

  /** The linked world of an idle client. */
  ghost function Linked(j: Joint): L.World {
    L.World(j.now, j.client.bindings, map[], j.now, j.relay, {}, map[], {}, j.client.nextTid, None, j.refused)
  }

  lemma IdleFollows(run: Run, t: Instant)
    requires Goes(run) && Idle(run.joint, t)
    ensures Follows(run.joint, Linked(run.joint), LINK)
  {
    hide Goes;
    Sound(run);
  }

  lemma FillOne(run: Run, k: nat) returns (longer: Run)
    requires Goes(run) && Idle(run.joint, 0) && Stocked(run.joint, k, true) && k < B.CHANNEL_COUNT
    ensures Goes(longer) && Idle(longer.joint, 0) && Stocked(longer.joint, k + 1, true)
  {
    hide Goes, Follows, Channels, RelayChannels, Table, L.CanBind, B.NewChannel, R.IsExpiryOrder, L.DoBindChannel,
         L.DoDeliverRequest, L.DoDeliverAnswer;
    IdleFollows(run, 0);
    var w, p := Linked(run.joint), PeerNo(k);
    AskForNext(w, k);
    longer := BindStep(run, w, p);
    var asked := L.DoBindChannel(w, p);
    TimeoutIs(w.relay, k, true, 0, 0);
    SameFate(longer.joint, asked);
    longer := JudgeStep(longer, asked, w.nextTid);
    var judged := L.DoDeliverRequest(asked, LINK, w.nextTid, R.Authentic, []);
    JudgedNext(asked, k, w.nextTid);
    SameFate(longer.joint, judged);
    longer := ConfirmStep(longer, judged, w.nextTid);
    ConfirmedNext(judged, k, w.nextTid);
    Settled(longer.joint, L.DoDeliverAnswer(judged, w.nextTid));
  }

  /** What a joint world shares with a linked one that it follows. */
  lemma Settled(j: Joint, w: L.World)
    requires Follows(j, w, LINK)
    ensures j.now == w.now && j.client.bindings == w.client && j.relay == w.relay && j.data == w.data
            && j.clash == ClashOf(w.collision)
  {
  }

  lemma JudgedNext(w: L.World, k: nat, tid: Tid)
    requires tid in w.sent && w.sent[tid] == L.Bind(B.FIRST_CHANNEL + k, PeerNo(k), 0, 0) && w.now == 0
    requires w.relay.allocations == Allocated(0) && w.relay.channels == RelayChannels(k, true)
    requires R.IsExpiryOrder(w.relay.allocations, 0, [])
    requires L.DoDeliverRequest(w, LINK, tid, R.Authentic, []).answers[tid] == R.ChannelBound
    ensures var v := L.DoDeliverRequest(w, LINK, tid, R.Authentic, []);
            && v == w.(relay := v.relay, requests := w.requests - {tid}, answers := w.answers[tid := R.ChannelBound])
            && v.relay.allocations == Allocated(0) && v.relay.channels == RelayChannels(k + 1, true)
  {
    TimeoutIs(w.relay, k, true, 0, 0);
    hide R.DoTimeout, R.IsExpiryOrder;
  }

  lemma ConfirmedNext(w: L.World, k: nat, tid: Tid)
    requires k < B.CHANNEL_COUNT && tid in w.sent && w.sent[tid] == L.Bind(B.FIRST_CHANNEL + k, PeerNo(k), 0, 0)
    requires tid in w.answers && w.answers[tid] == R.ChannelBound && w.now == 0
    requires var n := B.FIRST_CHANNEL + k;
             w.client == B.Bindings(Channels(k)[n := B.Channel(PeerNo(k), false, 0, 0)], B.Succ(n))
    ensures var v := L.DoDeliverAnswer(w, tid);
            v == w.(client := Table(k + 1), sent := w.sent - {tid}, answers := w.answers - {tid})
  {
    ConfirmNext(k);
    hide Channels, Table, B.Confirm;
  }

  lemma {:induction false} FillAll(k: nat) returns (run: Run)
    requires k <= B.CHANNEL_COUNT
    ensures Goes(run) && Idle(run.joint, 0) && Stocked(run.joint, k, true)
  {
    hide *;
    if k == 0 {
      run := Begin();
    } else {
      run := FillAll(k - 1);
      run := FillOne(run, k - 1);
    }
  }

  // ---------- Waiting ----------

  /** Time passes, at most up to the next keep-alive. */
  lemma PassStep(run: Run, granted: Instant, t: Instant) returns (longer: Run)
    requires Goes(run) && run.joint.clash.None? && run.joint.data == {}
             && run.joint.relay.allocations == Allocated(granted)
    requires R.NothingBefore(run.joint.relay, t) && run.joint.now <= t <= granted + L.BINDING_INTERVAL
    requires forall id :: id in run.joint.client.sent ==>
             t < run.joint.client.sent[id].backoff.start + L.REQUEST_TIMEOUT
    requires run.joint.client.active.Some? && t <= run.joint.client.active.value.nextBinding
    requires run.joint.client.lifetime == Some((granted, R.DEFAULT_ALLOCATION_LIFETIME))
    ensures Goes(longer) && longer.joint == run.joint.(now := t)
  {
    hide Goes, R.NothingBefore;
    Sound(run);
    hide Connected;
    assert forall id :: id in run.joint.client.sent ==> IsYoung(run.joint.client.sent[id], run.joint.now);
    longer := Extended(run, Pass(t), run.joint.(now := t));
  }

  /** The keep-alive is due, and nothing else. */
  lemma TickIsKeepAlive(j: Joint, t: Instant, k: nat)
    requires Idle(j.(now := t, relay := j.relay.(allocations := Allocated(t))), t) && j.client.bindings == Table(k)
    requires j.now == t + L.BINDING_INTERVAL && RequestsInv(j) && j.client.HasAllocation()
    ensures C.RetriesAll(C.BeforeRetries(j.client, j.now), [], j.now)
    ensures C.HandleTimeout(j.client, j.now, []) == C.KeepAlive(j.client, j.now) != j.client
  {
    forall id ensures !C.IsDue(C.KeepAlive(j.client, j.now), id, j.now) { NothingDue(j, id); }
    NothingDue(j, 0);
    TickPhases(j.client, j.now);
    var kept := C.KeepAlive(j.client, j.now);
    assert C.RefreshIfDue(kept, j.now) == kept;
    C.ToRefreshHeld(kept, B.FIRST_CHANNEL, j.now);
    forall n ensures n !in C.ToRefresh(kept, B.FIRST_CHANNEL, j.now) { NothingToRefresh(k, n, j.now); }
    NoMembers(C.ToRefresh(kept, B.FIRST_CHANNEL, j.now));
  }

  lemma NoMembers(s: seq<B.Number>)
    requires forall n :: n !in s
    ensures s == []
  {
    HeadIn(s);
  }

  /** What the rounds keep: the client's table, and a keep-alive every twenty-five seconds. */
  ghost predicate Steered(j: Joint, t: Instant, k: nat) {
    && j.now == t && j.client.server == SERVER && j.client.bindings == Table(k) && j.data == {} && j.clash.None?
    && j.client.active.Some? && j.client.active.value.nextBinding == t + L.BINDING_INTERVAL
  }

  /** A request of the client's own is under way. */
  predicate HasSent(j: Joint, v: Joint, op: C.Op) {
    && HasAsked(j.client, v.client, op, j.now) && v.requests == j.requests + {j.client.nextTid}
    && v == j.(client := v.client, requests := v.requests, since := v.since)
  }

  lemma SendsAsked(j: Joint, s': C.Client, op: C.Op)
    requires RequestsInv(j) && HasAsked(j.client, s', op, j.now) && (op.Binding? || op == C.Op.Refresh(false))
    ensures HasSent(j, Sends(j, s', j.now), op)
  {
    AskedRequests(j, s', op, j.now);
  }

  lemma TickStep(run: Run, t: Instant, k: nat) returns (longer: Run)
    requires Goes(run) && run.joint.now == t + L.BINDING_INTERVAL && run.joint.client.bindings == Table(k)
    requires Idle(run.joint.(now := t, relay := run.joint.relay.(allocations := Allocated(t))), t)
    ensures Goes(longer) && HasSent(run.joint, longer.joint, C.Op.Binding) && Steered(longer.joint, run.joint.now, k)
  {
    hide Goes, Table;
    var j := run.joint;
    Sound(run);
    TickIsKeepAlive(j, t, k);
    KeepAliveAsks(j.client, j.now);
    var s' := C.KeepAlive(j.client, j.now);
    SendsAsked(j, s', C.Op.Binding);
    hide C.KeepAlive, C.RetriesAll, C.BeforeRetries, C.HandleTimeout, Connected, RequestsInv, Sends;
    longer := Extended(run, Node(CR.Tick([])), Sends(j, s', j.now));
  }

  lemma RenewStep(run: Run, t: Instant, k: nat) returns (longer: Run)
    requires Goes(run) && Steered(run.joint, t, k)
    ensures Goes(longer) && HasSent(run.joint, longer.joint, C.Op.Refresh(false)) && Steered(longer.joint, t, k)
  {
    hide Goes, Table;
    var j := run.joint;
    Sound(run);
    RenewAsks(j.client, LINK, j.now);
    AskAsks(j.client, C.Op.Refresh(false), j.now);
    var s' := C.Ask(j.client, C.Op.Refresh(false), j.now);
    SendsAsked(j, s', C.Op.Refresh(false));
    hide C.Ask, C.RefreshAllocation, Connected, RequestsInv, Sends;
    longer := Extended(run, Node(CR.Renew), Sends(j, s', j.now));
  }

  function OutcomeOf(op: C.Op): R.Outcome {
    if op.Binding? then R.Mapped(ME) else R.Refreshed(R.DEFAULT_ALLOCATION_LIFETIME)
  }

  /** The relay handles a request that is not a bind. */
  lemma HandleStep(run: Run, tid: Tid, k: nat, bound: bool, granted: Instant) returns (longer: Run)
    requires Goes(run) && run.joint.clash.None? && tid in run.joint.requests && tid in run.joint.client.sent
    requires var op := run.joint.client.sent[tid].request.op; op.Binding? || op == C.Op.Refresh(false)
    requires run.joint.relay.allocations == Allocated(granted) && run.joint.relay.channels == RelayChannels(k, bound)
    requires granted <= run.joint.now <= granted + L.BINDING_INTERVAL && run.joint.now < R.COOLDOWN
    ensures var j, v, op := run.joint, longer.joint, run.joint.client.sent[tid].request.op;
            && Goes(longer)
            && v == j.(relay := v.relay, requests := j.requests - {tid}, answers := j.answers[tid := OutcomeOf(op)])
            && v.relay.allocations == Allocated(if op.Binding? then granted else j.now)
            && v.relay.channels == RelayChannels(k, bound && j.now < R.CHANNEL_BINDING_DURATION)
  {
    hide Goes, RelayChannels;
    var j := run.joint;
    var op, i := j.client.sent[tid].request.op, RequestArrives(tid, R.Authentic, []);
    TimeoutIs(j.relay, k, bound, granted, j.now);
    var s := R.DoTimeout(j.relay, j.now, []);
    hide R.DoTimeout, R.IsExpiryOrder;
    var relay := RelayRuns.Step(s, PORTS, Delivery(j, LINK, tid, R.Authentic), j.now);
    var v := j.(relay := relay, requests := j.requests - {tid}, answers := j.answers[tid := OutcomeOf(op)]);
    assert RequestArrival(j, LINK, i, v);
    longer := Extended(run, i, v);
  }

  function AnswerTo(tid: Tid, op: C.Op): C.Message {
    if op.Binding? then C.Message(tid, C.KBinding, true, C.Success(Some(ME), None, []))
    else C.Message(tid, C.KRefresh, true, C.Success(None, Some(R.DEFAULT_ALLOCATION_LIFETIME), []))
  }

  /** Its answer arrives. */
  lemma AnswerStep(run: Run, tid: Tid) returns (longer: Run)
    requires Goes(run) && run.joint.clash.None? && run.joint.client.server == SERVER
    requires tid in run.joint.answers && tid in run.joint.client.sent
    requires var op := run.joint.client.sent[tid].request.op;
             (op.Binding? || op == C.Op.Refresh(false)) && run.joint.answers[tid] == OutcomeOf(op)
    ensures var j, v := run.joint, longer.joint;
            && Goes(longer)
            && v == j.(client := v.client, answers := j.answers - {tid}, since := v.since)
            && Steady(j.client.(sent := j.client.sent - {tid}), v.client)
            && v.client.lifetime == if j.client.sent[tid].request.op.Binding? then j.client.lifetime
                                    else Some((j.now, R.DEFAULT_ALLOCATION_LIFETIME))
  {
    hide Goes, Connected, RequestsInv, C.HandleInput;
    var j, m := run.joint, AnswerTo(tid, run.joint.client.sent[tid].request.op);
    assert IsAnswer(j, RELAY, m);
    Sound(run);
    HasSocket(j.client, LINK);
    PlainAnswer(j, LINK, RELAY, RELAY, m);
    NothingSent(j, m);
    hide IsAnswer, Steady, Answered;
    longer := Extended(run, AnswerArrives(RELAY, RELAY, m), Answered(j, RELAY, RELAY, m));
  }

  lemma NothingSent(j: Joint, m: C.Message)
    requires Steady(Noted(j, m.tid).client, C.HandleInput(j.client, RELAY, RELAY, m, j.now))
    ensures var k := Answered(j, RELAY, RELAY, m);
            && k == j.(client := k.client, answers := j.answers - {m.tid}, since := k.since)
            && k.client == C.HandleInput(j.client, RELAY, RELAY, m, j.now)
  {
    hide C.HandleInput;
    assert C.HandleInput(j.client, RELAY, RELAY, m, j.now).sent.Keys - j.client.sent.Keys == {};
  }

  /** The keep-alive `a` and the refresh after it are under way, and these are the answers to them so far. */
  ghost predicate Pending(j: Joint, a: Tid, answered: set<Tid>) {
    && j.client.sent.Keys == {a, a + 1} && j.requests == {a, a + 1} - answered
       && j.answers.Keys == answered <= {a, a + 1}
    && j.client.sent[a].request.op == C.Op.Binding && j.client.sent[a + 1].request.op == C.Op.Refresh(false)
    && forall id :: id in answered ==> j.answers[id] == OutcomeOf(j.client.sent[id].request.op)
  }

  lemma RoundAsked(run: Run, t: Instant, k: nat, bound: bool) returns (longer: Run)
    requires Goes(run) && Idle(run.joint, t) && Stocked(run.joint, k, bound)
    requires t + L.BINDING_INTERVAL <= (if bound then R.CHANNEL_BINDING_DURATION else R.COOLDOWN - L.BINDING_INTERVAL)
    ensures Goes(longer) && Steered(longer.joint, t + L.BINDING_INTERVAL, k)
    ensures Pending(longer.joint, run.joint.client.nextTid, {}) && longer.joint.relay == run.joint.relay
  {
    hide Goes, RelayChannels, Table;
    Sound(run);
    assert run.joint.requests == {} && run.joint.answers == map[];
    hide Connected, RequestsInv;
    QuietUntil(run.joint.relay, k, bound, t, t + L.BINDING_INTERVAL);
    longer := PassStep(run, t, t + L.BINDING_INTERVAL);
    longer := TickStep(longer, t, k);
    longer := RenewStep(longer, t + L.BINDING_INTERVAL, k);
  }

  lemma RoundAnswered(run: Run, t: Instant, k: nat, a: Tid) returns (longer: Run)
    requires Goes(run) && Steered(run.joint, t, k) && Pending(run.joint, a, {a, a + 1})
             && run.joint.relay.allocations == Allocated(t)
    ensures Goes(longer) && Idle(longer.joint, t) && longer.joint.client.bindings == Table(k)
    ensures longer.joint.relay == run.joint.relay
  {
    hide Goes, Table, Allocated;
    longer := AnswerStep(run, a);
    longer := AnswerStep(longer, a + 1);
    assert longer.joint.client.sent.Keys == {};
  }

  /** Twenty-five seconds, after which the keep-alive is answered and the allocation refreshed. */
  lemma Round(run: Run, t: Instant, k: nat, bound: bool) returns (longer: Run)
    requires Goes(run) && Idle(run.joint, t) && Stocked(run.joint, k, bound) && 0 <= t
    requires t + L.BINDING_INTERVAL <= (if bound then R.CHANNEL_BINDING_DURATION else R.COOLDOWN - L.BINDING_INTERVAL)
    ensures var now := t + L.BINDING_INTERVAL;
            Goes(longer) && Idle(longer.joint, now)
                && Stocked(longer.joint, k, bound && now < R.CHANNEL_BINDING_DURATION)
  {
    hide Goes, RelayChannels, Table, Allocated;
    var now, a := t + L.BINDING_INTERVAL, run.joint.client.nextTid;
    longer := RoundAsked(run, t, k, bound);
    longer := HandleStep(longer, a, k, bound, t);
    longer := HandleStep(longer, a + 1, k, bound && now < R.CHANNEL_BINDING_DURATION, t);
    longer := RoundAnswered(longer, now, k, a);
  }

  lemma {:induction false} Rounds(run: Run, t: Instant, k: nat, bound: bool, rounds: nat) returns (longer: Run)
    requires Goes(run) && Idle(run.joint, t) && Stocked(run.joint, k, bound) && 0 <= t
    requires bound ==> t < R.CHANNEL_BINDING_DURATION && t % L.BINDING_INTERVAL == 0
    requires t + rounds * L.BINDING_INTERVAL <= R.COOLDOWN - L.BINDING_INTERVAL
    ensures var now := t + rounds * L.BINDING_INTERVAL;
            Goes(longer) && Idle(longer.joint, now)
                && Stocked(longer.joint, k, bound && now < R.CHANNEL_BINDING_DURATION)
    decreases rounds
  {
    hide Goes, Idle, Stocked;
    if rounds == 0 {
      longer := run;
    } else {
      longer := Round(run, t, k, bound);
      var now := t + L.BINDING_INTERVAL;
      longer := Rounds(longer, now, k, bound && now < R.CHANNEL_BINDING_DURATION, rounds - 1);
    }
  }

  /** All numbers are taken, and their cooldown ends in twenty-five seconds. */
  lemma CoolDown(k: nat) returns (run: Run)
    requires k == B.CHANNEL_COUNT
    ensures Goes(run) && Idle(run.joint, R.COOLDOWN - L.BINDING_INTERVAL) && Stocked(run.joint, k, false)
  {
    hide Goes, Idle, Stocked;
    run := FillAll(k);
    run := Rounds(run, 0, k, true, 35);
  }

  // ---------- The end of the cooldown ----------

  /** The bind of the first number to the first peer is under way, half a second before the cooldown ends. */
  ghost predicate AskedAgain(j: Joint, w: L.World, k: nat) {
    && Follows(j, w, LINK) && j.client.server == SERVER && j.client.sent.Keys == {w.nextTid - 1}
    && w.now == R.COOLDOWN - SECOND / 2 && w.client == Table(k) && w.collision.None? && w.data == {} && 0 < w.nextTid
    && w.sent == map[w.nextTid - 1 := L.Bind(B.FIRST_CHANNEL, PeerNo(0), w.now, w.now)]
    && w.requests == {w.nextTid - 1} && w.answers == map[]
    && w.relay.allocations == Allocated(R.COOLDOWN - L.BINDING_INTERVAL) && w.relay.channels == RelayChannels(k, false)
    && j.client.active.Some? && j.client.active.value.nextBinding == R.COOLDOWN
    && j.client.lifetime == Some((R.COOLDOWN - L.BINDING_INTERVAL, R.DEFAULT_ALLOCATION_LIFETIME))
  }

  lemma AskAgainStep(run: Run, k: nat) returns (longer: Run, w: L.World)
    requires Goes(run) && k == B.CHANNEL_COUNT
    requires Idle(run.joint, R.COOLDOWN - L.BINDING_INTERVAL) && Stocked(run.joint, k, false)
    ensures Goes(longer) && AskedAgain(longer.joint, w, k)
  {
    hide Goes, Follows, Table, RelayChannels, Allocated, L.CanBind, L.DoBindChannel, B.NewChannel, R.NothingBefore;
    var granted, late := R.COOLDOWN - L.BINDING_INTERVAL, R.COOLDOWN - SECOND / 2;
    IdleFollows(run, granted);
    QuietUntil(run.joint.relay, k, false, granted, late);
    longer := PassStep(run, granted, late);
    var v := Linked(run.joint).(now := late);
    LaterFollows(run.joint, Linked(run.joint), late);
    AskAgain(v, k);
    longer := BindStep(longer, v, PeerNo(0));
    w := L.DoBindChannel(v, PeerNo(0));
    Settled(longer.joint, w);
  }

  lemma LaterFollows(j: Joint, w: L.World, t: Instant)
    requires Follows(j, w, LINK) && j.now <= t
    requires forall id :: id in j.client.sent ==> t < j.client.sent[id].backoff.start + L.REQUEST_TIMEOUT
    ensures Follows(j.(now := t), w.(now := t), LINK)
  {
    SameBindsOnly(j.client.sent, j.requests, j.answers, j.since, w, w.(now := t));
    hide SameBinds, Connected;
  }

  /** When the bind was sent. */
  lemma AskedAt(j: Joint, w: L.World, k: nat)
    requires AskedAgain(j, w, k)
    ensures forall id :: id in j.client.sent ==> j.client.sent[id].backoff.start == w.now
    ensures j.now == w.now && j.clash.None? && j.data == {} && j.relay == w.relay
  {
    hide Connected, RequestsInv, Table, RelayChannels;
    assert IsBind(j.client.sent, w.nextTid - 1);
  }

  /** The relay accepts the bind, and the cooldown ends for the client before the answer arrives. */
  lemma RebindableTooEarly() returns (run: Run)
    ensures IsRun(run, LINK)
    ensures var j, n := run.joint, B.FIRST_CHANNEL;
            && n in j.client.bindings.inner && j.client.bindings.inner[n].bound
               && j.client.bindings.inner[n].CanRebind(j.now)
            && (ME, n) in j.relay.channels && !j.relay.channels[(ME, n)].CanBeDeleted(j.now)
  {
    hide IsRun, Prompt, Follows, Idle, Stocked, L.DoDeliverRequest, R.IsExpiryOrder, R.NothingBefore, Table,
         RelayChannels, Allocated;
    var k: nat := B.CHANNEL_COUNT;
    var cooled := CoolDown(k);
    var asked, w := AskAgainStep(cooled, k);
    run := asked;
    AskedAt(run.joint, w, k);
    TimeoutIs(w.relay, k, false, R.COOLDOWN - L.BINDING_INTERVAL, w.now);
    run := JudgeStep(run, w, w.nextTid - 1);
    var v := L.DoDeliverRequest(w, LINK, w.nextTid - 1, R.Authentic, []);
    JudgedAgain(w, k, w.nextTid - 1);
    Settled(run.joint, v);
    run := PassStep(run, R.COOLDOWN - L.BINDING_INTERVAL, R.COOLDOWN);
    FirstRebindable(k);
  }

  lemma FirstRebindable(k: nat)
    requires k == B.CHANNEL_COUNT
    ensures var b := Table(k);
            && B.FIRST_CHANNEL in b.inner && b.inner[B.FIRST_CHANNEL].bound
            && b.inner[B.FIRST_CHANNEL].CanRebind(R.COOLDOWN)
  {
    ChannelsAre(k);
  }

  lemma JudgedAgain(w: L.World, k: nat, tid: Tid)
    requires tid in w.sent && w.sent[tid] == L.Bind(B.FIRST_CHANNEL, PeerNo(0), w.now, w.now)
             && w.now == R.COOLDOWN - SECOND / 2
    requires w.relay.allocations == Allocated(R.COOLDOWN - L.BINDING_INTERVAL)
             && w.relay.channels == RelayChannels(k, false)
    requires R.IsExpiryOrder(w.relay.allocations, w.now, [])
    requires L.DoDeliverRequest(w, LINK, tid, R.Authentic, []).answers[tid] == R.ChannelBound
    ensures var v := L.DoDeliverRequest(w, LINK, tid, R.Authentic, []);
            && v == w.(relay := v.relay, requests := w.requests - {tid}, answers := w.answers[tid := R.ChannelBound])
            && v.relay.allocations == w.relay.allocations && R.NothingBefore(v.relay, R.COOLDOWN)
            && (ME, B.FIRST_CHANNEL) in v.relay.channels
               && !v.relay.channels[(ME, B.FIRST_CHANNEL)].CanBeDeleted(R.COOLDOWN)
  {
    TimeoutIs(w.relay, k, false, R.COOLDOWN - L.BINDING_INTERVAL, w.now);
    RelayChannelsAre(k, false);
    hide R.DoTimeout, R.IsExpiryOrder, RelayChannels;
  }

  // ---------- The collision ----------

  /** Two binds of the first number are under way, the second just sent. */
  ghost predicate Collided(w: L.World, k: nat) {
    && w.now == R.COOLDOWN && 1 < w.nextTid && w.data == {} && !w.refused
    && w.collision == Some(L.Collision(B.FIRST_CHANNEL, PeerNo(0), PeerNo(k), R.COOLDOWN))
    && w.sent == map[w.nextTid - 2 := L.Bind(B.FIRST_CHANNEL, PeerNo(0), R.COOLDOWN - SECOND / 2,
       R.COOLDOWN - SECOND / 2),
                     w.nextTid - 1 := L.Bind(B.FIRST_CHANNEL, PeerNo(k), R.COOLDOWN, R.COOLDOWN)]
    && w.requests == {w.nextTid - 2, w.nextTid - 1} && w.answers == map[]
    && w.client.inner == Channels(k)[B.FIRST_CHANNEL := B.Channel(PeerNo(k), false, R.COOLDOWN, R.COOLDOWN)]
    && w.relay.allocations == Allocated(R.COOLDOWN - L.BINDING_INTERVAL) && w.relay.channels == RelayChannels(k, false)
  }

  lemma Collide(k: nat) returns (run: Run, w: L.World)
    requires k == B.CHANNEL_COUNT
    ensures Goes(run) && Follows(run.joint, w, LINK) && Collided(w, k)
  {
    hide Goes, Follows, Idle, Stocked, L.CanBind, L.DoBindChannel, B.NewChannel, R.NothingBefore, Channels,
         RelayChannels, Allocated;
    run := CoolDown(k);
    run, w := AskAgainStep(run, k);
    var j := run.joint;
    AskedAt(j, w, k);
    QuietUntil(w.relay, k, false, R.COOLDOWN - L.BINDING_INTERVAL, R.COOLDOWN);
    run := PassStep(run, R.COOLDOWN - L.BINDING_INTERVAL, R.COOLDOWN);
    LaterFollows(j, w, R.COOLDOWN);
    var later := w.(now := R.COOLDOWN);
    NotRefused(run);
    SameFate(run.joint, later);
    HandOutAgain(later, k, w.nextTid - 1);
    run := BindStep(run, later, PeerNo(k));
    w := L.DoBindChannel(later, PeerNo(k));
  }

  lemma AllocationStays(w: L.World, tid: Tid)
    requires tid in w.sent && w.now == R.COOLDOWN && w.relay.allocations == Allocated(R.COOLDOWN - L.BINDING_INTERVAL)
    ensures R.IsExpiryOrder(w.relay.allocations, w.now, [])
    ensures var v := L.DoDeliverRequest(w, LINK, tid, R.Authentic, []);
            && v == w.(relay := v.relay, requests := w.requests - {tid}, answers := w.answers[tid := v.answers[tid]],
               refused := v.refused)
            && v.relay.allocations == w.relay.allocations
  {
  }

  /** The refusal happens: the client has no guard against the collision. */
  lemma RefusalHappens() returns (run: Run, linked: L.Run)
    ensures IsRun(run, LINK) && run.joint.refused
    ensures L.IsRun(linked, LINK) && linked.world.refused
  {
    hide IsRun, Prompt, Follows, L.DoDeliverRequest, R.IsExpiryOrder, Channels, RelayChannels, Allocated, L.IsRun,
         OnTime;
    var k: nat := B.CHANNEL_COUNT;
    var collided, w := Collide(k);
    run := collided;
    var first, second := w.nextTid - 2, w.nextTid - 1;
    SameFate(run.joint, w);
    AllocationStays(w, first);
    run := JudgeStep(run, w, first);
    var v := L.DoDeliverRequest(w, LINK, first, R.Authentic, []);
    SameFate(run.joint, v);
    AllocationStays(v, second);
    run := JudgeStep(run, v, second);
    var u := L.DoDeliverRequest(v, LINK, second, R.Authentic, []);
    SameFate(run.joint, u);
    assert !ClashUndecided(run.joint) by { SameUndecided(run.joint, u, LINK); }
    TurnJointTheorems.RefusalExactlyOnCollision(run, LINK);
    linked := Followed(run, LINK);
    SameFate(run.joint, linked.world);
  }
}
