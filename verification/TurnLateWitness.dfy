/**
 A collision that passes: stale nonces make the client repeat one of the colliding binds for fifteen
 minutes, until the relay has forgotten the other.
 */
module TurnLateWitness {
  import opened Common
  import opened TurnLink
  import opened TurnScenario
  import B = ChannelBindings
  import J = TurnJoint
  import JF = TurnJointFollows
  import JT = TurnJointTheorems
  import JW = TurnJointWitness
  import R = RelayCore
  import RelayRuns

  const STEP: int := SECOND / 2
  const K: nat := B.CHANNEL_COUNT

  /** The relay's memory of the bind that it accepted at the end of the first cooldown. */
  function Memory(now: Instant): map<(SocketAddr, Number), R.Channel> {
    var expiry := R.COOLDOWN + R.CHANNEL_BINDING_DURATION;
    if now < R.COOLDOWN + R.COOLDOWN then map[(ME, B.FIRST_CHANNEL) := R.Channel(expiry, PeerNo(0), PORT, now < expiry)]
    else map[]
  }

  /** One bind is left, sent again just now. */
  ghost predicate Waiting(w: World, tid: Tid, t: Instant) {
    && w.now == w.lastTick == t && w.sent == map[tid := Bind(B.FIRST_CHANNEL, PeerNo(K), t, R.COOLDOWN)]
    && w.requests == {tid} && w.answers == map[] && w.data == {} && tid < w.nextTid
    && w.collision.Some? && !w.refused
    && (forall n :: n in w.client.inner ==> w.client.inner[n].NoActivity())
    && w.relay.allocations == Allocated(t) && w.relay.channels == Memory(t)
  }

  /** Looking at the clock changes the relay's memory as time goes by. */
  lemma Fades(s: R.Core, t: Instant, now: Instant)
    requires s.allocations == Allocated(t) && s.channels == Memory(t) && R.COOLDOWN <= t <= now <= t + BINDING_INTERVAL
    ensures R.IsExpiryOrder(s.allocations, now, [])
    ensures R.DoTimeout(s, now, []).channels == Memory(now) && R.DoTimeout(s, now, []).allocations == s.allocations
  {
  }

  /** Timers lie on multiples of the step. */
  lemma Grid(i: nat, m: nat)
    ensures i * STEP < m * STEP ==> i * STEP + STEP <= m * STEP
  {
  }

  /** No timer of the relay lies between two steps. */
  lemma NothingBetween(s: R.Core, t: Instant, i: nat)
    requires s.allocations == Allocated(t) && s.channels == Memory(t) && t == R.COOLDOWN + i * STEP
    ensures R.NothingBefore(s, t + STEP)
  {
    Grid(i, 1200);
    Grid(i, 1800);
    hide Allocated;
    assert t + STEP <= t + R.DEFAULT_ALLOCATION_LIFETIME;
    AllocatedUntil(t);
  }

  lemma AllocatedUntil(t: Instant)
    ensures forall c :: c in Allocated(t) ==> Allocated(t)[c].expiresAt == t + R.DEFAULT_ALLOCATION_LIFETIME
  {
  }

  // ---------- One step ----------

  /** Time passes, and the relay asks for another nonce. */
  lemma AskedForNonce(w: World, tid: Tid, t: Instant, i: nat) returns (later: World, stale: World)
    requires Waiting(w, tid, t) && t == R.COOLDOWN + i * STEP
    ensures Does(w, LINK, Advance(t + STEP), later)
    ensures Does(later, LINK, DeliverRequest(tid, R.Rejected(R.StaleNonce, true), []), stale)
    ensures stale == w.(now := t + STEP, relay := stale.relay, requests := {},
            answers := map[tid := R.Failed(R.StaleNonce)])
    ensures stale.relay.allocations == Allocated(t) && stale.relay.channels == Memory(t + STEP)
  {
    hide R.NothingBefore, R.DoTimeout, R.IsExpiryOrder, Memory, DoDeliverRequest;
    NothingBetween(w.relay, t, i);
    Fades(w.relay, t, t + STEP);
    later := w.(now := t + STEP);
    Rejection(later, tid);
    stale := DoDeliverRequest(later, LINK, tid, R.Rejected(R.StaleNonce, true), []);
  }

  lemma Rejection(w: World, tid: Tid)
    requires tid in w.sent && R.IsExpiryOrder(w.relay.allocations, w.now, [])
    ensures var s, v := R.DoTimeout(w.relay, w.now, []),
            DoDeliverRequest(w, LINK, tid, R.Rejected(R.StaleNonce, true), []);
            && v == w.(relay := v.relay, requests := w.requests - {tid},
               answers := w.answers[tid := R.Failed(R.StaleNonce)])
            && v.relay.allocations == s.allocations && v.relay.channels == s.channels
  {
    hide R.DoTimeout, R.IsExpiryOrder;
  }

  /** The client repeats the bind and looks at the clock. */
  lemma Repeated(w: World, tid: Tid, t: Instant) returns (again: World, ticked: World)
    requires w.now == t && w.sent == map[tid := Bind(B.FIRST_CHANNEL, PeerNo(K), t - STEP, R.COOLDOWN)]
    requires w.requests == {} && w.answers == map[tid := R.Failed(R.StaleNonce)]
    requires forall n :: n in w.client.inner ==> w.client.inner[n].NoActivity()
    ensures Does(w, LINK, DeliverAnswer(tid), again) && Does(again, LINK, Keepalive, ticked)
    ensures ticked == w.(sent := map[w.nextTid := Bind(B.FIRST_CHANNEL, PeerNo(K), t, R.COOLDOWN)],
            requests := {w.nextTid},
                         answers := map[], nextTid := w.nextTid + 1, lastTick := t)
  {
    again := DoDeliverAnswer(w, tid);
    ticked := again.(lastTick := t);
  }

  /** The allocation is refreshed. */
  lemma Refreshed(run: Run, t: Instant) returns (longer: Run)
    requires IsRun(run, LINK) && run.world.relay.allocations == Allocated(t)
    ensures var w, v := run.world, longer.world;
            && IsRun(longer, LINK) && v == w.(relay := v.relay, nextTid := w.nextTid + 1)
            && v.relay.allocations == Allocated(w.now) && v.relay.channels == w.relay.channels
  {
    hide Init, RelayRuns.Step;
    var w := run.world;
    var asked := w.(nextTid := w.nextTid + 1);
    var e := RelayRuns.Message(R.Refresh(w.nextTid, R.Authentic, None), ME, 0);
    Prolonged(w.relay, t, w.now, w.nextTid);
    var v := asked.(relay := RelayRuns.Step(asked.relay, PORTS, e, asked.now));
    longer := Then(Then(run, OtherRequest, asked), RelayEvent(e), v);
  }

  lemma Prolonged(s: R.Core, t: Instant, now: Instant, tid: nat)
    requires s.allocations == Allocated(t)
    ensures var after := RelayRuns.Step(s, PORTS, RelayRuns.Message(R.Refresh(tid, R.Authentic, None), ME, 0), now);
            after.allocations == Allocated(now) && after.channels == s.channels
  {
  }

  lemma Round(run: Run, tid: Tid, t: Instant, i: nat) returns (longer: Run, next: Tid)
    requires IsRun(run, LINK) && Waiting(run.world, tid, t) && t == R.COOLDOWN + i * STEP
    ensures IsRun(longer, LINK) && Waiting(longer.world, next, t + STEP)
  {
    hide Does, Memory, Allocated, Init;
    var later, stale := AskedForNonce(run.world, tid, t, i);
    var again, ticked := Repeated(stale, tid, t + STEP);
    longer := Then(Then(run, Advance(t + STEP), later), DeliverRequest(tid, R.Rejected(R.StaleNonce, true), []), stale);
    assert IsRun(longer, LINK);
    longer := Then(Then(longer, DeliverAnswer(tid), again), Keepalive, ticked);
    next := stale.nextTid;
    longer := Refreshed(longer, t);
  }

  lemma {:induction false} Rounds(run: Run, tid: Tid, i: nat, left: nat) returns (longer: Run, next: Tid)
    requires IsRun(run, LINK) && Waiting(run.world, tid, R.COOLDOWN + i * STEP)
    ensures IsRun(longer, LINK) && Waiting(longer.world, next, R.COOLDOWN + (i + left) * STEP)
    decreases left
  {
    hide IsRun, Waiting;
    longer, next := run, tid;
    if left > 0 {
      longer, next := Round(run, tid, R.COOLDOWN + i * STEP, i);
      longer, next := Rounds(longer, next, i + 1, left - 1);
    }
  }

  // ---------- The start ----------

  /** Two linked worlds with the same joint one. */
  lemma SameWorld(j: J.Joint, w: World, v: World)
    requires JF.Follows(j, w, LINK) && JF.Follows(j, v, LINK)
    ensures v == w.(lastTick := v.lastTick, collision := v.collision) && (v.collision.Some? <==> w.collision.Some?)
  {
    hide JF.Connected, JF.RequestsInv;
    assert forall t :: t in w.sent <==> t in v.sent;
    assert forall t :: t in w.sent ==> w.sent[t] == v.sent[t];
    assert w.sent == v.sent && w.requests == v.requests && w.answers == v.answers;
  }

  /** When the cooldown ends, the relay forgets all channels and accepts the first bind. */
  lemma FirstJudged(w: World, tid: Tid)
    requires w.relay.allocations == Allocated(R.COOLDOWN - BINDING_INTERVAL)
             && w.relay.channels == RelayChannels(K, false)
    requires w.now == R.COOLDOWN && tid in w.requests && tid in w.sent && !w.refused
    requires w.sent[tid] == Bind(B.FIRST_CHANNEL, PeerNo(0), R.COOLDOWN - SECOND / 2, R.COOLDOWN - SECOND / 2)
    ensures R.IsExpiryOrder(w.relay.allocations, w.now, [])
    ensures var v := DoDeliverRequest(w, LINK, tid, R.Authentic, []);
            && v == w.(relay := v.relay, requests := w.requests - {tid}, answers := w.answers[tid := R.ChannelBound])
            && v.relay.allocations == w.relay.allocations && v.relay.channels == Memory(R.COOLDOWN)
  {
    var k := K;
    RelayChannelsAre(k, false);
    var s := R.DoTimeout(w.relay, w.now, []);
    assert s.channels == map[];
    hide R.DoTimeout, RelayChannels;
    assert R.BindOutcome(s, Request(w, tid, R.Authentic), ME) == R.ChannelBound;
  }

  /** The last bind is judged when the relay has forgotten the first. */
  lemma LastJudged(w: World, tid: Tid)
    requires Waiting(w, tid, R.COOLDOWN + R.COOLDOWN)
    ensures R.IsExpiryOrder(w.relay.allocations, w.now, [])
    ensures var v := DoDeliverRequest(w, LINK, tid, R.Authentic, []);
            tid in w.sent && !v.refused && v.collision.Some? && !CollisionUndecided(v)
  {
    Fades(w.relay, w.now, w.now);
    var s := R.DoTimeout(w.relay, w.now, []);
    assert s.channels == map[];
    hide R.DoTimeout, R.IsExpiryOrder, Memory;
    assert R.BindOutcome(s, Request(w, tid, R.Authentic), ME) == R.ChannelBound;
  }

  /** The client looks at the clock; the relay accepts the first of the colliding binds, and the client learns of it. */
  lemma FirstConfirmed(w: World) returns (ticked: World, judged: World, answered: World)
    requires w.collision.Some?
    requires JW.Collided(w.(collision := Some(Collision(B.FIRST_CHANNEL, PeerNo(0), PeerNo(K), R.COOLDOWN))), K)
    ensures var first := w.nextTid - 2;
            && Does(w, LINK, Keepalive, ticked) && Does(ticked, LINK, DeliverRequest(first, R.Authentic, []), judged)
            && Does(judged, LINK, DeliverAnswer(first), answered)
    ensures answered.relay.allocations == Allocated(R.COOLDOWN - BINDING_INTERVAL)
    ensures Waiting(answered.(relay := answered.relay.(allocations := Allocated(R.COOLDOWN))), w.nextTid - 1, R.COOLDOWN)
  {
    hide DoDeliverRequest, R.IsExpiryOrder, Channels, RelayChannels, Memory, Allocated;
    var k := K;
    ChannelsAre(k);
    ticked := w.(lastTick := w.now);
    FirstJudged(ticked, w.nextTid - 2);
    judged := DoDeliverRequest(ticked, LINK, w.nextTid - 2, R.Authentic, []);
    answered := DoDeliverAnswer(judged, w.nextTid - 2);
  }

  lemma FirstAccepted(run: Run, w: World) returns (longer: Run, second: Tid)
    requires IsRun(run, LINK) && JW.Collided(w, K)
    requires run.world == w.(lastTick := run.world.lastTick, collision := run.world.collision)
    requires run.world.collision.Some?
    ensures IsRun(longer, LINK) && Waiting(longer.world, second, R.COOLDOWN)
  {
    hide Init, Does, Channels, RelayChannels, Memory, Allocated;
    var first := w.nextTid - 2;
    second := w.nextTid - 1;
    var ticked, judged, answered := FirstConfirmed(run.world);
    longer := Then(Then(run, Keepalive, ticked), DeliverRequest(first, R.Authentic, []), judged);
    assert IsRun(longer, LINK);
    longer := Then(longer, DeliverAnswer(first), answered);
    longer := Refreshed(longer, R.COOLDOWN - BINDING_INTERVAL);
  }

  /** Without a bound on repeats a collision need not lead to a refusal. */
  lemma LateCollisionPasses() returns (run: Run)
    ensures IsRun(run, LINK) && run.world.collision.Some? && !CollisionUndecided(run.world) && !run.world.refused
  {
    hide JF.Follows, IsRun, JF.OnTime, Waiting, DoDeliverRequest, R.IsExpiryOrder, J.IsRun, J.Prompt;
    hide Prompt, CollisionUndecided, Channels, RelayChannels, Allocated;
    var collided, w := JW.Collide(K);
    var linked := JT.Followed(collided, LINK);
    SameWorld(collided.joint, w, linked.world);
    var longer, tid := FirstAccepted(linked, w);
    longer, tid := Rounds(longer, tid, 0, 1800);
    LastJudged(longer.world, tid);
    run := Concluded(longer, tid);
  }

  lemma Concluded(run: Run, tid: Tid) returns (longer: Run)
    requires IsRun(run, LINK) && Waiting(run.world, tid, R.COOLDOWN + R.COOLDOWN)
    requires R.IsExpiryOrder(run.world.relay.allocations, run.world.now, [])
    ensures IsRun(longer, LINK) && longer.world == DoDeliverRequest(run.world, LINK, tid, R.Authentic, [])
  {
    hide Init, DoDeliverRequest, R.IsExpiryOrder;
    longer := Then(run, DeliverRequest(tid, R.Authentic, []), DoDeliverRequest(run.world, LINK, tid, R.Authentic, []));
  }
}
