/**
 When the relay refuses a channel bind.

 The client and the relay are meant to agree on channel numbers so that a bind is never refused
 with Bad Request. They do, except in one situation: the client asks again for a number whose
 cooldown is about to end and, before the answer is there, the cooldown ends and the client hands
 the same number to another peer. This file proves that a refusal occurs only if this does, and does
 occur if the relay judges both binds in time.
 */
module TurnLinkTheorems {
  import opened Common
  import opened TurnLink
  import opened TurnLinkSafety
  import R = RelayCore

  // ---------- After a collision ----------

  predicate IsUnprocessed(w: World, t: Tid, n: Number, p: Peer, at: Instant) {
    IsUnjudged(w, t) && w.sent[t].number == n && w.sent[t].peer == p && w.sent[t].firstAt <= at
  }

  /** A bind of `n` to `p`, first sent by `at`, has yet to be judged by the relay. */
  ghost predicate Unprocessed(w: World, n: Number, p: Peer, at: Instant) {
    exists t :: IsUnprocessed(w, t, n, p, at)
  }

  /** The relay has reserved `n` for `p`, no earlier than a second before `at`. */
  predicate Held(w: World, link: Link, n: Number, p: Peer, at: Instant) {
    && R.Reserved(w.relay.channels, link.me, n, p)
    && at - REQUEST_TIMEOUT + R.CHANNEL_BINDING_DURATION <= w.relay.channels[(link.me, n)].expiry
  }

  /** Of the two colliding binds at most one has been accepted, and the other is still to be refused. */
  ghost predicate Doomed(w: World, link: Link, c: Collision) {
    && c.first != c.second && c.at <= w.now
    && (|| w.refused
        || (Unprocessed(w, c.number, c.first, c.at) && Unprocessed(w, c.number, c.second, c.at))
        || (Unprocessed(w, c.number, c.first, c.at) && Held(w, link, c.number, c.second, c.at))
        || (Held(w, link, c.number, c.first, c.at) && Unprocessed(w, c.number, c.second, c.at)))
  }

  /** Nothing but the relay's judgement takes an unprocessed bind away. */
  lemma StaysUnprocessed(w: World, link: Link, a: Action, v: World, n: Number, p: Peer, at: Instant, t: Tid)
    requires LinkInv(w, link) && Does(w, link, a, v) && IsUnprocessed(w, t, n, p, at)
    requires a.DeliverRequest? ==> a.tid != t || a.auth.Rejected?
    ensures Unprocessed(v, n, p, at)
  {
    hide CanAdvance, R.DoTimeout, R.DoChannelBind, R.BindOutcome;
    var u := if a.DeliverAnswer? && a.tid == t then w.nextTid else t;
    assert IsUnprocessed(v, u, n, p, at);
  }

  lemma FadedStaysHeld(w: World, link: Link, s: R.Core, n: Number, p: Peer, at: Instant)
    requires Held(w, link, n, p, at) && Faded(w.relay, s, link.me, w.now) && w.now < at + PATIENCE
    ensures Held(w.(relay := s), link, n, p, at)
  {
    assert !w.relay.channels[(link.me, n)].CanBeDeleted(w.now);
  }

  /** The relay judges a bind: it takes the number, keeps it as it is, or refuses. */
  lemma Judged(w: World, link: Link, tid: Tid, order: seq<SocketAddr>, n: Number, p: Peer, at: Instant)
    requires Base(w, link) && tid in w.requests && R.IsExpiryOrder(w.relay.allocations, w.now, order)
    requires at <= w.now < at + PATIENCE
    ensures var v := DoDeliverRequest(w, link, tid, R.Authentic, order);
            && (w.sent[tid].number == n ==> v.refused || Held(v, link, n, w.sent[tid].peer, at))
            && (Held(w, link, n, p, at) ==> v.refused || Held(v, link, n, p, at))
            && (Held(w, link, n, p, at) && w.sent[tid].number == n && w.sent[tid].peer != p ==> v.refused)
  {
    hide R.AllocationsInv, R.ChannelsInv, ClientInv;
    var s := R.DoTimeout(w.relay, w.now, order);
    TimeoutKeepsRelayInv(w.relay, link, w.now, order);
    FamilyMeansRelay(s, link, w.sent[tid].peer);
    if Held(w, link, n, p, at) {
      FadedStaysHeld(w, link, s, n, p, at);
      assert R.Reserved(s.channels, link.me, n, p);
    }
  }

  lemma DeliveryKeepsDoomed(w: World, link: Link, a: Action, v: World, c: Collision)
    requires Base(w, link) && Does(w, link, a, v) && a.DeliverRequest? && a.auth.Authentic?
    requires Doomed(w, link, c) && w.now < c.at + PATIENCE && !w.refused && !v.refused
    ensures Doomed(v, link, c)
  {
    var n := c.number;
    Judged(w, link, a.tid, a.order, n, c.first, c.at);
    Judged(w, link, a.tid, a.order, n, c.second, c.at);
    if t :| IsUnprocessed(w, t, n, c.first, c.at) && a.tid != t {
      StaysUnprocessed(w, link, a, v, n, c.first, c.at, t);
    }
    if t :| IsUnprocessed(w, t, n, c.second, c.at) && a.tid != t {
      StaysUnprocessed(w, link, a, v, n, c.second, c.at, t);
    }
  }

  lemma StepKeepsHeld(w: World, link: Link, a: Action, v: World, n: Number, p: Peer, at: Instant)
    requires Base(w, link) && Does(w, link, a, v) && !(a.DeliverRequest? && a.auth.Authentic?)
    requires Held(w, link, n, p, at) && w.now < at + PATIENCE
    ensures Held(v, link, n, p, at)
  {
    hide R.AllocationsInv, R.ChannelsInv, ClientInv, LinkInv;
    if a.RelayEvent? {
      OtherEventsFade(w.relay, link, a.event, w.now);
      FadedStaysHeld(w, link, v.relay, n, p, at);
    } else if a.DeliverRequest? {
      TimeoutKeepsRelayInv(w.relay, link, w.now, a.order);
      FadedStaysHeld(w, link, R.DoTimeout(w.relay, w.now, a.order), n, p, at);
    }
  }

  lemma DoomedIsUndecided(w: World, link: Link, c: Collision)
    requires Doomed(w, link, c) && !w.refused
    ensures Undecided(w, c.number, c.at)
  {
    var p := if Unprocessed(w, c.number, c.first, c.at) then c.first else c.second;
    var t :| IsUnprocessed(w, t, c.number, p, c.at);
  }

  /** Whatever the relay has not judged yet stays so, and whatever it holds it keeps. */
  lemma StepKeepsStage(w: World, link: Link, a: Action, v: World, n: Number, p: Peer, at: Instant)
    requires Base(w, link) && Does(w, link, a, v) && !(a.DeliverRequest? && a.auth.Authentic?) && w.now < at + PATIENCE
    ensures Held(w, link, n, p, at) ==> Held(v, link, n, p, at)
    ensures Unprocessed(w, n, p, at) ==> Unprocessed(v, n, p, at)
  {
    hide Held, Does, ClientInv, RelayInv;
    if Held(w, link, n, p, at) { StepKeepsHeld(w, link, a, v, n, p, at); }
    if t :| IsUnprocessed(w, t, n, p, at) { StaysUnprocessed(w, link, a, v, n, p, at, t); }
  }

  lemma TimeGoesOn(w: World, link: Link, a: Action, v: World)
    requires Does(w, link, a, v)
    ensures w.now <= v.now
  {
  }

  lemma StepKeepsDoomed(w: World, link: Link, a: Action, v: World, c: Collision)
    requires Base(w, link) && Does(w, link, a, v) && Doomed(w, link, c)
    requires Undecided(w, c.number, c.at) ==> w.now < c.at + PATIENCE
    ensures Doomed(v, link, c)
  {
    hide Does, Base, Held, Unprocessed;
    TimeGoesOn(w, link, a, v);
    if !w.refused && !v.refused {
      DoomedIsUndecided(w, link, c);
      if a.DeliverRequest? && a.auth.Authentic? {
        DeliveryKeepsDoomed(w, link, a, v, c);
      } else {
        StepKeepsStage(w, link, a, v, c.number, c.first, c.at);
        StepKeepsStage(w, link, a, v, c.number, c.second, c.at);
      }
    } else if w.refused {
      RefusedStays(w, link, a, v);
    }
  }

  lemma RefusedStays(w: World, link: Link, a: Action, v: World)
    requires Does(w, link, a, v) && w.refused
    ensures v.refused
  {
  }

  /** A collision out of a calm world: both binds are unprocessed, or the first one has just been accepted. */
  lemma CollisionIsDoomed(w: World, link: Link, p: Peer)
    requires Base(w, link) && Calm(w, link) && CanBind(w, link, p)
    requires w.collision.None? && DoBindChannel(w, p).collision.Some?
    ensures Doomed(DoBindChannel(w, p), link, DoBindChannel(w, p).collision.value)
  {
    hide TableInv, RelayAgrees, ActivityInv, RelayInv, ClientInv;
    var v := DoBindChannel(w, p);
    var c := v.collision.value;
    assert IsUnprocessed(v, w.nextTid, c.number, p, w.now);
    var t :| Awaits(w.sent, t, c.number) && w.sent[t].peer == c.first;
    if t in w.answers && w.answers[t] != R.Failed(R.StaleNonce) {
      assert GoodAnswer(w, link, t);
      assert Held(v, link, c.number, c.first, c.at);
    } else {
      assert IsUnprocessed(v, t, c.number, c.first, c.at);
    }
  }

  /** What holds in every reachable world. */
  ghost predicate Reached(w: World, link: Link) {
    Base(w, link) && (w.collision.None? ==> Calm(w, link))
  }

  lemma StepReaches(w: World, link: Link, a: Action, v: World)
    requires Reached(w, link) && Does(w, link, a, v)
    ensures Reached(v, link)
  {
    hide Does, Base, Calm;
    StepKeepsBase(w, link, a, v);
    CollisionStays(w, link, a, v);
    if v.collision.None? { StepKeepsCalm(w, link, a, v); }
  }

  lemma CollisionStays(w: World, link: Link, a: Action, v: World)
    requires Does(w, link, a, v)
    ensures w.collision.Some? ==> v.collision == w.collision
    ensures w.collision.None? && v.collision.Some? ==>
              a.BindChannel? && CanBind(w, link, a.peer) && v == DoBindChannel(w, a.peer)
  {
  }

  lemma {:induction false} AlwaysReached(run: Run, link: Link)
    requires IsRun(run, link)
    ensures Reached(run.world, link)
  {
    if run.Then? {
      AlwaysReached(run.before, link);
      StepReaches(run.before.world, link, run.action, run.world);
    }
  }

  lemma {:induction false} CollisionsStayDoomed(run: Run, link: Link)
    requires IsRun(run, link) && Prompt(run) && run.world.collision.Some?
    ensures Doomed(run.world, link, run.world.collision.value)
  {
    hide Does, Base, Calm, Doomed, Undecided;
    if run.Then? {
      AlwaysReached(run.before, link);
      var w := run.before.world;
      CollisionStays(w, link, run.action, run.world);
      if w.collision.Some? {
        CollisionsStayDoomed(run.before, link);
        StepKeepsDoomed(w, link, run.action, run.world, w.collision.value);
      } else {
        CollisionIsDoomed(w, link, run.action.peer);
      }
    }
  }

  // ---------- The theorems ----------

  /** The relay answers Bad Request only after a collision, however often stale nonces make the client repeat binds. */
  lemma RefusalNeedsCollision(run: Run, link: Link)
    requires IsRun(run, link)
    ensures run.world.refused ==> run.world.collision.Some?
  {
    AlwaysReached(run, link);
  }

  /**
   Once the relay has judged the binds that collided, it has refused one if and only if there was a
   collision, provided that they were not repeated for as long as the relay keeps a pair reserved.
   */
  lemma RefusalExactlyOnCollision(run: Run, link: Link)
    requires IsRun(run, link) && Prompt(run) && !CollisionUndecided(run.world)
    ensures run.world.refused <==> run.world.collision.Some?
  {
    hide IsRun, Prompt, Doomed;
    RefusalNeedsCollision(run, link);
    if run.world.collision.Some? {
      CollisionsStayDoomed(run, link);
      if !run.world.refused { DoomedIsUndecided(run.world, link, run.world.collision.value); }
    }
  }
}
