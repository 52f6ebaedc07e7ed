/** The TURN client's timers. */
module TurnClientTimers {
  import opened Common
  import opened TurnClient
  import opened TurnClientInvariant
  import opened TurnClientRuns
  import B = ChannelBindings

  /** No allocation past its lifetime, no keep-alive overdue. */
  predicate Settled(s: Client, now: Instant) {
    && (s.lifetime.Some? ==> now < s.ExpiresAt().value)
    && (s.HasAllocation() && s.active.Some? ==> now < s.active.value.nextBinding)
  }

  ghost predicate NoneDue(s: Client, now: Instant) { forall id :: !IsDue(s, id, now) }

  ghost predicate RefreshHandled(s: Client, now: Instant) {
    s.lifetime.Some? && s.RefreshAt().value <= now ==> s.InFlightKind(KRefresh)
  }

  lemma {:induction false} RetriesStaySettled(s: Client, picks: seq<Tid>, now: Instant)
    requires Settled(s, now) && AreRetries(s, picks, now)
    ensures Settled(AfterRetries(s, picks, now), now)
    decreases |picks|
  {
    if picks != [] {
      RetriesStaySettled(s, picks[..|picks| - 1], now);
    }
  }

  /** A request of our own accord is queued for later, as long as there is a socket and credentials. */
  lemma AskStaysSettled(s: Client, op: Op, now: Instant)
    requires Settled(s, now) && NoneDue(s, now) && s.nextTid !in s.sent
    ensures Settled(Ask(s, op, now), now) && NoneDue(Ask(s, op, now), now)
    ensures Ask(s, op, now).bindings == s.bindings && Ask(s, op, now).lifetime == s.lifetime
    ensures s.InFlightKind(KRefresh) ==> Ask(s, op, now).InFlightKind(KRefresh)
    ensures s.active.Some? && s.credentials.Some? ==> Ask(s, op, now).InFlightKind(op.Kind())
  {
    var v := Ask(s, op, now);
    forall id
      ensures !IsDue(v, id, now)
    {
      assert !IsDue(s, id, now);
    }
    if id :| id in s.sent && s.sent[id].request.op.Kind() == KRefresh {
      assert id in v.sent && v.sent[id] == s.sent[id];
    }
    if s.active.Some? && s.credentials.Some? {
      assert s.nextTid in v.sent;
    }
  }

  lemma {:induction false} RefreshChannelsStaysSettled(s: Client, numbers: seq<B.Number>, now: Instant,
                                                       taken: seq<Transmit>)
    requires Good(s, taken) && Settled(s, now) && NoneDue(s, now) && RefreshHandled(s, now)
    requires forall n :: n in numbers ==> n in s.bindings.inner
    ensures var v := RefreshChannels(s, numbers, now);
            Settled(v, now) && NoneDue(v, now) && RefreshHandled(v, now)
    decreases |numbers|
  {
    if numbers != [] {
      var op := ChannelBind(numbers[0], s.bindings.inner[numbers[0]].peer);
      AskStaysSettled(s, op, now);
      AskKeepsGood(s, op, now, taken);
      RefreshChannelsStaysSettled(Ask(s, op, now), numbers[1..], now, taken);
    }
  }

  lemma RefreshIfDueSettles(s: Client, now: Instant, taken: seq<Transmit>)
    requires Good(s, taken) && Settled(s, now) && NoneDue(s, now)
    ensures var v := RefreshIfDue(s, now);
            Good(v, taken) && Settled(v, now) && NoneDue(v, now) && RefreshHandled(v, now)
  {
    AskStaysSettled(s, Op.Refresh(false), now);
    AskKeepsGood(s, Op.Refresh(false), now, taken);
  }

  lemma BeforeRetriesSettles(s: Client, now: Instant)
    ensures Settled(BeforeRetries(s, now), now)
  {
  }

  lemma TimeoutSettles(s: Client, now: Instant, picks: seq<Tid>, taken: seq<Transmit>)
    requires Good(s, taken) && RetriesAll(BeforeRetries(s, now), picks, now)
    ensures var v := HandleTimeout(s, now, picks);
            Settled(v, now) && NoneDue(v, now) && RefreshHandled(v, now)
  {
    hide Good, Settled, BeforeRetries, RefreshIfDue, RefreshHandled, ToRefresh;
    var ready := BeforeRetries(s, now);
    BeforeRetriesSettles(s, now);
    BeforeRetriesKeepsGood(s, now, taken);
    RetriesStaySettled(ready, picks, now);
    RetriesKeepGood(ready, picks, now, taken);
    var retried := AfterRetries(ready, picks, now);
    RefreshIfDueSettles(retried, now, taken);
    var refreshed := RefreshIfDue(retried, now);
    ToRefreshHeld(refreshed, B.FIRST_CHANNEL, now);
    RefreshChannelsStaysSettled(refreshed, ToRefresh(refreshed, B.FIRST_CHANNEL, now), now, taken);
  }

  lemma DeadlinesAreLater(s: Client, now: Instant, t: Instant)
    requires Settled(s, now) && NoneDue(s, now) && RefreshHandled(s, now) && s.IsDeadline(t)
    ensures now < t
  {
    if id :| id in s.sent && s.sent[id].backoff.nextTrigger == t {
      assert !IsDue(s, id, now);
    }
  }

  /**
   After looking at the clock, whatever happened before: the client is next due strictly later, and no
   allocation it holds is past its lifetime.
   */
  lemma AfterTimeout(run: Run, now: Instant, picks: seq<Tid>, next: Option<Instant>)
    requires IsRun(run) && RetriesAll(BeforeRetries(State(run), now), picks, now)
    requires HandleTimeout(State(run), now, picks).IsPollTimeout(next)
    ensures next.None? || now < next.value
    ensures var v := HandleTimeout(State(run), now, picks);
            v.HasAllocation() ==> v.lifetime.Some? && now < v.ExpiresAt().value
  {
    hide HandleTimeout, BeforeRetries, NoneDue, RefreshHandled;
    ReachableGood(run);
    TimeoutSettles(State(run), now, picks, TakenTransmits(run));
    TimeoutKeepsGood(State(run), now, picks, TakenTransmits(run));
    if next.Some? {
      DeadlinesAreLater(HandleTimeout(State(run), now, picks), now, next.value);
    }
  }
}
