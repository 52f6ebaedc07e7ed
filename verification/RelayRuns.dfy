/**
 Whole runs of the relay: any sequence of requests, failures, clock readings and command pick-ups,
 with a clock that never goes back. The theorems hold at every point of every run.
 */
module RelayRuns {
  import opened Common
  import opened RelayCore
  import opened RelayInvariant

  datatype Event =
    | Message(request: Request, sender: Client, sampled: Port)
    | AllocationFailed(port: Port)
    | Timeout(order: seq<Client>)
    | TakeCommand

  datatype Moment = Moment(event: Event, now: Instant)

  /** A run: `states[i]` is before `moments[i]`, `states[i + 1]` after it. */
  datatype Run = Run(config: Config, states: seq<Core>, moments: seq<Moment>)

  /** What the server's environment guarantees: sampled ports are free, all expired clients are visited. */
  ghost predicate Enabled(s: Core, config: Config, e: Event, now: Instant) {
    match e
    case Message(r, sender, sampled) =>
      r.Allocate? && r.auth.Authentic? && Admit(s, config, r, sender).Success? ==> IsFreePort(s, config, sampled)
    case Timeout(order) => IsExpiryOrder(s.allocations, now, order)
    case _ => true
  }

  ghost function Step(s: Core, config: Config, e: Event, now: Instant): Core
    requires Enabled(s, config, e, now)
  {
    match e
    case Message(r, sender, sampled) =>
      (match r
       case Binding(tid) => Respond(s, sender, tid, Mapped(sender))
       case Allocate(_, _, _, _, _, _) => DoAllocate(s, config, r, sender, now, sampled)
       case Refresh(_, _, _) => DoRefresh(s, r, sender, now)
       case ChannelBind(_, _, _, _) => DoChannelBind(s, r, sender, now)
       case CreatePermission(_, _) => DoCreatePermission(s, r, sender))
    case AllocationFailed(port) => DeletePort(s, port)
    case Timeout(order) => DoTimeout(s, now, order)
    case TakeCommand => if s.commands == [] then s else s.(commands := s.commands[1..])
  }

  ghost predicate IsRun(run: Run) {
    && run.config.Valid()
    && |run.states| == |run.moments| + 1
    && run.states[0] == EMPTY
    && (forall i :: 0 <= i < |run.moments| ==> IsStep(run, i))
    && (forall i, j :: 0 <= i <= j < |run.moments| ==> run.moments[i].now <= run.moments[j].now)
  }

  ghost predicate IsStep(run: Run, i: nat)
    requires i < |run.moments| && |run.states| == |run.moments| + 1
  {
    && Enabled(run.states[i], run.config, run.moments[i].event, run.moments[i].now)
    && run.states[i + 1] == Step(run.states[i], run.config, run.moments[i].event, run.moments[i].now)
  }

  // ---------- Consistency ----------

  lemma DerivedAddressesWellFormed(stack: IpStack, requested: Option<Family>, additional: Option<Family>)
    requires stack.Valid()
    ensures var r := DeriveRelayAddresses(stack, requested, additional);
            r.Success? && r.value.1.Some? ==> r.value.0.family == V4 && r.value.1.value.family == V6
  {
  }

  lemma TimeoutKeepsInv(s: Core, config: Config, now: Instant, order: seq<Client>)
    requires Inv(s, config) && IsExpiryOrder(s.allocations, now, order)
    ensures Inv(DoTimeout(s, now, order), config)
  {
    var after := DoTimeout(s, now, order);
    SubsetSize(after.allocations.Keys, s.allocations.Keys);
    assert forall c, p :: Owns(after.allocations, c, p) ==> Owns(s.allocations, c, p);
    assert forall c, n, p :: Reserved(after.channels, c, n, p) ==> Reserved(s.channels, c, n, p);
  }

  lemma StepKeepsInv(s: Core, config: Config, e: Event, now: Instant)
    requires config.Valid() && Inv(s, config) && Enabled(s, config, e, now)
    ensures Inv(Step(s, config, e, now), config)
  {
    match e
    case Message(r, sender, sampled) => MessageKeepsInv(s, config, r, sender, sampled, now);
    case AllocationFailed(port) =>
      if exists c :: Owns(s.allocations, c, port) {
        var c :| Owns(s.allocations, c, port);
        DeletePortOf(s, config, c);
        DropKeepsInv(s, config, c);
      }
    case Timeout(order) => TimeoutKeepsInv(s, config, now, order);
    case TakeCommand =>
  }

  lemma AllocateKeepsInv(s: Core, config: Config, r: Request, sender: Client, sampled: Port, now: Instant)
    requires config.Valid() && Inv(s, config) && r.Allocate? && Enabled(s, config, Message(r, sender, sampled), now)
    ensures Inv(DoAllocate(s, config, r, sender, now, sampled), config)
  {
    if r.auth.Authentic? && Admit(s, config, r, sender).Success? {
      var (first, second) := Admit(s, config, r, sender).value;
      DerivedAddressesWellFormed(config.address, r.requested, r.additional);
      GrantKeepsInv(s, config, sender, Allocation(sampled, now + EffectiveLifetime(r.lifetime), first, second));
    }
  }

  lemma RefreshKeepsInv(s: Core, config: Config, r: Request, sender: Client, now: Instant)
    requires Inv(s, config) && r.Refresh?
    ensures Inv(DoRefresh(s, r, sender, now), config)
  {
    hide AllocationsInv, ChannelsInv, Drop;
    if r.auth.Authentic? && sender in s.allocations {
      DropKeepsInv(s, config, sender);
      ProlongKeepsInv(s, config, sender, now + EffectiveLifetime(r.lifetime));
    }
  }

  lemma BindRequestKeepsInv(s: Core, config: Config, r: Request, sender: Client, now: Instant)
    requires Inv(s, config) && r.ChannelBind?
    ensures Inv(DoChannelBind(s, r, sender, now), config)
  {
    hide AllocationsInv, ChannelsInv, Conflicts;
    if r.auth.Authentic? && BindOutcome(s, r, sender) == ChannelBound {
      BindKeepsInv(s, config, sender, r.number, r.peer, now + CHANNEL_BINDING_DURATION);
    }
  }

  lemma MessageKeepsInv(s: Core, config: Config, r: Request, sender: Client, sampled: Port, now: Instant)
    requires config.Valid() && Inv(s, config) && Enabled(s, config, Message(r, sender, sampled), now)
    ensures Inv(Step(s, config, Message(r, sender, sampled), now), config)
  {
    hide DoAllocate, DoRefresh, DoChannelBind, AllocationsInv, ChannelsInv, Admit;
    match r
    case Allocate(_, _, _, _, _, _) => AllocateKeepsInv(s, config, r, sender, sampled, now);
    case Refresh(_, _, _) => RefreshKeepsInv(s, config, r, sender, now);
    case ChannelBind(_, _, _, _) => BindRequestKeepsInv(s, config, r, sender, now);
    case _ =>
  }

  /** Every reachable state is consistent. */
  lemma {:induction false} ReachableInv(run: Run, k: nat)
    requires IsRun(run) && k < |run.states|
    ensures Inv(run.states[k], run.config)
  {
    if k == 0 {
      assert EMPTY.allocations == map[];
    } else {
      ReachableInv(run, k - 1);
      assert IsStep(run, k - 1);
      StepKeepsInv(run.states[k - 1], run.config, run.moments[k - 1].event, run.moments[k - 1].now);
    }
  }

  /** Traffic has one way to go: a port and a peer belong to at most one channel, and a channel to one of each. */
  lemma RoutesAreUnique(run: Run, k: nat, c: Client, n: ChannelNumber, d: Client, m: ChannelNumber, port: Port,
                        peer: Peer)
    requires IsRun(run) && k < |run.states|
    requires Carries(run.states[k].channels, c, n, port, peer) && Carries(run.states[k].channels, d, m, port, peer)
    ensures c == d && n == m
  {
    ReachableInv(run, k);
    var s := run.states[k];
    assert Owns(s.allocations, c, port) && Owns(s.allocations, d, port);
    assert Reserved(s.channels, c, n, peer) && Reserved(s.channels, d, m, peer);
  }

  // ---------- The cooldown of section 12 of RFC 8656 ----------

  /** The server answers `m` by binding (or refreshing) `number` of `client` to `peer`. */
  ghost predicate Accepts(s: Core, m: Moment, client: Client, number: ChannelNumber, peer: Peer) {
    && m.event.Message? && m.event.sender == client
    && m.event.request.ChannelBind? && m.event.request.auth.Authentic?
    && m.event.request.number == number && m.event.request.peer == peer
    && BindOutcome(s, m.event.request, client) == ChannelBound
  }

  ghost predicate ReservedUntil(s: Core, c: Client, n: ChannelNumber, p: Peer, expiry: Instant) {
    Reserved(s.channels, c, n, p) && expiry <= s.channels[(c, n)].expiry
  }

  /** A reservation survives every step short of its cooldown, as long as its allocation does. */
  lemma ReservationStep(s: Core, config: Config, e: Event, now: Instant,
                        c: Client, n: ChannelNumber, p: Peer, expiry: Instant)
    requires Inv(s, config) && Enabled(s, config, e, now)
    requires ReservedUntil(s, c, n, p, expiry) && expiry <= now + CHANNEL_BINDING_DURATION
    requires c in Step(s, config, e, now).allocations
    requires now < expiry + CHANNEL_REBIND_TIMEOUT
    ensures ReservedUntil(Step(s, config, e, now), c, n, p, expiry)
  {
    match e
    case Message(r, sender, sampled) =>
    case AllocationFailed(port) =>
      if exists d :: Owns(s.allocations, d, port) {
        var d :| Owns(s.allocations, d, port);
        DeletePortOf(s, config, d);
      }
    case Timeout(order) =>
    case TakeCommand =>
  }

  lemma {:induction false} ReservationLasts(run: Run, i: nat, k: nat, c: Client, n: ChannelNumber, p: Peer)
    requires IsRun(run) && i < k <= |run.moments|
    requires Accepts(run.states[i], run.moments[i], c, n, p)
    requires forall l :: i < l <= k ==> c in run.states[l].allocations
    requires run.moments[k - 1].now < run.moments[i].now + COOLDOWN
    ensures ReservedUntil(run.states[k], c, n, p, run.moments[i].now + CHANNEL_BINDING_DURATION)
    decreases k
  {
    assert IsStep(run, k - 1);
    if k > i + 1 {
      ReservationLasts(run, i, k - 1, c, n, p);
      ReachableInv(run, k - 1);
      ReservationStep(run.states[k - 1], run.config, run.moments[k - 1].event, run.moments[k - 1].now,
                      c, n, p, run.moments[i].now + CHANNEL_BINDING_DURATION);
    }
  }

  /**
   While a client's allocation lives, a channel number is not bound to a different peer, nor a peer to
   a different number, until fifteen minutes after any (so also the last) bind or refresh of the old pair.
   */
  lemma RebindCooldown(run: Run, i: nat, j: nat, c: Client, n: ChannelNumber, p: Peer, m: ChannelNumber, q: Peer)
    requires IsRun(run) && i < j < |run.moments|
    requires Accepts(run.states[i], run.moments[i], c, n, p)
    requires Accepts(run.states[j], run.moments[j], c, m, q)
    requires (n == m) != (p == q)
    requires forall l :: i < l <= j ==> c in run.states[l].allocations
    ensures run.moments[i].now + COOLDOWN <= run.moments[j].now
  {
    if run.moments[j].now < run.moments[i].now + COOLDOWN {
      ReservationLasts(run, i, j, c, n, p);
    }
  }

  // ---------- Sockets: create and free commands alternate ----------

  datatype Phase = Closed | Open | Broken

  /**
   What a listener sees who replays `history` for one port and family: `Broken` as soon as a create
   does not follow a free (or the start), or a free does not follow a create.
   */
  function PhaseAfter(history: seq<Command>, port: Port, family: Family): Phase {
    if history == [] then Closed else
    var before := PhaseAfter(history[..|history| - 1], port, family);
    var last := history[|history| - 1];
    if last == CreateAllocation(port, family) then (if before == Closed then Open else Broken)
    else if last == FreeAllocation(port, family) then (if before == Open then Closed else Broken)
    else before
  }

  /** A live allocation listens on `port` for `family`. */
  ghost predicate Listening(allocations: map<Client, Allocation>, port: Port, family: Family) {
    exists c :: Owns(allocations, c, port) && allocations[c].HasFamily(family)
  }

  ghost predicate HistoryMatches(history: seq<Command>, allocations: map<Client, Allocation>) {
    forall port, family ::
      PhaseAfter(history, port, family) == if Listening(allocations, port, family) then Open else Closed
  }

  lemma PhaseSnoc(history: seq<Command>, command: Command, port: Port, family: Family)
    ensures var before := PhaseAfter(history, port, family);
            PhaseAfter(history + [command], port, family)
            == if command == CreateAllocation(port, family) then (if before == Closed then Open else Broken)
               else if command == FreeAllocation(port, family) then (if before == Open then Closed else Broken)
               else before
  {
    assert (history + [command])[..|history|] == history;
  }

  /** The commands of one allocation, first address then second, toggle exactly its own sockets. */
  lemma PhaseAfterAllocation(history: seq<Command>, a: Allocation, create: bool, port: Port, family: Family)
    requires a.second.Some? ==> a.first.family != a.second.value.family
    ensures var commands := if create then CreateCommands(a) else FreeCommands(a);
            var before := PhaseAfter(history, port, family);
            PhaseAfter(history + commands, port, family)
            == if port != a.port || !a.HasFamily(family) then before
               else if create then (if before == Closed then Open else Broken)
               else (if before == Open then Closed else Broken)
  {
    var commands := if create then CreateCommands(a) else FreeCommands(a);
    PhaseSnoc(history, commands[0], port, family);
    if a.second.Some? {
      PhaseSnoc(history + [commands[0]], commands[1], port, family);
      assert history + commands == history + [commands[0]] + [commands[1]];
    }
  }

  lemma HistoryGrant(history: seq<Command>, allocations: map<Client, Allocation>, config: Config,
                     sender: Client, a: Allocation, tail: Command)
    requires HistoryMatches(history, allocations) && AllocationsInv(allocations, config)
    requires sender !in allocations && !exists c :: Owns(allocations, c, a.port)
    requires WellFormed(a, config) && tail.SendMessage?
    ensures HistoryMatches(history + CreateCommands(a) + [tail], allocations[sender := a])
  {
    var after := allocations[sender := a];
    forall port, family
      ensures PhaseAfter(history + CreateCommands(a) + [tail], port, family)
              == if Listening(after, port, family) then Open else Closed
    {
      PhaseAfterAllocation(history, a, true, port, family);
      PhaseSnoc(history + CreateCommands(a), tail, port, family);
      assert Owns(after, sender, a.port);
      assert forall c :: c != sender ==> (Owns(after, c, port) <==> Owns(allocations, c, port));
    }
  }

  lemma HistoryDrop(history: seq<Command>, allocations: map<Client, Allocation>, config: Config, client: Client)
    requires HistoryMatches(history, allocations) && AllocationsInv(allocations, config) && client in allocations
    ensures HistoryMatches(history + FreeCommands(allocations[client]), allocations - {client})
  {
    var a := allocations[client];
    var after := allocations - {client};
    forall port, family
      ensures PhaseAfter(history + FreeCommands(a), port, family)
              == if Listening(after, port, family) then Open else Closed
    {
      PhaseAfterAllocation(history, a, false, port, family);
      assert Owns(allocations, client, a.port);
      assert forall c :: c != client ==> (Owns(after, c, port) <==> Owns(allocations, c, port));
    }
  }

  lemma FewerAllocations(allocations: map<Client, Allocation>, config: Config, gone: set<Client>)
    requires AllocationsInv(allocations, config)
    ensures AllocationsInv(allocations - gone, config)
  {
    SubsetSize((allocations - gone).Keys, allocations.Keys);
    assert forall c, p :: Owns(allocations - gone, c, p) ==> Owns(allocations, c, p);
  }

  lemma {:induction false} HistoryFreeAll(history: seq<Command>, allocations: map<Client, Allocation>, config: Config,
                                          order: seq<Client>)
    requires HistoryMatches(history, allocations) && AllocationsInv(allocations, config)
    requires Distinct(order) && forall c :: c in order ==> c in allocations
    ensures HistoryMatches(history + FreeAll(allocations, order), allocations - (set c | c in order))
    decreases |order|
  {
    if order == [] {
      assert history + [] == history;
      assert allocations - (set c | c in order) == allocations;
    } else {
      var front, last := order[..|order| - 1], order[|order| - 1];
      var gone := set c | c in front;
      HistoryFreeAll(history, allocations, config, front);
      FewerAllocations(allocations, config, gone);
      assert last !in gone;
      HistoryDrop(history + FreeAll(allocations, front), allocations - gone, config, last);
      FreeAllSnoc(history, allocations, order);
    }
  }

  lemma FreeAllSnoc(history: seq<Command>, allocations: map<Client, Allocation>, order: seq<Client>)
    requires order != [] && Distinct(order) && forall c :: c in order ==> c in allocations
    ensures var front, last := order[..|order| - 1], order[|order| - 1];
            && allocations - (set c | c in order) == allocations - (set c | c in front) - {last}
            && history + FreeAll(allocations, order)
               == history + FreeAll(allocations, front) + FreeCommands(allocations[last])
  {
    var front, last := order[..|order| - 1], order[|order| - 1];
    assert order == front + [last];
    assert (set c | c in order) == (set c | c in front) + {last};
  }

  lemma HistorySend(history: seq<Command>, allocations: map<Client, Allocation>, command: Command)
    requires HistoryMatches(history, allocations) && command.SendMessage?
    ensures HistoryMatches(history + [command], allocations)
  {
    forall port, family
      ensures PhaseAfter(history + [command], port, family) == PhaseAfter(history, port, family)
    {
      PhaseSnoc(history, command, port, family);
    }
  }

  lemma HistoryProlong(history: seq<Command>, allocations: map<Client, Allocation>, client: Client, expiresAt: Instant)
    requires HistoryMatches(history, allocations) && client in allocations
    ensures HistoryMatches(history, allocations[client := allocations[client].(expiresAt := expiresAt)])
  {
    var after := allocations[client := allocations[client].(expiresAt := expiresAt)];
    assert forall c, p :: Owns(after, c, p) <==> Owns(allocations, c, p);
    assert forall p, f :: Listening(after, p, f) <==> Listening(allocations, p, f);
  }

  /** All commands queued so far: those already taken, then those pending. */
  ghost function Taken(run: Run, k: nat): seq<Command>
    requires IsRun(run) && k < |run.states|
  {
    if k == 0 then []
    else if run.moments[k - 1].event.TakeCommand? && run.states[k - 1].commands != [] then
      Taken(run, k - 1) + [run.states[k - 1].commands[0]]
    else Taken(run, k - 1)
  }

  ghost function History(run: Run, k: nat): seq<Command>
    requires IsRun(run) && k < |run.states|
  {
    Taken(run, k) + run.states[k].commands
  }

  lemma IsMessage(tid: nat, a: Allocation, lifetime: int, sender: Client)
    ensures GrantMessage(tid, a, lifetime, sender).SendMessage?
  {
  }

  lemma HistoryAllocate(taken: seq<Command>, s: Core, config: Config, r: Request, sender: Client, sampled: Port,
                        now: Instant)
    requires config.Valid() && Inv(s, config) && Enabled(s, config, Message(r, sender, sampled), now)
    requires r.Allocate? && r.auth.Authentic? && Admit(s, config, r, sender).Success?
    requires HistoryMatches(taken + s.commands, s.allocations)
    ensures var after := DoAllocate(s, config, r, sender, now, sampled);
            HistoryMatches(taken + after.commands, after.allocations)
  {
    hide HistoryMatches, AllocationsInv, ChannelsInv, DeriveRelayAddresses, CreateCommands, GrantMessage;
    var h := taken + s.commands;
    var (first, second) := Admit(s, config, r, sender).value;
    var lifetime := EffectiveLifetime(r.lifetime);
    var a := Allocation(sampled, now + lifetime, first, second);
    DerivedAddressesWellFormed(config.address, r.requested, r.additional);
    IsMessage(r.tid, a, lifetime, sender);
    var tail := GrantMessage(r.tid, a, lifetime, sender);
    HistoryGrant(h, s.allocations, config, sender, a, tail);
    assert taken + DoAllocate(s, config, r, sender, now, sampled).commands == h + CreateCommands(a) + [tail];
  }

  lemma HistoryMessage(taken: seq<Command>, s: Core, config: Config, r: Request, sender: Client, sampled: Port,
                       now: Instant)
    requires config.Valid() && Inv(s, config) && Enabled(s, config, Message(r, sender, sampled), now)
    requires HistoryMatches(taken + s.commands, s.allocations)
    ensures var after := Step(s, config, Message(r, sender, sampled), now);
            HistoryMatches(taken + after.commands, after.allocations)
  {
    hide HistoryMatches, Inv;
    if r.Allocate? && r.auth.Authentic? && Admit(s, config, r, sender).Success? {
      HistoryAllocate(taken, s, config, r, sender, sampled, now);
    } else if r.Refresh? && r.auth.Authentic? && sender in s.allocations {
      HistoryRefresh(taken, s, config, r, sender, now);
    } else {
      OtherMessagesOnlyAnswer(s, config, r, sender, sampled, now);
      var after := Step(s, config, Message(r, sender, sampled), now);
      if after.commands != s.commands {
        var tail := after.commands[|s.commands|];
        HistorySend(taken + s.commands, s.allocations, tail);
        assert taken + after.commands == taken + s.commands + [tail];
      }
    }
  }

  lemma OtherMessagesOnlyAnswer(s: Core, config: Config, r: Request, sender: Client, sampled: Port, now: Instant)
    requires Enabled(s, config, Message(r, sender, sampled), now)
    requires r.Allocate? ==> r.auth.Rejected? || Admit(s, config, r, sender).Failure?
    requires r.Refresh? ==> r.auth.Rejected? || sender !in s.allocations
    ensures var after := Step(s, config, Message(r, sender, sampled), now);
            && after.allocations == s.allocations
            && (|| after.commands == s.commands
                || (|after.commands| == |s.commands| + 1
                    && after.commands == s.commands + [after.commands[|s.commands|]]
                    && after.commands[|s.commands|].SendMessage?))
  {
  }

  lemma HistoryRefresh(taken: seq<Command>, s: Core, config: Config, r: Request, sender: Client, now: Instant)
    requires Inv(s, config) && r.Refresh? && r.auth.Authentic? && sender in s.allocations
    requires HistoryMatches(taken + s.commands, s.allocations)
    ensures var after := DoRefresh(s, r, sender, now);
            HistoryMatches(taken + after.commands, after.allocations)
  {
    hide HistoryMatches, AllocationsInv, ChannelsInv, FreeCommands;
    var h := taken + s.commands;
    var after := DoRefresh(s, r, sender, now);
    var lifetime := EffectiveLifetime(r.lifetime);
    if lifetime == 0 {
      var freed := FreeCommands(s.allocations[sender]);
      HistoryDrop(h, s.allocations, config, sender);
      HistorySend(h + freed, s.allocations - {sender}, SendMessage(r.tid, Refreshed(0), sender));
      assert taken + after.commands == h + freed + [SendMessage(r.tid, Refreshed(0), sender)];
    } else {
      HistoryProlong(h, s.allocations, sender, now + lifetime);
      HistorySend(h, after.allocations, SendMessage(r.tid, Refreshed(lifetime), sender));
      assert taken + after.commands == h + [SendMessage(r.tid, Refreshed(lifetime), sender)];
    }
  }

  lemma HistoryTimeout(taken: seq<Command>, s: Core, config: Config, now: Instant, order: seq<Client>)
    requires AllocationsInv(s.allocations, config) && IsExpiryOrder(s.allocations, now, order)
    requires HistoryMatches(taken + s.commands, s.allocations)
    ensures var after := DoTimeout(s, now, order);
            HistoryMatches(taken + after.commands, after.allocations)
  {
    hide HistoryMatches, AllocationsInv, FreeAll;
    var after := DoTimeout(s, now, order);
    HistoryFreeAll(taken + s.commands, s.allocations, config, order);
    assert after.allocations == s.allocations - (set c | c in order);
    assert taken + after.commands == taken + s.commands + FreeAll(s.allocations, order);
  }

  lemma HistoryDelete(taken: seq<Command>, s: Core, config: Config, port: Port)
    requires Inv(s, config) && HistoryMatches(taken + s.commands, s.allocations)
    ensures HistoryMatches(taken + DeletePort(s, port).commands, DeletePort(s, port).allocations)
  {
    if exists c :: Owns(s.allocations, c, port) {
      var c :| Owns(s.allocations, c, port);
      DeletePortOf(s, config, c);
      HistoryDrop(taken + s.commands, s.allocations, config, c);
      assert taken + Drop(s, c).commands == taken + s.commands + FreeCommands(s.allocations[c]);
    }
  }

  lemma HistoryStep(taken: seq<Command>, s: Core, config: Config, e: Event, now: Instant)
    requires config.Valid() && Inv(s, config) && Enabled(s, config, e, now) && !e.TakeCommand?
    requires HistoryMatches(taken + s.commands, s.allocations)
    ensures HistoryMatches(taken + Step(s, config, e, now).commands, Step(s, config, e, now).allocations)
  {
    hide HistoryMatches, AllocationsInv, ChannelsInv, DoTimeout, DeletePort;
    match e
    case Message(r, sender, sampled) => HistoryMessage(taken, s, config, r, sender, sampled, now);
    case AllocationFailed(port) => HistoryDelete(taken, s, config, port);
    case Timeout(order) => HistoryTimeout(taken, s, config, now, order);
  }

  lemma TakingStep(s: Core, config: Config, now: Instant)
    ensures Step(s, config, TakeCommand, now) == if s.commands == [] then s else s.(commands := s.commands[1..])
  {
  }

  lemma NothingListens()
    ensures HistoryMatches([] + [], map[])
  {
  }

  /**
   At every point of every run the commands for each port and family strictly alternate between
   create and free, and the last one is a create exactly when a live allocation has that socket.
   */
  lemma {:induction false} CommandsAlternate(run: Run, k: nat)
    requires IsRun(run) && k < |run.states|
    ensures HistoryMatches(History(run, k), run.states[k].allocations)
  {
    hide HistoryMatches, Inv, Step, Enabled;
    if k == 0 {
      NothingListens();
    } else {
      CommandsAlternate(run, k - 1);
      ReachableInv(run, k - 1);
      assert IsStep(run, k - 1);
      var s, m := run.states[k - 1], run.moments[k - 1];
      if m.event.TakeCommand? {
        TakingStep(s, run.config, m.now);
        if s.commands != [] {
          assert Taken(run, k - 1) + [s.commands[0]] + s.commands[1..] == History(run, k - 1);
        }
      } else {
        HistoryStep(Taken(run, k - 1), s, run.config, m.event, m.now);
      }
    }
  }

  /** Whatever is relayed goes out on a socket that the commands have opened and not closed. */
  lemma RelayedOnOpenSockets(run: Run, k: nat, c: Client, n: ChannelNumber, port: Port, peer: Peer)
    requires IsRun(run) && k < |run.states|
    requires Carries(run.states[k].channels, c, n, port, peer)
    ensures PhaseAfter(History(run, k), port, peer.Family()) == Open
  {
    ReachableInv(run, k);
    CommandsAlternate(run, k);
    assert (c, n) in run.states[k].channels;
    assert Owns(run.states[k].allocations, c, port);
  }
}
