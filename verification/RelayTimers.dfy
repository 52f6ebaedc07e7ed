/** The relay's timers, its port capacity and its choice of relay addresses. */
module RelayTimers {
  import opened Common
  import opened RelayCore
  import opened RelayRuns

  /** Before the time `poll_timeout` names, looking at the clock changes nothing. */
  lemma NotBefore(s: Core, config: Config, r: Option<Instant>, t: Instant, order: seq<Client>)
    requires Inv(s, config) && IsPollTimeout(s, r) && (r.Some? ==> t < r.value)
    requires IsExpiryOrder(s.allocations, t, order)
    ensures DoTimeout(s, t, order) == s
  {
    HeadIn(order);
    assert forall c :: c !in order;
    var after := DoTimeout(s, t, order);
    assert after.allocations == s.allocations;
    assert after.channels == s.channels;
  }

  /** At that time, something changes. */
  lemma NotIdle(s: Core, r: Option<Instant>, order: seq<Client>)
    requires IsPollTimeout(s, r) && r.Some?
    requires IsExpiryOrder(s.allocations, r.value, order)
    ensures DoTimeout(s, r.value, order) != s
  {
    var after := DoTimeout(s, r.value, order);
    if c :| c in s.allocations && s.allocations[c].expiresAt == r.value {
      assert c !in after.allocations;
    } else {
      var k :| k in s.channels && s.channels[k].Deadline() == r.value;
      assert k !in after.channels || !after.channels[k].bound;
    }
  }

  /** Afterwards, the next time is none or strictly later. */
  lemma NoBusyLoop(s: Core, t: Instant, order: seq<Client>, next: Option<Instant>)
    requires IsExpiryOrder(s.allocations, t, order)
    requires IsPollTimeout(DoTimeout(s, t, order), next)
    ensures next.None? || t < next.value
  {
    var after := DoTimeout(s, t, order);
    if next.Some? {
      if c :| c in after.allocations && after.allocations[c].expiresAt == next.value {
        assert !s.allocations[c].IsExpired(t);
      } else {
        var k :| k in after.channels && after.channels[k].Deadline() == next.value;
        assert Survives(s, k, t) && after.channels[k] == Aged(s.channels[k], t);
      }
    }
  }

  // ---------- Capacity ----------

  /** The number of ports in the configured range, uncut. */
  function RangeSize(config: Config): nat {
    if config.lowest <= config.highest then config.highest - config.lowest + 1 else 0
  }

  ghost predicate Grants(s: Core, config: Config, e: Event) {
    && e.Message? && e.request.Allocate? && e.request.auth.Authentic?
    && Admit(s, config, e.request, e.sender).Success?
  }

  /**
   A relay can serve all its ports, and no more, exactly if the range has fewer than 65536 of them.
   With all 65536, the 16-bit count is zero and the relay never grants an allocation.
   */
  lemma CapacityExact(run: Run, k: nat)
    requires IsRun(run) && k < |run.moments|
    ensures |run.states[k].allocations| <= RangeSize(run.config)
    ensures RangeSize(run.config) < 0x1_0000 ==>
              (|run.states[k].allocations| == RangeSize(run.config)
               <==> |run.states[k].allocations| == run.config.MaxAvailablePorts())
    ensures RangeSize(run.config) == 0x1_0000 ==> !Grants(run.states[k], run.config, run.moments[k].event)
  {
    ReachableInv(run, k);
  }

  /** If every port of the range is taken, there are at least as many allocations as ports. */
  lemma FullRange(allocations: map<Client, Allocation>, config: Config)
    requires AllocationsInv(allocations, config)
    requires forall port :: config.InRange(port) ==> exists c :: Owns(allocations, c, port)
    ensures RangeSize(config) <= |allocations|
  {
    var ports: map<Client, int> := map c | c in allocations :: allocations[c].port;
    var used: set<int> := set c | c in allocations :: allocations[c].port;
    assert ports.Keys == allocations.Keys;
    forall c, d | c in ports && d in ports && ports[c] == ports[d]
      ensures c == d
    {
      assert Owns(allocations, c, ports[c]) && Owns(allocations, d, ports[c]);
    }
    InjectiveSize(ports, used);
    forall p: int | config.lowest <= p <= config.highest
      ensures p in used
    {
      assert config.InRange(p);
      var c :| Owns(allocations, c, p);
    }
    Pigeonhole(used, config.lowest, config.highest);
  }

  /** Whenever a request is granted there is a port left to give: the sampling loop can end. */
  lemma GrantedMeansFreePort(run: Run, k: nat)
    requires IsRun(run) && k < |run.moments|
    requires Grants(run.states[k], run.config, run.moments[k].event)
    ensures exists port :: IsFreePort(run.states[k], run.config, port)
  {
    ReachableInv(run, k);
    if forall port :: !IsFreePort(run.states[k], run.config, port) {
      forall port | run.config.InRange(port)
        ensures exists c :: Owns(run.states[k].allocations, c, port)
      {
        assert !IsFreePort(run.states[k], run.config, port);
      }
      FullRange(run.states[k].allocations, run.config);
    }
  }

  // ---------- Relay addresses ----------

  predicate Supports(stack: IpStack, family: Family) {
    match family
    case V4 => !stack.Ip6?
    case V6 => !stack.Ip4?
  }

  function AddressOf(stack: IpStack, family: Family): IpAddr
    requires Supports(stack, family)
  {
    if family == V4 then stack.ip4 else stack.ip6
  }

  /** The families a request asks for, IPv4 first. */
  function Wanted(requested: Option<Family>, additional: Option<Family>): seq<Family> {
    if additional.Some? then [V4, V6] else if requested.Some? then [requested.value] else [V4]
  }

  function Offer(stack: IpStack, wanted: seq<Family>): seq<IpAddr> {
    if wanted == [] then []
    else (if Supports(stack, wanted[0]) then [AddressOf(stack, wanted[0])] else []) + Offer(stack, wanted[1..])
  }

  /**
   Section 7.2 of RFC 8656 on REQUESTED-ADDRESS-FAMILY and ADDITIONAL-ADDRESS-FAMILY: which
   combinations are bad, which are unsupported, and that otherwise the client gets exactly the
   addresses it wants and the relay has, with IPv4 first.
   */
  lemma RelayAddresses(stack: IpStack, requested: Option<Family>, additional: Option<Family>)
    requires stack.Valid()
    ensures var r := DeriveRelayAddresses(stack, requested, additional);
            var wanted := Wanted(requested, additional);
            && (r == Failure(BadRequest) <==> additional == Some(V4) || (requested.Some? && additional.Some?))
            && (r == Failure(AddressFamilyNotSupported) <==> r != Failure(BadRequest) && Offer(stack, wanted) == [])
            && (r.Success? ==>
                  [r.value.0] + (if r.value.1.Some? then [r.value.1.value] else []) == Offer(stack, wanted))
  {
    var wanted := Wanted(requested, additional);
    if |wanted| == 2 {
      assert wanted[1..] == [V6];
      assert Offer(stack, [V6]) == if Supports(stack, V6) then [AddressOf(stack, V6)] else [];
    }
  }
}
