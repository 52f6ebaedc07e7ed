# Firezone relay, connlib and DNS-over-TCP: a verified model

A Dafny model of the sans-IO cores of Firezone, with proofs of what they promise over whole runs.
`dafny verify dfyconfig.toml` checks everything.

- **TURN relay** (`Relay*.dfy`). `RelayCore` specifies every operation on two primary tables.
  `RelayServer` is the server with its five maps, updated in place; every method computes the specified
  operation and keeps the three redundant maps exact. `RelayRuns` and `RelayTimers` prove safety over
  all runs: consistency, the rebind cooldown of RFC 8656, alternation of socket commands, exact timers,
  exact capacity.
- **TURN client** (`TurnClient*.dfy`, `TurnAllocation.dfy`, `Backoff.dfy`, `Channel*.dfy`). The
  specification of a client allocation, the object that updates its fields, the invariant of all
  reachable states, termination of the retry loop, the four-transmission bound, the candidate ledger,
  recovery from mismatches, and the round-robin use of channel numbers.
- **Client and relay together** (`TurnLink*.dfy`). Both ends joined by a network that answers within a
  second, with any number of other clients on the relay. The relay refuses a bind exactly if the client
  hands out a number while a bind of it to another peer is unanswered.
- **The full client and its relay** (`TurnJoint*.dfy`). The complete client of `TurnClient` against the complete
  relay, from the grant of the allocation on. Every such run is followed by one of `TurnLink`, so the theorems
  on refusals hold for it. `TurnJointWitness` builds runs of it in which a bind is refused and in which client and
  relay disagree on a cooldown (`TurnScenario` has the tables), `TurnLateWitness` one in which a collision passes.
- **NAT46 and NAT64** (`Ip.dfy`, `Icmp.dfy`, `Nat*.dfy`, `IpPacket.dfy`). In-place translation of a
  packet refines a function on packets; both round trips, with and without checksum updates, are
  characterised for every packet; any chain of translations stays inside the buffer.
- **DNS-over-TCP client** (`Dns*.dfy`). Conservation of queries for any behaviour of the sockets.
- **Peer indices** (`Lfsr*.dfy`, `PeerIndices.dfy`). The shift register behind peer indices runs through all
  2^24 - 1 values from every seed: steps are multiplications in a finite field, and the order of the
  generator is computed by squaring. So the assertion against too many peers fails on exactly that call.

Each class is proved against functions on values (`View`, `Core`), and what the system promises is
proved about those functions.

## What does not hold

- A bind can be refused with Bad Request although client, relay and network behave
  (`TurnJointWitness.RefusalHappens`): the client may ask again for a number whose cooldown is about to
  end and, before the answer arrives, give the same number to another peer. This is the only way
  (`TurnLinkTheorems.RefusalNeedsCollision`).
- A collision need not lead to a refusal (`TurnLateWitness.LateCollisionPasses`): if one of the two binds is
  repeated because of stale nonces until the relay has forgotten the other, both are accepted. If both are
  judged less than 899 s after the collision, one is refused (`TurnLinkTheorems.RefusalExactlyOnCollision`).
- The client can judge a confirmed channel rebindable while the relay's cooldown lasts
  (`TurnJointWitness.RebindableTooEarly`), exactly if the relay has accepted a bind of it whose answer is
  under way (`TurnLinkExpiry.RebindableMeansCooledDown`).
- A relay configured with all 65536 ports never grants an allocation, because the count is cast to
  16 bits (`RelayTimers.CapacityExact`).
- An ICMPv6 "packet too big" with an MTU below 20 is translated to an MTU near 65535 in builds without
  overflow checks (`Icmp.MtuLoweredExactly`).
- A DNS query is lost if another one with its ID is sent to the same server before the answer
  (`DnsQueries.QueryIsLost`, `DnsQueries.ReplacedExactly`).
- The plateau for a missing MTU is chosen by the length of the packet that carries the ICMP message,
  where the comment beside it speaks of the packet that was returned; the comment at
  `allocation.rs:1368` names another last channel than the code. The model follows the code.
- The branch that refreshes an existing allocation when a socket is nominated
  (`allocation.rs:526-531`) is never taken (`TurnClientRuns.NominatedWithoutAllocation`).

## How the model reads the source

- Time is an integer number of nanoseconds and an input of every call; runs of the relay and of the
  link assume that it never decreases.
- Authentication and message integrity are inputs. Transaction ids are drawn from a counter and never
  repeat. `origin`, `taken`, `polled`, `issued` and `ledger` are the model's bookkeeping.
- Random draws are sequences. That a sampling loop ends needs every port to be drawn at some point.
- Iteration over hash maps is in any order: the order, or the set chosen from, is existential.
- TCP sockets are oracles: how many queries they take, which send fails, what is received, whether the
  socket is closed and can be connected. Error texts are not modelled.
- The header parser behind the NAT takes an IPv6 payload length of zero to mean the rest of the buffer.
- The link delivers in any order, loses nothing and answers every transmission within the one-second request
  timeout, which starts again when a stale nonce makes the client repeat a request. Both ends look at the
  clock when their `poll_timeout` says so, and the allocation lives.
- A success with another method than the request it answers is handled as a build without debug assertions
  handles it.
- The verdict of the header parser on extension headers, of the transport parsers, and the transport
  checksums are parameters.

## Model

| member | source | states |
|---|---|---|
| RelayRuns.ReachableInv | rust/relay/src/server.rs:415-452 | in every state of every run: ports are in range, distinct and within capacity; every channel names the live allocation of its client and a family that allocation has; no client has two channels to one peer |
| RelayRuns.RoutesAreUnique | rust/relay/src/server.rs:363-386 | in every reachable state a port and a peer belong to at most one channel of one client, so traffic has one way to go |
| RelayRuns.RebindCooldown | rust/relay/src/server.rs:674-721 | while an allocation lives, a number is not bound to another peer, nor a peer to another number, until 900 s after every accepted bind or refresh of the old pair (section 12 of RFC 8656) |
| RelayRuns.ReservationLasts | rust/relay/src/server.rs:1157-1168 | an accepted bind keeps its pair reserved through every later event short of 900 s, as long as the allocation lives |
| RelayRuns.CommandsAlternate | rust/relay/src/server.rs:1045-1054 | over every run the create and free commands for each port and family strictly alternate, and end with create exactly if a live allocation has that socket |
| RelayRuns.RelayedOnOpenSockets | rust/relay/src/server.rs:767-801 | whatever is relayed goes out on a port and family that the commands have opened and not closed |
| RelayRuns.DerivedAddressesWellFormed | rust/relay/src/server.rs:1206-1265 | an allocation with two addresses has IPv4 first, which is what lets the server look for IPv4 in the first only |
| RelayTimers.NotBefore | rust/relay/src/server.rs:400-413 | before the time that poll_timeout names, handle_timeout changes nothing |
| RelayTimers.NotIdle | rust/relay/src/server.rs:400-452 | at exactly that time it changes the state |
| RelayTimers.NoBusyLoop | rust/relay/src/server.rs:415-452 | after handle_timeout(t) the next time is none or strictly later than t |
| RelayTimers.CapacityExact | rust/relay/src/server.rs:488-495 | the capacity check means "all ports are taken" exactly for ranges of fewer than 65536 ports; with all 65536 the 16-bit count is 0 and no allocation is ever granted |
| RelayTimers.GrantedMeansFreePort | rust/relay/src/server.rs:863-889 | whenever an ALLOCATE is granted a free port exists, so the sampling loop can end |
| RelayTimers.FullRange | rust/relay/src/server.rs:863-893 | pigeonhole: if every port of the range is taken there are at least as many allocations as ports |
| RelayTimers.RelayAddresses | rust/relay/src/server.rs:1206-1265 | section 7.2 of RFC 8656 for every combination of requested and additional family: when it is a bad request, when unsupported, and otherwise exactly the wanted and available addresses, IPv4 first |
| RelayInvariant.GrantKeepsInv | rust/relay/src/server.rs:547-579 | a granted allocation on a free port keeps the tables consistent |
| RelayInvariant.DropKeepsInv | rust/relay/src/server.rs:1001-1057 | dropping an allocation with all its channels keeps the tables consistent |
| RelayInvariant.BindKeepsInv | rust/relay/src/server.rs:674-721 | binding a pair that conflicts with nothing keeps the tables consistent |
| RelayServer.Server.constructor | rust/relay/src/server.rs:159-203 | the empty server has exact indexes |
| RelayServer.Server.HandleChannelData | rust/relay/src/server.rs:767-801 | answers (port, peer) if and only if the channel carries traffic between them |
| RelayServer.Server.HandlePeerTraffic | rust/relay/src/server.rs:363-386 | the hot path answers (client, number) if and only if that channel carries traffic between port and peer: with HandleChannelData, each direction goes exactly where the other comes from |
| RelayServer.Server.NumActiveChannels | rust/relay/src/server.rs:240-245 | counting bound channels gives the size of the hot-path map |
| RelayServer.HotPathSize | rust/relay/src/server.rs:240-245 | an exact hot-path map has one entry per bound channel |
| RelayServer.CountBound | rust/relay/src/server.rs:240-245 | the loop counts the bound channels |
| RelayServer.Server.HandleBindingRequest | rust/relay/src/server.rs:455-465 | answers with the sender's address and changes nothing else |
| RelayServer.Server.HandleAllocate | rust/relay/src/server.rs:471-583 | computes DoAllocate (every refusal in its order, the granted port unused) and keeps all five maps exact |
| RelayServer.Server.SamplePort | rust/relay/src/server.rs:863-889 | ends with an unused port of the range, if the generator draws every port |
| RelayServer.FreePortExists | rust/relay/src/server.rs:863-893 | below capacity a port of the range is unused |
| RelayServer.Server.Grant | rust/relay/src/server.rs:547-579 | books the allocation in both maps and queues the creates before the response |
| RelayServer.Server.HandleRefresh | rust/relay/src/server.rs:589-635 | computes DoRefresh, deleting at lifetime zero, and keeps all five maps exact |
| RelayServer.Server.HandleChannelBind | rust/relay/src/server.rs:641-740 | computes DoChannelBind: Bad Request if and only if the number is reserved for another peer or the peer for another number, found through the index; keeps all five maps exact |
| RelayServer.ConflictsThroughIndex | rust/relay/src/server.rs:674-699 | the index and table look-ups find a conflict exactly when there is one |
| RelayServer.Server.RefreshChannel | rust/relay/src/server.rs:703-721 | binds the channel again and puts it back on the hot path |
| RelayServer.Server.CreateChannelBinding | rust/relay/src/server.rs:895-927 | the three maps gain the channel; the hot-path slot was vacant |
| RelayServer.HotPathVacant | rust/relay/src/server.rs:922-926 | no bound channel occupies the hot-path slot of a pair that is free |
| RelayServer.Server.HandleCreatePermission | rust/relay/src/server.rs:749-764 | computes DoCreatePermission |
| RelayServer.Server.DeleteAllocation | rust/relay/src/server.rs:1001-1057 | computes DeletePort; no internal-state assertion can fail |
| RelayServer.Server.RemoveChannelsOf | rust/relay/src/server.rs:1013-1042 | removes exactly the channels of the client and keeps both indexes exact |
| RelayServer.Server.RemoveChannel | rust/relay/src/server.rs:1022-1037 | removes one channel from the table and from both indexes |
| RelayServer.Server.PollTimeout | rust/relay/src/server.rs:400-413 | the earliest deadline of all allocations and channels, none if there are none |
| RelayServer.EarliestDeadline | rust/relay/src/server.rs:400-413 | the loops find the earliest deadline |
| RelayServer.Server.HandleTimeout | rust/relay/src/server.rs:415-452 | the three loops compute DoTimeout for some order of deletion and keep all five maps exact |
| RelayServer.TimeoutByPhases | rust/relay/src/server.rs:415-452 | the three phases in their order amount to one simultaneous ageing of all tables |
| RelayServer.Server.DeleteExpiredAllocations | rust/relay/src/server.rs:416-424 | deletes each expired allocation once and no other |
| RelayServer.Server.UnbindExpiredChannels | rust/relay/src/server.rs:426-441 | takes exactly the expired channels off the hot path |
| RelayServer.Server.Unbind | rust/relay/src/server.rs:433-440 | the channel stays reserved and leaves the hot path |
| RelayServer.Server.DeleteStaleChannels | rust/relay/src/server.rs:443-451 | forgets exactly the channels past their cooldown |
| RelayServer.Server.DeleteChannelBinding | rust/relay/src/server.rs:1059-1077 | leaves the hot path exact although it does not touch it, because the channel is unbound |
| RelayServer.Server.NextCommand | rust/relay/src/server.rs:395-397 | hands out the commands first in, first out |
| ChannelBindings.NextIsFirstAvailable | rust/connlib/snownet/src/allocation.rs:1417-1431 | the number handed out is the first available one from the cursor on, going round; none only if all 4096 are held and none may be rebound |
| ChannelBindings.ExhaustedExactly | rust/connlib/snownet/src/allocation.rs:1390-1414 | a hand-out fails if and only if all 4096 numbers are held, none may be rebound and the peer has no channel to reuse |
| ChannelBindings.LowestIsLowest | rust/connlib/snownet/src/allocation.rs:1445-1457 | looking up a peer finds its lowest matching number |
| ChannelBindings.LowestWhere | rust/connlib/snownet/src/allocation.rs:1445-1457 | the loop computes that number |
| ChannelBindings.ChannelTable.NextChannelNumber | rust/connlib/snownet/src/allocation.rs:1417-1431 | the wrapping loop computes NextNumber |
| ChannelBindings.ChannelTable.ConnectedChannelToPeer | rust/connlib/snownet/src/allocation.rs:1445-1450 | computes ConnectedChannel |
| ChannelBindings.ChannelTable.NewChannelToPeer | rust/connlib/snownet/src/allocation.rs:1390-1414 | computes NewChannel: reuse before hand-out, cursor behind the number handed out |
| ChannelBindings.ChannelTable.TryDecode | rust/connlib/snownet/src/allocation.rs:1371-1388 | yields the peer of a bound channel and records the activity |
| ChannelRuns.NumbersInRange | rust/connlib/snownet/src/allocation.rs:1365-1369 | over every run all numbers stay in 0x4000..=0x4FFF |
| ChannelRuns.RoundRobin | rust/connlib/snownet/src/allocation.rs:1390-1431 | between two fresh hand-outs of one number every other number was handed out or was unavailable when the cursor passed it |
| TurnLinkTheorems.RefusalNeedsCollision | rust/relay/src/server.rs:674-721 | on every run of client and relay over a link that answers each transmission within a second, the relay refuses a bind with Bad Request only after the client handed out a number while a bind of it to another peer was unanswered |
| TurnLinkTheorems.RefusalExactlyOnCollision | rust/connlib/snownet/src/allocation.rs:1390-1431 | once the two binds of such a hand-out are judged, one was refused if and only if there was one, unless stale nonces kept one of the two from being judged for 899 s or more |
| TurnLinkExpiry.RebindableMeansCooledDown | rust/connlib/snownet/src/allocation.rs:1503-1551 | at every point of every linked run, collisions or not, a confirmed channel the client judges rebindable has cooled down at the relay if and only if the relay has not accepted a bind of it whose answer is still under way |
| TurnLinkExpiry.AlwaysKnown | rust/connlib/snownet/src/allocation.rs:1459-1475 | on every linked run the relay keeps a confirmed channel no longer than the client believes, unless it has accepted a bind whose answer is under way, and keeps what it accepted for ten minutes from the request |
| TurnJointWitness.RefusalHappens | rust/connlib/snownet/src/allocation.rs:1390-1431 | a run of the full client that ends in a refusal, and a linked one: all 4096 numbers bound, keep-alives and refreshes every 25 s, the first number asked for again half a second before its cooldown ends and handed to another peer when it ends |
| TurnJointWitness.RebindableTooEarly | rust/connlib/snownet/src/allocation.rs:1503-1551 | a run of the full client in which a confirmed channel is rebindable while the relay still keeps it |
| TurnLateWitness.LateCollisionPasses | rust/connlib/snownet/src/allocation.rs:360-383 | a run with a collision and no refusal: stale nonces make the client repeat one of the two binds for fifteen minutes |
| TurnLinkTheorems.AlwaysReached | rust/connlib/snownet/src/allocation.rs:1390-1431 | the invariant of all linked runs: tables, requests, answers and data agree until a collision |
| TurnLinkTheorems.CollisionsStayDoomed | rust/relay/src/server.rs:674-721 | after a collision one of the two binds is still to be refused, or was |
| TurnJointTheorems.Followed | rust/connlib/snownet/src/allocation.rs:275-817 | every run of the full client and the full relay, from the grant of the allocation on, is followed by a run of the linked model: binds, refreshes, keep-alives, data, and answers to every kind of request |
| TurnJointTheorems.RefusalNeedsCollision | rust/relay/src/server.rs:674-721 | the relay refuses a bind of the full client only after a collision |
| TurnJointTheorems.RefusalExactlyOnCollision | rust/connlib/snownet/src/allocation.rs:775-817 | once the two colliding binds of the full client are judged, one was refused if and only if there was a collision, under the same bound on repeats |
| TurnJointTheorems.RebindableMeansCooledDown | rust/connlib/snownet/src/allocation.rs:1503-1551 | at every point of every joint run, what the full client judges rebindable has cooled down at the relay if and only if no accepted bind of it is still unanswered |
| TurnJointTheorems.StepFollowed | rust/connlib/snownet/src/allocation.rs:275-817 | one step of the joint world is one or more actions of the linked one |
| TurnJointTheorems.AnswerFollowed | rust/connlib/snownet/src/allocation.rs:343-619 | an answer to a bind, a refresh or a binding request has the same effect on both clients |
| TurnJointTheorems.InitFollowed | rust/connlib/snownet/src/allocation.rs:540-580 | when the grant arrives the waiting peers are bound, without collision, in both models |
| TurnJointFollows.TickFollowed | rust/connlib/snownet/src/allocation.rs:655-739 | handle_timeout is a sequence of linked actions: keep-alive, refresh, and one bind per channel that is due and not asked for; there is never anything to retry |
| TurnJointFollows.NoPicks | rust/connlib/snownet/src/allocation.rs:675-710 | because answers are in time the retry loop finds nothing |
| TurnJointFollows.BindFollowed | rust/connlib/snownet/src/allocation.rs:775-817 | bind_channel is an action of the linked client, or nothing |
| TurnJointFollows.ToRefreshMatches | rust/connlib/snownet/src/allocation.rs:1433-1443 | both clients refresh the same channels |
| TurnLinkSafety.StepKeepsCalm | rust/connlib/snownet/src/allocation.rs:1503-1551 | every action without collision keeps client and relay in agreement on numbers, peers and expiry |
| TurnLinkSafety.NothingConflicts | rust/relay/src/server.rs:674-699 | without collision a delivered bind conflicts with nothing at the relay |
| TurnLinkSafety.BoundOutcome | rust/relay/src/server.rs:641-740 | without collision an authentic bind is accepted |
| TurnLinkTheorems.CollisionIsDoomed | rust/connlib/snownet/src/allocation.rs:1390-1414 | a collision leaves two binds of which the relay can accept only one |
| TurnClientRuns.ReachableInv | rust/connlib/snownet/src/allocation.rs:540-580 | in every reachable state: a relay candidate implies a lifetime, a lifetime implies a socket and credentials, without these only BINDING requests are in flight, and every channel leads to a family that has a relay socket |
| TurnClientRuns.ReachableGood | rust/connlib/snownet/src/allocation.rs:275-619 | the same together with the count of transmissions of every request |
| TurnClientRuns.AtMostFourTransmissions | rust/connlib/snownet/src/allocation.rs:675-710 | a request is transmitted at most 4 times, and while in flight exactly once plus once per trigger of its backoff |
| TurnClientRuns.DecapsulateNeverDrops | rust/connlib/snownet/src/allocation.rs:627-652 | channel data from the relay on a bound channel is never dropped for want of a relay socket of the peer's family |
| TurnClientRuns.CandidateLedger | rust/connlib/snownet/src/allocation.rs:1188-1208 | over every run, for every candidate, the New events minus the Invalid events equal the number of the four slots that hold it |
| TurnClientRuns.NominatedWithoutAllocation | rust/connlib/snownet/src/allocation.rs:521-538 | in a reachable state a socket is only nominated without an allocation, so always with an ALLOCATE |
| TurnClientTimers.AfterTimeout | rust/connlib/snownet/src/allocation.rs:749-772 | after handle_timeout(now) in any reachable state, poll_timeout is none or strictly later and no held allocation is past its lifetime |
| TurnClientInvariant.InputKeepsGood | rust/connlib/snownet/src/allocation.rs:275-619 | every answer, of whatever kind, keeps the invariant if a success that brings a lifetime finds a socket and credentials |
| TurnClientInvariant.FoundedExactly | rust/connlib/snownet/src/allocation.rs:482-491 | that condition is exact: without it the client would hold a lifetime without a socket |
| TurnClientInvariant.SameMethodIsFounded | rust/connlib/snownet/src/allocation.rs:487-491 | it holds whenever the response has the method of the request, as the debug assertion demands |
| TurnClientInvariant.TimeoutKeepsGood | rust/connlib/snownet/src/allocation.rs:655-739 | so does every look at the clock |
| TurnClientInvariant.RetryKeepsGood | rust/connlib/snownet/src/allocation.rs:675-710 | one turn of the retry loop keeps it, also when a request is given up |
| TurnClientInvariant.BindChannelKeepsGood | rust/connlib/snownet/src/allocation.rs:775-817 | so does binding a channel |
| TurnClientInvariant.RefreshKeepsGood | rust/connlib/snownet/src/allocation.rs:255-272 | so does a refresh |
| TurnClientRecovery.MismatchResynchronises | rust/connlib/snownet/src/allocation.rs:385-433 | after an allocation mismatch the client holds nothing and has exactly one request in flight, a deletion or an ALLOCATE by the method answered; the peer of a refused bind is buffered |
| TurnClientRecovery.DeletionIsFollowedUp | rust/connlib/snownet/src/allocation.rs:587-596 | a confirmed deletion is followed by an ALLOCATE |
| TurnClientRecovery.GrantBindsBuffered | rust/connlib/snownet/src/allocation.rs:540-580 | when an allocation is granted every buffered peer of a granted family has a channel, is being bound, or finds all numbers taken |
| TurnClientRecovery.BufferedTakenCareOf | rust/connlib/snownet/src/allocation.rs:573-579 | the draining loop forgets no peer, also if one is buffered twice |
| TurnClientRecovery.NewChannelKeeps | rust/connlib/snownet/src/allocation.rs:1390-1431 | handing out a number never takes a connected channel away |
| TurnAllocation.RetryDescends | rust/connlib/snownet/src/allocation.rs:675-710 | each retry lowers the number of requests at its backoff level and raises none below: the loop ends for every set of requests and every jump of the clock |
| TurnAllocation.Allocation.constructor | rust/connlib/snownet/src/allocation.rs:208-243 | asks every server address for a binding |
| TurnAllocation.Allocation.HandleInput | rust/connlib/snownet/src/allocation.rs:275-342 | computes HandleInput: foreign, unknown and unsigned messages are ignored |
| TurnAllocation.Allocation.HandleSuccessReply | rust/connlib/snownet/src/allocation.rs:482-619 | computes HandleSuccess for every method |
| TurnAllocation.Allocation.HandleAllocated | rust/connlib/snownet/src/allocation.rs:540-580 | computes Allocated: lifetime, both relay slots, then the buffered binds |
| TurnAllocation.Allocation.DrainBuffered | rust/connlib/snownet/src/allocation.rs:573-579 | binds the buffered peers, oldest first |
| TurnAllocation.Allocation.HandleTimeout | rust/connlib/snownet/src/allocation.rs:655-739 | computes HandleTimeout for the order in which the loop found its requests |
| TurnAllocation.Allocation.RetryAll | rust/connlib/snownet/src/allocation.rs:675-710 | the loop ends, with nothing left that is due |
| TurnAllocation.Allocation.StepBackoffs | rust/connlib/snownet/src/allocation.rs:712-714 | changes nothing, because no backoff is due after the retries |
| TurnAllocation.Allocation.RefreshDueChannels | rust/connlib/snownet/src/allocation.rs:723-736 | asks once for every channel that is due |
| TurnAllocation.Allocation.ChannelsToRefresh | rust/connlib/snownet/src/allocation.rs:1433-1443 | finds exactly those channels, ascending |
| TurnAllocation.Allocation.PollTimeout | rust/connlib/snownet/src/allocation.rs:749-772 | the earliest of refresh, keep-alive and retries |
| TurnAllocation.Allocation.BindChannel | rust/connlib/snownet/src/allocation.rs:775-817 | computes BindChannel: ignored, buffered, or asked for |
| TurnAllocation.Allocation.EncodeChannelDataHeader | rust/connlib/snownet/src/allocation.rs:819-846 | yields the active socket and the number of the connected channel exactly if there are both, and otherwise makes the client bind one |
| TurnAllocation.Allocation.DecapsulateData | rust/connlib/snownet/src/allocation.rs:627-652 | computes Decapsulate and records the activity |
| TurnAllocation.Allocation.RefreshAllocation | rust/connlib/snownet/src/allocation.rs:255-272 | computes RefreshAllocation |
| TurnAllocation.Allocation.IsSuspended | rust/connlib/snownet/src/allocation.rs:1010-1017 | nothing held, nothing in flight, nothing due |
| TurnAllocation.Allocation.PollEvent | rust/connlib/snownet/src/allocation.rs:741-743 | first in, first out |
| TurnAllocation.Allocation.PollTransmit | rust/connlib/snownet/src/allocation.rs:745-747 | first in, first out, and keeps account of what was picked up |
| TurnAllocation.UpdatedCandidate | rust/connlib/snownet/src/allocation.rs:1188-1208 | events tell of a change exactly if there is one; an offered candidate ends up in the slot |
| Backoff.StepClimbs | rust/connlib/snownet/src/backoff.rs:14-33 | a due backoff has expired or moves up one of four levels; the fourth trigger is past the end |
| Backoff.ExponentialBackoff.constructor | rust/connlib/snownet/src/backoff.rs:44-50 | starts at level zero |
| Backoff.ExponentialBackoff.HandleTimeout | rust/connlib/snownet/src/backoff.rs:14-25 | computes Stepped: the intervals are exactly 1, 1.5, 2.25 and 3.375 s |
| Nat.TranslateInPlace46 | rust/ip-packet/src/nat46.rs:19-158 | for every buffer and every IPv4 header length the overlapping writes leave exactly Nat46 of the packet behind the returned offset, and every other byte as it was; on failure nothing is written |
| Nat.TranslateInPlace64 | rust/ip-packet/src/nat64.rs:14-190 | the writes leave exactly 20 zeros and Nat64 of the packet, and every other byte as it was; on failure nothing is written |
| Nat.WriteAt | rust/ip-packet/src/nat46.rs:147-155 | overwrites one stretch of the buffer and nothing else |
| Nat.TwoWrites | rust/ip-packet/src/nat46.rs:147-155 | the header written last does not touch the ICMP header written first |
| Nat.ThreeWrites | rust/ip-packet/src/nat64.rs:166-187 | neither do the zeros and the shorter IPv4 header |
| NatRoundTrips.Translated46 | rust/ip-packet/src/nat46.rs:58-123 | the result parses as IPv6 with exactly the translated header and payload |
| NatRoundTrips.Translated64 | rust/ip-packet/src/nat64.rs:23-143 | the result parses as IPv4 with exactly the translated header, a 20-byte one, and payload |
| NatRoundTrips.Trip6Exactly | rust/ip-packet/src/proptests.rs:197-219 | 6 to 4 to 6 with the original addresses is the identity up to the ICMPv6 checksum if and only if the traffic class is below 64, the flow label zero, the next header neither ICMPv4 nor an extension that is dropped or unreadable, and an ICMPv6 message survives and is canonical |
| NatRoundTrips.TripIs | rust/ip-packet/src/proptests.rs:221-248 | the outcome of 4 to 6 to 4 for every packet: which error, or exactly the header without options, ECN, identification and fragmentation, followed by the payload |
| NatRoundTrips.TripIsProjection | rust/ip-packet/src/proptests.rs:221-248 | whatever comes back from 4 to 6 to 4 is not changed by another trip, except exactly for ICMPv6 bytes behind an IPv4 header whose length leaves no payload, or ICMPv6 inside IPv4 with an MTU of at most 20 |
| NatRoundTrips.PayloadTrip6 | rust/ip-packet/src/nat64.rs:145-169 | the payload comes back if and only if it is not ICMPv6 or a surviving, canonical message |
| NatChecksums.LastUpdateCounts | rust/ip-packet/src/lib.rs:482-491 | updating the checksums after the first translation leaves no trace after the second one and its update, for any checksum functions |
| NatChecksums.UpdatedTrip6Exactly | rust/ip-packet/src/proptests.rs:197-219 | with the checksum updates, a packet whose own checksum is right comes back byte for byte, if and only if it meets the conditions of Trip6Exactly |
| NatChecksums.UpdatedTripIs | rust/ip-packet/src/proptests.rs:221-248 | with the checksum updates, 4 to 6 to 4 gives the same error or exactly the header that is left of the original followed by the payload with its checksum computed anew |
| NatChecksums.SealedAlike | rust/ip-packet/src/lib.rs:502-540 | checksums computed over payloads that differ in the checksum only are the same |
| NatChecksums.Updated4 | rust/ip-packet/src/lib.rs:493-500 | the header a translation writes has its checksum already |
| Icmp.SurvivesExactly | rust/ip-packet/src/nat64.rs:192-334 | an ICMPv6 header is unchanged by the way through ICMPv4 if and only if it is an echo, a time exceeded, an unreachable with code 0, 1 or 4, an MTU above 20 that fits 16 bits, or the unrecognised-next-header problem at byte 6 |
| Icmp.TripIsStable | rust/ip-packet/src/nat46.rs:160-296 | what an ICMPv4 header has become on the way through ICMPv6 and back, it stays |
| Icmp.PlateauMtu | rust/ip-packet/src/nat46.rs:252-262 | a missing next-hop MTU becomes the greatest plateau value below the total length; there is none exactly up to 68 bytes |
| Icmp.UnreachableClasses46 | rust/ip-packet/src/nat46.rs:214-296 | which codes of destination unreachable become which message, both ways, and when there is none (section 4.2 of RFC 6145) |
| Icmp.UnreachableClasses64 | rust/ip-packet/src/nat64.rs:299-334 | the same for ICMPv6 (section 5.2 of RFC 6145) |
| Icmp.MtuLoweredExactly | rust/ip-packet/src/nat64.rs:280-297 | the MTU is lowered by 20 if and only if it is at least 20; below, it wraps around |
| Icmp.ReadWrite4 | rust/ip-packet/src/nat64.rs:166-168 | an ICMPv4 header that is written is read back |
| Icmp.ReadWrite6 | rust/ip-packet/src/nat46.rs:147-149 | an ICMPv6 header that is written is read back |
| Ip.ParseEncode4 | rust/ip-packet/src/nat64.rs:177-187 | an IPv4 header that is written is read back, whatever follows it |
| Ip.ParseEncode6 | rust/ip-packet/src/nat46.rs:152-155 | so is an IPv6 header |
| Ip.EncodeParse6 | rust/ip-packet/src/nat46.rs:58-123 | an IPv6 header that is read and written gives the same 40 bytes |
| IpPackets.IpPacket.Read | rust/ip-packet/src/lib.rs:351-359 | accepts exactly the packets of at most 1280 bytes that parse as their version nibble says, and names the error otherwise |
| IpPackets.IpPacket.ConsumeToIpv6 | rust/ip-packet/src/lib.rs:368-373 | conserves start + len, writes nothing behind the packet, leaves Nat46 of it or, on failure, the packet as it was |
| IpPackets.IpPacket.TranslateToIpv6 | rust/ip-packet/src/lib.rs:217-247 | an IPv4 packet always has 20 bytes in front of it, in every chain of translations: the subtraction never fails, the length is never negative and the buffer is never left |
| IpPackets.IpPacket.ConsumeToIpv4 | rust/ip-packet/src/lib.rs:299-307 | the same for Nat64, after which there are 20 bytes in front again |
| DnsQueries.ServedConserves | rust/dns-over-tcp/src/client.rs:205-256 | whatever the socket does in a call, every outstanding query stays outstanding, is reported once or was replaced; nothing is replaced while IDs are unique; a response goes to the query with its ID |
| DnsQueries.SendsConserve | rust/dns-over-tcp/src/client.rs:332-366 | sending conserves queries, also when it fails halfway |
| DnsQueries.QueryIsLost | rust/dns-over-tcp/src/client.rs:339-365 | of any two queries with one ID sent one after the other, the first is lost |
| DnsQueries.ReplacedExactly | rust/dns-over-tcp/src/client.rs:339-365 | a query is lost if and only if one of the queries sent has the ID of another one sent before or in the same call |
| DnsQueries.ReceptionConserves | rust/dns-over-tcp/src/client.rs:368-401 | so does receiving: one query answered, or all failed |
| DnsClient.NothingLost | rust/dns-over-tcp/src/client.rs:25-26 | while IDs were unique, each query was accepted as often as it is pending, sent or reported |
| DnsSockets.FailAllQueries | rust/dns-over-tcp/src/client.rs:403-414 | reports every pending and every sent query of the server once, as failed |
| DnsSockets.SendPendingQueries | rust/dns-over-tcp/src/client.rs:332-366 | the loop computes AfterSends |
| DnsSockets.RecvResponses | rust/dns-over-tcp/src/client.rs:368-401 | computes AfterReception and reports the response with its query |
| DnsSockets.ServeSocket | rust/dns-over-tcp/src/client.rs:205-256 | sends, receives and reconnects as Served says |
| DnsClient.DnsTcpClient.constructor | rust/dns-over-tcp/src/client.rs:59-81 | starts with an empty, balanced ledger |
| DnsClient.DnsTcpClient.SendQuery | rust/dns-over-tcp/src/client.rs:116-129 | accepts exactly queries, not responses, for known resolvers, at the end of the line |
| DnsClient.DnsTcpClient.PollQueryResult | rust/dns-over-tcp/src/client.rs:182-184 | first in, first out |
| DnsClient.DnsTcpClient.HandleTimeout | rust/dns-over-tcp/src/client.rs:189-257 | every socket is served once, in the order of the addresses, and what is reported for its server is what came of it |
| DnsClient.DnsTcpClient.Serve | rust/dns-over-tcp/src/client.rs:205-256 | serves one socket and leaves all other lines alone |
| DnsClient.DnsTcpClient.SetResolvers | rust/dns-over-tcp/src/client.rs:91-111 | every outstanding query is reported as failed, also if the port range is then too small, which it is exactly for more resolvers than ports |
| DnsClient.DnsTcpClient.AbortAllPendingAndSentQueries | rust/dns-over-tcp/src/client.rs:267-283 | drains both maps into failures, each query once |
| DnsClient.DnsTcpClient.SampleUniquePorts | rust/dns-over-tcp/src/client.rs:313-329 | that many different ports of the range, or an error exactly if the range is too small |
| DnsClient.DnsTcpClient.InitSockets | rust/dns-over-tcp/src/client.rs:285-311 | one socket per resolver, each with a port of its own |
| LfsrPeriod.PeriodExact | rust/connlib/snownet/src/index.rs:39-48 | the register returns to its seed after exactly 2^24 - 1 steps and not before, for every seed |
| PeerIndices.AllDistinct | rust/connlib/snownet/src/index.rs:39-48 | any two of the first 2^24 - 1 indices differ, for every seed and mask, and are below 2^24 |
| PeerIndices.NeverReturnedExactly | rust/connlib/snownet/src/index.rs:46-46 | the assertion against too many peers holds for n calls if and only if n is below 2^24 - 1 |
| PeerIndices.IndexLfsr.constructor | rust/connlib/snownet/src/index.rs:17-24 | seed and mask are nonzero 24-bit values |
| PeerIndices.IndexLfsr.Next | rust/connlib/snownet/src/index.rs:39-48 | a 24-bit value never returned before; the assertion fails on exactly the call number 2^24 - 1 |
| PeerIndices.RandomIndex | rust/connlib/snownet/src/index.rs:27-36 | the first draw whose low 24 bits are not all zero |
| Lfsr.StepInjective | rust/connlib/snownet/src/index.rs:45-45 | the step of the register is injective on nonzero 24-bit values |
| Lfsr.StepStays | rust/connlib/snownet/src/index.rs:43-45 | the register stays a nonzero 24-bit value |
| Lfsr.SeedReturnsFirst | rust/connlib/snownet/src/index.rs:39-48 | whatever register value returns, the seed returned first |
| Lfsr.IndicesDistinct | rust/connlib/snownet/src/index.rs:39-48 | until the seed returns, all indices differ |
| LfsrField.IterateIsMul | rust/connlib/snownet/src/index.rs:42-45 | n steps of any register are one multiplication by n steps of the top bit, in the field the polynomial defines |
| LfsrField.MulMul | rust/connlib/snownet/src/index.rs:42-45 | left factors of that multiplication commute |
| LfsrField.Moves | rust/connlib/snownet/src/index.rs:42-45 | if n steps of the top bit, less the top bit, have an inverse, n steps change every register |
| LfsrPeriod.NotSooner | rust/connlib/snownet/src/index.rs:42-45 | no register returns after the period divided by 3, 5, 7, 13, 17 or 241 steps |
| LfsrPeriod.CommonPeriod | rust/connlib/snownet/src/index.rs:39-48 | two step counts after which the seed is back have a common divisor after which it is back |
| LfsrPeriod.PrimeFactor | rust/connlib/snownet/src/index.rs:39-48 | every divisor of 2^24 - 1 other than one is a multiple of 3, 5, 7, 13, 17 or 241 |

## Left out

- Encoding and decoding of STUN messages, credentials, nonces, HMAC: library code; their verdicts are inputs.
- Metrics, byte counters, logging and tracing.
- `Allocation::can_be_freed` and the accessors of the client allocation: they would only add easy members.
- The framing of DNS messages on a TCP stream and the TCP stack itself.
- Nat.TranslateInPlace46: an ICMPv4 timestamp is one of the messages that cannot be translated; the parser behind the source may call it malformed instead.
- Translation of the packet embedded in an ICMP error, and ports and identifiers that `translate_source` and `translate_destination` rewrite.
- TurnLinkTheorems.RefusalExactlyOnCollision: says nothing about collisions of which a bind is judged 899 s or more after the collision; then there may be a refusal or none.
- TurnJointTheorems.RefusalExactlyOnCollision: the same.
- Links slower than the request timeout: there the client retries on its own, and a late request can refresh a number that the client has given up.
- The event loops, sockets and operating system around the sans-IO cores, the GUI, the portal and the apps.
