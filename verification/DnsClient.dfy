/**
 The DNS-over-TCP client: one socket per resolver, each with its own local port, and the bookkeeping of
 queries. What the TCP sockets do is an input of every call.
 */
module DnsClient {
  import opened Common
  import opened DnsQueries
  import opened DnsSockets

  type Handle = nat
  type Port = n: nat | n < 0x1_0000

  datatype Error = MissingSourceIps | PortRangeExhausted | IsResponse | UnknownResolver

  // ---------- Ledger ----------

  /**
   All that ever happened: queries accepted, reported and replaced; `clean` as long as every query was
   accepted with an ID that no outstanding query to its server had.
   */
  datatype Ledger = Ledger(accepted: map<SocketAddr, multiset<Message>>, produced: seq<QueryResult>,
                           replaced: map<SocketAddr, multiset<Message>>, clean: bool)

  ghost function Of(entries: map<SocketAddr, multiset<Message>>, server: SocketAddr): multiset<Message> {
    if server in entries then entries[server] else multiset{}
  }

  /** Every accepted query is outstanding, reported or replaced, and exactly one of these per time it was accepted. */
  ghost predicate Balanced(ledger: Ledger, server: SocketAddr, line: Line) {
    && line.Valid()
    && Of(ledger.accepted, server) == line.Outstanding() + Queries(ledger.produced, server) + Of(ledger.replaced,
       server)
    && (ledger.clean ==> line.UniqueIds() && Of(ledger.replaced, server) == multiset{})
  }

  ghost function Booked(ledger: Ledger, server: SocketAddr, results: seq<QueryResult>,
                        replaced: multiset<Message>): Ledger {
    ledger.(produced := ledger.produced + results,
        replaced := ledger.replaced[server := Of(ledger.replaced, server) + replaced])
  }

  lemma Rebalanced(ledger: Ledger, server: SocketAddr, before: Line, after: Line, results: seq<QueryResult>,
                   replaced: multiset<Message>)
    requires Balanced(ledger, server, before) && after.Valid()
    requires before.Outstanding() == after.Outstanding() + Queries(results, server) + replaced
    requires before.UniqueIds() ==> after.UniqueIds() && replaced == multiset{}
    ensures Balanced(Booked(ledger, server, results, replaced), server, after)
  {
    hide Line.Outstanding, Line.UniqueIds, Line.Valid, Queries;
    QueriesAppend(ledger.produced, results, server);
    Transferred(after.Outstanding(), Queries(results, server), replaced, Queries(ledger.produced, server),
        Of(ledger.replaced, server));
  }

  lemma Transferred(a: multiset<Message>, b: multiset<Message>, c: multiset<Message>, d: multiset<Message>,
                    e: multiset<Message>)
    ensures a + b + c + d + e == a + (d + b) + (e + c)
  {
  }

  lemma OthersBalanced(ledger: Ledger, server: SocketAddr, results: seq<QueryResult>, replaced: multiset<Message>,
                       other: SocketAddr, line: Line)
    requires Balanced(ledger, other, line) && AllFrom(results, server) && other != server
    ensures Balanced(Booked(ledger, server, results, replaced), other, line)
  {
    hide Line.Outstanding, Line.UniqueIds, Line.Valid;
    QueriesAppend(ledger.produced, results, other);
    QueriesOfOther(results, other);
  }

  ghost predicate HasId(line: Line, id: Id) {
    id in line.sent || exists i :: 0 <= i < |line.pending| && line.pending[i].id == id
  }

  ghost function Accepted(ledger: Ledger, server: SocketAddr, line: Line, query: Message): Ledger {
    ledger.(accepted := ledger.accepted[server := Of(ledger.accepted, server) + multiset{query}],
            clean := ledger.clean && !HasId(line, query.id))
  }

  ghost function Queued(line: Line, query: Message): Line { line.(pending := line.pending + [query]) }

  lemma QueuedLine(line: Line, query: Message)
    ensures Queued(line, query).Outstanding() == line.Outstanding() + multiset{query}
    ensures line.Valid() ==> Queued(line, query).Valid()
    ensures line.UniqueIds() && !HasId(line, query.id) ==> Queued(line, query).UniqueIds()
  {
    hide Line.UniqueIds, HasId;
    if line.UniqueIds() && !HasId(line, query.id) { QueuedUnique(line, query); }
  }

  lemma QueuedUnique(line: Line, query: Message)
    requires line.UniqueIds() && !HasId(line, query.id)
    ensures Queued(line, query).UniqueIds()
  {
  }

  lemma AcceptedBalanced(ledger: Ledger, server: SocketAddr, line: Line, query: Message)
    requires Balanced(ledger, server, line)
    ensures Balanced(Accepted(ledger, server, line, query), server, Queued(line, query))
  {
    hide Line.Outstanding, Line.Valid, Line.UniqueIds, Queries, HasId, Queued;
    QueuedLine(line, query);
    Inserted(line.Outstanding(), Queries(ledger.produced, server), Of(ledger.replaced, server), query);
  }

  lemma Inserted(a: multiset<Message>, b: multiset<Message>, c: multiset<Message>, query: Message)
    ensures a + b + c + multiset{query} == a + multiset{query} + b + c
  {
  }

  /**
   While every ID was unique among the outstanding queries to its server, nothing is ever lost: a query
   is reported at most as often as it was accepted, and if it is not outstanding, exactly as often.
   */
  lemma NothingLost(ledger: Ledger, server: SocketAddr, line: Line, query: Message)
    requires Balanced(ledger, server, line) && ledger.clean
    ensures Of(ledger.accepted, server)[query]
            == multiset(line.pending)[query] + (if query.id in line.sent && line.sent[query.id] == query then 1 else 0)
             + Queries(ledger.produced, server)[query]
  {
    assert query in line.sent.Values <==> query.id in line.sent && line.sent[query.id] == query;
  }

  lemma OthersAccepted(ledger: Ledger, server: SocketAddr, line: Line, query: Message, other: SocketAddr,
                       otherLine: Line)
    requires Balanced(ledger, other, otherLine) && other != server
    ensures Balanced(Accepted(ledger, server, line, query), other, otherLine)
  {
  }

  // ---------- All resolvers ----------

  type Pending = map<SocketAddr, seq<Message>>
  type Sent = map<SocketAddr, map<Id, Message>>

  function LineIn(pending: Pending, sent: Sent, server: SocketAddr): Line {
    Line(if server in pending then pending[server] else [], if server in sent then sent[server] else map[])
  }

  ghost predicate AllBalanced(ledger: Ledger, pending: Pending, sent: Sent) {
    forall server :: Balanced(ledger, server, LineIn(pending, sent, server))
  }

  /** A response is only ever reported for a query with its ID. */
  ghost predicate ResponsesMatch(results: seq<QueryResult>) {
    forall r :: r in results && r.response.Some? ==> r.response.value.id == r.query.id
  }

  /** Queries are only ever kept for resolvers that have a socket. */
  ghost predicate QueriesKnown(pending: Pending, sent: Sent, sockets: map<SocketAddr, Handle>) {
    pending.Keys <= sockets.Keys && sent.Keys <= sockets.Keys
  }

  /** Every socket has a local port of its own. */
  ghost predicate PortsDistinct(sockets: map<SocketAddr, Handle>, ports: map<Handle, Port>) {
    && (forall s :: s in sockets ==> sockets[s] in ports)
    && (forall s, t :: s in sockets && t in sockets && s != t ==> ports[sockets[s]] != ports[sockets[t]])
  }

  ghost predicate PortsInRange(ports: map<Handle, Port>, minPort: Port, maxPort: Port) {
    forall h :: h in ports ==> minPort <= ports[h] <= maxPort
  }

  lemma AcceptedAllBalanced(ledger: Ledger, pending: Pending, sent: Sent, server: SocketAddr, query: Message)
    requires AllBalanced(ledger, pending, sent)
    ensures var line := LineIn(pending, sent, server);
            AllBalanced(Accepted(ledger, server, line, query), pending[server := line.pending + [query]], sent)
  {
    hide Balanced, Accepted;
    var line := LineIn(pending, sent, server);
    var after := pending[server := line.pending + [query]];
    AcceptedBalanced(ledger, server, line, query);
    forall other ensures Balanced(Accepted(ledger, server, line, query), other, LineIn(after, sent, other)) {
      if other != server { OthersAccepted(ledger, server, line, query, other, LineIn(pending, sent, other)); }
    }
  }

  lemma AllRebalanced(ledger: Ledger, pending: Pending, sent: Sent, server: SocketAddr,
                      pendingAfter: Pending, sentAfter: Sent, results: seq<QueryResult>, replaced: multiset<Message>)
    requires AllBalanced(ledger, pending, sent) && AllFrom(results, server)
    requires Balanced(Booked(ledger, server, results, replaced), server, LineIn(pendingAfter, sentAfter, server))
    requires forall other :: other != server ==> LineIn(pendingAfter, sentAfter, other) == LineIn(pending, sent, other)
    ensures AllBalanced(Booked(ledger, server, results, replaced), pendingAfter, sentAfter)
  {
    hide Balanced, Booked, AllFrom;
    forall other ensures Balanced(Booked(ledger, server, results, replaced), other,
        LineIn(pendingAfter, sentAfter, other)) {
      if other != server { OthersBalanced(ledger, server, results, replaced, other, LineIn(pending, sent, other)); }
    }
  }

  function BehaviourOf(network: map<SocketAddr, Behaviour>, server: SocketAddr): Behaviour {
    if server in network then network[server] else Behaviour([], Nothing, false, true)
  }

  /** A resolver's socket was served once, and `produced` reports what came of it. */
  ghost predicate IsServed(network: map<SocketAddr, Behaviour>, server: SocketAddr, before: Line, after: Line,
                           produced: seq<QueryResult>) {
    var step := Served(before, BehaviourOf(network, server));
    after == step.line && Queries(produced, server) == step.Reported()
  }

  lemma ServedAllBalanced(ledger: Ledger, pending: Pending, sent: Sent, server: SocketAddr, b: Behaviour,
                          pendingAfter: Pending, sentAfter: Sent, results: seq<QueryResult>)
    requires AllBalanced(ledger, pending, sent) && ResponsesMatch(ledger.produced)
    requires var step := Served(LineIn(pending, sent, server), b);
             LineIn(pendingAfter, sentAfter, server) == step.line && Reports(results, server, step)
    requires forall other :: other != server ==> LineIn(pendingAfter, sentAfter, other) == LineIn(pending, sent, other)
    ensures var after := Booked(ledger, server, results, Served(LineIn(pending, sent, server), b).replaced);
            AllBalanced(after, pendingAfter, sentAfter) && ResponsesMatch(after.produced)
  {
    hide Served, LineIn, Line.Outstanding, Line.UniqueIds, Line.Valid, Queries;
    var line := LineIn(pending, sent, server);
    assert Balanced(ledger, server, line);
    ServedConserves(line, b);
    var step := Served(line, b);
    Rebalanced(ledger, server, line, step.line, results, step.replaced);
    AllRebalanced(ledger, pending, sent, server, pendingAfter, sentAfter, results, step.replaced);
  }

  // ---------- Aborting ----------

  ghost predicate Drained(aborted: seq<QueryResult>, pending: Pending, sent: Sent) {
    AllFailures(aborted) && forall server :: Queries(aborted, server) == LineIn(pending, sent, server).Outstanding()
  }

  lemma AbortedBalanced(ledger: Ledger, pending: Pending, sent: Sent, aborted: seq<QueryResult>)
    requires AllBalanced(ledger, pending, sent) && ResponsesMatch(ledger.produced) && Drained(aborted, pending, sent)
    ensures var after := ledger.(produced := ledger.produced + aborted);
            AllBalanced(after, map[], map[]) && ResponsesMatch(after.produced)
  {
    var after := ledger.(produced := ledger.produced + aborted);
    forall server ensures Balanced(after, server, LineIn(map[], map[], server)) {
      assert Balanced(ledger, server, LineIn(pending, sent, server));
      assert LineIn(map[], map[], server) == EMPTY && EMPTY.Valid() && EMPTY.UniqueIds()
             && EMPTY.Outstanding() == multiset{};
      hide Line.Outstanding, Line.UniqueIds, Line.Valid, LineIn, Queries;
      QueriesAppend(ledger.produced, aborted, server);
      Emptied(Queries(aborted, server), Queries(ledger.produced, server), Of(ledger.replaced, server));
    }
  }

  lemma Emptied(a: multiset<Message>, b: multiset<Message>, c: multiset<Message>)
    ensures a + b + c == multiset{} + (b + a) + c
  {
  }

  lemma AbortingStep(aborted: seq<QueryResult>, pendingBefore: Pending, sentBefore: Sent, pending: Pending, sent: Sent,
                     server: SocketAddr, failed: seq<QueryResult>, pendingAfter: Pending, sentAfter: Sent)
    requires Aborting(aborted, pendingBefore, sentBefore, pending, sent)
    requires AllFrom(failed, server) && AllFailures(failed)
    requires LineIn(pending, sent, server).Outstanding()
             == Queries(failed, server) + LineIn(pendingAfter, sentAfter, server).Outstanding()
    requires forall other :: other != server ==> LineIn(pendingAfter, sentAfter, other) == LineIn(pending, sent, other)
    ensures Aborting(aborted + failed, pendingBefore, sentBefore, pendingAfter, sentAfter)
  {
    hide Line.Outstanding, LineIn, Queries;
    forall other ensures LineIn(pendingBefore, sentBefore, other).Outstanding()
                         == Queries(aborted + failed, other) + LineIn(pendingAfter, sentAfter, other).Outstanding()
    {
      QueriesAppend(aborted, failed, other);
      if other == server {
        Associative(Queries(aborted, server), Queries(failed, server),
            LineIn(pendingAfter, sentAfter, server).Outstanding());
      } else {
        QueriesOfOther(failed, other);
      }
    }
  }

  /** What is not yet in `aborted` is still in the maps. */
  ghost predicate Aborting(aborted: seq<QueryResult>, pendingBefore: Pending, sentBefore: Sent, pending: Pending,
                           sent: Sent) {
    && AllFailures(aborted)
    && forall server :: LineIn(pendingBefore, sentBefore, server).Outstanding()
                        == Queries(aborted, server) + LineIn(pending, sent, server).Outstanding()
  }

  lemma PendingAborted(aborted: seq<QueryResult>, pendingBefore: Pending, sentBefore: Sent, pending: Pending,
                       sent: Sent,
                       server: SocketAddr, failed: seq<QueryResult>)
    requires Aborting(aborted, pendingBefore, sentBefore, pending, sent) && server in pending
    requires AllFrom(failed, server) && AllFailures(failed) && Queries(failed, server) == multiset(pending[server])
    ensures Aborting(aborted + failed, pendingBefore, sentBefore, pending - {server}, sent)
  {
    hide Queries, Aborting;
    AbortingStep(aborted, pendingBefore, sentBefore, pending, sent, server, failed, pending - {server}, sent);
  }

  lemma SentAborted(aborted: seq<QueryResult>, pendingBefore: Pending, sentBefore: Sent, sent: Sent,
                    server: SocketAddr, failed: seq<QueryResult>)
    requires Aborting(aborted, pendingBefore, sentBefore, map[], sent) && server in sent
    requires AllFrom(failed, server) && AllFailures(failed) && Queries(failed, server) == multiset(sent[server].Values)
    ensures Aborting(aborted + failed, pendingBefore, sentBefore, map[], sent - {server})
  {
    hide Queries, Aborting;
    AbortingStep(aborted, pendingBefore, sentBefore, map[], sent, server, failed, map[], sent - {server});
  }

  method AbortPending(pendingBefore: Pending, ghost sent: Sent) returns (aborted: seq<QueryResult>)
    ensures Aborting(aborted, pendingBefore, sent, map[], sent)
  {
    aborted := [];
    var pending := pendingBefore;
    while pending != map[]
      invariant Aborting(aborted, pendingBefore, sent, pending, sent)
      decreases |pending|
    {
      hide Aborting, AllFrom, AllFailures, Queries;
      var server :| server in pending;
      var failed := IntoFailedResults(server, pending[server]);
      PendingAborted(aborted, pendingBefore, sent, pending, sent, server, failed);
      aborted, pending := aborted + failed, pending - {server};
    }
  }

  method AbortSent(ghost pendingBefore: Pending, sentBefore: Sent, abortedBefore: seq<QueryResult>)
    returns (aborted: seq<QueryResult>)
    requires Aborting(abortedBefore, pendingBefore, sentBefore, map[], sentBefore)
    requires forall server :: server in sentBefore ==> Line([], sentBefore[server]).Valid()
    ensures Drained(aborted, pendingBefore, sentBefore)
  {
    aborted := abortedBefore;
    var sent := sentBefore;
    while sent != map[]
      invariant Aborting(aborted, pendingBefore, sentBefore, map[], sent)
      invariant forall server :: server in sent ==> Line([], sent[server]).Valid()
      decreases |sent|
    {
      hide Aborting, AllFrom, AllFailures, Queries, Line.Valid;
      var server :| server in sent;
      var values := IntoValues(sent[server]);
      var failed := IntoFailedResults(server, values);
      SentAborted(aborted, pendingBefore, sentBefore, sent, server, failed);
      aborted, sent := aborted + failed, sent - {server};
    }
  }

  // ---------- Client ----------

  class DnsTcpClient {
    const minPort: Port
    const maxPort: Port
    var hasSourceIps: bool
    var socketsByRemote: map<SocketAddr, Handle>
    var localPortsBySocket: map<Handle, Port>
    var pendingQueriesByRemote: Pending
    var sentQueriesByRemote: Sent
    var queryResults: seq<QueryResult>
    ghost var ledger: Ledger
    ghost var polled: seq<QueryResult>

    function LineOf(server: SocketAddr): Line
      reads this
    {
      LineIn(pendingQueriesByRemote, sentQueriesByRemote, server)
    }

    ghost predicate Valid()
      reads this
    {
      && minPort < maxPort && PortsInRange(localPortsBySocket, minPort, maxPort)
      && PortsDistinct(socketsByRemote, localPortsBySocket)
      && QueriesKnown(pendingQueriesByRemote, sentQueriesByRemote, socketsByRemote)
      && AllBalanced(ledger, pendingQueriesByRemote, sentQueriesByRemote)
      && ResponsesMatch(ledger.produced) && ledger.produced == polled + queryResults
    }

    constructor (minPort: Port, maxPort: Port)
      requires 49152 <= minPort < maxPort
      ensures Valid() && !hasSourceIps && socketsByRemote == map[] && queryResults == []
      ensures ledger == Ledger(map[], [], map[], true) && this.minPort == minPort && this.maxPort == maxPort
    {
      this.minPort, this.maxPort, hasSourceIps := minPort, maxPort, false;
      socketsByRemote, localPortsBySocket := map[], map[];
      pendingQueriesByRemote, sentQueriesByRemote, queryResults := map[], map[], [];
      ledger, polled := Ledger(map[], [], map[], true), [];
    }

    method SetSourceInterface()
      requires Valid()
      modifies `hasSourceIps
      ensures Valid() && hasSourceIps
    {
      hide AllBalanced, PortsDistinct, PortsInRange, ResponsesMatch, QueriesKnown;
      hasSourceIps := true;
    }

    method AbortAllPendingAndSentQueries()
      requires AllBalanced(ledger, pendingQueriesByRemote, sentQueriesByRemote) && ResponsesMatch(ledger.produced)
      requires ledger.produced == polled + queryResults
      modifies `pendingQueriesByRemote, `sentQueriesByRemote, `queryResults, `ledger
      ensures AllBalanced(ledger, pendingQueriesByRemote, sentQueriesByRemote) && ResponsesMatch(ledger.produced)
      ensures ledger.produced == polled + queryResults
      ensures pendingQueriesByRemote == map[] && sentQueriesByRemote == map[] && old(queryResults) <= queryResults
      ensures Drained(queryResults[|old(queryResults)|..], old(pendingQueriesByRemote), old(sentQueriesByRemote))
    {
      hide AllBalanced, ResponsesMatch, Drained, Aborting;
      AllSentValid(ledger, pendingQueriesByRemote, sentQueriesByRemote);
      var aborted := AbortPending(pendingQueriesByRemote, sentQueriesByRemote);
      aborted := AbortSent(pendingQueriesByRemote, sentQueriesByRemote, aborted);
      AbortedBalanced(ledger, pendingQueriesByRemote, sentQueriesByRemote, aborted);
      ledger := ledger.(produced := ledger.produced + aborted);
      pendingQueriesByRemote, sentQueriesByRemote, queryResults := map[], map[], queryResults + aborted;
      assert queryResults[|old(queryResults)|..] == aborted;
    }

    /** `draws` stands for the generator; being fair, it draws every port of the range. */
    method SampleUniquePorts(n: nat, draws: seq<Port>) returns (r: Result<set<Port>, Error>)
      requires minPort < maxPort && forall p: Port :: minPort <= p <= maxPort <==> p in draws
      ensures n > maxPort - minPort + 1 ==> r == Failure(PortRangeExhausted)
      ensures n <= maxPort - minPort + 1 ==> r.Success? && |r.value| == n && forall p :: p in r.value ==>
              minPort <= p <= maxPort
    {
      if n > maxPort - minPort + 1 { return Failure(PortRangeExhausted); }
      var ports: set<Port> := {};
      var i := 0;
      while |ports| < n
        invariant 0 <= i <= |draws| && |ports| <= n
        invariant forall p :: p in ports <==> p in draws[..i]
        decreases |draws| - i
      {
        assert draws[..|draws|] == draws;
        if i == |draws| { WholeRange(minPort, maxPort, ports); }
        assert draws[..i + 1] == draws[..i] + [draws[i]];
        ports := ports + {draws[i]};
        i := i + 1;
      }
      assert forall p :: p in ports ==> p in draws;
      r := Success(ports);
    }

    method InitSockets(ports: set<Port>, resolvers: set<SocketAddr>)
      requires |ports| == |resolvers| && socketsByRemote == map[] && localPortsBySocket == map[]
      modifies `socketsByRemote, `localPortsBySocket
      ensures socketsByRemote.Keys == resolvers && PortsDistinct(socketsByRemote, localPortsBySocket)
      ensures forall h :: h in localPortsBySocket ==> localPortsBySocket[h] in ports
    {
      var free, todo := ports, resolvers;
      var handle := 0;
      while todo != {}
        invariant |free| == |todo| && free <= ports && todo <= resolvers && socketsByRemote.Keys == resolvers - todo
        invariant PortsDistinct(socketsByRemote, localPortsBySocket)
        invariant forall h :: h in localPortsBySocket ==> h < handle && localPortsBySocket[h] in ports - free
      {
        var server :| server in todo;
        assert |free| > 0;
        var port :| port in free;
        socketsByRemote := socketsByRemote[server := handle];
        localPortsBySocket := localPortsBySocket[handle := port];
        free, todo, handle := free - {port}, todo - {server}, handle + 1;
      }
    }

    method SetResolvers(resolvers: set<SocketAddr>, draws: seq<Port>) returns (r: Result<(), Error>)
      requires Valid() && forall p: Port :: minPort <= p <= maxPort <==> p in draws
      modifies `socketsByRemote, `localPortsBySocket, `pendingQueriesByRemote, `sentQueriesByRemote, `queryResults,
          `ledger
      ensures Valid()
      ensures !hasSourceIps ==> r == Failure(MissingSourceIps) && unchanged(this)
      ensures hasSourceIps ==>
                && pendingQueriesByRemote == map[] && sentQueriesByRemote == map[] && old(queryResults) <= queryResults
                && Drained(queryResults[|old(queryResults)|..], old(pendingQueriesByRemote), old(sentQueriesByRemote))
                && r == (if |resolvers| > maxPort - minPort + 1 then Failure(PortRangeExhausted) else Success(()))
                && socketsByRemote.Keys == if r.Success? then resolvers else {}
    {
      hide AllBalanced, ResponsesMatch, Drained;
      if !hasSourceIps { return Failure(MissingSourceIps); }
      socketsByRemote, localPortsBySocket := map[], map[];
      AbortAllPendingAndSentQueries();
      var uniquePorts := SampleUniquePorts(|resolvers|, draws);
      if uniquePorts.Failure? { return Failure(uniquePorts.error); }
      InitSockets(uniquePorts.value, resolvers);
      r := Success(());
    }

    method SendQuery(server: SocketAddr, message: Message) returns (r: Result<(), Error>)
      requires Valid()
      modifies `pendingQueriesByRemote, `ledger
      ensures Valid()
      ensures r.Success? <==> !message.isResponse && server in socketsByRemote
      ensures r.Failure? ==> unchanged(this)
      ensures r.Success? ==>
                && pendingQueriesByRemote == old(pendingQueriesByRemote)
                   [server := old(LineOf(server)).pending + [message]]
                && ledger == Accepted(old(ledger), server, old(LineOf(server)), message)
    {
      hide AllBalanced, PortsDistinct, PortsInRange, ResponsesMatch;
      if message.isResponse { return Failure(IsResponse); }
      if server !in socketsByRemote { return Failure(UnknownResolver); }
      AcceptedAllBalanced(ledger, pendingQueriesByRemote, sentQueriesByRemote, server, message);
      ledger := Accepted(ledger, server, LineOf(server), message);
      pendingQueriesByRemote := pendingQueriesByRemote[server := LineOf(server).pending + [message]];
      r := Success(());
    }

    method PollQueryResult() returns (r: Option<QueryResult>)
      requires Valid()
      modifies `queryResults, `polled
      ensures Valid()
      ensures r.None? <==> old(queryResults) == []
      ensures r.None? ==> unchanged(this)
      ensures r.Some? ==> old(queryResults) == [r.value] + queryResults && polled == old(polled) + [r.value]
    {
      hide AllBalanced, PortsDistinct, PortsInRange, ResponsesMatch, QueriesKnown;
      if queryResults == [] { return None; }
      assert queryResults == [queryResults[0]] + queryResults[1..];
      r := Some(queryResults[0]);
      polled, queryResults := polled + [queryResults[0]], queryResults[1..];
    }

    method HandleTimeout(progress: bool, network: map<SocketAddr, Behaviour>)
      requires Valid()
      modifies `pendingQueriesByRemote, `sentQueriesByRemote, `queryResults, `ledger
      ensures Valid()
      ensures !hasSourceIps || (!progress && old(pendingQueriesByRemote) == map[]) ==> unchanged(this)
      ensures hasSourceIps && (progress || old(pendingQueriesByRemote) != map[]) ==>
                && old(queryResults) <= queryResults && InOrder(queryResults[|old(queryResults)|..])
                && forall server :: server in socketsByRemote ==>
                     IsServed(network, server, old(LineOf(server)), LineOf(server), queryResults[|old(queryResults)|..])
    {
      hide AllBalanced, PortsDistinct, PortsInRange, ResponsesMatch, QueriesKnown, IsServed;
      if !hasSourceIps { return; }
      if !progress && pendingQueriesByRemote == map[] { return; }
      ghost var produced := ServeAll(network);
      assert queryResults[|old(queryResults)|..] == produced;
    }

    method ServeAll(network: map<SocketAddr, Behaviour>) returns (ghost produced: seq<QueryResult>)
      requires Valid()
      modifies `pendingQueriesByRemote, `sentQueriesByRemote, `queryResults, `ledger
      ensures Valid() && queryResults == old(queryResults) + produced && InOrder(produced)
      ensures Underway(network, socketsByRemote.Keys, {}, old(pendingQueriesByRemote), old(sentQueriesByRemote),
                       pendingQueriesByRemote, sentQueriesByRemote, produced)
    {
      hide Served, Reports, Booked, Underway, Valid, BehaviourOf, IsLeast, OrderedSoFar, AllFrom;
      ghost var pending, sent := pendingQueriesByRemote, sentQueriesByRemote;
      ghost var done := {};
      produced := [];
      var todo := socketsByRemote.Keys;
      UnderwayStart(network, todo, pending, sent);
      OrderStart(todo);
      while todo != {}
        invariant Valid() && done !! todo && done + todo == socketsByRemote.Keys
                  && queryResults == old(queryResults) + produced
        invariant Underway(network, done, todo, pending, sent, pendingQueriesByRemote, sentQueriesByRemote, produced)
        invariant OrderedSoFar(produced, done, todo)
      {
        LeastExists(todo);
        var server :| server in todo && IsLeast(server, todo);
        ghost var p, s := pendingQueriesByRemote, sentQueriesByRemote;
        ghost var results := Serve(server, BehaviourOf(network, server));
        UnderwayStep(network, done, todo, pending, sent, p, s, produced, server, results);
        ReportsFrom(results, server, Served(LineIn(p, s, server), BehaviourOf(network, server)));
        OrderStep(produced, done, todo, server, results);
        done, produced := done + {server}, produced + results;
        todo := todo - {server};
      }
      OrderEnd(produced, done);
    }

    method Serve(server: SocketAddr, b: Behaviour) returns (results: seq<QueryResult>)
      requires Valid() && server in socketsByRemote
      modifies `pendingQueriesByRemote, `sentQueriesByRemote, `queryResults, `ledger
      ensures Valid() && queryResults == old(queryResults) + results
      ensures var step := Served(old(LineOf(server)), b);
              && pendingQueriesByRemote == old(pendingQueriesByRemote)[server := step.line.pending]
              && sentQueriesByRemote == old(sentQueriesByRemote)[server := step.line.sent]
              && Reports(results, server, step) && ledger == Booked(old(ledger), server, results, step.replaced)
    {
      hide AllBalanced, PortsDistinct, PortsInRange, ResponsesMatch, Served, Reports;
      var line := LineOf(server);
      AllValid(ledger, pendingQueriesByRemote, sentQueriesByRemote, server);
      var pending, sent;
      ghost var replaced;
      pending, sent, results, replaced := ServeSocket(b, server, line.pending, line.sent);
      var pendingAfter, sentAfter := pendingQueriesByRemote[server := pending], sentQueriesByRemote[server := sent];
      ServedAllBalanced(ledger, pendingQueriesByRemote, sentQueriesByRemote, server, b, pendingAfter, sentAfter,
          results);
      ledger := Booked(ledger, server, results, replaced);
      pendingQueriesByRemote, sentQueriesByRemote, queryResults := pendingAfter, sentAfter, queryResults + results;
    }
  }

  lemma AllValid(ledger: Ledger, pending: Pending, sent: Sent, server: SocketAddr)
    requires AllBalanced(ledger, pending, sent)
    ensures LineIn(pending, sent, server).Valid()
  {
    assert Balanced(ledger, server, LineIn(pending, sent, server));
  }

  /** The sockets in `done` were served, those in `todo` are yet to be. */
  ghost predicate Underway(network: map<SocketAddr, Behaviour>, done: set<SocketAddr>, todo: set<SocketAddr>,
                           pendingBefore: Pending, sentBefore: Sent, pending: Pending, sent: Sent,
                               produced: seq<QueryResult>)
  {
    && (forall s :: s in done ==> IsServed(network, s, LineIn(pendingBefore, sentBefore, s), LineIn(pending, sent, s),
       produced))
    && (forall s :: s in todo ==>
          LineIn(pending, sent, s) == LineIn(pendingBefore, sentBefore, s) && Queries(produced, s) == multiset{})
  }

  /** Socket addresses are ordered by family, address and port. */
  predicate Before(a: SocketAddr, b: SocketAddr) {
    if a.ip.family != b.ip.family then a.ip.family == V4
    else a.ip.bits < b.ip.bits || (a.ip.bits == b.ip.bits && a.port < b.port)
  }

  predicate IsLeast(server: SocketAddr, servers: set<SocketAddr>) {
    server in servers && forall other :: other in servers ==> other == server || Before(server, other)
  }

  lemma BeforeIsTotal(a: SocketAddr, b: SocketAddr)
    ensures a == b || Before(a, b) || Before(b, a)
  {
    assert a.ip == IpAddr(a.ip.family, a.ip.bits) && b.ip == IpAddr(b.ip.family, b.ip.bits);
  }

  lemma BeforeIsTransitive(a: SocketAddr, b: SocketAddr, c: SocketAddr)
    requires Before(a, b) && Before(b, c)
    ensures Before(a, c)
  {
  }

  lemma {:induction false} LeastExists(servers: set<SocketAddr>)
    requires servers != {}
    ensures exists server :: server in servers && IsLeast(server, servers)
    decreases |servers|
  {
    var one :| one in servers;
    var rest := servers - {one};
    if rest == {} {
      assert servers == {one};
      assert IsLeast(one, servers);
    } else {
      LeastExists(rest);
      var least :| least in rest && IsLeast(least, rest);
      BeforeIsTotal(one, least);
      var first := if Before(one, least) then one else least;
      forall other | other in servers ensures other == first || Before(first, other) {
        if first == one && other in rest && other != least { BeforeIsTransitive(one, least, other); }
      }
      assert IsLeast(first, servers);
    }
  }

  /** Results come in the order of their servers. */
  ghost predicate InOrder(results: seq<QueryResult>) {
    forall i, j :: 0 <= i < j < |results| ==> !Before(results[j].server, results[i].server)
  }

  /** What was reported so far is for servers in `done`, all of which come before those in `todo`. */
  ghost predicate OrderedSoFar(results: seq<QueryResult>, done: set<SocketAddr>, todo: set<SocketAddr>) {
    && InOrder(results) && (forall r :: r in results ==> r.server in done)
    && (forall a, b :: a in done && b in todo ==> Before(a, b))
  }

  lemma OrderStart(todo: set<SocketAddr>)
    ensures OrderedSoFar([], {}, todo)
  {
  }

  lemma OrderEnd(results: seq<QueryResult>, done: set<SocketAddr>)
    requires OrderedSoFar(results, done, {})
    ensures InOrder(results)
  {
  }

  lemma OrderStep(produced: seq<QueryResult>, done: set<SocketAddr>, todo: set<SocketAddr>, server: SocketAddr,
                  results: seq<QueryResult>)
    requires OrderedSoFar(produced, done, todo) && IsLeast(server, todo) && AllFrom(results, server)
    ensures OrderedSoFar(produced + results, done + {server}, todo - {server})
  {
    var all := produced + results;
    forall i, j | 0 <= i < j < |all| ensures !Before(all[j].server, all[i].server) {
      if i < |produced| { assert produced[i] in produced; } else { assert results[i - |produced|] in results; }
      if j < |produced| { assert produced[j] in produced; } else { assert results[j - |produced|] in results; }
    }
  }

  lemma UnderwayStart(network: map<SocketAddr, Behaviour>, todo: set<SocketAddr>, pending: Pending, sent: Sent)
    ensures Underway(network, {}, todo, pending, sent, pending, sent, [])
  {
  }

  lemma UnderwayStep(network: map<SocketAddr, Behaviour>, done: set<SocketAddr>, todo: set<SocketAddr>,
                     pendingBefore: Pending, sentBefore: Sent, pending: Pending, sent: Sent, produced: seq<QueryResult>,
                     server: SocketAddr, results: seq<QueryResult>)
    requires Underway(network, done, todo, pendingBefore, sentBefore, pending, sent, produced)
    requires server in todo && done !! todo
    requires Reports(results, server, Served(LineIn(pending, sent, server), BehaviourOf(network, server)))
    ensures var step := Served(LineIn(pending, sent, server), BehaviourOf(network, server));
            Underway(network, done + {server}, todo - {server}, pendingBefore, sentBefore,
                     pending[server := step.line.pending], sent[server := step.line.sent], produced + results)
  {
    hide Served, Reports, Queries, BehaviourOf, IsServed;
    var step := Served(LineIn(pending, sent, server), BehaviourOf(network, server));
    var p, q := pending[server := step.line.pending], sent[server := step.line.sent];
    NowServed(network, server, LineIn(pendingBefore, sentBefore, server), step.line, produced, results);
    forall s | s in done
      ensures IsServed(network, s, LineIn(pendingBefore, sentBefore, s), LineIn(p, q, s), produced + results)
    {
      StillServed(network, s, LineIn(pendingBefore, sentBefore, s), LineIn(p, q, s), produced, results, server, step);
    }
    forall s | s in todo && s != server ensures Queries(produced + results, s) == multiset{} {
      ReportsOthers(produced, results, server, step, s);
    }
  }

  lemma ReportsFrom(results: seq<QueryResult>, server: SocketAddr, step: Step)
    requires Reports(results, server, step)
    ensures AllFrom(results, server)
  {
  }

  lemma ReportsOthers(produced: seq<QueryResult>, results: seq<QueryResult>, server: SocketAddr, step: Step,
                      other: SocketAddr)
    requires Reports(results, server, step) && other != server
    ensures Queries(produced + results, other) == Queries(produced, other)
  {
    QueriesAppend(produced, results, other);
    QueriesOfOther(results, other);
  }

  lemma NowServed(network: map<SocketAddr, Behaviour>, server: SocketAddr, before: Line, after: Line,
                  produced: seq<QueryResult>, results: seq<QueryResult>)
    requires Queries(produced, server) == multiset{}
    requires var step := Served(before, BehaviourOf(network, server));
             after == step.line && Reports(results, server, step)
    ensures IsServed(network, server, before, after, produced + results)
  {
    hide Served, Queries;
    QueriesAppend(produced, results, server);
  }

  lemma StillServed(network: map<SocketAddr, Behaviour>, other: SocketAddr, before: Line, after: Line,
                    produced: seq<QueryResult>, results: seq<QueryResult>, server: SocketAddr, step: Step)
    requires IsServed(network, other, before, after, produced) && Reports(results, server, step) && other != server
    ensures IsServed(network, other, before, after, produced + results)
  {
    hide Served;
    ReportsOthers(produced, results, server, step, other);
  }

  lemma AllSentValid(ledger: Ledger, pending: Pending, sent: Sent)
    requires AllBalanced(ledger, pending, sent)
    ensures forall server :: server in sent ==> Line([], sent[server]).Valid()
  {
    forall server | server in sent ensures Line([], sent[server]).Valid() {
      assert Balanced(ledger, server, LineIn(pending, sent, server));
    }
  }

  lemma {:induction false} WholeRange(minPort: Port, maxPort: Port, ports: set<Port>)
    requires minPort <= maxPort && forall p: Port :: minPort <= p <= maxPort ==> p in ports
    ensures |ports| >= maxPort - minPort + 1
    decreases maxPort - minPort
  {
    if minPort < maxPort {
      var next: Port := minPort + 1;
      WholeRange(next, maxPort, ports - {minPort});
    } else {
      assert minPort in ports;
    }
  }
}
