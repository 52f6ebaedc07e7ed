/** One TCP socket to a DNS resolver during one call, and what it reports. */
module DnsSockets {
  import opened Common
  import opened DnsQueries

  datatype QueryResult = QueryResult(query: Message, server: SocketAddr, response: Option<Message>)

  ghost function QueryTo(result: QueryResult, server: SocketAddr): multiset<Message> {
    if result.server == server then multiset{result.query} else multiset{}
  }

  /** The queries to `server` that were reported. */
  ghost function Queries(results: seq<QueryResult>, server: SocketAddr): multiset<Message> {
    if results == [] then multiset{}
    else Queries(results[..|results| - 1], server) + QueryTo(results[|results| - 1], server)
  }

  lemma {:induction false} QueriesAppend(a: seq<QueryResult>, b: seq<QueryResult>, server: SocketAddr)
    ensures Queries(a + b, server) == Queries(a, server) + Queries(b, server)
  {
    if b == [] {
      assert a + b == a;
    } else {
      var init, last := b[..|b| - 1], b[|b| - 1];
      assert (a + b)[..|a + b| - 1] == a + init && (a + b)[|a + b| - 1] == last;
      QueriesAppend(a, init, server);
      Associative(Queries(a, server), Queries(init, server), QueryTo(last, server));
    }
  }

  lemma Associative(a: multiset<Message>, b: multiset<Message>, c: multiset<Message>)
    ensures a + b + c == a + (b + c)
  {
  }

  lemma {:induction false} QueriesOfOther(a: seq<QueryResult>, server: SocketAddr)
    requires forall r :: r in a ==> r.server != server
    ensures Queries(a, server) == multiset{}
  {
    if a != [] {
      assert a[|a| - 1] in a;
      QueriesOfOther(a[..|a| - 1], server);
    }
  }

  ghost predicate AllFrom(results: seq<QueryResult>, server: SocketAddr) {
    forall r :: r in results ==> r.server == server
  }

  ghost predicate AllFailures(results: seq<QueryResult>) { forall r :: r in results ==> r.response.None? }

  /** What serving a socket reports: one failure per failed query, and the response with the query it answers. */
  ghost predicate Reports(results: seq<QueryResult>, server: SocketAddr, step: Step) {
    && AllFrom(results, server) && Queries(results, server) == step.Reported()
    && (forall r :: r in results && r.response.Some? ==> step.answered == Some((r.query, r.response.value)))
    && (step.answered.Some? ==> QueryResult(step.answered.value.0, server, Some(step.answered.value.1)) in results)
  }

  // ---------- One socket ----------

  method IntoFailedResults(server: SocketAddr, queries: seq<Message>) returns (failed: seq<QueryResult>)
    ensures AllFrom(failed, server) && AllFailures(failed) && Queries(failed, server) == multiset(queries)
  {
    failed := [];
    for i := 0 to |queries|
      invariant AllFrom(failed, server) && AllFailures(failed) && Queries(failed, server) == multiset(queries[..i])
    {
      assert queries[..i + 1] == queries[..i] + [queries[i]];
      failed := failed + [QueryResult(queries[i], server, None)];
    }
    assert queries[..|queries|] == queries;
  }

  /** The values of a hash map, in any order. */
  method IntoValues(sent: map<Id, Message>) returns (queries: seq<Message>)
    requires Line([], sent).Valid()
    ensures multiset(queries) == multiset(sent.Values)
  {
    var rest := sent;
    queries := [];
    while rest != map[]
      invariant Line([], rest).Valid()
      invariant multiset(queries) + multiset(rest.Values) == multiset(sent.Values)
      decreases |rest|
    {
      var id :| id in rest;
      RemovedValue(rest, id);
      queries := queries + [rest[id]];
      rest := rest - {id};
    }
  }

  method FailAllQueries(server: SocketAddr, pending: seq<Message>, sent: map<Id, Message>)
    returns (failed: seq<QueryResult>)
    requires Line(pending, sent).Valid()
    ensures AllFrom(failed, server) && AllFailures(failed)
    ensures Queries(failed, server) == Line(pending, sent).Outstanding()
  {
    var values := IntoValues(sent);
    failed := IntoFailedResults(server, pending + values);
  }

  /** A step that comes after queries were reported and replaced already. */
  ghost function Later(failed: multiset<Message>, replaced: multiset<Message>, rest: Step): Step {
    Step(rest.line, failed + rest.failed, rest.answered, replaced + rest.replaced)
  }

  lemma NextSend(line: Line, sends: seq<bool>, i: nat, replaced: multiset<Message>)
    requires i < |sends| && line.pending != []
    ensures var whole := Later(multiset{}, replaced, AfterSends(line, sends[i..]));
            if sends[i]
            then whole == Later(multiset{}, replaced + Replaced(line.sent, line.pending[0].id),
                AfterSends(FirstSent(line), sends[i + 1..]))
            else whole == Later(line.Outstanding(), replaced, AfterSends(EMPTY, sends[i + 1..]))
  {
    assert sends[i..][1..] == sends[i + 1..];
    if sends[i] {
      Associative(replaced, Replaced(line.sent, line.pending[0].id),
          AfterSends(FirstSent(line), sends[i + 1..]).replaced);
    }
  }

  lemma Settled(line: Line, sends: seq<bool>, failed: multiset<Message>, replaced: multiset<Message>)
    requires sends == [] || line.pending == []
    ensures Later(failed, replaced, AfterSends(line, sends)) == Step(line, failed, None, replaced)
  {
  }

  method SendPendingQueries(sends: seq<bool>, server: SocketAddr, pendingBefore: seq<Message>,
                            sentBefore: map<Id, Message>)
    returns (pending: seq<Message>, sent: map<Id, Message>, failed: seq<QueryResult>, ghost replaced: multiset<Message>)
    requires Line(pendingBefore, sentBefore).Valid()
    ensures AllFrom(failed, server) && AllFailures(failed)
    ensures AfterSends(Line(pendingBefore, sentBefore), sends)
            == Step(Line(pending, sent), Queries(failed, server), None, replaced)
  {
    hide AfterSends, Line.Outstanding, Queries;
    pending, sent, failed, replaced := pendingBefore, sentBefore, [], multiset{};
    ghost var whole := AfterSends(Line(pending, sent), sends);
    var i := 0;
    assert sends[0..] == sends;
    NoQueries(server);
    while i < |sends| && pending != []
      invariant 0 <= i <= |sends| && Line(pending, sent).Valid() && (pending != [] ==> failed == [])
      invariant AllFrom(failed, server) && AllFailures(failed)
      invariant whole == Later(Queries(failed, server), replaced, AfterSends(Line(pending, sent), sends[i..]))
    {
      hide AllFrom, AllFailures;
      var query := pending[0];
      NextSend(Line(pending, sent), sends, i, replaced);
      if sends[i] {
        replaced := replaced + Replaced(sent, query.id);
        pending, sent := pending[1..], sent[query.id := query];
      } else {
        failed := FailQuery(server, pending, sent);
        pending, sent := [], map[];
      }
      i := i + 1;
    }
    Settled(Line(pending, sent), sends[i..], Queries(failed, server), replaced);
  }

  lemma NoQueries(server: SocketAddr)
    ensures Queries([], server) == multiset{}
  {
  }

  /** The others are reported before the query that could not be sent. */
  method FailQuery(server: SocketAddr, pending: seq<Message>, sent: map<Id, Message>) returns (failed: seq<QueryResult>)
    requires Line(pending, sent).Valid() && pending != []
    ensures AllFrom(failed, server) && AllFailures(failed)
    ensures Queries(failed, server) == Line(pending, sent).Outstanding()
  {
    var query, others := pending[0], pending[1..];
    assert pending == [query] + others;
    failed := FailAllQueries(server, others, sent);
    Reordered(query, multiset(others), multiset(sent.Values));
    ghost var before := failed;
    failed := failed + [QueryResult(query, server, None)];
    assert failed[..|failed| - 1] == before;
  }

  lemma Reordered(query: Message, others: multiset<Message>, sent: multiset<Message>)
    ensures others + sent + multiset{query} == multiset{query} + others + sent
  {
  }

  method RecvResponses(reception: Reception, server: SocketAddr, pendingBefore: seq<Message>,
                       sentBefore: map<Id, Message>)
    returns (pending: seq<Message>, sent: map<Id, Message>, results: seq<QueryResult>)
    requires Line(pendingBefore, sentBefore).Valid()
    ensures Line(pending, sent) == AfterReception(Line(pendingBefore, sentBefore), reception).line
    ensures Reports(results, server, AfterReception(Line(pendingBefore, sentBefore), reception))
  {
    pending, sent, results := pendingBefore, sentBefore, [];
    if reception.Nothing? { return; }
    if reception.Received? && reception.message.isResponse && reception.message.id in sent {
      var query := sent[reception.message.id];
      sent := sent - {reception.message.id};
      results := [QueryResult(query, server, Some(reception.message))];
      assert results[..0] == [];
    } else {
      results := FailAllQueries(server, pending, sent);
      pending, sent := [], map[];
    }
  }

  /** The reports of the three phases together. */
  lemma ReportsTogether(line: Line, b: Behaviour, server: SocketAddr,
                        unsent: seq<QueryResult>, received: seq<QueryResult>, unconnected: seq<QueryResult>)
    requires AllFrom(unsent, server) && AllFailures(unsent) && AllFrom(unconnected, server) && AllFailures(unconnected)
    requires var sent := AfterSends(line, b.sends); var step := AfterReception(sent.line, b.reception);
             && Queries(unsent, server) == sent.failed && Reports(received, server, step)
             && Queries(unconnected, server) == AfterReconnect(step.line, b.closed, b.connects).failed
    ensures Reports(unsent + received + unconnected, server, Served(line, b))
  {
    hide AfterSends, AfterReception, AfterReconnect, Queries;
    var step := AfterReception(AfterSends(line, b.sends).line, b.reception);
    QueriesAppend(unsent, received, server);
    QueriesAppend(unsent + received, unconnected, server);
    Regrouped(Queries(unsent, server), step.failed, step.Answered(), Queries(unconnected, server));
  }

  lemma Regrouped(a: multiset<Message>, b: multiset<Message>, c: multiset<Message>, d: multiset<Message>)
    ensures a + (b + c) + d == a + b + d + c
  {
  }

  method ServeSocket(b: Behaviour, server: SocketAddr, pendingBefore: seq<Message>, sentBefore: map<Id, Message>)
    returns (pending: seq<Message>, sent: map<Id, Message>, results: seq<QueryResult>,
        ghost replaced: multiset<Message>)
    requires Line(pendingBefore, sentBefore).Valid()
    ensures Line(pending, sent) == Served(Line(pendingBefore, sentBefore), b).line
    ensures Reports(results, server, Served(Line(pendingBefore, sentBefore), b))
    ensures replaced == Served(Line(pendingBefore, sentBefore), b).replaced
  {
    hide AfterSends, AfterReception, Line.Valid, Line.Outstanding, Queries, Reports;
    ghost var line := Line(pendingBefore, sentBefore);
    var unsent, received, unconnected := [], [], [];
    NoQueries(server);
    SendsConserve(line, b.sends);
    pending, sent, unsent, replaced := SendPendingQueries(b.sends, server, pendingBefore, sentBefore);
    ReceptionConserves(Line(pending, sent), b.reception);
    pending, sent, received := RecvResponses(b.reception, server, pending, sent);
    if b.closed && pending != [] && !b.connects {
      unconnected := FailAllQueries(server, pending, sent);
      pending, sent := [], map[];
    }
    ReportsTogether(line, b, server, unsent, received, unconnected);
    results := unsent + received + unconnected;
  }
}
