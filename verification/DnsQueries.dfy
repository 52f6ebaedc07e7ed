/** What happens to the queries of one DNS resolver, whatever its TCP socket does. */
module DnsQueries {
  import opened Common

  type Id = n: nat | n < 0x1_0000

  datatype Message = Message(id: Id, isResponse: bool, body: seq<int>)

  /** `pending` is yet to be sent, `sent` waits for a response. */
  datatype Line = Line(pending: seq<Message>, sent: map<Id, Message>) {
    ghost predicate Valid() { forall id :: id in sent ==> sent[id].id == id }

    ghost function Outstanding(): multiset<Message> { multiset(pending) + multiset(sent.Values) }

    /** No two outstanding queries have the same ID. */
    ghost predicate UniqueIds() {
      && (forall i, j :: 0 <= i < j < |pending| ==> pending[i].id != pending[j].id)
      && (forall i :: 0 <= i < |pending| ==> pending[i].id !in sent)
    }
  }

  const EMPTY := Line([], map[])

  datatype Reception = Nothing | Received(message: Message) | Broken

  /**
   A socket during one call: whether it sends each of the queries it is willing to take, what it
   receives, whether it then is closed and whether it can be connected again.
   */
  datatype Behaviour = Behaviour(sends: seq<bool>, reception: Reception, closed: bool, connects: bool)

  /** `replaced` are the queries that gave way to another one with the same ID. */
  datatype Step = Step(line: Line, failed: multiset<Message>, answered: Option<(Message, Message)>,
      replaced: multiset<Message>) {
    ghost function Answered(): multiset<Message> { if answered.Some? then multiset{answered.value.0} else multiset{} }

    ghost function Reported(): multiset<Message> { failed + Answered() }
  }

  ghost function Quiet(line: Line): Step { Step(line, multiset{}, None, multiset{}) }

  ghost function AllFailed(line: Line): Step { Step(EMPTY, line.Outstanding(), None, multiset{}) }

  ghost function Replaced(sent: map<Id, Message>, id: Id): multiset<Message> {
    if id in sent then multiset{sent[id]} else multiset{}
  }

  ghost function AfterSends(line: Line, sends: seq<bool>): Step
    decreases |sends|
  {
    if sends == [] || line.pending == [] then Quiet(line)
    else if !sends[0] then AllFailed(line)
    else
      var query := line.pending[0];
      var rest := AfterSends(Line(line.pending[1..], line.sent[query.id := query]), sends[1..]);
      rest.(replaced := Replaced(line.sent, query.id) + rest.replaced)
  }

  ghost function AfterReception(line: Line, reception: Reception): Step {
    match reception
    case Nothing => Quiet(line)
    case Broken => AllFailed(line)
    case Received(message) =>
      if message.isResponse && message.id in line.sent
      then Step(line.(sent := line.sent - {message.id}), multiset{}, Some((line.sent[message.id], message)), multiset{})
      else AllFailed(line)
  }

  ghost function AfterReconnect(line: Line, closed: bool, connects: bool): Step {
    if closed && line.pending != [] && !connects then AllFailed(line) else Quiet(line)
  }

  ghost function Served(line: Line, b: Behaviour): Step {
    var sent := AfterSends(line, b.sends);
    var received := AfterReception(sent.line, b.reception);
    var reconnected := AfterReconnect(received.line, b.closed, b.connects);
    Step(reconnected.line, sent.failed + received.failed + reconnected.failed, received.answered, sent.replaced)
  }

  // ---------- Conservation ----------

  lemma SentValues(sent: map<Id, Message>, query: Message)
    requires Line([], sent).Valid()
    ensures multiset(sent[query.id := query].Values) + Replaced(sent, query.id)
            == multiset(sent.Values) + multiset{query}
  {
    var after := sent[query.id := query];
    forall m: Message
      ensures (multiset(after.Values) + Replaced(sent, query.id))[m] == (multiset(sent.Values) + multiset{query})[m]
    {
      assert m in after.Values <==> m.id in after && after[m.id] == m;
      assert m in sent.Values <==> m.id in sent && sent[m.id] == m;
    }
  }

  lemma RemovedValue(sent: map<Id, Message>, id: Id)
    requires Line([], sent).Valid() && id in sent
    ensures multiset((sent - {id}).Values) + multiset{sent[id]} == multiset(sent.Values)
  {
    var after := sent - {id};
    forall m: Message
      ensures (multiset(after.Values) + multiset{sent[id]})[m] == multiset(sent.Values)[m]
    {
      assert m in after.Values <==> m.id in after && after[m.id] == m;
      assert m in sent.Values <==> m.id in sent && sent[m.id] == m;
    }
  }

  /** The line after its first query was sent. */
  ghost function FirstSent(line: Line): Line
    requires line.pending != []
  {
    Line(line.pending[1..], line.sent[line.pending[0].id := line.pending[0]])
  }

  /** No ID occurs twice among the first `k` pending and the sent queries. */
  ghost predicate UniqueFront(line: Line, k: nat)
    requires k <= |line.pending|
  {
    && (forall i, j :: 0 <= i < j < k ==> line.pending[i].id != line.pending[j].id)
    && (forall i :: 0 <= i < k ==> line.pending[i].id !in line.sent)
  }

  lemma FirstSentConserves(line: Line)
    requires line.Valid() && line.pending != []
    ensures FirstSent(line).Valid()
    ensures line.Outstanding() == FirstSent(line).Outstanding() + Replaced(line.sent, line.pending[0].id)
  {
    var query, next := line.pending[0], FirstSent(line);
    assert line.pending == [query] + next.pending;
    assert multiset(line.pending) == multiset{query} + multiset(next.pending);
    SentValues(line.sent, query);
    var before, after, gone := multiset(line.sent.Values), multiset(next.sent.Values), Replaced(line.sent, query.id);
    assert line.Outstanding() == multiset(next.pending) + (before + multiset{query});
    assert next.Outstanding() + gone == multiset(next.pending) + (after + gone);
  }

  lemma FirstSentUnique(line: Line, k: nat)
    requires 0 < k <= |line.pending|
    ensures UniqueFront(line, k) <==> line.pending[0].id !in line.sent && UniqueFront(FirstSent(line), k - 1)
  {
    var next := FirstSent(line);
    assert forall i :: 0 < i < k ==> line.pending[i] == next.pending[i - 1];
    if line.pending[0].id !in line.sent && UniqueFront(next, k - 1) {
      forall i, j | 0 <= i < j < k ensures line.pending[i].id != line.pending[j].id {
        assert next.pending[j - 1].id !in next.sent;
        if i > 0 { assert next.pending[i - 1].id != next.pending[j - 1].id; }
      }
      forall i | 0 <= i < k ensures line.pending[i].id !in line.sent {
        if i > 0 { assert next.pending[i - 1].id !in next.sent; }
      }
    }
  }

  lemma {:induction false} SendsConserve(line: Line, sends: seq<bool>)
    requires line.Valid()
    ensures var s := AfterSends(line, sends);
            && s.line.Valid() && s.answered.None?
            && line.Outstanding() == s.line.Outstanding() + s.failed + s.replaced
    decreases |sends|
  {
    assert EMPTY.Outstanding() == multiset{} && EMPTY.Valid();
    hide Line.Outstanding, Line.Valid, Replaced;
    if sends != [] && line.pending != [] && sends[0] {
      FirstSentConserves(line);
      SendsConserve(FirstSent(line), sends[1..]);
    }
  }

  lemma {:induction false} SendsKeepUnique(line: Line, sends: seq<bool>)
    requires line.UniqueIds()
    ensures AfterSends(line, sends).line.UniqueIds() && AfterSends(line, sends).replaced == multiset{}
    decreases |sends|
  {
    if sends != [] && line.pending != [] && sends[0] {
      FirstSentUnique(line, |line.pending|);
      SendsKeepUnique(FirstSent(line), sends[1..]);
    }
  }

  /** How many of `n` queries a socket sends before it is not willing to or fails. */
  function Taken(sends: seq<bool>, n: nat): (k: nat)
    ensures k <= n
  {
    if sends == [] || n == 0 || !sends[0] then 0 else 1 + Taken(sends[1..], n - 1)
  }

  /** A query is replaced exactly if one of those sent has the ID of another one sent before. */
  lemma {:induction false} ReplacedExactly(line: Line, sends: seq<bool>)
    ensures AfterSends(line, sends).replaced == multiset{} <==> UniqueFront(line, Taken(sends, |line.pending|))
    decreases |sends|
  {
    if sends != [] && line.pending != [] && sends[0] {
      var id := line.pending[0].id;
      FirstSentUnique(line, Taken(sends, |line.pending|));
      ReplacedExactly(FirstSent(line), sends[1..]);
      hide UniqueFront;
      BothEmpty(Replaced(line.sent, id), AfterSends(FirstSent(line), sends[1..]).replaced);
      assert id in line.sent ==> line.sent[id] in Replaced(line.sent, id);
    }
  }

  /** Of two queries with one ID, sent one after the other, the first is lost. */
  lemma QueryIsLost(first: Message, second: Message)
    requires first.id == second.id
    ensures var s := AfterSends(Line([first, second], map[]), [true, true]);
            s.replaced == multiset{first} && s.failed == multiset{} && s.line == Line([], map[second.id := second])
  {
    var line, sends := Line([first, second], map[]), [true, true];
    var next := FirstSent(line);
    assert sends[1..] == [true] && next.pending == [second];
    assert AfterSends(next, [true]) == Step(Line([], map[second.id := second]), multiset{}, None, multiset{first}) by {
      assert [true][1..] == [] && next.pending[1..] == [];
      assert next.sent[second.id := second] == map[second.id := second];
    }
  }

  lemma BothEmpty(a: multiset<Message>, b: multiset<Message>)
    ensures a + b == multiset{} <==> a == multiset{} && b == multiset{}
  {
    if a + b == multiset{} {
      assert forall m :: a[m] + b[m] == (a + b)[m];
    }
  }

  lemma ReceptionConserves(line: Line, reception: Reception)
    requires line.Valid()
    ensures var s := AfterReception(line, reception);
            && s.line.Valid() && s.replaced == multiset{}
            && line.Outstanding() == s.line.Outstanding() + s.Reported()
            && (line.UniqueIds() ==> s.line.UniqueIds())
            && (s.answered.Some? ==> s.answered.value.0.id == s.answered.value.1.id)
  {
    if reception.Received? && reception.message.isResponse && reception.message.id in line.sent {
      RemovedValue(line.sent, reception.message.id);
    } else {
      assert EMPTY.Outstanding() == multiset{};
    }
  }

  lemma ReconnectConserves(line: Line, closed: bool, connects: bool)
    requires line.Valid()
    ensures var s := AfterReconnect(line, closed, connects);
            && s.line.Valid() && line.Outstanding() == s.line.Outstanding() + s.failed
            && (line.UniqueIds() ==> s.line.UniqueIds())
  {
    assert EMPTY.Outstanding() == multiset{};
  }

  /**
   Whatever the socket does, every outstanding query stays outstanding, is reported exactly once, or
   was replaced by a query with its ID; the last never happens while IDs are unique, and they remain
   so. A response goes to the query with its ID.
   */
  lemma ServedConserves(line: Line, b: Behaviour)
    requires line.Valid()
    ensures var s := Served(line, b);
            && s.line.Valid()
            && line.Outstanding() == s.line.Outstanding() + s.Reported() + s.replaced
            && (line.UniqueIds() ==> s.line.UniqueIds() && s.replaced == multiset{})
            && (s.answered.Some? ==> s.answered.value.0.id == s.answered.value.1.id)
  {
    hide AfterSends, AfterReception, AfterReconnect, Line.Outstanding, Line.Valid, Line.UniqueIds;
    SendsConserve(line, b.sends);
    if line.UniqueIds() { SendsKeepUnique(line, b.sends); }
    var sent := AfterSends(line, b.sends);
    ReceptionConserves(sent.line, b.reception);
    ReconnectConserves(AfterReception(sent.line, b.reception).line, b.closed, b.connects);
  }
}
