/**
 The client's table of channel numbers: which peer each number is for, when it was confirmed, and
 which number to hand out next.
 */
module ChannelBindings {
  import opened Common

  type Number = nat
  type Peer = SocketAddr

  const FIRST_CHANNEL: nat := 0x4000
  const LAST_CHANNEL: nat := 0x4FFF
  const CHANNEL_COUNT: nat := LAST_CHANNEL - FIRST_CHANNEL + 1

  const CHANNEL_LIFETIME: int := 600 * SECOND
  const CHANNEL_REBIND_TIMEOUT: int := 300 * SECOND

  predicate InRange(n: int) { FIRST_CHANNEL <= n <= LAST_CHANNEL }

  datatype Channel = Channel(peer: Peer, bound: bool, boundAt: Instant, lastReceived: Instant) {
    /** Zero if the clock has not reached `boundAt` yet. */
    function Age(now: Instant): int { if now >= boundAt then now - boundAt else 0 }

    predicate NoActivity() { lastReceived == boundAt }

    predicate ConnectedTo(p: Peer, now: Instant) { peer == p && Age(now) < CHANNEL_LIFETIME && bound }

    predicate BoundTo(p: Peer, now: Instant) {
      peer == p && Age(now) < CHANNEL_LIFETIME + CHANNEL_REBIND_TIMEOUT && bound
    }

    predicate CanRebind(now: Instant) {
      NoActivity() && Age(now) >= CHANNEL_LIFETIME + CHANNEL_REBIND_TIMEOUT
    }

    predicate NeedsRefresh(now: Instant) { Age(now) >= CHANNEL_LIFETIME / 2 && !NoActivity() }
  }

  datatype Bindings = Bindings(inner: map<Number, Channel>, next: Number) {
    ghost predicate Valid() { InRange(next) && forall n :: n in inner ==> InRange(n) }

    /** The number is not held, or has been idle for its whole lifetime and cooldown. */
    predicate Available(n: Number, now: Instant) { n !in inner || inner[n].CanRebind(now) }
  }

  const NO_BINDINGS: Bindings := Bindings(map[], FIRST_CHANNEL)

  // ---------- The operations, as functions ----------

  function Succ(n: Number): Number { if n == LAST_CHANNEL then FIRST_CHANNEL else n + 1 }

  /** How many numbers the cursor passes from `from` before it reaches `n`. */
  function Rank(from: Number, n: Number): int { if n >= from then n - from else n - from + CHANNEL_COUNT }

  /** The first available number among the `left` numbers from `n` on, going round. */
  function Scan(b: Bindings, n: Number, left: nat, now: Instant): Option<Number>
    decreases left
  {
    if left == 0 then None
    else if b.Available(n, now) then Some(n)
    else Scan(b, Succ(n), left - 1, now)
  }

  function NextNumber(b: Bindings, now: Instant): Option<Number> { Scan(b, b.next, CHANNEL_COUNT, now) }

  /** The lowest number from `n` on that satisfies `wanted`. */
  function Lowest(inner: map<Number, Channel>, wanted: Channel -> bool, n: Number): Option<Number>
    decreases LAST_CHANNEL + 1 - n
  {
    if n > LAST_CHANNEL then None
    else if n in inner && wanted(inner[n]) then Some(n)
    else Lowest(inner, wanted, n + 1)
  }

  function ConnectedChannel(b: Bindings, peer: Peer, now: Instant): Option<Number> {
    Lowest(b.inner, (c: Channel) => c.ConnectedTo(peer, now), FIRST_CHANNEL)
  }

  function BoundChannel(b: Bindings, peer: Peer, now: Instant): Option<Number> {
    Lowest(b.inner, (c: Channel) => c.BoundTo(peer, now), FIRST_CHANNEL)
  }

  /** The number handed out to `peer`, if any is left, and the table afterwards. */
  function NewChannel(b: Bindings, peer: Peer, now: Instant): (Bindings, Option<Number>) {
    var existing := BoundChannel(b, peer, now);
    if existing.Some? then (b, existing) else
    var number := NextNumber(b, now);
    if number.None? then (b, None) else
    (Bindings(b.inner[number.value := Channel(peer, false, now, now)], Succ(number.value)), number)
  }

  function Confirm(b: Bindings, n: Number, now: Instant): Bindings {
    if n in b.inner then b.(inner := b.inner[n := Channel(b.inner[n].peer, true, now, now)]) else b
  }

  function Forget(b: Bindings, n: Number): Bindings { b.(inner := b.inner - {n}) }

  function Receive(b: Bindings, n: Number, now: Instant): Bindings {
    if n in b.inner && b.inner[n].bound then b.(inner := b.inner[n := b.inner[n].(lastReceived := now)]) else b
  }

  /** `clear` keeps the cursor where it is. */
  function Clear(b: Bindings): Bindings { b.(inner := map[]) }

  // ---------- The table that is updated in place ----------

  class ChannelTable {
    var inner: map<Number, Channel>
    var nextChannel: Number

    ghost function View(): Bindings
      reads this
    {
      Bindings(inner, nextChannel)
    }

    ghost predicate Valid()
      reads this
    {
      View().Valid()
    }

    constructor ()
      ensures Valid() && View() == NO_BINDINGS
    {
      inner := map[];
      nextChannel := FIRST_CHANNEL;
    }

    /** Cycles through all numbers: from the cursor to the last, then from the first to the cursor. */
    method NextChannelNumber(now: Instant) returns (r: Option<Number>)
      requires Valid()
      ensures r == NextNumber(View(), now)
    {
      var n := nextChannel;
      while n <= LAST_CHANNEL
        invariant nextChannel <= n <= LAST_CHANNEL + 1
        invariant NextNumber(View(), now) == Scan(View(), if n <= LAST_CHANNEL then n else FIRST_CHANNEL,
                                                  CHANNEL_COUNT - (n - nextChannel), now)
      {
        if n !in inner || inner[n].CanRebind(now) { return Some(n); }
        n := n + 1;
      }
      n := FIRST_CHANNEL;
      while n < nextChannel
        invariant FIRST_CHANNEL <= n <= nextChannel
        invariant NextNumber(View(), now) == Scan(View(), n, nextChannel - n, now)
      {
        if n !in inner || inner[n].CanRebind(now) { return Some(n); }
        n := n + 1;
      }
      return None;
    }

    method ConnectedChannelToPeer(peer: Peer, now: Instant) returns (r: Option<Number>)
      requires Valid()
      ensures r == ConnectedChannel(View(), peer, now)
    {
      r := LowestWhere(inner, (c: Channel) => c.ConnectedTo(peer, now));
    }

    method NewChannelToPeer(peer: Peer, now: Instant) returns (r: Option<Number>)
      requires Valid()
      modifies this
      ensures Valid()
      ensures (View(), r) == NewChannel(old(View()), peer, now)
    {
      var existing := LowestWhere(inner, (c: Channel) => c.BoundTo(peer, now));
      if existing.Some? { return existing; }
      r := NextChannelNumber(now);
      if r.None? { return; }
      NextIsFirstAvailable(View(), now);
      if r.value == LAST_CHANNEL {
        nextChannel := FIRST_CHANNEL;
      } else {
        nextChannel := r.value + 1;
      }
      inner := inner[r.value := Channel(peer, false, now, now)];
    }

    method SetConfirmed(n: Number, now: Instant) returns (known: bool)
      requires Valid()
      modifies this`inner
      ensures Valid() && View() == Confirm(old(View()), n, now)
      ensures known <==> n in old(inner)
    {
      if n !in inner { return false; }
      inner := inner[n := inner[n].(bound := true, boundAt := now, lastReceived := now)];
      known := true;
    }

    method HandleFailedBinding(n: Number)
      requires Valid()
      modifies this`inner
      ensures Valid() && View() == Forget(old(View()), n)
    {
      inner := inner - {n};
    }

    /** The peer that data on channel `n` comes from, if the channel is known and confirmed. */
    method TryDecode(n: Number, now: Instant) returns (peer: Option<Peer>)
      requires Valid()
      modifies this`inner
      ensures Valid() && View() == Receive(old(View()), n, now)
      ensures peer == if n in old(inner) && old(inner)[n].bound then Some(old(inner)[n].peer) else None
    {
      if n !in inner || !inner[n].bound { return None; }
      inner := inner[n := inner[n].(lastReceived := now)];
      peer := Some(inner[n].peer);
    }

    method ClearAll()
      requires Valid()
      modifies this`inner
      ensures Valid() && View() == Clear(old(View()))
    {
      inner := map[];
    }
  }

  /** Visits the held numbers in ascending order, as an ordered map does. */
  method LowestWhere(inner: map<Number, Channel>, wanted: Channel -> bool) returns (r: Option<Number>)
    ensures r == Lowest(inner, wanted, FIRST_CHANNEL)
  {
    var n := FIRST_CHANNEL;
    while n <= LAST_CHANNEL
      invariant FIRST_CHANNEL <= n <= LAST_CHANNEL + 1
      invariant Lowest(inner, wanted, FIRST_CHANNEL) == Lowest(inner, wanted, n)
    {
      if n in inner && wanted(inner[n]) { return Some(n); }
      n := n + 1;
    }
    return None;
  }

  // ---------- What the operations promise ----------

  lemma {:induction false} ScanFindsFirst(b: Bindings, n: Number, left: nat, now: Instant)
    requires InRange(n) && left <= CHANNEL_COUNT
    ensures var r := Scan(b, n, left, now);
            match r
            case Some(f) =>
              && InRange(f) && b.Available(f, now) && Rank(n, f) < left
              && (forall m: Number :: InRange(m) && Rank(n, m) < Rank(n, f) ==> !b.Available(m, now))
            case None =>
              forall m: Number :: InRange(m) && Rank(n, m) < left ==> !b.Available(m, now)
    decreases left
  {
    if left > 0 && !b.Available(n, now) {
      ScanFindsFirst(b, Succ(n), left - 1, now);
      assert forall m: Number :: InRange(m) && m != n ==> Rank(n, m) == Rank(Succ(n), m) + 1;
    }
  }

  /** The next number is the first available one from the cursor on; there is none only if all 4096 are taken. */
  lemma NextIsFirstAvailable(b: Bindings, now: Instant)
    requires b.Valid()
    ensures match NextNumber(b, now)
            case Some(f) =>
              && InRange(f) && b.Available(f, now)
              && (forall m: Number :: InRange(m) && Rank(b.next, m) < Rank(b.next, f) ==> !b.Available(m, now))
            case None => forall m: Number :: InRange(m) ==> m in b.inner && !b.inner[m].CanRebind(now)
  {
    ScanFindsFirst(b, b.next, CHANNEL_COUNT, now);
    assert forall m: Number :: InRange(m) ==> Rank(b.next, m) < CHANNEL_COUNT;
  }

  lemma {:induction false} LowestIsLowest(inner: map<Number, Channel>, wanted: Channel -> bool, n: Number)
    ensures match Lowest(inner, wanted, n)
            case Some(f) =>
              && n <= f <= LAST_CHANNEL && f in inner && wanted(inner[f])
              && (forall m :: m in inner && n <= m < f ==> !wanted(inner[m]))
            case None => forall m :: m in inner && n <= m <= LAST_CHANNEL ==> !wanted(inner[m])
    decreases LAST_CHANNEL + 1 - n
  {
    if n <= LAST_CHANNEL && !(n in inner && wanted(inner[n])) {
      LowestIsLowest(inner, wanted, n + 1);
    }
  }

  /** No number is handed out exactly when all are held, none may be rebound and the peer has no channel to reuse. */
  lemma ExhaustedExactly(b: Bindings, peer: Peer, now: Instant)
    requires b.Valid()
    ensures NewChannel(b, peer, now).1.None? <==>
            && (forall n: Number :: InRange(n) ==> n in b.inner && !b.inner[n].CanRebind(now))
            && (forall n :: n in b.inner ==> !b.inner[n].BoundTo(peer, now))
  {
    NextIsFirstAvailable(b, now);
    LowestIsLowest(b.inner, (c: Channel) => c.BoundTo(peer, now), FIRST_CHANNEL);
  }
}
