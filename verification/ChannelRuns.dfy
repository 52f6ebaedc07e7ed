/** Channel numbers over whole runs of the client's table. */
module ChannelRuns {
  import opened Common
  import opened ChannelBindings

  datatype Op =
    | New(peer: Peer)
    | Confirmed(number: Number)
    | Failed(number: Number)
    | Data(number: Number)
    | Cleared

  datatype Run = Run(states: seq<Bindings>, ops: seq<Op>, times: seq<Instant>)

  function Step(b: Bindings, op: Op, now: Instant): Bindings {
    match op
    case New(peer) => NewChannel(b, peer, now).0
    case Confirmed(n) => Confirm(b, n, now)
    case Failed(n) => Forget(b, n)
    case Data(n) => Receive(b, n, now)
    case Cleared => Clear(b)
  }

  ghost predicate IsRun(run: Run) {
    && |run.states| == |run.ops| + 1 == |run.times| + 1
    && run.states[0] == NO_BINDINGS
    && forall i :: 0 <= i < |run.ops| ==> run.states[i + 1] == Step(run.states[i], run.ops[i], run.times[i])
  }

  /** The number freshly handed out by an operation. A channel reused for its own peer is not a fresh hand-out. */
  function Fresh(b: Bindings, op: Op, now: Instant): Option<Number> {
    if op.New? && BoundChannel(b, op.peer, now).None? then NextNumber(b, now) else None
  }

  function FreshAt(run: Run, i: nat): Option<Number>
    requires i < |run.ops| && |run.states| == |run.ops| + 1 == |run.times| + 1
  {
    Fresh(run.states[i], run.ops[i], run.times[i])
  }

  lemma StepKeepsValid(b: Bindings, op: Op, now: Instant)
    requires b.Valid()
    ensures Step(b, op, now).Valid()
  {
    NextIsFirstAvailable(b, now);
  }

  /** Numbers stay within 0x4000..=0x4FFF. */
  lemma {:induction false} NumbersInRange(run: Run, k: nat)
    requires IsRun(run) && k < |run.states|
    ensures run.states[k].Valid()
    ensures k < |run.ops| && FreshAt(run, k).Some? ==> InRange(FreshAt(run, k).value)
  {
    if k > 0 {
      NumbersInRange(run, k - 1);
      StepKeepsValid(run.states[k - 1], run.ops[k - 1], run.times[k - 1]);
    }
    NextIsFirstAvailable(run.states[k], if k < |run.ops| then run.times[k] else 0);
  }

  /** Operation `k` handed out `m`, or passed it because it was taken. */
  ghost predicate Considered(run: Run, k: nat, m: Number)
    requires k < |run.ops| && |run.states| == |run.ops| + 1 == |run.times| + 1
  {
    FreshAt(run, k).Some? &&
    (|| FreshAt(run, k).value == m
     || (&& !run.states[k].Available(m, run.times[k])
         && Rank(run.states[k].next, m) < Rank(run.states[k].next, FreshAt(run, k).value)))
  }

  /** One operation: `m`, still to come before `n`, is considered or is still to come before `n`. */
  lemma CursorMoves(run: Run, k: nat, n: Number, m: Number)
    requires IsRun(run) && k < |run.ops|
    requires InRange(n) && InRange(m)
    requires Rank(run.states[k].next, m) < Rank(run.states[k].next, n)
    ensures || Considered(run, k, m)
            || (&& FreshAt(run, k) != Some(n)
                && Rank(run.states[k + 1].next, m) < Rank(run.states[k + 1].next, n))
  {
    NumbersInRange(run, k);
    NextIsFirstAvailable(run.states[k], run.times[k]);
  }

  lemma {:induction false} StillToCome(run: Run, i: nat, k: nat, n: Number, m: Number)
    requires IsRun(run) && i < k <= |run.ops|
    requires FreshAt(run, i) == Some(n) && InRange(m) && m != n
    requires forall l :: i < l < k ==> !Considered(run, l, m)
    ensures InRange(n) && Rank(run.states[k].next, m) < Rank(run.states[k].next, n)
    decreases k
  {
    NumbersInRange(run, i);
    if k > i + 1 {
      StillToCome(run, i, k - 1, n, m);
      CursorMoves(run, k - 1, n, m);
    }
  }

  /**
   Between two fresh hand-outs of the same number, every other number was handed out too, or was
   taken when the cursor passed it: a number is reused as late as possible.
   */
  lemma RoundRobin(run: Run, i: nat, j: nat, n: Number, m: Number)
    requires IsRun(run) && i < j < |run.ops|
    requires FreshAt(run, i) == Some(n) && FreshAt(run, j) == Some(n)
    requires InRange(m) && m != n
    ensures exists k :: i < k <= j && Considered(run, k, m)
  {
    if forall k :: i < k < j ==> !Considered(run, k, m) {
      StillToCome(run, i, j, n, m);
      CursorMoves(run, j, n, m);
      assert Considered(run, j, m);
    }
  }
}
