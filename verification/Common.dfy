/** Vocabulary shared by all models: optional values, time, addresses, and counting lemmas. */
module Common {

  datatype Option<+T> = None | Some(value: T)

  datatype Result<+T, +E> = Success(value: T) | Failure(error: E)

  /** A point on the (monotone) clock, in nanoseconds. */
  type Instant = int

  const SECOND: int := 1_000_000_000

  datatype Family = V4 | V6

  datatype IpAddr = IpAddr(family: Family, bits: nat)

  datatype SocketAddr = SocketAddr(ip: IpAddr, port: nat) {
    function Family(): Family { ip.family }
  }

  ghost predicate Injective<K, V>(m: map<K, V>) {
    forall x, y :: x in m && y in m && m[x] == m[y] ==> x == y
  }

  /** A map without repeated values has as many values as keys. */
  lemma {:induction false} InjectiveSize<K, V>(m: map<K, V>, image: set<V>)
    requires Injective(m)
    requires forall x :: x in m ==> m[x] in image
    requires forall v :: v in image ==> exists x :: x in m && m[x] == v
    ensures |m| == |image|
    decreases |m|
  {
    if m.Keys == {} {
      assert image == {};
    } else {
      var x :| x in m;
      var rest := m - {x};
      assert m.Keys == rest.Keys + {x};
      forall v | v in image - {m[x]}
        ensures exists y :: y in rest && rest[y] == v
      {
        var y :| y in m && m[y] == v;
        assert y in rest;
      }
      InjectiveSize(rest, image - {m[x]});
    }
  }

  ghost predicate Distinct<T>(s: seq<T>) {
    forall i, j :: 0 <= i < j < |s| ==> s[i] != s[j]
  }

  lemma HeadIn<T>(s: seq<T>)
    ensures s != [] ==> s[0] in s
  {
  }

  lemma DistinctSnoc<T>(s: seq<T>, x: T)
    requires Distinct(s) && x !in s
    ensures Distinct(s + [x])
  {
  }

  lemma {:induction false} SubsetSize<T>(a: set<T>, b: set<T>)
    requires a <= b
    ensures |a| <= |b|
    decreases |a|
  {
    if a != {} {
      var x :| x in a;
      SubsetSize(a - {x}, b - {x});
    }
  }

  /** Pigeonhole: a set holding all of lo..=hi has at least hi+1-lo elements. */
  lemma {:induction false} Pigeonhole(used: set<int>, lo: int, hi: int)
    requires forall p :: lo <= p <= hi ==> p in used
    ensures hi + 1 - lo <= |used|
    decreases hi + 1 - lo
  {
    if lo <= hi {
      Pigeonhole(used - {hi}, lo, hi - 1);
    }
  }
}
