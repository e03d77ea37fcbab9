/**
 Which server a walk round the ring finds (src/client/ketama.rs:81-98): by position from where it
 starts, and by the values of the points.
 */
module KetamaOrder {
  import opened Wrappers
  import opened Protocol
  import opened Ketama
  import opened KetamaLaws

  /** The d-th point on from position i, round the ring. */
  function On<T>(points: seq<Point<T>>, i: nat, d: nat): Point<T>
    requires points != []
  {
    points[(i + d) % |points|]
  }

  lemma Position(start: nat, d: nat, n: nat)
    requires start < n && d <= n
    ensures (start + d) % n == if start + d < n then start + d else start + d - n
  {
    if start + d >= n {
      Wraps(start + d - n, n);
      assert (start + d) % n == (start + d - n) % n;
    } else {
      Wraps(start + d, n);
    }
  }

  lemma ServerAtIs<T>(points: seq<Point<T>>, start: nat, d: nat)
    requires start < |points| && d <= |points|
    ensures ServerAt(points, start, d) == On(points, start, d).server
  {
    Position(start, d, |points|);
  }

  /** The d-th point on is the first, from the from-th, whose server is ok. */
  predicate FirstOk<T>(points: seq<Point<T>>, start: nat, from: nat, d: nat, ok: T -> bool)
    requires points != []
  {
    from <= d && ok(On(points, start, d).server) && forall k :: from <= k < d ==> !ok(On(points, start, k).server)
  }

  lemma {:induction false} ScanIsFirst<T>(points: seq<Point<T>>, start: nat, from: nat, end: nat, ok: T -> bool)
    returns (d: nat)
    requires start < |points| && from <= end <= |points| + 1
    ensures var r := Scan(points, start, from, end, ok);
      && (r.Some? ==> d < end && FirstOk(points, start, from, d, ok) && r.value == On(points, start, d).server)
      && (r.None? ==> forall k :: from <= k < end ==> !ok(On(points, start, k).server))
    decreases end - from
  {
    hide On;
    d := from;
    if from < end {
      ServerAtIs(points, start, from);
      if !ok(ServerAt(points, start, from)) {
        d := ScanIsFirst(points, start, from + 1, end, ok);
      }
    }
  }

  // ---------- The fail-over step ----------

  /** Position i is the failed server's first on the ring. */
  predicate FirstOf<T(==)>(points: seq<Point<T>>, failed: T, i: nat) {
    i < |points| && points[i].server == failed && forall j :: 0 <= j < i ==> points[j].server != failed
  }

  /** The d-th point on is the first past position i whose server is another one. */
  predicate NextOther<T(==)>(points: seq<Point<T>>, failed: T, i: nat, d: nat)
    requires points != []
  {
    && 1 <= d <= |points| && On(points, i, d).server != failed
    && forall k :: 1 <= k < d ==> On(points, i, k).server == failed
  }

  /**
   The fail-over step takes the server of the first point past the failed server's first one that
   is not the failed server's own; there is none only if no other server is on the ring.
   */
  lemma NextAfterIsNext<T>(points: seq<Point<T>>, failed: T, i: nat) returns (d: nat)
    requires FirstOf(points, failed, i)
    ensures var r := NextAfter(points, failed);
      && (r.Some? ==> NextOther(points, failed, i, d) && r.value == On(points, i, d).server)
      && (r.None? ==> forall p <- points :: p.server == failed)
  {
    assert FirstPointOf(points, failed) == i by {
      assert points[i] in points;
    }
    var n := |points|;
    d := ScanIsFirst(points, i, 1, n + 1, Other(failed));
    if NextAfter(points, failed).None? {
      forall p | p in points ensures p.server == failed {
        var j: nat :| j < n && points[j] == p;
        Reaches(points, i, j);
      }
    }
  }

  lemma Reaches<T>(points: seq<Point<T>>, i: nat, j: nat)
    requires i < |points| && j < |points|
    ensures On(points, i, if j > i then j - i else j + |points| - i) == points[j]
    ensures On(points, i, if j >= i then j - i else j + |points| - i) == points[j]
  {
    var n := |points|;
    Position(i, if j > i then j - i else j + n - i, n);
    Position(i, if j >= i then j - i else j + n - i, n);
  }

  // ---------- The fallback ----------

  /** Going on from the hash's first point, the distance from the hash never falls. */
  lemma FurtherOn<T>(points: seq<Point<T>>, hash: u32, k: nat, d: nat)
    requires points != [] && Sorted(points) && k <= d < |points|
    ensures var start := Start(points, hash);
      Distance(On(points, start, k).value, hash) <= Distance(On(points, start, d).value, hash)
  {
    var n, start := |points|, Start(points, hash);
    StartIs(points, hash);
    Position(start, k, n);
    Position(start, d, n);
    Rises(points, hash, start, k, d);
  }

  lemma Rises<T>(points: seq<Point<T>>, hash: u32, start: nat, k: nat, d: nat)
    requires Sorted(points) && start < |points| && k <= d < |points|
    requires forall i :: 0 <= i < start ==> points[i].value < hash
    requires start > 0 ==> points[start].value >= hash
    requires start == 0 ==> points[0].value >= hash || forall i :: 0 <= i < |points| ==> points[i].value < hash
    ensures var n := |points|;
      var a := points[if start + k < n then start + k else start + k - n];
      var b := points[if start + d < n then start + d else start + d - n];
      Distance(a.value, hash) <= Distance(b.value, hash)
  {
  }

  lemma FirstIsNearest<T>(points: seq<Point<T>>, hash: u32, ok: T -> bool, d: nat, q: Point<T>)
    requires points != [] && Sorted(points) && d < |points|
    requires FirstOk(points, Start(points, hash), 0, d, ok) && q in points && ok(q.server)
    ensures Distance(On(points, Start(points, hash), d).value, hash) <= Distance(q.value, hash)
  {
    var start, n := Start(points, hash), |points|;
    hide Start, Distance, On, Sorted;
    var j: nat :| j < n && points[j] == q;
    var k := if j >= start then j - start else j + n - start;
    Reaches(points, start, j);
    assert d <= k;
    FurtherOn(points, hash, d, k);
  }

  /**
   When no server of the chain is healthy, the choice is the first healthy server in ring order
   from the hash, and no healthy server owns a nearer point at or after the hash.
   */
  lemma FallbackIsNearest<T>(points: seq<Point<T>>, hash: u32, ok: T -> bool) returns (d: nat)
    requires points != [] && Sorted(points)
    requires forall k: nat :: !ChainHit(points, points[Start(points, hash)].server, ok, k)
    ensures var r, start := Chosen(points, hash, ok), Start(points, hash);
      r.Some? ==>
        && d < |points| && r.value == On(points, start, d).server && FirstOk(points, start, 0, d, ok)
        && forall q <- points | ok(q.server) :: Distance(On(points, start, d).value, hash) <= Distance(q.value, hash)
  {
    d := ScanIsFirst(points, Start(points, hash), 0, |points|, ok);
    assert Chosen(points, hash, ok) == Scan(points, Start(points, hash), 0, |points|, ok);
    hide Chosen, ChainHit, Scan, Start, Distance, On, FirstOk;
    if Scan(points, Start(points, hash), 0, |points|, ok).Some? {
      forall q | q in points && ok(q.server)
        ensures Distance(On(points, Start(points, hash), d).value, hash) <= Distance(q.value, hash)
      {
        FirstIsNearest(points, hash, ok, d, q);
      }
    }
  }
}
