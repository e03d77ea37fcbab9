/** Building the ring and selecting on it, as the loops of src/client/ketama.rs do. */
module KetamaRing {
  import opened Wrappers
  import opened Protocol
  import opened Decimal
  import opened Ketama
  import opened KetamaLaws

  /** Sorts by value; as with any unstable sort, callers know nothing of the order of equal values. */
  method SortUnstableByKey<T>(points: seq<Point<T>>) returns (sorted: seq<Point<T>>)
    ensures Sorted(sorted) && multiset(sorted) == multiset(points)
  {
    sorted := [];
    for i := 0 to |points|
      invariant Sorted(sorted) && multiset(sorted) == multiset(points[..i])
    {
      var at := PartitionPoint(sorted, points[i].value);
      InsertionKeepsOrder(sorted, points[i], at);
      InsertionAddsOne(sorted, points[i], at);
      assert points[..i + 1] == points[..i] + [points[i]];
      sorted := sorted[..at] + [points[i]] + sorted[at..];
    }
    assert points[..|points|] == points;
  }

  lemma InsertionKeepsOrder<T>(s: seq<Point<T>>, x: Point<T>, at: nat)
    requires Sorted(s) && at == LowerBound(s, x.value)
    ensures Sorted(s[..at] + [x] + s[at..])
  {
    assert forall i :: at <= i < |s| ==> x.value <= s[i].value;
    hide LowerBound;
    SortedAround(s[..at], x, s[at..]);
  }

  lemma SortedAround<T>(front: seq<Point<T>>, x: Point<T>, back: seq<Point<T>>)
    requires Sorted(front) && Sorted(back)
    requires (forall p <- front :: p.value <= x.value) && (forall p <- back :: x.value <= p.value)
    ensures Sorted(front + [x] + back)
  {
    var t := front + [x] + back;
    forall i, j | 0 <= i < j < |t| ensures t[i].value <= t[j].value {
      assert i < |front| ==> t[i] == front[i] && t[i] in front;
      assert j > |front| ==> t[j] == back[j - |front| - 1] && t[j] in back;
      assert i > |front| ==> t[i] == back[i - |front| - 1];
      assert j < |front| ==> t[j] == front[j];
    }
  }

  lemma InsertionAddsOne<T>(s: seq<T>, x: T, at: nat)
    requires at <= |s|
    ensures multiset(s[..at] + [x] + s[at..]) == multiset(s) + multiset{x}
  {
    Extracted(s[..at], x, s[at..]);
    assert s[..at] + s[at..] == s;
  }

  lemma {:induction false} LowerBoundIs<T>(points: seq<Point<T>>, hash: u32, k: nat)
    requires k <= |points| && forall i :: 0 <= i < k ==> points[i].value < hash
    requires k < |points| ==> points[k].value >= hash
    ensures LowerBound(points, hash) == k
  {
    if k > 0 {
      LowerBoundIs(points[1..], hash, k - 1);
    }
  }

  /** The number of points before `hash`, by binary search. */
  method PartitionPoint<T>(points: seq<Point<T>>, hash: u32) returns (k: nat)
    requires Sorted(points)
    ensures k == LowerBound(points, hash)
  {
    var lo, hi := 0, |points|;
    while lo < hi
      invariant lo <= hi <= |points|
      invariant forall i :: 0 <= i < lo ==> points[i].value < hash
      invariant forall i :: hi <= i < |points| ==> points[i].value >= hash
    {
      var mid := lo + (hi - lo) / 2;
      if points[mid].value < hash {
        lo := mid + 1;
      } else {
        hi := mid;
      }
    }
    LowerBoundIs(points, hash, lo);
    return lo;
  }

  lemma RawPointsSnoc(md5: Md5, init: seq<bytes>, last: bytes)
    ensures RawPoints(md5, init + [last]) == RawPoints(md5, init) + PointsOf<nat>(md5, last, |init|)
  {
    hide PointsOf;
    assert (init + [last])[..|init|] == init;
  }

  lemma PointOfChunk(md5: Md5, addr: bytes, index: nat, replica: nat, chunk: nat)
    requires replica < REPLICAS_PER_SERVER && chunk < 4
    ensures var digest := md5(Key(SplitHostPort(addr), replica));
      PointsOf<nat>(md5, addr, index)[4 * replica + chunk] == Point(FromLE32(digest[4 * chunk..4 * chunk + 4]), index)
  {
    assert (4 * replica + chunk) / 4 == replica && (4 * replica + chunk) % 4 == chunk;
    hide FromLE32;
  }

  class Ring {
    const md5: Md5
    ghost const servers: seq<bytes>
    const points: seq<Point<nat>>

    ghost predicate Valid() {
      IsRing(md5, servers, points)
    }

    constructor (md5: Md5, servers: seq<bytes>, points: seq<Point<nat>>)
      requires IsRing(md5, servers, points)
      ensures Valid() && this.md5 == md5 && this.servers == servers && this.points == points
    {
      this.md5, this.servers, this.points := md5, servers, points;
    }

    static method New(md5: Md5, servers: seq<bytes>) returns (ring: Ring)
      ensures fresh(ring) && ring.Valid() && ring.md5 == md5 && ring.servers == servers
    {
      hide PointsOf;
      var points: seq<Point<nat>> := [];
      for index := 0 to |servers|
        invariant points == RawPoints(md5, servers[..index])
      {
        RawPointsSnoc(md5, servers[..index], servers[index]);
        assert servers[..index + 1] == servers[..index] + [servers[index]];
        points := PushPoints(md5, servers[index], index, points);
      }
      assert servers[..|servers|] == servers;
      points := SortUnstableByKey(points);
      ring := new Ring(md5, servers, points);
    }

    static method PushPoints(md5: Md5, addr: bytes, index: nat, before: seq<Point<nat>>)
      returns (points: seq<Point<nat>>)
      ensures points == before + PointsOf<nat>(md5, addr, index)
    {
      hide PointsOf, PointAt;
      points := before;
      var endpoint := SplitHostPort(addr);
      ghost var mine := PointsOf<nat>(md5, addr, index);
      for replica := 0 to REPLICAS_PER_SERVER
        invariant points == before + mine[..4 * replica]
      {
        var digest := md5(Key(endpoint, replica));
        for chunk := 0 to 4
          invariant points == before + mine[..4 * replica + chunk]
        {
          var k := 4 * replica + chunk;
          PointOfChunk(md5, addr, index, replica, chunk);
          PrefixNext(mine, k);
          Assoc(before, mine[..k], [mine[k]]);
          points := points + [Point(FromLE32(digest[4 * chunk..4 * chunk + 4]), index)];
        }
      }
    }

    /** The first healthy server of the chain, else the first in ring order, else none. */
    method Select(unique: bytes, healthy: nat -> bool) returns (r: Option<nat>)
      requires Valid()
      ensures r == Chosen(points, HashOf(md5, unique), healthy)
    {
      if points == [] {
        return None;
      }
      var len := |points|;
      var hash := HashOf(md5, unique);
      var start := PartitionPoint(points, hash);
      start := start % len;
      r := WalkChain(points[start].server, healthy);
      ghost var first := points[start].server;
      if r.Some? {
        ghost var k: nat :| ChainHit(points, first, healthy, k) && r == Orbit(points, first, k);
        ChosenOnHit(points, hash, healthy, k);
        return;
      }
      r := ScanFrom(start, healthy);
    }

    /** The loop over the fail-over chain, cut off when it comes back to a server already tried. */
    method WalkChain(first: nat, healthy: nat -> bool) returns (r: Option<nat>)
      requires points != [] && first in ServersOf(points)
      ensures r.Some? ==> exists k: nat :: ChainHit(points, first, healthy, k) && r == Orbit(points, first, k)
      ensures r.None? ==> forall k: nat :: !ChainHit(points, first, healthy, k)
    {
      hide Orbit, NextAfter;
      assert Orbit(points, first, 0) == Some(first) by {
        OrbitStart(points, first);
      }
      var candidate := first;
      var tried: seq<nat> := [];
      while candidate !in tried
        invariant candidate in ServersOf(points) && Orbit(points, first, |tried|) == Some(candidate)
        invariant forall j :: 0 <= j < |tried| ==> Orbit(points, first, j) == Some(tried[j]) && !healthy(tried[j])
        invariant forall i, j :: 0 <= i < j < |tried| ==> tried[i] != tried[j]
        invariant forall s <- tried :: s in ServersOf(points)
        decreases |ServersOf(points)| - |tried|
      {
        if healthy(candidate) {
          assert ChainHit(points, first, healthy, |tried|);
          return Some(candidate);
        }
        tried := tried + [candidate];
        DistinctFits(tried, ServersOf(points));
        var next := FindNextAfter(candidate);
        OrbitStep(points, first, |tried|);
        NextAfterFinds(points, candidate);
        if next.None? {
          NoHitPastTheEnd(first, healthy, |tried|);
          return None;
        }
        candidate := next.value;
      }
      var i: nat :| i < |tried| && tried[i] == candidate;
      NoHitAfterRepeat(first, healthy, i, |tried|);
      return None;
    }

    lemma NoHitAfterRepeat(first: nat, healthy: nat -> bool, i: nat, n: nat)
      requires points != [] && i < n && Orbit(points, first, i) == Orbit(points, first, n)
      requires forall j: nat :: j < n ==> Orbit(points, first, j).Some? && !healthy(Orbit(points, first, j).value)
      ensures forall k: nat :: !ChainHit(points, first, healthy, k)
    {
      hide Orbit;
      forall k: nat ensures !ChainHit(points, first, healthy, k) {
        var j := RepeatAddsNothing(points, first, i, n, k);
      }
    }

    lemma NoHitPastTheEnd(first: nat, healthy: nat -> bool, n: nat)
      requires points != [] && Orbit(points, first, n).None?
      requires forall j: nat :: j < n ==> Orbit(points, first, j).Some? && !healthy(Orbit(points, first, j).value)
      ensures forall k: nat :: !ChainHit(points, first, healthy, k)
    {
    }

    method FindNextAfter(failed: nat) returns (r: Option<nat>)
      requires points != []
      ensures r == NextAfter(points, failed)
    {
      var len := |points|;
      var after := 0;
      while after < len && points[after].server != failed
        invariant after <= len && forall j :: 0 <= j < after ==> points[j].server != failed
      {
        after := after + 1;
      }
      if after == len {
        after := 0;
      } else {
        FirstPointIs(points, failed, after);
      }
      for offset := 1 to len + 1
        invariant NextAfter(points, failed) == Scan(points, after, offset, len + 1, Other(failed))
      {
        WrapIsMod(after + offset, len);
        var server := points[(after + offset) % len].server;
        if server != failed {
          return Some(server);
        }
      }
      return None;
    }

    method ScanFrom(start: nat, healthy: nat -> bool) returns (r: Option<nat>)
      requires start < |points|
      ensures r == Scan(points, start, 0, |points|, healthy)
    {
      for offset := 0 to |points|
        invariant Scan(points, start, 0, |points|, healthy) == Scan(points, start, offset, |points|, healthy)
      {
        WrapIsMod(start + offset, |points|);
        var server := points[(start + offset) % |points|].server;
        if healthy(server) {
          return Some(server);
        }
      }
      return None;
    }
  }

  lemma OrbitStart<T>(points: seq<Point<T>>, first: T)
    requires points != []
    ensures Orbit(points, first, 0) == Some(first)
  {
  }

  lemma OrbitStep<T>(points: seq<Point<T>>, first: T, k: nat)
    requires points != [] && k > 0 && Orbit(points, first, k - 1).Some?
    ensures Orbit(points, first, k) == NextAfter(points, Orbit(points, first, k - 1).value)
  {
  }

  lemma WrapIsMod(i: nat, len: nat)
    requires i < 2 * len
    ensures i % len == if i < len then i else i - len
  {
  }
}
