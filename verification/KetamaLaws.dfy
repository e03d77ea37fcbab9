/** The laws of the ketama ring: termination and completeness, stickiness, consistent hashing, list order. */
module KetamaLaws {
  import opened Wrappers
  import opened Protocol
  import opened Ketama

  function ServersOf<T(==)>(points: seq<Point<T>>): set<T> {
    set p <- points :: p.server
  }

  // ---------- The fail-over chain ----------

  lemma {:induction false} ScanFinds<T>(points: seq<Point<T>>, start: nat, from: nat, end: nat, ok: T -> bool)
    requires start < |points| && from <= end <= |points| + 1
    ensures var r := Scan(points, start, from, end, ok); r.Some? ==> ok(r.value) && r.value in ServersOf(points)
    ensures Scan(points, start, from, end, ok).None? ==> forall i :: from <= i < end ==> !ok(ServerAt(points, start, i))
    decreases end - from
  {
    if from < end {
      ScanFinds(points, start, from + 1, end, ok);
    }
  }

  /** A walk of one full turn sees every server. */
  lemma FullTurn<T>(points: seq<Point<T>>, start: nat, from: nat, ok: T -> bool)
    requires start < |points| && from <= 1
    ensures var r := Scan(points, start, from, |points| + from, ok);
      && (r.Some? <==> exists s <- ServersOf(points) :: ok(s))
      && (r.Some? ==> ok(r.value) && r.value in ServersOf(points))
  {
    var n := |points|;
    ScanFinds(points, start, from, n + from, ok);
    if s :| s in ServersOf(points) && ok(s) {
      var i :| 0 <= i < n && points[i].server == s;
      var offset := if i >= start + from then i - start else i + n - start;
      assert ServerAt(points, start, offset) == s;
    }
  }

  lemma NextAfterFinds<T>(points: seq<Point<T>>, failed: T)
    requires points != []
    ensures NextAfter(points, failed).Some? <==> exists s <- ServersOf(points) :: s != failed
    ensures NextAfter(points, failed).Some? ==> NextAfter(points, failed).value in ServersOf(points) - {failed}
  {
    FullTurn(points, FirstPointOf(points, failed), 1, Other(failed));
  }

  lemma {:induction false} OrbitStays<T>(points: seq<Point<T>>, first: T, k: nat)
    requires points != [] && first in ServersOf(points)
    ensures Orbit(points, first, k).Some? ==> Orbit(points, first, k).value in ServersOf(points)
  {
    if k > 0 {
      OrbitStays(points, first, k - 1);
      if Orbit(points, first, k - 1).Some? {
        NextAfterFinds(points, Orbit(points, first, k - 1).value);
      }
    }
  }

  /** The chain is deterministic: from equal servers on it goes on alike. */
  lemma {:induction false} OrbitShift<T>(points: seq<Point<T>>, first: T, a: nat, b: nat, m: nat)
    requires points != [] && Orbit(points, first, a) == Orbit(points, first, b)
    ensures Orbit(points, first, a + m) == Orbit(points, first, b + m)
  {
    hide NextAfter;
    if m > 0 {
      OrbitShift(points, first, a, b, m - 1);
    }
  }

  /** Once the chain comes back to a server it holds only servers already seen. */
  lemma {:induction false} RepeatAddsNothing<T>(points: seq<Point<T>>, first: T, i: nat, n: nat, k: nat)
    returns (j: nat)
    requires points != [] && i < n && Orbit(points, first, i) == Orbit(points, first, n)
    ensures j < n && Orbit(points, first, j) == Orbit(points, first, k)
    decreases k
  {
    hide Orbit;
    if k < n {
      j := k;
    } else {
      OrbitShift(points, first, i, n, k - n);
      j := RepeatAddsNothing(points, first, i, n, k - (n - i));
    }
  }

  lemma HitIsUnique<T>(points: seq<Point<T>>, first: T, ok: T -> bool, a: nat, b: nat)
    requires points != [] && ChainHit(points, first, ok, a) && ChainHit(points, first, ok, b)
    ensures a == b
  {
  }

  lemma ChosenOnHit<T>(points: seq<Point<T>>, hash: u32, ok: T -> bool, k: nat)
    requires points != [] && ChainHit(points, points[Start(points, hash)].server, ok, k)
    ensures Chosen(points, hash, ok) == Orbit(points, points[Start(points, hash)].server, k)
  {
    var first := points[Start(points, hash)].server;
    var j: nat :| ChainHit(points, first, ok, j) && Chosen(points, hash, ok) == Orbit(points, first, j);
    HitIsUnique(points, first, ok, j, k);
  }

  /**
   Completeness: a server is chosen exactly when the ring has a healthy one, and it is a healthy
   server of the ring.
   */
  lemma ChosenIsHealthy<T>(points: seq<Point<T>>, hash: u32, ok: T -> bool)
    ensures Chosen(points, hash, ok).Some? <==> exists s <- ServersOf(points) :: ok(s)
    ensures Chosen(points, hash, ok).Some? ==>
              Chosen(points, hash, ok).value in ServersOf(points) && ok(Chosen(points, hash, ok).value)
  {
    if points != [] {
      var start := Start(points, hash);
      var first := points[start].server;
      FullTurn(points, start, 0, ok);
      if k: nat :| ChainHit(points, first, ok, k) {
        ChosenOnHit(points, hash, ok, k);
        OrbitStays(points, first, k);
      }
    }
  }

  /** Up to the hit the chain repeats no server: after a repetition it would never get there. */
  lemma NoRepeatBeforeHit<T>(points: seq<Point<T>>, first: T, ok: T -> bool, k: nat, i: nat, j: nat)
    requires points != [] && ChainHit(points, first, ok, k) && i < j <= k
    ensures Orbit(points, first, i) != Orbit(points, first, j)
  {
    hide Orbit;
    if Orbit(points, first, i) == Orbit(points, first, j) {
      OrbitShift(points, first, i, j, k - j);
    }
  }

  lemma {:induction false} DistinctFits<T>(s: seq<T>, all: set<T>)
    requires forall i, j :: 0 <= i < j < |s| ==> s[i] != s[j]
    requires forall x <- s :: x in all
    ensures |s| <= |all|
  {
    if s != [] {
      var n := |s| - 1;
      assert forall x <- s[..n] :: x in s && x != s[n];
      DistinctFits(s[..n], all - {s[n]});
    }
  }

  /** The chain finds a healthy server before it has tried every server once, or not at all. */
  lemma HitIsEarly<T>(points: seq<Point<T>>, first: T, ok: T -> bool, k: nat)
    requires points != [] && first in ServersOf(points) && ChainHit(points, first, ok, k)
    ensures k < |ServersOf(points)|
  {
    hide Orbit, NextAfter;
    var visited := seq(k + 1, j requires 0 <= j < k + 1 => Orbit(points, first, j).value);
    forall j | 0 <= j <= k ensures visited[j] in ServersOf(points) {
      OrbitStays(points, first, j);
    }
    forall i, j | 0 <= i < j <= k ensures visited[i] != visited[j] {
      NoRepeatBeforeHit(points, first, ok, k, i, j);
    }
    DistinctFits(visited, ServersOf(points));
  }

  /**
   Stickiness: a choice made on the chain depends only on the health of the servers up to the
   chosen one.
   */
  lemma ChoiceIsSticky<T>(points: seq<Point<T>>, hash: u32, ok: T -> bool, ok': T -> bool, k: nat)
    requires points != [] && ChainHit(points, points[Start(points, hash)].server, ok, k)
    requires forall j :: 0 <= j <= k ==>
      var s := Orbit(points, points[Start(points, hash)].server, j).value; ok'(s) == ok(s)
    ensures Chosen(points, hash, ok') == Chosen(points, hash, ok)
  {
    ChosenOnHit(points, hash, ok, k);
    assert ChainHit(points, points[Start(points, hash)].server, ok', k);
    ChosenOnHit(points, hash, ok', k);
  }

  // ---------- The owner of a hash ----------

  /** How far ahead of `hash` a point lies on the circle of 32-bit values. */
  function Distance(value: u32, hash: u32): nat {
    if value >= hash then value - hash else value + 0x1_0000_0000 - hash
  }

  /** The owner's point is the nearest at or after the hash. */
  lemma OwnerIsNearest<T>(points: seq<Point<T>>, hash: u32)
    requires points != [] && Sorted(points)
    ensures forall p <- points :: Distance(points[Start(points, hash)].value, hash) <= Distance(p.value, hash)
  {
    var n, k := |points|, LowerBound(points, hash);
    var start := if k == n then 0 else k;
    StartIs(points, hash);
    forall j | 0 <= j < n ensures Distance(points[start].value, hash) <= Distance(points[j].value, hash) {
      assert j < start ==> points[j].value < hash <= points[start].value;
      assert start < j ==> points[start].value <= points[j].value;
    }
  }

  lemma StartIs<T>(points: seq<Point<T>>, hash: u32)
    requires points != []
    ensures Start(points, hash) == if LowerBound(points, hash) == |points| then 0 else LowerBound(points, hash)
  {
    hide LowerBound;
    Wraps(LowerBound(points, hash), |points|);
  }

  lemma Wraps(k: nat, n: nat)
    requires k <= n && n > 0
    ensures k % n == if k == n then 0 else k
  {
  }

  lemma ChosenWhenAllHealthy<T>(points: seq<Point<T>>, hash: u32, ok: T -> bool)
    requires points != [] && forall s <- ServersOf(points) :: ok(s)
    ensures Chosen(points, hash, ok) == Some(points[Start(points, hash)].server)
  {
    assert ChainHit(points, points[Start(points, hash)].server, ok, 0);
    ChosenOnHit(points, hash, ok, 0);
  }

  // ---------- What is on a ring ----------

  predicate OnRing(md5: Md5, addr: bytes, value: u32) {
    exists k :: 0 <= k < POINTS_PER_SERVER && PointAt(md5, SplitHostPort(addr), k) == value
  }

  lemma {:induction false} RawHas(md5: Md5, servers: seq<bytes>)
    ensures forall p <- RawPoints(md5, servers) :: p.server < |servers| && OnRing(md5, servers[p.server], p.value)
    ensures forall i, v :: 0 <= i < |servers| && OnRing(md5, servers[i], v) ==> Point(v, i) in RawPoints(md5, servers)
  {
    hide PointAt, SplitHostPort;
    if servers != [] {
      var n := |servers| - 1;
      RawHas(md5, servers[..n]);
      var last := PointsOf<nat>(md5, servers[n], n);
      forall v | OnRing(md5, servers[n], v) ensures Point(v, n) in last {
        var k :| 0 <= k < POINTS_PER_SERVER && PointAt(md5, SplitHostPort(servers[n]), k) == v;
        assert last[k] == Point(v, n);
      }
    }
  }

  lemma SameElements<T>(a: seq<T>, b: seq<T>)
    requires multiset(a) == multiset(b)
    ensures |a| == |b| && forall x :: x in a <==> x in b
  {
    assert |multiset(a)| == |a| && |multiset(b)| == |b|;
    assert forall x :: x in a <==> x in multiset(a);
    assert forall x :: x in b <==> x in multiset(b);
  }

  /** A ring holds exactly the points of its servers' endpoints. */
  lemma RingHas(md5: Md5, servers: seq<bytes>, points: seq<Point<nat>>)
    requires IsRing(md5, servers, points)
    ensures |points| == POINTS_PER_SERVER * |servers|
    ensures forall p <- points :: p.server < |servers| && OnRing(md5, servers[p.server], p.value)
    ensures forall i: nat, v :: i < |servers| && OnRing(md5, servers[i], v) ==> Point(v, i) in points
  {
    SameElements(points, RawPoints(md5, servers));
    RawHas(md5, servers);
  }

  /** No two list entries share a point; in particular no two name the same endpoint. */
  ghost predicate NoCollisions(md5: Md5, servers: seq<bytes>) {
    forall i, j, v :: 0 <= i < j < |servers| ==> !(OnRing(md5, servers[i], v) && OnRing(md5, servers[j], v))
  }

  // ---------- Consistent hashing ----------

  /** The address that owns a hash when every server is healthy. */
  function Owner(servers: seq<bytes>, points: seq<Point<nat>>, hash: u32): bytes
    requires points != [] && forall p <- points :: p.server < |servers|
  {
    servers[points[Start(points, hash)].server]
  }

  /** `long` is `short` with `added` put in somewhere. */
  predicate Inserted(short: seq<bytes>, long: seq<bytes>, added: bytes, at: nat) {
    at <= |short| && long == short[..at] + [added] + short[at..]
  }

  /** Where an entry of the shorter list is in the longer one, and back. */
  function Up(at: nat, i: nat): nat {
    if i < at then i else i + 1
  }

  function Down(at: nat, i: nat): nat
    requires i != at
  {
    if i < at then i else i - 1
  }

  lemma UpPoint(md5: Md5, short: seq<bytes>, long: seq<bytes>, added: bytes, at: nat,
                p: seq<Point<nat>>, q: seq<Point<nat>>, x: Point<nat>)
    requires Inserted(short, long, added, at) && IsRing(md5, short, p) && IsRing(md5, long, q) && x in p
    ensures x.server < |short| && long[Up(at, x.server)] == short[x.server] && Point(x.value, Up(at, x.server)) in q
  {
    hide IsRing, OnRing;
    RingHas(md5, short, p);
    RingHas(md5, long, q);
  }

  lemma DownPoint(md5: Md5, short: seq<bytes>, long: seq<bytes>, added: bytes, at: nat,
                  p: seq<Point<nat>>, q: seq<Point<nat>>, x: Point<nat>)
    requires Inserted(short, long, added, at) && IsRing(md5, short, p) && IsRing(md5, long, q)
    requires x in q && x.server != at
    ensures x.server < |long| && Down(at, x.server) < |short|
    ensures short[Down(at, x.server)] == long[x.server] && Point(x.value, Down(at, x.server)) in p
  {
    hide IsRing, OnRing;
    RingHas(md5, short, p);
    RingHas(md5, long, q);
  }

  /** A point of the added server is no point of another, which therefore has another address. */
  lemma AddedIsApart(md5: Md5, short: seq<bytes>, long: seq<bytes>, added: bytes, at: nat, i: nat, v: u32)
    requires Inserted(short, long, added, at) && NoCollisions(md5, long) && i < |long| && i != at
    requires OnRing(md5, long[i], v)
    ensures !OnRing(md5, added, v) && long[i] != added
  {
    hide OnRing;
    assert long[at] == added;
  }

  /**
   The consistent-hashing law: adding a server to the list, anywhere, moves a hash only to the new
   server, and moves it exactly when one of the new points is nearer than the old owner's. Read
   from the longer list it says that removing a server moves only the hashes it owned.
   */
  lemma AddingMovesOnlyToTheNew(md5: Md5, short: seq<bytes>, long: seq<bytes>, added: bytes, at: nat,
                                p: seq<Point<nat>>, q: seq<Point<nat>>, hash: u32)
    requires Inserted(short, long, added, at) && p != [] && q != [] && NoCollisions(md5, long)
    requires IsRing(md5, short, p) && IsRing(md5, long, q)
    ensures (forall x <- p :: x.server < |short|) && (forall x <- q :: x.server < |long|)
    ensures Owner(long, q, hash) == added || Owner(long, q, hash) == Owner(short, p, hash)
    ensures Owner(long, q, hash) == added <==>
            exists v :: OnRing(md5, added, v) && Distance(v, hash) < Distance(p[Start(p, hash)].value, hash)
  {
    hide OnRing, Inserted, NoCollisions;
    RingHas(md5, short, p);
    RingHas(md5, long, q);
    OwnerIsNearest(p, hash);
    OwnerIsNearest(q, hash);
    hide IsRing, LowerBound, Start, Distance;
    var a, b := p[Start(p, hash)], q[Start(q, hash)];
    UpPoint(md5, short, long, added, at, p, q, a);
    assert at < |long| && long[at] == added by {
      InsertedAt(short, long, added, at);
    }
    forall v | OnRing(md5, added, v) ensures Distance(b.value, hash) <= Distance(v, hash) {
      assert Point(v, at) in q;
    }
    if b.server == at {
      AddedIsApart(md5, short, long, added, at, Up(at, a.server), a.value);
      SameDistance(a.value, b.value, hash);
    } else {
      DownPoint(md5, short, long, added, at, p, q, b);
      SameDistance(a.value, b.value, hash);
      AddedIsApart(md5, short, long, added, at, b.server, b.value);
      OneOwner(md5, long, Up(at, a.server), b.server, b.value);
    }
  }

  lemma InsertedAt(short: seq<bytes>, long: seq<bytes>, added: bytes, at: nat)
    requires Inserted(short, long, added, at)
    ensures at < |long| && long[at] == added
  {
  }

  lemma SameDistance(a: u32, b: u32, hash: u32)
    ensures Distance(a, hash) == Distance(b, hash) ==> a == b
  {
  }

  lemma OneOwner(md5: Md5, long: seq<bytes>, i: nat, j: nat, v: u32)
    requires NoCollisions(md5, long) && i < |long| && j < |long| && OnRing(md5, long[i], v) && OnRing(md5, long[j], v)
    ensures i == j
  {
    hide OnRing;
  }

  // ---------- Relabelling ----------

  function Relabel<T, U>(f: T -> U, points: seq<Point<T>>): (r: seq<Point<U>>)
    ensures |r| == |points|
    ensures forall i :: 0 <= i < |points| ==> r[i] == Point(points[i].value, f(points[i].server))
  {
    seq(|points|, i requires 0 <= i < |points| => Point(points[i].value, f(points[i].server)))
  }

  function MapOption<T, U>(f: T -> U, x: Option<T>): Option<U> {
    match x case None => None case Some(t) => Some(f(t))
  }

  ghost predicate InjectiveOn<T(!new), U>(f: T -> U, points: seq<Point<T>>) {
    forall s, t :: s in ServersOf(points) && t in ServersOf(points) && f(s) == f(t) ==> s == t
  }

  lemma {:induction false} RelabelScan<T(!new), U>(f: T -> U, points: seq<Point<T>>, start: nat, from: nat, end: nat,
                                                   ok: T -> bool, ok': U -> bool)
    requires start < |points| && from <= end <= |points| + 1
    requires forall s <- ServersOf(points) :: ok'(f(s)) == ok(s)
    ensures Scan(Relabel(f, points), start, from, end, ok') == MapOption(f, Scan(points, start, from, end, ok))
    decreases end - from
  {
    if from < end {
      RelabelScan(f, points, start, from + 1, end, ok, ok');
      assert ServerAt(points, start, from) in ServersOf(points);
    }
  }

  lemma {:induction false} RelabelLowerBound<T, U>(f: T -> U, points: seq<Point<T>>, hash: u32)
    ensures LowerBound(Relabel(f, points), hash) == LowerBound(points, hash)
  {
    if points != [] {
      RelabelLowerBound(f, points[1..], hash);
      assert Relabel(f, points)[1..] == Relabel(f, points[1..]);
    }
  }

  lemma FirstPointIs<T>(points: seq<Point<T>>, server: T, i: nat)
    requires i < |points| && points[i].server == server && forall j :: 0 <= j < i ==> points[j].server != server
    ensures FirstPointOf(points, server) == i
  {
    assert points[i] in points;
  }

  lemma RelabelFirstPoint<T(!new), U>(f: T -> U, points: seq<Point<T>>, s: T)
    requires s in ServersOf(points) && InjectiveOn(f, points)
    ensures FirstPointOf(Relabel(f, points), f(s)) == FirstPointOf(points, s)
  {
    var i := FirstPointOf(points, s);
    forall j | 0 <= j < i ensures Relabel(f, points)[j].server != f(s) {
      assert points[j].server in ServersOf(points);
    }
    FirstPointIs(Relabel(f, points), f(s), i);
  }

  lemma RelabelNextAfter<T(!new), U>(f: T -> U, points: seq<Point<T>>, s: T)
    requires s in ServersOf(points) && InjectiveOn(f, points)
    ensures NextAfter(Relabel(f, points), f(s)) == MapOption(f, NextAfter(points, s))
  {
    hide Scan, FirstPointOf;
    RelabelFirstPoint(f, points, s);
    RelabelScan(f, points, FirstPointOf(points, s), 1, |points| + 1, Other(s), Other(f(s)));
  }

  lemma {:induction false} RelabelOrbit<T(!new), U>(f: T -> U, points: seq<Point<T>>, first: T, k: nat)
    requires first in ServersOf(points) && InjectiveOn(f, points) && points != []
    ensures Orbit(Relabel(f, points), f(first), k) == MapOption(f, Orbit(points, first, k))
  {
    hide NextAfter;
    if k > 0 {
      RelabelOrbit(f, points, first, k - 1);
      OrbitStays(points, first, k - 1);
      if Orbit(points, first, k - 1).Some? {
        RelabelNextAfter(f, points, Orbit(points, first, k - 1).value);
      }
    }
  }

  lemma RelabelHit<T(!new), U>(f: T -> U, points: seq<Point<T>>, first: T, ok: T -> bool, ok': U -> bool, k: nat)
    requires first in ServersOf(points) && InjectiveOn(f, points) && points != []
    requires forall s <- ServersOf(points) :: ok'(f(s)) == ok(s)
    ensures ChainHit(Relabel(f, points), f(first), ok', k) <==> ChainHit(points, first, ok, k)
  {
    hide Orbit;
    forall j: nat ensures Orbit(Relabel(f, points), f(first), j) == MapOption(f, Orbit(points, first, j))
                       && (Orbit(points, first, j).Some? ==> Orbit(points, first, j).value in ServersOf(points)) {
      RelabelOrbit(f, points, first, j);
      OrbitStays(points, first, j);
    }
  }

  /** Selection commutes with renaming the servers, fail-over and fallback included. */
  lemma RelabelChosen<T(!new), U>(f: T -> U, points: seq<Point<T>>, hash: u32, ok: T -> bool, ok': U -> bool)
    requires InjectiveOn(f, points)
    requires forall s <- ServersOf(points) :: ok'(f(s)) == ok(s)
    ensures Chosen(Relabel(f, points), hash, ok') == MapOption(f, Chosen(points, hash, ok))
  {
    hide ChainHit, Orbit, Scan;
    if points != [] {
      RelabelLowerBound(f, points, hash);
      var start := Start(points, hash);
      var first := points[start].server;
      assert first in ServersOf(points);
      forall k: nat ensures ChainHit(Relabel(f, points), f(first), ok', k) <==> ChainHit(points, first, ok, k) {
        RelabelHit(f, points, first, ok, ok', k);
      }
      if k: nat :| ChainHit(points, first, ok, k) {
        ChosenOnHit(points, hash, ok, k);
        ChosenOnHit(Relabel(f, points), hash, ok', k);
        RelabelOrbit(f, points, first, k);
      } else {
        RelabelScan(f, points, start, 0, |points|, ok, ok');
      }
    }
  }

  // ---------- The order of the server list ----------

  /** How often `y` occurs in all that g yields over a sequence. */
  function Tally<T, U(==)>(g: T -> seq<U>, s: seq<T>, y: U): nat {
    if s == [] then 0 else multiset(g(s[0]))[y] + Tally(g, s[1..], y)
  }

  lemma {:induction false} TallyConcat<T, U>(g: T -> seq<U>, a: seq<T>, b: seq<T>, y: U)
    ensures Tally(g, a + b, y) == Tally(g, a, y) + Tally(g, b, y)
  {
    if a == [] {
      assert a + b == b;
    } else {
      TallyConcat(g, a[1..], b, y);
      assert (a + b)[1..] == a[1..] + b;
    }
  }

  lemma WithoutOne<T>(a: seq<T>, b: seq<T>) returns (x: seq<T>, y: seq<T>)
    requires a != [] && multiset(a) == multiset(b)
    ensures b == x + [a[0]] + y && multiset(a[1..]) == multiset(x + y)
  {
    SameElements(a, b);
    assert a[0] in a;
    var i :| 0 <= i < |b| && b[i] == a[0];
    x, y := b[..i], b[i + 1..];
    assert b == x + [a[0]] + y;
    assert [] + [a[0]] + a[1..] == a && [] + a[1..] == a[1..];
    Extracted([], a[0], a[1..]);
    Extracted(x, a[0], y);
  }

  lemma Extracted<T>(x: seq<T>, e: T, y: seq<T>)
    ensures multiset(x + y) == multiset(x + [e] + y) - multiset{e}
  {
  }

  lemma {:induction false} TallyPermuted<T, U>(g: T -> seq<U>, a: seq<T>, b: seq<T>, y: U)
    requires multiset(a) == multiset(b)
    ensures Tally(g, a, y) == Tally(g, b, y)
  {
    SameElements(a, b);
    if a != [] {
      var u, v := WithoutOne(a, b);
      TallyPermuted(g, a[1..], u + v, y);
      TallyConcat(g, u + [a[0]], v, y);
      TallyConcat(g, u, [a[0]], y);
      TallyConcat(g, u, v, y);
      assert [a[0]][1..] == [];
    }
  }

  function Renamed<T, U>(f: T -> U): Point<T> -> seq<Point<U>> {
    (p: Point<T>) => [Point(p.value, f(p.server))]
  }

  lemma {:induction false} RelabelTally<T, U>(f: T -> U, points: seq<Point<T>>, y: Point<U>)
    ensures multiset(Relabel(f, points))[y] == Tally(Renamed(f), points, y)
  {
    if points != [] {
      RelabelTally(f, points[1..], y);
      assert Relabel(f, points) == Renamed(f)(points[0]) + Relabel(f, points[1..]);
    }
  }

  function Address(servers: seq<bytes>): nat -> bytes {
    (i: nat) => if i < |servers| then servers[i] else []
  }

  function AddressPoints(md5: Md5): bytes -> seq<Point<bytes>> {
    (addr: bytes) => PointsOf(md5, addr, addr)
  }

  lemma RawSnoc(md5: Md5, init: seq<bytes>, last: bytes)
    ensures Relabel(Address(init + [last]), RawPoints(md5, init + [last]))
         == Relabel(Address(init), RawPoints(md5, init)) + PointsOf(md5, last, last)
  {
    hide PointAt, SplitHostPort;
    var all := init + [last];
    assert all[..|init|] == init;
    assert RawPoints(md5, all) == RawPoints(md5, init) + PointsOf<nat>(md5, last, |init|);
  }

  lemma {:induction false} RawTally(md5: Md5, servers: seq<bytes>, y: Point<bytes>)
    ensures multiset(Relabel(Address(servers), RawPoints(md5, servers)))[y] == Tally(AddressPoints(md5), servers, y)
  {
    hide Relabel, PointsOf, Address;
    if servers == [] {
      assert |Relabel(Address(servers), RawPoints(md5, servers))| == 0;
    } else {
      var n := |servers| - 1;
      var init, last := servers[..n], servers[n];
      assert servers == init + [last];
      RawTally(md5, init, y);
      RawSnoc(md5, init, last);
      TallyConcat(AddressPoints(md5), init, [last], y);
      assert [last][1..] == [];
      hide RawPoints;
    }
  }

  lemma LabelledRingTally(md5: Md5, s: seq<bytes>, p: seq<Point<nat>>, y: Point<bytes>)
    requires IsRing(md5, s, p)
    ensures multiset(Relabel(Address(s), p))[y] == Tally(AddressPoints(md5), s, y)
  {
    hide Relabel, Address, PointsOf, RawPoints, Sorted, Tally;
    TallyPermuted(Renamed(Address(s)), p, RawPoints(md5, s), y);
    RelabelTally(Address(s), p, y);
    RelabelTally(Address(s), RawPoints(md5, s), y);
    RawTally(md5, s, y);
  }

  /** Labelled by address, the rings of two orders of one list are permutations of each other. */
  lemma LabelledRingsPermuted(md5: Md5, s: seq<bytes>, t: seq<bytes>, p: seq<Point<nat>>, q: seq<Point<nat>>)
    requires multiset(s) == multiset(t) && IsRing(md5, s, p) && IsRing(md5, t, q)
    ensures multiset(Relabel(Address(s), p)) == multiset(Relabel(Address(t), q))
  {
    hide Relabel, Address, AddressPoints, Tally, IsRing;
    forall y ensures multiset(Relabel(Address(s), p))[y] == multiset(Relabel(Address(t), q))[y] {
      LabelledRingTally(md5, s, p, y);
      LabelledRingTally(md5, t, q, y);
      TallyPermuted(AddressPoints(md5), s, t, y);
    }
  }

  ghost predicate PointsTellServers<T>(points: seq<Point<T>>) {
    forall x, y :: x in points && y in points && x.value == y.value ==> x == y
  }

  /** A bag of points in which the value tells the server has one sorted order. */
  lemma {:induction false} SortedOrderIsUnique<T>(p: seq<Point<T>>, q: seq<Point<T>>)
    requires Sorted(p) && Sorted(q) && multiset(p) == multiset(q) && PointsTellServers(p)
    ensures p == q
  {
    SameElements(p, q);
    if p != [] {
      SortedTail(p);
      SortedTail(q);
      assert p[0] in q && q[0] in p;
      assert p[0].value == q[0].value;
      SameTail(p, q);
      hide Sorted;
      SortedOrderIsUnique(p[1..], q[1..]);
    }
  }

  lemma SameTail<T>(p: seq<T>, q: seq<T>)
    requires p != [] && q != [] && multiset(p) == multiset(q) && p[0] == q[0]
    ensures multiset(p[1..]) == multiset(q[1..]) && (forall x <- p[1..] :: x in p)
    ensures p[1..] == q[1..] ==> p == q
  {
    assert p == [p[0]] + p[1..] && q == [q[0]] + q[1..];
    assert multiset(p[1..]) == multiset(p) - multiset{p[0]} == multiset(q[1..]);
  }

  lemma SortedTail<T>(p: seq<Point<T>>)
    requires Sorted(p) && p != []
    ensures Sorted(p[1..]) && forall x <- p :: p[0].value <= x.value
  {
  }

  lemma DistinctPoints(md5: Md5, s: seq<bytes>, p: seq<Point<nat>>)
    requires IsRing(md5, s, p) && NoCollisions(md5, s)
    ensures PointsTellServers(Relabel(Address(s), p)) && InjectiveOn(Address(s), p)
  {
    hide OnRing, RawPoints;
    RingHas(md5, s, p);
    forall i, j | i in ServersOf(p) && j in ServersOf(p) && Address(s)(i) == Address(s)(j) ensures i == j {
      var k :| 0 <= k < |p| && p[k].server == i;
      assert OnRing(md5, s[i], p[k].value) && OnRing(md5, s[j], p[k].value);
    }
  }

  /**
   The order of the list does not matter: with no collisions, selecting on a ring of a permuted
   list gives the same address for every hash and every health of the addresses, on the primary
   path, along the fail-over chain and in the fallback.
   */
  lemma ListOrderIsIrrelevant(md5: Md5, s: seq<bytes>, t: seq<bytes>, p: seq<Point<nat>>, q: seq<Point<nat>>,
                              hash: u32, up: bytes -> bool, ok: nat -> bool, ok': nat -> bool)
    requires multiset(s) == multiset(t) && NoCollisions(md5, s) && NoCollisions(md5, t)
    requires IsRing(md5, s, p) && IsRing(md5, t, q)
    requires forall i :: 0 <= i < |s| ==> ok(i) == up(s[i])
    requires forall i :: 0 <= i < |t| ==> ok'(i) == up(t[i])
    ensures MapOption(Address(s), Chosen(p, hash, ok)) == MapOption(Address(t), Chosen(q, hash, ok'))
  {
    hide Chosen, OnRing, RawPoints, NoCollisions;
    RingHas(md5, s, p);
    RingHas(md5, t, q);
    DistinctPoints(md5, s, p);
    DistinctPoints(md5, t, q);
    LabelledRingsPermuted(md5, s, t, p, q);
    SortedOrderIsUnique(Relabel(Address(s), p), Relabel(Address(t), q));
    RelabelChosen(Address(s), p, hash, ok, up);
    RelabelChosen(Address(t), q, hash, ok', up);
  }

  function ServerIn(): Point<nat> -> seq<nat> {
    (p: Point<nat>) => [p.server]
  }

  /** Every server has exactly sixteen points on a ring. */
  lemma SixteenPointsEach(md5: Md5, servers: seq<bytes>, points: seq<Point<nat>>, i: nat)
    requires IsRing(md5, servers, points)
    ensures Tally(ServerIn(), points, i) == if i < |servers| then 16 else 0
  {
    TallyPermuted(ServerIn(), points, RawPoints(md5, servers), i);
    RawCounts(md5, servers, i);
  }

  lemma {:induction false} RawCounts(md5: Md5, servers: seq<bytes>, i: nat)
    ensures Tally(ServerIn(), RawPoints(md5, servers), i) == if i < |servers| then POINTS_PER_SERVER else 0
  {
    if servers != [] {
      var n := |servers| - 1;
      RawCounts(md5, servers[..n], i);
      TallyConcat(ServerIn(), RawPoints(md5, servers[..n]), PointsOf<nat>(md5, servers[n], n), i);
      SameServer(PointsOf<nat>(md5, servers[n], n), n, i);
    }
  }

  lemma {:induction false} SameServer(points: seq<Point<nat>>, n: nat, i: nat)
    requires forall p <- points :: p.server == n
    ensures Tally(ServerIn(), points, i) == if i == n then |points| else 0
  {
    if points != [] {
      SameServer(points[1..], n, i);
    }
  }
}
