/**
 Colliding points. The sort of src/client/ketama.rs:40 is unstable, so a server list has one ring
 for each order of its equal points; whether that shows depends on which servers share a point.
 */
module KetamaTies {
  import opened Wrappers
  import opened Protocol
  import opened Decimal
  import opened Ketama
  import opened KetamaLaws
  import opened KetamaRing

  /** The list position that owns a hash when every server is healthy. */
  function OwnerIndex(points: seq<Point<nat>>, hash: u32): nat
    requires points != []
  {
    points[Start(points, hash)].server
  }

  lemma {:induction false} SortedOrderExists<T>(points: seq<Point<T>>) returns (s: seq<Point<T>>)
    ensures Sorted(s) && multiset(s) == multiset(points)
    decreases |points|
  {
    if points == [] {
      s := [];
    } else {
      var n := |points| - 1;
      var t := SortedOrderExists(points[..n]);
      var at := LowerBound(t, points[n].value);
      InsertionKeepsOrder(t, points[n], at);
      InsertionAddsOne(t, points[n], at);
      assert points == points[..n] + [points[n]];
      s := t[..at] + [points[n]] + t[at..];
    }
  }

  /** Any of several equal points can come first. */
  lemma TieBroken<T>(r: seq<Point<T>>, k: nat) returns (p: seq<Point<T>>)
    requires Sorted(r) && k < |r|
    ensures Sorted(p) && multiset(p) == multiset(r) && p != [] && p[Start(p, r[k].value)] == r[k]
  {
    var x, v := r[k], r[k].value;
    var lb := LowerBound(r, v);
    var front, ties, back := r[..lb], r[lb..k], r[k + 1..];
    TieSplits(r, lb, k);
    p := front + [x] + ties + back;
    SameBag(front, ties, back, x);
    TieIsSorted(front, ties, back, x);
    BelowTie(front, x, ties, back, v);
    hide Sorted, LowerBound;
    LowerBoundIs(p, v, lb);
    Wraps(lb, |p|);
  }

  lemma BelowTie<T>(front: seq<Point<T>>, x: Point<T>, ties: seq<Point<T>>, back: seq<Point<T>>, v: u32)
    requires (forall t <- front :: t.value < v) && x.value == v
    ensures var p := front + [x] + ties + back;
      p[|front|] == x && forall i :: 0 <= i < |front| ==> p[i].value < v
  {
    var p := front + [x] + ties + back;
    forall i | 0 <= i < |front| ensures p[i].value < v {
      assert p[i] == front[i] && front[i] in front;
    }
  }

  lemma TieSplits<T>(r: seq<Point<T>>, lb: nat, k: nat)
    requires Sorted(r) && lb <= k < |r| && (forall i :: lb <= i < |r| ==> r[lb].value <= r[i].value)
    requires r[lb].value >= r[k].value
    ensures r == r[..lb] + r[lb..k] + [r[k]] + r[k + 1..]
    ensures forall t <- r[lb..k] :: t.value == r[k].value
  {
  }

  lemma SameBag<T>(front: seq<T>, ties: seq<T>, back: seq<T>, x: T)
    ensures multiset(front + [x] + ties + back) == multiset(front + ties + [x] + back)
  {
    Assoc(front + [x], ties, back);
    Extracted(front, x, ties + back);
    Extracted(front + ties, x, back);
    Assoc(front, ties, back);
  }

  lemma TieIsSorted<T>(front: seq<Point<T>>, ties: seq<Point<T>>, back: seq<Point<T>>, x: Point<T>)
    requires Sorted(front + ties + [x] + back) && forall t <- ties :: t.value == x.value
    ensures Sorted(front + [x] + ties + back)
  {
    var r, p := front + ties + [x] + back, front + [x] + ties + back;
    forall i | 0 <= i < |p| ensures p[i].value == r[i].value {
      var f, n := |front|, |ties|;
      assert i < f ==> p[i] == r[i] == front[i];
      assert i == f ==> p[i] == x && r[i] == if n == 0 then x else ties[0];
      assert f < i <= f + n ==> p[i] == ties[i - f - 1] && r[i] == if i == f + n then x else ties[i - f];
      assert f + n < i ==> p[i] == r[i] == back[i - f - n - 1];
    }
  }

  lemma SharedPointSplits(md5: Md5, servers: seq<bytes>, i: nat, j: nat, v: u32)
    returns (p: seq<Point<nat>>, q: seq<Point<nat>>)
    requires i < j < |servers| && OnRing(md5, servers[i], v) && OnRing(md5, servers[j], v)
    ensures IsRing(md5, servers, p) && IsRing(md5, servers, q) && p != [] && q != []
    ensures OwnerIndex(p, v) == i && OwnerIndex(q, v) == j
  {
    hide OnRing, Sorted;
    var r := SortedOrderExists(RawPoints(md5, servers));
    RingHas(md5, servers, r);
    assert Point(v, i) in r && Point(v, j) in r;
    var a: nat :| a < |r| && r[a] == Point(v, i);
    var b: nat :| b < |r| && r[b] == Point(v, j);
    p := TieBroken(r, a);
    q := TieBroken(r, b);
  }

  lemma OneOwnerOnAllRings(md5: Md5, servers: seq<bytes>, p: seq<Point<nat>>, q: seq<Point<nat>>, hash: u32)
    requires NoCollisions(md5, servers) && IsRing(md5, servers, p) && IsRing(md5, servers, q) && p != [] && q != []
    ensures OwnerIndex(p, hash) == OwnerIndex(q, hash)
  {
    hide OnRing, RawPoints, NoCollisions;
    RingHas(md5, servers, p);
    RingHas(md5, servers, q);
    SameElements(p, q);
    OwnerIsNearest(p, hash);
    OwnerIsNearest(q, hash);
    var a, b := p[Start(p, hash)], q[Start(q, hash)];
    assert b in p && a in q;
    SameDistance(a.value, b.value, hash);
    OneOwner(md5, servers, a.server, b.server, a.value);
  }

  ghost predicate RingsAgree(md5: Md5, servers: seq<bytes>) {
    forall p, q, hash :: IsRing(md5, servers, p) && IsRing(md5, servers, q) && p != [] && q != [] ==>
      OwnerIndex(p, hash) == OwnerIndex(q, hash)
  }

  /** All rings of a list choose the same owner for every hash if and only if no two entries share a point. */
  lemma RingsAgreeIff(md5: Md5, servers: seq<bytes>)
    ensures RingsAgree(md5, servers) <==> NoCollisions(md5, servers)
  {
    hide OnRing, IsRing, OwnerIndex;
    if NoCollisions(md5, servers) {
      forall p, q, hash | IsRing(md5, servers, p) && IsRing(md5, servers, q) && p != [] && q != []
        ensures OwnerIndex(p, hash) == OwnerIndex(q, hash)
      {
        OneOwnerOnAllRings(md5, servers, p, q, hash);
      }
    } else {
      var i: nat, j: nat, v :| i < j < |servers| && OnRing(md5, servers[i], v) && OnRing(md5, servers[j], v);
      var p, q := SharedPointSplits(md5, servers, i, j, v);
    }
  }

  // ---------- The order of the list ----------

  /** The health of list positions that a health of addresses amounts to. */
  function HealthAt(servers: seq<bytes>, up: bytes -> bool): nat -> bool {
    (i: nat) => i < |servers| && up(servers[i])
  }

  predicate Distinct(servers: seq<bytes>) {
    forall i, j :: 0 <= i < j < |servers| ==> servers[i] != servers[j]
  }

  ghost predicate SameChoice(s: seq<bytes>, t: seq<bytes>, p: seq<Point<nat>>, q: seq<Point<nat>>,
                             hash: u32, up: bytes -> bool) {
    MapOption(Address(s), Chosen(p, hash, HealthAt(s, up))) == MapOption(Address(t), Chosen(q, hash, HealthAt(t, up)))
  }

  /** Every permutation of the list, however its ties are sorted, chooses the same address for every hash and health. */
  ghost predicate OrderIndependent(md5: Md5, s: seq<bytes>) {
    forall t, p, q, hash, up ::
      multiset(s) == multiset(t) && IsRing(md5, s, p) && IsRing(md5, t, q) ==> SameChoice(s, t, p, q, hash, up)
  }

  lemma PermutedHasNoCollisions(md5: Md5, s: seq<bytes>, t: seq<bytes>)
    requires Distinct(s) && multiset(s) == multiset(t) && NoCollisions(md5, s)
    ensures NoCollisions(md5, t)
  {
    hide OnRing;
    SameElements(s, t);
    forall i, j, v | 0 <= i < j < |t| ensures !(OnRing(md5, t[i], v) && OnRing(md5, t[j], v)) {
      assert t[i] in s && t[j] in s;
      var k :| 0 <= k < |s| && s[k] == t[i];
      var l :| 0 <= l < |s| && s[l] == t[j];
      if k == l {
        TwiceInBag(t, i, j);
        OnceInBag(s, k);
      }
    }
  }

  lemma TwiceInBag(t: seq<bytes>, i: nat, j: nat)
    requires i < j < |t| && t[i] == t[j]
    ensures multiset(t)[t[i]] >= 2
  {
    assert t == t[..i] + [t[i]] + t[i + 1..j] + [t[j]] + t[j + 1..];
  }

  lemma OnceInBag(s: seq<bytes>, k: nat)
    requires Distinct(s) && k < |s|
    ensures multiset(s)[s[k]] == 1
  {
    assert s == s[..k] + [s[k]] + s[k + 1..];
    assert s[k] !in s[..k] && s[k] !in s[k + 1..];
  }

  lemma AllUpChoosesOwner(servers: seq<bytes>, points: seq<Point<nat>>, hash: u32)
    requires points != [] && forall p <- points :: p.server < |servers|
    ensures Chosen(points, hash, HealthAt(servers, _ => true)) == Some(OwnerIndex(points, hash))
  {
    ChosenWhenAllHealthy(points, hash, HealthAt(servers, _ => true));
  }

  /** A list of distinct addresses is order independent, fail-over included, if and only if no two share a point. */
  lemma OrderIndependentIff(md5: Md5, s: seq<bytes>)
    requires Distinct(s)
    ensures OrderIndependent(md5, s) <==> NoCollisions(md5, s)
  {
    hide OnRing, IsRing, Chosen, SameChoice;
    if NoCollisions(md5, s) {
      forall t, p, q, hash, up | multiset(s) == multiset(t) && IsRing(md5, s, p) && IsRing(md5, t, q)
        ensures SameChoice(s, t, p, q, hash, up)
      {
        PermutedHasNoCollisions(md5, s, t);
        PermutedChoice(md5, s, t, p, q, hash, up);
      }
    } else {
      var i: nat, j: nat, v :| i < j < |s| && OnRing(md5, s[i], v) && OnRing(md5, s[j], v);
      var p, q := SharedPointSplits(md5, s, i, j, v);
      TiesShow(md5, s, p, q, v);
    }
  }

  lemma PermutedChoice(md5: Md5, s: seq<bytes>, t: seq<bytes>, p: seq<Point<nat>>, q: seq<Point<nat>>,
                       hash: u32, up: bytes -> bool)
    requires multiset(s) == multiset(t) && IsRing(md5, s, p) && IsRing(md5, t, q)
    requires NoCollisions(md5, s) && NoCollisions(md5, t)
    ensures SameChoice(s, t, p, q, hash, up)
  {
    hide IsRing, Chosen, NoCollisions;
    ListOrderIsIrrelevant(md5, s, t, p, q, hash, up, HealthAt(s, up), HealthAt(t, up));
  }

  lemma TiesShow(md5: Md5, s: seq<bytes>, p: seq<Point<nat>>, q: seq<Point<nat>>, v: u32)
    requires Distinct(s) && IsRing(md5, s, p) && IsRing(md5, s, q) && p != [] && q != []
    requires OwnerIndex(p, v) != OwnerIndex(q, v)
    ensures exists up :: !SameChoice(s, s, p, q, v, up)
  {
    hide OnRing, IsRing, Chosen;
    RingHas(md5, s, p);
    RingHas(md5, s, q);
    AllUpChoosesOwner(s, p, v);
    AllUpChoosesOwner(s, q, v);
    var up := _ => true;
    assert !SameChoice(s, s, p, q, v, up);
  }

  /** Two spellings of one endpoint collide whatever the hash: a host without a port, and with the default one. */
  lemma SpellingsCollide(md5: Md5, host: bytes)
    requires COLON !in host && (host == [] || host[0] != OPEN)
    ensures var s := [host, host + [COLON] + Format(DEFAULT_PORT)];
      Distinct(s) && !NoCollisions(md5, s) && !OrderIndependent(md5, s)
  {
    var t := host + [COLON] + Format(DEFAULT_PORT);
    var s := [host, t];
    CanonicalPort(host, DEFAULT_PORT);
    assert |t| > |host|;
    var v := PointAt(md5, SplitHostPort(host), 0);
    assert OnRing(md5, s[0], v) && OnRing(md5, s[1], v);
    hide OnRing, OrderIndependent;
    OrderIndependentIff(md5, s);
  }
}
