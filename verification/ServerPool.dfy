/** Routing submissions over the configured servers (src/client/multi.rs). */
module ServerPool {
  import opened Wrappers
  import opened Protocol
  import opened Ketama
  import opened KetamaLaws
  import opened KetamaRing

  /** The cursor is a machine word that wraps around. */
  const USIZE: nat := 0x1_0000_0000_0000_0000

  // ---------- Remainders ----------

  lemma MulAtLeast(len: nat, k: int)
    requires k >= 1
    ensures len * k >= len
  {
    assert len * k == len + len * (k - 1);
  }

  lemma RemainderIs(a: int, len: nat, q: int, r: nat)
    requires a == len * q + r && r < len
    ensures a % len == r
  {
    var p, s := a / len, a % len;
    assert len * (q - p) == s - r;
    if q > p {
      MulAtLeast(len, q - p);
    } else if q < p {
      MulAtLeast(len, p - q);
    }
  }

  /** i steps on from position c, for fewer than a full turn. */
  function Turn(r: nat, i: nat, len: nat): nat {
    if r + i < len then r + i else r + i - len
  }

  lemma TurnIsMod(c: nat, i: nat, len: nat)
    requires i < len
    ensures (c + i) % len == Turn(c % len, i, len)
  {
    var q, r := c / len, c % len;
    DivMod(c, len);
    if r + i < len {
      RemainderIs(c + i, len, q, r + i);
    } else {
      Distribute(len, q);
      RemainderIs(c + i, len, q + 1, r + i - len);
    }
  }

  lemma DivMod(c: nat, len: nat)
    requires len > 0
    ensures c == len * (c / len) + c % len && c % len < len
  {
  }

  lemma Distribute(len: nat, q: int)
    ensures len * (q + 1) == len * q + len
  {
  }

  // ---------- Round-robin as a specification ----------

  /** The first server that is up, from `start` on, over the remaining offsets. */
  function PickFrom(up: seq<bool>, start: nat, offset: nat): Option<nat>
    requires start < |up| && offset <= |up|
    decreases |up| - offset
  {
    if offset == |up| then None
    else if up[Turn(start, offset, |up|)] then Some(Turn(start, offset, |up|))
    else PickFrom(up, start, offset + 1)
  }

  function Pick(up: seq<bool>, start: nat): Option<nat>
    requires start < |up|
  {
    PickFrom(up, start, 0)
  }

  /** The cursor after i picks. */
  function Tick(cursor: nat, i: nat): nat {
    (cursor + i) % USIZE
  }

  /** How many of the first n picks from this cursor go to server s, with no health change. */
  function Picks(up: seq<bool>, cursor: nat, n: nat, s: nat): nat
    requires up != []
  {
    if n == 0 then 0
    else Picks(up, cursor, n - 1, s) + if Pick(up, Tick(cursor, n - 1) % |up|) == Some(s) then 1 else 0
  }

  /** Steps forward from t to s around the circle. */
  function Ahead(t: nat, s: nat, len: nat): nat
    requires t < len && s < len
  {
    if t <= s then s - t else s + len - t
  }

  /** d steps back from s around the circle. */
  function Back(s: nat, d: nat, len: nat): nat
    requires s < len && d <= len
  {
    if d <= s then s - d else s + len - d
  }

  /** Whether the g servers before s, going round, are all down. */
  predicate DownBefore(up: seq<bool>, s: nat, g: nat)
    requires s < |up| && g < |up|
  {
    forall d :: 1 <= d <= g ==> !up[Back(s, d, |up|)]
  }

  /** The number of consecutive down servers immediately before s, when at least g are. */
  function GapFrom(up: seq<bool>, s: nat, g: nat): (r: nat)
    requires s < |up| && up[s] && g < |up| && DownBefore(up, s, g)
    ensures g <= r < |up| && DownBefore(up, s, r)
    ensures up[Back(s, r + 1, |up|)]
    decreases |up| - g
  {
    if up[Back(s, g + 1, |up|)] then g
    else GapFrom(up, s, g + 1)
  }

  function Gap(up: seq<bool>, s: nat): nat
    requires s < |up| && up[s]
  {
    GapFrom(up, s, 0)
  }

  /** A pick finds a server unless all are down, and it is the nearest one ahead that is up. */
  lemma {:induction false} PickIsNearest(up: seq<bool>, start: nat, offset: nat)
    requires start < |up| && offset <= |up|
    ensures var r := PickFrom(up, start, offset);
      && (r.None? <==> forall i :: offset <= i < |up| ==> !up[Turn(start, i, |up|)])
      && (r.Some? ==> r.value < |up| && up[r.value] && offset <= Ahead(start, r.value, |up|)
                      && forall i :: offset <= i < Ahead(start, r.value, |up|) ==> !up[Turn(start, i, |up|)])
    decreases |up| - offset
  {
    if offset < |up| && !up[Turn(start, offset, |up|)] {
      PickIsNearest(up, start, offset + 1);
    }
  }

  lemma PickFailsOnlyWhenAllDown(up: seq<bool>, start: nat)
    requires start < |up|
    ensures Pick(up, start).None? <==> forall s :: 0 <= s < |up| ==> !up[s]
    ensures Pick(up, start).Some? ==> Pick(up, start).value < |up| && up[Pick(up, start).value]
  {
    PickIsNearest(up, start, 0);
    if s :| 0 <= s < |up| && up[s] {
      assert Turn(start, Ahead(start, s, |up|), |up|) == s;
    }
  }

  lemma TurnBack(t: nat, s: nat, len: nat, d: nat)
    requires t < len && s < len && d <= Ahead(t, s, len)
    ensures Turn(t, Ahead(t, s, len) - d, len) == Back(s, d, len)
  {
  }

  /** A pick that starts at t goes to s exactly when s is at most Gap(s) steps ahead. */
  lemma PickGoesTo(up: seq<bool>, t: nat, s: nat)
    requires t < |up| && s < |up| && up[s]
    ensures Pick(up, t) == Some(s) <==> Ahead(t, s, |up|) <= Gap(up, s)
  {
    var n, a, g := |up|, Ahead(t, s, |up|), Gap(up, s);
    PickIsNearest(up, t, 0);
    PickFailsOnlyWhenAllDown(up, t);
    TurnBack(t, s, n, 0);
    var r := Pick(up, t).value;
    TurnBack(t, r, n, 0);
    hide PickFrom, GapFrom, Gap, Pick;
    if a > g {
      TurnBack(t, s, n, g + 1);
    } else if r != s {
      var b := Ahead(t, r, n);
      assert b < a;
      TurnBack(t, s, n, a - b);
    }
  }

  // ---------- The counting law ----------

  /** Whether the word does not wrap in these n picks, or wraps onto a multiple of the list. */
  predicate NoSkip(cursor: nat, n: nat)
    requires n > 0
  {
    cursor + n <= USIZE || USIZE % n == 0
  }

  /** Where the i-th pick starts: i steps on around the list. */
  lemma StartOf(cursor: nat, n: nat, i: nat)
    requires i < n && cursor < USIZE && NoSkip(cursor, n) && n <= USIZE
    ensures Tick(cursor, i) % n == Turn(cursor % n, i, n)
  {
    TurnIsMod(cursor, i, n);
    if cursor + i < USIZE {
      RemainderIs(cursor + i, USIZE, 0, cursor + i);
    } else {
      RemainderIs(cursor + i, USIZE, 1, cursor + i - USIZE);
      WholeTurns(cursor + i - USIZE, USIZE, n);
    }
  }

  lemma WholeTurns(a: nat, b: nat, n: nat)
    requires n > 0 && b % n == 0
    ensures (a + b) % n == a % n
  {
    DivMod(a, n);
    DivMod(b, n);
    assert n * (a / n) + n * (b / n) == n * (a / n + b / n);
    RemainderIs(a + b, n, a / n + b / n, a % n);
  }

  /** How many i in 0..m have Turn(r, i, n) at most g steps behind s. */
  function Near(r: nat, m: nat, n: nat, s: nat, g: nat): nat
    requires r < n && m <= n && s < n
  {
    if m == 0 then 0
    else Near(r, m - 1, n, s, g) + if Ahead(Turn(r, m - 1, n), s, n) <= g then 1 else 0
  }

  lemma {:induction false} PicksAreNear(up: seq<bool>, cursor: nat, m: nat, s: nat)
    requires s < |up| && up[s] && m <= |up| && cursor < USIZE && NoSkip(cursor, |up|) && |up| <= USIZE
    ensures Picks(up, cursor, m, s) == Near(cursor % |up|, m, |up|, s, Gap(up, s))
  {
    hide Pick, Gap, Tick, Turn, Ahead, NoSkip;
    if m > 0 {
      PicksAreNear(up, cursor, m - 1, s);
      StartOf(cursor, |up|, m - 1);
      PickGoesTo(up, Turn(cursor % |up|, m - 1, |up|), s);
    }
  }

  function Min(a: int, b: int): int {
    if a < b then a else b
  }

  function Max(a: int, b: int): int {
    if a > b then a else b
  }

  /**
   Starting at r, the first m steps fall within g behind s when they are among the last g + 1
   before s, or, past s, among the first after a whole turn.
   */
  lemma {:induction false} NearClosed(r: nat, m: nat, n: nat, s: nat, g: nat)
    requires r < n && m <= n && s < n && g < n
    ensures var a := Ahead(r, s, n);
      Near(r, m, n, s, g) == Max(0, Min(m, a + 1) - Max(0, a - g)) + Max(0, m - Max(a + 1, a + n - g))
  {
    if m > 0 {
      NearClosed(r, m - 1, n, s, g);
    }
  }

  /**
   The counting law: in as many consecutive picks as there are servers, with fixed health and no
   skip, a server that is up is picked once, and once more for each down server just before it.
   */
  lemma RoundRobinCounts(up: seq<bool>, cursor: nat, s: nat)
    requires s < |up| && up[s] && cursor < USIZE && |up| <= USIZE && NoSkip(cursor, |up|)
    ensures Picks(up, cursor, |up|, s) == 1 + Gap(up, s)
  {
    PicksAreNear(up, cursor, |up|, s);
    NearClosed(cursor % |up|, |up|, |up|, s, Gap(up, s));
  }

  predicate AllUp(up: seq<bool>) {
    forall s :: 0 <= s < |up| ==> up[s]
  }

  lemma PickWhenAllUp(up: seq<bool>, t: nat)
    requires t < |up| && AllUp(up)
    ensures Pick(up, t) == Some(t)
  {
  }

  lemma {:induction false} PickedTwice(up: seq<bool>, cursor: nat, n: nat, s: nat, i: nat, j: nat)
    requires up != [] && i < j < n
    requires Pick(up, Tick(cursor, i) % |up|) == Some(s) == Pick(up, Tick(cursor, j) % |up|)
    ensures Picks(up, cursor, n, s) >= 2
  {
    if j + 1 < n {
      PickedTwice(up, cursor, n - 1, s, i, j);
    } else {
      PickedOnce(up, cursor, j, s, i);
    }
  }

  lemma {:induction false} PickedOnce(up: seq<bool>, cursor: nat, n: nat, s: nat, i: nat)
    requires up != [] && i < n && Pick(up, Tick(cursor, i) % |up|) == Some(s)
    ensures Picks(up, cursor, n, s) >= 1
  {
    if i + 1 < n {
      PickedOnce(up, cursor, n - 1, s, i);
    }
  }

  /**
   With every server up, a full turn of picks takes each server exactly once if and only if the
   cursor's word does not wrap in it, or its size is a multiple of the number of servers.
   */
  lemma EachOnceIff(up: seq<bool>, cursor: nat)
    requires up != [] && AllUp(up) && |up| <= USIZE && cursor < USIZE
    ensures (forall s :: 0 <= s < |up| ==> Picks(up, cursor, |up|, s) == 1) <==> NoSkip(cursor, |up|)
  {
    var n := |up|;
    if NoSkip(cursor, n) {
      forall s | 0 <= s < n ensures Picks(up, cursor, n, s) == 1 {
        RoundRobinCounts(up, cursor, s);
        assert DownBefore(up, s, Gap(up, s)) && up[Back(s, 1, n)];
      }
    } else {
      var s, i, j := SkipPicksTwice(cursor, n);
      PickWhenAllUp(up, s);
      PickedTwice(up, cursor, n, s, i, j);
    }
  }

  lemma PicksThree(up: seq<bool>, cursor: nat, s: nat)
    requires |up| == 3 && AllUp(up)
    ensures Picks(up, cursor, 3, s)
         == (if Tick(cursor, 0) % 3 == s then 1 else 0)
          + (if Tick(cursor, 1) % 3 == s then 1 else 0)
          + (if Tick(cursor, 2) % 3 == s then 1 else 0)
  {
    PickWhenAllUp(up, Tick(cursor, 0) % 3);
    PickWhenAllUp(up, Tick(cursor, 1) % 3);
    PickWhenAllUp(up, Tick(cursor, 2) % 3);
    hide Pick, Tick;
    assert Picks(up, cursor, 0, s) == 0;
    assert Picks(up, cursor, 2, s) == Picks(up, cursor, 1, s) + if Tick(cursor, 1) % 3 == s then 1 else 0;
  }

  /** Three servers, all up, and a cursor about to wrap: the first is picked twice, the last not at all. */
  lemma WrapSkips()
    ensures AllUp([true, true, true])
    ensures Picks([true, true, true], USIZE - 1, 3, 0) == 2
    ensures Picks([true, true, true], USIZE - 1, 3, 1) == 1
    ensures Picks([true, true, true], USIZE - 1, 3, 2) == 0
  {
    PicksThree([true, true, true], USIZE - 1, 0);
    PicksThree([true, true, true], USIZE - 1, 1);
    PicksThree([true, true, true], USIZE - 1, 2);
    assert Tick(USIZE - 1, 0) % 3 == 0 && Tick(USIZE - 1, 1) % 3 == 0 && Tick(USIZE - 1, 2) % 3 == 1;
  }

  /** When the word wraps and the list does not divide it, two picks of one turn start alike. */
  lemma SkipPicksTwice(cursor: nat, n: nat) returns (s: nat, i: nat, j: nat)
    requires 0 < n <= USIZE && cursor < USIZE && !NoSkip(cursor, n)
    ensures s < n && i < j < n && Tick(cursor, i) % n == s == Tick(cursor, j) % n
  {
    var m, r := USIZE - cursor, USIZE % n;
    DivMod(USIZE, n);
    if m <= r {
      s, i, j := r - m, 0, r;
      RemainderIs(cursor, n, USIZE / n, r - m);
      RemainderIs(cursor, USIZE, 0, cursor);
      RemainderIs(cursor + r, USIZE, 1, r - m);
      RemainderIs(r - m, n, 0, r - m);
    } else {
      s, i, j := 0, m - r, m;
      RemainderIs(USIZE - r, n, USIZE / n, 0);
      RemainderIs(cursor + (m - r), USIZE, 0, USIZE - r);
      RemainderIs(cursor + m, USIZE, 1, 0);
      RemainderIs(0, n, 0, 0);
    }
  }

  // ---------- The pool ----------

  function IsUp(up: seq<bool>): nat -> bool {
    (i: nat) => i < |up| && up[i]
  }

  /** A ring has every position of its list and no other. */
  lemma RingServers(md5: Md5, servers: seq<bytes>, points: seq<Point<nat>>)
    requires IsRing(md5, servers, points)
    ensures forall i: nat :: i in ServersOf(points) <==> i < |servers|
  {
    RingHas(md5, servers, points);
    forall i: nat | i < |servers| ensures i in ServersOf(points) {
      var v := PointAt(md5, SplitHostPort(servers[i]), 0);
      assert OnRing(md5, servers[i], v);
      assert Point(v, i) in points;
    }
  }

  method FirstUp(up: seq<bool>, start: nat) returns (r: Option<nat>)
    requires start < |up|
    ensures r == Pick(up, start)
  {
    for offset := 0 to |up|
      invariant Pick(up, start) == PickFrom(up, start, offset)
    {
      WrapIsMod(start + offset, |up|);
      var idx := (start + offset) % |up|;
      if up[idx] {
        return Some(idx);
      }
    }
    return None;
  }

  class Pool {
    const ring: Option<Ring>
    /** Per server, whether its actor has a live connection now. */
    var connected: seq<bool>
    var cursor: nat

    ghost predicate Valid()
      reads this
    {
      cursor < USIZE && (ring.Some? ==> ring.value.Valid() && |ring.value.servers| == |connected|)
    }

    constructor (count: nat, ring: Option<Ring>)
      requires ring.Some? ==> ring.value.Valid() && |ring.value.servers| == count
      ensures Valid() && this.ring == ring && cursor == 0 && connected == seq(count, _ => false)
    {
      this.ring := ring;
      connected := seq(count, _ => false);
      cursor := 0;
    }

    method AnyHealthy() returns (r: bool)
      ensures r <==> exists i :: 0 <= i < |connected| && connected[i]
    {
      for i := 0 to |connected|
        invariant forall j :: 0 <= j < i ==> !connected[j]
      {
        if connected[i] {
          return true;
        }
      }
      return false;
    }

    /** Round-robin: the first server that is up from the cursor on; the cursor moves by one. */
    method NextHealthy() returns (r: Option<nat>)
      requires Valid()
      modifies this`cursor
      ensures Valid()
      ensures connected == [] ==> r == None && cursor == old(cursor)
      ensures connected != [] ==> r == Pick(connected, old(cursor) % |connected|) && cursor == Tick(old(cursor), 1)
    {
      var len := |connected|;
      if len == 0 {
        return None;
      }
      var start := cursor % len;
      cursor := (cursor + 1) % USIZE;
      r := FirstUp(connected, start);
    }

    /**
     By unique id on the ring when there is one and the id is not empty, else round-robin. Either
     way it fails only when every server is down, and never picks one that is.
     */
    method SelectForSubmit(unique: Option<bytes>) returns (r: Option<nat>)
      requires Valid()
      modifies this`cursor
      ensures Valid()
      ensures r.None? <==> forall i :: 0 <= i < |connected| ==> !connected[i]
      ensures r.Some? ==> r.value < |connected| && connected[r.value]
      ensures ring.Some? && unique.Some? && unique.value != [] ==>
                && cursor == old(cursor)
                && r == Chosen(ring.value.points, HashOf(ring.value.md5, unique.value), IsUp(connected))
      ensures (ring.None? || unique.None? || unique.value == []) && connected != [] ==>
                r == Pick(connected, old(cursor) % |connected|) && cursor == Tick(old(cursor), 1)
    {
      if ring.Some? && unique.Some? && unique.value != [] {
        var k := ring.value;
        r := k.Select(unique.value, IsUp(connected));
        ChosenIsHealthy(k.points, HashOf(k.md5, unique.value), IsUp(connected));
        RingServers(k.md5, k.servers, k.points);
        if i :| 0 <= i < |connected| && connected[i] {
          assert i in ServersOf(k.points) && IsUp(connected)(i);
        }
      } else {
        r := NextHealthy();
        if connected != [] {
          PickFailsOnlyWhenAllDown(connected, old(cursor) % |connected|);
        }
      }
    }

    /**
     As many picks in a row as there are servers, with no change of health: each server that is up
     is returned once, and once more for each consecutive down server just before it.
     */
    method FullTurn() returns (picks: seq<Option<nat>>)
      requires Valid() && 0 < |connected| <= USIZE
      modifies this`cursor
      ensures Valid() && |picks| == |connected|
      ensures forall s :: 0 <= s < |connected| && connected[s] && NoSkip(old(cursor), |connected|) ==>
                multiset(picks)[Some(s)] == 1 + Gap(connected, s)
    {
      hide Pick, Gap, Tick, NoSkip;
      picks := [];
      TickTwice(cursor, 0);
      for i := 0 to |connected|
        invariant Valid() && |picks| == i && cursor == Tick(old(cursor), i)
        invariant forall s: nat :: multiset(picks)[Some(s)] == Picks(connected, old(cursor), i, s)
      {
        var r := NextHealthy();
        TickTwice(old(cursor), i);
        picks := picks + [r];
      }
      forall s | 0 <= s < |connected| && connected[s] && NoSkip(old(cursor), |connected|)
        ensures multiset(picks)[Some(s)] == 1 + Gap(connected, s)
      {
        RoundRobinCounts(connected, old(cursor), s);
      }
    }
  }

  /** Consecutive picks see the cursors that the counting law speaks of. */
  lemma TickTwice(cursor: nat, i: nat)
    requires cursor < USIZE
    ensures Tick(Tick(cursor, i), 1) == Tick(cursor, i + 1) && Tick(cursor, 0) == cursor
  {
    var q, r := (cursor + i) / USIZE, (cursor + i) % USIZE;
    DivMod(cursor + i, USIZE);
    RemainderIs(cursor, USIZE, 0, cursor);
    if r + 1 < USIZE {
      RemainderIs(r + 1, USIZE, 0, r + 1);
      RemainderIs(cursor + i + 1, USIZE, q, r + 1);
    } else {
      Distribute(USIZE, q);
      RemainderIs(r + 1, USIZE, 1, 0);
      RemainderIs(cursor + i + 1, USIZE, q + 1, 0);
    }
  }
}
