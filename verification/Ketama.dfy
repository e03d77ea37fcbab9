/**
 Server selection on a ketama ring (src/client/ketama.rs). MD5 (RFC 1321) is a parameter: any
 total function to 16 bytes. A ring is described over any type of server labels, so that rings
 over list positions and rings over addresses are the same thing.
 */
module Ketama {
  import opened Wrappers
  import opened Protocol
  import opened Decimal

  const REPLICAS_PER_SERVER: nat := 4
  const DEFAULT_PORT: nat := 4730
  const POINTS_PER_SERVER: nat := 16

  type Digest = d: bytes | |d| == 16 witness seq(16, _ => 0)
  type Md5 = bytes -> Digest

  // ---------- Addresses ----------

  const COLON: byte := 58
  const OPEN: byte := 91
  const CLOSE: byte := 93
  const DASH: byte := 45

  datatype Endpoint = Endpoint(host: bytes, port: nat)

  /** The index of the first `b`, or the length of `s`. */
  function IndexOf(s: bytes, b: byte): (i: nat)
    ensures i <= |s| && b !in s[..i] && (i < |s| ==> s[i] == b)
  {
    if s == [] || s[0] == b then 0
    else
      var i := 1 + IndexOf(s[1..], b);
      assert s[..i] == [s[0]] + s[1..][..i - 1];
      i
  }

  function PortOr4730(port: Option<bytes>): nat {
    if port.None? then DEFAULT_PORT
    else
      match Parse(U16_MAX, port.value)
      case Some(p) => if p != 0 then p else DEFAULT_PORT
      case None => DEFAULT_PORT
  }

  /** A host as written, without IPv6 brackets, and a port; several bare colons are part of the host. */
  function SplitHostPort(addr: bytes): Endpoint {
    if addr != [] && addr[0] == OPEN then
      var rest := addr[1..];
      var i := IndexOf(rest, CLOSE);
      if i == |rest| then Endpoint(addr, DEFAULT_PORT)
      else
        var tail := rest[i + 1..];
        Endpoint(rest[..i], PortOr4730(if tail != [] && tail[0] == COLON then Some(tail[1..]) else None))
    else
      var i := IndexOf(addr, COLON);
      if i < |addr| && COLON !in addr[i + 1..] then Endpoint(addr[..i], PortOr4730(Some(addr[i + 1..])))
      else Endpoint(addr, DEFAULT_PORT)
  }

  lemma IndexOfUnique(s: bytes, b: byte, i: nat)
    requires i <= |s| && b !in s[..i] && (i < |s| ==> s[i] == b)
    ensures IndexOf(s, b) == i
  {
    var j := IndexOf(s, b);
    assert forall k :: 0 <= k < i ==> s[..i][k] == s[k];
    assert forall k :: 0 <= k < j ==> s[..j][k] == s[k];
  }

  lemma PortsHaveNoColon(port: bytes)
    requires Parse(U16_MAX, port).Some?
    ensures COLON !in port
  {
    var digits := if port[0] == PLUS then port[1..] else port;
    assert forall b <- digits :: IsDigit(b);
    assert forall b <- port :: b in digits || b == PLUS;
  }

  /** Any port spelling that reads as a nonzero 16-bit number names the same endpoint. */
  lemma SpelledPort(host: bytes, port: bytes, p: nat)
    requires Parse(U16_MAX, port) == Some(p) && p != 0 && COLON !in host && (host == [] || host[0] != OPEN)
    ensures SplitHostPort(host + [COLON] + port) == Endpoint(host, p)
  {
    hide Parse, IndexOf;
    var addr := host + [COLON] + port;
    PortsHaveNoColon(port);
    assert addr[..|host|] == host && addr[|host| + 1..] == port;
    IndexOfUnique(addr, COLON, |host|);
  }

  /** The same for an IPv6 address, whose brackets are not part of the host. */
  lemma SpelledPortInBrackets(host: bytes, port: bytes, p: nat)
    requires Parse(U16_MAX, port) == Some(p) && p != 0 && CLOSE !in host
    ensures SplitHostPort([OPEN] + host + [CLOSE, COLON] + port) == Endpoint(host, p)
  {
    hide Parse, IndexOf;
    var addr, rest := [OPEN] + host + [CLOSE, COLON] + port, host + [CLOSE, COLON] + port;
    assert addr[1..] == rest && rest[..|host|] == host && rest[|host| + 1..] == [COLON] + port;
    IndexOfUnique(rest, CLOSE, |host|);
    assert ([COLON] + port)[1..] == port;
  }

  /** A port in canonical decimal survives, and one left out or 0 is 4730. */
  lemma CanonicalPort(host: bytes, p: nat)
    requires COLON !in host && (host == [] || host[0] != OPEN) && p <= U16_MAX
    ensures SplitHostPort(host + [COLON] + Format(p)) == Endpoint(host, if p == 0 then 4730 else p)
    ensures SplitHostPort(host) == Endpoint(host, 4730)
  {
    ParseFormat(U16_MAX, p);
    assert host[..|host|] == host;
    IndexOfUnique(host, COLON, |host|);
    if p != 0 {
      SpelledPort(host, Format(p), p);
    } else {
      var s := host + [COLON] + Format(0);
      assert s[..|host|] == host && s[|host| + 1..] == Format(0);
      IndexOfUnique(s, COLON, |host|);
    }
  }

  // ---------- Points ----------

  function FromLE32(b: bytes): u32
    requires |b| == 4
  {
    b[0] as int + b[1] as int * 0x100 + b[2] as int * 0x1_0000 + b[3] as int * 0x100_0000
  }

  function Key(e: Endpoint, replica: nat): bytes {
    e.host + [COLON] + Format(e.port) + [DASH] + Format(replica)
  }

  /** The k-th of an endpoint's points: four per replica. */
  function PointAt(md5: Md5, e: Endpoint, k: nat): u32
    requires k < POINTS_PER_SERVER
  {
    FromLE32(md5(Key(e, k / 4))[4 * (k % 4)..4 * (k % 4) + 4])
  }

  function HashOf(md5: Md5, unique: bytes): u32 {
    FromLE32(md5(unique)[..4])
  }

  datatype Point<T> = Point(value: u32, server: T)

  function PointsOf<T>(md5: Md5, addr: bytes, server: T): (r: seq<Point<T>>)
    ensures |r| == POINTS_PER_SERVER
  {
    seq(POINTS_PER_SERVER, k requires 0 <= k < POINTS_PER_SERVER => Point(PointAt(md5, SplitHostPort(addr), k), server))
  }

  /** The points of a server list before sorting, each with its server's position. */
  function RawPoints(md5: Md5, servers: seq<bytes>): (r: seq<Point<nat>>)
    ensures |r| == POINTS_PER_SERVER * |servers|
    ensures forall p <- r :: p.server < |servers|
  {
    if servers == [] then []
    else
      var n := |servers| - 1;
      RawPoints(md5, servers[..n]) + PointsOf<nat>(md5, servers[n], n)
  }

  predicate Sorted<T>(points: seq<Point<T>>) {
    forall i, j :: 0 <= i < j < |points| ==> points[i].value <= points[j].value
  }

  /** `points` is a ring of the list: its points in order, equal ones in any order. */
  predicate IsRing(md5: Md5, servers: seq<bytes>, points: seq<Point<nat>>) {
    Sorted(points) && multiset(points) == multiset(RawPoints(md5, servers))
  }

  // ---------- Selection, as a specification ----------

  function LowerBound<T>(points: seq<Point<T>>, hash: u32): (k: nat)
    ensures k <= |points|
    ensures forall i :: 0 <= i < k ==> points[i].value < hash
    ensures k < |points| ==> points[k].value >= hash
  {
    if points == [] || points[0].value >= hash then 0 else 1 + LowerBound(points[1..], hash)
  }

  /** The index of the point that owns a hash. */
  function Start<T>(points: seq<Point<T>>, hash: u32): (i: nat)
    requires points != []
    ensures i < |points|
  {
    LowerBound(points, hash) % |points|
  }

  /** The server `offset` steps around the ring from `start`. */
  function ServerAt<T>(points: seq<Point<T>>, start: nat, offset: nat): T
    requires start < |points| && offset <= |points|
  {
    var i := start + offset;
    points[if i < |points| then i else i - |points|].server
  }

  /** The first server that is `ok`, walking the ring from `start` over the offsets from..end. */
  function Scan<T>(points: seq<Point<T>>, start: nat, from: nat, end: nat, ok: T -> bool): Option<T>
    requires start < |points| && from <= end <= |points| + 1
    decreases end - from
  {
    if from == end then None
    else if ok(ServerAt(points, start, from)) then Some(ServerAt(points, start, from))
    else Scan(points, start, from + 1, end, ok)
  }

  function FirstPointOf<T(==)>(points: seq<Point<T>>, server: T): (i: nat)
    requires points != []
    ensures i < |points|
  {
    if exists p <- points :: p.server == server then IndexOfServer(points, server) else 0
  }

  function IndexOfServer<T(==)>(points: seq<Point<T>>, server: T): (i: nat)
    requires exists p <- points :: p.server == server
    ensures i < |points| && points[i].server == server && forall j :: 0 <= j < i ==> points[j].server != server
  {
    if points[0].server == server then 0 else 1 + IndexOfServer(points[1..], server)
  }

  function Other<T(==)>(failed: T): T -> bool {
    s => s != failed
  }

  /** libgearman's fail-over step: the next other server past the failed one's first point. */
  function NextAfter<T(==)>(points: seq<Point<T>>, failed: T): Option<T>
    requires points != []
  {
    Scan(points, FirstPointOf(points, failed), 1, |points| + 1, Other(failed))
  }

  /** The k-th server of the fail-over chain that begins with `first`, however often it repeats. */
  function Orbit<T(==)>(points: seq<Point<T>>, first: T, k: nat): Option<T>
    requires points != []
  {
    if k == 0 then Some(first)
    else match Orbit(points, first, k - 1) case None => None case Some(s) => NextAfter(points, s)
  }

  /** The chain's first healthy server is its k-th. */
  predicate ChainHit<T(==)>(points: seq<Point<T>>, first: T, ok: T -> bool, k: nat)
    requires points != []
  {
    && Orbit(points, first, k).Some? && ok(Orbit(points, first, k).value)
    && forall j :: 0 <= j < k ==> Orbit(points, first, j).Some? && !ok(Orbit(points, first, j).value)
  }

  /**
   The first healthy server of the unbounded chain from the hash's owner; when the chain has none,
   the first healthy one in ring order from the hash.
   */
  ghost function Chosen<T>(points: seq<Point<T>>, hash: u32, ok: T -> bool): Option<T> {
    if points == [] then None
    else
      var start := Start(points, hash);
      var first := points[start].server;
      if exists k: nat :: ChainHit(points, first, ok, k) then
        var k: nat :| ChainHit(points, first, ok, k);
        Orbit(points, first, k)
      else Scan(points, start, 0, |points|, ok)
  }
}
