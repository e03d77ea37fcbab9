/**
 What the ring hashes (src/client/ketama.rs): server addresses by their spelling, the keys made of
 them, and the 32-bit words taken from a digest.
 */
module KetamaSpelling {
  import opened Wrappers
  import opened Protocol
  import opened Decimal
  import opened Ketama

  // ---------- Addresses, by their spelling ----------

  /** A port as it may be written: any spelling of a 16-bit number but 0. */
  ghost predicate SpellsPort(port: bytes, p: nat) {
    1 <= p <= 65535 && Spells(port, p)
  }

  lemma PortIs(port: bytes, p: nat)
    requires SpellsPort(port, p)
    ensures PortOr4730(Some(port)) == p && COLON !in port
  {
    ParsesIff(U16_MAX, port, p);
    hide Parse, Spells;
    PortsHaveNoColon(port);
  }

  lemma NoPortIs4730(port: bytes)
    requires forall p :: !SpellsPort(port, p)
    ensures PortOr4730(Some(port)) == 4730
  {
    ReadPortIsSpelled(port);
    hide Parse, SpellsPort;
  }

  lemma ReadPortIsSpelled(port: bytes)
    ensures var r := Parse(U16_MAX, port); r.Some? && r.value != 0 ==> SpellsPort(port, r.value)
  {
    if Parse(U16_MAX, port).Some? {
      ParsesIff(U16_MAX, port, Parse(U16_MAX, port).value);
    }
  }

  /** host:port, leading zeros and a plus sign allowed; a port that spells none is 4730. */
  lemma HostAndPort(host: bytes, port: bytes)
    requires COLON !in host && COLON !in port && (host == [] || host[0] != OPEN)
    ensures forall p :: SpellsPort(port, p) ==> SplitHostPort(host + [COLON] + port) == Endpoint(host, p)
    ensures (forall p :: !SpellsPort(port, p)) ==> SplitHostPort(host + [COLON] + port) == Endpoint(host, 4730)
  {
    var addr := host + [COLON] + port;
    assert addr[..|host|] == host && addr[|host| + 1..] == port;
    IndexOfUnique(addr, COLON, |host|);
    hide Spells, PortOr4730, IndexOf;
    forall p | SpellsPort(port, p) ensures PortOr4730(Some(port)) == p {
      PortIs(port, p);
    }
    if forall p :: !SpellsPort(port, p) {
      NoPortIs4730(port);
    }
  }

  /** A host alone. */
  lemma HostAlone(host: bytes)
    requires COLON !in host && (host == [] || host[0] != OPEN)
    ensures SplitHostPort(host) == Endpoint(host, 4730)
  {
    assert host[..|host|] == host;
    IndexOfUnique(host, COLON, |host|);
  }

  /** A bare IPv6 address, with its two colons or more, is a host. */
  lemma BareIPv6(a: bytes, b: bytes, c: bytes)
    requires var addr := a + [COLON] + b + [COLON] + c; addr[0] != OPEN
    ensures var addr := a + [COLON] + b + [COLON] + c; SplitHostPort(addr) == Endpoint(addr, 4730)
  {
    var addr := a + [COLON] + b + [COLON] + c;
    var i := IndexOf(addr, COLON);
    assert addr[|a|] == COLON && addr[|a| + 1 + |b|] == COLON;
    forall j | 0 <= j < i ensures addr[j] != COLON {
      assert addr[..i][j] in addr[..i];
    }
    assert addr[i + 1..][|a| + 1 + |b| - i - 1] == COLON;
  }

  /** A bracketed host: with a port, without one, or with something else after it. */
  lemma Bracketed(host: bytes, tail: bytes)
    requires CLOSE !in host
    ensures var e := SplitHostPort([OPEN] + host + [CLOSE] + tail);
      && e.host == host
      && (tail == [] || tail[0] != COLON ==> e.port == 4730)
      && (tail != [] && tail[0] == COLON ==>
            && (forall p :: SpellsPort(tail[1..], p) ==> e.port == p)
            && ((forall p :: !SpellsPort(tail[1..], p)) ==> e.port == 4730))
  {
    var rest := host + [CLOSE] + tail;
    var addr := [OPEN] + host + [CLOSE] + tail;
    assert addr[1..] == rest && rest[..|host|] == host && rest[|host| + 1..] == tail;
    IndexOfUnique(rest, CLOSE, |host|);
    hide Spells, PortOr4730, IndexOf;
    NoneIs4730();
    if tail != [] && tail[0] == COLON {
      forall p | SpellsPort(tail[1..], p) ensures PortOr4730(Some(tail[1..])) == p {
        PortIs(tail[1..], p);
      }
      if forall p :: !SpellsPort(tail[1..], p) {
        NoPortIs4730(tail[1..]);
      }
    }
  }

  lemma NoneIs4730()
    ensures PortOr4730(None) == 4730
  {
  }

  /** An opening bracket that is never closed is part of the host. */
  lemma Unclosed(rest: bytes)
    requires CLOSE !in rest
    ensures SplitHostPort([OPEN] + rest) == Endpoint([OPEN] + rest, 4730)
  {
    assert ([OPEN] + rest)[1..] == rest && rest[..|rest|] == rest;
    IndexOfUnique(rest, CLOSE, |rest|);
  }

  // ---------- Keys ----------

  /** For an address in canonical form the key is the address as written, a dash and the replica. */
  lemma KeyOfCanonical(host: bytes, port: nat, replica: nat)
    requires COLON !in host && (host == [] || host[0] != OPEN) && 1 <= port <= 65535
    ensures var addr := host + [58] + Format(port);
      Key(SplitHostPort(addr), replica) == addr + [45] + Format(replica)
  {
    CanonicalPort(host, port);
  }

  lemma FormatHas(n: nat)
    ensures DASH !in Format(n) && COLON !in Format(n)
  {
    assert forall b <- Format(n) :: IsDigit(b);
  }

  lemma NotAfter(a: bytes, b: bytes, c: byte)
    requires c !in b
    ensures var s := a + [c] + b; forall i :: |a| < i < |s| ==> s[i] != c
  {
    var s := a + [c] + b;
    forall i | |a| < i < |s| ensures s[i] != c {
      assert s[i] == b[i - |a| - 1] && s[i] in b;
    }
  }

  /** The last occurrence of a byte splits a string in one way. */
  lemma LastSplit(a: bytes, b: bytes, x: bytes, y: bytes, c: byte)
    requires a + [c] + b == x + [c] + y && c !in b && c !in y
    ensures a == x && b == y
  {
    var s := a + [c] + b;
    NotAfter(a, b, c);
    NotAfter(x, y, c);
    assert s[|a|] == c && s[|x|] == c;
    assert s[..|a|] == a && s[..|x|] == x && s[|a| + 1..] == b && s[|x| + 1..] == y;
  }

  /** Different endpoints, and different replicas of one, never share a key. */
  lemma KeysDiffer(e: Endpoint, r: nat, f: Endpoint, q: nat)
    ensures Key(e, r) == Key(f, q) <==> e == f && r == q
  {
    if Key(e, r) == Key(f, q) {
      FormatHas(r);
      FormatHas(q);
      FormatHas(e.port);
      FormatHas(f.port);
      hide Format;
      LastSplit(e.host + [COLON] + Format(e.port), Format(r), f.host + [COLON] + Format(f.port), Format(q), DASH);
      LastSplit(e.host, Format(e.port), f.host, Format(f.port), COLON);
      FormatTellsApart(r, q);
      FormatTellsApart(e.port, f.port);
    }
  }

  // ---------- Words of a digest ----------

  /** The number whose base-256 digits are these bytes, the lowest first. */
  predicate IsLittleEndian(n: u32, b: bytes)
    requires |b| == 4
  {
    && n % 0x100 == b[0] as int
    && n / 0x100 % 0x100 == b[1] as int
    && n / 0x1_0000 % 0x100 == b[2] as int
    && n / 0x100_0000 == b[3] as int
  }

  lemma LE32Digits(b: bytes)
    requires |b| == 4
    ensures IsLittleEndian(FromLE32(b), b)
  {
    var n, d2 := FromLE32(b), b[2] as int + 0x100 * b[3] as int;
    var d1 := b[1] as int + 0x100 * d2;
    assert n == 0x100 * d1 + b[0] as int && d1 == 0x100 * d2 + b[1] as int;
    assert n / 0x100 == d1 && d1 / 0x100 == d2 && d2 / 0x100 == b[3] as int;
    assert n / 0x1_0000 == d2 && n / 0x100_0000 == b[3] as int;
  }

  lemma LE32TellsApart(a: bytes, b: bytes)
    requires |a| == 4 && |b| == 4
    ensures FromLE32(a) == FromLE32(b) <==> a == b
  {
    LE32Digits(a);
    LE32Digits(b);
    hide FromLE32;
    assert a == [a[0], a[1], a[2], a[3]] && b == [b[0], b[1], b[2], b[3]];
  }

  /**
   A unique id is hashed to the first four bytes of its digest, read lowest first; so two ids hash
   alike exactly when their digests begin alike.
   */
  lemma HashIsOfTheId(md5: Md5, unique: bytes, other: bytes)
    ensures IsLittleEndian(HashOf(md5, unique), md5(unique)[..4])
    ensures HashOf(md5, unique) == HashOf(md5, other) <==> md5(unique)[..4] == md5(other)[..4]
  {
    LE32Digits(md5(unique)[..4]);
    LE32TellsApart(md5(unique)[..4], md5(other)[..4]);
  }

  /** The sixteen points of an endpoint: four consecutive words of the digest of each of four replicas. */
  lemma PointsAreOfTheEndpoint(md5: Md5, e: Endpoint, replica: nat, word: nat)
    requires replica < 4 && word < 4
    ensures 4 * replica + word < POINTS_PER_SERVER
    ensures IsLittleEndian(PointAt(md5, e, 4 * replica + word), md5(Key(e, replica))[4 * word..4 * word + 4])
  {
    assert (4 * replica + word) / 4 == replica && (4 * replica + word) % 4 == word;
    LE32Digits(md5(Key(e, replica))[4 * word..4 * word + 4]);
    hide Key, FromLE32;
  }
}
