/** Key derivation and the handshake blob.  X25519 and SHA-256 are a dictionary of functions of
    which only one law is used: Diffie-Hellman commutes (section 6.1 of RFC 7748). */
module Handshake {
  import opened Options
  import opened SecureSession

  type Bytes32 = s: seq<nat> | |s| == 32 witness seq(32, i => 0)

  datatype Suite = Suite(
    pub: Bytes32 -> Bytes32,
    dh: (Bytes32, Bytes32) -> Bytes32,
    hash: seq<nat> -> Bytes32)

  ghost predicate Commutes(x: Suite) {
    forall a: Bytes32, b: Bytes32 :: x.dh(a, x.pub(b)) == x.dh(b, x.pub(a))
  }

  // ---- ordering pairs ----

  /** Lexicographic order, as arrays of bytes compare. */
  predicate LexLe(a: seq<nat>, b: seq<nat>) {
    if |a| == 0 then true
    else if |b| == 0 then false
    else a[0] < b[0] || (a[0] == b[0] && LexLe(a[1..], b[1..]))
  }

  lemma {:induction false} LexTotal(a: seq<nat>, b: seq<nat>)
    ensures LexLe(a, b) || LexLe(b, a)
  {
    if |a| > 0 && |b| > 0 { LexTotal(a[1..], b[1..]); }
  }

  lemma {:induction false} LexAntisymmetric(a: seq<nat>, b: seq<nat>)
    requires LexLe(a, b) && LexLe(b, a)
    ensures a == b
  {
    if |a| > 0 && |b| > 0 {
      LexAntisymmetric(a[1..], b[1..]);
      assert a == [a[0]] + a[1..] && b == [b[0]] + b[1..];
    }
  }

  function Sorted(a: Bytes32, b: Bytes32): (Bytes32, Bytes32) {
    if LexLe(a, b) then (a, b) else (b, a)
  }

  lemma SortedSymmetric(a: Bytes32, b: Bytes32)
    ensures Sorted(a, b) == Sorted(b, a)
  {
    LexTotal(a, b);
    if LexLe(a, b) && LexLe(b, a) { LexAntisymmetric(a, b); }
  }

  // ---- keys ----

  /** Our side of a handshake, and what we know of the peer's. */
  datatype LocalHs = LocalHs(salt: Bytes32, eph: Bytes32)
  datatype PeerHs = PeerHs(salt: Bytes32, eph: Option<Bytes32>)

  function Text(s: string): seq<nat> { seq(|s|, i requires 0 <= i < |s| => s[i] as nat) }

  function DeriveKey(x: Suite, a: Bytes32, b: Bytes32, shared: Bytes32, sid: nat, saltA: Bytes32, saltB: Bytes32): Bytes32 {
    var (lo, hi) := Sorted(a, b);
    var (slo, shi) := Sorted(saltA, saltB);
    x.hash(Text("pulsar-session-key-v2") + lo + hi + shared + slo + shi + BigEndian(sid, 8))
  }

  function DeriveKeyV3(x: Suite, a: Bytes32, b: Bytes32, shared: Bytes32, ephA: Bytes32, ephB: Bytes32,
                       ephShared: Bytes32, sid: nat, saltA: Bytes32, saltB: Bytes32): Bytes32
  {
    var (lo, hi) := Sorted(a, b);
    var (elo, ehi) := Sorted(ephA, ephB);
    var (slo, shi) := Sorted(saltA, saltB);
    x.hash(Text("pulsar-session-key-v3") + lo + hi + shared + elo + ehi + ephShared + slo + shi + BigEndian(sid, 8))
  }

  datatype Crypto = Crypto(key: Bytes32, role: Role, binding: Bytes32, forwardSecret: bool)

  function FromKey(x: Suite, key: Bytes32, role: Role, forwardSecret: bool): Crypto {
    Crypto(key, role, x.hash(Text("pulsar-channel-binding-v1") + key), forwardSecret)
  }

  /** `session_hs`: the v3 key when the peer sent an ephemeral key, else the v2 key. */
  function SessionHs(x: Suite, secret: Bytes32, peer: Bytes32, role: Role, sid: nat, ours: LocalHs, theirs: PeerHs): Crypto {
    var shared := x.dh(secret, peer);
    if theirs.eph.None? then
      FromKey(x, DeriveKey(x, x.pub(secret), peer, shared, sid, ours.salt, theirs.salt), role, false)
    else
      var e := theirs.eph.value;
      FromKey(x, DeriveKeyV3(x, x.pub(secret), peer, shared, x.pub(ours.eph), e, x.dh(ours.eph, e),
                             sid, ours.salt, theirs.salt), role, true)
  }

  /** Same key, channel binding and forward-secrecy flag on both ends. */
  predicate SameSession(c: Crypto, d: Crypto) {
    c.key == d.key && c.binding == d.binding && c.forwardSecret == d.forwardSecret
  }

  /** What the other side learns from our handshake, with or without the ephemeral key. */
  function Shown(x: Suite, hs: LocalHs, v3: bool): PeerHs {
    PeerHs(hs.salt, if v3 then Some(x.pub(hs.eph)) else None)
  }

  /** Both ends derive the same session from each other's public values, in either version and
      whoever initiates. */
  lemma KeysAgree(x: Suite, a: Bytes32, b: Bytes32, sid: nat, hsA: LocalHs, hsB: LocalHs, v3: bool, r: Role, q: Role)
    requires Commutes(x)
    ensures SameSession(SessionHs(x, a, x.pub(b), r, sid, hsA, Shown(x, hsB, v3)),
                        SessionHs(x, b, x.pub(a), q, sid, hsB, Shown(x, hsA, v3)))
  {
    SortedSymmetric(x.pub(a), x.pub(b));
    SortedSymmetric(hsA.salt, hsB.salt);
    SortedSymmetric(x.pub(hsA.eph), x.pub(hsB.eph));
    assert x.dh(a, x.pub(b)) == x.dh(b, x.pub(a));
    assert x.dh(hsA.eph, x.pub(hsB.eph)) == x.dh(hsB.eph, x.pub(hsA.eph));
    hide LexLe, Sorted, Text, BigEndian;
  }

  // ---- what separates sessions ----

  /** These two messages, at least, have different digests. */
  predicate NoCollision(x: Suite, m: seq<nat>, n: seq<nat>) { x.hash(m) == x.hash(n) ==> m == n }

  /** The message whose digest is the channel binding of a key. */
  function BindingInput(key: Bytes32): seq<nat> { Text("pulsar-channel-binding-v1") + key }

  /** The channel binding is a digest of the key, so sessions under different keys, such as the two
      legs of a man in the middle, have different bindings unless these messages collide. */
  lemma BindingsSeparate(x: Suite, secret: Bytes32, peer: Bytes32, r: Role, sid: nat, ours: LocalHs, theirs: PeerHs,
                         secret': Bytes32, peer': Bytes32, r': Role, sid': nat, ours': LocalHs, theirs': PeerHs)
    requires var c, d := SessionHs(x, secret, peer, r, sid, ours, theirs), SessionHs(x, secret', peer', r', sid', ours', theirs');
      c.key != d.key && NoCollision(x, BindingInput(c.key), BindingInput(d.key))
    ensures SessionHs(x, secret, peer, r, sid, ours, theirs).binding != SessionHs(x, secret', peer', r', sid', ours', theirs').binding
  {
    BindingIsDigest(x, secret, peer, r, sid, ours, theirs);
    BindingIsDigest(x, secret', peer', r', sid', ours', theirs');
    hide SessionHs;
    var c, d := SessionHs(x, secret, peer, r, sid, ours, theirs), SessionHs(x, secret', peer', r', sid', ours', theirs');
    var n := |Text("pulsar-channel-binding-v1")|;
    assert BindingInput(c.key)[n..] == c.key && BindingInput(d.key)[n..] == d.key;
  }

  lemma BindingIsDigest(x: Suite, secret: Bytes32, peer: Bytes32, r: Role, sid: nat, ours: LocalHs, theirs: PeerHs)
    ensures var c := SessionHs(x, secret, peer, r, sid, ours, theirs); c.binding == x.hash(BindingInput(c.key)) && c.role == r
  {
    hide DeriveKey, DeriveKeyV3;
  }

  // ---- addresses ----

  datatype Addr = V4(a: nat, b: nat, c: nat, d: nat, port: nat) | V6(id: nat, port: nat)

  predicate IsPrivateV4(addr: Addr) {
    addr.V4? && (
      || addr.a == 10 || (addr.a == 172 && 16 <= addr.b < 32) || (addr.a == 192 && addr.b == 168)
      || (addr.a == 169 && addr.b == 254)
      || addr.a == 127)
  }

  /** The address as a 32-bit number. */
  function Number(addr: Addr): nat
    requires addr.V4?
  {
    ((addr.a * 256 + addr.b) * 256 + addr.c) * 256 + addr.d
  }

  predicate InPrivateRange(n: nat) {
    || 0x0A00_0000 <= n <= 0x0AFF_FFFF   // 10/8
    || 0x7F00_0000 <= n <= 0x7FFF_FFFF   // 127/8
    || 0xA9FE_0000 <= n <= 0xA9FE_FFFF   // 169.254/16
    || 0xAC10_0000 <= n <= 0xAC1F_FFFF   // 172.16/12
    || 0xC0A8_0000 <= n <= 0xC0A8_FFFF   // 192.168/16
  }

  /** The private addresses are exactly 10/8, 127/8, 169.254/16, 172.16/12 and 192.168/16. */
  lemma PrivateRanges(addr: Addr)
    requires addr.V4? ==> addr.a < 256 && addr.b < 256 && addr.c < 256 && addr.d < 256
    ensures IsPrivateV4(addr) <==> addr.V4? && InPrivateRange(Number(addr))
  {
    if addr.V4? {
      var low := addr.c * 256 + addr.d;
      assert 0 <= low <= 0xFFFF && Number(addr) == addr.a * 0x100_0000 + addr.b * 0x1_0000 + low;
    }
  }

  // ---- the relay-path blob ----

  const HS_EXT_V1: nat := 1
  const HS_BLOB_LEN: nat := 104

  function LanBytes(lan: Option<Addr>): (r: seq<nat>)
    ensures |r| == 6
  {
    if lan.Some? && lan.value.V4? then
      [lan.value.a, lan.value.b, lan.value.c, lan.value.d] + BigEndian(lan.value.port, 2)
    else [0, 0, 0, 0, 0, 0]
  }

  /** pubkey(32) salt(32) LAN(6) version(1) caps(1) ephemeral(32) */
  function Blob(pubkey: Bytes32, salt: Bytes32, eph: Bytes32, caps: nat, lan: Option<Addr>): (r: seq<nat>)
    ensures |r| == HS_BLOB_LEN
  {
    pubkey + salt + LanBytes(lan) + [HS_EXT_V1, caps] + eph
  }

  function SplitBlob(blob: seq<nat>): Option<(Bytes32, PeerHs, nat)> {
    if |blob| < 64 then None
    else if |blob| >= HS_BLOB_LEN && blob[70] == HS_EXT_V1 then
      Some((blob[..32], PeerHs(blob[32..64], Some(blob[72..104])), blob[71]))
    else Some((blob[..32], PeerHs(blob[32..64], None), 0))
  }

  function ParseLan(blob: seq<nat>): Option<Addr> {
    if |blob| < 70 then None
    else
      var port := blob[68] * 256 + blob[69];
      if (blob[64] == 0 && blob[65] == 0 && blob[66] == 0 && blob[67] == 0) || port == 0 then None
      else Some(V4(blob[64], blob[65], blob[66], blob[67], port))
  }

  /** What a new peer reads from our blob is what we put in; the candidate survives exactly when
      it is a specified IPv4 address with a nonzero port. */
  lemma BlobRoundTrip(pubkey: Bytes32, salt: Bytes32, eph: Bytes32, caps: nat, lan: Option<Addr>)
    requires lan.Some? ==> lan.value.port < 65536
    ensures var blob := Blob(pubkey, salt, eph, caps, lan);
      && SplitBlob(blob) == Some((pubkey, PeerHs(salt, Some(eph)), caps))
      && ParseLan(blob) ==
         if lan.Some? && lan.value.V4? && lan.value.port != 0 &&
            !(lan.value.a == 0 && lan.value.b == 0 && lan.value.c == 0 && lan.value.d == 0)
         then lan else None
  {
    var blob := Blob(pubkey, salt, eph, caps, lan);
    assert blob[..32] == pubkey && blob[32..64] == salt && blob[72..104] == eph;
    assert blob[70] == HS_EXT_V1 && blob[71] == caps;
    var l := LanBytes(lan);
    assert forall i :: 0 <= i < 6 ==> blob[64 + i] == l[i];
    if lan.Some? && lan.value.V4? {
      var port := lan.value.port;
      PortBytes(port);
      assert l[4] == BigEndian(port, 2)[0] && l[5] == BigEndian(port, 2)[1];
    }
  }

  /** A blob without the extension, or with one of another version, is read as the older form:
      identity and salt, no ephemeral key and no capabilities; under 64 bytes it is refused. */
  lemma LegacyBlob(pubkey: Bytes32, salt: Bytes32, rest: seq<nat>, short: seq<nat>)
    requires (|rest| < 40 || rest[6] != HS_EXT_V1) && |short| < 64
    ensures SplitBlob(pubkey + salt + rest) == Some((pubkey, PeerHs(salt, None), 0)) && SplitBlob(short).None?
  {
    var blob := pubkey + salt + rest;
    assert blob[..32] == pubkey && blob[32..64] == salt;
    assert |rest| >= 40 ==> blob[70] == rest[6];
  }

  lemma PortBytes(port: nat)
    requires port < 65536
    ensures BigEndian(port, 2) == [port / 256, port % 256] && port == (port / 256) * 256 + port % 256
  {
    assert BigEndian(port, 2) == BigEndian(port / 256, 1) + [port % 256];
    assert BigEndian(port / 256, 1) == BigEndian(port / 256 / 256, 0) + [port / 256 % 256];
  }
}
