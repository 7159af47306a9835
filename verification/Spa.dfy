/**
 The single-packet authorisation of common/noiseutil/noiseutil.go.  Hash, HMAC, Curve25519, AES-GCM and base64
 are the fields of `Suite`.  The schedule starts from the hash of the protocol name although the name is exactly
 as long as a hash; agreement of the two sides is what is proved, not conformance with section 5.2 of the Noise
 Protocol Framework.
 */
module Spa {
  import opened Wrappers

  type Byte = x: int | 0 <= x < 256
  type Bytes = seq<Byte>

  datatype Suite = Suite(
    sha: Bytes -> Bytes,
    hmac: (Bytes, Bytes) -> Bytes,
    base: Bytes -> Option<Bytes>,
    dh: (Bytes, Bytes) -> Option<Bytes>,
    seal: (Bytes, Bytes, Bytes, Bytes) -> Option<Bytes>,
    open: (Bytes, Bytes, Bytes, Bytes) -> Option<Bytes>,
    encode: Bytes -> string,
    decode: string -> Option<Bytes>,
    hex: Bytes -> string)

  // ---------- what is assumed of the suite ----------

  ghost predicate Sizes(x: Suite) {
    && (forall k, d :: |x.hmac(k, d)| == 32)
    && (forall a :: x.base(a).Some? ==> |x.base(a).value| == 32)
  }

  ghost predicate Commutes(x: Suite) {
    forall a, b :: x.base(a).Some? && x.base(b).Some? ==> x.dh(a, x.base(b).value) == x.dh(b, x.base(a).value)
  }

  /** Sealing under a 256-bit key adds a tag, and opening undoes it. */
  ghost predicate AeadCorrect(x: Suite) {
    forall k, n, ad, p :: |k| == 32 ==>
      && x.seal(k, n, ad, p).Some?
      && |x.seal(k, n, ad, p).value| == |p| + TAG_LEN
      && x.open(k, n, ad, x.seal(k, n, ad, p).value) == Some(p)
  }

  // ---------- integers as bytes ----------

  function Pow256(n: nat): (r: nat)
    ensures r > 0
  {
    if n == 0 then 1 else 256 * Pow256(n - 1)
  }

  function ToBE(n: nat, len: nat): (r: Bytes)
    ensures |r| == len
  {
    if len == 0 then [] else ToBE(n / 256, len - 1) + [n % 256]
  }

  function FromBE(s: Bytes): nat {
    if s == [] then 0 else FromBE(s[..|s| - 1]) * 256 + s[|s| - 1]
  }

  function ToLE(n: nat, len: nat): (r: Bytes)
    ensures |r| == len
  {
    if len == 0 then [] else [n % 256] + ToLE(n / 256, len - 1)
  }

  lemma {:induction false} BigEndianRoundTrip(n: nat, len: nat)
    requires n < Pow256(len)
    ensures FromBE(ToBE(n, len)) == n
  {
    if len > 0 {
      BigEndianRoundTrip(n / 256, len - 1);
      assert ToBE(n, len)[..len - 1] == ToBE(n / 256, len - 1);
    }
  }

  const TWO63: int := 0x8000_0000_0000_0000
  const TWO64: int := 0x1_0000_0000_0000_0000

  /** Go's conversions between int64 and uint64. */
  function Unsigned(t: int): nat {
    t % TWO64
  }

  function Signed(u: nat): int {
    if u >= TWO63 then u - TWO64 else u
  }

  lemma TimestampRoundTrip(t: int)
    requires -TWO63 <= t < TWO63
    ensures Signed(FromBE(ToBE(Unsigned(t), 8))) == t
  {
    assert Pow256(2) == 0x1_0000;
    assert Pow256(4) == 0x1_0000_0000;
    assert Pow256(6) == 0x1_0000_0000_0000;
    assert Pow256(8) == TWO64;
    BigEndianRoundTrip(Unsigned(t), 8);
  }

  // ---------- the symmetric state ----------

  const PROTOCOL_NAME := "Noise_IKpsk1_25519_AESGCM_SHA256"

  function Ascii(s: string): Bytes {
    seq(|s|, i requires 0 <= i < |s| => s[i] as int % 256)
  }

  datatype Sym = Sym(ck: Bytes, h: Bytes, k: Option<Bytes>, n: nat)

  function NewSym(x: Suite): Sym {
    Sym(x.sha(Ascii(PROTOCOL_NAME)), x.sha(Ascii(PROTOCOL_NAME)), None, 0)
  }

  function Hkdf2(x: Suite, ck: Bytes, input: Bytes): (Bytes, Bytes) {
    var temp := x.hmac(ck, input);
    var out1 := x.hmac(temp, [1]);
    (out1, x.hmac(temp, out1 + [2]))
  }

  function Hkdf3(x: Suite, ck: Bytes, input: Bytes): (Bytes, Bytes, Bytes) {
    var temp := x.hmac(ck, input);
    var out1 := x.hmac(temp, [1]);
    var out2 := x.hmac(temp, out1 + [2]);
    (out1, out2, x.hmac(temp, out2 + [3]))
  }

  function MixedHash(x: Suite, s: Sym, data: Bytes): Sym {
    s.(h := x.sha(s.h + data))
  }

  function MixedKey(x: Suite, s: Sym, input: Bytes): Sym {
    var (ck, k) := Hkdf2(x, s.ck, input);
    s.(ck := ck, k := Some(k), n := 0)
  }

  function MixedKeyAndHash(x: Suite, s: Sym, input: Bytes): Sym {
    var (ck, h, k) := Hkdf3(x, s.ck, input);
    MixedHash(x, s.(ck := ck), h).(k := Some(k), n := 0)
  }

  /** noiseNonce: four zero bytes and the counter, little-endian as the code has it. */
  function Nonce(n: nat): Bytes {
    [0, 0, 0, 0] + ToLE(n, 8)
  }

  function EncryptWithKey(x: Suite, key: Option<Bytes>, n: nat, ad: Bytes, plain: Bytes): Option<Bytes> {
    if key.None? then Some(plain) else x.seal(key.value, Nonce(n), ad, plain)
  }

  function DecryptWithKey(x: Suite, key: Option<Bytes>, n: nat, ad: Bytes, sealed: Bytes): Option<Bytes> {
    if key.None? then Some(sealed) else x.open(key.value, Nonce(n), ad, sealed)
  }

  function Counted(s: Sym): Sym {
    if s.k.Some? then s.(n := s.n + 1) else s
  }

  function ResponseKeyOf(x: Suite, s: Sym): Bytes {
    Hkdf2(x, s.ck, []).1
  }

  class SymmetricState {
    const x: Suite
    var ck: Bytes
    var h: Bytes
    var k: Option<Bytes>
    var n: nat

    function View(): Sym
      reads this
    {
      Sym(ck, h, k, n)
    }

    constructor (x: Suite)
      ensures this.x == x && View() == NewSym(x)
      ensures ck == h == x.sha(Ascii("Noise_IKpsk1_25519_AESGCM_SHA256")) && k == None && n == 0
    {
      this.x := x;
      var digest := x.sha(Ascii(PROTOCOL_NAME));
      ck, h, k, n := digest, digest, None, 0;
    }

    method MixHash(data: Bytes)
      modifies this
      ensures View() == MixedHash(x, old(View()), data)
      ensures h == x.sha(old(h) + data) && ck == old(ck) && k == old(k) && n == old(n)
    {
      h := x.sha(h + data);
    }

    method MixKey(input: Bytes)
      modifies this
      ensures View() == MixedKey(x, old(View()), input)
      ensures var secret := x.hmac(old(ck), input);
        ck == x.hmac(secret, [1]) && k == Some(x.hmac(secret, ck + [2])) && n == 0 && h == old(h)
    {
      var (out1, out2) := Hkdf2(x, ck, input);
      ck, k, n := out1, Some(out2), 0;
    }

    method MixKeyAndHash(input: Bytes)
      modifies this
      ensures View() == MixedKeyAndHash(x, old(View()), input)
      ensures var secret := x.hmac(old(ck), input);
        var mixed := x.hmac(secret, x.hmac(secret, [1]) + [2]);
        && ck == x.hmac(secret, [1]) && h == x.sha(old(h) + mixed) && k == Some(x.hmac(secret, mixed + [3])) && n == 0
    {
      var (out1, out2, out3) := Hkdf3(x, ck, input);
      ck := out1;
      MixHash(out2);
      k, n := Some(out3), 0;
    }

    method EncryptAndHash(plain: Bytes) returns (r: Option<Bytes>)
      modifies this
      ensures r == EncryptWithKey(x, old(k), old(n), old(h), plain)
      ensures r == if old(k).None? then Some(plain) else x.seal(old(k).value, Nonce(old(n)), old(h), plain)
      ensures View() == if r.Some? then MixedHash(x, Counted(old(View())), r.value) else old(View())
      ensures ck == old(ck) && k == old(k) && h == if r.Some? then x.sha(old(h) + r.value) else old(h)
      ensures n == old(n) + if r.Some? && k.Some? then 1 else 0
    {
      r := EncryptWithKey(x, k, n, h, plain);
      if r.Some? {
        if k.Some? {
          n := n + 1;
        }
        MixHash(r.value);
      }
    }

    method DecryptAndHash(sealed: Bytes) returns (r: Option<Bytes>)
      modifies this
      ensures r == DecryptWithKey(x, old(k), old(n), old(h), sealed)
      ensures r == if old(k).None? then Some(sealed) else x.open(old(k).value, Nonce(old(n)), old(h), sealed)
      ensures View() == if r.Some? then MixedHash(x, Counted(old(View())), sealed) else old(View())
      ensures ck == old(ck) && k == old(k) && h == if r.Some? then x.sha(old(h) + sealed) else old(h)
      ensures n == old(n) + if r.Some? && k.Some? then 1 else 0
    {
      r := DecryptWithKey(x, k, n, h, sealed);
      if r.Some? {
        if k.Some? {
          n := n + 1;
        }
        MixHash(sealed);
      }
    }

    method Split() returns (k1: Bytes, k2: Bytes)
      ensures (k1, k2) == Hkdf2(x, ck, [])
      ensures k1 == x.hmac(x.hmac(ck, []), [1]) && k2 == x.hmac(x.hmac(ck, []), k1 + [2])
    {
      var keys := Hkdf2(x, ck, []);
      k1, k2 := keys.0, keys.1;
    }
  }

  // ---------- packets ----------

  const E_LEN := 32
  const PUB_LEN := 32
  const STAMP_LEN := 8
  const TAG_LEN := 16
  const NS_LEN := STAMP_LEN + PUB_LEN + TAG_LEN
  const MAX_PACKET := 1200
  const MAX_PAYLOAD := MAX_PACKET - E_LEN - NS_LEN - TAG_LEN
  const MILLI: int := 1_000_000

  datatype SpaError = InvalidPacket | InvalidTime | InvalidKey | CryptoFailed | DecryptFailed

  datatype ClientIdentity = ClientIdentity(staticPub: string, staticPriv: string, psk: string)

  datatype PDPIdentity = PDPIdentity(staticPriv: string, psk: string)

  datatype BuildResult = BuildResult(packet: Bytes, packetHash: string, responseKey: Bytes, timestampMS: int)

  datatype OpenResult = OpenResult(clientPub: string, timestampMS: int, payload: Bytes, packetHash: string,
                                   responseKey: Bytes)

  function DecodeKey(x: Suite, s: string): Option<Bytes> {
    var b := x.decode(s);
    if b.Some? && |b.value| == 32 then b else None
  }

  function PacketHash(x: Suite, packet: Bytes): string {
    x.hex(x.sha(packet))
  }

  /** After e and es. */
  function HeaderState(x: Suite, ePub: Bytes, es: Bytes): Sym {
    MixedKey(x, MixedKey(x, MixedHash(x, NewSym(x), ePub), ePub), es)
  }

  /** After the header was sealed, then ss and psk. */
  function PayloadState(x: Suite, header: Sym, nsCipher: Bytes, ss: Bytes, psk: Bytes): Sym {
    MixedKeyAndHash(x, MixedKey(x, MixedHash(x, Counted(header), nsCipher), ss), psk)
  }

  /** UnixMilli: the milliseconds since the epoch, rounded down. */
  function Millis(now: int): int {
    now / MILLI
  }

  function Build(x: Suite, client: ClientIdentity, pdpPub: string, payload: Bytes, ePriv: Bytes, now: int)
    : Result<BuildResult, SpaError>
  {
    var cPriv, cPub, pPub, psk :=
      DecodeKey(x, client.staticPriv), DecodeKey(x, client.staticPub), DecodeKey(x, pdpPub), DecodeKey(x, client.psk);
    if cPriv.None? || cPub.None? || pPub.None? || psk.None? then Failure(InvalidKey)
    else
      var ePub, es, ss := x.base(ePriv), x.dh(ePriv, pPub.value), x.dh(cPriv.value, pPub.value);
      if ePub.None? || es.None? then Failure(CryptoFailed)
      else
        var header := HeaderState(x, ePub.value, es.value);
        var ns := EncryptWithKey(x, header.k, header.n, header.h, ToBE(Unsigned(Millis(now)), 8) + cPub.value);
        if ns.None? || ss.None? then Failure(CryptoFailed)
        else
          var body := PayloadState(x, header, ns.value, ss.value, psk.value);
          var nm := EncryptWithKey(x, body.k, body.n, body.h, payload);
          if nm.None? then Failure(CryptoFailed)
          else
            var packet := ePub.value + ns.value + nm.value;
            Success(BuildResult(packet, PacketHash(x, packet),
                                ResponseKeyOf(x, MixedHash(x, Counted(body), nm.value)), Millis(now)))
  }

  /** What opening the header hands on to the completion. */
  datatype Header = Header(clientPub: string, timestampMS: int, packetHash: string, pdpPriv: Bytes, clientRaw: Bytes,
                           nmCipher: Bytes, ss: Sym)

  predicate WithinSkew(timestampMS: int, now: int, skew: int) {
    now - timestampMS * MILLI <= skew && timestampMS * MILLI - now <= skew
  }

  function OpenHeader(x: Suite, packet: Bytes, pdpPriv: string, now: int, skew: int): Result<Header, SpaError> {
    if |packet| < E_LEN + NS_LEN + TAG_LEN || |packet| > MAX_PACKET then Failure(InvalidPacket)
    else
      var priv := DecodeKey(x, pdpPriv);
      if priv.None? then Failure(InvalidKey)
      else
        var ePub, nsCipher, nmCipher := packet[..E_LEN], packet[E_LEN..E_LEN + NS_LEN], packet[E_LEN + NS_LEN..];
        var es := x.dh(priv.value, ePub);
        if es.None? then Failure(CryptoFailed)
        else
          var header := HeaderState(x, ePub, es.value);
          var ns := DecryptWithKey(x, header.k, header.n, header.h, nsCipher);
          if ns.None? then Failure(DecryptFailed)
          else if |ns.value| != STAMP_LEN + PUB_LEN then Failure(InvalidPacket)
          else
            var stamp := Signed(FromBE(ns.value[..STAMP_LEN]));
            if !WithinSkew(stamp, now, skew) then Failure(InvalidTime)
            else
              Success(Header(x.encode(ns.value[STAMP_LEN..]), stamp, PacketHash(x, packet), priv.value,
                             ns.value[STAMP_LEN..], nmCipher, MixedHash(x, Counted(header), nsCipher)))
  }

  function Complete(x: Suite, header: Header, pskText: string): Result<OpenResult, SpaError> {
    var psk := DecodeKey(x, pskText);
    if psk.None? then Failure(InvalidKey)
    else if |header.pdpPriv| != 32 || |header.clientRaw| != 32 then Failure(InvalidPacket)
    else
      var ss := x.dh(header.pdpPriv, header.clientRaw);
      if ss.None? then Failure(CryptoFailed)
      else
        var body := MixedKeyAndHash(x, MixedKey(x, header.ss, ss.value), psk.value);
        var payload := DecryptWithKey(x, body.k, body.n, body.h, header.nmCipher);
        if payload.None? then Failure(DecryptFailed)
        else
          Success(OpenResult(header.clientPub, header.timestampMS, payload.value, header.packetHash,
                             ResponseKeyOf(x, MixedHash(x, Counted(body), header.nmCipher))))
  }

  function Open(x: Suite, packet: Bytes, pdp: PDPIdentity, now: int, skew: int): Result<OpenResult, SpaError> {
    match OpenHeader(x, packet, pdp.staticPriv, now, skew)
    case Failure(err) => Failure(err)
    case Success(header) => Complete(x, header, pdp.psk)
  }

  // ---------- the same with the mutable state of the code ----------

  method BuildIKpsk1SPA(x: Suite, client: ClientIdentity, pdpPub: string, payload: Bytes, ePriv: Bytes, now: int)
    returns (r: Result<BuildResult, SpaError>)
    ensures r == Build(x, client, pdpPub, payload, ePriv, now)
  {
    var cPriv, cPub := DecodeKey(x, client.staticPriv), DecodeKey(x, client.staticPub);
    var pPub, psk := DecodeKey(x, pdpPub), DecodeKey(x, client.psk);
    if cPriv.None? || cPub.None? || pPub.None? || psk.None? {
      return Failure(InvalidKey);
    }
    var ePub := x.base(ePriv);
    if ePub.None? {
      return Failure(CryptoFailed);
    }
    var ss := new SymmetricState(x);
    ss.MixHash(ePub.value);
    ss.MixKey(ePub.value);
    var es := x.dh(ePriv, pPub.value);
    if es.None? {
      return Failure(CryptoFailed);
    }
    ss.MixKey(es.value);
    ghost var header := ss.View();
    assert header == HeaderState(x, ePub.value, es.value);
    var timestampMS := Millis(now);
    var ns := ss.EncryptAndHash(ToBE(Unsigned(timestampMS), 8) + cPub.value);
    if ns.None? {
      return Failure(CryptoFailed);
    }
    var ssDH := x.dh(cPriv.value, pPub.value);
    if ssDH.None? {
      return Failure(CryptoFailed);
    }
    ss.MixKey(ssDH.value);
    ss.MixKeyAndHash(psk.value);
    assert ss.View() == PayloadState(x, header, ns.value, ssDH.value, psk.value);
    var nm := ss.EncryptAndHash(payload);
    if nm.None? {
      return Failure(CryptoFailed);
    }
    var packet := ePub.value + ns.value + nm.value;
    var k1, responderToInitiator := ss.Split();
    return Success(BuildResult(packet, PacketHash(x, packet), responderToInitiator, timestampMS));
  }

  datatype OpenedHeader = OpenedHeader(clientPub: string, timestampMS: int, packetHash: string, pdpPriv: Bytes,
                                       clientRaw: Bytes, nmCipher: Bytes, ss: SymmetricState)
  {
    function View(): Header
      reads ss
    {
      Header(clientPub, timestampMS, packetHash, pdpPriv, clientRaw, nmCipher, ss.View())
    }
  }

  method OpenIKpsk1SPAHeader(x: Suite, packet: Bytes, pdpPriv: string, now: int, skew: int)
    returns (r: Result<OpenedHeader, SpaError>)
    ensures r.Failure? ==> OpenHeader(x, packet, pdpPriv, now, skew) == Failure(r.error)
    ensures r.Success? ==> fresh(r.value.ss) && r.value.ss.x == x
    ensures r.Success? ==> OpenHeader(x, packet, pdpPriv, now, skew) == Success(r.value.View())
  {
    if |packet| < E_LEN + NS_LEN + TAG_LEN || |packet| > MAX_PACKET {
      return Failure(InvalidPacket);
    }
    var priv := DecodeKey(x, pdpPriv);
    if priv.None? {
      return Failure(InvalidKey);
    }
    var ePub, nsCipher, nmCipher := packet[..E_LEN], packet[E_LEN..E_LEN + NS_LEN], packet[E_LEN + NS_LEN..];
    var ss := new SymmetricState(x);
    ss.MixHash(ePub);
    ss.MixKey(ePub);
    var es := x.dh(priv.value, ePub);
    if es.None? {
      return Failure(CryptoFailed);
    }
    ss.MixKey(es.value);
    assert ss.View() == HeaderState(x, ePub, es.value);
    var ns := ss.DecryptAndHash(nsCipher);
    if ns.None? {
      return Failure(DecryptFailed);
    }
    if |ns.value| != STAMP_LEN + PUB_LEN {
      return Failure(InvalidPacket);
    }
    var stamp := Signed(FromBE(ns.value[..STAMP_LEN]));
    if now - stamp * MILLI > skew || stamp * MILLI - now > skew {
      return Failure(InvalidTime);
    }
    var raw := ns.value[STAMP_LEN..];
    return Success(OpenedHeader(x.encode(raw), stamp, PacketHash(x, packet), priv.value, raw, nmCipher, ss));
  }

  method CompleteIKpsk1SPA(header: OpenedHeader, pskText: string) returns (r: Result<OpenResult, SpaError>)
    modifies header.ss
    ensures r == Complete(header.ss.x, old(header.View()), pskText)
  {
    var x := header.ss.x;
    var psk := DecodeKey(x, pskText);
    if psk.None? {
      return Failure(InvalidKey);
    }
    if |header.pdpPriv| != 32 || |header.clientRaw| != 32 {
      return Failure(InvalidPacket);
    }
    var ssDH := x.dh(header.pdpPriv, header.clientRaw);
    if ssDH.None? {
      return Failure(CryptoFailed);
    }
    header.ss.MixKey(ssDH.value);
    header.ss.MixKeyAndHash(psk.value);
    var payload := header.ss.DecryptAndHash(header.nmCipher);
    if payload.None? {
      return Failure(DecryptFailed);
    }
    var k1, responderToInitiator := header.ss.Split();
    return Success(OpenResult(header.clientPub, header.timestampMS, payload.value, header.packetHash,
                              responderToInitiator));
  }

  method OpenIKpsk1SPA(x: Suite, packet: Bytes, pdp: PDPIdentity, now: int, skew: int)
    returns (r: Result<OpenResult, SpaError>)
    ensures r == Open(x, packet, pdp, now, skew)
  {
    var header := OpenIKpsk1SPAHeader(x, packet, pdp.staticPriv, now, skew);
    if header.Failure? {
      return Failure(header.error);
    }
    r := CompleteIKpsk1SPA(header.value, pdp.psk);
  }

  // ---------- both sides agree ----------

  /** The two identities are key pairs and share a PSK. */
  ghost predicate Paired(x: Suite, client: ClientIdentity, pdpPub: string, pdp: PDPIdentity) {
    var cPriv, cPub, pPriv, pPub :=
      DecodeKey(x, client.staticPriv), DecodeKey(x, client.staticPub), DecodeKey(x, pdp.staticPriv),
      DecodeKey(x, pdpPub);
    && cPriv.Some? && cPub.Some? && pPriv.Some? && pPub.Some?
    && x.base(cPriv.value) == cPub && x.base(pPriv.value) == pPub
    && DecodeKey(x, client.psk).Some? && DecodeKey(x, client.psk) == DecodeKey(x, pdp.psk)
  }

  /** What the PDP makes of a packet it was meant to receive. */
  function ExpectedVerdict(x: Suite, clientPub: Bytes, payload: Bytes, built: BuildResult, now: int, skew: int)
    : Result<OpenResult, SpaError>
  {
    if |payload| > MAX_PAYLOAD then Failure(InvalidPacket)
    else if !WithinSkew(built.timestampMS, now, skew) then Failure(InvalidTime)
    else Success(OpenResult(x.encode(clientPub), built.timestampMS, payload, built.packetHash, built.responseKey))
  }

  lemma SealOpens(x: Suite, s: Sym, plain: Bytes)
    requires AeadCorrect(x) && s.k.Some? && |s.k.value| == 32
    ensures var c := EncryptWithKey(x, s.k, s.n, s.h, plain);
      && c.Some? && |c.value| == |plain| + TAG_LEN
      && DecryptWithKey(x, s.k, s.n, s.h, c.value) == Some(plain)
  {
    assert x.seal(s.k.value, Nonce(s.n), s.h, plain).Some?;
  }

  lemma KeyedStates(x: Suite, ePub: Bytes, es: Bytes, nsCipher: Bytes, ss: Bytes, psk: Bytes)
    requires Sizes(x)
    ensures var header := HeaderState(x, ePub, es);
      && header.k.Some? && |header.k.value| == 32
      && var body := PayloadState(x, header, nsCipher, ss, psk); body.k.Some? && |body.k.value| == 32
  {
  }

  /** A built packet taken apart, and where the two sides' secrets agree. */
  lemma PacketParts(x: Suite, client: ClientIdentity, pdpPub: string, pdp: PDPIdentity, payload: Bytes, ePriv: Bytes,
                    now: int)
    returns (ePub: Bytes, es: Bytes, ns: Bytes, ss: Bytes, nm: Bytes)
    requires Sizes(x) && Commutes(x) && AeadCorrect(x) && Paired(x, client, pdpPub, pdp)
    requires Build(x, client, pdpPub, payload, ePriv, now).Success?
    ensures var cPub, pPriv, psk := DecodeKey(x, client.staticPub).value, DecodeKey(x, pdp.staticPriv).value,
        DecodeKey(x, pdp.psk).value;
      var header := HeaderState(x, ePub, es);
      var body := PayloadState(x, header, ns, ss, psk);
      && |ePub| == E_LEN && |ns| == NS_LEN && |nm| == |payload| + TAG_LEN
      && x.dh(pPriv, ePub) == Some(es) && x.dh(pPriv, cPub) == Some(ss)
      && DecryptWithKey(x, header.k, header.n, header.h, ns) == Some(ToBE(Unsigned(Millis(now)), 8) + cPub)
      && DecryptWithKey(x, body.k, body.n, body.h, nm) == Some(payload)
      && Build(x, client, pdpPub, payload, ePriv, now) ==
         Success(BuildResult(ePub + ns + nm, PacketHash(x, ePub + ns + nm),
                             ResponseKeyOf(x, MixedHash(x, Counted(body), nm)), Millis(now)))
  {
    hide HeaderState, PayloadState, EncryptWithKey, DecryptWithKey, ToBE, Counted, MixedHash, ResponseKeyOf,
      PacketHash, AeadCorrect;
    var cPriv, cPub, pPub, psk := DecodeKey(x, client.staticPriv).value, DecodeKey(x, client.staticPub).value,
      DecodeKey(x, pdpPub).value, DecodeKey(x, client.psk).value;
    ePub, es, ss := x.base(ePriv).value, x.dh(ePriv, pPub).value, x.dh(cPriv, pPub).value;
    var header := HeaderState(x, ePub, es);
    var stamped := ToBE(Unsigned(Millis(now)), 8) + cPub;
    ns := EncryptWithKey(x, header.k, header.n, header.h, stamped).value;
    var body := PayloadState(x, header, ns, ss, psk);
    nm := EncryptWithKey(x, body.k, body.n, body.h, payload).value;
    KeyedStates(x, ePub, es, ns, ss, psk);
    SealOpens(x, header, stamped);
    SealOpens(x, body, payload);
  }

  /**
   The round trip: a packet built for this PDP opens, under the same PSK, to the payload, timestamp and client
   key it was built from, with the response key the client kept, exactly if the payload is at most 1096 bytes
   and the PDP's clock is within the skew of the timestamp; otherwise it is refused for that reason.
   */
  lemma SpaRoundTrip(x: Suite, client: ClientIdentity, pdpPub: string, pdp: PDPIdentity, payload: Bytes, ePriv: Bytes,
                     built: int, now: int, skew: int)
    requires Sizes(x) && Commutes(x) && AeadCorrect(x) && Paired(x, client, pdpPub, pdp)
    requires -TWO63 <= Millis(built) < TWO63
    requires Build(x, client, pdpPub, payload, ePriv, built).Success?
    ensures var b := Build(x, client, pdpPub, payload, ePriv, built).value;
      Open(x, b.packet, pdp, now, skew)
      == ExpectedVerdict(x, DecodeKey(x, client.staticPub).value, payload, b, now, skew)
  {
    hide HeaderState, PayloadState, EncryptWithKey, DecryptWithKey, ToBE, Counted, MixedHash, ResponseKeyOf, PacketHash,
      AeadCorrect, Build, Commutes, Sizes, FromBE, Signed, Unsigned, Millis, WithinSkew;
    var ePub, es, ns, ss, nm := PacketParts(x, client, pdpPub, pdp, payload, ePriv, built);
    var packet := ePub + ns + nm;
    assert packet[..E_LEN] == ePub && packet[E_LEN..E_LEN + NS_LEN] == ns && packet[E_LEN + NS_LEN..] == nm;
    var cPub := DecodeKey(x, client.staticPub).value;
    var stamp := ToBE(Unsigned(Millis(built)), 8);
    assert (stamp + cPub)[..STAMP_LEN] == stamp && (stamp + cPub)[STAMP_LEN..] == cPub;
    TimestampRoundTrip(Millis(built));
    PayloadStateSplit(x, HeaderState(x, ePub, es), ns, ss, DecodeKey(x, pdp.psk).value);
  }

  lemma PayloadStateSplit(x: Suite, header: Sym, nsCipher: Bytes, ss: Bytes, psk: Bytes)
    ensures PayloadState(x, header, nsCipher, ss, psk)
            == MixedKeyAndHash(x, MixedKey(x, MixedHash(x, Counted(header), nsCipher), ss), psk)
  {
  }

  // ---------- the response ----------

  function EncryptResponse(x: Suite, key: Bytes, plain: Bytes): Option<Bytes> {
    EncryptWithKey(x, Some(key), 0, [], plain)
  }

  function DecryptResponse(x: Suite, key: Bytes, sealed: Bytes): Option<Bytes> {
    DecryptWithKey(x, Some(key), 0, [], sealed)
  }

  /** The answer the PDP seals under the key it derived, the client opens under the key it kept. */
  lemma ResponseRoundTrip(x: Suite, client: ClientIdentity, pdpPub: string, pdp: PDPIdentity, payload: Bytes,
                          ePriv: Bytes, built: int, now: int, skew: int, answer: Bytes)
    requires Sizes(x) && Commutes(x) && AeadCorrect(x) && Paired(x, client, pdpPub, pdp)
    requires -TWO63 <= Millis(built) < TWO63
    requires Build(x, client, pdpPub, payload, ePriv, built).Success?
    requires var b := Build(x, client, pdpPub, payload, ePriv, built).value; Open(x, b.packet, pdp, now, skew).Success?
    ensures var b := Build(x, client, pdpPub, payload, ePriv, built).value;
      var sealed := EncryptResponse(x, Open(x, b.packet, pdp, now, skew).value.responseKey, answer);
      sealed.Some? && DecryptResponse(x, b.responseKey, sealed.value) == Some(answer)
  {
    hide Open, HeaderState, PayloadState, ToBE, Counted, MixedHash, PacketHash, Commutes, FromBE, Millis, WithinSkew,
      Nonce;
    SpaRoundTrip(x, client, pdpPub, pdp, payload, ePriv, built, now, skew);
    var key := Build(x, client, pdpPub, payload, ePriv, built).value.responseKey;
    assert |key| == 32;
    assert x.seal(key, Nonce(0), [], answer).Some?;
  }
}
