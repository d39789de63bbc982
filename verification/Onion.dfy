/**
 * The Sphinx payment onion (BOLT 4, "Packet Construction", "Filler Generation"
 * and "Onion Decryption").
 *
 * Key streams, the MAC and the group are arbitrary functions, constrained only
 * by `Suite.Lawful`. The specification functions describe the packet each hop
 * ought to receive; `Construct` and `PeelWithSecret` are the loops of the
 * source, and `EveryHopPeels` and `Delivered` are the round trip.
 */
module Onion {
  import opened Wrappers
  import BigSize

  type Bytes = seq<bv8>
  type Scalar = Bytes
  type Mac = s: Bytes | |s| == 32 witness seq(32, _ => 0)
  type Point = s: Bytes | |s| == 33 witness seq(33, _ => 0)

  const PAYLOADS_LEN: nat := 1300
  const PACKET_LEN: nat := 1 + 33 + PAYLOADS_LEN + 32

  datatype KeyType = Rho | Mu | Pad

  /** The cryptography the onion is built from. */
  datatype Suite = Suite(
    generateKey: (KeyType, Bytes) -> Bytes,
    keystream: Bytes -> nat -> bv8,
    mac: (Bytes, Bytes) -> Mac,
    publicKey: Scalar -> Point,
    validPoint: Point -> bool,
    ecdh: (Point, Scalar) -> Bytes,
    blinding: (Point, Bytes) -> Scalar,
    tweakScalar: (Scalar, Scalar) -> Scalar,
    tweakPoint: (Point, Scalar) -> Point)
  {
    /** ECDH is a commuting action, blinding a key blinds its point, and
        public keys parse. */
    ghost predicate Lawful() {
      && (forall a, b :: ecdh(publicKey(a), b) == ecdh(publicKey(b), a))
      && (forall a, b :: tweakPoint(publicKey(a), b) == publicKey(tweakScalar(a, b)))
      && (forall a :: validPoint(publicKey(a)))
    }

    function Stream(secret: Bytes, i: nat): bv8 {
      keystream(generateKey(Rho, secret))(i)
    }
  }

  /** `SliceOutOfRange` stands for the panic of a slice past the end of the buffer. */
  datatype OnionError = InvalidVersion | InvalidPubkey | InvalidHmac | BadLength | BadPayload
    | SliceOutOfRange

  datatype OnionPacket = OnionPacket(version: bv8, ephemeralKey: Point, payloads: Bytes, hmac: Mac)

  datatype Peeled = Forward(payload: Bytes, next: OnionPacket) | Final(payload: Bytes)

  function Zeros(n: nat): (r: Bytes)
    ensures |r| == n
  {
    seq(n, _ => 0)
  }

  function CipherStream(suite: Suite, key: Bytes, n: nat): (r: Bytes)
    ensures |r| == n
  {
    seq(n, i requires 0 <= i < n => suite.keystream(key)(i))
  }

  function XorByte(a: bv8, b: bv8): bv8 {
    a ^ b
  }

  function Xor(a: Bytes, b: Bytes): (r: Bytes)
    requires |a| <= |b|
    ensures |r| == |a|
    ensures forall i | 0 <= i < |a| :: r[i] == XorByte(a[i], b[i])
  {
    seq(|a|, i requires 0 <= i < |a| => XorByte(a[i], b[i]))
  }

  // ------------------------------------------------------------- the packet

  function Serialize(p: OnionPacket): Bytes {
    [p.version] + p.ephemeralKey + p.payloads + p.hmac
  }

  function Parse(suite: Suite, data: Bytes): Result<OnionPacket, OnionError> {
    if |data| != PACKET_LEN then Err(BadLength)
    else if data[0] != 0 then Err(InvalidVersion)
    else if !suite.validPoint(data[1..34]) then Err(InvalidPubkey)
    else Ok(OnionPacket(data[0], data[1..34], data[34..34 + PAYLOADS_LEN], data[34 + PAYLOADS_LEN..]))
  }

  /** A packet survives the wire exactly when its payload area has the fixed
      length, its version is 0 and its point is on the curve. */
  lemma ParseSerialize(suite: Suite, p: OnionPacket)
    ensures Parse(suite, Serialize(p)) == Ok(p) <==>
            |p.payloads| == PAYLOADS_LEN && p.version == 0 && suite.validPoint(p.ephemeralKey)
  {
    var data := Serialize(p);
    assert data[1..34] == p.ephemeralKey;
    if |p.payloads| == PAYLOADS_LEN {
      assert data[34..34 + PAYLOADS_LEN] == p.payloads;
      assert data[34 + PAYLOADS_LEN..] == p.hmac;
    }
  }

  // ------------------------------------------------------------ the sender

  /** The sender's ephemeral key when it reaches hop `i`. */
  function Ephemeral(suite: Suite, session: Scalar, path: seq<Point>, i: nat): Scalar
    requires i <= |path|
  {
    if i == 0 then session
    else
      var e := Ephemeral(suite, session, path, i - 1);
      suite.tweakScalar(e, suite.blinding(suite.publicKey(e), suite.ecdh(path[i - 1], e)))
  }

  function SecretAt(suite: Suite, session: Scalar, path: seq<Point>, i: nat): Bytes
    requires i < |path|
  {
    suite.ecdh(path[i], Ephemeral(suite, session, path, i))
  }

  function SecretsFor(suite: Suite, session: Scalar, path: seq<Point>): (r: seq<Bytes>)
    ensures |r| == |path|
    ensures forall i | 0 <= i < |r| :: r[i] == SecretAt(suite, session, path, i)
  {
    seq(|path|, i requires 0 <= i < |path| => SecretAt(suite, session, path, i))
  }

  function ShiftSize(payloadLen: nat): nat {
    BigSize.Len(payloadLen) + payloadLen + 32
  }

  /** The room taken by the first `i` hops. */
  function Covered(payloads: seq<Bytes>, i: nat): nat
    requires i <= |payloads|
  {
    if i == 0 then 0 else Covered(payloads, i - 1) + ShiftSize(|payloads[i - 1]|)
  }

  lemma {:induction false} CoveredGrows(payloads: seq<Bytes>, i: nat, j: nat)
    requires i <= j <= |payloads|
    ensures Covered(payloads, i) <= Covered(payloads, j)
    decreases j
  {
    if i < j {
      CoveredGrows(payloads, i, j - 1);
    }
  }

  ghost predicate Fits(payloads: seq<Bytes>) {
    payloads != [] && Covered(payloads, |payloads|) <= PAYLOADS_LEN
  }

  lemma RoomFor(payloads: seq<Bytes>, i: nat)
    requires Fits(payloads) && i < |payloads|
    ensures Covered(payloads, i) + ShiftSize(|payloads[i]|) <= PAYLOADS_LEN
    ensures |payloads[i]| < PAYLOADS_LEN - 32
  {
    CoveredGrows(payloads, i + 1, |payloads|);
  }

  function Frame(payload: Bytes, hmac: Mac): (r: Bytes)
    requires |payload| <= PAYLOADS_LEN
    ensures |r| == ShiftSize(|payload|)
  {
    BigSize.Write(|payload|) + payload + hmac
  }

  /** The stream bytes hop `i` adds under the region its predecessors shifted in. */
  function FillerStream(suite: Suite, secret: Bytes, covered: nat, shift: nat): (r: Bytes)
    requires covered <= PAYLOADS_LEN
    ensures |r| == covered + shift
    ensures forall k | 0 <= k < |r| :: r[k] == suite.Stream(secret, PAYLOADS_LEN - covered + k)
  {
    seq(covered + shift, k requires 0 <= k < covered + shift => suite.Stream(secret, PAYLOADS_LEN - covered + k))
  }

  /** What the first `i` hops leave at the end of the payload area. */
  function Filler(suite: Suite, secrets: seq<Bytes>, payloads: seq<Bytes>, i: nat): (r: Bytes)
    requires Fits(payloads) && |secrets| == |payloads| && i <= |payloads|
    ensures |r| == Covered(payloads, i)
  {
    if i == 0 then []
    else
      var shift := ShiftSize(|payloads[i - 1]|);
      RoomFor(payloads, i - 1);
      Xor(Filler(suite, secrets, payloads, i - 1) + Zeros(shift),
          FillerStream(suite, secrets[i - 1], Covered(payloads, i - 1), shift))
  }

  /** The payload area and MAC arriving at one hop. */
  datatype Layer = Layer(mix: Bytes, hmac: Mac)

  function Sealed(suite: Suite, secret: Bytes, mix: Bytes, assoc: Bytes): Layer {
    Layer(mix, suite.mac(suite.generateKey(Mu, secret), mix + assoc))
  }

  /** The area before the MAC is taken: frame, the next layer shifted right, encrypted. */
  function Wrapped(suite: Suite, secret: Bytes, payload: Bytes, next: Layer): (r: Bytes)
    requires ShiftSize(|payload|) <= PAYLOADS_LEN == |next.mix|
    ensures |r| == PAYLOADS_LEN
  {
    var frame := Frame(payload, next.hmac);
    Xor(frame + next.mix[..PAYLOADS_LEN - |frame|],
        CipherStream(suite, suite.generateKey(Rho, secret), PAYLOADS_LEN))
  }

  /** The layer for hop `i`; at `|payloads|` the padding the sender starts from. */
  function LayerAt(suite: Suite, session: Scalar, secrets: seq<Bytes>, payloads: seq<Bytes>, assoc: Bytes, i: nat)
    : (r: Layer)
    requires Fits(payloads) && |secrets| == |payloads| && i <= |payloads|
    ensures |r.mix| == PAYLOADS_LEN
    decreases |payloads| - i
  {
    if i == |payloads| then
      Layer(CipherStream(suite, suite.generateKey(Pad, session), PAYLOADS_LEN), Zeros(32))
    else
      RoomFor(payloads, i);
      var wrapped := Wrapped(suite, secrets[i], payloads[i],
                             LayerAt(suite, session, secrets, payloads, assoc, i + 1));
      var mix := if i == |payloads| - 1
                 then wrapped[..PAYLOADS_LEN - Covered(payloads, i)] + Filler(suite, secrets, payloads, i)
                 else wrapped;
      Sealed(suite, secrets[i], mix, assoc)
  }

  /** The packet hop `i` ought to receive. */
  function PacketAt(
    suite: Suite, session: Scalar, path: seq<Point>, payloads: seq<Bytes>, assoc: Bytes, i: nat): (r: OnionPacket)
    requires Fits(payloads) && |path| == |payloads| && i <= |payloads|
    ensures |r.payloads| == PAYLOADS_LEN
  {
    var layer := LayerAt(suite, session, SecretsFor(suite, session, path), payloads, assoc, i);
    OnionPacket(0, suite.publicKey(Ephemeral(suite, session, path, i)), layer.mix, layer.hmac)
  }

  // -------------------------------------------------------------- one hop

  function Decrypted(suite: Suite, secret: Bytes, payloads: Bytes): (r: Bytes)
    requires |payloads| == PAYLOADS_LEN
    ensures |r| == PAYLOADS_LEN * 2
  {
    Xor(payloads + Zeros(PAYLOADS_LEN), CipherStream(suite, suite.generateKey(Rho, secret), PAYLOADS_LEN * 2))
  }

  /** A hop's share of the decrypted buffer: `BigSize(len) || payload || hmac`. */
  datatype Share = Share(payload: Bytes, hmac: Mac, consumed: nat)

  function Unpack(buf: Bytes): (r: Result<Share, OnionError>)
    requires |buf| == PAYLOADS_LEN * 2
    ensures r.Ok? ==> r.value.consumed <= |buf|
  {
    var len := BigSize.ReadFrom(buf);
    if len.Err? || !(2 <= len.value.value <= PAYLOADS_LEN - 32) then Err(BadPayload)
    else
      var at := len.value.consumed;
      var end := at + len.value.value;
      Ok(Share(buf[at..end], buf[end..end + 32], end + 32))
  }

  function Peel(suite: Suite, secret: Bytes, packet: OnionPacket, assoc: Bytes): (r: Result<Peeled, OnionError>)
    requires |packet.payloads| == PAYLOADS_LEN
    ensures r.Ok? && r.value.Forward? ==> |r.value.next.payloads| == PAYLOADS_LEN
  {
    if packet.version != 0 then Err(InvalidVersion)
    else if suite.mac(suite.generateKey(Mu, secret), packet.payloads + assoc) != packet.hmac then Err(InvalidHmac)
    else
      var buf := Decrypted(suite, secret, packet.payloads);
      match Unpack(buf)
      case Err(e) => Err(e)
      case Ok(share) =>
        if share.hmac == Zeros(32) then Ok(Final(share.payload))
        else if share.consumed > PAYLOADS_LEN then Err(SliceOutOfRange)
        else
          Ok(Forward(share.payload, OnionPacket(
            0, suite.tweakPoint(packet.ephemeralKey, suite.blinding(packet.ephemeralKey, secret)),
            buf[share.consumed..share.consumed + PAYLOADS_LEN], share.hmac)))
  }

  // --------------------------------------------------- the filler argument

  lemma XorTwice(a: bv8, b: bv8)
    ensures XorByte(XorByte(a, b), b) == a && XorByte(0, a) == a
  {
  }

  /** The area of the layer for hop `i`, when it is not the last one, is the wrapped one. */
  lemma LayerInside(suite: Suite, session: Scalar, secrets: seq<Bytes>, payloads: seq<Bytes>, assoc: Bytes, i: nat)
    requires Fits(payloads) && |secrets| == |payloads| && i + 1 < |payloads|
    ensures ShiftSize(|payloads[i]|) <= PAYLOADS_LEN
    ensures LayerAt(suite, session, secrets, payloads, assoc, i).mix ==
            Wrapped(suite, secrets[i], payloads[i], LayerAt(suite, session, secrets, payloads, assoc, i + 1))
  {
    RoomFor(payloads, i);
  }

  /** The area before encryption. */
  function Plain(payload: Bytes, next: Layer): (r: Bytes)
    requires ShiftSize(|payload|) <= PAYLOADS_LEN == |next.mix|
    ensures |r| == PAYLOADS_LEN
    ensures forall k | ShiftSize(|payload|) <= k < PAYLOADS_LEN :: r[k] == next.mix[k - ShiftSize(|payload|)]
  {
    Frame(payload, next.hmac) + next.mix[..PAYLOADS_LEN - ShiftSize(|payload|)]
  }

  lemma WrappedAt(suite: Suite, secret: Bytes, payload: Bytes, next: Layer, k: nat)
    requires ShiftSize(|payload|) <= PAYLOADS_LEN == |next.mix|
    requires k < PAYLOADS_LEN
    ensures Wrapped(suite, secret, payload, next)[k] == XorByte(Plain(payload, next)[k], suite.Stream(secret, k))
  {
    hide Frame;
  }

  /** One step of the filler: what hop `i` sees at the end of its area, once
      shifted and encrypted, is what hop `i + 1` ought to see. */
  lemma FillerStep(suite: Suite, secret: Bytes, payload: Bytes, next: Layer, filler: Bytes, k: nat)
    requires ShiftSize(|payload|) + |filler| <= PAYLOADS_LEN == |next.mix|
    requires k < |filler|
    requires var shift := ShiftSize(|payload|);
             next.mix[PAYLOADS_LEN - |filler| - shift..] ==
             Xor(filler + Zeros(shift), FillerStream(suite, secret, |filler|, shift))
    ensures Wrapped(suite, secret, payload, next)[PAYLOADS_LEN - |filler| + k] == filler[k]
  {
    hide Wrapped, Plain, ShiftSize, Zeros, Suite.Stream, XorByte;
    var shift := ShiftSize(|payload|);
    var at := PAYLOADS_LEN - |filler| + k;
    var tail := next.mix[PAYLOADS_LEN - |filler| - shift..];
    var s := suite.Stream(secret, at);
    assert next.mix[at - shift] == tail[k];
    assert tail[k] == XorByte(filler[k], s);
    WrappedAt(suite, secret, payload, next, at);
    XorTwice(filler[k], s);
  }

  /** The end of every layer is the filler accumulated so far. */
  lemma {:induction false} TailIsFiller(
    suite: Suite, session: Scalar, secrets: seq<Bytes>, payloads: seq<Bytes>, assoc: Bytes, i: nat)
    requires Fits(payloads) && |secrets| == |payloads| && i < |payloads|
    ensures Covered(payloads, i) <= PAYLOADS_LEN
    ensures LayerAt(suite, session, secrets, payloads, assoc, i).mix[PAYLOADS_LEN - Covered(payloads, i)..]
            == Filler(suite, secrets, payloads, i)
    decreases |payloads| - i
  {
    hide Wrapped, Xor, FillerStream, CipherStream;
    RoomFor(payloads, i);
    var mix := LayerAt(suite, session, secrets, payloads, assoc, i).mix;
    var filler := Filler(suite, secrets, payloads, i);
    var at := PAYLOADS_LEN - |filler|;
    if i + 1 < |payloads| {
      RoomFor(payloads, i + 1);
      TailIsFiller(suite, session, secrets, payloads, assoc, i + 1);
      LayerInside(suite, session, secrets, payloads, assoc, i);
      var next := LayerAt(suite, session, secrets, payloads, assoc, i + 1);
      forall k | 0 <= k < |filler|
        ensures mix[at..][k] == filler[k]
      {
        FillerStep(suite, secrets[i], payloads[i], next, filler, k);
      }
    } else {
      assert mix[at..] == filler;
    }
  }

  /** Decrypting gives the frame and then the next layer's first bytes. */
  lemma DecryptedHead(suite: Suite, secret: Bytes, payload: Bytes, next: Layer, mix: Bytes, k: nat)
    requires ShiftSize(|payload|) <= PAYLOADS_LEN == |next.mix| == |mix|
    requires k < PAYLOADS_LEN
    requires mix[k] == Wrapped(suite, secret, payload, next)[k]
    ensures Decrypted(suite, secret, mix)[k] == Plain(payload, next)[k]
  {
    hide Wrapped, Plain, ShiftSize, Zeros, XorByte;
    WrappedAt(suite, secret, payload, next, k);
    XorTwice(Plain(payload, next)[k], suite.Stream(secret, k));
  }

  /** Past the area the hop sees its own bare stream. */
  lemma DecryptedTail(suite: Suite, secret: Bytes, mix: Bytes, k: nat)
    requires |mix| == PAYLOADS_LEN <= k < PAYLOADS_LEN * 2
    ensures Decrypted(suite, secret, mix)[k] == suite.Stream(secret, k)
  {
    XorTwice(suite.Stream(secret, k), 0);
    assert (mix + Zeros(PAYLOADS_LEN))[k] == 0;
  }

  /** The frame comes out of the decrypted area of every layer. */
  lemma FrameRecovered(suite: Suite, session: Scalar, secrets: seq<Bytes>, payloads: seq<Bytes>, assoc: Bytes, i: nat)
    requires Fits(payloads) && |secrets| == |payloads| && i < |payloads|
    ensures |payloads[i]| < PAYLOADS_LEN - 32
    ensures var buf := Decrypted(suite, secrets[i], LayerAt(suite, session, secrets, payloads, assoc, i).mix);
            var frame := Frame(payloads[i], LayerAt(suite, session, secrets, payloads, assoc, i + 1).hmac);
            |frame| <= PAYLOADS_LEN && buf[..|frame|] == frame
  {
    hide Wrapped, Xor, FillerStream, CipherStream, Decrypted, Filler;
    RoomFor(payloads, i);
    var next := LayerAt(suite, session, secrets, payloads, assoc, i + 1);
    var mix := LayerAt(suite, session, secrets, payloads, assoc, i).mix;
    var frame := Frame(payloads[i], next.hmac);
    var buf := Decrypted(suite, secrets[i], mix);
    var wrapped := Wrapped(suite, secrets[i], payloads[i], next);
    forall k | 0 <= k < |frame|
      ensures buf[..|frame|][k] == frame[k]
    {
      assert mix[k] == wrapped[k];
      DecryptedHead(suite, secrets[i], payloads[i], next, mix, k);
    }
  }

  /** After the frame comes the next hop's area, all of it. */
  lemma NextRecovered(suite: Suite, session: Scalar, secrets: seq<Bytes>, payloads: seq<Bytes>, assoc: Bytes, i: nat)
    requires Fits(payloads) && |secrets| == |payloads| && i + 1 < |payloads|
    ensures ShiftSize(|payloads[i]|) <= PAYLOADS_LEN
    ensures var buf := Decrypted(suite, secrets[i], LayerAt(suite, session, secrets, payloads, assoc, i).mix);
            var shift := ShiftSize(|payloads[i]|);
            buf[shift..shift + PAYLOADS_LEN] == LayerAt(suite, session, secrets, payloads, assoc, i + 1).mix
  {
    hide Wrapped, CipherStream, Decrypted, LayerAt, Filler, Plain, ShiftSize;
    RoomFor(payloads, i);
    RoomFor(payloads, i + 1);
    var next := LayerAt(suite, session, secrets, payloads, assoc, i + 1);
    var mix := LayerAt(suite, session, secrets, payloads, assoc, i).mix;
    var shift := ShiftSize(|payloads[i]|);
    var covered := Covered(payloads, i);
    var buf := Decrypted(suite, secrets[i], mix);
    LayerInside(suite, session, secrets, payloads, assoc, i);
    TailIsFiller(suite, session, secrets, payloads, assoc, i + 1);
    forall k | 0 <= k < PAYLOADS_LEN
      ensures buf[shift..shift + PAYLOADS_LEN][k] == next.mix[k]
    {
      if k + shift < PAYLOADS_LEN {
        DecryptedHead(suite, secrets[i], payloads[i], next, mix, k + shift);
      } else {
        DecryptedTail(suite, secrets[i], mix, k + shift);
        FillerEnd(suite, secrets, payloads, i, k);
        assert next.mix[k] == next.mix[PAYLOADS_LEN - covered - shift..][k - (PAYLOADS_LEN - covered - shift)];
      }
    }
  }

  /** The newest part of the filler is the bare stream of the hop that added it. */
  lemma FillerEnd(suite: Suite, secrets: seq<Bytes>, payloads: seq<Bytes>, i: nat, k: nat)
    requires Fits(payloads) && |secrets| == |payloads| && i < |payloads|
    requires PAYLOADS_LEN - ShiftSize(|payloads[i]|) <= k < PAYLOADS_LEN
    ensures Covered(payloads, i + 1) <= PAYLOADS_LEN
    ensures Filler(suite, secrets, payloads, i + 1)[k - (PAYLOADS_LEN - Covered(payloads, i + 1))]
            == suite.Stream(secrets[i], k + ShiftSize(|payloads[i]|))
  {
    RoomFor(payloads, i);
    var shift := ShiftSize(|payloads[i]|);
    var before := Filler(suite, secrets, payloads, i);
    var at := k - (PAYLOADS_LEN - |before| - shift);
    assert (before + Zeros(shift))[at] == 0;
    XorTwice(suite.Stream(secrets[i], k + shift), 0);
  }

  // -------------------------------------------------------- the round trip

  /** What hop `i` makes of the layer meant for it, for any payloads that fit:
      the MAC always verifies, a payload under two bytes is refused, and a zero
      MAC for the next hop ends the route. */
  function Expected(
    suite: Suite, session: Scalar, path: seq<Point>, payloads: seq<Bytes>, assoc: Bytes, i: nat)
    : Result<Peeled, OnionError>
    requires Fits(payloads) && |path| == |payloads| && i < |payloads|
  {
    var next := PacketAt(suite, session, path, payloads, assoc, i + 1);
    if |payloads[i]| < 2 then Err(BadPayload)
    else if next.hmac == Zeros(32) then Ok(Final(payloads[i]))
    else Ok(Forward(payloads[i], next))
  }

  lemma LastLayer(suite: Suite, session: Scalar, secrets: seq<Bytes>, payloads: seq<Bytes>, assoc: Bytes)
    requires Fits(payloads) && |secrets| == |payloads|
    ensures LayerAt(suite, session, secrets, payloads, assoc, |payloads|) ==
            Layer(CipherStream(suite, suite.generateKey(Pad, session), PAYLOADS_LEN), Zeros(32))
  {
  }

  lemma LayerStep(suite: Suite, session: Scalar, secrets: seq<Bytes>, payloads: seq<Bytes>, assoc: Bytes, i: nat)
    requires Fits(payloads) && |secrets| == |payloads| && i < |payloads|
    ensures ShiftSize(|payloads[i]|) <= PAYLOADS_LEN && Covered(payloads, i) <= PAYLOADS_LEN
    ensures var wrapped := Wrapped(suite, secrets[i], payloads[i],
                                   LayerAt(suite, session, secrets, payloads, assoc, i + 1));
            LayerAt(suite, session, secrets, payloads, assoc, i) ==
            Sealed(suite, secrets[i],
                   if i == |payloads| - 1
                   then wrapped[..PAYLOADS_LEN - Covered(payloads, i)] + Filler(suite, secrets, payloads, i)
                   else wrapped,
                   assoc)
  {
    hide Wrapped, Filler, Sealed;
    RoomFor(payloads, i);
  }

  /** Reading a frame back: the length, the payload and the MAC. */
  lemma FrameRead(payload: Bytes, hmac: Mac, buf: Bytes)
    requires |payload| <= PAYLOADS_LEN
    requires |buf| >= ShiftSize(|payload|)
    requires buf[..ShiftSize(|payload|)] == Frame(payload, hmac)
    ensures var n := BigSize.Len(|payload|);
            && BigSize.ReadFrom(buf) == Ok(BigSize.Read(|payload|, n))
            && buf[n..n + |payload|] == payload
            && buf[n + |payload|..n + |payload| + 32] == hmac
  {
    hide BigSize.ReadFrom, BigSize.Write;
    var n := BigSize.Len(|payload|);
    var frame := Frame(payload, hmac);
    var shift := ShiftSize(|payload|);
    var rest := payload + hmac + buf[shift..];
    assert buf == buf[..shift] + buf[shift..];
    assert buf == BigSize.Write(|payload|) + rest;
    BigSize.RoundTrip(|payload|, rest);
    assert buf[n..n + |payload|] == frame[n..n + |payload|] == payload;
    assert buf[n + |payload|..n + |payload| + 32] == frame[n + |payload|..] == hmac;
  }

  lemma FrameUnpacked(payload: Bytes, hmac: Mac, buf: Bytes)
    requires |payload| <= PAYLOADS_LEN - 32 && |buf| == PAYLOADS_LEN * 2 && ShiftSize(|payload|) <= PAYLOADS_LEN
    requires buf[..ShiftSize(|payload|)] == Frame(payload, hmac)
    ensures Unpack(buf) == if |payload| < 2 then Err(BadPayload) else Ok(Share(payload, hmac, ShiftSize(|payload|)))
  {
    hide BigSize.ReadFrom, BigSize.Write, Frame;
    FrameRead(payload, hmac, buf);
  }

  /** The layer at hop `i`, peeled with hop `i`'s secret. */
  lemma LayerPeels(
    suite: Suite, session: Scalar, secrets: seq<Bytes>, payloads: seq<Bytes>, assoc: Bytes, i: nat, eph: Point)
    requires Fits(payloads) && |secrets| == |payloads| && i < |payloads|
    ensures var layer := LayerAt(suite, session, secrets, payloads, assoc, i);
            var next := LayerAt(suite, session, secrets, payloads, assoc, i + 1);
            Peel(suite, secrets[i], OnionPacket(0, eph, layer.mix, layer.hmac), assoc) ==
            if |payloads[i]| < 2 then Err(BadPayload)
            else if next.hmac == Zeros(32) then Ok(Final(payloads[i]))
            else Ok(Forward(payloads[i], OnionPacket(
              0, suite.tweakPoint(eph, suite.blinding(eph, secrets[i])), next.mix, next.hmac)))
  {
    hide LayerAt, Decrypted, Unpack, Zeros, Frame, ShiftSize, Covered, Fits;
    var layer := LayerAt(suite, session, secrets, payloads, assoc, i);
    var next := LayerAt(suite, session, secrets, payloads, assoc, i + 1);
    LayerSealed(suite, session, secrets, payloads, assoc, i);
    RoomFor(payloads, i);
    FrameRecovered(suite, session, secrets, payloads, assoc, i);
    FrameUnpacked(payloads[i], next.hmac, Decrypted(suite, secrets[i], layer.mix));
    if i + 1 < |payloads| {
      NextRecovered(suite, session, secrets, payloads, assoc, i);
    } else {
      LastLayer(suite, session, secrets, payloads, assoc);
    }
  }

  lemma LayerSealed(suite: Suite, session: Scalar, secrets: seq<Bytes>, payloads: seq<Bytes>, assoc: Bytes, i: nat)
    requires Fits(payloads) && |secrets| == |payloads| && i < |payloads|
    ensures var layer := LayerAt(suite, session, secrets, payloads, assoc, i);
            layer.hmac == suite.mac(suite.generateKey(Mu, secrets[i]), layer.mix + assoc)
  {
    RoomFor(payloads, i);
  }

  ghost predicate KeysOf(suite: Suite, keys: seq<Scalar>, path: seq<Point>) {
    |keys| == |path| && forall i | 0 <= i < |keys| :: path[i] == suite.publicKey(keys[i])
  }

  /** Peeling with the node's own key, as a hop does. */
  function PeelWithKey(suite: Suite, key: Scalar, packet: OnionPacket, assoc: Bytes): (r: Result<Peeled, OnionError>)
    requires |packet.payloads| == PAYLOADS_LEN
    ensures r.Ok? && r.value.Forward? ==> |r.value.next.payloads| == PAYLOADS_LEN
  {
    Peel(suite, suite.ecdh(packet.ephemeralKey, key), packet, assoc)
  }

  /**
   * Each hop, using nothing but its own key, opens the packet meant for it and
   * hands on exactly the packet meant for the next hop. No assumption on the
   * payloads beyond that they fit, nor on the MAC.
   */
  lemma EveryHopPeels(
    suite: Suite, session: Scalar, keys: seq<Scalar>, path: seq<Point>, payloads: seq<Bytes>, assoc: Bytes, i: nat)
    requires suite.Lawful() && KeysOf(suite, keys, path)
    requires Fits(payloads) && |path| == |payloads| && i < |payloads|
    ensures PeelWithKey(suite, keys[i], PacketAt(suite, session, path, payloads, assoc, i), assoc)
            == Expected(suite, session, path, payloads, assoc, i)
  {
    hide LayerAt, Peel;
    var secrets := SecretsFor(suite, session, path);
    var e := Ephemeral(suite, session, path, i);
    var eph := suite.publicKey(e);
    assert suite.ecdh(eph, keys[i]) == suite.ecdh(path[i], e) == secrets[i];
    assert suite.tweakPoint(eph, suite.blinding(eph, secrets[i])) == suite.publicKey(Ephemeral(suite, session, path, i + 1));
    LayerPeels(suite, session, secrets, payloads, assoc, i, eph);
  }

  /** The whole journey: each node parses the bytes it is handed, peels them with
      its key and sends the next packet's bytes to the next node. */
  function Journey(suite: Suite, keys: seq<Scalar>, data: Bytes, assoc: Bytes): Result<seq<Bytes>, OnionError>
  {
    if keys == [] then Err(BadLength)
    else
      match Parse(suite, data)
      case Err(e) => Err(e)
      case Ok(packet) =>
        match PeelWithKey(suite, keys[0], packet, assoc)
        case Err(e) => Err(e)
        case Ok(Final(payload)) => Ok([payload])
        case Ok(Forward(payload, next)) =>
          match Journey(suite, keys[1..], Serialize(next), assoc)
          case Err(e) => Err(e)
          case Ok(rest) => Ok([payload] + rest)
  }

  /** No MAC meant for an inner hop is all zero. */
  ghost predicate MacsNonZero(suite: Suite, session: Scalar, path: seq<Point>, payloads: seq<Bytes>, assoc: Bytes)
    requires Fits(payloads) && |path| == |payloads|
  {
    forall i | 0 < i < |payloads| :: PacketAt(suite, session, path, payloads, assoc, i).hmac != Zeros(32)
  }

  /** A route whose payloads have at least two bytes is travelled end to end:
      the last node finds itself final and every node has its own payload. */
  lemma {:induction false} DeliveredFrom(
    suite: Suite, session: Scalar, keys: seq<Scalar>, path: seq<Point>, payloads: seq<Bytes>, assoc: Bytes, i: nat)
    requires suite.Lawful() && KeysOf(suite, keys, path)
    requires Fits(payloads) && |path| == |payloads| && i < |payloads|
    requires forall j | 0 <= j < |payloads| :: |payloads[j]| >= 2
    requires MacsNonZero(suite, session, path, payloads, assoc)
    ensures Journey(suite, keys[i..], Serialize(PacketAt(suite, session, path, payloads, assoc, i)), assoc)
            == Ok(payloads[i..])
    decreases |payloads| - i
  {
    hide LayerAt, PeelWithKey, Parse, Serialize, Fits, Zeros, Ephemeral, SecretsFor;
    var packet := PacketAt(suite, session, path, payloads, assoc, i);
    ParseSerialize(suite, packet);
    EveryHopPeels(suite, session, keys, path, payloads, assoc, i);
    assert keys[i..][0] == keys[i] && keys[i..][1..] == keys[i + 1..];
    if i + 1 < |payloads| {
      DeliveredFrom(suite, session, keys, path, payloads, assoc, i + 1);
      assert payloads[i..] == [payloads[i]] + payloads[i + 1..];
    } else {
      LastLayer(suite, session, SecretsFor(suite, session, path), payloads, assoc);
      assert payloads[i..] == [payloads[i]];
    }
  }

  // ------------------------------------------------ packets from anywhere

  /** An authenticated packet overruns the buffer exactly when it declares a
      payload of 1266 to 1268 bytes and is not for us. */
  lemma OverrunsExactlyWhen(suite: Suite, secret: Bytes, packet: OnionPacket, assoc: Bytes)
    requires |packet.payloads| == PAYLOADS_LEN
    requires packet.version == 0
    requires suite.mac(suite.generateKey(Mu, secret), packet.payloads + assoc) == packet.hmac
    ensures var share := Unpack(Decrypted(suite, secret, packet.payloads));
            Peel(suite, secret, packet, assoc) == Err(SliceOutOfRange) <==>
            share.Ok? && share.value.hmac != Zeros(32) && |share.value.payload| > PAYLOADS_LEN - 35
  {
    hide Decrypted, Zeros, BigSize.ReadFrom;
    var buf := Decrypted(suite, secret, packet.payloads);
    if Unpack(buf).Ok? {
      BigSize.Canonical(buf);
    }
  }

  /** Such packets exist for every suite, secret, key and associated data: encrypt
      a declared length of 1268 and any non-zero bytes, and authenticate the result. */
  lemma AnOverrunningPacket(suite: Suite, secret: Bytes, eph: Point, assoc: Bytes) returns (packet: OnionPacket)
    ensures packet.version == 0 && packet.ephemeralKey == eph && |packet.payloads| == PAYLOADS_LEN
    ensures packet.hmac == suite.mac(suite.generateKey(Mu, secret), packet.payloads + assoc)
    ensures Peel(suite, secret, packet, assoc) == Err(SliceOutOfRange)
  {
    hide BigSize.ReadFrom, BigSize.Write, Xor, CipherStream, Decrypted, Zeros;
    var head := BigSize.Write(PAYLOADS_LEN - 32);
    var ones: Bytes := seq(PAYLOADS_LEN - 3, _ => 1);
    var plain := head + ones;
    var area := Xor(plain, CipherStream(suite, suite.generateKey(Rho, secret), PAYLOADS_LEN));
    packet := OnionPacket(0, eph, area, suite.mac(suite.generateKey(Mu, secret), area + assoc));
    var buf := Decrypted(suite, secret, area);
    forall k | 0 <= k < PAYLOADS_LEN
      ensures buf[k] == plain[k]
    {
      DecryptsBack(suite, secret, plain, k);
    }
    assert buf == head + buf[3..];
    BigSize.RoundTrip(PAYLOADS_LEN - 32, buf[3..]);
    var next := buf[PAYLOADS_LEN - 29..PAYLOADS_LEN + 3];
    assert next[0] == 1;
    NotZeros(next);
  }

  lemma NotZeros(s: Bytes)
    requires |s| == 32 && s[0] == 1
    ensures s != Zeros(32)
  {
    assert Zeros(32)[0] == 0;
  }

  /** Encrypting an area and decrypting it gives the area back. */
  lemma DecryptsBack(suite: Suite, secret: Bytes, plain: Bytes, k: nat)
    requires |plain| == PAYLOADS_LEN && k < PAYLOADS_LEN
    ensures Decrypted(suite, secret, Xor(plain, CipherStream(suite, suite.generateKey(Rho, secret), PAYLOADS_LEN)))[k]
            == plain[k]
  {
    hide XorByte, Zeros;
    XorTwice(plain[k], suite.Stream(secret, k));
  }

  // ------------------------------------------------- the source's own loops

  method SharedSecretsForPath(suite: Suite, session: Scalar, path: seq<Point>) returns (secrets: seq<Bytes>)
    ensures secrets == SecretsFor(suite, session, path)
  {
    secrets := [];
    var ephemeral := session;
    for i := 0 to |path|
      invariant ephemeral == Ephemeral(suite, session, path, i)
      invariant |secrets| == i
      invariant forall j | 0 <= j < i :: secrets[j] == SecretAt(suite, session, path, j)
    {
      var ss := suite.ecdh(path[i], ephemeral);
      var blinding := suite.blinding(suite.publicKey(ephemeral), ss);
      ephemeral := suite.tweakScalar(ephemeral, blinding);
      secrets := secrets + [ss];
    }
  }

  ghost predicate ZeroFrom(s: Bytes, n: nat) {
    forall k | n <= k < |s| :: s[k] == 0
  }

  /** The filler so far, shifted and encrypted by one more hop. */
  ghost function Extended(suite: Suite, secret: Bytes, before: Bytes, shift: nat): (r: Bytes)
    requires |before| <= PAYLOADS_LEN
    ensures |r| == |before| + shift
  {
    Xor(before + Zeros(shift), FillerStream(suite, secret, |before|, shift))
  }

  /** XOR one hop's stream into the buffer, which is zero past `covered`. */
  method AddToFiller(suite: Suite, filler: array<bv8>, secret: Bytes, covered: nat, shift: nat)
    requires covered <= PAYLOADS_LEN && covered + shift <= filler.Length
    requires ZeroFrom(filler[..], covered)
    modifies filler
    ensures filler[..covered + shift] == Extended(suite, secret, old(filler[..covered]), shift)
    ensures ZeroFrom(filler[..], covered + shift)
  {
    var stream := CipherStream(suite, suite.generateKey(Rho, secret), PAYLOADS_LEN + shift);
    var start := PAYLOADS_LEN - covered;
    for k := 0 to covered + shift
      invariant forall j | 0 <= j < k :: filler[j] == XorByte(old(filler[j]), stream[start + j])
      invariant forall j | k <= j < filler.Length :: filler[j] == old(filler[j])
    {
      filler[k] := XorByte(filler[k], stream[start + k]);
    }
  }

  lemma FillerExtended(suite: Suite, secrets: seq<Bytes>, payloads: seq<Bytes>, i: nat)
    requires Fits(payloads) && |secrets| == |payloads| && i < |payloads|
    ensures var shift := ShiftSize(|payloads[i]|);
            && Covered(payloads, i + 1) == Covered(payloads, i) + shift <= PAYLOADS_LEN
            && Filler(suite, secrets, payloads, i + 1) ==
               Extended(suite, secrets[i], Filler(suite, secrets, payloads, i), shift)
  {
    hide Xor, FillerStream, Zeros, ShiftSize;
    RoomFor(payloads, i);
  }

  method FillerLength(payloads: seq<Bytes>) returns (length: nat)
    requires payloads != []
    ensures length == Covered(payloads, |payloads| - 1)
  {
    length := 0;
    for i := 0 to |payloads| - 1
      invariant length == Covered(payloads, i)
    {
      length := length + ShiftSize(|payloads[i]|);
    }
  }

  ghost predicate FilledBy(suite: Suite, secrets: seq<Bytes>, payloads: seq<Bytes>, i: nat, s: Bytes)
    requires Fits(payloads) && |secrets| == |payloads| && i <= |payloads|
  {
    && Covered(payloads, i) <= |s|
    && s[..Covered(payloads, i)] == Filler(suite, secrets, payloads, i)
    && ZeroFrom(s, Covered(payloads, i))
  }

  lemma Filled(suite: Suite, secrets: seq<Bytes>, payloads: seq<Bytes>, i: nat, s: Bytes)
    requires Fits(payloads) && |secrets| == |payloads| && i <= |payloads|
    requires FilledBy(suite, secrets, payloads, i, s) && |s| == Covered(payloads, i)
    ensures s == Filler(suite, secrets, payloads, i)
  {
    hide Filler, Covered, ZeroFrom;
  }

  method OneMoreHop(suite: Suite, filler: array<bv8>, secrets: seq<Bytes>, payloads: seq<Bytes>, i: nat, covered: nat)
    requires Fits(payloads) && |secrets| == |payloads| && i < |payloads| && covered == Covered(payloads, i)
    requires Covered(payloads, i + 1) <= filler.Length && FilledBy(suite, secrets, payloads, i, filler[..])
    modifies filler
    ensures FilledBy(suite, secrets, payloads, i + 1, filler[..])
  {
    hide Extended, Filler, Covered, ShiftSize, ZeroFrom;
    FillerExtended(suite, secrets, payloads, i);
    assert filler[..][..covered] == filler[..covered];
    AddToFiller(suite, filler, secrets[i], covered, ShiftSize(|payloads[i]|));
    assert filler[..][..covered + ShiftSize(|payloads[i]|)] == filler[..covered + ShiftSize(|payloads[i]|)];
  }

  method MakeFiller(suite: Suite, secrets: seq<Bytes>, payloads: seq<Bytes>) returns (r: Bytes)
    requires Fits(payloads) && |secrets| == |payloads|
    ensures r == Filler(suite, secrets, payloads, |payloads| - 1)
  {
    var last := |payloads| - 1;
    var fillerLen := FillerLength(payloads);
    var filler := new bv8[fillerLen](_ => 0);
    assert FilledBy(suite, secrets, payloads, 0, filler[..]);
    hide FilledBy;
    var covered := 0;
    for i := 0 to last
      invariant covered == Covered(payloads, i)
      invariant FilledBy(suite, secrets, payloads, i, filler[..])
    {
      CoveredGrows(payloads, i + 1, last);
      OneMoreHop(suite, filler, secrets, payloads, i, covered);
      covered := covered + ShiftSize(|payloads[i]|);
    }
    Filled(suite, secrets, payloads, last, filler[..]);
    r := filler[..];
  }

  /** The sender's packet is the one meant for the first hop. */
  method Construct(suite: Suite, session: Scalar, path: seq<Point>, payloads: seq<Bytes>, assoc: Bytes)
    returns (packet: OnionPacket)
    requires |path| == |payloads| && Fits(payloads)
    ensures packet == PacketAt(suite, session, path, payloads, assoc, 0)
  {
    hide LayerAt, Wrapped, Filler;
    var secrets := SharedSecretsForPath(suite, session, path);
    var filler := MakeFiller(suite, secrets, payloads);
    var mix := CipherStream(suite, suite.generateKey(Pad, session), PAYLOADS_LEN);
    var hmac := Zeros(32);
    LastLayer(suite, session, secrets, payloads, assoc);
    var i := |payloads|;
    while i > 0
      invariant 0 <= i <= |payloads| && |mix| == PAYLOADS_LEN && |hmac| == 32
      invariant Layer(mix, hmac) == LayerAt(suite, session, secrets, payloads, assoc, i)
    {
      ghost var next := Layer(mix, hmac);
      i := i - 1;
      RoomFor(payloads, i);
      mix := WrapInPlace(suite, secrets[i], payloads[i], mix, hmac);
      ghost var wrapped := Wrapped(suite, secrets[i], payloads[i], next);
      assert mix == wrapped;
      LayerStep(suite, session, secrets, payloads, assoc, i);
      if i == |payloads| - 1 && |filler| > 0 {
        mix := mix[..PAYLOADS_LEN - |filler|] + filler;
      }
      assert mix == if i == |payloads| - 1
                    then wrapped[..PAYLOADS_LEN - Covered(payloads, i)] + Filler(suite, secrets, payloads, i)
                    else wrapped;
      hmac := suite.mac(suite.generateKey(Mu, secrets[i]), mix + assoc);
    }
    packet := OnionPacket(0, suite.publicKey(session), mix, hmac);
  }

  method WrapInPlace(suite: Suite, secret: Bytes, payload: Bytes, before: Bytes, hmac: Mac) returns (mix: Bytes)
    requires ShiftSize(|payload|) <= PAYLOADS_LEN == |before|
    ensures mix == Wrapped(suite, secret, payload, Layer(before, hmac))
  {
    hide BigSize.Write, XorByte;
    var frame := BigSize.Write(|payload|) + payload + hmac;
    var plain := frame + before[..PAYLOADS_LEN - |frame|];
    mix := plain;
    var stream := CipherStream(suite, suite.generateKey(Rho, secret), PAYLOADS_LEN);
    for k := 0 to |mix|
      invariant |mix| == PAYLOADS_LEN
      invariant forall j | 0 <= j < k :: mix[j] == XorByte(plain[j], stream[j])
      invariant forall j | k <= j < PAYLOADS_LEN :: mix[j] == plain[j]
    {
      mix := mix[k := XorByte(mix[k], stream[k])];
    }
  }

  method PeelWithSecret(suite: Suite, secret: Bytes, packet: OnionPacket, assoc: Bytes)
    returns (r: Result<Peeled, OnionError>)
    requires |packet.payloads| == PAYLOADS_LEN
    ensures r == Peel(suite, secret, packet, assoc)
  {
    hide BigSize.ReadFrom, Decrypted, Zeros;
    if packet.version != 0 {
      return Err(InvalidVersion);
    }
    var mac := suite.mac(suite.generateKey(Mu, secret), packet.payloads + assoc);
    if mac != packet.hmac {
      return Err(InvalidHmac);
    }
    var buf := DecryptInPlace(suite, secret, packet.payloads);
    var len := BigSize.ReadFrom(buf);
    if len.Err? || len.value.value < 2 || len.value.value > PAYLOADS_LEN - 32 {
      return Err(BadPayload);
    }
    var at := len.value.consumed;
    var payload := buf[at..at + len.value.value];
    at := at + len.value.value;
    var nextHmac := buf[at..at + 32];
    at := at + 32;
    if nextHmac == Zeros(32) {
      return Ok(Final(payload));
    }
    var blinding := suite.blinding(packet.ephemeralKey, secret);
    var nextEphemeral := suite.tweakPoint(packet.ephemeralKey, blinding);
    if at + PAYLOADS_LEN > |buf| {
      return Err(SliceOutOfRange);
    }
    return Ok(Forward(payload, OnionPacket(0, nextEphemeral, buf[at..at + PAYLOADS_LEN], nextHmac)));
  }

  method DecryptInPlace(suite: Suite, secret: Bytes, payloads: Bytes) returns (buf: Bytes)
    requires |payloads| == PAYLOADS_LEN
    ensures buf == Decrypted(suite, secret, payloads)
  {
    var plain := payloads + Zeros(PAYLOADS_LEN);
    buf := plain;
    var stream := CipherStream(suite, suite.generateKey(Rho, secret), PAYLOADS_LEN * 2);
    for k := 0 to |buf|
      invariant |buf| == PAYLOADS_LEN * 2
      invariant forall j | 0 <= j < k :: buf[j] == XorByte(plain[j], stream[j])
      invariant forall j | k <= j < |buf| :: buf[j] == plain[j]
    {
      buf := buf[k := XorByte(buf[k], stream[k])];
    }
  }

  /** The sender's packet, put on the wire, delivers every payload to its hop. */
  lemma Delivered(
    suite: Suite, session: Scalar, keys: seq<Scalar>, path: seq<Point>, payloads: seq<Bytes>, assoc: Bytes)
    requires suite.Lawful() && KeysOf(suite, keys, path)
    requires Fits(payloads) && |path| == |payloads|
    requires forall j | 0 <= j < |payloads| :: |payloads[j]| >= 2
    requires MacsNonZero(suite, session, path, payloads, assoc)
    ensures Journey(suite, keys, Serialize(PacketAt(suite, session, path, payloads, assoc, 0)), assoc) == Ok(payloads)
  {
    DeliveredFrom(suite, session, keys, path, payloads, assoc, 0);
    assert keys[0..] == keys && payloads[0..] == payloads;
  }
}
