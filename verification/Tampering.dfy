/**
 * What the onion's MAC is for: a hop opens only what was authenticated under its
 * own key together with the associated data, tells a forged packet from a
 * malformed one, and delivers nothing once a packet was altered on its way.
 */
module Tampering {
  import opened Wrappers
  import opened Onion
  import BigSize

  /** The packet's MAC is the one over its payload area and the associated data. */
  predicate Authentic(suite: Suite, secret: Bytes, packet: OnionPacket, assoc: Bytes) {
    packet.hmac == suite.mac(suite.generateKey(Mu, secret), packet.payloads + assoc)
  }

  /** The exact refusals, and that nothing unauthenticated is ever opened. */
  lemma OpensOnlyAuthentic(suite: Suite, secret: Bytes, packet: OnionPacket, assoc: Bytes)
    requires |packet.payloads| == PAYLOADS_LEN
    ensures var r := Peel(suite, secret, packet, assoc);
            && (r == Err(InvalidVersion) <==> packet.version != 0)
            && (r == Err(InvalidHmac) <==> packet.version == 0 && !Authentic(suite, secret, packet, assoc))
            && (r.Ok? ==> packet.version == 0 && Authentic(suite, secret, packet, assoc))
  {
    hide Decrypted, BigSize.ReadFrom, Zeros;
  }

  /** What is read off a decrypted area is its beginning: the payload in its only encoding, then
      the next MAC. */
  lemma UnpacksWhatIsThere(plain: Bytes)
    requires |plain| == 2 * PAYLOADS_LEN && Unpack(plain).Ok?
    ensures var share := Unpack(plain).value;
            && 2 <= |share.payload| <= PAYLOADS_LEN - 32 && |share.hmac| == 32
            && share.consumed <= |plain|
            && plain[..share.consumed] == BigSize.Write(|share.payload|) + share.payload + share.hmac
  {
    hide BigSize.ReadFrom, BigSize.Write;
    BigSize.Canonical(plain);
    var share, size := Unpack(plain).value, BigSize.ReadFrom(plain).value;
    assert plain[..share.consumed] == plain[..size.consumed] + plain[size.consumed..share.consumed];
  }

  /** The area under the stream of the hop's rho key, and behind it the bare stream. */
  lemma DecryptedIs(suite: Suite, secret: Bytes, payloads: Bytes, k: nat)
    requires |payloads| == PAYLOADS_LEN && k < 2 * PAYLOADS_LEN
    ensures var stream := suite.keystream(suite.generateKey(Rho, secret));
            Decrypted(suite, secret, payloads)[k] == if k < PAYLOADS_LEN then payloads[k] ^ stream(k) else stream(k)
  {
    XorTwice(0, suite.keystream(suite.generateKey(Rho, secret))(k));
  }

  /** What an authentic packet gives up: its decryption starts with the payload in its only
      encoding and the next MAC; a zero MAC makes it final, otherwise the next packet's area
      is what follows, still under this hop's stream, with the blinded key. */
  lemma OpensWhatWasSealed(suite: Suite, secret: Bytes, packet: OnionPacket, assoc: Bytes)
    requires |packet.payloads| == PAYLOADS_LEN
    requires Peel(suite, secret, packet, assoc).Ok?
    ensures var hop := Peel(suite, secret, packet, assoc).value;
            var plain := Decrypted(suite, secret, packet.payloads);
            var next := if hop.Final? then Zeros(32) else hop.next.hmac;
            && 2 <= |hop.payload| <= PAYLOADS_LEN - 32
            && BigSize.Write(|hop.payload|) + hop.payload + next <= plain
            && (hop.Forward? ==>
                  && next != Zeros(32) && hop.next.version == 0
                  && hop.next.ephemeralKey ==
                     suite.tweakPoint(packet.ephemeralKey, suite.blinding(packet.ephemeralKey, secret))
                  && BigSize.Write(|hop.payload|) + hop.payload + next + hop.next.payloads <= plain)
  {
    hide Decrypted, Unpack, BigSize.Write, Zeros;
    var plain := Decrypted(suite, secret, packet.payloads);
    UnpacksWhatIsThere(plain);
    var share := Unpack(plain).value;
    var frame := BigSize.Write(|share.payload|) + share.payload + share.hmac;
    assert frame == plain[..share.consumed];
    if share.hmac != Zeros(32) {
      assert frame + plain[share.consumed..share.consumed + PAYLOADS_LEN] == plain[..share.consumed + PAYLOADS_LEN];
    }
  }

  // ------------------------------------------------------------- on the wire

  /** What a hop that receives `data` delivers. */
  function Received(suite: Suite, key: Scalar, data: Bytes, assoc: Bytes): Result<Peeled, OnionError> {
    match Parse(suite, data)
    case Err(e) => Err(e)
    case Ok(packet) => PeelWithKey(suite, key, packet, assoc)
  }

  /** The bytes do not parse to a packet authentic for this hop. */
  predicate Forged(suite: Suite, key: Scalar, data: Bytes, assoc: Bytes) {
    match Parse(suite, data)
    case Err(_) => true
    case Ok(packet) => !Authentic(suite, suite.ecdh(packet.ephemeralKey, key), packet, assoc)
  }

  /** What an attacker makes of the bytes sent to each hop, and the associated data each hop
      is told. */
  datatype Wire = Wire(tamper: (nat, Bytes) -> Bytes, assoc: nat -> Bytes)

  /** The payloads delivered from hop `i` on, until a hop refuses or is final. */
  function DeliveredVia(suite: Suite, keys: seq<Scalar>, data: Bytes, via: Wire, i: nat): seq<Bytes>
    requires i <= |keys|
    decreases |keys| - i
  {
    if i == |keys| then []
    else
      match Received(suite, keys[i], via.tamper(i, data), via.assoc(i))
      case Err(_) => []
      case Ok(Final(payload)) => [payload]
      case Ok(Forward(payload, next)) => [payload] + DeliveredVia(suite, keys, Serialize(next), via, i + 1)
  }

  /** Nothing happened to the packet before hop `n`. */
  ghost predicate CleanBefore(via: Wire, assoc: Bytes, n: nat) {
    && (forall i: nat, data | i < n :: via.tamper(i, data) == data)
    && (forall i: nat | i < n :: via.assoc(i) == assoc)
  }

  lemma ForgedRefused(suite: Suite, key: Scalar, data: Bytes, assoc: Bytes)
    requires Forged(suite, key, data, assoc)
    ensures Received(suite, key, data, assoc).Err?
  {
    hide Peel;
    if Parse(suite, data).Ok? {
      var packet := Parse(suite, data).value;
      OpensOnlyAuthentic(suite, suite.ecdh(packet.ephemeralKey, key), packet, assoc);
    }
  }

  lemma CleanHop(
    suite: Suite, session: Scalar, keys: seq<Scalar>, path: seq<Point>, payloads: seq<Bytes>, assoc: Bytes, i: nat)
    requires suite.Lawful() && KeysOf(suite, keys, path)
    requires Fits(payloads) && |path| == |payloads| && i < |payloads|
    requires |payloads[i]| >= 2 && MacsNonZero(suite, session, path, payloads, assoc)
    ensures Received(suite, keys[i], Serialize(PacketAt(suite, session, path, payloads, assoc, i)), assoc) ==
            if i + 1 < |payloads| then Ok(Forward(payloads[i], PacketAt(suite, session, path, payloads, assoc, i + 1)))
            else Ok(Final(payloads[i]))
  {
    hide LayerAt, PeelWithKey, Parse, Serialize, Fits, Zeros, Ephemeral, SecretsFor;
    var packet := PacketAt(suite, session, path, payloads, assoc, i);
    ParseSerialize(suite, packet);
    EveryHopPeels(suite, session, keys, path, payloads, assoc, i);
    if i + 1 == |payloads| {
      LastLayer(suite, session, SecretsFor(suite, session, path), payloads, assoc);
    }
  }

  /**
   * If the bytes handed to hop `n`, or the associated data it is told, no longer authenticate,
   * exactly the payloads of the hops before it are delivered and none of its own or later ones;
   * with `n` past the last hop, all of them are. The attacker may do anything from hop `n` on.
   */
  lemma TamperingStopsThere(
    suite: Suite, session: Scalar, keys: seq<Scalar>, path: seq<Point>, payloads: seq<Bytes>, assoc: Bytes,
    via: Wire, n: nat)
    requires suite.Lawful() && KeysOf(suite, keys, path)
    requires Fits(payloads) && |path| == |payloads| && n <= |payloads|
    requires (forall j | 0 <= j < |payloads| :: |payloads[j]| >= 2) && MacsNonZero(suite, session, path, payloads, assoc)
    requires CleanBefore(via, assoc, n)
    requires n < |payloads| ==>
               var sent := Serialize(PacketAt(suite, session, path, payloads, assoc, n));
               Forged(suite, keys[n], via.tamper(n, sent), via.assoc(n))
    ensures DeliveredVia(suite, keys, Serialize(PacketAt(suite, session, path, payloads, assoc, 0)), via, 0) == payloads[..n]
  {
    TamperedFrom(suite, session, keys, path, payloads, assoc, via, n, 0);
    assert payloads[0..n] == payloads[..n];
  }

  lemma {:induction false} TamperedFrom(
    suite: Suite, session: Scalar, keys: seq<Scalar>, path: seq<Point>, payloads: seq<Bytes>, assoc: Bytes,
    via: Wire, n: nat, i: nat)
    requires suite.Lawful() && KeysOf(suite, keys, path)
    requires Fits(payloads) && |path| == |payloads| && i <= n <= |payloads| && i < |payloads|
    requires (forall j | 0 <= j < |payloads| :: |payloads[j]| >= 2) && MacsNonZero(suite, session, path, payloads, assoc)
    requires CleanBefore(via, assoc, n)
    requires n < |payloads| ==>
               var sent := Serialize(PacketAt(suite, session, path, payloads, assoc, n));
               Forged(suite, keys[n], via.tamper(n, sent), via.assoc(n))
    ensures DeliveredVia(suite, keys, Serialize(PacketAt(suite, session, path, payloads, assoc, i)), via, i) == payloads[i..n]
    decreases n - i
  {
    hide Received, Serialize, PacketAt, Forged, Fits, MacsNonZero, Parse;
    var sent := Serialize(PacketAt(suite, session, path, payloads, assoc, i));
    if i == n {
      ForgedRefused(suite, keys[n], via.tamper(n, sent), via.assoc(n));
    } else {
      CleanHop(suite, session, keys, path, payloads, assoc, i);
      assert via.tamper(i, sent) == sent && via.assoc(i) == assoc;
      if i + 1 < |payloads| {
        TamperedFrom(suite, session, keys, path, payloads, assoc, via, n, i + 1);
        assert payloads[i..n] == [payloads[i]] + payloads[i + 1..n];
      } else {
        assert payloads[i..n] == [payloads[i]];
      }
    }
  }

  /** The bytes accepted as a packet are exactly the serialized packets of version 0 with a point on
      the curve. */
  lemma ParsesExactly(suite: Suite, data: Bytes, p: OnionPacket)
    ensures Parse(suite, data) == Ok(p) <==>
            data == Serialize(p) && |p.payloads| == PAYLOADS_LEN && p.version == 0 && suite.validPoint(p.ephemeralKey)
  {
    if Parse(suite, data) == Ok(p) {
      assert data == Serialize(p);
    }
    if data == Serialize(p) { ParseSerialize(suite, p); }
  }

  /** The fields of a packet on the wire, where BOLT 4 puts them. */
  lemma WireLayout(p: OnionPacket)
    requires |p.payloads| == PAYLOADS_LEN
    ensures var data := Serialize(p);
            && |data| == 1366 && data[0] == p.version && data[1..34] == p.ephemeralKey
            && data[34..1334] == p.payloads && data[1334..1366] == p.hmac
  {
  }
}
