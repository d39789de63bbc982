/**
 * The encrypted transport (BOLT 8, "Lightning Message Specification"): two
 * cipher uses per message, a key rotation every thousand uses, and a receiver
 * that reassembles frames from whatever pieces the socket delivers.
 *
 * The cipher and the key derivation are arbitrary functions; a ciphertext is 16
 * bytes longer than its plaintext and opens, under its own key and nonce, to
 * what was sealed.
 */
module Noise {
  import opened Wrappers
  import BigSize

  type Bytes = seq<bv8>

  const KEY_ROTATION_INTERVAL: nat := 1000
  const MAX_MSG_LEN: nat := 65535
  const TAG_LEN: nat := 16
  const HEADER_LEN: nat := 18

  datatype Keys = Keys(ck: Bytes, key: Bytes)

  datatype Cipher = Cipher(
    seal: (Bytes, nat, Bytes) -> Bytes, open: (Bytes, nat, Bytes) -> Option<Bytes>, derive: Keys -> Keys)
  {
    ghost predicate Lawful() {
      && (forall k, n: nat, m :: |seal(k, n, m)| == |m| + TAG_LEN && open(k, n, seal(k, n, m)) == Some(m))
      && (forall k, n: nat, c :: open(k, n, c).Some? ==> |c| == |open(k, n, c).value| + TAG_LEN)
    }
  }

  datatype NoiseError = BadTag | MessageTooLong | WrongState

  /** One direction of the transport cipher. */
  datatype CipherState = CipherState(keys: Keys, nonce: nat)

  /** The state whose key and nonce the next use takes. */
  function Rotated(c: Cipher, s: CipherState): CipherState {
    if s.nonce == KEY_ROTATION_INTERVAL then CipherState(c.derive(s.keys), 0) else s
  }

  function AfterUse(c: Cipher, s: CipherState): CipherState {
    var r := Rotated(c, s);
    r.(nonce := r.nonce + 1)
  }

  function Seal(c: Cipher, s: CipherState, m: Bytes): Bytes {
    var r := Rotated(c, s);
    c.seal(r.keys.key, r.nonce, m)
  }

  function Open(c: Cipher, s: CipherState, m: Bytes): Option<Bytes> {
    var r := Rotated(c, s);
    c.open(r.keys.key, r.nonce, m)
  }

  // ----------------------------------------------------- epochs and nonces

  function KeysAt(c: Cipher, first: Keys, epoch: nat): Keys {
    if epoch == 0 then first else c.derive(KeysAt(c, first, epoch - 1))
  }

  function StateAfter(c: Cipher, first: Keys, uses: nat): CipherState {
    if uses == 0 then CipherState(first, 0) else AfterUse(c, StateAfter(c, first, uses - 1))
  }

  /** Use number `i` takes nonce `i % 1000` of epoch `i / 1000`. */
  lemma {:induction false} UsesAreDistinct(c: Cipher, first: Keys, i: nat)
    ensures Rotated(c, StateAfter(c, first, i)) == CipherState(KeysAt(c, first, i / 1000), i % 1000)
  {
    if i > 0 {
      UsesAreDistinct(c, first, i - 1);
      assert StateAfter(c, first, i).nonce == (i - 1) % 1000 + 1;
      if i % 1000 == 0 {
        assert i / 1000 == (i - 1) / 1000 + 1;
      }
    }
  }

  /** The epoch of use `i` and the nonce the code takes for it. */
  datatype Use = Use(epoch: nat, nonce: nat)

  function UseOf(c: Cipher, first: Keys, i: nat): Use {
    Use(i / 1000, Rotated(c, StateAfter(c, first, i)).nonce)
  }

  /** No pair of epoch and nonce is ever used twice. */
  lemma NoUseTwice(c: Cipher, first: Keys, i: nat, j: nat)
    requires i != j
    ensures UseOf(c, first, i) != UseOf(c, first, j)
  {
    hide Rotated, StateAfter;
    UsesAreDistinct(c, first, i);
    UsesAreDistinct(c, first, j);
  }

  // ---------------------------------------------------------------- sending

  function Header(m: Bytes): (r: Bytes)
    requires |m| <= MAX_MSG_LEN
    ensures |r| == 2
  {
    BigSize.BigEndian(|m|, 2)
  }

  /** A message on the wire: the sealed length, then the sealed body. */
  function Frame(c: Cipher, s: CipherState, m: Bytes): Bytes
    requires |m| <= MAX_MSG_LEN
  {
    Seal(c, s, Header(m)) + Seal(c, AfterUse(c, s), m)
  }

  function AfterFrame(c: Cipher, s: CipherState): CipherState {
    AfterUse(c, AfterUse(c, s))
  }

  ghost predicate Sendable(msgs: seq<Bytes>) {
    forall i | 0 <= i < |msgs| :: |msgs[i]| <= MAX_MSG_LEN
  }

  function Stream(c: Cipher, s: CipherState, msgs: seq<Bytes>): Bytes
    requires Sendable(msgs)
    decreases |msgs|
  {
    if msgs == [] then [] else Frame(c, s, msgs[0]) + Stream(c, AfterFrame(c, s), msgs[1..])
  }

  function AfterFrames(c: Cipher, s: CipherState, n: nat): CipherState
    decreases n
  {
    if n == 0 then s else AfterFrames(c, AfterFrame(c, s), n - 1)
  }

  lemma {:induction false} AfterFramesSnoc(c: Cipher, s: CipherState, n: nat)
    ensures AfterFrames(c, s, n + 1) == AfterFrame(c, AfterFrames(c, s, n))
    decreases n
  {
    hide AfterFrame;
    if n > 0 {
      AfterFramesSnoc(c, AfterFrame(c, s), n - 1);
    }
  }

  /** A frame is two uses. */
  lemma {:induction false} FramesAreUses(c: Cipher, first: Keys, n: nat)
    ensures AfterFrames(c, StateAfter(c, first, 0), n) == StateAfter(c, first, 2 * n)
  {
    if n > 0 {
      hide AfterUse;
      FramesAreUses(c, first, n - 1);
      AfterFramesSnoc(c, StateAfter(c, first, 0), n - 1);
    }
  }

  /** Frame `n` of a direction is sealed with uses `2n` and `2n + 1` of its key schedule. */
  lemma FrameUses(c: Cipher, first: Keys, n: nat, m: Bytes)
    requires |m| <= MAX_MSG_LEN
    ensures Frame(c, AfterFrames(c, StateAfter(c, first, 0), n), m) ==
            c.seal(KeysAt(c, first, 2 * n / 1000).key, 2 * n % 1000, Header(m))
            + c.seal(KeysAt(c, first, (2 * n + 1) / 1000).key, (2 * n + 1) % 1000, m)
  {
    hide Rotated, KeysAt, AfterFrames, Header;
    FramesAreUses(c, first, n);
    UsesAreDistinct(c, first, 2 * n);
    UsesAreDistinct(c, first, 2 * n + 1);
    assert StateAfter(c, first, 2 * n + 1) == AfterUse(c, StateAfter(c, first, 2 * n));
  }

  // -------------------------------------------------------------- receiving

  datatype Receiver = Receiver(recv: CipherState, buffer: Bytes, pending: Option<nat>) {
    function Fed(data: Bytes): Receiver {
      this.(buffer := buffer + data)
    }
  }

  /** One attempt at a message. `Waiting` when the frame is not complete yet. */
  datatype Attempt = Got(message: Bytes, rest: Receiver) | Waiting(rest: Receiver) | Bad

  /** Once the length is known. */
  function NextBody(c: Cipher, r: Receiver, len: nat): Attempt {
    if |r.buffer| < len + TAG_LEN then Waiting(r.(pending := Some(len)))
    else
      match Open(c, r.recv, r.buffer[..len + TAG_LEN])
      case None => Bad
      case Some(m) => Got(m, Receiver(AfterUse(c, r.recv), r.buffer[len + TAG_LEN..], None))
  }

  function NextMessage(c: Cipher, r: Receiver): Attempt {
    match r.pending
    case Some(len) => NextBody(c, r, len)
    case None =>
      if |r.buffer| < HEADER_LEN then Waiting(r)
      else
        match Open(c, r.recv, r.buffer[..HEADER_LEN])
        case None => Bad
        case Some(header) =>
          NextBody(c, Receiver(AfterUse(c, r.recv), r.buffer[HEADER_LEN..], None), BigSize.FromBigEndian(header))
  }

  /** All complete messages in the buffer. */
  datatype Drained = Drained(messages: seq<Bytes>, rest: Receiver)

  lemma GotShrinks(c: Cipher, r: Receiver)
    ensures NextMessage(c, r).Got? ==> |NextMessage(c, r).rest.buffer| + TAG_LEN <= |r.buffer|
  {
    hide BigSize.FromBigEndian;
  }

  function Drain(c: Cipher, r: Receiver): Result<Drained, NoiseError>
    decreases |r.buffer|
  {
    GotShrinks(c, r);
    match NextMessage(c, r)
    case Bad => Err(BadTag)
    case Waiting(rest) => Ok(Drained([], rest))
    case Got(m, rest) =>
      match Drain(c, rest)
      case Err(e) => Err(e)
      case Ok(d) => Ok(Drained([m] + d.messages, d.rest))
  }

  function Feed(c: Cipher, r: Receiver, data: Bytes): Result<Drained, NoiseError> {
    Drain(c, r.Fed(data))
  }

  // ----------------------------------------------- splitting does not matter

  /** Bytes that arrive later do not disturb a message that is already complete,
      and an attempt that must wait can be resumed. */
  lemma NextBodyMore(c: Cipher, r: Receiver, len: nat, more: Bytes)
    ensures match NextBody(c, r, len)
            case Got(m, rest) => NextBody(c, r.Fed(more), len) == Got(m, rest.Fed(more))
            case Bad => NextBody(c, r.Fed(more), len) == Bad
            case Waiting(rest) => rest == r.(pending := Some(len))
  {
    if |r.buffer| >= len + TAG_LEN {
      assert (r.buffer + more)[..len + TAG_LEN] == r.buffer[..len + TAG_LEN];
      assert (r.buffer + more)[len + TAG_LEN..] == r.buffer[len + TAG_LEN..] + more;
    }
  }

  /** A known length in the state or alongside it makes no difference. */
  lemma PendingBody(c: Cipher, r: Receiver, len: nat)
    ensures NextBody(c, r.(pending := Some(len)), len) == NextBody(c, r, len)
  {
  }

  lemma NextMessageMore(c: Cipher, r: Receiver, more: Bytes)
    ensures match NextMessage(c, r)
            case Got(m, rest) => NextMessage(c, r.Fed(more)) == Got(m, rest.Fed(more))
            case Bad => NextMessage(c, r.Fed(more)) == Bad
            case Waiting(rest) => NextMessage(c, r.Fed(more)) == NextMessage(c, rest.Fed(more))
  {
    hide NextBody, BigSize.FromBigEndian;
    match r.pending
    case Some(len) =>
      NextBodyMore(c, r, len, more);
    case None =>
      if |r.buffer| >= HEADER_LEN {
        assert (r.buffer + more)[..HEADER_LEN] == r.buffer[..HEADER_LEN];
        assert (r.buffer + more)[HEADER_LEN..] == r.buffer[HEADER_LEN..] + more;
        var header := Open(c, r.recv, r.buffer[..HEADER_LEN]);
        if header.Some? {
          var len := BigSize.FromBigEndian(header.value);
          var body := Receiver(AfterUse(c, r.recv), r.buffer[HEADER_LEN..], None);
          NextBodyMore(c, body, len, more);
          PendingBody(c, body.Fed(more), len);
        }
      }
  }

  /** Draining, then feeding more and draining again, is feeding all at once. */
  ghost function Then(c: Cipher, first: Result<Drained, NoiseError>, more: Bytes): Result<Drained, NoiseError> {
    match first
    case Err(e) => Err(e)
    case Ok(d) =>
      match Feed(c, d.rest, more)
      case Err(e) => Err(e)
      case Ok(d2) => Ok(Drained(d.messages + d2.messages, d2.rest))
  }

  lemma {:induction false} DrainMore(c: Cipher, r: Receiver, more: Bytes)
    ensures Drain(c, r.Fed(more)) == Then(c, Drain(c, r), more)
    decreases |r.buffer|
  {
    hide NextMessage;
    NextMessageMore(c, r, more);
    GotShrinks(c, r);
    match NextMessage(c, r)
    case Got(m, rest) =>
      DrainMore(c, rest, more);
      if Drain(c, rest).Ok? && Feed(c, Drain(c, rest).value.rest, more).Ok? {
        var before, after := Drain(c, rest).value.messages, Feed(c, Drain(c, rest).value.rest, more).value.messages;
        assert [m] + (before + after) == [m] + before + after;
      }
    case Waiting(rest) =>
      var all := Drain(c, rest.Fed(more));
      assert Drain(c, r.Fed(more)) == all;
      assert all.Ok? ==> [] + all.value.messages == all.value.messages;
    case Bad =>
  }

  /** For any bytes, honest or not, two deliveries are one. */
  lemma FeedConcat(c: Cipher, r: Receiver, a: Bytes, b: Bytes)
    ensures Feed(c, r, a + b) == Then(c, Feed(c, r, a), b)
  {
    assert r.Fed(a).Fed(b) == r.Fed(a + b) by {
      assert r.buffer + (a + b) == r.buffer + a + b;
    }
    DrainMore(c, r.Fed(a), b);
  }

  function Concat(chunks: seq<Bytes>): Bytes {
    if chunks == [] then [] else Concat(chunks[..|chunks| - 1]) + chunks[|chunks| - 1]
  }

  /** Deliver the chunks one after the other. */
  ghost function FeedAll(c: Cipher, r: Receiver, chunks: seq<Bytes>): Result<Drained, NoiseError> {
    if chunks == [] then Drain(c, r)
    else Then(c, FeedAll(c, r, chunks[..|chunks| - 1]), chunks[|chunks| - 1])
  }

  lemma {:induction false} AnySplitting(c: Cipher, r: Receiver, chunks: seq<Bytes>)
    ensures FeedAll(c, r, chunks) == Feed(c, r, Concat(chunks))
  {
    if chunks == [] {
      assert r.Fed([]) == r;
    } else {
      AnySplitting(c, r, chunks[..|chunks| - 1]);
      FeedConcat(c, r, Concat(chunks[..|chunks| - 1]), chunks[|chunks| - 1]);
    }
  }

  // ------------------------------------------------------------- round trip

  /** A receiver between frames, in step with the sender's state `s`. */
  function Ready(s: CipherState): Receiver {
    Receiver(s, [], None)
  }

  lemma HeaderReads(m: Bytes)
    requires |m| <= MAX_MSG_LEN
    ensures BigSize.FromBigEndian(Header(m)) == |m|
  {
    BigSize.Widths();
    BigSize.BigEndianInverse(|m|, 2);
  }

  lemma FrameReads(c: Cipher, s: CipherState, m: Bytes, more: Bytes)
    requires c.Lawful() && |m| <= MAX_MSG_LEN
    ensures NextMessage(c, Ready(s).Fed(Frame(c, s, m) + more)) == Got(m, Ready(AfterFrame(c, s)).Fed(more))
  {
    hide Header, BigSize.FromBigEndian;
    var first := Seal(c, s, Header(m));
    var second := Seal(c, AfterUse(c, s), m);
    var r := Ready(s).Fed(Frame(c, s, m) + more);
    assert r.buffer[..HEADER_LEN] == first && r.buffer[HEADER_LEN..] == second + more;
    HeaderReads(m);
    assert (second + more)[..|m| + TAG_LEN] == second && (second + more)[|m| + TAG_LEN..] == more;
  }

  lemma {:induction false} StreamReads(c: Cipher, s: CipherState, msgs: seq<Bytes>)
    requires c.Lawful() && Sendable(msgs)
    ensures Feed(c, Ready(s), Stream(c, s, msgs)) == Ok(Drained(msgs, Ready(AfterFrames(c, s, |msgs|))))
    decreases |msgs|
  {
    hide NextMessage, Frame;
    var r := Ready(s).Fed(Stream(c, s, msgs));
    if msgs == [] {
      NothingYet(c, s);
    } else {
      var next := AfterFrame(c, s);
      FrameReads(c, s, msgs[0], Stream(c, next, msgs[1..]));
      StreamReads(c, next, msgs[1..]);
      assert [msgs[0]] + msgs[1..] == msgs;
    }
  }

  lemma NothingYet(c: Cipher, s: CipherState)
    ensures Drain(c, Ready(s).Fed([])) == Ok(Drained([], Ready(s)))
  {
  }

  /**
   * Whatever messages are sent and however the byte stream is cut, the receiver
   * outputs exactly those messages in order and ends with the sender's key and
   * nonce.
   */
  lemma Delivery(c: Cipher, s: CipherState, msgs: seq<Bytes>, chunks: seq<Bytes>)
    requires c.Lawful() && Sendable(msgs) && Concat(chunks) == Stream(c, s, msgs)
    ensures FeedAll(c, Ready(s), chunks) == Ok(Drained(msgs, Ready(AfterFrames(c, s, |msgs|))))
  {
    AnySplitting(c, Ready(s), chunks);
    StreamReads(c, s, msgs);
  }

  // ---------------------------------------------------- the transport object

  class Transport {
    const c: Cipher
    var send: CipherState
    var recv: CipherState
    var buffer: Bytes
    var pendingLen: Option<nat>

    constructor (c: Cipher, sending: Keys, receiving: Keys)
      ensures this.c == c && send == StateAfter(c, sending, 0) && Rx() == Ready(StateAfter(c, receiving, 0))
    {
      this.c := c;
      send, recv := CipherState(sending, 0), CipherState(receiving, 0);
      buffer, pendingLen := [], None;
    }

    ghost function Rx(): Receiver
      reads this
    {
      Receiver(recv, buffer, pendingLen)
    }

    method EncryptMessage(msg: Bytes) returns (r: Result<Bytes, NoiseError>)
      modifies this`send
      ensures |msg| > MAX_MSG_LEN ==> r == Err(MessageTooLong) && send == old(send)
      ensures |msg| <= MAX_MSG_LEN ==> r == Ok(Frame(c, old(send), msg)) && send == AfterFrame(c, old(send))
    {
      if |msg| > MAX_MSG_LEN {
        return Err(MessageTooLong);
      }
      var key, nonce := UseSend();
      var out := c.seal(key, nonce, BigSize.BigEndian(|msg|, 2));
      key, nonce := UseSend();
      out := out + c.seal(key, nonce, msg);
      return Ok(out);
    }

    method UseSend() returns (key: Bytes, nonce: nat)
      modifies this`send
      ensures key == Rotated(c, old(send)).keys.key && nonce == Rotated(c, old(send)).nonce
      ensures send == AfterUse(c, old(send))
    {
      if send.nonce == KEY_ROTATION_INTERVAL {
        send := CipherState(c.derive(send.keys), 0);
      }
      key, nonce := send.keys.key, send.nonce;
      send := send.(nonce := nonce + 1);
    }

    method UseRecv() returns (key: Bytes, nonce: nat)
      modifies this`recv
      ensures key == Rotated(c, old(recv)).keys.key && nonce == Rotated(c, old(recv)).nonce
      ensures recv == AfterUse(c, old(recv))
    {
      if recv.nonce == KEY_ROTATION_INTERVAL {
        recv := CipherState(c.derive(recv.keys), 0);
      }
      key, nonce := recv.keys.key, recv.nonce;
      recv := recv.(nonce := nonce + 1);
    }

    method ReadInput(data: Bytes)
      modifies this`buffer
      ensures Rx() == old(Rx()).Fed(data)
    {
      buffer := buffer + data;
    }

    /** After `BadTag` the connection is given up. */
    method TakeMessage() returns (r: Result<Option<Bytes>, NoiseError>)
      modifies this`recv, this`buffer, this`pendingLen
      ensures match NextMessage(c, old(Rx()))
              case Got(m, rest) => r == Ok(Some(m)) && Rx() == rest
              case Waiting(rest) => r == Ok(None) && Rx() == rest
              case Bad => r == Err(BadTag)
    {
      if pendingLen.None? {
        if |buffer| < HEADER_LEN {
          return Ok(None);
        }
        var key, nonce := UseRecv();
        var header := c.open(key, nonce, buffer[..HEADER_LEN]);
        if header.None? {
          return Err(BadTag);
        }
        buffer := buffer[HEADER_LEN..];
        pendingLen := Some(BigSize.FromBigEndian(header.value));
      }
      var bodyLen := pendingLen.value;
      if |buffer| < bodyLen + TAG_LEN {
        return Ok(None);
      }
      var key, nonce := UseRecv();
      var msg := c.open(key, nonce, buffer[..bodyLen + TAG_LEN]);
      if msg.None? {
        return Err(BadTag);
      }
      buffer := buffer[bodyLen + TAG_LEN..];
      pendingLen := None;
      return Ok(Some(msg.value));
    }
  }
}
