/**
 * What the transport guarantees to the layer above: whatever bytes arrive, the
 * messages delivered are a prefix of those the peer sent, and from an honest peer
 * a connection delivers all of them, the handshake's last bytes included.
 */
module Integrity {
  import opened Wrappers
  import opened Noise
  import opened Peer
  import BigSize

  // ------------------------------------------------------ against any network

  function AfterUses(c: Cipher, s: CipherState, n: nat): CipherState
    decreases n
  {
    if n == 0 then s else AfterUses(c, AfterUse(c, s), n - 1)
  }

  /** What the sender, starting from `s`, sealed as its use `i`: a header or a body. */
  function Piece(c: Cipher, s: CipherState, msgs: seq<Bytes>, i: nat): Bytes
    requires Sendable(msgs) && i < 2 * |msgs|
  {
    Seal(c, AfterUses(c, s, i), if i % 2 == 0 then Header(msgs[i / 2]) else msgs[i / 2])
  }

  /** Nobody but the sender can make a ciphertext that opens: what opens as use `i` is what the
      sender sealed as its use `i`. */
  ghost predicate Unforgeable(c: Cipher, s: CipherState, msgs: seq<Bytes>)
    requires Sendable(msgs)
  {
    forall i: nat, bytes :: Open(c, AfterUses(c, s, i), bytes).Some? ==>
      i < 2 * |msgs| && bytes == Piece(c, s, msgs, i)
  }

  lemma UnforgeableLater(c: Cipher, s: CipherState, msgs: seq<Bytes>)
    requires Sendable(msgs) && msgs != [] && Unforgeable(c, s, msgs)
    ensures Unforgeable(c, AfterFrame(c, s), msgs[1..])
  {
    hide AfterUse, Open, Seal;
    forall i: nat, bytes | Open(c, AfterUses(c, AfterFrame(c, s), i), bytes).Some?
      ensures i < 2 * |msgs[1..]| && bytes == Piece(c, AfterFrame(c, s), msgs[1..], i)
    {
      assert AfterUses(c, s, i + 2) == AfterUses(c, AfterUse(c, s), i + 1) == AfterUses(c, AfterFrame(c, s), i);
      assert (i + 2) % 2 == i % 2 && (i + 2) / 2 == i / 2 + 1;
    }
  }

  lemma SealedOpens(c: Cipher, s: CipherState, m: Bytes)
    requires c.Lawful()
    ensures Open(c, s, Seal(c, s, m)) == Some(m)
  {
  }

  /** What opens as the next header is the next message's, and then only its body opens. */
  lemma OnlyNextOpens(c: Cipher, s: CipherState, msgs: seq<Bytes>, bytes: Bytes)
    requires c.Lawful() && Sendable(msgs) && Unforgeable(c, s, msgs)
    ensures Open(c, s, bytes).Some? ==> msgs != [] && Open(c, s, bytes) == Some(Header(msgs[0]))
    ensures Open(c, AfterUse(c, s), bytes).Some? ==> msgs != [] && Open(c, AfterUse(c, s), bytes) == Some(msgs[0])
  {
    hide Open, Seal, AfterUse;
    assert AfterUses(c, s, 0) == s;
    assert AfterUses(c, s, 1) == AfterUses(c, AfterUse(c, s), 0) == AfterUse(c, s);
    if Open(c, s, bytes).Some? {
      assert bytes == Piece(c, s, msgs, 0);
      SealedOpens(c, s, Header(msgs[0]));
    }
    if Open(c, AfterUse(c, s), bytes).Some? {
      assert bytes == Piece(c, s, msgs, 1);
      SealedOpens(c, AfterUse(c, s), msgs[0]);
    }
  }

  /** One message out is the next one sent. */
  lemma NextIsNextSent(c: Cipher, s: CipherState, msgs: seq<Bytes>, buffer: Bytes)
    requires c.Lawful() && Sendable(msgs) && Unforgeable(c, s, msgs)
    ensures var r := NextMessage(c, Receiver(s, buffer, None));
            r.Got? ==> msgs != [] && r.message == msgs[0] && r.rest == Receiver(AfterFrame(c, s), r.rest.buffer, None)
  {
    hide Open, AfterUse, BigSize.FromBigEndian;
    var r := NextMessage(c, Receiver(s, buffer, None));
    if r.Got? {
      OnlyNextOpens(c, s, msgs, buffer[..HEADER_LEN]);
      var rest := buffer[HEADER_LEN..];
      var len := BigSize.FromBigEndian(Open(c, s, buffer[..HEADER_LEN]).value);
      OnlyNextOpens(c, s, msgs, rest[..len + TAG_LEN]);
    }
  }

  /**
   * No message is forged, dropped from the middle, duplicated, replayed or reordered. Whatever
   * bytes the network delivers, the messages that come out are the first ones that were sent.
   */
  lemma {:induction false} DeliversOnlyAPrefix(c: Cipher, s: CipherState, msgs: seq<Bytes>, bytes: Bytes)
    requires c.Lawful() && Sendable(msgs) && Unforgeable(c, s, msgs)
    ensures var r := Feed(c, Ready(s), bytes); r.Ok? ==> r.value.messages <= msgs
    decreases |bytes|
  {
    hide NextMessage, Unforgeable;
    var rx := Ready(s).Fed(bytes);
    assert rx == Receiver(s, bytes, None);
    NextIsNextSent(c, s, msgs, bytes);
    GotShrinks(c, rx);
    match NextMessage(c, rx)
    case Got(m, rest) =>
      UnforgeableLater(c, s, msgs);
      DeliversOnlyAPrefix(c, AfterFrame(c, s), msgs[1..], rest.buffer);
      assert Ready(AfterFrame(c, s)).Fed(rest.buffer) == rest;
      assert [msgs[0]] + msgs[1..] == msgs;
    case Waiting(_) =>
    case Bad =>
  }

  // ------------------------------------------------------------- a connection

  /** The stream an honest responder sends a dialler: its act, then its messages. */
  ghost predicate HonestAnswer(acts: Acts, initiator: Bytes, c: Cipher, msgs: seq<Bytes>, stream: Bytes, done: Completed)
  {
    && Sendable(msgs) && |stream| >= ACT_TWO_LEN
    && acts.actTwo(initiator, stream[..ACT_TWO_LEN]) == Some(done)
    && stream[ACT_TWO_LEN..] == Stream(c, done.recv, msgs)
  }

  /** A dialler delivers exactly the messages its peer sent after the handshake, however the
      stream was cut, and answers with its own last act. */
  lemma DialDelivers(c: Cipher, acts: Acts, initiator: Bytes, remote: Bytes, msgs: seq<Bytes>, chunks: seq<Bytes>,
                     done: Completed)
    requires c.Lawful() && chunks != []
    requires HonestAnswer(acts, initiator, c, msgs, Concat(chunks), done)
    ensures InputAll(c, acts, Outbound(initiator, remote, []), chunks) ==
            Ok(Output([done.bytes], msgs, Up(remote, Ready(AfterFrames(c, done.recv, |msgs|)))))
  {
    hide Stream, Feed, Input;
    AnyReads(c, acts, Outbound(initiator, remote, []), chunks);
    OutboundWhole(c, acts, initiator, remote, msgs, Concat(chunks), done);
  }

  lemma OutboundWhole(c: Cipher, acts: Acts, initiator: Bytes, remote: Bytes, msgs: seq<Bytes>, stream: Bytes, done: Completed)
    requires c.Lawful() && HonestAnswer(acts, initiator, c, msgs, stream, done)
    ensures Input(c, acts, Outbound(initiator, remote, []), stream) ==
            Ok(Output([done.bytes], msgs, Up(remote, Ready(AfterFrames(c, done.recv, |msgs|)))))
  {
    hide Stream, Feed;
    StreamReads(c, done.recv, msgs);
    var all: Bytes := [];
    assert all + stream == stream;
    var none: seq<Bytes> := [];
    assert [done.bytes] + none == [done.bytes];
  }

  /** The stream an honest dialler sends: both its acts, then its messages. */
  ghost predicate HonestDial(acts: Acts, responder: Bytes, c: Cipher, msgs: seq<Bytes>, stream: Bytes, reply: Responded,
                             done: Completed)
  {
    && Sendable(msgs) && |stream| >= ACT_ONE_LEN + ACT_THREE_LEN
    && acts.actOne(responder, stream[..ACT_ONE_LEN]) == Some(reply)
    && acts.actThree(reply.responder, stream[ACT_ONE_LEN..ACT_ONE_LEN + ACT_THREE_LEN]) == Some(done)
    && stream[ACT_ONE_LEN + ACT_THREE_LEN..] == Stream(c, done.recv, msgs)
  }

  /** A listener learns who dialled, answers with its act and delivers exactly the messages sent. */
  lemma AcceptDelivers(c: Cipher, acts: Acts, responder: Bytes, msgs: seq<Bytes>, chunks: seq<Bytes>, reply: Responded,
                       done: Completed)
    requires c.Lawful() && chunks != []
    requires HonestDial(acts, responder, c, msgs, Concat(chunks), reply, done)
    ensures InputAll(c, acts, Inbound(responder, false, []), chunks) ==
            Ok(Output([reply.actTwo], msgs, Up(done.bytes, Ready(AfterFrames(c, done.recv, |msgs|)))))
  {
    hide Stream, Feed, Input;
    AnyReads(c, acts, Inbound(responder, false, []), chunks);
    InboundWhole(c, acts, responder, msgs, Concat(chunks), reply, done);
  }

  lemma InboundWhole(c: Cipher, acts: Acts, responder: Bytes, msgs: seq<Bytes>, stream: Bytes, reply: Responded, done: Completed)
    requires c.Lawful() && HonestDial(acts, responder, c, msgs, stream, reply, done)
    ensures Input(c, acts, Inbound(responder, false, []), stream) ==
            Ok(Output([reply.actTwo], msgs, Up(done.bytes, Ready(AfterFrames(c, done.recv, |msgs|)))))
  {
    hide Stream, Feed;
    StreamReads(c, done.recv, msgs);
    var all: Bytes := [];
    assert all + stream == stream;
    var rest := stream[ACT_ONE_LEN..];
    assert rest[..ACT_THREE_LEN] == stream[ACT_ONE_LEN..ACT_ONE_LEN + ACT_THREE_LEN];
    assert rest[ACT_THREE_LEN..] == stream[ACT_ONE_LEN + ACT_THREE_LEN..];
    var none: seq<Bytes> := [];
    assert [reply.actTwo] + none == [reply.actTwo];
  }

  /** Over any reads of a connection that is up, with any bytes, what is delivered is a prefix of
      what the peer sent from there on. */
  lemma ConnectionDeliversOnlyAPrefix(c: Cipher, acts: Acts, nodeId: Bytes, s: CipherState, msgs: seq<Bytes>,
                                      chunks: seq<Bytes>)
    requires c.Lawful() && Sendable(msgs) && Unforgeable(c, s, msgs) && chunks != []
    ensures var r := InputAll(c, acts, Up(nodeId, Ready(s)), chunks);
            r.Ok? ==> r.value.toSend == [] && r.value.messages <= msgs && r.value.peer.Up? && r.value.peer.nodeId == nodeId
  {
    hide Feed, Unforgeable;
    AnyReads(c, acts, Up(nodeId, Ready(s)), chunks);
    DeliversOnlyAPrefix(c, s, msgs, Concat(chunks));
  }
}
