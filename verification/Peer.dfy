/**
 * A connection from its first byte: the handshake acts are collected from the
 * stream, what follows them goes to the transport, and none of it depends on
 * how the stream was cut into reads.
 *
 * The three handshake acts are arbitrary functions.
 */
module Peer {
  import opened Wrappers
  import opened Noise

  const ACT_ONE_LEN: nat := 50
  const ACT_TWO_LEN: nat := 50
  const ACT_THREE_LEN: nat := 66

  /** Act 3 or the peer's identity, and the cipher for what comes after. */
  datatype Completed = Completed(bytes: Bytes, recv: CipherState)

  datatype Responded = Responded(actTwo: Bytes, responder: Bytes)

  datatype Acts = Acts(
    actTwo: (Bytes, Bytes) -> Option<Completed>,
    actOne: (Bytes, Bytes) -> Option<Responded>,
    actThree: (Bytes, Bytes) -> Option<Completed>)

  datatype PeerState =
    | Outbound(initiator: Bytes, remote: Bytes, buf: Bytes)
    | Inbound(responder: Bytes, actedOne: bool, buf: Bytes)
    | Up(nodeId: Bytes, rx: Receiver)

  datatype PeerError = HandshakeFailed | TransportFailed

  /** What one read produced: bytes to write back, whole messages, the new state. */
  datatype Output = Output(toSend: seq<Bytes>, messages: seq<Bytes>, peer: PeerState)

  function Sent(first: seq<Bytes>, r: Result<Output, PeerError>): Result<Output, PeerError> {
    if r.Ok? then Ok(r.value.(toSend := first + r.value.toSend)) else r
  }

  lemma SentUnit(r: Result<Output, PeerError>)
    ensures Sent([], r) == r
  {
    if r.Ok? {
      assert [] + r.value.toSend == r.value.toSend;
    }
  }

  lemma SentBefore(first: seq<Bytes>, messages: seq<Bytes>, p: PeerState)
    ensures Sent(first, Ok(Output([], messages, p))) == Ok(Output(first, messages, p))
  {
    assert first + [] == first;
  }

  function ReadUp(c: Cipher, nodeId: Bytes, rx: Receiver, data: Bytes): Result<Output, PeerError> {
    match Feed(c, rx, data)
    case Err(_) => Err(TransportFailed)
    case Ok(d) => Ok(Output([], d.messages, Up(nodeId, d.rest)))
  }

  function ReadOutbound(c: Cipher, acts: Acts, initiator: Bytes, remote: Bytes, buf: Bytes): Result<Output, PeerError> {
    if |buf| < ACT_TWO_LEN then Ok(Output([], [], Outbound(initiator, remote, buf)))
    else
      match acts.actTwo(initiator, buf[..ACT_TWO_LEN])
      case None => Err(HandshakeFailed)
      case Some(done) => Sent([done.bytes], ReadUp(c, remote, Ready(done.recv), buf[ACT_TWO_LEN..]))
  }

  function ReadActThree(c: Cipher, acts: Acts, responder: Bytes, buf: Bytes): Result<Output, PeerError> {
    if |buf| < ACT_THREE_LEN then Ok(Output([], [], Inbound(responder, true, buf)))
    else
      match acts.actThree(responder, buf[..ACT_THREE_LEN])
      case None => Err(HandshakeFailed)
      case Some(done) => ReadUp(c, done.bytes, Ready(done.recv), buf[ACT_THREE_LEN..])
  }

  function ReadActOne(c: Cipher, acts: Acts, responder: Bytes, buf: Bytes): Result<Output, PeerError> {
    if |buf| < ACT_ONE_LEN then Ok(Output([], [], Inbound(responder, false, buf)))
    else
      match acts.actOne(responder, buf[..ACT_ONE_LEN])
      case None => Err(HandshakeFailed)
      case Some(reply) => Sent([reply.actTwo], ReadActThree(c, acts, reply.responder, buf[ACT_ONE_LEN..]))
  }

  function Input(c: Cipher, acts: Acts, p: PeerState, data: Bytes): Result<Output, PeerError> {
    match p
    case Up(nodeId, rx) => ReadUp(c, nodeId, rx, data)
    case Outbound(initiator, remote, buf) => ReadOutbound(c, acts, initiator, remote, buf + data)
    case Inbound(responder, actedOne, buf) =>
      if actedOne then ReadActThree(c, acts, responder, buf + data)
      else ReadActOne(c, acts, responder, buf + data)
  }

  // ------------------------------------------------ splitting does not matter

  ghost function Continue(c: Cipher, acts: Acts, first: Result<Output, PeerError>, data: Bytes)
    : Result<Output, PeerError>
  {
    match first
    case Err(e) => Err(e)
    case Ok(o) =>
      match Input(c, acts, o.peer, data)
      case Err(e) => Err(e)
      case Ok(o2) => Ok(Output(o.toSend + o2.toSend, o.messages + o2.messages, o2.peer))
  }

  lemma SentContinue(c: Cipher, acts: Acts, first: seq<Bytes>, r: Result<Output, PeerError>, data: Bytes)
    ensures Continue(c, acts, Sent(first, r), data) == Sent(first, Continue(c, acts, r, data))
  {
    hide Input;
    if r.Ok? && Input(c, acts, r.value.peer, data).Ok? {
      var more := Input(c, acts, r.value.peer, data).value.toSend;
      assert first + r.value.toSend + more == first + (r.value.toSend + more);
    }
  }

  lemma UpMore(c: Cipher, acts: Acts, nodeId: Bytes, rx: Receiver, a: Bytes, b: Bytes)
    ensures ReadUp(c, nodeId, rx, a + b) == Continue(c, acts, ReadUp(c, nodeId, rx, a), b)
  {
    hide Feed;
    FeedConcat(c, rx, a, b);
    var none: seq<Bytes> := [];
    assert none + none == none;
  }

  lemma OutboundMore(c: Cipher, acts: Acts, initiator: Bytes, remote: Bytes, buf: Bytes, b: Bytes)
    ensures ReadOutbound(c, acts, initiator, remote, buf + b)
            == Continue(c, acts, ReadOutbound(c, acts, initiator, remote, buf), b)
  {
    hide ReadUp;
    if |buf| >= ACT_TWO_LEN {
      assert (buf + b)[..ACT_TWO_LEN] == buf[..ACT_TWO_LEN];
      assert (buf + b)[ACT_TWO_LEN..] == buf[ACT_TWO_LEN..] + b;
      var done := acts.actTwo(initiator, buf[..ACT_TWO_LEN]);
      if done.Some? {
        var rx := Ready(done.value.recv);
        UpMore(c, acts, remote, rx, buf[ACT_TWO_LEN..], b);
        SentContinue(c, acts, [done.value.bytes], ReadUp(c, remote, rx, buf[ACT_TWO_LEN..]), b);
      }
    } else {
      NothingBefore(ReadOutbound(c, acts, initiator, remote, buf + b));
    }
  }

  lemma NothingBefore(r: Result<Output, PeerError>)
    ensures r.Ok? ==> Output([] + r.value.toSend, [] + r.value.messages, r.value.peer) == r.value
  {
  }

  lemma ActThreeMore(c: Cipher, acts: Acts, responder: Bytes, buf: Bytes, b: Bytes)
    ensures ReadActThree(c, acts, responder, buf + b) == Continue(c, acts, ReadActThree(c, acts, responder, buf), b)
  {
    hide ReadUp;
    if |buf| >= ACT_THREE_LEN {
      assert (buf + b)[..ACT_THREE_LEN] == buf[..ACT_THREE_LEN];
      assert (buf + b)[ACT_THREE_LEN..] == buf[ACT_THREE_LEN..] + b;
      var done := acts.actThree(responder, buf[..ACT_THREE_LEN]);
      if done.Some? {
        UpMore(c, acts, done.value.bytes, Ready(done.value.recv), buf[ACT_THREE_LEN..], b);
      }
    } else {
      NothingBefore(ReadActThree(c, acts, responder, buf + b));
    }
  }

  lemma ActOneMore(c: Cipher, acts: Acts, responder: Bytes, buf: Bytes, b: Bytes)
    ensures ReadActOne(c, acts, responder, buf + b) == Continue(c, acts, ReadActOne(c, acts, responder, buf), b)
  {
    hide ReadUp, ReadActThree;
    if |buf| >= ACT_ONE_LEN {
      assert (buf + b)[..ACT_ONE_LEN] == buf[..ACT_ONE_LEN];
      assert (buf + b)[ACT_ONE_LEN..] == buf[ACT_ONE_LEN..] + b;
      var reply := acts.actOne(responder, buf[..ACT_ONE_LEN]);
      if reply.Some? {
        ActThreeMore(c, acts, reply.value.responder, buf[ACT_ONE_LEN..], b);
        SentContinue(c, acts, [reply.value.actTwo],
                     ReadActThree(c, acts, reply.value.responder, buf[ACT_ONE_LEN..]), b);
      }
    } else {
      NothingBefore(ReadActOne(c, acts, responder, buf + b));
    }
  }

  /** Two reads are one, in every state of the connection and for any bytes;
      a failure too is the same either way. */
  lemma InputConcat(c: Cipher, acts: Acts, p: PeerState, a: Bytes, b: Bytes)
    ensures Input(c, acts, p, a + b) == Continue(c, acts, Input(c, acts, p, a), b)
  {
    hide ReadUp, ReadOutbound, ReadActThree, ReadActOne;
    if p.Up? {
      UpMore(c, acts, p.nodeId, p.rx, a, b);
    } else {
      assert p.buf + (a + b) == p.buf + a + b;
      if p.Outbound? {
        OutboundMore(c, acts, p.initiator, p.remote, p.buf + a, b);
      } else if p.actedOne {
        ActThreeMore(c, acts, p.responder, p.buf + a, b);
      } else {
        ActOneMore(c, acts, p.responder, p.buf + a, b);
      }
    }
  }

  /** The reads one after the other. */
  ghost function InputAll(c: Cipher, acts: Acts, p: PeerState, chunks: seq<Bytes>): Result<Output, PeerError>
    requires chunks != []
  {
    var n := |chunks| - 1;
    if n == 0 then Input(c, acts, p, chunks[0])
    else Continue(c, acts, InputAll(c, acts, p, chunks[..n]), chunks[n])
  }

  lemma {:induction false} AnyReads(c: Cipher, acts: Acts, p: PeerState, chunks: seq<Bytes>)
    requires chunks != []
    ensures InputAll(c, acts, p, chunks) == Input(c, acts, p, Concat(chunks))
  {
    hide Input;
    var n := |chunks| - 1;
    if n == 0 {
      assert Concat(chunks) == chunks[0] by {
        assert chunks[..0] == [];
      }
    } else {
      AnyReads(c, acts, p, chunks[..n]);
      InputConcat(c, acts, p, Concat(chunks[..n]), chunks[n]);
    }
  }

  // -------------------------------------------------------- the connection

  /** As the source holds it; `Poisoned` only while a state is being replaced. */
  datatype PeerTransport =
    | OutboundHandshake(initiator: Bytes)
    | InboundHandshake(responder: Bytes, actedOne: bool)
    | Running(transport: Receiver)
    | Poisoned

  class Connection {
    const c: Cipher
    const acts: Acts
    var transport: PeerTransport
    var handshakeBuf: Bytes
    var nodeId: Option<Bytes>

    constructor Dial(c: Cipher, acts: Acts, initiator: Bytes, remote: Bytes)
      ensures this.c == c && this.acts == acts && Usable() && State() == Outbound(initiator, remote, [])
    {
      this.c, this.acts := c, acts;
      transport, handshakeBuf, nodeId := OutboundHandshake(initiator), [], Some(remote);
    }

    constructor Accept(c: Cipher, acts: Acts, responder: Bytes)
      ensures this.c == c && this.acts == acts && Usable() && State() == Inbound(responder, false, [])
    {
      this.c, this.acts := c, acts;
      transport, handshakeBuf, nodeId := InboundHandshake(responder, false), [], None;
    }

    ghost predicate Usable()
      reads this
    {
      && !transport.Poisoned?
      && (transport.OutboundHandshake? || transport.Running? ==> nodeId.Some?)
      && (transport.Running? ==> handshakeBuf == [])
    }

    ghost function State(): PeerState
      requires Usable()
      reads this
    {
      match transport
      case OutboundHandshake(initiator) => Outbound(initiator, nodeId.value, handshakeBuf)
      case InboundHandshake(responder, actedOne) => Inbound(responder, actedOne, handshakeBuf)
      case Running(rx) => Up(nodeId.value, rx)
    }

    /** One turn of the source's loop over the handshake: `true` when the read is
        over for now, `false` when the transport is up. */
    method Advance(data: Bytes) returns (toSend: seq<Bytes>, r: Result<bool, PeerError>)
      requires Usable() && !transport.Running?
      modifies this
      ensures r.Err? ==> Input(c, acts, old(State()), data) == Err(HandshakeFailed) && r.error == HandshakeFailed
      ensures r.Ok? ==> Usable()
      ensures r.Ok? && r.value ==> Input(c, acts, old(State()), data) == Ok(Output(toSend, [], State()))
      ensures r.Ok? && !r.value ==>
                && transport.Running?
                && Input(c, acts, old(State()), data)
                   == Sent(toSend, ReadUp(c, nodeId.value, transport.transport, []))
    {
      toSend := [];
      handshakeBuf := handshakeBuf + data;
      match transport
      case OutboundHandshake(initiator) =>
        if |handshakeBuf| < ACT_TWO_LEN {
          return toSend, Ok(true);
        }
        var actTwo, rest := handshakeBuf[..ACT_TWO_LEN], handshakeBuf[ACT_TWO_LEN..];
        handshakeBuf := [];
        transport := Poisoned;
        var done := acts.actTwo(initiator, actTwo);
        if done.None? {
          return toSend, Err(HandshakeFailed);
        }
        toSend := [done.value.bytes];
        transport := Running(Ready(done.value.recv).Fed(rest));
        AlreadyFed(c, nodeId.value, Ready(done.value.recv), rest);
        return toSend, Ok(false);
      case InboundHandshake(responder, actedOne) =>
        var current := responder;
        if !actedOne {
          if |handshakeBuf| < ACT_ONE_LEN {
            return toSend, Ok(true);
          }
          var reply := acts.actOne(responder, handshakeBuf[..ACT_ONE_LEN]);
          handshakeBuf := handshakeBuf[ACT_ONE_LEN..];
          transport := Poisoned;
          if reply.None? {
            return toSend, Err(HandshakeFailed);
          }
          toSend := [reply.value.actTwo];
          current := reply.value.responder;
          transport := InboundHandshake(current, true);
        }
        if |handshakeBuf| < ACT_THREE_LEN {
          SentBefore(toSend, [], State());
          return toSend, Ok(true);
        }
        var actThree, rest := handshakeBuf[..ACT_THREE_LEN], handshakeBuf[ACT_THREE_LEN..];
        handshakeBuf := [];
        transport := Poisoned;
        var done := acts.actThree(current, actThree);
        if done.None? {
          return toSend, Err(HandshakeFailed);
        }
        nodeId := Some(done.value.bytes);
        transport := Running(Ready(done.value.recv).Fed(rest));
        AlreadyFed(c, done.value.bytes, Ready(done.value.recv), rest);
        SentUnit(ReadUp(c, done.value.bytes, Ready(done.value.recv), rest));
        return toSend, Ok(false);
    }

    /** Feed raw socket bytes. */
    method Read(data: Bytes) returns (r: Result<(seq<Bytes>, seq<Bytes>), PeerError>)
      requires Usable()
      modifies this
      ensures match Input(c, acts, old(State()), data)
              case Err(e) => r == Err(e)
              case Ok(o) => r == Ok((o.toSend, o.messages)) && Usable() && State() == o.peer
    {
      hide Input, ReadUp;
      var toSend, incoming := [], data;
      ghost var was := State();
      if !transport.Running? {
        var step;
        toSend, step := Advance(data);
        if step.Err? {
          return Err(step.error);
        }
        if step.value {
          return Ok((toSend, []));
        }
        incoming := [];
      } else {
        InputUp(c, acts, was, data);
      }
      var messages, ok := DrainInto(incoming);
      if !ok {
        return Err(TransportFailed);
      }
      SentBefore(toSend, messages, State());
      return Ok((toSend, messages));
    }

    method DrainInto(data: Bytes) returns (messages: seq<Bytes>, ok: bool)
      requires Usable() && transport.Running?
      modifies this`transport
      ensures ReadUp(c, nodeId.value, old(transport.transport), data) ==
              if ok && transport.Running? then Ok(Output([], messages, Up(nodeId.value, transport.transport)))
              else Err(TransportFailed)
      ensures ok ==> Usable() && transport.Running?
    {
      hide NextMessage;
      var rx := transport.transport.Fed(data);
      messages := [];
      ghost var all := Drain(c, rx);
      assert all.Ok? ==> [] + all.value.messages == all.value.messages;
      while true
        invariant all == Prepended(messages, Drain(c, rx))
        decreases |rx.buffer|
      {
        GotShrinks(c, rx);
        var attempt := NextMessage(c, rx);
        match attempt
        case Bad =>
          return messages, false;
        case Waiting(rest) =>
          transport := Running(rest);
          assert messages + [] == messages;
          return messages, true;
        case Got(m, rest) =>
          PrependStep(messages, m, Drain(c, rest));
          messages := messages + [m];
          rx := rest;
      }
    }
  }

  function Prepended(messages: seq<Bytes>, r: Result<Drained, NoiseError>): Result<Drained, NoiseError> {
    if r.Ok? then Ok(Drained(messages + r.value.messages, r.value.rest)) else r
  }

  lemma PrependStep(messages: seq<Bytes>, m: Bytes, r: Result<Drained, NoiseError>)
    ensures Prepended(messages + [m], r) == Prepended(messages, Prepended([m], r))
  {
    if r.Ok? {
      assert messages + [m] + r.value.messages == messages + ([m] + r.value.messages);
    }
  }

  lemma AlreadyFed(c: Cipher, nodeId: Bytes, rx: Receiver, data: Bytes)
    ensures ReadUp(c, nodeId, rx.Fed(data), []) == ReadUp(c, nodeId, rx, data)
  {
    assert rx.Fed(data).Fed([]) == rx.Fed(data);
  }

  lemma InputUp(c: Cipher, acts: Acts, p: PeerState, data: Bytes)
    requires p.Up?
    ensures Input(c, acts, p, data) == Sent([], ReadUp(c, p.nodeId, p.rx, data))
  {
    SentUnit(ReadUp(c, p.nodeId, p.rx, data));
  }
}
