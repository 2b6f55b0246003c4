/** The control daemon's handshake over a paused connection: two length-prefixed messages, then kernel TLS. */
module OverSocket {
  import opened Bytes
  import opened Crypto
  import opened Handshake

  const MAX_HANDSHAKE_FRAME := 0x10_0000

  datatype SocketError = Io | HandshakeFailed(error: CryptoError) | Protocol

  /** As many bytes as there is room for. */
  function Front(data: bytes, room: nat): (w: bytes)
    ensures |w| == Min(|data|, room)
  {
    data[..Min(|data|, room)]
  }

  /** A byte stream: what has arrived and is unread, what has been written, and how much more it takes before it
      breaks. */
  class TcpStream {
    var input: bytes
    var output: bytes
    var room: nat

    method ReadExact(n: nat) returns (r: Option<bytes>)
      modifies this`input
      ensures |old(input)| < n ==> r.None? && input == []
      ensures |old(input)| >= n ==> r == Some(old(input)[..n]) && input == old(input)[n..]
    {
      if |input| < n {
        input := [];
        return None;
      }
      r := Some(input[..n]);
      input := input[n..];
    }

    method WriteAll(data: bytes) returns (ok: bool)
      modifies this`output, this`room
      ensures ok <==> |data| <= old(room)
      ensures output == old(output) + Front(data, old(room)) && room == old(room) - |Front(data, old(room))|
    {
      ok := |data| <= room;
      var n := Min(|data|, room);
      output, room := output + data[..n], room - n;
    }
  }

  /** The wire form of a handshake message. */
  function Message(payload: bytes): bytes
    requires |payload| <= MAX_HANDSHAKE_FRAME
  {
    Be32(|payload|) + payload
  }

  /** The first message of a stream, as `read_frame` sees it. */
  function FirstMessage(w: bytes): (r: Result<bytes, SocketError>) {
    if |w| < 4 then Err(Io)
    else
      var len := FromBe32(w[..4]);
      if len == 0 || len > MAX_HANDSHAKE_FRAME then Err(Protocol)
      else if |w| < 4 + len then Err(Io)
      else Ok(w[4..4 + len])
  }

  /** `write_frame`: the whole message, or as much of it as got through before the stream broke. */
  method WriteFrame(stream: TcpStream, payload: bytes) returns (r: Result<(), SocketError>)
    modifies stream`output, stream`room
    ensures |payload| > MAX_HANDSHAKE_FRAME ==> r == Err(Protocol) && unchanged(stream)
    ensures |payload| <= MAX_HANDSHAKE_FRAME ==>
              && r == (if |Message(payload)| <= old(stream.room) then Ok(()) else Err(Io))
              && stream.output == old(stream.output) + Front(Message(payload), old(stream.room))
  {
    if |payload| > MAX_HANDSHAKE_FRAME {
      return Err(Protocol);
    }
    var ok := stream.WriteAll(Be32(|payload|));
    if !ok {
      return Err(Io);
    }
    ok := stream.WriteAll(payload);
    r := if ok then Ok(()) else Err(Io);
  }

  /** `read_frame`. */
  method ReadFrame(stream: TcpStream) returns (r: Result<bytes, SocketError>)
    modifies stream`input
    ensures r == FirstMessage(old(stream.input))
    ensures r.Ok? ==> stream.input == old(stream.input)[4 + |r.value|..]
  {
    var lenBytes := stream.ReadExact(4);
    if lenBytes.None? {
      return Err(Io);
    }
    var len := FromBe32(lenBytes.value);
    if len == 0 || len > MAX_HANDSHAKE_FRAME {
      return Err(Protocol);
    }
    var payload := stream.ReadExact(len);
    assert |old(stream.input)| >= 4 + len ==> old(stream.input)[4..][..len] == old(stream.input)[4..4 + len];
    r := if payload.None? then Err(Io) else Ok(payload.value);
  }

  /**
   What is written is read back exactly when it is not empty: the writer accepts an
   empty message, the reader refuses one.
   */
  lemma ReadBack(payload: bytes, rest: bytes)
    requires |payload| <= MAX_HANDSHAKE_FRAME
    ensures FirstMessage(Message(payload) + rest) == Ok(payload) <==> payload != []
  {
    var w := Message(payload) + rest;
    Be32RoundTrip(|payload|);
    assert w[..4] == Be32(|payload|);
    if payload != [] {
      assert w[4..4 + |payload|] == payload;
    }
  }

  /** `initiator_handshake`. */
  method InitiatorHandshake(p: Primitives, stream: TcpStream, id: Identity, suite: Suite, xSecret: bytes,
                            decapKey: bytes)
    returns (r: Result<SessionKeys, SocketError>)
    modifies stream
    ensures var st := ClientHello(p, suite, id, xSecret, decapKey);
            |st.clientHello| <= MAX_HANDSHAKE_FRAME ==>
              && stream.output == old(stream.output) + Front(Message(st.clientHello), old(stream.room))
              && if |Message(st.clientHello)| > old(stream.room) then r == Err(Io)
                 else match FirstMessage(old(stream.input))
                   case Err(e) => r == Err(e)
                   case Ok(sh) =>
                     match Finish(p, st, id, sh)
                     case Err(e) => r == Err(HandshakeFailed(e))
                     case Ok(keys) => r == Ok(keys)
    ensures |ClientHello(p, suite, id, xSecret, decapKey).clientHello| > MAX_HANDSHAKE_FRAME ==>
              r == Err(Protocol) && unchanged(stream)
  {
    hide ClientHello, Finish, FirstMessage;
    var st := ClientHello(p, suite, id, xSecret, decapKey);
    var wrote := WriteFrame(stream, st.clientHello);
    if wrote.Err? {
      return Err(wrote.error);
    }
    var sh := ReadFrame(stream);
    if sh.Err? {
      return Err(sh.error);
    }
    match Finish(p, st, id, sh.value)
    case Err(e) => r := Err(HandshakeFailed(e));
    case Ok(keys) => r := Ok(keys);
  }

  /** `responder_handshake`. */
  method ResponderHandshake(p: Primitives, stream: TcpStream, id: Identity, suite: Suite, xSecret: bytes, coins: bytes)
    returns (r: Result<SessionKeys, SocketError>)
    modifies stream
    ensures match FirstMessage(old(stream.input))
            case Err(e) => r == Err(e) && stream.output == old(stream.output)
            case Ok(ch) =>
              match Respond(p, suite, id, ch, xSecret, coins)
              case Err(e) => r == Err(HandshakeFailed(e)) && stream.output == old(stream.output)
              case Ok((keys, sh)) =>
                if |sh| > MAX_HANDSHAKE_FRAME then r == Err(Protocol) && stream.output == old(stream.output)
                else
                  && stream.output == old(stream.output) + Front(Message(sh), old(stream.room))
                  && r == if |Message(sh)| <= old(stream.room) then Ok(keys) else Err(Io)
  {
    hide Respond, FirstMessage;
    var ch := ReadFrame(stream);
    if ch.Err? {
      return Err(ch.error);
    }
    match Respond(p, suite, id, ch.value, xSecret, coins)
    case Err(e) => r := Err(HandshakeFailed(e));
    case Ok((keys, sh)) =>
      var wrote := WriteFrame(stream, sh);
      r := if wrote.Err? then Err(wrote.error) else Ok(keys);
  }

  /**
   Two daemons that trust each other, joined by a faithful stream: the responder reads
   the ClientHello written, the initiator reads the ServerHello written, both succeed,
   and the kernel gets the same key, salt, IV and record sequence for each direction
   on both sides.
   */
  lemma BridgedEndsAgree(p: Primitives, cid: Identity, sid: Identity, suite: Suite, cSecret: bytes, decapKey: bytes,
                         sSecret: bytes, coins: bytes, toServer: bytes, toClient: bytes)
    requires Lawful(p) && Trusting(p, cid, sid) && p.encapsulate(suite, p.kemPublic(suite, decapKey), coins).Some?
    ensures var st := ClientHello(p, suite, cid, cSecret, decapKey);
            && |st.clientHello| <= MAX_HANDSHAKE_FRAME
            && FirstMessage(Message(st.clientHello) + toServer) == Ok(st.clientHello)
            && Respond(p, suite, sid, st.clientHello, sSecret, coins).Ok?
            && var (server, sh) := Respond(p, suite, sid, st.clientHello, sSecret, coins).value;
            && |sh| <= MAX_HANDSHAKE_FRAME
            && FirstMessage(Message(sh) + toClient) == Ok(sh)
            && Finish(p, st, cid, sh).Ok?
            && var client := Finish(p, st, cid, sh).value;
            && Mirrored(client, server)
            && ExportKtls(p, client.tx) == ExportKtls(p, server.rx)
            && ExportKtls(p, client.rx) == ExportKtls(p, server.tx)
  {
    var st := ClientHello(p, suite, cid, cSecret, decapKey);
    HonestHandshake(p, suite, cid, sid, cSecret, decapKey, sSecret, coins);
    ClientHelloGenuine(p, suite, cid, cSecret, decapKey);
    ServerHelloIsSmall(p, suite, sid, st.clientHello, sSecret, coins);
    hide ClientHello, Respond, Finish, FirstMessage, Message;
    var (server, sh) := Respond(p, suite, sid, st.clientHello, sSecret, coins).value;
    ReadBack(st.clientHello, toServer);
    ReadBack(sh, toClient);
    MirroredKtls(p, Finish(p, st, cid, sh).value, server);
  }

  lemma ServerHelloIsSmall(p: Primitives, suite: Suite, id: Identity, ch: bytes, xSecret: bytes, coins: bytes)
    requires Lawful(p) && Respond(p, suite, id, ch, xSecret, coins).Ok?
    ensures 1 <= |Respond(p, suite, id, ch, xSecret, coins).value.1| <= MAX_HANDSHAKE_FRAME
  {
    var (ct, ss) := p.encapsulate(suite, ch[X25519_LEN..X25519_LEN + suite.EkLen()], coins).value;
    ServerHelloReads(p, suite, id, ch, xSecret, ct);
  }
}
