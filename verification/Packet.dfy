/** TwofacedPoker/Protocol/Packet.cpp: messages as length-prefixed packets over a byte stream that may be cut
    into pieces anywhere. */
module Packet {
  import opened Foundation

  newtype byte = x: int | 0 <= x < 256

  const MAX_PACKET_SIZE := 1024
  const HEADER_SIZE := 4

  // One direction of a connection: bytes that were sent and not yet received, first to last.
  class Wire {
    var inFlight: seq<byte>
    const reliable: bool // no send or receive fails while there is something to move

    constructor (reliable: bool)
      ensures inFlight == [] && this.reliable == reliable
    {
      inFlight := [];
      this.reliable := reliable;
    }

    // send: some of the data, from the front, or a failure.
    method Send(data: seq<byte>) returns (result: int)
      requires data != []
      modifies this
      ensures result <= |data|
      ensures inFlight == old(inFlight) + data[..if result > 0 then result else 0]
      ensures reliable ==> result > 0
    {
      result :| result <= |data| && (reliable ==> result > 0);
      if result > 0 {
        inFlight := inFlight + data[..result];
      } else {
        assert inFlight == inFlight + data[..0];
      }
    }

    // recv: at most size bytes, or nothing when the connection ended or failed.
    method Recv(size: nat) returns (result: int, data: seq<byte>)
      requires size > 0
      modifies this
      ensures result <= size && |data| == if result > 0 then result else 0
      ensures old(inFlight) == data + inFlight
      ensures reliable && old(inFlight) != [] ==> result > 0
    {
      data := [];
      if inFlight == [] {
        result :| result <= 0;
        return;
      }
      result :| result <= size && result <= |inFlight| && (reliable ==> result > 0);
      if result > 0 {
        data := inFlight[..result];
        inFlight := inFlight[result..];
      }
    }
  }

  method SendAll(wire: Wire, buffer: seq<byte>) returns (ok: bool)
    modifies wire
    ensures ok ==> wire.inFlight == old(wire.inFlight) + buffer
    ensures !ok ==> exists k :: 0 <= k < |buffer| && wire.inFlight == old(wire.inFlight) + buffer[..k]
    ensures wire.reliable ==> ok
  {
    var sent := 0;
    assert buffer[..0] == [];
    while sent < |buffer|
      invariant 0 <= sent <= |buffer| && wire.inFlight == old(wire.inFlight) + buffer[..sent]
      decreases |buffer| - sent
    {
      var result := wire.Send(buffer[sent..]);
      if result <= 0 {
        return false;
      }
      assert buffer[..sent + result] == buffer[..sent] + buffer[sent..][..result];
      sent := sent + result;
    }
    return true;
  }

  method RecvAll(wire: Wire, buffer: array<byte>, size: nat) returns (ok: bool, ghost data: seq<byte>)
    requires size <= buffer.Length
    modifies wire, buffer
    ensures old(wire.inFlight) == data + wire.inFlight && |data| <= size
    ensures ok <==> |data| == size
    ensures ok ==> buffer[..size] == data
    ensures wire.reliable && |old(wire.inFlight)| >= size ==> ok
  {
    var received := 0;
    data := [];
    while received < size
      invariant 0 <= received <= size && received == |data|
      invariant old(wire.inFlight) == data + wire.inFlight && buffer[..received] == data
      decreases size - received
    {
      var result, piece := wire.Recv(size - received);
      if result <= 0 {
        return false, data;
      }
      forall i | 0 <= i < result {
        buffer[received + i] := piece[i];
      }
      assert buffer[..received + result] == data + piece;
      assert data + (piece + wire.inFlight) == (data + piece) + wire.inFlight;
      data := data + piece;
      received := received + result;
    }
    return true, data;
  }

  // ---- packets -------------------------------------------------------------------------------

  // Four bytes in network order.
  function Header(n: nat): (h: seq<byte>)
    requires n < 0x1_0000_0000
    ensures |h| == HEADER_SIZE
  {
    [(n / 0x100_0000) as byte, (n / 0x1_0000 % 0x100) as byte, (n / 0x100 % 0x100) as byte, (n % 0x100) as byte]
  }

  function Length(h: seq<byte>): (n: nat)
    requires |h| == HEADER_SIZE
    ensures n < 0x1_0000_0000
  {
    h[0] as int * 0x100_0000 + h[1] as int * 0x1_0000 + h[2] as int * 0x100 + h[3] as int
  }

  lemma HeaderRoundTrip(n: nat, h: seq<byte>)
    requires n < 0x1_0000_0000 && |h| == HEADER_SIZE
    ensures Length(Header(n)) == n && Header(Length(h)) == h
  {
    hide Header, Length;
    LengthOfHeader(n);
    HeaderOfLength(h);
  }

  // Writing n / 0x100 as m, and so on: each byte is split off in one division.
  lemma LengthOfHeader(n: nat)
    requires n < 0x1_0000_0000
    ensures Length(Header(n)) == n
  {
    var m := n / 0x100;
    var k := m / 0x100;
    assert k == n / 0x1_0000 && k / 0x100 == n / 0x100_0000;
    assert n == m * 0x100 + n % 0x100 && m == k * 0x100 + m % 0x100 && k == k / 0x100 * 0x100 + k % 0x100;
  }

  lemma HeaderOfLength(h: seq<byte>)
    requires |h| == HEADER_SIZE
    ensures Header(Length(h)) == h
  {
    var m := Length(h);
    assert m / 0x100 == h[0] as int * 0x1_0000 + h[1] as int * 0x100 + h[2] as int;
    assert m / 0x1_0000 == h[0] as int * 0x100 + h[1] as int;
    assert Header(m)[0] == h[0] && Header(m)[1] == h[1] && Header(m)[2] == h[2] && Header(m)[3] == h[3];
  }

  // What a sequence of digits in base 256 stands for, the most significant first.
  function Value(digits: seq<byte>): nat {
    if digits == [] then 0
    else
      var last := |digits| - 1;
      Value(digits[..last]) * 256 + digits[last] as int
  }

  lemma ValueOfFour(h: seq<byte>)
    requires |h| == HEADER_SIZE
    ensures Value(h) == ((h[0] as int * 256 + h[1] as int) * 256 + h[2] as int) * 256 + h[3] as int
  {
    assert h[..3][..2] == h[..2] && h[..2][..1] == h[..1] && h[..1][..0] == [];
    assert Value(h[..1]) == h[0] as int;
    assert Value(h[..2]) == Value(h[..1]) * 256 + h[1] as int;
    assert Value(h[..3]) == Value(h[..2]) * 256 + h[2] as int;
  }

  // The header is the length in network order: its four bytes are the digits of the length, the highest first.
  lemma HeaderIsNetworkOrder(n: nat, h: seq<byte>)
    requires n < 0x1_0000_0000 && |h| == HEADER_SIZE
    ensures Value(Header(n)) == n && Length(h) == Value(h)
  {
    ValueOfFour(h);
    ValueOfFour(Header(n));
    LengthOfHeader(n);
  }

  // Every packet that may be sent begins with two zero bytes and two bytes for its length.
  lemma FrameIsLiteral(message: seq<byte>)
    requires Sendable(message)
    ensures var n := |message|; Frame(message) == [0, 0, (n / 256) as byte, (n % 256) as byte] + message
  {
  }

  // Such bytes are read as exactly this packet, whatever follows.
  lemma LiteralIsRead(hi: byte, lo: byte, message: seq<byte>, rest: seq<byte>)
    requires |message| == hi as int * 256 + lo as int && Sendable(message)
    ensures var bytes := [0, 0, hi, lo] + message + rest;
      StartsWithPacket(bytes) && FirstPacket(bytes) == message
  {
    var bytes := [0, 0, hi, lo] + message + rest;
    assert bytes[..HEADER_SIZE] == [0, 0, hi, lo];
    assert bytes[HEADER_SIZE..HEADER_SIZE + |message|] == message;
  }

  predicate Sendable(message: seq<byte>) { 1 <= |message| <= MAX_PACKET_SIZE }

  function Frame(message: seq<byte>): seq<byte>
    requires Sendable(message)
  {
    Header(|message|) + message
  }

  // A complete packet at the front of what was received, if there is a valid one.
  predicate StartsWithPacket(bytes: seq<byte>) {
    && |bytes| >= HEADER_SIZE
    && var n := Length(bytes[..HEADER_SIZE]);
       1 <= n <= MAX_PACKET_SIZE && |bytes| >= HEADER_SIZE + n
  }

  function FirstPacket(bytes: seq<byte>): (message: seq<byte>)
    requires StartsWithPacket(bytes)
    ensures Sendable(message)
  {
    bytes[HEADER_SIZE..HEADER_SIZE + Length(bytes[..HEADER_SIZE])]
  }

  // A stream begins with the packet of a message exactly if that message is read from it.
  lemma FrontIsFrame(bytes: seq<byte>, message: seq<byte>)
    requires Sendable(message)
    ensures Frame(message) <= bytes <==> StartsWithPacket(bytes) && FirstPacket(bytes) == message
  {
    HeaderRoundTrip(|message|, Header(0));
    if Frame(message) <= bytes {
      assert bytes[..HEADER_SIZE] == Frame(message)[..HEADER_SIZE] == Header(|message|);
      assert bytes[HEADER_SIZE..HEADER_SIZE + |message|] == Frame(message)[HEADER_SIZE..];
    }
    if StartsWithPacket(bytes) && FirstPacket(bytes) == message {
      HeaderRoundTrip(0, bytes[..HEADER_SIZE]);
      assert Frame(message) == bytes[..HEADER_SIZE + |message|];
    }
  }

  method SendPacket(wire: Wire, message: seq<byte>) returns (ok: bool)
    modifies wire
    ensures !Sendable(message) ==> !ok && wire.inFlight == old(wire.inFlight)
    ensures ok ==>
      var n := |message|;
      1 <= n <= 1024 && wire.inFlight == old(wire.inFlight) + ([0, 0, (n / 256) as byte, (n % 256) as byte] + message)
    ensures ok ==> wire.inFlight == old(wire.inFlight) + Frame(message)
    ensures Sendable(message) && !ok ==>
      exists k :: 0 <= k < |Frame(message)| && wire.inFlight == old(wire.inFlight) + Frame(message)[..k]
    ensures Sendable(message) && wire.reliable ==> ok
  {
    if |message| == 0 || |message| > MAX_PACKET_SIZE {
      return false;
    }
    var header := Header(|message|);
    ok := SendAll(wire, header);
    if !ok {
      assert forall k :: 0 <= k < |header| ==> Frame(message)[..k] == header[..k];
      return;
    }
    ok := SendAll(wire, message);
    if !ok {
      ghost var k :| 0 <= k < |message| && wire.inFlight == old(wire.inFlight) + header + message[..k];
      assert Frame(message)[..HEADER_SIZE + k] == header + message[..k];
      assert wire.inFlight == old(wire.inFlight) + Frame(message)[..HEADER_SIZE + k];
    } else {
      assert wire.inFlight == old(wire.inFlight) + (header + message);
    }
  }

  method ReceivePacket(wire: Wire) returns (r: Option<seq<byte>>)
    modifies wire
    ensures r.Some? ==>
      && StartsWithPacket(old(wire.inFlight)) && r.value == FirstPacket(old(wire.inFlight))
      && old(wire.inFlight) == Frame(r.value) + wire.inFlight
    ensures r.None? ==> !(wire.reliable && StartsWithPacket(old(wire.inFlight)))
    ensures
      var bytes := old(wire.inFlight);
      wire.reliable && |bytes| >= 4 && bytes[0] == 0 && bytes[1] == 0 ==>
        var n := bytes[2] as int * 256 + bytes[3] as int;
        1 <= n <= 1024 && |bytes| >= 4 + n ==> r == Some(bytes[4..4 + n]) && wire.inFlight == bytes[4 + n..]
    ensures |wire.inFlight| <= |old(wire.inFlight)|
  {
    var header := new byte[HEADER_SIZE];
    ghost var was := wire.inFlight;
    var ok, headerBytes := RecvAll(wire, header, HEADER_SIZE);
    if !ok {
      return None;
    }
    assert was[..HEADER_SIZE] == headerBytes;
    var bodyLength := Length(header[..HEADER_SIZE]);
    if bodyLength == 0 || bodyLength > MAX_PACKET_SIZE {
      return None;
    }
    var body := new byte[bodyLength];
    var bodyOk, bodyBytes := RecvAll(wire, body, bodyLength);
    if !bodyOk {
      return None;
    }
    assert was == headerBytes + (bodyBytes + wire.inFlight) == headerBytes + bodyBytes + wire.inFlight;
    HeaderRoundTrip(0, headerBytes);
    assert was[HEADER_SIZE..HEADER_SIZE + bodyLength] == bodyBytes;
    return Some(body[..bodyLength]);
  }

  // ---- whole streams -------------------------------------------------------------------------

  function Encode(messages: seq<seq<byte>>): seq<byte>
    requires forall m :: m in messages ==> Sendable(m)
  {
    if messages == [] then [] else Frame(messages[0]) + Encode(messages[1..])
  }

  // What repeated reading finds in a stream, up to the first incomplete or invalid packet.
  function Decode(bytes: seq<byte>): (messages: seq<seq<byte>>)
    ensures forall m :: m in messages ==> Sendable(m)
    decreases |bytes|
  {
    if !StartsWithPacket(bytes) then []
    else
      var m := FirstPacket(bytes);
      [m] + Decode(bytes[HEADER_SIZE + |m|..])
  }

  // However many bytes of a stream of packets have arrived so far, what was read is the beginning of what was
  // sent; when all have arrived, it is all of it.
  lemma {:induction false} ArrivedIsPrefix(messages: seq<seq<byte>>, k: nat)
    requires forall m :: m in messages ==> Sendable(m)
    requires k <= |Encode(messages)|
    ensures Decode(Encode(messages)[..k]) <= messages
    ensures k == |Encode(messages)| ==> Decode(Encode(messages)[..k]) == messages
    decreases |messages|
  {
    hide Header, Length;
    if messages != [] {
      var first, rest := messages[0], messages[1..];
      var bytes := Encode(messages)[..k];
      if k >= |Frame(first)| {
        FirstArrived(first, Encode(rest), k);
        ArrivedIsPrefix(rest, k - |Frame(first)|);
        assert messages == [first] + rest;
      } else {
        IncompleteFrame(bytes, first);
      }
    }
  }

  lemma FirstArrived(first: seq<byte>, rest: seq<byte>, k: nat)
    requires Sendable(first) && |Frame(first)| <= k <= |Frame(first)| + |rest|
    ensures Decode((Frame(first) + rest)[..k]) == [first] + Decode(rest[..k - |Frame(first)|])
  {
    hide Header, Length, StartsWithPacket, FirstPacket;
    var bytes := (Frame(first) + rest)[..k];
    assert Frame(first) == bytes[..|Frame(first)|];
    FrontIsFrame(bytes, first);
    assert bytes[HEADER_SIZE + |first|..] == rest[..k - |Frame(first)|];
  }

  lemma IncompleteFrame(bytes: seq<byte>, message: seq<byte>)
    requires Sendable(message) && bytes < Frame(message)
    ensures !StartsWithPacket(bytes)
  {
    if |bytes| >= HEADER_SIZE {
      assert bytes[..HEADER_SIZE] == Frame(message)[..HEADER_SIZE] == Header(|message|);
      HeaderRoundTrip(|message|, Header(0));
    }
  }

  // Two lists of messages never give the same stream.
  lemma EncodeIsInjective(a: seq<seq<byte>>, b: seq<seq<byte>>)
    requires (forall m :: m in a ==> Sendable(m)) && (forall m :: m in b ==> Sendable(m))
    requires Encode(a) == Encode(b)
    ensures a == b
  {
    ArrivedIsPrefix(a, |Encode(a)|);
    ArrivedIsPrefix(b, |Encode(b)|);
    assert Encode(a)[..|Encode(a)|] == Encode(a) && Encode(b)[..|Encode(b)|] == Encode(b);
  }

  lemma EncodeConcat(a: seq<seq<byte>>, b: seq<seq<byte>>)
    requires (forall m :: m in a ==> Sendable(m)) && (forall m :: m in b ==> Sendable(m))
    ensures Encode(a + b) == Encode(a) + Encode(b)
    decreases |a|
  {
    if a == [] {
      assert a + b == b;
    } else {
      assert (a + b)[0] == a[0] && (a + b)[1..] == a[1..] + b;
      EncodeConcat(a[1..], b);
    }
  }

  lemma EncodeLast(messages: seq<seq<byte>>, m: seq<byte>)
    requires (forall x :: x in messages ==> Sendable(x)) && Sendable(m)
    ensures Encode(messages + [m]) == Encode(messages) + Frame(m)
  {
    EncodeConcat(messages, [m]);
    assert Encode([m]) == Frame(m) + Encode([]) == Frame(m);
  }

  // The stream of some messages, cut after k bytes of the next one.
  function Cut(messages: seq<seq<byte>>, n: nat, k: nat): seq<byte>
    requires (forall m :: m in messages ==> Sendable(m)) && n < |messages| && k < |Frame(messages[n])|
  {
    Encode(messages[..n]) + Frame(messages[n])[..k]
  }

  lemma CutIsBeginning(messages: seq<seq<byte>>, n: nat, k: nat)
    requires (forall m :: m in messages ==> Sendable(m)) && n < |messages| && k < |Frame(messages[n])|
    ensures Cut(messages, n, k) <= Encode(messages)
  {
    EncodeConcat(messages[..n], messages[n..]);
    assert messages[..n] + messages[n..] == messages;
    assert Encode(messages[n..]) == Frame(messages[n]) + Encode(messages[n..][1..]);
  }

  // The sends of one connection, one packet after the other, until one fails. What is on the wire then is the
  // encoding of the messages sent, and of the failed one a proper beginning.
  method SendMessages(wire: Wire, messages: seq<seq<byte>>) returns (sent: nat)
    requires forall m :: m in messages ==> Sendable(m)
    modifies wire
    ensures sent <= |messages| && (wire.reliable ==> sent == |messages|)
    ensures if sent == |messages| then wire.inFlight == old(wire.inFlight) + Encode(messages)
            else exists k ::
                   0 <= k < |Frame(messages[sent])| && wire.inFlight == old(wire.inFlight) + Cut(messages, sent, k)
  {
    hide Header, Frame;
    sent := 0;
    assert wire.inFlight == wire.inFlight + Encode(messages[..0]);
    while sent < |messages|
      invariant sent <= |messages| && wire.inFlight == old(wire.inFlight) + Encode(messages[..sent])
    {
      var ok := SendPacket(wire, messages[sent]);
      if !ok {
        ghost var k :| 0 <= k < |Frame(messages[sent])|
          && wire.inFlight == old(wire.inFlight) + Encode(messages[..sent]) + Frame(messages[sent])[..k];
        assert wire.inFlight == old(wire.inFlight) + Cut(messages, sent, k);
        return;
      }
      EncodeLast(messages[..sent], messages[sent]);
      assert messages[..sent + 1] == messages[..sent] + [messages[sent]];
      sent := sent + 1;
    }
    assert messages[..sent] == messages;
  }

  // The handler, whose answer after the messages so far is goesOn, went on after each of them but the last.
  ghost predicate WentOn(messages: seq<seq<byte>>, goesOn: seq<seq<byte>> -> bool) {
    forall k :: 0 < k < |messages| ==> goesOn(messages[..k])
  }

  lemma GoesOnce(messages: seq<seq<byte>>, m: seq<byte>, goesOn: seq<seq<byte>> -> bool)
    requires WentOn(messages, goesOn) && (messages == [] || goesOn(messages))
    ensures WentOn(messages + [m], goesOn)
  {
    var more := messages + [m];
    assert more[..|messages|] == messages;
    assert forall k :: 0 < k < |messages| ==> more[..k] == messages[..k];
  }

  // The receive loop of a client thread. It ends at the first packet that cannot be received, or after the first
  // message at which the handler gives up.
  method ReceiveUntilEnd(wire: Wire, goesOn: seq<seq<byte>> -> bool) returns (messages: seq<seq<byte>>)
    modifies wire
    ensures messages <= Decode(old(wire.inFlight)) && WentOn(messages, goesOn)
    ensures wire.reliable ==> messages == Decode(old(wire.inFlight)) || (messages != [] && !goesOn(messages))
  {
    hide WentOn, Decode, StartsWithPacket, FirstPacket;
    messages := [];
    ghost var all := Decode(wire.inFlight);
    ghost var left := wire.inFlight;
    NothingYet(goesOn);
    while true
      invariant left == wire.inFlight && all == messages + Decode(left)
      invariant WentOn(messages, goesOn) && (messages == [] || goesOn(messages))
      decreases |wire.inFlight|
    {
      var message := ReceivePacket(wire);
      if message.None? {
        if !StartsWithPacket(left) {
          DecodeNothing(left);
        }
        return;
      }
      DecodeFirst(left, wire.inFlight);
      GoesOnce(messages, message.value, goesOn);
      messages := messages + [message.value];
      left := wire.inFlight;
      if !goesOn(messages) {
        return;
      }
    }
  }

  lemma DecodeFirst(bytes: seq<byte>, rest: seq<byte>)
    requires StartsWithPacket(bytes) && bytes == Frame(FirstPacket(bytes)) + rest
    ensures Decode(bytes) == [FirstPacket(bytes)] + Decode(rest)
  {
    hide Header, Length, StartsWithPacket, FirstPacket;
    assert bytes[HEADER_SIZE + |FirstPacket(bytes)|..] == rest;
  }

  lemma DecodeNothing(bytes: seq<byte>)
    requires !StartsWithPacket(bytes)
    ensures Decode(bytes) == []
  {
  }

  lemma NothingYet(goesOn: seq<seq<byte>> -> bool)
    ensures WentOn([], goesOn)
  {
  }

  // Any list of messages, sent and received in pieces of any size: what is received is a beginning of the list,
  // even if a send or a receive fails half-way, and all of it if none fails.
  method Exchange(wire: Wire, messages: seq<seq<byte>>) returns (received: seq<seq<byte>>)
    requires wire.inFlight == [] && forall m :: m in messages ==> Sendable(m)
    modifies wire
    ensures received <= messages
    ensures wire.reliable ==> received == messages
  {
    var sent := SendMessages(wire, messages);
    if sent < |messages| {
      ghost var k :| 0 <= k < |Frame(messages[sent])| && wire.inFlight == [] + Cut(messages, sent, k);
      CutIsBeginning(messages, sent, k);
    }
    assert wire.inFlight <= Encode(messages);
    ArrivedIsPrefix(messages, |wire.inFlight|);
    assert Encode(messages)[..|wire.inFlight|] == wire.inFlight;
    received := ReceiveUntilEnd(wire, _ => true);
  }
}
