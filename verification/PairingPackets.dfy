/**
 RemotePairing over raw TCP (patches/link-core-tailnet.patch): every message is the magic, a big-endian
 16-bit length and that many bytes. How a message is written as JSON text and read back is a parameter.
 */
module PairingPackets {
  import opened Common
  import opened Streams

  /** "RPPairing". */
  const MAGIC: seq<Byte> := [82, 80, 80, 97, 105, 114, 105, 110, 103]

  const MAX_PAYLOAD: nat := 65535

  datatype SendError = NoEnvelope | NotEncodable | TooLong | NotWritten

  datatype ReceiveError = NoMagic | WrongMagic | NoSize | NoBody | NotDecodable

  function Size(n: nat): (r: seq<Byte>)
    requires n <= MAX_PAYLOAD
    ensures |r| == 2
  {
    [n / 256, n % 256]
  }

  function SizeOf(bytes: seq<Byte>): (n: nat)
    requires |bytes| == 2
    ensures n <= MAX_PAYLOAD
  {
    var high: int := bytes[0];
    high * 256 + bytes[1]
  }

  lemma SizeRoundTrip(n: nat, bytes: seq<Byte>)
    ensures n <= MAX_PAYLOAD ==> SizeOf(Size(n)) == n
    ensures |bytes| == 2 ==> Size(SizeOf(bytes)) == bytes
  {
  }

  /** The bytes of one packet. */
  function Packet(payload: seq<Byte>): (r: seq<Byte>)
    requires |payload| <= MAX_PAYLOAD
    ensures |r| == |MAGIC| + 2 + |payload|
  {
    MAGIC + Size(|payload|) + payload
  }

  /** The specification of receiving: the first packet of a stream and what follows it. */
  function Parse(s: seq<Byte>): Result<(seq<Byte>, seq<Byte>), ReceiveError> {
    if |s| < 9 then Failure(NoMagic)
    else if s[..9] != MAGIC then Failure(WrongMagic)
    else if |s| < 11 then Failure(NoSize)
    else
      var n := SizeOf(s[9..11]);
      if |s| < 11 + n then Failure(NoBody)
      else Success((s[11..11 + n], s[11 + n..]))
  }

  predicate Sendable<V>(values: seq<V>, encode: V -> Option<seq<Byte>>) {
    forall i :: 0 <= i < |values| ==> encode(values[i]).Some? && |encode(values[i]).value| <= MAX_PAYLOAD
  }

  function Packets<V>(values: seq<V>, encode: V -> Option<seq<Byte>>): seq<Byte>
    requires Sendable(values, encode)
  {
    if values == [] then []
    else Packets(values[..|values| - 1], encode) + Packet(encode(values[|values| - 1]).value)
  }

  /** The payload of a message that Send writes. */
  function Payload<V>(envelope: Option<V>, encode: V -> Option<seq<Byte>>): (r: Result<seq<Byte>, SendError>)
    ensures r.Success? ==> |r.value| <= MAX_PAYLOAD
  {
    if envelope.None? then Failure(NoEnvelope)
    else
      match encode(envelope.value)
      case None => Failure(NotEncodable)
      case Some(json) => if |json| > MAX_PAYLOAD then Failure(TooLong) else Success(json)
  }

  /** The write side of a connection that takes `room` more bytes. */
  class Sender {
    var written: seq<Byte>
    var room: nat

    constructor (room: nat)
      ensures written == [] && this.room == room
    {
      written, this.room := [], room;
    }

    /** remotePairingRawConn.Send. A message without a payload within the limit leaves the connection untouched. */
    method Send<V>(envelope: Option<V>, encode: V -> Option<seq<Byte>>) returns (error: Option<SendError>)
      modifies this
      ensures match Payload(envelope, encode)
              case Failure(e) => error == Some(e) && written == old(written) && room == old(room)
              case Success(payload) =>
                && written == old(written) + Cut(Packet(payload), old(room))
                && room == RoomAfter(Packet(payload), old(room))
                && error == if |Packet(payload)| <= old(room) then None else Some(NotWritten)
    {
      if envelope.None? {
        return Some(NoEnvelope);
      }
      var json := encode(envelope.value);
      if json.None? {
        return Some(NotEncodable);
      }
      if |json.value| > MAX_PAYLOAD {
        return Some(TooLong);
      }
      var packet := MAGIC;
      packet := packet + Size(|json.value|);
      packet := packet + json.value;
      if |packet| > room {
        written, room := written + packet[..room], 0;
        return Some(NotWritten);
      }
      written, room := written + packet, room - |packet|;
      error := None;
    }

    /** Messages sent in turn: what gets through is a beginning of their packets in turn. */
    method SendAll<V>(values: seq<V>, encode: V -> Option<seq<Byte>>)
      requires Sendable(values, encode)
      modifies this
      ensures written == old(written) + Cut(Packets(values, encode), old(room))
    {
      hide Packet;
      for i := 0 to |values|
        invariant written == old(written) + Cut(Packets(values[..i], encode), old(room))
        invariant room == RoomAfter(Packets(values[..i], encode), old(room))
      {
        assert values[..i + 1][..i] == values[..i];
        CutAppend(Packets(values[..i], encode), Packet(encode(values[i]).value), old(room));
        var error := Send(Some(values[i]), encode);
      }
      assert values[..|values|] == values;
    }
  }

  /** The first message of a stream and what follows it. */
  function ParseMessage<V>(s: seq<Byte>, decode: seq<Byte> -> Option<V>): Result<(V, seq<Byte>), ReceiveError> {
    match Parse(s)
    case Failure(e) => Failure(e)
    case Success((payload, rest)) =>
      match decode(payload)
      case None => Failure(NotDecodable)
      case Some(v) => Success((v, rest))
  }

  /** remotePairingRawConn.ReceiveOnClientServerStream. */
  method Receive<V>(conn: Stream<Byte>, decode: seq<Byte> -> Option<V>) returns (r: Result<V, ReceiveError>)
    modifies conn
    ensures match ParseMessage(old(conn.Rest()), decode)
            case Success((v, rest)) => r == Success(v) && conn.Rest() == rest
            case Failure(e) => r == Failure(e)
  {
    ghost var s := conn.Rest();
    var magic := conn.ReadFull(9);
    if magic.None? {
      return Failure(NoMagic);
    }
    if magic.value != MAGIC {
      return Failure(WrongMagic);
    }
    var size := conn.ReadFull(2);
    if size.None? {
      return Failure(NoSize);
    }
    assert size.value == s[9..11];
    assert conn.Rest() == s[11..];
    var n := SizeOf(size.value);
    var body := conn.ReadFull(n);
    if body.None? {
      return Failure(NoBody);
    }
    assert body.value == s[11..11 + n];
    assert conn.Rest() == s[11 + n..];
    var v := decode(body.value);
    r := if v.None? then Failure(NotDecodable) else Success(v.value);
  }

  /** A packet is read back, and what follows it is left alone. */
  lemma ParsePacket(payload: seq<Byte>, rest: seq<Byte>)
    requires |payload| <= MAX_PAYLOAD
    ensures Parse(Packet(payload) + rest) == Success((payload, rest))
  {
    var s := Packet(payload) + rest;
    assert s[..9] == MAGIC;
    assert s[9..11] == Size(|payload|);
    SizeRoundTrip(|payload|, []);
    assert s[11..11 + |payload|] == payload;
    assert s[11 + |payload|..] == rest;
  }

  /** And only a packet is: whatever is accepted is the packet of its payload. */
  lemma OnlyPacketsParse(s: seq<Byte>)
    requires Parse(s).Success?
    ensures var (payload, rest) := Parse(s).value;
            |payload| <= MAX_PAYLOAD && s == Packet(payload) + rest
  {
    var n := SizeOf(s[9..11]);
    SizeRoundTrip(n, s[9..11]);
    assert s == s[..9] + s[9..11] + s[11..11 + n] + s[11 + n..];
  }

  /** A packet cut short is never taken for a packet. */
  lemma TruncationIsRejected(payload: seq<Byte>, k: nat)
    requires |payload| <= MAX_PAYLOAD && k < |Packet(payload)|
    ensures Parse(Packet(payload)[..k]).Failure?
    ensures var e := Parse(Packet(payload)[..k]).error; e == NoMagic || e == NoSize || e == NoBody
  {
    var p := Packet(payload);
    var s := p[..k];
    if k >= 9 {
      assert s[..9] == p[..9] == MAGIC;
      if k >= 11 {
        assert s[9..11] == p[9..11] == Size(|payload|);
        SizeRoundTrip(|payload|, []);
      }
    }
  }

  /** Receiving until `count` messages have come or one is refused. */
  method ReceiveAll<V>(conn: Stream<Byte>, count: nat, decode: seq<Byte> -> Option<V>)
    returns (values: seq<V>, error: Option<ReceiveError>)
    modifies conn
    ensures (values, error) == ParseAll(old(conn.Rest()), count, decode)
  {
    hide ParseMessage;
    values, error := [], None;
    ghost var s := conn.Rest();
    for i := 0 to count
      invariant error.None?
      invariant ParseAll(s, count, decode).0 == values + ParseAll(conn.Rest(), count - i, decode).0
      invariant ParseAll(s, count, decode).1 == ParseAll(conn.Rest(), count - i, decode).1
    {
      ghost var before := conn.Rest();
      var r := Receive(conn, decode);
      if r.Failure? {
        assert ParseAll(before, count - i, decode) == ([], Some(r.error));
        assert values + [] == values;
        return values, Some(r.error);
      }
      ghost var (more, e) := ParseAll(conn.Rest(), count - i - 1, decode);
      assert values + ([r.value] + more) == values + [r.value] + more;
      values := values + [r.value];
    }
    assert values + [] == values;
  }

  function ParseAll<V>(s: seq<Byte>, count: nat, decode: seq<Byte> -> Option<V>): (seq<V>, Option<ReceiveError>) {
    if count == 0 then ([], None)
    else
      match ParseMessage(s, decode)
      case Failure(e) => ([], Some(e))
      case Success((v, rest)) =>
        var (more, e) := ParseAll(rest, count - 1, decode);
        ([v] + more, e)
  }

  /** Every message that is sent is one that can be sent, and its text is read back. */
  predicate Faithful<V(==)>(values: seq<V>, encode: V -> Option<seq<Byte>>, decode: seq<Byte> -> Option<V>) {
    && Sendable(values, encode)
    && forall i :: 0 <= i < |values| ==> decode(encode(values[i]).value) == Some(values[i])
  }

  lemma NoPackets<V>(encode: V -> Option<seq<Byte>>)
    ensures Packets([], encode) == [] && Parse([]) == Failure(NoMagic)
  {
  }

  lemma {:induction false} PacketsFromFront<V>(values: seq<V>, encode: V -> Option<seq<Byte>>)
    requires Sendable(values, encode) && values != []
    ensures Packets(values, encode) == Packet(encode(values[0]).value) + Packets(values[1..], encode)
  {
    var n := |values| - 1;
    if n == 0 {
      assert values[..0] == [] && values[1..] == [];
    } else {
      PacketsFromFront(values[..n], encode);
      assert values[..n][1..] == values[1..][..n - 1];
      var first, last := Packet(encode(values[0]).value), Packet(encode(values[n]).value);
      var middle := Packets(values[1..][..n - 1], encode);
      assert first + middle + last == first + (middle + last);
    }
  }

  /** What was sent is what is received, message by message, followed by the end of the stream. */
  lemma {:induction false} StreamRoundTrip<V>(values: seq<V>, encode: V -> Option<seq<Byte>>,
                                              decode: seq<Byte> -> Option<V>, extra: nat)
    requires Faithful(values, encode, decode)
    ensures ParseAll(Packets(values, encode), |values| + extra, decode) ==
            (values, if extra == 0 then None else Some(NoMagic))
    decreases |values|
  {
    hide Packets;
    hide Packet;
    hide Parse;
    NoPackets(encode);
    if values != [] {
      PacketsFromFront(values, encode);
      ParsePacket(encode(values[0]).value, Packets(values[1..], encode));
      StreamRoundTrip(values[1..], encode, decode, extra);
      assert [values[0]] + values[1..] == values;
    }
  }

  /** The same with the stream cut anywhere: complete messages come through, the cut one never does. */
  lemma {:induction false} CutStream<V>(values: seq<V>, encode: V -> Option<seq<Byte>>,
                                        decode: seq<Byte> -> Option<V>, k: nat)
    requires Faithful(values, encode, decode) && k < |Packets(values, encode)|
    ensures var (got, e) := ParseAll(Packets(values, encode)[..k], |values|, decode);
            && |got| < |values|
            && got == values[..|got|]
            && e.Some?
            && e.value != WrongMagic
            && e.value != NotDecodable
    decreases |values|
  {
    hide Packets;
    hide Packet;
    hide Parse;
    NoPackets(encode);
    PacketsFromFront(values, encode);
    var payload, later := encode(values[0]).value, Packets(values[1..], encode);
    var first := Packet(payload);
    if k < |first| {
      assert (first + later)[..k] == first[..k];
      TruncationIsRejected(payload, k);
    } else {
      var rest := later[..k - |first|];
      assert (first + later)[..k] == first + rest;
      ParsePacket(payload, rest);
      CutStream(values[1..], encode, decode, k - |first|);
      var got := ParseAll(rest, |values| - 1, decode).0;
      assert [values[0]] + got == values[..|got| + 1];
    }
  }

  /** On the wire: the name of the protocol, the length with its high byte first, and the payload. */
  lemma PacketOnTheWire(payload: seq<Byte>)
    requires |payload| <= 65535
    ensures var p := Packet(payload);
            && |p| == 11 + |payload|
            && (forall i :: 0 <= i < 9 ==> p[i] == "RPPairing"[i] as int)
            && (p[9] as int) * 256 + p[10] as int == |payload|
            && p[11..] == payload
  {
    var p := Packet(payload);
    assert p[0] == 'R' as int && p[1] == 'P' as int && p[2] == 'P' as int && p[3] == 'a' as int && p[4] == 'i' as int;
    assert p[5] == 'r' as int && p[6] == 'i' as int && p[7] == 'n' as int && p[8] == 'g' as int;
  }

  /** And a peer's packet, however it was made: its two length bytes say how much is taken. */
  lemma PeersPacketIsTaken(s: seq<Byte>)
    requires |s| >= 11 && forall i :: 0 <= i < 9 ==> s[i] == "RPPairing"[i] as int
    ensures var n := (s[9] as int) * 256 + s[10] as int;
            Parse(s) == if |s| < 11 + n then Failure(NoBody) else Success((s[11..11 + n], s[11 + n..]))
  {
    forall i | 0 <= i < 9 ensures s[..9][i] == MAGIC[i] {
      PacketOnTheWire([]);
      assert Packet([])[i] == MAGIC[i];
    }
    assert s[..9] == MAGIC;
    assert s[9..11] == [s[9], s[10]];
  }

  /** What is wrong with a stream that does not begin with a whole packet head. */
  lemma HeadsThatAreRefused(s: seq<Byte>)
    ensures |s| < 9 ==> Parse(s) == Failure(NoMagic)
    ensures |s| >= 9 && (exists i :: 0 <= i < 9 && s[i] != "RPPairing"[i] as int) ==> Parse(s) == Failure(WrongMagic)
    ensures 9 <= |s| < 11 && (forall i :: 0 <= i < 9 ==> s[i] == "RPPairing"[i] as int) ==> Parse(s) == Failure(NoSize)
  {
    PacketOnTheWire([]);
    assert forall i :: 0 <= i < 9 ==> Packet([])[i] == MAGIC[i];
    if |s| >= 9 { assert forall i :: 0 <= i < 9 ==> s[..9][i] == s[i]; }
  }
}
