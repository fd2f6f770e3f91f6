/** The packed message header of src/message.h and the server's reply to one message
    (src/server.c:376-454), for hosts of either byte order. */
module Wire {

  type Byte = b: nat | b < 256

  // Numbers as bytes.

  function FromBE(s: seq<Byte>): nat {
    if s == [] then 0 else FromBE(s[..|s| - 1]) * 256 + s[|s| - 1]
  }

  function ToBE(v: nat, width: nat): (s: seq<Byte>)
    ensures |s| == width
  {
    if width == 0 then [] else ToBE(v / 256, width - 1) + [v % 256]
  }

  function Limit(width: nat): nat {
    if width == 0 then 1 else Limit(width - 1) * 256
  }

  lemma {:induction false} FromBEBounded(s: seq<Byte>)
    ensures FromBE(s) < Limit(|s|)
  {
    if s != [] {
      FromBEBounded(s[..|s| - 1]);
    }
  }

  lemma {:induction false} BytesOfNumber(s: seq<Byte>)
    ensures ToBE(FromBE(s), |s|) == s
  {
    if s != [] {
      BytesOfNumber(s[..|s| - 1]);
      assert s == s[..|s| - 1] + [s[|s| - 1]];
    }
  }

  lemma {:induction false} NumberOfBytes(v: nat, width: nat)
    requires v < Limit(width)
    ensures FromBE(ToBE(v, width)) == v
  {
    if width != 0 {
      NumberOfBytes(v / 256, width - 1);
      var s := ToBE(v, width);
      assert s[..width - 1] == ToBE(v / 256, width - 1);
    }
  }

  // Hosts.

  datatype Host = LittleEndian | BigEndian

  function Reversed(s: seq<Byte>): (r: seq<Byte>)
    ensures |r| == |s|
  {
    seq(|s|, i requires 0 <= i < |s| => s[|s| - 1 - i])
  }

  lemma ReversedTwice(s: seq<Byte>)
    ensures Reversed(Reversed(s)) == s
  {
  }

  /** Reading an integer field out of memory, and writing one back. */
  function Load(host: Host, s: seq<Byte>): nat {
    if host.BigEndian? then FromBE(s) else FromBE(Reversed(s))
  }

  function Store(host: Host, v: nat, width: nat): (s: seq<Byte>)
    ensures |s| == width
  {
    if host.BigEndian? then ToBE(v, width) else Reversed(ToBE(v, width))
  }

  /** ntohs, ntohl, htons, htonl: a byte swap on little-endian hosts. */
  function NetworkOrder(host: Host, v: nat, width: nat): nat {
    if host.BigEndian? then v else FromBE(Reversed(ToBE(v, width)))
  }

  lemma StoreLoaded(host: Host, s: seq<Byte>)
    ensures Store(host, Load(host, s), |s|) == s
  {
    BytesOfNumber(s);
    BytesOfNumber(Reversed(s));
    ReversedTwice(s);
  }

  /** Loading and converting reads the big-endian number, whatever the host. */
  lemma NetworkLoad(host: Host, s: seq<Byte>)
    ensures NetworkOrder(host, Load(host, s), |s|) == FromBE(s)
  {
    BytesOfNumber(Reversed(s));
    ReversedTwice(s);
  }

  /** Converting and storing writes the big-endian bytes, whatever the host. */
  lemma NetworkStore(host: Host, v: nat, width: nat)
    requires v < Limit(width)
    ensures Store(host, NetworkOrder(host, v, width), width) == ToBE(v, width)
  {
    BytesOfNumber(Reversed(ToBE(v, width)));
    ReversedTwice(ToBE(v, width));
  }

  // The header.

  const HEADER_SIZE: nat := 18
  const SOCKET_BUFFER_SIZE: nat := 4096
  const PROTOCOL_VERSION: nat := 0x0001
  const MSG_PING: nat := 0x0006
  const MSG_PONG: nat := 0x1005

  datatype Header = Header(version: nat, messageType: nat, sequence: nat, timestamp: nat, payloadLength: nat)

  predicate Fits(h: Header) {
    && h.version < Limit(2) && h.messageType < Limit(2) && h.sequence < Limit(4)
    && h.timestamp < Limit(8) && h.payloadLength < Limit(2)
  }

  /** The five fields, packed: offsets 0, 2, 4, 8 and 16. */
  function Parse(s: seq<Byte>): Header
    requires |s| == HEADER_SIZE
  {
    Header(FromBE(s[0..2]), FromBE(s[2..4]), FromBE(s[4..8]), FromBE(s[8..16]), FromBE(s[16..18]))
  }

  function Serialize(h: Header): (s: seq<Byte>)
    ensures |s| == HEADER_SIZE
  {
    ToBE(h.version, 2) + ToBE(h.messageType, 2) + ToBE(h.sequence, 4)
    + ToBE(h.timestamp, 8) + ToBE(h.payloadLength, 2)
  }

  lemma ParseFits(s: seq<Byte>)
    requires |s| == HEADER_SIZE
    ensures Fits(Parse(s))
  {
    FromBEBounded(s[0..2]);
    FromBEBounded(s[2..4]);
    FromBEBounded(s[4..8]);
    FromBEBounded(s[8..16]);
    FromBEBounded(s[16..18]);
  }

  lemma ParseSerialize(h: Header)
    requires Fits(h)
    ensures Parse(Serialize(h)) == h
  {
    var s := Serialize(h);
    assert s[0..2] == ToBE(h.version, 2);
    assert s[2..4] == ToBE(h.messageType, 2);
    assert s[4..8] == ToBE(h.sequence, 4);
    assert s[8..16] == ToBE(h.timestamp, 8);
    assert s[16..18] == ToBE(h.payloadLength, 2);
    NumberOfBytes(h.version, 2);
    NumberOfBytes(h.messageType, 2);
    NumberOfBytes(h.sequence, 4);
    NumberOfBytes(h.timestamp, 8);
    NumberOfBytes(h.payloadLength, 2);
  }

  lemma SerializeParse(s: seq<Byte>)
    requires |s| == HEADER_SIZE
    ensures Serialize(Parse(s)) == s
  {
    BytesOfNumber(s[0..2]);
    BytesOfNumber(s[2..4]);
    BytesOfNumber(s[4..8]);
    BytesOfNumber(s[8..16]);
    BytesOfNumber(s[16..18]);
    assert s == s[0..2] + s[2..4] + s[4..8] + s[8..16] + s[16..18];
  }

  /** Where each field lies, byte by byte. */
  lemma HeaderLayout(s: seq<Byte>)
    requires |s| == 18
    ensures var h := Parse(s);
            && h.version == 256 * (s[0] as nat) + s[1]
            && h.messageType == 256 * (s[2] as nat) + s[3]
            && h.sequence == 0x100_0000 * (s[4] as nat) + 0x1_0000 * (s[5] as nat) + 256 * (s[6] as nat) + s[7]
            && h.timestamp == 0x1_0000_0000 * FourBytes(s[8], s[9], s[10], s[11]) + FourBytes(s[12], s[13], s[14], s[15])
            && h.payloadLength == 256 * (s[16] as nat) + s[17]
  {
    TwoBytesBE(s[0..2]);
    TwoBytesBE(s[2..4]);
    FourBytesBE(s[4..8]);
    EightBytesBE(s[8..16]);
    TwoBytesBE(s[16..18]);
  }

  function FourBytes(a: Byte, b: Byte, c: Byte, d: Byte): nat {
    0x100_0000 * (a as nat) + 0x1_0000 * (b as nat) + 256 * (c as nat) + d
  }

  lemma OneByteBE(s: seq<Byte>)
    requires |s| == 1
    ensures FromBE(s) == s[0]
  {
    assert s[..0] == [];
  }

  lemma TwoBytesBE(s: seq<Byte>)
    requires |s| == 2
    ensures FromBE(s) == 256 * (s[0] as nat) + s[1]
  {
    OneByteBE(s[..1]);
  }

  lemma FourBytesBE(s: seq<Byte>)
    requires |s| == 4
    ensures FromBE(s) == FourBytes(s[0], s[1], s[2], s[3])
  {
    TwoBytesBE(s[..2]);
    assert s[..3][..2] == s[..2];
    assert FromBE(s[..3]) == FromBE(s[..2]) * 256 + s[2];
  }

  lemma EightBytesBE(s: seq<Byte>)
    requires |s| == 8
    ensures FromBE(s) == 0x1_0000_0000 * FourBytes(s[0], s[1], s[2], s[3]) + FourBytes(s[4], s[5], s[6], s[7])
  {
    FourBytesBE(s[..4]);
    assert s[..5][..4] == s[..4] && s[..6][..5] == s[..5] && s[..7][..6] == s[..6];
    assert FromBE(s[..5]) == FromBE(s[..4]) * 256 + s[4];
    assert FromBE(s[..6]) == FromBE(s[..5]) * 256 + s[5];
    assert FromBE(s[..7]) == FromBE(s[..6]) * 256 + s[6];
  }

  /** The two hosts differ: one keeps the low byte of a number first, the other the high byte. */
  lemma HostOrder(a: Byte, b: Byte)
    ensures Load(LittleEndian, [a, b]) == (a as nat) + 256 * (b as nat)
    ensures Load(BigEndian, [a, b]) == 256 * (a as nat) + b
  {
    TwoBytesBE([a, b]);
    assert Reversed([a, b]) == [b, a];
    TwoBytesBE([b, a]);
  }

  // The reply.

  predicate IsPing(msg: seq<Byte>) {
    && |msg| >= HEADER_SIZE
    && var h := Parse(msg[..HEADER_SIZE]);
       && h.version == PROTOCOL_VERSION
       && h.payloadLength <= SOCKET_BUFFER_SIZE - HEADER_SIZE
       && h.messageType == MSG_PING
  }

  /** A PING comes back as a PONG with everything else kept; anything else is echoed. */
  function Reply(msg: seq<Byte>): seq<Byte> {
    if IsPing(msg) then
      Serialize(Parse(msg[..HEADER_SIZE]).(messageType := MSG_PONG)) + msg[HEADER_SIZE..]
    else
      msg
  }

  lemma PongBytes()
    ensures ToBE(MSG_PONG, 2) == [0x10, 0x05]
  {
    assert ToBE(0x1005 / 256, 1) == ToBE(0, 0) + [0x10];
  }

  lemma Adjacent(s: seq<Byte>, i: nat, j: nat, k: nat)
    requires i <= j <= k <= |s|
    ensures s[i..j] + s[j..k] == s[i..k]
  {
  }

  /** Retyping a header rewrites its bytes 2 and 3. */
  lemma RetypedHeader(s: seq<Byte>)
    requires |s| == HEADER_SIZE
    ensures Serialize(Parse(s).(messageType := MSG_PONG)) == s[0..2] + [0x10, 0x05] + s[4..18]
  {
    PongBytes();
    BytesOfNumber(s[0..2]);
    BytesOfNumber(s[4..8]);
    BytesOfNumber(s[8..16]);
    BytesOfNumber(s[16..18]);
    Adjacent(s, 8, 16, 18);
    Adjacent(s, 4, 8, 18);
    Regroup(s[0..2] + [0x10, 0x05], s[4..8], s[8..16], s[16..18]);
  }

  lemma Regroup(a: seq<Byte>, b: seq<Byte>, c: seq<Byte>, d: seq<Byte>)
    ensures a + b + c + d == a + (b + (c + d))
  {
  }

  lemma RetypedMessage(t: seq<Byte>, msg: seq<Byte>)
    requires |msg| >= HEADER_SIZE && t == msg[..HEADER_SIZE][0..2] + [0x10, 0x05] + msg[..HEADER_SIZE][4..18]
    ensures t + msg[HEADER_SIZE..] == msg[..2] + [0x10, 0x05] + msg[4..]
  {
    assert msg[..HEADER_SIZE][4..18] == msg[4..18];
    Adjacent(msg, 4, 18, |msg|);
  }

  /** A reply rewrites the two type bytes of a PING and nothing else. */
  lemma ReplyRewritesType(msg: seq<Byte>)
    requires IsPing(msg)
    ensures Reply(msg) == msg[..2] + [0x10, 0x05] + msg[4..]
  {
    var s := msg[..HEADER_SIZE];
    RetypedHeader(s);
    RetypedMessage(Serialize(Parse(s).(messageType := MSG_PONG)), msg);
  }

  /** Over all byte strings: the length is kept, a change happens exactly for a well-formed
      PING, and replying to the reply changes nothing more. */
  lemma ReplyProperties(msg: seq<Byte>)
    ensures |Reply(msg)| == |msg|
    ensures Reply(msg) != msg <==> IsPing(msg)
    ensures forall i :: 0 <= i < |msg| && i != 2 && i != 3 ==> Reply(msg)[i] == msg[i]
    ensures Reply(Reply(msg)) == Reply(msg)
  {
    if IsPing(msg) {
      ReplyRewritesType(msg);
      TypeOf(msg);
      TypeOf(Reply(msg));
    }
  }

  lemma TypeOf(msg: seq<Byte>)
    requires |msg| >= HEADER_SIZE
    ensures Parse(msg[..HEADER_SIZE]).messageType == (msg[2] as nat) * 256 + msg[3]
  {
    HeaderLayout(msg[..HEADER_SIZE]);
  }

  /** Which messages are answered with a PONG: version 1, type 6, and a payload length that would
      fit the buffer. */
  lemma PingBytes(msg: seq<Byte>)
    ensures IsPing(msg) <==>
              && |msg| >= 18
              && msg[..4] == [0, 1, 0, 6]
              && 256 * (msg[16] as nat) + msg[17] <= 4078
  {
    if |msg| >= HEADER_SIZE {
      HeaderLayout(msg[..HEADER_SIZE]);
      assert msg[..4] == [msg[0], msg[1], msg[2], msg[3]];
    }
  }

  /** The reply to a PING is a PONG with the same sequence number, timestamp and length. */
  lemma PingGetsPong(msg: seq<Byte>)
    requires IsPing(msg)
    ensures |Reply(msg)| >= HEADER_SIZE
    ensures var h, h' := Parse(msg[..HEADER_SIZE]), Parse(Reply(msg)[..HEADER_SIZE]);
            h'.messageType == MSG_PONG && h == h'.(messageType := MSG_PING)
    ensures Reply(msg)[HEADER_SIZE..] == msg[HEADER_SIZE..]
  {
    var h := Parse(msg[..HEADER_SIZE]);
    ParseFits(msg[..HEADER_SIZE]);
    ParseSerialize(h.(messageType := MSG_PONG));
    assert Reply(msg)[..HEADER_SIZE] == Serialize(h.(messageType := MSG_PONG));
  }

  // The in-place code.

  /** The header struct as the host sees it: fields loaded without conversion. */
  function LoadHeader(host: Host, s: seq<Byte>): Header
    requires |s| == HEADER_SIZE
  {
    Header(Load(host, s[0..2]), Load(host, s[2..4]), Load(host, s[4..8]),
           Load(host, s[8..16]), Load(host, s[16..18]))
  }

  function StoreHeader(host: Host, h: Header): (s: seq<Byte>)
    ensures |s| == HEADER_SIZE
  {
    Store(host, h.version, 2) + Store(host, h.messageType, 2) + Store(host, h.sequence, 4)
    + Store(host, h.timestamp, 8) + Store(host, h.payloadLength, 2)
  }

  /** Copying the raw fields and converting only version and type gives the big-endian header. */
  lemma RawResponse(host: Host, s: seq<Byte>)
    requires |s| == HEADER_SIZE && Parse(s).version == PROTOCOL_VERSION
    ensures var raw := LoadHeader(host, s);
            StoreHeader(host, Header(NetworkOrder(host, PROTOCOL_VERSION, 2), NetworkOrder(host, MSG_PONG, 2),
                                     raw.sequence, raw.timestamp, raw.payloadLength))
            == Serialize(Parse(s).(messageType := MSG_PONG))
  {
    NetworkStore(host, PROTOCOL_VERSION, 2);
    NetworkStore(host, MSG_PONG, 2);
    StoreLoaded(host, s[4..8]);
    StoreLoaded(host, s[8..16]);
    StoreLoaded(host, s[16..18]);
    BytesOfNumber(s[4..8]);
    BytesOfNumber(s[8..16]);
    BytesOfNumber(s[16..18]);
  }

  /** What the code reads out of the header, whatever the host. */
  lemma HeaderRead(host: Host, s: seq<Byte>)
    requires |s| == HEADER_SIZE
    ensures NetworkOrder(host, LoadHeader(host, s).version, 2) == Parse(s).version
    ensures NetworkOrder(host, LoadHeader(host, s).messageType, 2) == Parse(s).messageType
    ensures NetworkOrder(host, LoadHeader(host, s).payloadLength, 2) == Parse(s).payloadLength
  {
    NetworkLoad(host, s[0..2]);
    NetworkLoad(host, s[2..4]);
    NetworkLoad(host, s[16..18]);
  }

  /** Overwrites the first n bytes with what is written back to the client. */
  method Respond(host: Host, buffer: array<Byte>, n: nat)
    requires n <= buffer.Length
    modifies buffer
    ensures buffer[..n] == Reply(old(buffer[..n]))
    ensures buffer[n..] == old(buffer[n..])
  {
    if n >= HEADER_SIZE {
      ghost var msg := buffer[..n];
      var bytes := buffer[..HEADER_SIZE];
      assert bytes == msg[..HEADER_SIZE];
      var header := LoadHeader(host, bytes);
      var msgType := NetworkOrder(host, header.messageType, 2);
      var version := NetworkOrder(host, header.version, 2);
      var payloadLen := NetworkOrder(host, header.payloadLength, 2);
      HeaderRead(host, bytes);
      if version != PROTOCOL_VERSION {
        return;
      }
      if payloadLen > SOCKET_BUFFER_SIZE - HEADER_SIZE {
        return;
      }
      if msgType == MSG_PING {
        var response := Header(NetworkOrder(host, PROTOCOL_VERSION, 2), NetworkOrder(host, MSG_PONG, 2),
                               header.sequence, header.timestamp, header.payloadLength);
        RawResponse(host, bytes);
        var out := StoreHeader(host, response);
        forall i | 0 <= i < HEADER_SIZE {
          buffer[i] := out[i];
        }
        assert buffer[..n] == out + msg[HEADER_SIZE..];
      }
    }
  }
}
