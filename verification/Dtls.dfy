/** What the server sees of mbed TLS: return codes and their mapping by src/dtls.c, and the
    receive callback through which a session takes datagrams off the shared socket. */
module Dtls {

  /** A return value of mbedtls_ssl_handshake, _read or _write. */
  datatype MbedRet =
    | Value(n: nat)
    | WantRead
    | WantWrite
    | Timeout
    | PeerCloseNotify
    | CertVerifyFailed
    | OtherError

  datatype DtlsResult =
    | Ok
    | ErrHandshake
    | ErrHandshakeTimeout
    | ErrRead
    | ErrWrite
    | WouldBlock
    | PeerClosed
    | ErrCertVerify
    | ErrInvalidParams

  function HandshakeResult(ret: MbedRet): DtlsResult {
    match ret
    case Value(n) => if n == 0 then Ok else ErrHandshake
    case WantRead => WouldBlock
    case WantWrite => WouldBlock
    case Timeout => ErrHandshakeTimeout
    case CertVerifyFailed => ErrCertVerify
    case _ => ErrHandshake
  }

  function ReadResult(ret: MbedRet): DtlsResult {
    match ret
    case Value(n) => if n > 0 then Ok else ErrRead
    case WantRead => WouldBlock
    case WantWrite => WouldBlock
    case PeerCloseNotify => PeerClosed
    case _ => ErrRead
  }

  function WriteResult(ret: MbedRet): DtlsResult {
    match ret
    case Value(n) => if n > 0 then Ok else ErrWrite
    case WantRead => WouldBlock
    case WantWrite => WouldBlock
    case _ => ErrWrite
  }

  /** The length sc_dtls_read and sc_dtls_write report: a write may take less than it was given. */
  function BytesDone(ret: MbedRet): nat {
    if ret.Value? then ret.n else 0
  }

  /** An IPv4 address and port. */
  datatype Addr = Addr(ip: nat, port: nat)

  datatype Role = ClientRole | ServerRole

  /** A server's session takes datagrams of its own peer only, a client's from anyone. */
  predicate Accepts(role: Role, from: Addr, peer: Addr) { role.ClientRole? || from == peer }

  /** What udp_recv returns: a datagram the session accepts, MBEDTLS_ERR_SSL_WANT_READ for an
      empty queue or another sender's datagram, or MBEDTLS_ERR_NET_RECV_FAILED. */
  datatype Received = Delivered | NothingThere | WrongPeer | RecvFailed

  /** One call of udp_recv, whose recvfrom may fail: it takes the first waiting datagram whoever
      sent it, and passes it on only if the session accepts its sender. */
  function UdpRecv(role: Role, pending: seq<Addr>, peer: Addr, fails: bool): (Received, seq<Addr>) {
    if fails then (RecvFailed, pending)
    else if pending == [] then (NothingThere, [])
    else if !Accepts(role, pending[0], peer) then (WrongPeer, pending[1..])
    else (Delivered, pending[1..])
  }

  function Drop(pending: seq<Addr>, k: nat): (rest: seq<Addr>)
    ensures |rest| <= |pending|
    ensures k > 0 && pending != [] ==> |rest| < |pending|
  {
    if k <= |pending| then pending[k..] else []
  }

  /** What is left after a session has called udp_recv once for each element of `fails`, and
      what the calls returned. */
  function Left(role: Role, pending: seq<Addr>, peer: Addr, fails: seq<bool>): seq<Addr>
    decreases |fails|
  {
    if fails == [] then pending else Left(role, UdpRecv(role, pending, peer, fails[0]).1, peer, fails[1..])
  }

  function Results(role: Role, pending: seq<Addr>, peer: Addr, fails: seq<bool>): seq<Received>
    decreases |fails|
  {
    if fails == [] then []
    else
      var first := UdpRecv(role, pending, peer, fails[0]);
      [first.0] + Results(role, first.1, peer, fails[1..])
  }

  /** The calls that did not fail. */
  function Succeeding(fails: seq<bool>): nat { multiset(fails)[false] }

  function Deliveries(results: seq<Received>): nat { multiset(results)[Delivered] }

  /** How many datagrams so many receives take. */
  function Reached(pending: seq<Addr>, k: nat): (m: nat)
    ensures m <= |pending|
  {
    if k <= |pending| then k else |pending|
  }

  /** What one receive returns: only a server's session refuses a datagram, and only for its
      sender. */
  lemma OneReceive(role: Role, pending: seq<Addr>, peer: Addr, fails: bool)
    ensures var (result, rest) := UdpRecv(role, pending, peer, fails);
            && (result == RecvFailed <==> fails)
            && (result == NothingThere <==> !fails && pending == [])
            && (result == WrongPeer <==> !fails && pending != [] && role == ServerRole && pending[0] != peer)
            && (result == Delivered <==> !fails && pending != [] && (role == ClientRole || pending[0] == peer))
            && rest == if fails || pending == [] then pending else pending[1..]
  {
  }

  lemma SeqCounts<T>(s: seq<T>)
    requires s != []
    ensures multiset(s) == multiset{s[0]} + multiset(s[1..])
  {
    assert s == [s[0]] + s[1..];
  }

  /** However often a session calls udp_recv, it takes datagrams from the front of the queue,
      one for each call that does not fail. */
  lemma {:induction false} RecvTimesDrops(role: Role, pending: seq<Addr>, peer: Addr, fails: seq<bool>)
    ensures Left(role, pending, peer, fails) == pending[Reached(pending, Succeeding(fails))..]
    decreases |fails|
  {
    if fails != [] {
      var rest := UdpRecv(role, pending, peer, fails[0]).1;
      SeqCounts(fails);
      RecvTimesDrops(role, rest, peer, fails[1..]);
    }
  }

  lemma DeliveriesAfter(first: Received, rest: seq<Received>)
    ensures Deliveries([first] + rest) == (if first == Delivered then 1 else 0) + Deliveries(rest)
  {
    SeqCounts([first] + rest);
    assert ([first] + rest)[1..] == rest;
  }

  /** Of the first k datagrams, those of the peer for a server's session, and all for a client's. */
  function Due(role: Role, pending: seq<Addr>, peer: Addr, k: nat): nat {
    var m := Reached(pending, k);
    if role == ServerRole then multiset(pending[..m])[peer] else m
  }

  lemma DueAfter(role: Role, pending: seq<Addr>, peer: Addr, k: nat)
    requires pending != [] && k > 0
    ensures Due(role, pending, peer, k) ==
            (if role == ClientRole || pending[0] == peer then 1 else 0) + Due(role, pending[1..], peer, k - 1)
  {
    var m := Reached(pending, k);
    SeqCounts(pending[..m]);
    assert pending[..m][1..] == pending[1..][..m - 1];
  }

  /** Exactly the failing calls report a failure. */
  lemma {:induction false} RecvFailures(role: Role, pending: seq<Addr>, peer: Addr, fails: seq<bool>)
    ensures |Results(role, pending, peer, fails)| == |fails|
    ensures forall i :: 0 <= i < |fails| ==> (Results(role, pending, peer, fails)[i].RecvFailed? <==> fails[i])
    decreases |fails|
  {
    if fails != [] {
      RecvFailures(role, UdpRecv(role, pending, peer, fails[0]).1, peer, fails[1..]);
    }
  }

  lemma DueStep(role: Role, pending: seq<Addr>, peer: Addr, fails: bool, k: nat)
    ensures var (result, rest) := UdpRecv(role, pending, peer, fails);
            Due(role, pending, peer, k + if fails then 0 else 1)
            == (if result == Delivered then 1 else 0) + Due(role, rest, peer, k)
  {
    if !fails && pending != [] {
      DueAfter(role, pending, peer, k + 1);
    }
  }

  lemma SucceedingAfter(fails: seq<bool>)
    requires fails != []
    ensures Succeeding(fails) == Succeeding(fails[1..]) + if fails[0] then 0 else 1
  {
    SeqCounts(fails);
  }

  /** Of the datagrams taken, a server's session gets exactly those of its peer, and the others
      are lost; a client's session gets all. */
  lemma {:induction false} RecvDelivers(role: Role, pending: seq<Addr>, peer: Addr, fails: seq<bool>)
    ensures Deliveries(Results(role, pending, peer, fails)) == Due(role, pending, peer, Succeeding(fails))
    decreases |fails|
  {
    if fails != [] {
      var first := UdpRecv(role, pending, peer, fails[0]);
      RecvDelivers(role, first.1, peer, fails[1..]);
      DeliveriesAfter(first.0, Results(role, first.1, peer, fails[1..]));
      SucceedingAfter(fails);
      DueStep(role, pending, peer, fails[0], Succeeding(fails[1..]));
    }
  }
}
