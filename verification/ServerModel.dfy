/** The main loop of src/server.c as a transition system. mbed TLS, the socket and the clock
    are oracles: whatever they may return within their small contracts is a possible step. */
module ServerModel {
  import opened Portability
  import opened Wire
  import opened Dtls
  import opened Clients

  const CHECK_INTERVAL: int := 5

  /** Why a client is removed: an operation on its session failed or the peer closed it, it
      was silent for too long, or the server stops. */
  datatype Reason = Broken | TimedOut | ShutDown

  datatype Event =
    | Created(addr: Addr, session: nat)
    | Heard(addr: Addr, session: nat, at: int)   // a datagram from the client was peeked
    | Handshook(addr: Addr, session: nat, result: DtlsResult)
    | ReadData(addr: Addr, session: nat, data: seq<Byte>, result: DtlsResult)
    | WroteData(addr: Addr, session: nat, data: seq<Byte>, written: nat, result: DtlsResult)
    | Removed(addr: Addr, session: nat, reason: Reason)

  datatype Place = Polling | Draining(left: nat) | Down

  /** `pending` is the socket's receive queue, by sender. `lastTest` (the last time lines
      298-303 ran) and `log` are history. */
  datatype Server = Server(
    clients: seq<Client>,
    pending: seq<Addr>,
    now: int,
    lastCheck: int,
    lastTest: int,
    nextSession: nat,
    log: seq<Event>,
    place: Place
  )

  function Boot(now: int): Server {
    Server([], [], now, now, now, 0, [], Polling)
  }

  /** What the oracles do during one iteration of the receive loop. */
  datatype Oracle = Oracle(
    arrivals: seq<Addr>,     // datagrams that arrive meanwhile
    elapsed: nat,            // seconds since the clock was last read
    created: bool,           // add_client succeeds
    recvs: nat,              // datagrams the handshake or read takes through udp_recv
    ret: MbedRet,            // what the handshake or read returns
    plaintext: seq<Byte>,    // what the read stores in the buffer
    buffered: nat,           // plaintext the session holds afterwards
    writeRecvs: nat,         // the same for the write of the reply
    writeRet: MbedRet,
    writeBuffered: nat
  ) {
    /** A read stores no more than the buffer holds, a write takes no more than was read. */
    predicate FitsBuffer() {
      ret.Value? && |plaintext| == ret.n <= SOCKET_BUFFER_SIZE && BytesDone(writeRet) <= |plaintext|
    }
  }

  function AddEvent(s: Server, e: Event): Server { s.(log := s.log + [e]) }

  /** recvfrom without MSG_PEEK: takes a datagram if there is one. */
  function Discard(s: Server): Server { s.(pending := Drop(s.pending, 1)) }

  function SetClient(s: Server, i: nat, c: Client): Server
    requires i < |s.clients|
  {
    s.(clients := s.clients[i := c])
  }

  /** add_client, when it succeeds. */
  function AddClient(s: Server, a: Addr): Server {
    AddEvent(s.(clients := [Client(a, s.nextSession, s.now, false, false, 0)] + s.clients,
                nextSession := s.nextSession + 1),
             Created(a, s.nextSession))
  }

  /** remove_client on a listed client. */
  function RemoveClient(s: Server, i: nat, reason: Reason): Server
    requires i < |s.clients|
  {
    AddEvent(s.(clients := RemoveAt(s.clients, i)), Removed(s.clients[i].addr, s.clients[i].session, reason))
  }

  /** The Removed events of a traversal, in list order. */
  function SweepEvents(cs: seq<Client>, doom: Doom): seq<Event> {
    if cs == [] then []
    else (if doom.Takes(cs[0]) then [Removed(cs[0].addr, cs[0].session, Why(doom))] else [])
         + SweepEvents(cs[1..], doom)
  }

  function Why(doom: Doom): Reason { if doom.Overdue? then TimedOut else ShutDown }

  lemma {:induction false} SweepEventsSnoc(cs: seq<Client>, c: Client, doom: Doom)
    ensures SweepEvents(cs + [c], doom) ==
            SweepEvents(cs, doom) + if doom.Takes(c) then [Removed(c.addr, c.session, Why(doom))] else []
  {
    if cs == [] {
      assert cs + [c] == [c] && [c][1..] == [];
    } else {
      assert (cs + [c])[1..] == cs[1..] + [c] && (cs + [c])[0] == cs[0];
      SweepEventsSnoc(cs[1..], c, doom);
      var first := if doom.Takes(cs[0]) then [Removed(cs[0].addr, cs[0].session, Why(doom))] else [];
      var last := if doom.Takes(c) then [Removed(c.addr, c.session, Why(doom))] else [];
      assert first + (SweepEvents(cs[1..], doom) + last) == (first + SweepEvents(cs[1..], doom)) + last;
    }
  }

  /** A traversal of the list that removes the doomed clients. */
  function Purge(s: Server, doom: Doom): Server {
    s.(clients := Sweep(s.clients, doom), log := s.log + SweepEvents(s.clients, doom))
  }

  // One iteration of the receive loop.

  /** mbedtls_ssl_handshake on client i: it may take datagrams, and sets the session's flag
      exactly when it succeeds. */
  function CallHandshake(s: Server, i: nat, o: Oracle): Server
    requires i < |s.clients|
  {
    var c, r := s.clients[i], HandshakeResult(o.ret);
    var s' := SetClient(s, i, c.(buffered := o.buffered, sessionComplete := c.sessionComplete || r.Ok?));
    AddEvent(s'.(pending := Drop(s.pending, o.recvs)), Handshook(c.addr, c.session, r))
  }

  function HandshakeTurn(s: Server, i: nat, o: Oracle): Server
    requires i < |s.clients|
  {
    var s1 := CallHandshake(s, i, o);
    match HandshakeResult(o.ret)
    case Ok => Discard(SetClient(s1, i, s1.clients[i].(handshakeComplete := true)))
    case WouldBlock => Discard(s1)
    case _ => RemoveClient(Discard(s1), i, Broken)
  }

  function CallRead(s: Server, i: nat, o: Oracle): Server
    requires i < |s.clients|
  {
    var c, r := s.clients[i], ReadResult(o.ret);
    var s' := SetClient(s, i, c.(buffered := o.buffered));
    AddEvent(s'.(pending := Drop(s.pending, o.recvs)),
             ReadData(c.addr, c.session, if r.Ok? then o.plaintext else [], r))
  }

  function CallWrite(s: Server, i: nat, o: Oracle): Server
    requires i < |s.clients|
  {
    var c := s.clients[i];
    var s' := SetClient(s, i, c.(buffered := o.writeBuffered));
    AddEvent(s'.(pending := Drop(s.pending, o.writeRecvs)),
             WroteData(c.addr, c.session, Reply(o.plaintext), BytesDone(o.writeRet), WriteResult(o.writeRet)))
  }

  /** The reply to what was read; a failed write drops the client. */
  function WriteTurn(s: Server, i: nat, o: Oracle): Server
    requires i < |s.clients|
  {
    var s1, w := CallWrite(s, i, o), WriteResult(o.writeRet);
    if w.Ok? || w.WouldBlock? then s1 else RemoveClient(s1, i, Broken)
  }

  function DataTurn(s: Server, i: nat, o: Oracle): Server
    requires i < |s.clients|
  {
    var s1 := CallRead(s, i, o);
    match ReadResult(o.ret)
    case Ok => WriteTurn(s1, i, o)
    case WouldBlock => Discard(s1)
    case PeerClosed => RemoveClient(s1, i, Broken)
    case _ => RemoveClient(Discard(s1), i, Broken)
  }

  function Meanwhile(s: Server, arrivals: seq<Addr>, elapsed: nat): Server {
    s.(pending := s.pending + arrivals, now := s.now + elapsed)
  }

  /** Lines 325-335: the client for the peeked address, found or added; None if that failed. */
  function FindOrAdd(s: Server, a: Addr, created: bool): Option<Server> {
    if IndexOf(s.clients, a) < |s.clients| then Some(s)
    else if created then Some(AddClient(s, a))
    else None
  }

  function Touch(s: Server, i: nat): Server
    requires i < |s.clients|
  {
    var c := s.clients[i];
    AddEvent(SetClient(s, i, c.(lastActivity := s.now)), Heard(c.addr, c.session, s.now))
  }

  /** Lines 337-467 for client i. */
  function Turn(s: Server, i: nat, o: Oracle): Server
    requires i < |s.clients|
  {
    var s1 := Touch(s, i);
    if s.clients[i].handshakeComplete then DataTurn(s1, i, o) else HandshakeTurn(s1, i, o)
  }

  /** A whole iteration, with a datagram at the front of the queue. */
  function Iteration(s: Server, o: Oracle): Server
    requires s.pending != []
  {
    var a, s1 := s.pending[0], Meanwhile(s, o.arrivals, o.elapsed);
    match FindOrAdd(s1, a, o.created)
    case None => Discard(s1)
    case Some(s2) =>
      assert IndexOf(s2.clients, a) < |s2.clients|;
      Turn(s2, IndexOf(s2.clients, a), o)
  }

  /** The contracts of read and write on a session that holds `had` bytes of plaintext: a
      successful read stores between 1 and 4096 bytes and has taken a datagram or used up
      plaintext; a call that takes no datagram adds none; a write takes at most what it is given. */
  predicate PermitsData(had: nat, pending: seq<Addr>, o: Oracle) {
    && (o.recvs == 0 ==> o.buffered <= had)
    && (ReadResult(o.ret).Ok? ==>
          && o.FitsBuffer()
          && (o.recvs == 0 ==> o.buffered < had)
          && (o.writeRecvs == 0 || Drop(pending + o.arrivals, o.recvs) == [] ==> o.writeBuffered <= o.buffered))
  }

  predicate Permits(s: Server, o: Oracle)
    requires s.pending != []
  {
    var i := IndexOf(s.clients, s.pending[0]);
    i < |s.clients| && s.clients[i].handshakeComplete ==> PermitsData(s.clients[i].buffered, s.pending, o)
  }

  // The outer loop.

  /** Lines 298-303: `elapsed` until main reads the clock, `sweepDelay` until the check does. */
  function TimeoutTest(s: Server, elapsed: nat, sweepDelay: nat): Server {
    var s1 := s.(now := s.now + elapsed, lastTest := s.now + elapsed);
    if s1.now - s1.lastCheck >= CHECK_INTERVAL then
      Purge(s1.(now := s1.now + sweepDelay), Overdue(s1.now + sweepDelay)).(lastCheck := s1.now)
    else
      s1
  }

  datatype Label =
    | Elapse(arrivals: seq<Addr>, seconds: nat)   // the world moves on
    | PollFailed                                  // epoll_wait < 0
    | Polled(events: nat, elapsed: nat, sweepDelay: nat)
    | Datagram(oracle: Oracle)                    // one iteration of the receive loop
    | Drained(hardError: bool)                    // the peek fails: EAGAIN or an error
    | BackToPoll
    | Stop                                        // g_running is 0

  predicate Enabled(s: Server, l: Label) {
    match l
    case Elapse(_, _) => true
    case PollFailed => s.place.Polling?
    case Polled(_, _, _) => s.place.Polling?
    case Datagram(o) => s.place.Draining? && s.place.left > 0 && s.pending != [] && Permits(s, o)
    case Drained(hardError) => s.place.Draining? && s.place.left > 0 && (hardError || s.pending == [])
    case BackToPoll => s.place == Draining(0)
    case Stop => s.place.Polling?
  }

  function Step(s: Server, l: Label): Server
    requires Enabled(s, l)
  {
    match l
    case Elapse(arrivals, seconds) => Meanwhile(s, arrivals, seconds)
    case PollFailed => s
    case Polled(events, elapsed, sweepDelay) => TimeoutTest(s, elapsed, sweepDelay).(place := Draining(events))
    case Datagram(o) => Iteration(s, o)
    case Drained(_) => s.(place := Draining(s.place.left - 1))
    case BackToPoll => s.(place := Polling)
    case Stop => Purge(s, Everyone).(place := Down)
  }

  predicate IsRun(s: Server, ls: seq<Label>)
    decreases |ls|
  {
    ls != [] ==> Enabled(s, ls[0]) && IsRun(Step(s, ls[0]), ls[1..])
  }

  function After(s: Server, ls: seq<Label>): Server
    requires IsRun(s, ls)
    decreases |ls|
  {
    if ls == [] then s else After(Step(s, ls[0]), ls[1..])
  }

  // What a log of events says about one address and one session.

  datatype Phase = Absent | Handshaking(session: nat) | Established(session: nat) | Doomed(session: nat)

  predicate Fine(r: DtlsResult) { r.Ok? || r.WouldBlock? }

  /** The protocol of one address, one event at a time: after a failure the only next event is
      the removal, and without one a client goes only by timeout or shutdown. */
  function Advance(p: Phase, e: Event): Option<Phase> {
    match e
    case Created(_, x) => if p.Absent? then Some(Handshaking(x)) else None
    case Heard(_, x, _) =>
      if p == Handshaking(x) || p == Established(x) then Some(p) else None
    case Handshook(_, x, r) =>
      if p != Handshaking(x) then None
      else Some(if r.Ok? then Established(x) else if r.WouldBlock? then p else Doomed(x))
    case ReadData(_, x, _, r) =>
      if p != Established(x) then None else Some(if Fine(r) then p else Doomed(x))
    case WroteData(_, x, _, _, r) =>
      if p != Established(x) then None else Some(if Fine(r) then p else Doomed(x))
    case Removed(_, x, reason) =>
      if p.Absent? || p.session != x || p.Doomed? != reason.Broken? then None else Some(Absent)
  }

  /** None once the events of address a have left the protocol. */
  function PhaseAfter(log: seq<Event>, a: Addr): Option<Phase> {
    if log == [] then Some(Absent) else
      var e := log[|log| - 1];
      match PhaseAfter(log[..|log| - 1], a)
      case None => None
      case Some(p) => if e.addr == a then Advance(p, e) else Some(p)
  }

  function Creations(log: seq<Event>, session: nat): nat {
    if log == [] then 0 else
      Creations(log[..|log| - 1], session) + if IsCreation(log[|log| - 1], session) then 1 else 0
  }

  function Removals(log: seq<Event>, session: nat): nat {
    if log == [] then 0 else
      Removals(log[..|log| - 1], session) + if IsRemoval(log[|log| - 1], session) then 1 else 0
  }

  /** When a datagram for session x was last peeked. */
  function LastHeard(log: seq<Event>, x: nat): Option<int> {
    if log == [] then None else
      var e := log[|log| - 1];
      if e.Heard? && e.session == x then Some(e.at) else LastHeard(log[..|log| - 1], x)
  }

  function CreatedTotal(log: seq<Event>): nat {
    if log == [] then 0 else CreatedTotal(log[..|log| - 1]) + if log[|log| - 1].Created? then 1 else 0
  }

  function RemovedTotal(log: seq<Event>): nat {
    if log == [] then 0 else RemovedTotal(log[..|log| - 1]) + if log[|log| - 1].Removed? then 1 else 0
  }

  predicate IsCreation(e: Event, session: nat) { e.Created? && e.session == session }

  predicate IsRemoval(e: Event, session: nat) { e.Removed? && e.session == session }
}
