/** What becomes of datagrams and clients, told by what mbed TLS returned and by the clock: which
    datagrams an iteration takes, and exactly when a client leaves the list. */
module ServerFate {
  import opened Portability
  import opened Wire
  import opened Dtls
  import opened Clients
  import opened ServerModel
  import opened ServerInvariant
  import opened ServerTheorems

  // Datagrams.

  /** Datagrams taken by sessions through udp_recv, and by main's own recvfrom. */
  datatype Takes = Takes(sessions: nat, own: nat)

  function Sum(t: Takes): nat { t.sessions + t.own }

  /** What the turn of client c asks for: an answered message and a closed peer leave main's own
      recvfrom out, everything else ends with it. */
  function WantedBy(c: Client, o: Oracle): Takes {
    if c.handshakeComplete then
      match o.ret
      case Value(n) => if n > 0 then Takes(o.recvs + o.writeRecvs, 0) else Takes(o.recvs, 1)
      case PeerCloseNotify => Takes(o.recvs, 0)
      case _ => Takes(o.recvs, 1)
    else Takes(o.recvs, 1)
  }

  /** What an iteration asks for: a client that cannot be added costs one datagram, and a new one
      has its handshake to do. */
  function Wanted(s: Server, o: Oracle): Takes
    requires s.pending != []
  {
    var i := IndexOf(s.clients, s.pending[0]);
    if i < |s.clients| then WantedBy(s.clients[i], o)
    else if o.created then Takes(o.recvs, 1)
    else Takes(0, 1)
  }

  /** What it gets of the datagrams that are there, or arrive meanwhile. */
  function Taken(s: Server, o: Oracle): Takes
    requires s.pending != []
  {
    var available, want := |s.pending| + |o.arrivals|, Wanted(s, o);
    var sessions := if want.sessions <= available then want.sessions else available;
    Takes(sessions, if want.own <= available - sessions then want.own else available - sessions)
  }

  lemma DropTwice(pending: seq<Addr>, j: nat, k: nat)
    ensures Drop(Drop(pending, j), k) == Drop(pending, j + k)
  {
    if j <= |pending| && k <= |pending[j..]| {
      assert pending[j..][k..] == pending[j + k..];
    }
  }

  lemma TurnTakes(s: Server, i: nat, o: Oracle)
    requires i < |s.clients|
    ensures Turn(s, i, o).pending ==
            if s.clients[i].handshakeComplete then
              match o.ret
              case Value(n) =>
                if n > 0 then Drop(Drop(s.pending, o.recvs), o.writeRecvs) else Drop(Drop(s.pending, o.recvs), 1)
              case PeerCloseNotify => Drop(s.pending, o.recvs)
              case _ => Drop(Drop(s.pending, o.recvs), 1)
            else Drop(Drop(s.pending, o.recvs), 1)
  {
  }

  lemma TurnDrops(s: Server, i: nat, o: Oracle)
    requires i < |s.clients|
    ensures Turn(s, i, o).pending == Drop(s.pending, Sum(WantedBy(s.clients[i], o)))
  {
    TurnTakes(s, i, o);
    WantedDrops(s.pending, s.clients[i], o, Turn(s, i, o).pending);
  }

  lemma WantedDrops(q: seq<Addr>, c: Client, o: Oracle, q': seq<Addr>)
    requires q' == if c.handshakeComplete && o.ret.Value? && o.ret.n > 0 then Drop(Drop(q, o.recvs), o.writeRecvs)
                   else if c.handshakeComplete && o.ret.PeerCloseNotify? then Drop(q, o.recvs)
                   else Drop(Drop(q, o.recvs), 1)
    ensures q' == Drop(q, Sum(WantedBy(c, o)))
  {
    if c.handshakeComplete && o.ret.Value? && o.ret.n > 0 {
      DropTwice(q, o.recvs, o.writeRecvs);
    } else if c.handshakeComplete && o.ret.PeerCloseNotify? {
      assert Sum(WantedBy(c, o)) == o.recvs;
    } else {
      DropTwice(q, o.recvs, 1);
    }
  }

  lemma IterationDrops(s: Server, o: Oracle)
    requires s.pending != []
    ensures Iteration(s, o).pending == Drop(s.pending + o.arrivals, Sum(Wanted(s, o)))
  {
    var i, s1 := IndexOf(s.clients, s.pending[0]), Meanwhile(s, o.arrivals, o.elapsed);
    if i < |s.clients| {
      TurnDrops(s1, i, o);
    } else if o.created {
      TurnDrops(AddClient(s1, s.pending[0]), 0, o);
    }
  }

  lemma DropIsSuffix(q: seq<Addr>, k: nat, m: nat)
    requires m == if k <= |q| then k else |q|
    ensures Drop(q, k) == q[m..]
  {
  }

  /** An iteration takes exactly that many datagrams from the front of the queue, and leaves all
      others, in order. */
  lemma IterationTakes(s: Server, o: Oracle)
    requires s.pending != []
    ensures Sum(Taken(s, o)) <= |s.pending + o.arrivals|
    ensures Iteration(s, o).pending == (s.pending + o.arrivals)[Sum(Taken(s, o))..]
  {
    IterationDrops(s, o);
    DropIsSuffix(s.pending + o.arrivals, Sum(Wanted(s, o)), Sum(Taken(s, o)));
  }

  /** All datagrams that arrive during a run, in order. */
  function Arrived(ls: seq<Label>): seq<Addr> {
    if ls == [] then [] else ArrivedWith(ls[0]) + Arrived(ls[1..])
  }

  function ArrivedWith(l: Label): seq<Addr> {
    match l
    case Elapse(arrivals, _) => arrivals
    case Datagram(o) => o.arrivals
    case _ => []
  }

  function TakenBy(s: Server, l: Label): Takes
    requires Enabled(s, l)
  {
    if l.Datagram? then Taken(s, l.oracle) else Takes(0, 0)
  }

  function SessionsTook(s: Server, ls: seq<Label>): nat
    requires IsRun(s, ls)
    decreases |ls|
  {
    if ls == [] then 0 else TakenBy(s, ls[0]).sessions + SessionsTook(Step(s, ls[0]), ls[1..])
  }

  function MainTook(s: Server, ls: seq<Label>): nat
    requires IsRun(s, ls)
    decreases |ls|
  {
    if ls == [] then 0 else TakenBy(s, ls[0]).own + MainTook(Step(s, ls[0]), ls[1..])
  }

  lemma StepPending(s: Server, l: Label)
    requires Enabled(s, l) && !l.Datagram?
    ensures Step(s, l).pending == if l.Elapse? then s.pending + l.arrivals else s.pending
  {
  }

  /** The datagrams a step takes, and those a run takes. */
  function Gone(s: Server, l: Label): seq<Addr>
    requires Enabled(s, l)
  {
    if l.Datagram? then
      IterationTakes(s, l.oracle);
      (s.pending + l.oracle.arrivals)[..Sum(Taken(s, l.oracle))]
    else []
  }

  function GoneOver(s: Server, ls: seq<Label>): seq<Addr>
    requires IsRun(s, ls)
    decreases |ls|
  {
    if ls == [] then [] else Gone(s, ls[0]) + GoneOver(Step(s, ls[0]), ls[1..])
  }

  lemma GoneCounted(s: Server, l: Label)
    requires Enabled(s, l)
    ensures |Gone(s, l)| == Sum(TakenBy(s, l))
  {
    if l.Datagram? {
      IterationTakes(s, l.oracle);
    }
  }

  lemma CountedFrom(s: Server, ls: seq<Label>)
    requires IsRun(s, ls) && ls != []
    requires |GoneOver(Step(s, ls[0]), ls[1..])| == SessionsTook(Step(s, ls[0]), ls[1..]) + MainTook(Step(s, ls[0]), ls[1..])
    ensures |GoneOver(s, ls)| == SessionsTook(s, ls) + MainTook(s, ls)
  {
    GoneCounted(s, ls[0]);
  }

  lemma {:induction false} GoneOverCounted(s: Server, ls: seq<Label>)
    requires IsRun(s, ls)
    ensures |GoneOver(s, ls)| == SessionsTook(s, ls) + MainTook(s, ls)
    decreases |ls|
  {
    if ls == [] {
    } else {
      GoneOverCounted(Step(s, ls[0]), ls[1..]);
      CountedFrom(s, ls);
    }
  }

  lemma StepTakes(s: Server, l: Label)
    requires Enabled(s, l)
    ensures s.pending + ArrivedWith(l) == Gone(s, l) + Step(s, l).pending
  {
    if l.Datagram? {
      IterationTakes(s, l.oracle);
    } else {
      StepPending(s, l);
    }
  }

  lemma Chain(p: seq<Addr>, a: seq<Addr>, g: seq<Addr>, p1: seq<Addr>, b: seq<Addr>, g1: seq<Addr>, p2: seq<Addr>)
    requires p + a == g + p1 && p1 + b == g1 + p2
    ensures p + (a + b) == (g + g1) + p2
  {
    assert p + (a + b) == (p + a) + b;
    assert (g + p1) + b == g + (p1 + b);
    assert g + (g1 + p2) == (g + g1) + p2;
  }

  lemma {:induction false} RunTakes(s: Server, ls: seq<Label>)
    requires IsRun(s, ls)
    ensures s.pending + Arrived(ls) == GoneOver(s, ls) + After(s, ls).pending
    decreases |ls|
  {
    if ls != [] {
      var s1, more := Step(s, ls[0]), ls[1..];
      StepTakes(s, ls[0]);
      RunTakes(s1, more);
      Chain(s.pending, ArrivedWith(ls[0]), Gone(s, ls[0]), s1.pending, Arrived(more), GoneOver(s1, more),
            After(s1, more).pending);
    }
  }

  /** Over any run no datagram is lost or taken twice: what has arrived is what sessions took,
      what main's own recvfrom took, and what still waits, in the order of arrival. */
  lemma DatagramsConserved(now: int, ls: seq<Label>, s: Server)
    requires Reaches(now, ls, s)
    ensures var taken := SessionsTook(Boot(now), ls) + MainTook(Boot(now), ls);
            |Arrived(ls)| == taken + |s.pending| && s.pending == Arrived(ls)[taken..]
  {
    RunTakes(Boot(now), ls);
    GoneOverCounted(Boot(now), ls);
    assert [] + Arrived(ls) == Arrived(ls);
  }

  // Clients.

  /** What mbed TLS returned neither says success nor asks to be called again. */
  predicate HandshakeFails(ret: MbedRet) { ret != Value(0) && ret != WantRead && ret != WantWrite }

  predicate TransferFails(ret: MbedRet) { !(ret.Value? && ret.n > 0) && ret != WantRead && ret != WantWrite }

  /** The operation on the client's session fails, or its peer has closed it. */
  predicate Fails(c: Client, o: Oracle) {
    if !c.handshakeComplete then HandshakeFails(o.ret)
    else TransferFails(o.ret) || (o.ret.Value? && TransferFails(o.writeRet))
  }

  /** The client the iteration is about, as it was before. */
  function Subject(s: Server, o: Oracle): Client
    requires s.pending != []
  {
    var a := s.pending[0];
    var i := IndexOf(s.clients, a);
    if i < |s.clients| then s.clients[i] else Client(a, s.nextSession, s.now + o.elapsed, false, false, 0)
  }

  lemma RemoveUpdated<T>(cs: seq<T>, i: nat, c: T)
    requires i < |cs|
    ensures RemoveAt(cs[i := c], i) == RemoveAt(cs, i)
  {
  }

  lemma DataTurnFate(s: Server, i: nat, o: Oracle)
    requires i < |s.clients| && s.clients[i].handshakeComplete
    ensures var s', c := DataTurn(s, i, o), s.clients[i];
            if Fails(c, o) then s'.clients == RemoveAt(s.clients, i)
            else |s'.clients| == |s.clients| && s'.clients == s.clients[i := s'.clients[i]]
                 && s'.clients[i] == c.(buffered := s'.clients[i].buffered)
  {
    var s1 := CallRead(s, i, o);
    RemoveUpdated(s.clients, i, s1.clients[i]);
    RemoveUpdated(s1.clients, i, CallWrite(s1, i, o).clients[i]);
  }

  lemma HandshakeTurnFate(s: Server, i: nat, o: Oracle)
    requires i < |s.clients| && !s.clients[i].handshakeComplete
    ensures var s', c := HandshakeTurn(s, i, o), s.clients[i];
            if Fails(c, o) then s'.clients == RemoveAt(s.clients, i)
            else |s'.clients| == |s.clients| && s'.clients == s.clients[i := s'.clients[i]]
                 && s'.clients[i].addr == c.addr && s'.clients[i].session == c.session
                 && s'.clients[i].lastActivity == c.lastActivity
                 && s'.clients[i].handshakeComplete == (o.ret == Value(0))
  {
    RemoveUpdated(s.clients, i, CallHandshake(s, i, o).clients[i]);
  }

  /** The turn of client i changes it or removes it, and touches no other. */
  lemma TurnFate(s: Server, i: nat, o: Oracle)
    requires i < |s.clients|
    ensures var s', c := Turn(s, i, o), s.clients[i];
            if Fails(c, o) then s'.clients == RemoveAt(s.clients, i)
            else |s'.clients| == |s.clients| && s'.clients == s.clients[i := s'.clients[i]] && Heeded(c, s'.clients[i], s.now, o)
  {
    var s1 := Touch(s, i);
    RemoveUpdated(s.clients, i, s1.clients[i]);
    if s.clients[i].handshakeComplete {
      DataTurnFate(s1, i, o);
    } else {
      HandshakeTurnFate(s1, i, o);
    }
  }

  /** Client c as it stands after a turn at time t that it has survived. */
  predicate Heeded(c: Client, d: Client, t: int, o: Oracle) {
    && d.addr == c.addr && d.session == c.session && d.lastActivity == t
    && d.handshakeComplete == (c.handshakeComplete || o.ret == Value(0))
  }

  /** An iteration serves the sender of the first datagram: a listed client of that address, or a
      new one if it can be added. It leaves the list exactly when the operation on its session
      fails, and otherwise has been heard now, and is established once a handshake returned 0.
      No other client is touched. */
  lemma IterationFate(now: int, ls: seq<Label>, s: Server, o: Oracle)
    requires Reaches(now, ls, s) && Enabled(s, Datagram(o))
    ensures var s', a, c := Step(s, Datagram(o)), s.pending[0], Subject(s, o);
            && (forall d: Client :: d.addr != a ==> (d in s'.clients <==> d in s.clients))
            && ((exists d :: d in s'.clients && d.addr == a) <==> (c in s.clients || o.created) && !Fails(c, o))
            && (forall d :: d in s'.clients && d.addr == a ==> Heeded(c, d, s.now + o.elapsed, o))
  {
    ReachedInv(now, ls, s);
    var a, s1, c := s.pending[0], Meanwhile(s, o.arrivals, o.elapsed), Subject(s, o);
    var i := IndexOf(s.clients, a);
    assert Consistent(s1) by { SameTable(s, s1); }
    if i < |s.clients| {
      SubjectFate(s1, i, o);
    } else if o.created {
      AddConsistent(s1, a);
      assert AddClient(s1, a).clients == [c] + s.clients;
      SubjectFate(AddClient(s1, a), 0, o);
      forall d: Client | d.addr != a ensures d in [c] + s.clients <==> d in s.clients {}
    }
  }

  /** In a list with distinct keys, the turn of client i replaces or removes it alone. */
  lemma SubjectFate(s: Server, i: nat, o: Oracle)
    requires DistinctKeys(s.clients) && i < |s.clients|
    ensures var s', c := Turn(s, i, o), s.clients[i];
            && (forall d: Client :: d.addr != c.addr ==> (d in s'.clients <==> d in s.clients))
            && ((exists d :: d in s'.clients && d.addr == c.addr) <==> !Fails(c, o))
            && (forall d :: d in s'.clients && d.addr == c.addr ==> Heeded(c, d, s.now, o))
  {
    var cs', c := Turn(s, i, o).clients, s.clients[i];
    TurnFate(s, i, o);
    if Fails(c, o) {
      RemovedAlone(s.clients, i);
    } else {
      ReplacedAlone(s.clients, i, cs'[i]);
      assert cs'[i] in cs';
    }
  }

  lemma RemovedAlone(cs: seq<Client>, i: nat)
    requires DistinctKeys(cs) && i < |cs|
    ensures forall d: Client :: d.addr != cs[i].addr ==> (d in RemoveAt(cs, i) <==> d in cs)
    ensures forall d :: d in RemoveAt(cs, i) ==> d.addr != cs[i].addr
  {
    var cs' := RemoveAt(cs, i);
    forall d: Client | d.addr != cs[i].addr && d in cs ensures d in cs' {
      var j :| 0 <= j < |cs| && cs[j] == d;
      assert cs'[if j < i then j else j - 1] == d;
    }
    forall d | d in cs' ensures d in cs && d.addr != cs[i].addr {
      var j :| 0 <= j < |cs'| && cs'[j] == d;
      assert cs[if j < i then j else j + 1] == d;
    }
  }

  lemma ReplacedAlone(cs: seq<Client>, i: nat, c: Client)
    requires DistinctKeys(cs) && i < |cs| && c.addr == cs[i].addr
    ensures forall d: Client :: d.addr != c.addr ==> (d in cs[i := c] <==> d in cs)
    ensures forall d :: d in cs[i := c] && d.addr == c.addr ==> d == c
  {
    var cs' := cs[i := c];
    forall d: Client | d.addr != c.addr && d in cs ensures d in cs' {
      var j :| 0 <= j < |cs| && cs[j] == d;
      assert cs'[j] == d;
    }
    forall d | d in cs' ensures if d.addr == c.addr then d == c else d in cs {
      var j :| 0 <= j < |cs'| && cs'[j] == d;
      assert j != i ==> cs[j] == d;
    }
  }

  /** In every run, a listed client leaves the list in exactly three ways: an operation on its
      session failed or found it closed; a timeout check, made at least 5 seconds after the last,
      found it silent for more than 30 seconds; or the server stopped. */
  lemma ClientsLeaveExactly(now: int, ls: seq<Label>, s: Server, l: Label, c: Client)
    requires Reaches(now, ls, s) && Enabled(s, l) && c in s.clients
    ensures (forall d :: d in Step(s, l).clients ==> d.addr != c.addr) <==>
            match l
            case Datagram(o) => c.addr == s.pending[0] && Fails(c, o)
            case Polled(_, elapsed, sweepDelay) =>
              && s.now + elapsed - s.lastCheck >= 5
              && s.now + elapsed + sweepDelay - c.lastActivity > 30
            case Stop => true
            case _ => false
  {
    ReachedInv(now, ls, s);
    var i :| 0 <= i < |s.clients| && s.clients[i] == c;
    IndexOfUnique(s.clients, i);
    match l
    case Datagram(o) =>
      IterationFate(now, ls, s, o);
    case Polled(_, elapsed, sweepDelay) =>
      forall d | d in s.clients && d.addr == c.addr ensures d == c {}
      forall d ensures d in Sweep(s.clients, Overdue(s.now + elapsed + sweepDelay)) <==>
                         d in s.clients && !Overdue(s.now + elapsed + sweepDelay).Takes(d)
      {
        SweepMembers(s.clients, Overdue(s.now + elapsed + sweepDelay), d);
      }
    case Stop => EveryoneGoes(s.clients);
    case _ =>
  }

  /** The model leaves mbed TLS free: in every reachable state with a datagram waiting, the
      operation on the session may return anything that fits the buffer, and so may the write. */
  lemma AnyReturnPossible(now: int, ls: seq<Label>, s: Server, ret: MbedRet, writeRet: MbedRet) returns (o: Oracle)
    requires Reaches(now, ls, s) && s.pending != [] && s.place.Draining? && s.place.left > 0
    requires ret.Value? ==> ret.n <= 4096 && (writeRet.Value? ==> writeRet.n <= ret.n)
    ensures Enabled(s, Datagram(o)) && o.ret == ret && o.writeRet == writeRet
  {
    o := Oracle([], 0, true, 1, ret, seq(BytesDone(ret), i => 0), 0, 0, writeRet, 0);
  }

  /** A message that is read is the plaintext mbed TLS returned, and its reply is attempted before
      anything else; a failed attempt costs the client. */
  lemma MessageHandled(now: int, ls: seq<Label>, s: Server, o: Oracle)
    requires Reaches(now, ls, s) && Enabled(s, Datagram(o))
    requires Subject(s, o) in s.clients && Subject(s, o).handshakeComplete && o.ret.Value? && o.ret.n > 0
    ensures var a, x, t := s.pending[0], Subject(s, o).session, s.now + o.elapsed;
            && |o.plaintext| == o.ret.n
            && Step(s, Datagram(o)).log ==
               s.log + [Heard(a, x, t), ReadData(a, x, o.plaintext, Ok),
                        WroteData(a, x, Reply(o.plaintext), BytesDone(o.writeRet), WriteResult(o.writeRet))]
               + if TransferFails(o.writeRet) then [Removed(a, x, Broken)] else []
  {
    ReachedInv(now, ls, s);
    var i, s1 := IndexOf(s.clients, s.pending[0]), Meanwhile(s, o.arrivals, o.elapsed);
    if i < |s.clients| {
      TurnLogs(s1, i, o);
      MessageEvents(s.log, s.clients[i], s1.now, o);
    } else {
      AbsentSubject(s.clients, Subject(s, o));
    }
  }

  lemma MessageEvents(log: seq<Event>, c: Client, t: int, o: Oracle)
    requires c.handshakeComplete && o.ret.Value? && o.ret.n > 0
    ensures log + [Heard(c.addr, c.session, t)] + TurnEvents(c, o) ==
            log + [Heard(c.addr, c.session, t), ReadData(c.addr, c.session, o.plaintext, Ok),
                   WroteData(c.addr, c.session, Reply(o.plaintext), BytesDone(o.writeRet), WriteResult(o.writeRet))]
            + if TransferFails(o.writeRet) then [Removed(c.addr, c.session, Broken)] else []
  {
  }

  lemma AbsentSubject(cs: seq<Client>, c: Client)
    requires IndexOf(cs, c.addr) == |cs|
    ensures c !in cs
  {
    if j :| 0 <= j < |cs| && cs[j] == c {
      assert cs[j].addr == c.addr;
    }
  }
}
