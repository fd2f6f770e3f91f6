/** What every step of the server's main loop keeps. */
module ServerInvariant {
  import opened Portability
  import opened Wire
  import opened Dtls
  import opened Clients
  import opened ServerModel

  // The table.

  ghost predicate TableOk(s: Server) {
    && DistinctKeys(s.clients)
    && DistinctSessions(s.clients)
    && (forall c :: c in s.clients ==> c.session < s.nextSession)
  }

  /** The server's flag is the session's flag. */
  ghost predicate FlagsAgree(s: Server) {
    forall c :: c in s.clients ==> c.handshakeComplete == c.sessionComplete
  }

  // The log, address by address.

  function PhaseOf(c: Client): Phase {
    if c.handshakeComplete then Established(c.session) else Handshaking(c.session)
  }

  function PhaseIn(cs: seq<Client>, a: Addr): Phase {
    var i := IndexOf(cs, a);
    if i < |cs| then PhaseOf(cs[i]) else Absent
  }

  ghost predicate LogOk(s: Server) {
    forall a :: PhaseAfter(s.log, a) == Some(PhaseIn(s.clients, a))
  }

  /** As LogOk, but the address of client i is at phase p in the middle of a turn. */
  ghost predicate LogOkBut(s: Server, i: nat, p: Phase) {
    && i < |s.clients|
    && forall a :: PhaseAfter(s.log, a) == Some(if a == s.clients[i].addr then p else PhaseIn(s.clients, a))
  }

  lemma PhaseAppend(log: seq<Event>, e: Event, a: Addr)
    ensures PhaseAfter(log + [e], a) ==
            match PhaseAfter(log, a)
            case None => None
            case Some(p) => if e.addr == a then Advance(p, e) else Some(p)
  {
    assert (log + [e])[..|log + [e]| - 1] == log;
  }

  lemma {:induction false} IndexOfUnique(cs: seq<Client>, i: nat)
    requires DistinctKeys(cs) && i < |cs|
    ensures IndexOf(cs, cs[i].addr) == i
  {
    if i > 0 {
      IndexOfUnique(cs[1..], i - 1);
    }
  }

  lemma PhaseInTail(cs: seq<Client>, a: Addr)
    requires cs != []
    ensures PhaseIn(cs, a) == if cs[0].addr == a then PhaseOf(cs[0]) else PhaseIn(cs[1..], a)
  {
    var i := IndexOf(cs, a);
    assert 0 < i < |cs| ==> cs[i] == cs[1..][i - 1];
  }

  lemma {:induction false} IndexOfRemoved(cs: seq<Client>, i: nat, a: Addr)
    requires DistinctKeys(cs) && i < |cs|
    ensures PhaseIn(RemoveAt(cs, i), a) == if a == cs[i].addr then Absent else PhaseIn(cs, a)
  {
    var rest := RemoveAt(cs, i);
    PhaseInTail(cs, a);
    if i == 0 {
      assert rest == cs[1..];
      if a == cs[0].addr {
        AbsentIn(rest, a);
      }
    } else {
      assert rest[0] == cs[0] && rest[1..] == RemoveAt(cs[1..], i - 1);
      IndexOfRemoved(cs[1..], i - 1, a);
      PhaseInTail(rest, a);
    }
  }

  lemma AbsentIn(cs: seq<Client>, a: Addr)
    requires forall c :: c in cs ==> c.addr != a
    ensures IndexOf(cs, a) == |cs|
  {
  }

  lemma {:induction false} IndexOfUpdated(cs: seq<Client>, i: nat, c: Client, a: Addr)
    requires i < |cs| && c.addr == cs[i].addr
    ensures IndexOf(cs[i := c], a) == IndexOf(cs, a)
  {
    if i == 0 {
      assert cs[0 := c][1..] == cs[1..];
    } else {
      assert cs[i := c][1..] == cs[1..][i - 1 := c];
      IndexOfUpdated(cs[1..], i - 1, c, a);
    }
  }

  // The log, session by session.

  predicate Live(cs: seq<Client>, x: nat) {
    exists i :: 0 <= i < |cs| && cs[i].session == x
  }

  ghost predicate LedgerOk(s: Server) {
    && (forall x :: SessionOk(s.clients, s.nextSession, s.log, x))
    && CreatedTotal(s.log) == s.nextSession == |s.clients| + RemovedTotal(s.log)
  }

  /** Session x was created once if its number was given out, and destroyed once if it is
      no longer in the list. */
  predicate SessionOk(cs: seq<Client>, next: nat, log: seq<Event>, x: nat) {
    && Creations(log, x) == (if x < next then 1 else 0)
    && Removals(log, x) == (if x < next && !Live(cs, x) then 1 else 0)
  }

  lemma CountAppend(log: seq<Event>, e: Event, x: nat)
    ensures Creations(log + [e], x) == Creations(log, x) + if IsCreation(e, x) then 1 else 0
    ensures Removals(log + [e], x) == Removals(log, x) + if IsRemoval(e, x) then 1 else 0
    ensures CreatedTotal(log + [e]) == CreatedTotal(log) + if e.Created? then 1 else 0
    ensures RemovedTotal(log + [e]) == RemovedTotal(log) + if e.Removed? then 1 else 0
  {
    assert (log + [e])[..|log + [e]| - 1] == log;
  }

  ghost predicate Consistent(s: Server) {
    TableOk(s) && FlagsAgree(s) && LogOk(s) && LedgerOk(s)
  }

  // Adding and removing.

  lemma AddLogOk(s: Server, a: Addr)
    requires LogOk(s) && IndexOf(s.clients, a) == |s.clients|
    ensures LogOk(AddClient(s, a))
  {
    var s' := AddClient(s, a);
    assert s'.clients[1..] == s.clients;
    forall b ensures PhaseAfter(s'.log, b) == Some(PhaseIn(s'.clients, b)) {
      PhaseAppend(s.log, Created(a, s.nextSession), b);
    }
  }

  lemma AddLedgerOk(s: Server, a: Addr)
    requires LedgerOk(s) && TableOk(s)
    ensures LedgerOk(AddClient(s, a))
  {
    var s' := AddClient(s, a);
    CountAppend(s.log, Created(a, s.nextSession), 0);
    forall x ensures SessionOk(s'.clients, s'.nextSession, s'.log, x) {
      CountAppend(s.log, Created(a, s.nextSession), x);
      assert SessionOk(s.clients, s.nextSession, s.log, x);
      AddLive(s.clients, s'.clients[0], x);
    }
  }

  lemma AddConsistent(s: Server, a: Addr)
    requires Consistent(s) && IndexOf(s.clients, a) == |s.clients|
    ensures Consistent(AddClient(s, a))
  {
    AddLogOk(s, a);
    AddLedgerOk(s, a);
  }

  lemma AddLive(cs: seq<Client>, c: Client, x: nat)
    ensures Live([c] + cs, x) <==> x == c.session || Live(cs, x)
  {
    var cs' := [c] + cs;
    assert cs'[0] == c;
    if i :| 0 <= i < |cs| && cs[i].session == x {
      assert cs'[i + 1].session == x;
    }
    if i :| 0 <= i < |cs'| && cs'[i].session == x {
      assert i > 0 ==> cs[i - 1].session == x;
    }
  }

  lemma RemoveLive(cs: seq<Client>, i: nat, x: nat)
    requires i < |cs| && DistinctSessions(cs)
    ensures Live(RemoveAt(cs, i), x) <==> x != cs[i].session && Live(cs, x)
  {
    var cs' := RemoveAt(cs, i);
    if j :| 0 <= j < |cs'| && cs'[j].session == x {
      assert cs[if j < i then j else j + 1] == cs'[j];
    }
    if j :| 0 <= j < |cs| && cs[j].session == x && j != i {
      assert cs'[if j < i then j else j - 1] == cs[j];
    }
  }

  lemma RemoveSubset(cs: seq<Client>, i: nat, c: Client)
    requires i < |cs| && c in RemoveAt(cs, i)
    ensures c in cs
  {
  }

  /** Removing client i closes its address's protocol and destroys its session. */
  lemma RemoveConsistent(s: Server, i: nat, p: Phase, reason: Reason)
    requires TableOk(s) && LedgerOk(s) && LogOkBut(s, i, p)
    requires !p.Absent? && p.session == s.clients[i].session && p.Doomed? == reason.Broken?
    requires forall c :: c in RemoveAt(s.clients, i) ==> c.handshakeComplete == c.sessionComplete
    ensures Consistent(RemoveClient(s, i, reason))
  {
    var s', e := RemoveClient(s, i, reason), Removed(s.clients[i].addr, s.clients[i].session, reason);
    RemoveDistinct(s.clients, i);
    CountAppend(s.log, e, 0);
    forall a ensures PhaseAfter(s'.log, a) == Some(PhaseIn(s'.clients, a)) {
      PhaseAppend(s.log, e, a);
      IndexOfRemoved(s.clients, i, a);
    }
    forall x ensures SessionOk(s'.clients, s'.nextSession, s'.log, x) {
      CountAppend(s.log, e, x);
      assert SessionOk(s.clients, s.nextSession, s.log, x);
      RemoveLive(s.clients, i, x);
      assert s.clients[i] in s.clients;
    }
    forall c | c in s'.clients ensures c in s.clients {
      RemoveSubset(s.clients, i, c);
    }
  }

  lemma RemoveListed(s: Server, i: nat, reason: Reason)
    requires Consistent(s) && i < |s.clients| && !reason.Broken?
    ensures Consistent(RemoveClient(s, i, reason))
  {
    LogOkHere(s, i);
    forall c | c in RemoveAt(s.clients, i) ensures c.handshakeComplete == c.sessionComplete {
      RemoveSubset(s.clients, i, c);
    }
    RemoveConsistent(s, i, PhaseOf(s.clients[i]), reason);
  }

  lemma LogOkHere(s: Server, i: nat)
    requires LogOk(s) && DistinctKeys(s.clients) && i < |s.clients|
    ensures LogOkBut(s, i, PhaseOf(s.clients[i]))
  {
    IndexOfUnique(s.clients, i);
  }

  // Changing one client in place, with an event about it.

  /** Client i keeps its key and session; the event e moves its address from p to p'. */
  lemma EventKeeps(s: Server, i: nat, c: Client, e: Event, p: Phase, p': Phase)
    requires TableOk(s) && LedgerOk(s) && LogOkBut(s, i, p)
    requires c.addr == s.clients[i].addr == e.addr && c.session == s.clients[i].session
    requires Advance(p, e) == Some(p')
    requires !e.Created? && !e.Removed?
    ensures var s' := AddEvent(SetClient(s, i, c), e);
            TableOk(s') && LedgerOk(s') && LogOkBut(s', i, p')
  {
    var s' := AddEvent(SetClient(s, i, c), e);
    CountAppend(s.log, e, 0);
    forall a ensures PhaseAfter(s'.log, a) == Some(if a == c.addr then p' else PhaseIn(s'.clients, a)) {
      PhaseAppend(s.log, e, a);
      IndexOfUpdated(s.clients, i, c, a);
      if a != c.addr {
        assert IndexOf(s.clients, a) != i || IndexOf(s.clients, a) == |s.clients|;
      }
    }
    forall x ensures SessionOk(s'.clients, s'.nextSession, s'.log, x) {
      CountAppend(s.log, e, x);
      assert SessionOk(s.clients, s.nextSession, s.log, x);
      SetLive(s.clients, i, c, x);
    }
    SetTable(s, i, c);
  }

  lemma SetLive(cs: seq<Client>, i: nat, c: Client, x: nat)
    requires i < |cs| && c.session == cs[i].session
    ensures Live(cs[i := c], x) <==> Live(cs, x)
  {
    if j :| 0 <= j < |cs| && cs[j].session == x {
      assert cs[i := c][j].session == x;
    }
    var cs' := cs[i := c];
    if j :| 0 <= j < |cs'| && cs'[j].session == x {
      assert cs[j].session == x;
    }
  }

  lemma SetTable(s: Server, i: nat, c: Client)
    requires TableOk(s) && i < |s.clients|
    requires c.addr == s.clients[i].addr && c.session == s.clients[i].session
    ensures TableOk(SetClient(s, i, c))
  {
    forall d | d in s.clients[i := c] ensures d.session < s.nextSession {
      assert d == c || d in s.clients;
      assert s.clients[i] in s.clients;
    }
  }

  /** Client i changes in place with no event. */
  lemma SetKeeps(s: Server, i: nat, c: Client, p: Phase)
    requires TableOk(s) && LedgerOk(s) && LogOkBut(s, i, p)
    requires c.addr == s.clients[i].addr && c.session == s.clients[i].session
    ensures TableOk(SetClient(s, i, c)) && LedgerOk(SetClient(s, i, c)) && LogOkBut(SetClient(s, i, c), i, p)
  {
    var s' := SetClient(s, i, c);
    SetTable(s, i, c);
    forall a ensures PhaseAfter(s'.log, a) == Some(if a == c.addr then p else PhaseIn(s'.clients, a)) {
      IndexOfUpdated(s.clients, i, c, a);
    }
    forall x ensures SessionOk(s'.clients, s'.nextSession, s'.log, x) {
      assert SessionOk(s.clients, s.nextSession, s.log, x);
      SetLive(s.clients, i, c, x);
    }
  }

  lemma BackToLogOk(s: Server, i: nat)
    requires i < |s.clients| && DistinctKeys(s.clients) && LogOkBut(s, i, PhaseOf(s.clients[i]))
    ensures LogOk(s)
  {
    IndexOfUnique(s.clients, i);
    forall a ensures PhaseAfter(s.log, a) == Some(PhaseIn(s.clients, a)) {
    }
  }

  ghost predicate OthersAgree(s: Server, i: nat) {
    forall j :: 0 <= j < |s.clients| && j != i ==> s.clients[j].handshakeComplete == s.clients[j].sessionComplete
  }

  lemma OthersRemain(s: Server, i: nat)
    requires i < |s.clients| && OthersAgree(s, i)
    ensures forall c :: c in RemoveAt(s.clients, i) ==> c.handshakeComplete == c.sessionComplete
  {
    var cs' := RemoveAt(s.clients, i);
    forall j | 0 <= j < |cs'| ensures cs'[j] == s.clients[if j < i then j else j + 1] {}
  }

  // One turn.

  lemma TouchConsistent(s: Server, i: nat)
    requires Consistent(s) && i < |s.clients|
    ensures Consistent(Touch(s, i))
  {
    var c := s.clients[i].(lastActivity := s.now);
    var p := PhaseOf(s.clients[i]);
    LogOkHere(s, i);
    FlagsOthers(s, i);
    EventKeeps(s, i, c, Heard(c.addr, c.session, s.now), p, p);
    BackToLogOk(Touch(s, i), i);
    FlagsSet(s, i, c);
  }

  lemma FlagsSet(s: Server, i: nat, c: Client)
    requires i < |s.clients| && OthersAgree(s, i) && c.handshakeComplete == c.sessionComplete
    ensures FlagsAgree(SetClient(s, i, c))
  {
  }

  lemma FlagsOthers(s: Server, i: nat)
    requires FlagsAgree(s) && i < |s.clients|
    ensures OthersAgree(s, i) && s.clients[i].handshakeComplete == s.clients[i].sessionComplete
  {
    forall j | 0 <= j < |s.clients| ensures s.clients[j].handshakeComplete == s.clients[j].sessionComplete {
      assert s.clients[j] in s.clients;
    }
  }

  lemma HandshakeConsistent(s: Server, i: nat, o: Oracle)
    requires Consistent(s) && i < |s.clients| && !s.clients[i].handshakeComplete
    ensures Consistent(HandshakeTurn(s, i, o))
  {
    var c, r, s1 := s.clients[i], HandshakeResult(o.ret), CallHandshake(s, i, o);
    var p, e := Handshaking(c.session), Handshook(c.addr, c.session, r);
    LogOkHere(s, i);
    FlagsOthers(s, i);
    EventKeeps(s, i, s1.clients[i], e, p, Advance(p, e).value);
    if r.Ok? {
      var s2 := SetClient(s1, i, s1.clients[i].(handshakeComplete := true));
      SetKeeps(s1, i, s2.clients[i], Established(c.session));
      FlagsSet(s1, i, s2.clients[i]);
      BackToLogOk(s2, i);
    } else if r.WouldBlock? {
      BackToLogOk(s1, i);
      FlagsSet(s, i, s1.clients[i]);
    } else {
      OthersRemain(s1, i);
      RemoveConsistent(Discard(s1), i, Doomed(c.session), Broken);
    }
  }

  lemma ReadKeeps(s: Server, i: nat, o: Oracle)
    requires Consistent(s) && i < |s.clients| && s.clients[i].handshakeComplete
    ensures var s1, x := CallRead(s, i, o), s.clients[i].session;
            && TableOk(s1) && LedgerOk(s1) && FlagsAgree(s1)
            && LogOkBut(s1, i, if Fine(ReadResult(o.ret)) then Established(x) else Doomed(x))
  {
    var c, r, s1 := s.clients[i], ReadResult(o.ret), CallRead(s, i, o);
    var p, e := Established(c.session), ReadData(c.addr, c.session, if r.Ok? then o.plaintext else [], r);
    LogOkHere(s, i);
    FlagsOthers(s, i);
    EventKeeps(s, i, s1.clients[i], e, p, Advance(p, e).value);
    FlagsSet(s, i, s1.clients[i]);
  }

  lemma WriteConsistent(s: Server, i: nat, o: Oracle)
    requires Consistent(s) && i < |s.clients| && s.clients[i].handshakeComplete
    ensures Consistent(WriteTurn(s, i, o))
  {
    var c, w, s1 := s.clients[i], WriteResult(o.writeRet), CallWrite(s, i, o);
    var p, e := Established(c.session), WroteData(c.addr, c.session, Reply(o.plaintext), BytesDone(o.writeRet), w);
    LogOkHere(s, i);
    FlagsOthers(s, i);
    EventKeeps(s, i, s1.clients[i], e, p, Advance(p, e).value);
    FlagsSet(s, i, s1.clients[i]);
    if Fine(w) {
      BackToLogOk(s1, i);
    } else {
      FlagsOthers(s1, i);
      OthersRemain(s1, i);
      RemoveConsistent(s1, i, Doomed(c.session), Broken);
    }
  }

  lemma DataConsistent(s: Server, i: nat, o: Oracle)
    requires Consistent(s) && i < |s.clients| && s.clients[i].handshakeComplete
    ensures Consistent(DataTurn(s, i, o))
  {
    var s1, r := CallRead(s, i, o), ReadResult(o.ret);
    ReadKeeps(s, i, o);
    FlagsOthers(s1, i);
    if Fine(r) {
      BackToLogOk(s1, i);
      if r.Ok? {
        WriteConsistent(s1, i, o);
      }
    } else {
      OthersRemain(s1, i);
      RemoveConsistent(if r.PeerClosed? then s1 else Discard(s1), i, Doomed(s.clients[i].session), Broken);
    }
  }

  lemma IterationConsistent(s: Server, o: Oracle)
    requires Consistent(s) && s.pending != []
    ensures Consistent(Iteration(s, o))
  {
    var a, s1 := s.pending[0], Meanwhile(s, o.arrivals, o.elapsed);
    assert Consistent(s1) by { SameTable(s, s1); }
    match FindOrAdd(s1, a, o.created)
    case None => SameTable(s1, Discard(s1));
    case Some(s2) =>
      if IndexOf(s1.clients, a) == |s1.clients| {
        AddConsistent(s1, a);
      }
      var i := IndexOf(s2.clients, a);
      TouchConsistent(s2, i);
      if s2.clients[i].handshakeComplete {
        DataConsistent(Touch(s2, i), i, o);
      } else {
        HandshakeConsistent(Touch(s2, i), i, o);
      }
  }

  lemma SameTable(s: Server, s': Server)
    requires Consistent(s) && s'.clients == s.clients && s'.nextSession == s.nextSession && s'.log == s.log
    ensures Consistent(s')
  {
  }

  // The timeout check and the shutdown, one removal after another.

  /** The traversal after its first i clients. */
  function PurgedTo(s: Server, i: nat, doom: Doom): Server
    requires i <= |s.clients|
  {
    s.(clients := Sweep(s.clients[..i], doom) + s.clients[i..], log := s.log + SweepEvents(s.clients[..i], doom))
  }

  lemma PurgeBegins(s: Server, doom: Doom)
    ensures PurgedTo(s, 0, doom) == s
  {
    assert s.clients[..0] == [] && [] + s.clients[0..] == s.clients && s.log + [] == s.log;
  }

  lemma PurgeEnds(s: Server, doom: Doom)
    ensures PurgedTo(s, |s.clients|, doom) == Purge(s, doom)
  {
    var n := |s.clients|;
    assert s.clients[..n] == s.clients && Sweep(s.clients, doom) + s.clients[n..] == Sweep(s.clients, doom);
  }

  /** What traversing c does to the kept clients before it and the rest after it. */
  lemma SweepPasses(kept: seq<Client>, c: Client, rest: seq<Client>)
    ensures RemoveAt(kept + ([c] + rest), |kept|) == kept + rest
    ensures (kept + ([c] + rest))[|kept|] == c
    ensures (kept + [c]) + rest == kept + ([c] + rest)
  {
  }

  /** Client i is removed or passed over. */
  lemma PurgeAdvances(s: Server, i: nat, doom: Doom) returns (k: nat)
    requires i < |s.clients|
    ensures k < |PurgedTo(s, i, doom).clients|
    ensures PurgedTo(s, i + 1, doom) ==
            if doom.Takes(s.clients[i]) then RemoveClient(PurgedTo(s, i, doom), k, Why(doom)) else PurgedTo(s, i, doom)
  {
    var init, c, rest := s.clients[..i], s.clients[i], s.clients[i + 1..];
    var kept := Sweep(init, doom);
    k := |kept|;
    assert s.clients[..i + 1] == init + [c] && s.clients[i..] == [c] + rest;
    SweepSnoc(init, c, doom);
    SweepEventsSnoc(init, c, doom);
    SweepPasses(kept, c, rest);
    if doom.Takes(c) {
      var e := Removed(c.addr, c.session, Why(doom));
      assert kept + [] == kept;
      assert s.log + (SweepEvents(init, doom) + [e]) == (s.log + SweepEvents(init, doom)) + [e];
    } else {
      assert SweepEvents(init, doom) + [] == SweepEvents(init, doom);
    }
  }

  lemma PassedConsistent(s: Server, s': Server, k: nat, takes: bool, reason: Reason)
    requires Consistent(s) && k < |s.clients| && !reason.Broken?
    requires s' == if takes then RemoveClient(s, k, reason) else s
    ensures Consistent(s')
  {
    if takes {
      RemoveListed(s, k, reason);
    }
  }

  lemma {:induction false} PurgedToConsistent(s: Server, i: nat, doom: Doom)
    requires Consistent(s) && i <= |s.clients|
    ensures Consistent(PurgedTo(s, i, doom))
    decreases i
  {
    if i == 0 {
      PurgeBegins(s, doom);
    } else {
      var k := PurgeAdvances(s, i - 1, doom);
      PurgedToConsistent(s, i - 1, doom);
      PassedConsistent(PurgedTo(s, i - 1, doom), PurgedTo(s, i, doom), k, doom.Takes(s.clients[i - 1]), Why(doom));
    }
  }

  lemma PurgeConsistent(s: Server, doom: Doom)
    requires Consistent(s)
    ensures Consistent(Purge(s, doom))
  {
    PurgedToConsistent(s, |s.clients|, doom);
    PurgeEnds(s, doom);
  }

  lemma {:induction false} EveryoneGoes(cs: seq<Client>)
    ensures Sweep(cs, Everyone) == []
  {
    if cs != [] {
      EveryoneGoes(cs[1..]);
    }
  }

  // Time.

  /** No listed client had been silent for more than 30 seconds at the last check. */
  ghost predicate TimeOk(s: Server) {
    && s.lastCheck <= s.lastTest <= s.now
    && s.lastTest - s.lastCheck < CHECK_INTERVAL
    && forall c :: c in s.clients ==> s.lastCheck - c.lastActivity <= CLIENT_TIMEOUT_SECONDS && c.lastActivity <= s.now
  }

  lemma RemoveTimeOk(s: Server, i: nat, reason: Reason)
    requires TimeOk(s) && i < |s.clients|
    ensures TimeOk(RemoveClient(s, i, reason))
  {
    forall c | c in RemoveAt(s.clients, i) ensures c in s.clients {
      RemoveSubset(s.clients, i, c);
    }
  }

  lemma SetTimeOk(s: Server, i: nat, c: Client)
    requires TimeOk(s) && i < |s.clients|
    requires c.lastActivity == s.clients[i].lastActivity || c.lastActivity == s.now
    ensures TimeOk(SetClient(s, i, c))
  {
    forall d | d in s.clients[i := c] ensures d == c || d in s.clients {}
    assert s.clients[i] in s.clients;
  }

  lemma HandshakeTimeOk(s: Server, i: nat, o: Oracle)
    requires TimeOk(s) && i < |s.clients|
    ensures TimeOk(HandshakeTurn(s, i, o))
  {
    var s1 := CallHandshake(s, i, o);
    SetTimeOk(s, i, s1.clients[i]);
    SetTimeOk(s1, i, s1.clients[i].(handshakeComplete := true));
    RemoveTimeOk(Discard(s1), i, Broken);
  }

  lemma DataTimeOk(s: Server, i: nat, o: Oracle)
    requires TimeOk(s) && i < |s.clients|
    ensures TimeOk(DataTurn(s, i, o))
  {
    var s1 := CallRead(s, i, o);
    SetTimeOk(s, i, s1.clients[i]);
    RemoveTimeOk(s1, i, Broken);
    RemoveTimeOk(Discard(s1), i, Broken);
    var s2 := CallWrite(s1, i, o);
    SetTimeOk(s1, i, s2.clients[i]);
    RemoveTimeOk(s2, i, Broken);
  }

  lemma IterationTimeOk(s: Server, o: Oracle)
    requires TimeOk(s) && s.pending != []
    ensures TimeOk(Iteration(s, o))
  {
    var a, s1 := s.pending[0], Meanwhile(s, o.arrivals, o.elapsed);
    match FindOrAdd(s1, a, o.created)
    case None =>
    case Some(s2) =>
      forall c | c in s2.clients ensures c in s1.clients || c.lastActivity == s1.now {}
      var i := IndexOf(s2.clients, a);
      SetTimeOk(s2, i, s2.clients[i].(lastActivity := s2.now));
      HandshakeTimeOk(Touch(s2, i), i, o);
      DataTimeOk(Touch(s2, i), i, o);
  }

  lemma TestTimeOk(s: Server, elapsed: nat, sweepDelay: nat)
    requires TimeOk(s)
    ensures TimeOk(TimeoutTest(s, elapsed, sweepDelay))
  {
    var doom := Overdue(s.now + elapsed + sweepDelay);
    forall c | c in Sweep(s.clients, doom) ensures c in s.clients && !doom.Takes(c) {
      SweepMembers(s.clients, doom, c);
    }
  }

  // What lastActivity means.

  /** lastActivity is when a datagram from the client was last peeked. */
  ghost predicate HeardOk(s: Server) {
    forall i :: 0 <= i < |s.clients| ==> HeardAt(s, i)
  }

  ghost predicate HeardAt(s: Server, i: nat)
    requires i < |s.clients|
  {
    LastHeard(s.log, s.clients[i].session) == Some(s.clients[i].lastActivity)
  }

  lemma HeardAppend(log: seq<Event>, e: Event, x: nat)
    ensures LastHeard(log + [e], x) == if e.Heard? && e.session == x then Some(e.at) else LastHeard(log, x)
  {
    assert (log + [e])[..|log + [e]| - 1] == log;
  }

  lemma TouchHeard(s: Server, i: nat)
    requires DistinctSessions(s.clients) && i < |s.clients|
    requires forall j :: 0 <= j < |s.clients| && j != i ==> HeardAt(s, j)
    ensures HeardOk(Touch(s, i))
  {
    var s', c := Touch(s, i), s.clients[i];
    forall j | 0 <= j < |s'.clients| ensures HeardAt(s', j) {
      HeardAppend(s.log, Heard(c.addr, c.session, s.now), s.clients[j].session);
      if j != i {
        assert s.clients[j].session != c.session && HeardAt(s, j);
      }
    }
  }

  /** Other events, and changes that keep session and lastActivity, keep it. */
  lemma EventHeard(s: Server, i: nat, c: Client, e: Event)
    requires HeardOk(s) && i < |s.clients| && !e.Heard?
    requires c.session == s.clients[i].session && c.lastActivity == s.clients[i].lastActivity
    ensures HeardOk(AddEvent(SetClient(s, i, c), e))
  {
    var s' := AddEvent(SetClient(s, i, c), e);
    forall j | 0 <= j < |s'.clients| ensures HeardAt(s', j) {
      HeardAppend(s.log, e, s.clients[j].session);
      assert HeardAt(s, j);
    }
  }

  lemma RemoveHeard(s: Server, i: nat, reason: Reason)
    requires HeardOk(s) && i < |s.clients|
    ensures HeardOk(RemoveClient(s, i, reason))
  {
    var s' := RemoveClient(s, i, reason);
    forall j | 0 <= j < |s'.clients| ensures HeardAt(s', j) {
      var k := if j < i then j else j + 1;
      assert s'.clients[j] == s.clients[k] && HeardAt(s, k);
      HeardAppend(s.log, s'.log[|s.log|], s.clients[k].session);
    }
  }

  lemma SameHeard(s: Server, s': Server)
    requires HeardOk(s) && s'.clients == s.clients && s'.log == s.log
    ensures HeardOk(s')
  {
    forall j | 0 <= j < |s'.clients| ensures HeardAt(s', j) {
      assert HeardAt(s, j);
    }
  }

  lemma HandshakeHeard(s: Server, i: nat, o: Oracle)
    requires HeardOk(s) && i < |s.clients|
    ensures HeardOk(HandshakeTurn(s, i, o))
  {
    var c, r, s1 := s.clients[i], HandshakeResult(o.ret), CallHandshake(s, i, o);
    EventHeard(s, i, s1.clients[i], Handshook(c.addr, c.session, r));
    SameHeard(AddEvent(SetClient(s, i, s1.clients[i]), Handshook(c.addr, c.session, r)), s1);
    if r.Ok? {
      var s2 := SetClient(s1, i, s1.clients[i].(handshakeComplete := true));
      forall j | 0 <= j < |s2.clients| ensures HeardAt(s2, j) {
        assert HeardAt(s1, j);
      }
      SameHeard(s2, Discard(s2));
    } else {
      SameHeard(s1, Discard(s1));
      RemoveHeard(Discard(s1), i, Broken);
    }
  }

  lemma WriteHeard(s: Server, i: nat, o: Oracle)
    requires HeardOk(s) && i < |s.clients|
    ensures HeardOk(WriteTurn(s, i, o))
  {
    var c, s1 := s.clients[i], CallWrite(s, i, o);
    var e := WroteData(c.addr, c.session, Reply(o.plaintext), BytesDone(o.writeRet), WriteResult(o.writeRet));
    EventHeard(s, i, s1.clients[i], e);
    SameHeard(AddEvent(SetClient(s, i, s1.clients[i]), e), s1);
    RemoveHeard(s1, i, Broken);
  }

  lemma DataHeard(s: Server, i: nat, o: Oracle)
    requires HeardOk(s) && i < |s.clients|
    ensures HeardOk(DataTurn(s, i, o))
  {
    var c, r, s1 := s.clients[i], ReadResult(o.ret), CallRead(s, i, o);
    var e := ReadData(c.addr, c.session, if r.Ok? then o.plaintext else [], r);
    EventHeard(s, i, s1.clients[i], e);
    SameHeard(AddEvent(SetClient(s, i, s1.clients[i]), e), s1);
    if r.Ok? {
      WriteHeard(s1, i, o);
    } else {
      SameHeard(s1, Discard(s1));
      RemoveHeard(Discard(s1), i, Broken);
      RemoveHeard(s1, i, Broken);
    }
  }

  lemma IterationHeard(s: Server, o: Oracle)
    requires HeardOk(s) && Consistent(s) && s.pending != []
    ensures HeardOk(Iteration(s, o))
  {
    var a, s1 := s.pending[0], Meanwhile(s, o.arrivals, o.elapsed);
    SameHeard(s, s1);
    assert Consistent(s1) by { SameTable(s, s1); }
    match FindOrAdd(s1, a, o.created)
    case None => SameHeard(s1, Discard(s1));
    case Some(s2) =>
      var i := IndexOf(s2.clients, a);
      if IndexOf(s1.clients, a) == |s1.clients| {
        AddConsistent(s1, a);
        forall j | 0 < j < |s2.clients| ensures HeardAt(s2, j) {
          assert s2.clients[j] == s1.clients[j - 1] && HeardAt(s1, j - 1);
          HeardAppend(s1.log, Created(a, s1.nextSession), s2.clients[j].session);
        }
      }
      TouchHeard(s2, i);
      HandshakeHeard(Touch(s2, i), i, o);
      DataHeard(Touch(s2, i), i, o);
  }

  lemma PassedHeard(s: Server, s': Server, k: nat, takes: bool, reason: Reason)
    requires HeardOk(s) && k < |s.clients| && s' == if takes then RemoveClient(s, k, reason) else s
    ensures HeardOk(s')
  {
    if takes {
      RemoveHeard(s, k, reason);
    }
  }

  lemma {:induction false} PurgedToHeard(s: Server, i: nat, doom: Doom)
    requires HeardOk(s) && i <= |s.clients|
    ensures HeardOk(PurgedTo(s, i, doom))
    decreases i
  {
    if i == 0 {
      PurgeBegins(s, doom);
    } else {
      var k := PurgeAdvances(s, i - 1, doom);
      PurgedToHeard(s, i - 1, doom);
      PassedHeard(PurgedTo(s, i - 1, doom), PurgedTo(s, i, doom), k, doom.Takes(s.clients[i - 1]), Why(doom));
    }
  }

  lemma PurgeHeard(s: Server, doom: Doom)
    requires HeardOk(s)
    ensures HeardOk(Purge(s, doom))
  {
    PurgedToHeard(s, |s.clients|, doom);
    PurgeEnds(s, doom);
  }

  // Every step.

  ghost predicate Inv(s: Server) {
    && Consistent(s) && TimeOk(s) && HeardOk(s)
    && (s.place.Down? ==> s.clients == [])
  }

  /** Once the server is down nothing but the world outside moves. */
  lemma StepInv(s: Server, l: Label)
    requires Inv(s) && Enabled(s, l)
    ensures Inv(Step(s, l))
  {
    match l
    case Polled(_, elapsed, sweepDelay) => PolledInv(s, l);
    case Datagram(o) =>
      IterationConsistent(s, o);
      IterationTimeOk(s, o);
      IterationHeard(s, o);
      IterationStays(s, o);
    case Stop =>
      EveryoneGoes(s.clients);
      PurgeConsistent(s, Everyone);
      SameTable(Purge(s, Everyone), Step(s, l));
    case _ =>
      SameTable(s, Step(s, l));
      SameHeard(s, Step(s, l));
  }

  lemma PolledInv(s: Server, l: Label)
    requires Inv(s) && l.Polled? && Enabled(s, l)
    ensures Inv(Step(s, l))
  {
    TestTimeOk(s, l.elapsed, l.sweepDelay);
    var s' := Step(s, l);
    if s.now + l.elapsed - s.lastCheck >= CHECK_INTERVAL {
      var doom := Overdue(s.now + l.elapsed + l.sweepDelay);
      PurgeConsistent(s, doom);
      PurgeHeard(s, doom);
      SameTable(Purge(s, doom), s');
      SameHeard(Purge(s, doom), s');
    } else {
      SameTable(s, s');
      SameHeard(s, s');
    }
  }

  lemma IterationStays(s: Server, o: Oracle)
    requires s.pending != []
    ensures Iteration(s, o).place == s.place
    ensures Iteration(s, o).lastCheck == s.lastCheck && Iteration(s, o).lastTest == s.lastTest
  {
  }

  lemma BootInv(now: int)
    ensures Inv(Boot(now))
  {
  }

  lemma {:induction false} RunInv(s: Server, ls: seq<Label>)
    requires Inv(s) && IsRun(s, ls)
    ensures Inv(After(s, ls))
    decreases |ls|
  {
    if ls != [] {
      StepInv(s, ls[0]);
      RunInv(Step(s, ls[0]), ls[1..]);
    }
  }

  // Putting runs together.

  /** The labels lead from s to t. */
  ghost predicate RunTo(s: Server, ls: seq<Label>, t: Server) {
    IsRun(s, ls) && After(s, ls) == t
  }

  lemma {:induction false} RunConcat(s: Server, ls: seq<Label>, t: Server,
                                     more: seq<Label>, u: Server)
    requires RunTo(s, ls, t) && RunTo(t, more, u)
    ensures RunTo(s, ls + more, u)
    decreases |ls|
  {
    if ls == [] {
      assert ls + more == more;
    } else {
      assert (ls + more)[1..] == ls[1..] + more;
      RunConcat(Step(s, ls[0]), ls[1..], t, more, u);
    }
  }

  lemma RunExtend(s: Server, ls: seq<Label>, t: Server, l: Label)
    requires RunTo(s, ls, t) && Enabled(t, l)
    ensures RunTo(s, ls + [l], Step(t, l))
  {
    var u := Step(t, l);
    assert [l][1..] == [];
    assert IsRun(u, []) && After(u, []) == u;
    RunConcat(s, ls, t, [l], u);
  }
}
