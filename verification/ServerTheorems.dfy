/** What holds over every run of the server, whatever mbed TLS, the network and the clock do. */
module ServerTheorems {
  import opened Portability
  import opened Wire
  import opened Dtls
  import opened Clients
  import opened ServerModel
  import opened ServerInvariant

  ghost predicate Reaches(now: int, ls: seq<Label>, s: Server) {
    IsRun(Boot(now), ls) && s == After(Boot(now), ls)
  }

  lemma ReachedInv(now: int, ls: seq<Label>, s: Server)
    requires Reaches(now, ls, s)
    ensures Inv(s)
  {
    BootInv(now);
    RunInv(Boot(now), ls);
  }

  // The session table.

  lemma {:induction false} MapSize(cs: seq<Client>)
    requires DistinctKeys(cs)
    ensures |AsMap(cs)| == |cs|
  {
    if cs != [] {
      MapSize(cs[1..]);
      FindIsLookup(cs[1..], cs[0].addr);
    }
  }

  /** In every reachable state keys and sessions are distinct, find_client is lookup in a map
      as large as the list, and sessions created less sessions destroyed is its length. */
  lemma TableInvariant(now: int, ls: seq<Label>, s: Server, a: Addr)
    requires Reaches(now, ls, s)
    ensures DistinctKeys(s.clients) && DistinctSessions(s.clients)
    ensures |AsMap(s.clients)| == |s.clients| == CreatedTotal(s.log) - RemovedTotal(s.log)
    ensures var i := IndexOf(s.clients, a);
            if a in AsMap(s.clients) then i < |s.clients| && s.clients[i] == AsMap(s.clients)[a] else i == |s.clients|
  {
    ReachedInv(now, ls, s);
    MapSize(s.clients);
    FindIsLookup(s.clients, a);
  }

  /** Every session number is created at most once, destroyed at most once and only after
      being created, and is in the list exactly in between. */
  lemma SessionsOnce(now: int, ls: seq<Label>, s: Server, x: nat)
    requires Reaches(now, ls, s)
    ensures Removals(s.log, x) <= Creations(s.log, x) <= 1
    ensures Live(s.clients, x) <==> Creations(s.log, x) == 1 && Removals(s.log, x) == 0
  {
    ReachedInv(now, ls, s);
    assert SessionOk(s.clients, s.nextSession, s.log, x);
    if i :| 0 <= i < |s.clients| && s.clients[i].session == x {
      assert s.clients[i] in s.clients;
    }
  }

  /** After the shutdown loop the list is empty and every session ever created has been
      destroyed exactly once. */
  lemma ShutdownDestroysAll(now: int, ls: seq<Label>, s: Server, x: nat)
    requires Reaches(now, ls, s) && s.place.Down?
    ensures s.clients == []
    ensures Removals(s.log, x) == Creations(s.log, x)
    ensures RemovedTotal(s.log) == CreatedTotal(s.log)
  {
    ReachedInv(now, ls, s);
    assert SessionOk(s.clients, s.nextSession, s.log, x);
  }

  // The protocol of one address.

  /** Each address's events keep to the protocol, and where they stand is what the table
      says: nothing listed, handshaking, or established, with the two flags in agreement. */
  lemma ProtocolTrace(now: int, ls: seq<Label>, s: Server, a: Addr)
    requires Reaches(now, ls, s)
    ensures PhaseAfter(s.log, a).Some?
    ensures PhaseAfter(s.log, a).value ==
            if a !in AsMap(s.clients) then Absent
            else if AsMap(s.clients)[a].handshakeComplete then Established(AsMap(s.clients)[a].session)
            else Handshaking(AsMap(s.clients)[a].session)
    ensures a in AsMap(s.clients) ==>
              AsMap(s.clients)[a].handshakeComplete == AsMap(s.clients)[a].sessionComplete
  {
    ReachedInv(now, ls, s);
    FindIsLookup(s.clients, a);
  }

  ghost predicate CompletedEarlier(log: seq<Event>, i: nat, a: Addr, x: nat) {
    i <= |log| &&
    exists j :: 0 <= j < i && log[j] == Handshook(a, x, Ok) && NoneRemoved(log, j, i, a)
  }

  predicate NoneRemoved(log: seq<Event>, j: nat, i: nat, a: Addr) {
    forall k :: j <= k < i && k < |log| && log[k].addr == a ==> !log[k].Removed?
  }

  lemma {:induction false} PhasePrefix(log: seq<Event>, i: nat, a: Addr)
    requires i <= |log| && PhaseAfter(log, a).Some?
    ensures PhaseAfter(log[..i], a).Some?
    decreases |log|
  {
    if i == |log| {
      assert log[..i] == log;
    } else {
      var init := log[..|log| - 1];
      PhasePrefix(init, i, a);
      assert init[..i] == log[..i];
    }
  }

  /** Being established rests on a completed handshake of the same session. */
  lemma {:induction false} EstablishedRestsOn(log: seq<Event>, a: Addr, x: nat) returns (j: nat)
    requires PhaseAfter(log, a) == Some(Established(x))
    ensures j < |log| && log[j] == Handshook(a, x, Ok) && NoneRemoved(log, j, |log|, a)
    decreases |log|
  {
    var init, e := log[..|log| - 1], log[|log| - 1];
    if e == Handshook(a, x, Ok) {
      j := |log| - 1;
    } else {
      j := EstablishedRestsOn(init, a, x);
      assert NoneRemoved(init, j, |init|, a);
    }
  }

  /** Application data is read or written only in a session whose handshake has completed
      since the client was last added. */
  lemma DataFollowsHandshake(now: int, ls: seq<Label>, s: Server, i: nat)
    requires Reaches(now, ls, s) && i < |s.log| && (s.log[i].ReadData? || s.log[i].WroteData?)
    ensures CompletedEarlier(s.log, i, s.log[i].addr, s.log[i].session)
  {
    var e, before, upto := s.log[i], s.log[..i], s.log[..i + 1];
    ProtocolTrace(now, ls, s, e.addr);
    PhasePrefix(s.log, i + 1, e.addr);
    assert upto[..i] == before;
    var j := EstablishedRestsOn(before, e.addr, e.session);
    assert s.log[j] == before[j];
    assert NoneRemoved(before, j, i, e.addr);
  }

  // Staleness.

  /** Just before lines 298-303 run, no listed client has been silent, counting from the last
      datagram peeked from it, for longer than 34 seconds plus the time since those lines ran
      last. */
  lemma StalenessBound(now: int, ls: seq<Label>, s: Server, l: Label, c: Client)
    requires Reaches(now, ls, s) && l.Polled? && Enabled(s, l) && c in s.clients
    ensures LastHeard(s.log, c.session) == Some(c.lastActivity)
    ensures (s.now + l.elapsed) - c.lastActivity <= 34 + (s.now + l.elapsed - s.lastTest)
    ensures Step(s, l).lastTest == s.now + l.elapsed
  {
    ReachedInv(now, ls, s);
    var i :| 0 <= i < |s.clients| && s.clients[i] == c;
    assert HeardAt(s, i);
  }

  /** The bound is attained: a client is 34 + d seconds silent before a test that comes d
      seconds after the last. */
  lemma StalenessAttained(now: int, d: nat) returns (ls: seq<Label>, s: Server, c: Client)
    ensures Reaches(now, ls, s) && s.place.Polling? && c in s.clients
    ensures (s.now + d) - s.lastTest == d
    ensures (s.now + d) - c.lastActivity == 34 + d
  {
    var a := Addr(1, 1);
    var o := Oracle([], 0, true, 0, WantRead, [], 0, 0, WantRead, 0);
    c := Client(a, 0, now, false, false, 0);
    var s0 := Boot(now);
    var s1 := Step(s0, Elapse([a], 0));
    RunExtend(s0, [], s0, Elapse([a], 0));
    var s2 := Step(s1, Polled(1, 0, 0));
    RunExtend(s0, [] + [Elapse([a], 0)], s1, Polled(1, 0, 0));
    var l2 := [] + [Elapse([a], 0)] + [Polled(1, 0, 0)];
    var s3 := Step(s2, Datagram(o));
    RunExtend(s0, l2, s2, Datagram(o));
    assert s3.clients == [c];
    var more;
    more, s := QuietRounds(s3, c);
    ls := l2 + [Datagram(o)] + more;
    RunConcat(s0, l2 + [Datagram(o)], s3, more, s);
  }

  lemma SweepOne(c: Client, doom: Doom)
    requires !doom.Takes(c)
    ensures Sweep([c], doom) == [c]
  {
    assert [c][1..] == [];
  }

  /** Back to epoll_wait, a poll without events, and the loop over none. */
  lemma QuietPoll(s: Server, c: Client, elapsed: nat) returns (t: Server)
    requires s.clients == [c] && s.place == Draining(0) && s.now + elapsed - c.lastActivity <= 34
    requires s.now + elapsed - s.lastCheck < CHECK_INTERVAL || s.now + elapsed - c.lastActivity <= 30
    ensures RunTo(s, [BackToPoll] + [Polled(0, elapsed, 0)], t) && t.place == Draining(0) && t.clients == [c]
    ensures t.now == t.lastTest == s.now + elapsed
    ensures t.lastCheck == if s.now + elapsed - s.lastCheck < CHECK_INTERVAL then s.lastCheck else s.now + elapsed
  {
    var l := Polled(0, elapsed, 0);
    var s1 := s.(place := Polling);
    assert RunTo(s, [], s);
    RunExtend(s, [], s, BackToPoll);
    if s.now + elapsed - s.lastCheck >= CHECK_INTERVAL {
      SweepOne(c, Overdue(s.now + elapsed));
    }
    t := Step(s1, l);
    RunExtend(s, [BackToPoll], s1, l);
  }

  /** Two timeout tests, 30 and 34 seconds after the only client was last heard. */
  lemma QuietRounds(s: Server, c: Client) returns (ls: seq<Label>, t: Server)
    requires s.clients == [c] && s.place == Draining(1)
    requires s.now == s.lastCheck == s.lastTest == c.lastActivity
    ensures RunTo(s, ls, t) && t.place.Polling? && t.clients == [c]
    ensures t.now == t.lastTest == s.now + 34
  {
    var s1 := s.(place := Draining(0));
    RunExtend(s, [], s, Drained(true));
    ls := [] + [Drained(true)];
    var s2 := QuietPoll(s1, c, 30);
    RunConcat(s, ls, s1, [BackToPoll] + [Polled(0, 30, 0)], s2);
    ls := ls + ([BackToPoll] + [Polled(0, 30, 0)]);
    var s3 := QuietPoll(s2, c, 4);
    RunConcat(s, ls, s2, [BackToPoll] + [Polled(0, 4, 0)], s3);
    ls := ls + ([BackToPoll] + [Polled(0, 4, 0)]);
    t := s3.(place := Polling);
    RunExtend(s, ls, s3, BackToPoll);
    ls := ls + [BackToPoll];
  }

  /** A check leaves exactly the clients silent for at most 30 seconds, in their order, and is
      made exactly when the last was made at least 5 seconds ago. */
  lemma CheckLeavesFresh(s: Server, l: Label, c: Client)
    requires l.Polled? && Enabled(s, l)
    ensures s.now + l.elapsed - s.lastCheck >= 5 ==>
              && (c in Step(s, l).clients <==>
                    c in s.clients && (s.now + l.elapsed + l.sweepDelay) - c.lastActivity <= 30)
              && Step(s, l).clients == Sweep(s.clients, Overdue(s.now + l.elapsed + l.sweepDelay))
              && Step(s, l).lastCheck == s.now + l.elapsed
    ensures s.now + l.elapsed - s.lastCheck < 5 ==>
              Step(s, l).clients == s.clients && Step(s, l).lastCheck == s.lastCheck
  {
    SweepMembers(s.clients, Overdue(s.now + l.elapsed + l.sweepDelay), c);
  }

  // Replies.

  predicate IsMessage(e: Event) { e.ReadData? && e.result.Ok? }

  /** `wrote` is the attempt to send the reply to the message `read`. */
  predicate ReplyTo(read: Event, wrote: Event) {
    && IsMessage(read) && wrote.WroteData?
    && read.addr == wrote.addr && read.session == wrote.session && wrote.data == Reply(read.data)
  }

  /** What becomes of the attempt at event i: (part of) the reply is accepted, or nothing is and
      the client stays, or nothing is and the client is removed at once. */
  predicate Attempted(log: seq<Event>, i: nat)
    requires i < |log| && log[i].WroteData?
  {
    var e := log[i];
    || (e.result.Ok? && 0 < e.written <= |e.data|)
    || (e.result.WouldBlock? && e.written == 0)
    || (e.result.ErrWrite? && i + 1 < |log| && log[i + 1] == Removed(e.addr, e.session, Broken))
  }

  /** Each message is followed at once by the one attempt to send its reply, nothing else is
      ever written, and each attempt ends in one of three ways. */
  ghost predicate AllAttempted(log: seq<Event>) {
    && (forall i :: 0 <= i < |log| && log[i].WroteData? ==>
          i > 0 && ReplyTo(log[i - 1], log[i]) && Attempted(log, i))
    && (forall i :: 0 <= i < |log| && IsMessage(log[i]) ==> i + 1 < |log| && log[i + 1].WroteData?)
  }

  /** mbed TLS has taken the whole reply. */
  predicate Accepted(e: Event) {
    e.WroteData? ==> e.result.Ok? && e.written == |e.data|
  }

  ghost predicate AllAccepted(log: seq<Event>) {
    forall i :: 0 <= i < |log| ==> Accepted(log[i])
  }

  lemma AttemptedConcat(log: seq<Event>, more: seq<Event>)
    requires AllAttempted(log) && AllAttempted(more)
    ensures AllAttempted(log + more)
  {
    var all := log + more;
    forall i | 0 <= i < |all| && all[i].WroteData?
      ensures i > 0 && ReplyTo(all[i - 1], all[i]) && Attempted(all, i)
    {
      AttemptStands(log, more, i);
    }
    forall i | 0 <= i < |all| && IsMessage(all[i])
      ensures i + 1 < |all| && all[i + 1].WroteData?
    {
      if i >= |log| {
        assert all[i] == more[i - |log|];
        assert all[i + 1] == more[i + 1 - |log|];
      } else {
        assert all[i] == log[i];
        assert all[i + 1] == log[i + 1];
      }
    }
  }

  lemma AttemptStands(log: seq<Event>, more: seq<Event>, i: nat)
    requires AllAttempted(log) && AllAttempted(more)
    requires i < |log + more| && (log + more)[i].WroteData?
    ensures i > 0 && ReplyTo((log + more)[i - 1], (log + more)[i]) && Attempted(log + more, i)
  {
    var all := log + more;
    if i >= |log| {
      var j := i - |log|;
      assert all[i] == more[j];
      assert ReplyTo(more[j - 1], more[j]) && Attempted(more, j);
      assert all[i - 1] == more[j - 1];
      assert j + 1 < |more| ==> all[i + 1] == more[j + 1];
    } else {
      assert all[i] == log[i];
      assert ReplyTo(log[i - 1], log[i]) && Attempted(log, i);
      assert all[i - 1] == log[i - 1];
      assert i + 1 < |log| ==> all[i + 1] == log[i + 1];
    }
  }

  /** The events of the reply to one message. */
  function ReplyEvents(c: Client, o: Oracle): seq<Event> {
    var w := WriteResult(o.writeRet);
    [ReadData(c.addr, c.session, o.plaintext, Ok),
     WroteData(c.addr, c.session, Reply(o.plaintext), BytesDone(o.writeRet), w)]
    + if Fine(w) then [] else [Removed(c.addr, c.session, Broken)]
  }

  /** The events of one turn of client i, after it has been heard. */
  function TurnEvents(c: Client, o: Oracle): seq<Event> {
    var gone := [Removed(c.addr, c.session, Broken)];
    if c.handshakeComplete then
      var r := ReadResult(o.ret);
      if r.Ok? then ReplyEvents(c, o)
      else [ReadData(c.addr, c.session, [], r)] + if Fine(r) then [] else gone
    else
      var r := HandshakeResult(o.ret);
      [Handshook(c.addr, c.session, r)] + if Fine(r) then [] else gone
  }

  lemma DataTurnLogs(s: Server, i: nat, o: Oracle)
    requires i < |s.clients| && s.clients[i].handshakeComplete
    ensures DataTurn(s, i, o).log == s.log + TurnEvents(s.clients[i], o)
  {
  }

  lemma HandshakeTurnLogs(s: Server, i: nat, o: Oracle)
    requires i < |s.clients| && !s.clients[i].handshakeComplete
    ensures HandshakeTurn(s, i, o).log == s.log + TurnEvents(s.clients[i], o)
  {
  }

  lemma TurnLogs(s: Server, i: nat, o: Oracle)
    requires i < |s.clients|
    ensures var c := s.clients[i];
            Turn(s, i, o).log == s.log + [Heard(c.addr, c.session, s.now)] + TurnEvents(c, o)
  {
    if s.clients[i].handshakeComplete {
      DataTurnLogs(Touch(s, i), i, o);
    } else {
      HandshakeTurnLogs(Touch(s, i), i, o);
    }
  }

  /** The write's contract: at most the whole reply, and as much as the result says. */
  lemma ReplyAttempted(c: Client, o: Oracle)
    requires 0 < |o.plaintext| && BytesDone(o.writeRet) <= |o.plaintext|
    ensures AllAttempted(ReplyEvents(c, o))
    ensures AllAccepted(ReplyEvents(c, o)) <==> o.writeRet == Value(|o.plaintext|)
  {
    var es := ReplyEvents(c, o);
    ReplyProperties(o.plaintext);
    assert ReplyTo(es[0], es[1]) && Attempted(es, 1);
    assert Accepted(es[1]) <==> o.writeRet == Value(|o.plaintext|);
  }

  /** Iteration o is a message whose reply mbed TLS does not take whole. */
  predicate LosesReply(s: Server, o: Oracle)
    requires s.pending != []
  {
    var i := IndexOf(s.clients, s.pending[0]);
    && i < |s.clients| && s.clients[i].handshakeComplete && ReadResult(o.ret).Ok?
    && o.writeRet != Value(|o.plaintext|)
  }

  lemma TurnAttempted(c: Client, o: Oracle)
    requires c.handshakeComplete && ReadResult(o.ret).Ok? ==>
               |o.plaintext| == o.ret.n && BytesDone(o.writeRet) <= |o.plaintext|
    ensures AllAttempted(TurnEvents(c, o))
    ensures AllAccepted(TurnEvents(c, o)) <==>
            !(c.handshakeComplete && ReadResult(o.ret).Ok? && o.writeRet != Value(|o.plaintext|))
  {
    if c.handshakeComplete && ReadResult(o.ret).Ok? {
      ReplyAttempted(c, o);
    }
  }

  lemma AcceptedConcat(log: seq<Event>, more: seq<Event>)
    ensures AllAccepted(log + more) <==> AllAccepted(log) && AllAccepted(more)
  {
    forall i | 0 <= i < |more| ensures (log + more)[|log| + i] == more[i] {}
    forall i | 0 <= i < |log| ensures (log + more)[i] == log[i] {}
  }

  /** The events of a turn of client i, from the peek on. */
  lemma HeardTurnLogs(s: Server, i: nat, o: Oracle, before: seq<Event>) returns (more: seq<Event>)
    requires i < |s.clients| && AllAttempted(before) && AllAccepted(before)
    requires s.clients[i].handshakeComplete && ReadResult(o.ret).Ok? ==>
               |o.plaintext| == o.ret.n && BytesDone(o.writeRet) <= |o.plaintext|
    ensures forall log :: s.log == log + before ==> Turn(s, i, o).log == log + more
    ensures AllAttempted(more)
    ensures AllAccepted(more) <==>
            !(s.clients[i].handshakeComplete && ReadResult(o.ret).Ok? && o.writeRet != Value(|o.plaintext|))
  {
    var c := s.clients[i];
    var heard := [Heard(c.addr, c.session, s.now)];
    TurnLogs(s, i, o);
    TurnAttempted(c, o);
    AttemptedConcat(before, heard);
    AcceptedConcat(before, heard);
    AttemptedConcat(before + heard, TurnEvents(c, o));
    AcceptedConcat(before + heard, TurnEvents(c, o));
    more := before + heard + TurnEvents(c, o);
    forall log | s.log == log + before
      ensures Turn(s, i, o).log == log + more
    {
      assert log + before + heard + TurnEvents(c, o) == log + more;
    }
  }

  /** The events an iteration adds. */
  lemma IterationLogs(s: Server, o: Oracle) returns (more: seq<Event>)
    requires s.pending != [] && Permits(s, o)
    ensures Iteration(s, o).log == s.log + more
    ensures AllAttempted(more) && (AllAccepted(more) <==> !LosesReply(s, o))
  {
    var a, s1 := s.pending[0], Meanwhile(s, o.arrivals, o.elapsed);
    assert s.log + [] == s.log;
    if IndexOf(s.clients, a) < |s.clients| {
      more := HeardTurnLogs(s1, IndexOf(s.clients, a), o, []);
    } else if o.created {
      var s2 := AddClient(s1, a);
      assert IndexOf(s2.clients, a) == 0;
      more := HeardTurnLogs(s2, 0, o, [Created(a, s1.nextSession)]);
    } else {
      more := [];
    }
  }

  lemma {:induction false} SweepAttempted(cs: seq<Client>, doom: Doom)
    ensures AllAttempted(SweepEvents(cs, doom)) && AllAccepted(SweepEvents(cs, doom))
  {
    if cs != [] {
      var first := if doom.Takes(cs[0]) then [Removed(cs[0].addr, cs[0].session, Why(doom))] else [];
      SweepAttempted(cs[1..], doom);
      AttemptedConcat(first, SweepEvents(cs[1..], doom));
      AcceptedConcat(first, SweepEvents(cs[1..], doom));
    }
  }

  /** No iteration of the run loses a reply: a condition on what the writes return. */
  ghost predicate NoReplyLost(s: Server, ls: seq<Label>)
    requires IsRun(s, ls)
    decreases |ls|
  {
    ls != [] ==> (ls[0].Datagram? ==> !LosesReply(s, ls[0].oracle)) && NoReplyLost(Step(s, ls[0]), ls[1..])
  }

  lemma StepLogs(s: Server, l: Label) returns (more: seq<Event>)
    requires Enabled(s, l)
    ensures Step(s, l).log == s.log + more
    ensures AllAttempted(more) && (AllAccepted(more) <==> (l.Datagram? ==> !LosesReply(s, l.oracle)))
  {
    more := [];
    match l
    case Polled(_, elapsed, sweepDelay) =>
      var doom := Overdue(s.now + elapsed + sweepDelay);
      SweepAttempted(s.clients, doom);
      more := if s.now + elapsed - s.lastCheck >= CHECK_INTERVAL then SweepEvents(s.clients, doom) else [];
    case Datagram(o) => more := IterationLogs(s, o);
    case Stop =>
      SweepAttempted(s.clients, Everyone);
      more := SweepEvents(s.clients, Everyone);
    case _ =>
  }

  lemma {:induction false} RunAttempted(s: Server, ls: seq<Label>)
    requires AllAttempted(s.log) && IsRun(s, ls)
    ensures AllAttempted(After(s, ls).log)
    ensures AllAccepted(After(s, ls).log) <==> AllAccepted(s.log) && NoReplyLost(s, ls)
    decreases |ls|
  {
    if ls != [] {
      var more := StepLogs(s, ls[0]);
      AttemptedConcat(s.log, more);
      AcceptedConcat(s.log, more);
      RunAttempted(Step(s, ls[0]), ls[1..]);
    }
  }

  /** Over any run the reply to every message read, Reply of what was read, is attempted once,
      in the same session, before anything else happens; nothing else is ever written; and a
      failed attempt removes the client. */
  lemma EveryReplyAttempted(now: int, ls: seq<Label>, s: Server)
    requires Reaches(now, ls, s)
    ensures AllAttempted(s.log)
  {
    RunAttempted(Boot(now), ls);
  }

  /** Every message of a run is answered in full exactly when every write that follows a
      successful read takes the whole reply: the server neither waits nor tries again. */
  lemma RepliesAcceptedExactly(now: int, ls: seq<Label>, s: Server)
    requires Reaches(now, ls, s)
    ensures AllAccepted(s.log) <==> NoReplyLost(Boot(now), ls)
  {
    RunAttempted(Boot(now), ls);
  }

  /** A reply can be lost and its client stay: every message of every length meets this end
      when the write would block. */
  lemma ReplyCanBeLost(now: int, msg: seq<Byte>) returns (ls: seq<Label>, s: Server)
    requires 0 < |msg| <= SOCKET_BUFFER_SIZE
    ensures Reaches(now, ls, s) && |s.log| > 1
    ensures s.log[|s.log| - 2] == ReadData(Addr(1, 1), 0, msg, Ok)
    ensures s.log[|s.log| - 1] == WroteData(Addr(1, 1), 0, Reply(msg), 0, WouldBlock)
    ensures Live(s.clients, 0) && s.pending == [] && !AllAccepted(s.log)
  {
    var a := Addr(1, 1);
    var shake := Oracle([], 0, true, 0, Value(0), [], 0, 0, WantRead, 0);
    var lose := Oracle([], 0, true, 1, Value(|msg|), msg, 0, 0, WantWrite, 0);
    var s0 := Boot(now);
    var s1 := Step(s0, Elapse([a, a], 0));
    RunExtend(s0, [], s0, Elapse([a, a], 0));
    var l1 := [] + [Elapse([a, a], 0)];
    var s2 := Step(s1, Polled(1, 0, 0));
    RunExtend(s0, l1, s1, Polled(1, 0, 0));
    var l2 := l1 + [Polled(1, 0, 0)];
    var s3 := ShakesHands(s2, a, shake);
    RunExtend(s0, l2, s2, Datagram(shake));
    var l3 := l2 + [Datagram(shake)];
    s := LosesOne(s3, a, lose);
    RunExtend(s0, l3, s3, Datagram(lose));
    ls := l3 + [Datagram(lose)];
    assert s.clients[0].session == 0;
    assert !Accepted(s.log[|s.log| - 1]);
  }

  lemma ShakesHands(s: Server, a: Addr, o: Oracle) returns (s': Server)
    requires s.clients == [] && s.nextSession == 0 && s.pending == [a, a]
    requires o == Oracle([], 0, true, 0, Value(0), [], 0, 0, WantRead, 0)
    ensures Permits(s, o) && s' == Iteration(s, o)
    ensures s'.clients == [Client(a, 0, s.now, true, true, 0)] && s'.pending == [a] && s'.place == s.place
  {
    s' := Iteration(s, o);
  }

  lemma LosesOne(s: Server, a: Addr, o: Oracle) returns (s': Server)
    requires s.pending == [a] && s.clients == [Client(a, 0, s.now, true, true, 0)]
    requires 0 < |o.plaintext| <= SOCKET_BUFFER_SIZE
    requires o == Oracle([], 0, true, 1, Value(|o.plaintext|), o.plaintext, 0, 0, WantWrite, 0)
    ensures Permits(s, o) && s' == Iteration(s, o)
    ensures s'.clients == s.clients && s'.pending == []
    ensures |s'.log| == |s.log| + 3
    ensures s'.log[|s.log| + 1] == ReadData(a, 0, o.plaintext, Ok)
    ensures s'.log[|s.log| + 2] == WroteData(a, 0, Reply(o.plaintext), 0, WouldBlock)
  {
    s' := Iteration(s, o);
  }

  // The receive loop.

  /** Datagrams waiting, then plaintext waiting, then clients with a completed handshake. */
  ghost predicate Descends(s': Server, s: Server) {
    || |s'.pending| < |s.pending|
    || (|s'.pending| == |s.pending| && TotalBuffered(s'.clients) < TotalBuffered(s.clients))
    || (|s'.pending| == |s.pending| && TotalBuffered(s'.clients) == TotalBuffered(s.clients)
        && CompleteCount(s'.clients) < CompleteCount(s.clients))
  }

  lemma HandshakeTakesDatagram(s: Server, i: nat, o: Oracle)
    requires i < |s.clients| && s.pending != []
    ensures |HandshakeTurn(s, i, o).pending| < |s.pending|
  {
  }

  lemma DataTurnDescends(s: Server, i: nat, o: Oracle)
    requires i < |s.clients| && s.pending != [] && s.clients[i].handshakeComplete
    requires o.recvs == 0 ==> o.buffered <= s.clients[i].buffered
    requires ReadResult(o.ret).Ok? && o.recvs == 0 ==> o.buffered < s.clients[i].buffered
    requires ReadResult(o.ret).Ok? && (o.writeRecvs == 0 || Drop(s.pending, o.recvs) == []) ==>
               o.writeBuffered <= o.buffered
    ensures Descends(DataTurn(s, i, o), s)
  {
    if o.recvs == 0 {
      var s1 := CallRead(s, i, o);
      SumsUpdate(s.clients, i, s1.clients[i]);
      if ReadResult(o.ret).Ok? {
        var s2 := CallWrite(s1, i, o);
        if o.writeRecvs == 0 {
          SumsUpdate(s1.clients, i, s2.clients[i]);
          SumsRemove(s2.clients, i);
        }
      } else if ReadResult(o.ret).PeerClosed? {
        SumsRemove(s1.clients, i);
      }
    }
  }

  /** With no new arrivals every iteration of the receive loop lowers the measure, also when
      a closed peer is removed without any recvfrom. */
  lemma IterationDescends(s: Server, o: Oracle)
    requires s.pending != [] && Permits(s, o) && o.arrivals == []
    ensures Descends(Iteration(s, o), s)
  {
    var a, s1 := s.pending[0], Meanwhile(s, o.arrivals, o.elapsed);
    assert s.pending + [] == s.pending;
    match FindOrAdd(s1, a, o.created)
    case None =>
    case Some(s2) =>
      var i := IndexOf(s2.clients, a);
      SumsUpdate(s2.clients, i, s2.clients[i].(lastActivity := s2.now));
      if s2.clients[i].handshakeComplete {
        DataTurnDescends(Touch(s2, i), i, o);
      } else {
        HandshakeTakesDatagram(Touch(s2, i), i, o);
      }
  }
}
