/** main of src/server.c: the event loop over the heap list, with mbed TLS, the socket and the
    clock behind methods that may return anything within their contracts. Every statement
    sequence here is a run of ServerModel. */
module Server {
  import opened Portability
  import opened Wire
  import opened Dtls
  import opened DtlsSession
  import opened Clients
  import opened ClientList
  import ServerModel
  import opened ServerInvariant
  import opened ServerTheorems

  class Server {
    const list: ClientList
    const buffer: array<Byte>
    const host: Host
    var pending: seq<Addr>
    var now: int
    var lastCheck: int
    ghost var lastTest: int
    ghost var place: ServerModel.Place

    constructor (host: Host, now: int)
      ensures Valid() && fresh(list) && fresh(buffer)
      ensures State() == ServerModel.Boot(now)
    {
      list := new ClientList();
      buffer := new Byte[SOCKET_BUFFER_SIZE](i => 0);
      this.host, pending := host, [];
      this.now, lastCheck, lastTest, place := now, now, now, ServerModel.Polling;
    }

    ghost predicate Valid()
      reads this, list, list.nodes, list.sessions
    {
      list.Valid() && buffer.Length == SOCKET_BUFFER_SIZE
    }

    /** The abstract state: heap nodes become a sequence of client records. */
    ghost function State(): ServerModel.Server
      requires Valid()
      reads this, list, list.nodes, list.sessions
    {
      ServerModel.Server(list.View(), pending, now, lastCheck, lastTest, list.nextSession, list.log, place)
    }

    /** Everything a turn, a check or the shutdown may change. */
    ghost function Frame(): set<object>
      reads this, list
    {
      {this, list, buffer} + (set n | n in list.nodes) + (set x | x in list.sessions)
    }

    twostate predicate Shrunk()
      reads this, list
    {
      && (forall n :: n in list.nodes ==> n in old(list.nodes))
      && (forall x :: x in list.sessions ==> x in old(list.sessions))
    }

    /** Every node and session in the list was there before or is new. */
    twostate predicate Grown()
      reads this, list
    {
      && (forall n :: n in list.nodes ==> n in old(list.nodes) || fresh(n))
      && (forall x :: x in list.sessions ==> x in old(list.sessions) || fresh(x))
    }

    /** Changing fields of node i or its session changes client i of the view and no other. */
    twostate lemma OnlyClient(i: nat)
      requires old(list.Valid()) && list.Valid()
      requires list.nodes == old(list.nodes) && list.sessions == old(list.sessions) && i < |list.nodes|
      requires forall j :: 0 <= j < |list.nodes| && j != i ==> list.ViewAt(j) == old(list.ViewAt(j))
      ensures list.View() == old(list.View())[i := list.ViewAt(i)]
    {
    }

    // The calls a turn makes.

    method Discard()
      requires Valid()
      modifies this`pending
      ensures Valid() && State() == ServerModel.Discard(old(State()))
    {
      pending := Drop(pending, 1);
    }

    /** An event enters the history, and nothing else changes. */
    ghost method Record(e: ServerModel.Event)
      requires Valid()
      modifies list`log
      ensures Valid() && State() == ServerModel.AddEvent(old(State()), e)
    {
      list.log := list.log + [e];
      StillOk();
      assert list.View() == old(list.View());
    }

    method Touch(client: Node, ghost i: nat)
      requires Valid() && i < |list.nodes| && client == list.nodes[i]
      modifies client`lastActivity, list`log
      ensures Valid() && State() == ServerModel.Touch(old(State()), i)
    {
      assert list.NodeOk(i);
      client.lastActivity := now;
      StillOk();
      OnlyClient(i);
      Record(ServerModel.Heard(client.addr, client.session.id, now));
    }

    /** Validity does not look at the fields a turn changes. */
    twostate lemma StillOk()
      requires old(Valid()) && list.nodes == old(list.nodes) && list.sessions == old(list.sessions)
      requires list.head == old(list.head)
      requires forall i :: 0 <= i < |list.nodes| ==>
                 && list.nodes[i].next == old(list.nodes[i].next)
                 && list.nodes[i].freed == old(list.nodes[i].freed)
                 && list.nodes[i].session == old(list.nodes[i].session)
                 && list.sessions[i].destroyed == old(list.sessions[i].destroyed)
      ensures Valid()
    {
      forall i | 0 <= i < |list.nodes| ensures list.NodeOk(i) {
        assert old(list.NodeOk(i));
      }
    }

    method Handshake(client: Node, ghost i: nat, o: ServerModel.Oracle) returns (result: DtlsResult)
      requires Valid() && i < |list.nodes| && client == list.nodes[i]
      modifies this`pending, list`log, Session.Footprint(list.sessions[i])`complete, Session.Footprint(list.sessions[i])`buffered
      ensures Valid() && State() == ServerModel.CallHandshake(old(State()), i, o)
      ensures result == HandshakeResult(o.ret)
    {
      assert list.NodeOk(i);
      pending := Drop(pending, o.recvs);
      result := Session.Handshake(client.session, o.ret, o.buffered);
      StillOk();
      OnlyClient(i);
      Record(ServerModel.Handshook(client.addr, client.session.id, result));
    }

    /** Reads into the buffer. */
    method Read(client: Node, ghost i: nat, o: ServerModel.Oracle) returns (result: DtlsResult, bytesRead: nat)
      requires Valid() && i < |list.nodes| && client == list.nodes[i]
      requires ReadResult(o.ret).Ok? ==> |o.plaintext| == o.ret.n <= SOCKET_BUFFER_SIZE
      modifies this`pending, list`log, Session.Footprint(list.sessions[i])`buffered, buffer
      ensures Valid() && State() == ServerModel.CallRead(old(State()), i, o)
      ensures result == ReadResult(o.ret)
      ensures result.Ok? <==> bytesRead > 0
      ensures bytesRead <= buffer.Length && (result.Ok? ==> buffer[..bytesRead] == o.plaintext)
    {
      assert list.NodeOk(i);
      var size := new SizeVar();
      pending := Drop(pending, o.recvs);
      result := Session.Read(client.session, buffer, size, o.ret, o.plaintext, o.buffered);
      bytesRead := size.value;
      StillOk();
      OnlyClient(i);
      Record(ServerModel.ReadData(client.addr, client.session.id, if result.Ok? then o.plaintext else [], result));
    }

    /** Writes the first n bytes of the buffer. */
    method Write(client: Node, ghost i: nat, n: nat, o: ServerModel.Oracle)
      returns (result: DtlsResult, bytesWritten: nat)
      requires Valid() && i < |list.nodes| && client == list.nodes[i]
      requires n <= buffer.Length && buffer[..n] == Reply(o.plaintext)
      requires BytesDone(o.writeRet) <= n
      modifies this`pending, list`log, Session.Footprint(list.sessions[i])`buffered
      ensures Valid() && State() == ServerModel.CallWrite(old(State()), i, o)
      ensures result == WriteResult(o.writeRet) && bytesWritten == BytesDone(o.writeRet) <= n
      ensures result.Ok? <==> bytesWritten > 0
    {
      assert list.NodeOk(i);
      var size := new SizeVar();
      pending := Drop(pending, o.writeRecvs);
      result := Session.Write(client.session, buffer, n, size, o.writeRet, o.writeBuffered);
      bytesWritten := size.value;
      StillOk();
      OnlyClient(i);
      Record(ServerModel.WroteData(client.addr, client.session.id, buffer[..n], bytesWritten, result));
    }

    method Remove(client: Node, ghost i: nat)
      requires Valid() && i < |list.nodes| && client == list.nodes[i]
      modifies list, (set n | n in list.nodes)`next, client`freed, Session.Footprint(list.sessions[i])`destroyed
      ensures Valid() && State() == ServerModel.RemoveClient(old(State()), i, ServerModel.Broken)
      ensures Shrunk()
      ensures client.freed && old(list.sessions)[i].destroyed
    {
      assert list.NodeOk(i);
      list.RemoveClient(client, i, ServerModel.Broken);
    }

    // One iteration of the receive loop.

    method HandshakeTurn(client: Node, ghost i: nat, o: ServerModel.Oracle)
      requires Valid() && i < |list.nodes| && client == list.nodes[i]
      modifies this`pending, list, (set n | n in list.nodes)`next, client`handshakeComplete, client`freed,
               list.sessions[i]
      ensures Valid() && State() == ServerModel.HandshakeTurn(old(State()), i, o)
      ensures Shrunk()
    {
      var result := Handshake(client, i, o);
      label called:
      if result.Ok? {
        client.handshakeComplete := true;
        StillOk@called();
        OnlyClient@called(i);
        Discard();
      } else if result.WouldBlock? {
        Discard();
      } else {
        Discard();
        Remove(client, i);
      }
    }

    /** Lines 375-454: the reply is built in the buffer and written; a failed write drops the
        client. */
    method ReplyTurn(client: Node, ghost i: nat, n: nat, o: ServerModel.Oracle)
      requires Valid() && i < |list.nodes| && client == list.nodes[i]
      requires n <= buffer.Length && buffer[..n] == o.plaintext && BytesDone(o.writeRet) <= n
      modifies this`pending, list, (set n | n in list.nodes)`next, client`freed, list.sessions[i], buffer
      ensures Valid() && State() == ServerModel.WriteTurn(old(State()), i, o)
      ensures Shrunk()
    {
      Respond(host, buffer, n);
      var result, bytesWritten := Write(client, i, n, o);
      if !result.Ok? && !result.WouldBlock? {
        Remove(client, i);
      }
    }

    method DataTurn(client: Node, ghost i: nat, o: ServerModel.Oracle)
      requires Valid() && i < |list.nodes| && client == list.nodes[i]
      requires ReadResult(o.ret).Ok? ==> o.FitsBuffer()
      modifies this`pending, list, (set n | n in list.nodes)`next, client`freed, list.sessions[i], buffer
      ensures Valid() && State() == ServerModel.DataTurn(old(State()), i, o)
      ensures Shrunk()
    {
      var result, bytesRead := Read(client, i, o);
      if result.Ok? && bytesRead > 0 {
        ReplyTurn(client, i, bytesRead, o);
      } else if result.WouldBlock? {
        Discard();
      } else if result.PeerClosed? {
        Remove(client, i);
      } else {
        Discard();
        Remove(client, i);
      }
    }

    /** Lines 337-467. */
    method Turn(client: Node, ghost i: nat, o: ServerModel.Oracle)
      requires Valid() && i < |list.nodes| && client == list.nodes[i]
      requires client.handshakeComplete && ReadResult(o.ret).Ok? ==> o.FitsBuffer()
      modifies Frame()
      ensures Valid() && State() == ServerModel.Turn(old(State()), i, o)
      ensures Shrunk()
    {
      assert list.NodeOk(i) && list.nodes[i] in list.nodes && list.sessions[i] in list.sessions;
      Touch(client, i);
      assert list.NodeOk(i);
      if !client.handshakeComplete {
        HandshakeTurn(client, i, o);
      } else {
        DataTurn(client, i, o);
      }
    }

    /** Time passes and datagrams arrive. */
    method WorldMoves(arrivals: seq<Addr>, seconds: nat)
      requires Valid()
      modifies this`pending, this`now
      ensures Valid() && State() == ServerModel.Meanwhile(old(State()), arrivals, seconds)
    {
      pending, now := pending + arrivals, now + seconds;
    }

    /** Lines 325-335: the client for the peeked address, or null when adding one failed. */
    method FindOrAdd(addr: Addr, created: bool) returns (client: Node?, ghost i: nat)
      requires Valid()
      modifies list
      ensures Valid() && Grown()
      ensures var r := ServerModel.FindOrAdd(old(State()), addr, created);
              if client == null then r.None? && State() == old(State()) else r == Some(State())
      ensures client != null ==>
                i < |list.nodes| && client == list.nodes[i] && i == IndexOf(State().clients, addr)
    {
      client, i := list.FindClient(addr);
      if client == null {
        client := Add(addr, created);
        i := 0;
      }
    }

    method Add(addr: Addr, created: bool) returns (client: Node?)
      requires Valid()
      modifies list
      ensures Valid() && Grown()
      ensures client == null <==> !created
      ensures State() == if created then ServerModel.AddClient(old(State()), addr) else old(State())
      ensures client != null ==> list.nodes != [] && client == list.nodes[0]
    {
      var allocates: bool := *;
      ghost var made;
      client, made := list.AddClient(addr, now, allocates || created, created);
    }

    /** One iteration: peek, find or add the client, handshake or read and reply. */
    method Iteration(o: ServerModel.Oracle)
      requires Valid() && pending != [] && ServerModel.Permits(State(), o)
      modifies Frame()
      ensures Valid() && State() == ServerModel.Iteration(old(State()), o)
      ensures Grown()
    {
      ghost var s := State();
      var addr := pending[0];
      WorldMoves(o.arrivals, o.elapsed);
      var client, i := FindOrAdd(addr, o.created);
      if client == null {
        Discard();
        return;
      }
      TurnPermitted(s, o);
      Turn(client, i, o);
    }

    // The loops of main.

    /** Anything mbed TLS, the network and the clock may do during the next iteration, with at
        most `quota` new datagrams arriving. */
    method AskOracle(quota: nat) returns (o: ServerModel.Oracle)
      requires Valid() && pending != []
      ensures ServerModel.Permits(State(), o) && |o.arrivals| <= quota
    {
      var client, i := list.FindClient(pending[0]);
      o := *;
      if |o.arrivals| > quota {
        o := o.(arrivals := o.arrivals[..quota]);
      }
      if client != null {
        assert list.NodeOk(i);
        if !ServerModel.PermitsData(client.session.buffered, pending, o) {
          o := o.(recvs := 1, ret := WantRead);
        }
      }
    }

    /** One iteration with an oracle of its choosing: it uses up arrivals or lowers the measure of
        the inner loop. */
    method NextDatagram(quota: nat) returns (ghost o: ServerModel.Oracle, left: nat)
      requires Valid() && pending != [] && place.Draining? && place.left > 0
      modifies Frame()
      ensures Valid() && Grown() && place == old(place)
      ensures ServerModel.Enabled(old(State()), ServerModel.Datagram(o))
      ensures State() == ServerModel.Step(old(State()), ServerModel.Datagram(o))
      ensures left < quota || (left == quota && Descends(State(), old(State())))
    {
      ghost var s := State();
      var oracle := AskOracle(quota);
      o, left := oracle, quota - |oracle.arrivals|;
      Iteration(oracle);
      if o.arrivals == [] {
        IterationDescends(s, o);
      }
      IterationStays(s, o);
    }

    /** The inner loop, while any finite number of datagrams arrives: it ends, and unless the peek
        hits a hard error it leaves no datagram behind, as edge-triggered epoll needs. */
    method DrainSocket() returns (hardError: bool, ghost run: seq<ServerModel.Label>)
      requires Valid() && place.Draining? && place.left > 0
      modifies Frame()
      ensures Valid() && Grown()
      ensures hardError || pending == []
      ensures RunTo(old(State()), run, State())
      ensures place == ServerModel.Draining(old(place.left) - 1)
    {
      ghost var s0 := State();
      run := [];
      hardError := *;
      var quota: nat := *;
      while !hardError && pending != []
        invariant Valid() && Grown() && place == old(place)
        invariant RunTo(s0, run, State())
        decreases quota, |pending|, TotalBuffered(State().clients), CompleteCount(State().clients)
      {
        ghost var s := State();
        ghost var o;
        o, quota := NextDatagram(quota);
        RunExtend(s0, run, s, ServerModel.Datagram(o));
        run := run + [ServerModel.Datagram(o)];
        hardError := *;
      }
      RunExtend(s0, run, State(), ServerModel.Drained(hardError));
      run := run + [ServerModel.Drained(hardError)];
      EndEvent(hardError);
    }

    /** The peek failed: on to the next event. */
    method EndEvent(hardError: bool)
      requires Valid() && place.Draining? && place.left > 0 && (hardError || pending == [])
      modifies this`place
      ensures Valid() && place == ServerModel.Draining(old(place.left) - 1)
      ensures State() == ServerModel.Step(old(State()), ServerModel.Drained(hardError))
    {
      place := ServerModel.Draining(place.left - 1);
    }

    /** check_client_timeouts reads the clock itself. */
    method Check(sweepDelay: nat)
      requires Valid()
      modifies this`now, list, (set n | n in list.nodes), (set x | x in list.sessions)
      ensures Valid()
      ensures Shrunk()
      ensures now == old(now) + sweepDelay && list.nextSession == old(list.nextSession)
      ensures list.View() == Sweep(old(list.View()), Overdue(now))
      ensures list.log == old(list.log) + ServerModel.SweepEvents(old(list.View()), Overdue(now))
    {
      now := now + sweepDelay;
      list.CheckTimeouts(now);
    }

    method CheckAt(testTime: int, sweepDelay: nat)
      requires Valid()
      modifies this`now, this`lastCheck, list, (set n | n in list.nodes), (set x | x in list.sessions)
      ensures Valid() && Shrunk()
      ensures State() ==
              ServerModel.Purge(old(State()).(now := old(now) + sweepDelay), Overdue(old(now) + sweepDelay))
              .(lastCheck := testTime)
    {
      ghost var s := State();
      Check(sweepDelay);
      lastCheck := testTime;
      assert State().clients == Sweep(s.clients, Overdue(s.now + sweepDelay));
    }

    /** Lines 298-303. */
    method TimeoutTest(elapsed: nat, sweepDelay: nat)
      requires Valid()
      modifies Frame()
      ensures Valid() && Shrunk()
      ensures State() == ServerModel.TimeoutTest(old(State()), elapsed, sweepDelay)
    {
      now := now + elapsed;
      lastTest := now;
      var testTime := now;
      if testTime - lastCheck >= ServerModel.CHECK_INTERVAL {
        CheckAt(testTime, sweepDelay);
      }
    }

    /** epoll_wait, the timeout check and the start of the event loop. */
    method Poll(nfds: nat) returns (ghost l: ServerModel.Label)
      requires Valid() && place.Polling?
      modifies Frame()
      ensures Valid() && Grown() && place == ServerModel.Draining(nfds)
      ensures ServerModel.Enabled(old(State()), l) && State() == ServerModel.Step(old(State()), l)
    {
      var elapsed: nat, sweepDelay: nat := *, *;
      TimeoutTest(elapsed, sweepDelay);
      place := ServerModel.Draining(nfds);
      l := ServerModel.Polled(nfds, elapsed, sweepDelay);
    }

    /** The loop over the events of one poll. */
    method DrainAll(nfds: nat) returns (ghost run: seq<ServerModel.Label>)
      requires Valid() && place == ServerModel.Draining(nfds)
      modifies Frame()
      ensures Valid() && Grown() && place.Polling?
      ensures RunTo(old(State()), run, State())
    {
      ghost var s0 := State();
      run := [];
      var i := 0;
      while i < nfds
        invariant i <= nfds && place == ServerModel.Draining(nfds - i)
        invariant Valid() && Grown() && RunTo(s0, run, State())
      {
        ghost var s := State();
        var hardError, more := DrainSocket();
        RunConcat(s0, run, s, more, State());
        run := run + more;
        i := i + 1;
      }
      RunExtend(s0, run, State(), ServerModel.BackToPoll);
      run := run + [ServerModel.BackToPoll];
      place := ServerModel.Polling;
    }

    /** One round of the outer loop, the world having moved on since the last. */
    method Round() returns (ghost run: seq<ServerModel.Label>)
      requires Valid() && place.Polling?
      modifies Frame()
      ensures Valid() && Grown() && place.Polling?
      ensures RunTo(old(State()), run, State())
    {
      ghost var s0 := State();
      var arrivals: seq<Addr>, seconds: nat := *, *;
      WorldMoves(arrivals, seconds);
      RunExtend(s0, [], s0, ServerModel.Elapse(arrivals, seconds));
      run := [] + [ServerModel.Elapse(arrivals, seconds)];
      var nfds: int := *;
      ghost var s1 := State();
      if nfds < 0 {
        RunExtend(s0, run, s1, ServerModel.PollFailed);
        run := run + [ServerModel.PollFailed];
        return;
      }
      ghost var l := Poll(nfds);
      RunExtend(s0, run, s1, l);
      run := run + [l];
      ghost var s2 := State();
      ghost var more := DrainAll(nfds);
      RunConcat(s0, run, s2, more, State());
      run := run + more;
    }

    /** main from the event loop to the end of the shutdown loop, when the signal comes after
        the given number of rounds: a run of ServerModel that ends with an empty list. */
    method Serve(rounds: nat) returns (ghost run: seq<ServerModel.Label>)
      requires Valid() && place.Polling?
      modifies Frame()
      ensures Valid() && list.nodes == [] && place.Down?
      ensures RunTo(old(State()), run, State())
    {
      ghost var s0 := State();
      run := [];
      var r := 0;
      while r < rounds
        invariant Valid() && Grown() && place.Polling?
        invariant RunTo(s0, run, State())
      {
        ghost var s := State();
        ghost var more := Round();
        RunConcat(s0, run, s, more, State());
        run := run + more;
        r := r + 1;
      }
      EveryoneGoes(State().clients);
      RunExtend(s0, run, State(), ServerModel.Stop);
      run := run + [ServerModel.Stop];
      list.RemoveAllClients();
      place := ServerModel.Down;
      assert list.View() == [];
    }
  }

  /** What the iteration does once the client is found, and that its read is permitted. */
  lemma TurnPermitted(s: ServerModel.Server, o: ServerModel.Oracle)
    requires s.pending != [] && ServerModel.Permits(s, o)
    ensures var r := ServerModel.FindOrAdd(ServerModel.Meanwhile(s, o.arrivals, o.elapsed), s.pending[0], o.created);
            r.Some? ==>
              var i := IndexOf(r.value.clients, s.pending[0]);
              && i < |r.value.clients|
              && ServerModel.Iteration(s, o) == ServerModel.Turn(r.value, i, o)
              && (r.value.clients[i].handshakeComplete && ReadResult(o.ret).Ok? ==> o.FitsBuffer())
  {
  }
}
