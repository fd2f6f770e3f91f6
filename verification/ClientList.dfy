/** The client list of src/server.c as heap nodes: linked in at the head, unlinked through a
    pointer to a pointer, freed while it is being traversed. */
module ClientList {
  import opened Dtls
  import opened DtlsSession
  import opened Clients
  import opened ServerModel

  /** client_session_t. Following `next` or freeing needs a node that is not freed. */
  class Node {
    const addr: Addr
    var session: Session?
    var lastActivity: int
    var handshakeComplete: bool
    var next: Node?
    ghost var freed: bool

    /** calloc and the first assignments of add_client: no session yet. */
    constructor (addr: Addr, now: int)
      ensures this.addr == addr && session == null && lastActivity == now
      ensures !handshakeComplete && next == null && !freed
    {
      this.addr, session, lastActivity, handshakeComplete := addr, null, now, false;
      next, freed := null, false;
    }

    function Next(): Node?
      requires !freed
      reads this
    {
      next
    }

    method Free()
      requires !freed
      modifies this`freed
      ensures freed
    {
      freed := true;
    }
  }

  /** A `client_session_t **`: the address of g_clients or of some node's next field. */
  datatype Link = Head | NextOf(node: Node)

  class ClientList {
    var head: Node?
    var nextSession: nat
    ghost var nodes: seq<Node>
    ghost var sessions: seq<Session>
    ghost var log: seq<Event>

    ghost function NodeAt(i: nat): Node?
      reads this
    {
      if i < |nodes| then nodes[i] else null
    }

    /** Node i is live, points to node i + 1 and owns live session i. */
    ghost predicate NodeOk(i: nat)
      requires i < |nodes| == |sessions|
      reads this, nodes, sessions
    {
      && nodes[i].next == NodeAt(i + 1)
      && !nodes[i].freed
      && nodes[i].session == sessions[i]
      && !sessions[i].destroyed
    }

    /** The chain from head visits exactly `nodes`, distinct and with distinct sessions, and
        ends in NULL. */
    ghost predicate Valid()
      reads this, nodes, sessions
    {
      && head == NodeAt(0)
      && |sessions| == |nodes|
      && (forall i :: 0 <= i < |nodes| ==> NodeOk(i))
      && (forall i, j :: 0 <= i < j < |nodes| ==> nodes[i] != nodes[j])
      && (forall i, j :: 0 <= i < j < |sessions| ==> sessions[i] != sessions[j])
    }

    ghost function ViewAt(i: nat): Client
      requires i < |nodes| == |sessions|
      reads this, nodes, sessions
    {
      Client(nodes[i].addr, sessions[i].id, nodes[i].lastActivity, nodes[i].handshakeComplete,
             sessions[i].complete, sessions[i].buffered)
    }

    ghost function View(): (cs: seq<Client>)
      requires |sessions| == |nodes|
      reads this, nodes, sessions
      ensures |cs| == |nodes|
      ensures forall i :: 0 <= i < |nodes| ==> cs[i] == ViewAt(i)
    {
      seq(|nodes|, i requires 0 <= i < |nodes| == |sessions| reads this, nodes, sessions => ViewAt(i))
    }

    constructor ()
      ensures Valid() && nodes == [] && log == [] && nextSession == 0
    {
      head, nextSession, nodes, sessions, log := null, 0, [], [], [];
    }

    /** find_client. */
    method FindClient(a: Addr) returns (client: Node?, ghost i: nat)
      requires Valid()
      ensures i == IndexOf(View(), a)
      ensures client == NodeAt(IndexOf(View(), a))
    {
      i := 0;
      client := head;
      while client != null
        invariant i <= |nodes| && client == NodeAt(i)
        invariant forall j :: 0 <= j < i ==> nodes[j].addr != a
        decreases |nodes| - i
      {
        if client.addr == a {
          FirstMatch(View(), i, a);
          return;
        }
        assert NodeOk(i);
        client := client.Next();
        i := i + 1;
      }
      FirstMatch(View(), i, a);
    }

    /** add_client: a node that was allocated is freed again when its session cannot be created,
        and the list changes only when both steps succeed. */
    method AddClient(a: Addr, now: int, allocates: bool, starts: bool) returns (client: Node?, ghost made: Node?)
      requires Valid()
      modifies this
      ensures Valid()
      ensures made != null <==> allocates
      ensures made != null ==> fresh(made) && made.freed == !starts
      ensures client == if allocates && starts then made else null
      ensures client == null ==>
                nodes == old(nodes) && sessions == old(sessions) && log == old(log) && nextSession == old(nextSession)
      ensures client != null ==>
                && client.session != null && fresh(client.session)
                && nodes == [client] + old(nodes) && sessions == [client.session] + old(sessions)
                && View() == [Client(a, old(nextSession), now, false, false, 0)] + old(View())
                && nextSession == old(nextSession) + 1
                && log == old(log) + [Created(a, old(nextSession))]
    {
      client, made := null, null;
      if !allocates {
        return;
      }
      var node := new Node(a, now);
      made := node;
      var session := Session.Create(nextSession, starts);
      if session == null {
        node.Free();
        return;
      }
      node.session := session;
      node.next := head;
      Link(node);
      client := node;
    }

    /** Links a new node in at the head. */
    method Link(node: Node)
      requires Valid() && node !in nodes && !node.freed && node.next == head
      requires node.session != null && node.session !in sessions && !node.session.destroyed
      requires node.session.id == nextSession
      modifies this
      ensures Valid()
      ensures nodes == [node] + old(nodes) && sessions == [node.session] + old(sessions)
      ensures View() == [Client(node.addr, node.session.id, node.lastActivity, node.handshakeComplete,
                                node.session.complete, node.session.buffered)] + old(View())
      ensures nextSession == old(nextSession) + 1
      ensures log == old(log) + [Created(node.addr, old(nextSession))]
    {
      head := node;
      nodes, sessions := [node] + nodes, [node.session] + sessions;
      log := log + [Created(node.addr, nextSession)];
      nextSession := nextSession + 1;
      forall i | 0 <= i < |nodes| ensures NodeOk(i) {
        assert i > 0 ==> nodes[i] == old(nodes)[i - 1] && sessions[i] == old(sessions)[i - 1] && old(NodeOk(i - 1));
      }
      ViewGrows(node);
    }

    /** The view gains the new first client, if no field it shows has changed. */
    twostate lemma ViewGrows(new client: Node)
      requires old(Valid()) && Valid() && client.session != null
      requires nodes == [client] + old(nodes) && sessions == [client.session] + old(sessions)
      requires forall n :: n in old(nodes) ==>
                 n.lastActivity == old(n.lastActivity) && n.handshakeComplete == old(n.handshakeComplete)
      requires forall x :: x in old(sessions) ==> x.complete == old(x.complete) && x.buffered == old(x.buffered)
      ensures View() == [ViewAt(0)] + old(View())
    {
      forall i | 0 <= i < |old(nodes)| ensures View()[i + 1] == old(View())[i] {
        assert nodes[i + 1] == old(nodes)[i] && sessions[i + 1] == old(sessions)[i];
        assert ViewAt(i + 1) == old(ViewAt(i));
      }
    }

    /** Reading through a pointer to a pointer. */
    function Deref(pp: Link): Node?
      requires pp.NextOf? ==> !pp.node.freed
      reads this, if pp.NextOf? then {pp.node} else {}
    {
      if pp.Head? then head else pp.node.Next()
    }

    ghost function LinkTo(k: nat): Link
      requires k <= |nodes|
      reads this
    {
      if k == 0 then Head else NextOf(nodes[k - 1])
    }

    /** Where the client stands in the chain: |nodes| when it is not in it. */
    ghost predicate StandsAt(client: Node, k: nat)
      reads this
    {
      k <= |nodes| && if k < |nodes| then nodes[k] == client else client !in nodes
    }

    /** The pointer walk of remove_client: stops at the link that points to the client, or at
        the end of the chain. */
    method FindLink(client: Node, ghost k: nat) returns (pp: Link)
      requires Valid() && StandsAt(client, k)
      ensures pp == LinkTo(k) && (pp.NextOf? ==> !pp.node.freed)
      ensures Deref(pp) == if k < |nodes| then client else null
    {
      pp := Head;
      ghost var i := 0;
      while Deref(pp) != null && Deref(pp) != client
        invariant i <= k && pp == LinkTo(i)
        invariant pp.NextOf? ==> NodeOk(i - 1)
        invariant Deref(pp) == NodeAt(i)
        decreases k - i
      {
        assert NodeOk(i);
        pp := NextOf(Deref(pp));
        i := i + 1;
      }
    }

    /** What is left of a valid chain when the link to the client at position k has been moved
        on to the next node. */
    twostate lemma StillChained(k: nat)
      requires old(Valid()) && k < |old(nodes)|
      requires nodes == RemoveAt(old(nodes), k) && sessions == RemoveAt(old(sessions), k)
      requires if k == 0 then head == old(NodeAt(1)) else head == old(head)
      requires forall j :: 0 <= j < |old(nodes)| ==>
                 && old(nodes)[j].next == (if j + 1 == k then old(NodeAt(k + 1)) else old(nodes[j].next))
                 && old(nodes)[j].freed == old(nodes[j].freed) && old(nodes)[j].session == old(nodes[j].session)
                 && old(sessions)[j].destroyed == old(sessions[j].destroyed)
      ensures Valid()
    {
      forall j | 0 <= j < |nodes|
        ensures NodeOk(j)
      {
        var j' := Before(j, k);
        assert nodes[j] == old(nodes)[j'] && sessions[j] == old(sessions)[j'];
        assert old(NodeOk(j'));
      }
    }

    /** Moves the link pp on to the node after the client it points to. */
    method Splice(pp: Link, client: Node, ghost k: nat)
      requires Valid() && k < |nodes| && nodes[k] == client && pp == LinkTo(k)
      modifies this`head, this`nodes, this`sessions, (set n | n in nodes)`next
      ensures Valid() && client !in nodes && client.session !in sessions
      ensures client.session != null && !client.session.destroyed && !client.freed
      ensures nodes == RemoveAt(old(nodes), k) && sessions == RemoveAt(old(sessions), k)
    {
      assert NodeOk(k) && (k > 0 ==> NodeOk(k - 1) && nodes[k - 1] in nodes);
      if pp.Head? {
        head := client.Next();
      } else {
        pp.node.next := client.Next();
      }
      nodes, sessions := RemoveAt(nodes, k), RemoveAt(sessions, k);
      StillChained(k);
    }

    /** The view loses client k and no other, if no field it shows has changed. */
    twostate lemma ViewFollows(k: nat)
      requires old(Valid()) && Valid()
      requires nodes == RemoveAt(old(nodes), k) && sessions == RemoveAt(old(sessions), k)
      requires forall n :: n in old(nodes) ==>
                 n.lastActivity == old(n.lastActivity) && n.handshakeComplete == old(n.handshakeComplete)
      requires forall x :: x in old(sessions) ==> x.complete == old(x.complete) && x.buffered == old(x.buffered)
      ensures View() == RemoveAt(old(View()), k)
    {
      forall j | 0 <= j < |nodes|
        ensures View()[j] == old(View())[if k < |old(nodes)| then Before(j, k) else j]
      {
        var j' := if k < |old(nodes)| then Before(j, k) else j;
        assert nodes[j] == old(nodes)[j'] && sessions[j] == old(sessions)[j'];
        assert ViewAt(j) == old(ViewAt(j'));
      }
      RemovedAt(View(), old(View()), k);
    }

    /** Unlinks the client: it alone leaves the chain, which stays as it is if the client is not
        in it. */
    method Unlink(client: Node, ghost k: nat)
      requires Valid() && StandsAt(client, k)
      modifies this`head, this`nodes, this`sessions, (set n | n in nodes)`next
      ensures Valid() && client !in nodes
      ensures k < |old(nodes)| ==>
                client.session != null && client.session !in sessions && !client.session.destroyed && !client.freed
      ensures nodes == RemoveAt(old(nodes), k) && sessions == RemoveAt(old(sessions), k)
      ensures View() == RemoveAt(old(View()), k)
    {
      var pp := FindLink(client, k);
      if Deref(pp) != null {
        Splice(pp, client, k);
      }
      ViewFollows(k);
    }

    /** Destroys the session of a client that is not in the chain, if it has one, and frees the
        client. */
    method Dispose(client: Node, ghost reason: Reason)
      requires Valid() && client !in nodes && !client.freed
      requires client.session != null ==> client.session !in sessions && !client.session.destroyed
      modifies this`log, client`freed, Session.Footprint(client.session)`destroyed
      ensures Valid() && client.freed && (client.session != null ==> client.session.destroyed)
      ensures View() == old(View())
      ensures log == old(log) + RemovalOf(client, reason)
    {
      log := log + RemovalOf(client, reason);
      if client.session != null {
        Session.Destroy(client.session);
      }
      client.Free();
      forall j | 0 <= j < |nodes| ensures NodeOk(j) && ViewAt(j) == old(ViewAt(j)) {
        assert old(NodeOk(j));
      }
    }

    /** remove_client: the client alone is unlinked, its session is destroyed and it is freed;
        every other node stays, in order. A client that is not in the chain, or has no session,
        is freed all the same. */
    method RemoveClient(client: Node, ghost k: nat, ghost reason: Reason)
      requires Valid() && StandsAt(client, k)
      requires k == |nodes| ==>
                 && !client.freed
                 && (client.session != null ==> !client.session.destroyed && client.session !in sessions)
      modifies this, (set n | n in nodes)`next, client`freed, Session.Footprint(client.session)`destroyed
      ensures Valid()
      ensures nodes == RemoveAt(old(nodes), k) && sessions == RemoveAt(old(sessions), k)
      ensures View() == RemoveAt(old(View()), k)
      ensures client.freed && (client.session != null ==> client.session.destroyed)
      ensures log == old(log) + RemovalOf(client, reason) && nextSession == old(nextSession)
    {
      Unlink(client, k);
      Dispose(client, reason);
    }

    // Traversals that remove.

    /** Position k of the list now is position p of what it was; before it, what was doomed
        is freed and gone, and what was not is still there. */
    ghost predicate InStep(k: nat, p: nat, past: Past)
      requires past.Ok()
      reads this, nodes, sessions, past.nodes, past.sessions
    {
      && |sessions| == |nodes|
      && Tails(nodes, k, past.nodes, p) && Tails(sessions, k, past.sessions, p) && Tails(View(), k, past.view, p)
      && View()[..k] == Sweep(past.view[..p], past.doom)
      && log == past.log + SweepEvents(past.view[..p], past.doom)
      && (forall i :: 0 <= i < p ==> past.nodes[i].freed == past.doom.Takes(past.view[i]) == past.sessions[i].destroyed)
      && (forall n :: n in nodes ==> n in past.nodes)
      && (forall x :: x in sessions ==> x in past.sessions)
    }

    /** The client at position k of the list is client p of what the list was. */
    lemma AtStep(k: nat, p: nat, past: Past)
      requires Valid() && past.Ok() && InStep(k, p, past) && k < |nodes|
      ensures p < |past.nodes| && nodes[k] == past.nodes[p] && sessions[k] == past.sessions[p]
      ensures View()[k] == past.view[p]
      ensures nodes[k].session == sessions[k] && !nodes[k].freed && nodes[k].next == NodeAt(k + 1)
    {
      assert NodeOk(k);
      SameAt(nodes, k, past.nodes, p);
      SameAt(sessions, k, past.sessions, p);
      SameAt(View(), k, past.view, p);
    }

    /** What the list and the history will be once the client at position k is removed. */
    lemma RemovalInStep(k: nat, p: nat, past: Past)
      requires Valid() && past.Ok() && InStep(k, p, past)
      requires k < |nodes| && p < |past.nodes| && past.doom.Takes(past.view[p])
      ensures Tails(RemoveAt(nodes, k), k, past.nodes, p + 1)
      ensures Tails(RemoveAt(sessions, k), k, past.sessions, p + 1)
      ensures Tails(RemoveAt(View(), k), k, past.view, p + 1)
      ensures RemoveAt(View(), k)[..k] == Sweep(past.view[..p + 1], past.doom)
      ensures log + [Removed(past.view[p].addr, past.view[p].session, Why(past.doom))]
              == past.log + SweepEvents(past.view[..p + 1], past.doom)
    {
      TailsRemoved(nodes, k, past.nodes, p);
      TailsRemoved(sessions, k, past.sessions, p);
      TailsRemoved(View(), k, past.view, p);
      SweepNext(past.view, past.doom, p);
    }

    method RemoveInStep(client: Node, ghost k: nat, ghost p: nat, ghost past: Past)
      requires Valid() && past.Ok() && InStep(k, p, past)
      requires k < |nodes| && client == nodes[k] && p < |past.nodes| && past.doom.Takes(past.view[p])
      modifies this, (set n | n in nodes)`next, client`freed, Session.Footprint(client.session)`destroyed
      ensures Valid() && InStep(k, p + 1, past)
      ensures NodeAt(k) == old(NodeAt(k + 1)) && nextSession == old(nextSession)
    {
      AtStep(k, p, past);
      RemovalInStep(k, p, past);
      RemoveClient(client, k, Why(past.doom));
    }

    lemma KeepInStep(k: nat, p: nat, past: Past)
      requires Valid() && past.Ok() && InStep(k, p, past)
      requires k < |nodes| && p < |past.nodes| && !past.doom.Takes(past.view[p])
      ensures InStep(k + 1, p + 1, past)
    {
      assert NodeOk(k);
      SameAt(nodes, k, past.nodes, p);
      SameAt(sessions, k, past.sessions, p);
      SameAt(View(), k, past.view, p);
      SweepNext(past.view, past.doom, p);
    }

    lemma StartInStep(past: Past)
      requires Valid() && past.Ok() && past.nodes == nodes && past.sessions == sessions
      requires past.view == View() && past.log == log
      ensures InStep(0, 0, past)
    {
    }

    lemma FinishInStep(k: nat, p: nat, past: Past)
      requires Valid() && past.Ok() && InStep(k, p, past) && NodeAt(k) == null
      ensures View() == Sweep(past.view, past.doom)
      ensures log == past.log + SweepEvents(past.view, past.doom)
      ensures FreedExactly(past.nodes, past.sessions, past.view, past.doom)
    {
      assert k == |nodes| && nodes[k..] == [] && p == |past.nodes|;
      assert past.view[..p] == past.view;
      assert View()[..k] == View();
    }

    /** One round of the sweep: `next` is read before the client may be freed. */
    method SweepOne(client: Node, now: int, ghost k: nat, ghost p: nat, ghost past: Past)
      returns (next: Node?, ghost k': nat)
      requires Valid() && past.Ok() && InStep(k, p, past) && past.doom == Overdue(now)
      requires client == NodeAt(k)
      modifies this, (set n | n in past.nodes)`next, (set n | n in past.nodes)`freed,
               (set x | x in past.sessions)`destroyed
      ensures Valid() && nextSession == old(nextSession)
      ensures p < |past.nodes| && InStep(k', p + 1, past) && next == NodeAt(k')
    {
      assert NodeOk(k);
      assert nodes[k] in nodes && sessions[k] in sessions;
      SameAt(nodes, k, past.nodes, p);
      SameAt(View(), k, past.view, p);
      next := client.Next();
      if now - client.lastActivity > CLIENT_TIMEOUT_SECONDS {
        RemoveInStep(client, k, p, past);
        k' := k;
      } else {
        KeepInStep(k, p, past);
        k' := k + 1;
      }
    }

    /** The loop of check_client_timeouts. */
    method SweepFrom(first: Node?, now: int, ghost past: Past) returns (ghost k: nat, ghost p: nat)
      requires Valid() && past.Ok() && InStep(0, 0, past) && past.doom == Overdue(now) && first == NodeAt(0)
      modifies this, (set n | n in past.nodes)`next, (set n | n in past.nodes)`freed,
               (set x | x in past.sessions)`destroyed
      ensures Valid() && nextSession == old(nextSession)
      ensures InStep(k, p, past) && NodeAt(k) == null
    {
      k, p := 0, 0;
      var client := first;
      while client != null
        invariant Valid() && nextSession == old(nextSession)
        invariant client == NodeAt(k) && InStep(k, p, past)
        decreases |past.view| - p
      {
        client, k := SweepOne(client, now, k, p, past);
        p := p + 1;
      }
    }

    /** check_client_timeouts: keeps, in order, exactly the clients that are not expired, and
        frees and destroys exactly the others. */
    method CheckTimeouts(now: int)
      requires Valid()
      modifies this, (set n | n in nodes)`next, (set n | n in nodes)`freed, (set x | x in sessions)`destroyed
      ensures Valid()
      ensures View() == Sweep(old(View()), Overdue(now))
      ensures log == old(log) + SweepEvents(old(View()), Overdue(now)) && nextSession == old(nextSession)
      ensures FreedExactly(old(nodes), old(sessions), old(View()), Overdue(now))
      ensures forall n :: n in nodes ==> n in old(nodes)
      ensures forall x :: x in sessions ==> x in old(sessions)
    {
      ghost var past := Past(nodes, sessions, View(), Overdue(now), log);
      StartInStep(past);
      ghost var k, p := SweepFrom(head, now, past);
      FinishInStep(k, p, past);
    }

    /** The shutdown loop: removes the head until the list is empty. */
    method RemoveAllClients()
      requires Valid()
      modifies this, (set n | n in nodes)`next, (set n | n in nodes)`freed, (set x | x in sessions)`destroyed
      ensures Valid() && nodes == [] && nextSession == old(nextSession)
      ensures forall n :: n in old(nodes) ==> n.freed
      ensures forall x :: x in old(sessions) ==> x.destroyed
      ensures log == old(log) + SweepEvents(old(View()), Everyone)
    {
      ghost var past := Past(nodes, sessions, View(), Everyone, log);
      ghost var p: nat := 0;
      StartInStep(past);
      while head != null
        invariant Valid() && nextSession == old(nextSession) && InStep(0, p, past)
        decreases |past.view| - p
      {
        assert NodeOk(0);
        SameAt(nodes, 0, past.nodes, p);
        RemoveInStep(head, 0, p, past);
        p := p + 1;
      }
      FinishInStep(0, p, past);
    }
  }

  /** The list before a traversal, and which of its clients the traversal will remove. */
  datatype Past = Past(nodes: seq<Node>, sessions: seq<Session>, view: seq<Client>, doom: Doom, log: seq<Event>)
  {
    ghost predicate Ok() {
      && |nodes| == |sessions| == |view|
      && (forall i, j :: 0 <= i < j < |nodes| ==> nodes[i] != nodes[j])
      && (forall i, j :: 0 <= i < j < |sessions| ==> sessions[i] != sessions[j])
    }
  }

  /** Nodes are freed, and sessions destroyed, exactly where the client is doomed. */
  ghost predicate FreedExactly(nodes: seq<Node>, sessions: seq<Session>, view: seq<Client>, doom: Doom)
    reads nodes, sessions
  {
    && |nodes| == |sessions| == |view|
    && forall i :: 0 <= i < |nodes| ==> nodes[i].freed == doom.Takes(view[i]) == sessions[i].destroyed
  }

  lemma SweepNext(view: seq<Client>, doom: Doom, p: nat)
    requires p < |view|
    ensures Sweep(view[..p + 1], doom) == Sweep(view[..p], doom) + if doom.Takes(view[p]) then [] else [view[p]]
    ensures SweepEvents(view[..p + 1], doom) ==
            SweepEvents(view[..p], doom)
            + if doom.Takes(view[p]) then [Removed(view[p].addr, view[p].session, Why(doom))] else []
  {
    assert view[..p + 1] == view[..p] + [view[p]];
    SweepSnoc(view[..p], view[p], doom);
    SweepEventsSnoc(view[..p], view[p], doom);
  }

  // Two lists that agree from some position on.

  ghost predicate Tails<T>(cs: seq<T>, k: nat, was: seq<T>, p: nat) {
    k <= |cs| && p <= |was| && cs[k..] == was[p..]
  }

  lemma SameAt<T>(cs: seq<T>, k: nat, was: seq<T>, p: nat)
    requires Tails(cs, k, was, p) && k < |cs|
    ensures p < |was| && cs[k] == was[p] && Tails(cs, k + 1, was, p + 1)
    ensures cs[..k + 1] == cs[..k] + [was[p]]
  {
    assert cs[k] == cs[k..][0] && was[p] == was[p..][0];
    assert cs[k..][1..] == cs[k + 1..] && was[p..][1..] == was[p + 1..];
  }

  lemma TailsRemoved<T>(cs: seq<T>, k: nat, was: seq<T>, p: nat)
    requires Tails(cs, k, was, p) && k < |cs|
    ensures Tails(cs[..k] + cs[k + 1..], k, was, p + 1)
    ensures (cs[..k] + cs[k + 1..])[..k] == cs[..k]
  {
    SameAt(cs, k, was, p);
  }

  ghost function RemovalOf(client: Node, reason: Reason): seq<Event>
    reads client
  {
    if client.session == null then [] else [Removed(client.addr, client.session.id, reason)]
  }

  /** Where element j stood before element k was taken out. */
  function Before(j: nat, k: nat): nat {
    if j < k then j else j + 1
  }

  lemma RemovedAt<T>(s: seq<T>, was: seq<T>, k: nat)
    requires |s| == |was| - if k < |was| then 1 else 0
    requires forall j :: 0 <= j < |s| ==> s[j] == was[if k < |was| then Before(j, k) else j]
    ensures s == RemoveAt(was, k)
  {
  }

  lemma {:induction false} FirstMatch(cs: seq<Client>, i: nat, a: Addr)
    requires i <= |cs| && (i < |cs| ==> cs[i].addr == a)
    requires forall j :: 0 <= j < i ==> cs[j].addr != a
    ensures IndexOf(cs, a) == i
  {
    if i > 0 {
      FirstMatch(cs[1..], i - 1, a);
    }
  }
}
