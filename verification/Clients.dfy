/** The client list of src/server.c as a value, and the map it stands for. */
module Clients {
  import opened Dtls

  const CLIENT_TIMEOUT_SECONDS: int := 30

  /** `sessionComplete` is the flag inside the DTLS session, `handshakeComplete` the server's
      own copy; `buffered` is the plaintext the session holds but has not handed out. */
  datatype Client = Client(
    addr: Addr,
    session: nat,
    lastActivity: int,
    handshakeComplete: bool,
    sessionComplete: bool,
    buffered: nat
  )

  ghost predicate DistinctKeys(cs: seq<Client>) {
    forall i, j :: 0 <= i < j < |cs| ==> cs[i].addr != cs[j].addr
  }

  ghost predicate DistinctSessions(cs: seq<Client>) {
    forall i, j :: 0 <= i < j < |cs| ==> cs[i].session != cs[j].session
  }

  /** find_client: the first match, or |cs| for NULL. */
  function IndexOf(cs: seq<Client>, a: Addr): (i: nat)
    ensures i <= |cs|
    ensures i < |cs| ==> cs[i].addr == a
    ensures forall j :: 0 <= j < i ==> cs[j].addr != a
  {
    if cs == [] then 0
    else if cs[0].addr == a then 0
    else 1 + IndexOf(cs[1..], a)
  }

  /** All elements but the one at position i. */
  function RemoveAt<T>(s: seq<T>, i: nat): seq<T> {
    if i < |s| then s[..i] + s[i + 1..] else s
  }

  predicate Expired(c: Client, now: int) {
    now - c.lastActivity > CLIENT_TIMEOUT_SECONDS
  }

  /** Which clients a traversal removes: a timeout check those that are silent for too long, the
      shutdown all. */
  datatype Doom = Overdue(now: int) | Everyone {
    predicate Takes(c: Client) { Everyone? || Expired(c, now) }
  }

  /** The clients a traversal keeps, in their order. */
  function Sweep(cs: seq<Client>, doom: Doom): seq<Client> {
    if cs == [] then []
    else (if doom.Takes(cs[0]) then [] else [cs[0]]) + Sweep(cs[1..], doom)
  }

  lemma {:induction false} SweepMembers(cs: seq<Client>, doom: Doom, c: Client)
    ensures c in Sweep(cs, doom) <==> c in cs && !doom.Takes(c)
  {
    if cs != [] {
      SweepMembers(cs[1..], doom, c);
      assert cs == [cs[0]] + cs[1..];
    }
  }

  lemma {:induction false} SweepSnoc(cs: seq<Client>, c: Client, doom: Doom)
    ensures Sweep(cs + [c], doom) == Sweep(cs, doom) + if doom.Takes(c) then [] else [c]
  {
    if cs == [] {
      assert [c][1..] == [];
    } else {
      assert (cs + [c])[1..] == cs[1..] + [c];
      SweepSnoc(cs[1..], c, doom);
    }
  }

  // The map.

  /** Nodes nearer the head shadow later ones with the same key. */
  function AsMap(cs: seq<Client>): map<Addr, Client> {
    if cs == [] then map[] else AsMap(cs[1..])[cs[0].addr := cs[0]]
  }

  /** find_client is map lookup. */
  lemma {:induction false} FindIsLookup(cs: seq<Client>, a: Addr)
    ensures a in AsMap(cs) <==> IndexOf(cs, a) < |cs|
    ensures a in AsMap(cs) ==> AsMap(cs)[a] == cs[IndexOf(cs, a)]
  {
    if cs != [] {
      FindIsLookup(cs[1..], a);
    }
  }

  /** Linking a new client in at the head is map insertion. */
  lemma AddIsInsert(cs: seq<Client>, c: Client)
    requires DistinctKeys(cs) && c.addr !in AsMap(cs)
    ensures DistinctKeys([c] + cs)
    ensures AsMap([c] + cs) == AsMap(cs)[c.addr := c]
  {
    FindIsLookup(cs, c.addr);
    assert ([c] + cs)[1..] == cs;
  }

  lemma RemoveDistinct(cs: seq<Client>, i: nat)
    requires i < |cs|
    ensures DistinctKeys(cs) ==> DistinctKeys(RemoveAt(cs, i))
    ensures DistinctSessions(cs) ==> DistinctSessions(RemoveAt(cs, i))
  {
    var cs' := RemoveAt(cs, i);
    forall j | 0 <= j < |cs'| ensures cs'[j] == cs[if j < i then j else j + 1] {}
  }

  /** Unlinking a client is map removal. */
  lemma {:induction false} UnlinkIsRemoval(cs: seq<Client>, i: nat)
    requires DistinctKeys(cs) && i < |cs|
    ensures AsMap(RemoveAt(cs, i)) == AsMap(cs) - {cs[i].addr}
  {
    if i == 0 {
      assert RemoveAt(cs, 0) == cs[1..];
      FindIsLookup(cs[1..], cs[0].addr);
    } else {
      assert RemoveAt(cs, i)[1..] == RemoveAt(cs[1..], i - 1);
      UnlinkIsRemoval(cs[1..], i - 1);
    }
  }

  /** A timeout check is a filter of the map, and the shutdown leaves nothing. */
  lemma {:induction false} SweepIsFilter(cs: seq<Client>, doom: Doom)
    requires DistinctKeys(cs)
    ensures AsMap(Sweep(cs, doom)) == map a | a in AsMap(cs) && !doom.Takes(AsMap(cs)[a]) :: AsMap(cs)[a]
  {
    if cs != [] {
      var rest := Sweep(cs[1..], doom);
      SweepIsFilter(cs[1..], doom);
      FindIsLookup(cs[1..], cs[0].addr);
      assert doom.Takes(cs[0]) ==> Sweep(cs, doom) == rest;
      assert !doom.Takes(cs[0]) ==> Sweep(cs, doom)[0] == cs[0] && Sweep(cs, doom)[1..] == rest;
    }
  }

  // Sums over the list.

  function TotalBuffered(cs: seq<Client>): nat {
    if cs == [] then 0 else cs[0].buffered + TotalBuffered(cs[1..])
  }

  function CompleteCount(cs: seq<Client>): nat {
    if cs == [] then 0 else (if cs[0].handshakeComplete then 1 else 0) + CompleteCount(cs[1..])
  }

  lemma {:induction false} SumsUpdate(cs: seq<Client>, i: nat, c: Client)
    requires i < |cs|
    ensures TotalBuffered(cs[i := c]) + cs[i].buffered == TotalBuffered(cs) + c.buffered
    ensures CompleteCount(cs[i := c]) + (if cs[i].handshakeComplete then 1 else 0)
            == CompleteCount(cs) + if c.handshakeComplete then 1 else 0
  {
    if i == 0 {
      assert cs[0 := c][1..] == cs[1..];
    } else {
      assert cs[i := c][1..] == cs[1..][i - 1 := c];
      SumsUpdate(cs[1..], i - 1, c);
    }
  }

  lemma {:induction false} SumsRemove(cs: seq<Client>, i: nat)
    requires i < |cs|
    ensures TotalBuffered(RemoveAt(cs, i)) + cs[i].buffered == TotalBuffered(cs)
    ensures CompleteCount(RemoveAt(cs, i)) + (if cs[i].handshakeComplete then 1 else 0) == CompleteCount(cs)
  {
    if i == 0 {
      assert RemoveAt(cs, 0) == cs[1..];
    } else {
      assert RemoveAt(cs, i)[1..] == RemoveAt(cs[1..], i - 1);
      SumsRemove(cs[1..], i - 1);
    }
  }
}
