/** The tables of PeerToPeer as the objects they are: arrays of shared references, scanned and updated in
    place under the mutexes.  Snapshot() reads the whole heap structure as a PeerRegistry value; every method
    is tied to the section of PeerRegistry that says what it finds or changes. */
module PeerToPeerTables {
  import opened Options
  import opened PeerRegistry

  /** A connection with the notifications it has had. */
  datatype Wired = Wired(conn: Conn, congSignals: nat, readSignals: nat, discSignals: nat)

  function Woken(w: Wired): Wired { w.(congSignals := w.congSignals + 1, readSignals := w.readSignals + 1) }

  /** Turning NFC off: a server's connection, or a client's when it is up, goes down and is woken. */
  function TakenDown(w: Wired): Wired { Woken(w.(conn := w.conn.(nfa := INVALID))) }

  function ClientTakenDown(w: Wired): Wired { if w.conn.nfa == INVALID then w else TakenDown(w) }

  /** The stack's disconnect event tells the thread that asked for it, too. */
  function Disconnected(w: Wired): Wired { TakenDown(w).(discSignals := w.discSignals + 1) }

  /** NfaConn.  The last three fields count the notifications of mCongEvent, mReadEvent and mDisconnectingEvent. */
  class NfaConn {
    var nfaConnHandle: int
    var jniHandle: nat
    var maxInfoUnit: int
    var recvWindow: int
    var remoteMaxInfoUnit: int
    var remoteRecvWindow: int
    var congSignals: nat
    var readSignals: nat
    var discSignals: nat

    constructor ()
      ensures Value() == NewConn(0)
    {
      nfaConnHandle, jniHandle := INVALID, 0;
      maxInfoUnit, recvWindow, remoteMaxInfoUnit, remoteRecvWindow := 0, 0, 0, 0;
      congSignals, readSignals, discSignals := 0, 0, 0;
    }

    function Value(): Conn
      reads this
    {
      Conn(nfaConnHandle, jniHandle, maxInfoUnit, recvWindow, remoteMaxInfoUnit, remoteRecvWindow)
    }

    function Whole(): Wired
      reads this
    {
      Wired(Value(), congSignals, readSignals, discSignals)
    }

    predicate Answers(key: Key)
      reads this
    {
      match key
      case ByJni(h) => jniHandle == h
      case ByNfa(h) => nfaConnHandle == h
    }
  }

  /** P2pClient.  The last field counts the notifications of mConnectingEvent. */
  class P2pClient {
    var nfaP2pClientHandle: int
    var isConnecting: bool
    const clientConn: NfaConn
    var connectingSignals: nat

    constructor ()
      ensures Value() == Client(INVALID, false, clientConn)
      ensures fresh(clientConn) && clientConn.Value() == NewConn(0)
    {
      nfaP2pClientHandle, isConnecting, connectingSignals := INVALID, false, 0;
      clientConn := new NfaConn();
    }

    function Value(): Client<NfaConn>
      reads this
    {
      Client(nfaP2pClientHandle, isConnecting, clientConn)
    }
  }

  function Occupants<T>(slots: seq<Option<T>>): set<T> {
    set i | 0 <= i < |slots| && slots[i].Some? :: slots[i].value
  }

  class P2pServer {
    var nfaP2pServerHandle: int
    var jniHandle: nat
    const serviceName: string
    const serverConn: array<Option<NfaConn>>

    constructor (jni: nat, name: string)
      ensures Value() == Server(INVALID, jni, name, NoConns())
      ensures fresh(serverConn) && serverConn.Length == MAX_SERVER_CONNS
    {
      nfaP2pServerHandle, jniHandle, serviceName := INVALID, jni, name;
      serverConn := new Option<NfaConn>[MAX_SERVER_CONNS](_ => None);
      new;
      assert serverConn[..] == NoConns<NfaConn>();
    }

    function Value(): Server<NfaConn>
      reads this, serverConn
    {
      Server(nfaP2pServerHandle, jniHandle, serviceName, serverConn[..])
    }

    predicate Answers(key: ServerKey)
      reads this
    {
      match key
      case ServerByJni(h) => jniHandle == h
      case ServerByNfa(h) => nfaP2pServerHandle == h
      case ServerByName(n) => serviceName == n
    }

    /** The slot of the first connection with this handle. */
    ghost function Place(key: Key): nat
      reads this, serverConn, Occupants(serverConn[..])
    {
      First(serverConn[..], set c | c in Occupants(serverConn[..]) && c.Answers(key))
    }

    method FindServerConnection(key: Key) returns (found: Option<NfaConn>)
      ensures found == At(serverConn[..], Place(key))
    {
      for j := 0 to serverConn.Length
        invariant forall i :: 0 <= i < j && serverConn[i].Some? ==> !serverConn[i].value.Answers(key)
      {
        if serverConn[j].Some? && serverConn[j].value.Answers(key) {
          assert serverConn[..][j].value in Occupants(serverConn[..]);
          return serverConn[j];
        }
      }
      return None;
    }

    method RemoveServerConnection(jni: nat) returns (ok: bool)
      modifies serverConn
      ensures ok == (old(Place(ByJni(jni))) < serverConn.Length)
      ensures serverConn[..] == (if ok then old(serverConn[..])[old(Place(ByJni(jni))) := None]
                                 else old(serverConn[..]))
    {
      for j := 0 to serverConn.Length
        invariant serverConn[..] == old(serverConn[..])
        invariant forall i :: 0 <= i < j && serverConn[i].Some? ==> !serverConn[i].value.Answers(ByJni(jni))
      {
        if serverConn[j].Some? && serverConn[j].value.jniHandle == jni {
          assert serverConn[..][j].value in Occupants(serverConn[..]);
          serverConn[j] := None;
          return true;
        }
      }
      return false;
    }

    /** `made` is the connection allocated, if a slot was free. */
    method AllocateConnection(jni: nat) returns (made: Option<NfaConn>)
      modifies serverConn
      ensures made.Some? <==> FirstFree(old(serverConn[..])) < serverConn.Length
      ensures made.Some? ==> fresh(made.value) && made.value.Value() == NewConn(jni)
      ensures serverConn[..] ==
                if made.Some? then old(serverConn[..])[FirstFree(old(serverConn[..])) := made] else old(serverConn[..])
    {
      for j := 0 to serverConn.Length
        invariant serverConn[..] == old(serverConn[..])
        invariant forall i :: 0 <= i < j ==> serverConn[i].Some?
      {
        if serverConn[j].None? {
          var c := new NfaConn();
          c.jniHandle := jni;
          serverConn[j] := Some(c);
          return Some(c);
        }
      }
      return None;
    }

    /** Every connection of the table goes down, and its senders and receivers are woken once. */
    method UnblockAll()
      requires NoRepeats(serverConn[..])
      modifies Occupants(serverConn[..])
      ensures forall c <- Occupants(serverConn[..]) :: c.Whole() == TakenDown(old(c.Whole()))
    {
      for j := 0 to serverConn.Length
        invariant forall i :: 0 <= i < j && serverConn[i].Some? ==>
                    serverConn[i].value.Whole() == TakenDown(old(serverConn[i].value.Whole()))
        invariant forall i :: j <= i < serverConn.Length && serverConn[i].Some? ==> unchanged(serverConn[i].value)
      {
        if serverConn[j].Some? {
          var c := serverConn[j].value;
          assert serverConn[..][j].value in Occupants(serverConn[..]);
          assert forall i :: 0 <= i < serverConn.Length && i != j ==> serverConn[..][i] != serverConn[..][j];
          c.nfaConnHandle := INVALID;
          c.congSignals := c.congSignals + 1;
          c.readSignals := c.readSignals + 1;
        }
      }
    }
  }

  /** Scanning for one set finds the same slot as scanning for another that agrees on the occupants. */
  lemma {:induction false} FirstAgrees<T>(slots: seq<Option<T>>, a: set<T>, b: set<T>)
    requires forall x <- Occupants(slots) :: x in a <==> x in b
    ensures First(slots, a) == First(slots, b)
  {
    var i, j := First(slots, a), First(slots, b);
    if i < |slots| { assert slots[i].value in Occupants(slots); }
    if j < |slots| { assert slots[j].value in Occupants(slots); }
  }

  lemma NfcOffPointwise<S, K, C>(r: Registry<S, K, C>, conns: map<C, Conn>)
    requires conns.Keys == r.conns.Keys
    requires forall c <- r.conns ::
               conns[c] == if ViaServer(r, c) || ViaClient(r, c) then r.conns[c].(nfa := INVALID) else r.conns[c]
    ensures NfcOff(r) == r.(conns := conns)
  {
  }

  method FreeSlot<T>(slots: array<Option<T>>) returns (i: nat)
    ensures i == FirstFree(slots[..])
  {
    i := 0;
    while i < slots.Length && slots[i].Some?
      invariant i <= slots.Length
      invariant forall j :: 0 <= j < i ==> slots[j].Some?
    {
      i := i + 1;
    }
  }

  class PeerToPeer {
    const servers: array<Option<P2pServer>>
    const clients: array<Option<P2pClient>>
    var isP2pListening: bool

    /** Every object ever made: other threads may hold references to objects no longer in the tables. */
    ghost var madeServers: set<P2pServer>
    ghost var madeClients: set<P2pClient>
    ghost var madeConns: set<NfaConn>

    ghost function Tables(): set<object>
      reads this
    {
      {this, servers, clients} + set s | s in madeServers :: s.serverConn
    }

    ghost function Objects(): set<object>
      reads this
    {
      Tables() + madeServers + madeClients + madeConns
    }

    ghost function Snapshot(): Registry<P2pServer, P2pClient, NfaConn>
      reads Objects()
    {
      Registry(servers[..], clients[..],
               map s | s in madeServers :: s.Value(),
               map k | k in madeClients :: k.Value(),
               map c | c in madeConns :: c.Value())
    }

    /** Tables of the declared sizes, no dangling references, no table shared between servers. */
    ghost predicate Valid()
      reads Tables()
    {
      && servers.Length == MAX_SLOTS && clients.Length == MAX_SLOTS
      && Occupants(servers[..]) <= madeServers && Occupants(clients[..]) <= madeClients
      && (forall k <- madeClients :: k.clientConn in madeConns)
      && (forall s <- madeServers :: s.serverConn.Length == MAX_SERVER_CONNS
                                     && Occupants(s.serverConn[..]) <= madeConns)
      && (forall s <- madeServers :: forall t <- madeServers :: s != t ==> s.serverConn != t.serverConn)
    }

    lemma SnapshotIsWf()
      requires Valid()
      ensures Wf(Snapshot())
    {
      var r := Snapshot();
      forall i | 0 <= i < |r.serverSlots| && r.serverSlots[i].Some? ensures r.serverSlots[i].value in r.servers {
        assert r.serverSlots[i].value in Occupants(servers[..]);
      }
      forall i | 0 <= i < |r.clientSlots| && r.clientSlots[i].Some? ensures r.clientSlots[i].value in r.clients {
        assert r.clientSlots[i].value in Occupants(clients[..]);
      }
      forall s, j | s in r.servers && 0 <= j < |r.servers[s].slots| && r.servers[s].slots[j].Some?
        ensures r.servers[s].slots[j].value in r.conns
      {
        assert r.servers[s].slots[j].value in Occupants(s.serverConn[..]);
      }
    }

    constructor ()
      ensures Valid() && fresh(Objects())
      ensures Snapshot() == NfcOn(Snapshot()) && Members(Snapshot()) == {} && !isP2pListening
    {
      servers := new Option<P2pServer>[MAX_SLOTS](_ => None);
      clients := new Option<P2pClient>[MAX_SLOTS](_ => None);
      madeServers, madeClients, madeConns := {}, {}, {};
      isP2pListening := false;
    }

    /** findServerLocked, in its three forms */
    method FindServerLocked(key: ServerKey) returns (found: Option<P2pServer>)
      requires Valid()
      ensures found == FindServer(Snapshot(), key)
    {
      for i := 0 to servers.Length
        invariant forall j :: 0 <= j < i && servers[j].Some? ==> servers[j].value !in ServerHits(Snapshot(), key)
      {
        if servers[i].Some? && servers[i].value.Answers(key) {
          assert Snapshot().serverSlots[i].value in ServerHits(Snapshot(), key);
          return servers[i];
        }
      }
      return None;
    }

    /** findClient by JNI handle and findClientCon */
    method FindClientByConn(key: Key) returns (found: Option<P2pClient>)
      requires Valid()
      ensures found == FindClient(Snapshot(), key)
    {
      for i := 0 to clients.Length
        invariant forall j :: 0 <= j < i && clients[j].Some? ==> clients[j].value !in ClientHits(Snapshot(), key)
      {
        if clients[i].Some? && clients[i].value.clientConn.Answers(key) {
          assert Snapshot().clientSlots[i].value in ClientHits(Snapshot(), key);
          return clients[i];
        }
      }
      return None;
    }

    /** findClient by the client's own handle */
    method FindClientByHandle(h: int) returns (found: Option<P2pClient>)
      requires Valid()
      ensures found == FindClientByNfa(Snapshot(), h)
    {
      for i := 0 to clients.Length
        invariant forall j :: 0 <= j < i && clients[j].Some? ==> clients[j].value !in ClientNfaHits(Snapshot(), h)
      {
        if clients[i].Some? && clients[i].value.nfaP2pClientHandle == h {
          assert Snapshot().clientSlots[i].value in ClientNfaHits(Snapshot(), h);
          return clients[i];
        }
      }
      return None;
    }

    /** A server's own scan, seen from the registry. */
    lemma PlaceIsFirst(s: P2pServer, key: Key)
      requires Valid() && s in madeServers
      ensures s.Place(key) == First(Snapshot().servers[s].slots, ConnHits(Snapshot(), key))
    {
      var own := set c | c in Occupants(s.serverConn[..]) && c.Answers(key);
      FirstAgrees(s.serverConn[..], own, ConnHits(Snapshot(), key));
    }

    /** findConnection, in its two forms: the clients, then each server's table */
    method FindConn(key: Key) returns (found: Option<NfaConn>)
      requires Valid()
      ensures found == FindConnection(Snapshot(), key)
    {
      var client := FindClientByConn(key);
      if client.Some? {
        return Some(client.value.clientConn);
      }
      found := FindOnServers(key);
    }

    method FindOnServer(s: P2pServer, key: Key, ghost r: Registry<P2pServer, P2pClient, NfaConn>)
      returns (found: Option<NfaConn>)
      requires Valid() && s in madeServers && r == Snapshot()
      ensures found == FindServerConn(r, s, key)
      ensures found.Some? <==> s in HolderHits(r, key)
    {
      PlaceIsFirst(s, key);
      found := s.FindServerConnection(key);
    }

    method FindOnServers(key: Key) returns (found: Option<NfaConn>)
      requires Valid()
      ensures found == match FindHolder(Snapshot(), key)
                       case Some(s) => FindServerConn(Snapshot(), s, key)
                       case None => None
    {
      ghost var r := Snapshot();
      found := None;
      var i := 0;
      while i < servers.Length && found.None?
        invariant i <= servers.Length
        invariant Snapshot() == r && Valid()
        invariant found.None? ==> forall j :: 0 <= j < i && r.serverSlots[j].Some? ==>
                    r.serverSlots[j].value !in HolderHits(r, key)
        invariant found.Some? ==> i > 0 && First(r.serverSlots, HolderHits(r, key)) == i - 1
        invariant found.Some? ==>
                    r.serverSlots[i - 1].value in r.servers
                      && found == FindServerConn(r, r.serverSlots[i - 1].value, key)
      {
        assert r.serverSlots[i] == servers[i];
        found := FindInSlot(i, key, r);
        i := i + 1;
      }
    }

    method FindInSlot(i: nat, key: Key, ghost r: Registry<P2pServer, P2pClient, NfaConn>)
      returns (found: Option<NfaConn>)
      requires Valid() && i < servers.Length && r == Snapshot()
      ensures found.Some? <==> servers[i].Some? && servers[i].value in HolderHits(r, key)
      ensures found.Some? ==> servers[i].value in r.servers && found == FindServerConn(r, servers[i].value, key)
    {
      found := None;
      if servers[i].Some? {
        assert servers[..][i].value in Occupants(servers[..]);
        found := FindOnServer(servers[i].value, key, r);
      }
    }

    /** registerServer, up to the release of mMutex.  `srv` is None when the table is full. */
    method RegisterServerSection(jni: nat, name: string) returns (srv: Option<P2pServer>, known: bool)
      requires Valid()
      modifies this`madeServers, servers, madeServers
      ensures Valid()
      ensures known <==> FindServer(old(Snapshot()), ServerByName(name)).Some?
      ensures srv.None? ==> Snapshot() == old(Snapshot()) && FirstFree(old(servers[..])) == MAX_SLOTS
      ensures srv.Some? && !known ==> fresh(srv.value)
      ensures srv.Some? ==> Snapshot() == RegisterServer(old(Snapshot()), jni, name, srv.value)
    {
      ghost var r := Snapshot();
      srv := FindServerLocked(ServerByName(name));
      assert Snapshot() == r && Valid();
      known := srv.Some?;
      if known {
        SetServerJniHandle(srv.value, jni);
        assert Snapshot() == RegisterServer(r, jni, name, srv.value);
      } else {
        srv := AddServer(jni, name);
        assert srv.Some? ==> Snapshot() == RegisterServer(r, jni, name, srv.value);
      }
    }

    method SetServerJniHandle(s: P2pServer, jni: nat)
      requires Valid() && s in madeServers
      modifies s
      ensures Valid()
      ensures Snapshot() == old(Snapshot()).(servers := old(Snapshot()).servers[s := old(s.Value()).(jni := jni)])
    {
      ghost var r := Snapshot();
      s.jniHandle := jni;
      assert Snapshot().servers == r.servers[s := r.servers[s].(jni := jni)];
    }

    /** ... adding a server: the new object, then the new state of the tables */
    method StoreNewServer(jni: nat, name: string) returns (srv: Option<P2pServer>)
      modifies this`madeServers, servers
      ensures var i := FirstFree(old(servers[..]));
              if i == servers.Length then srv.None? && servers[..] == old(servers[..])
                 && madeServers == old(madeServers)
              else && srv.Some? && fresh(srv.value) && fresh(srv.value.serverConn)
                   && srv.value.Value() == Server(INVALID, jni, name, NoConns())
                   && servers[..] == old(servers[..])[i := srv] && madeServers == old(madeServers) + {srv.value}
    {
      var i := FreeSlot(servers);
      if i == servers.Length {
        return None;
      }
      var s := new P2pServer(jni, name);
      servers[i] := Some(s);
      madeServers := madeServers + {s};
      srv := Some(s);
    }

    method AddServer(jni: nat, name: string) returns (srv: Option<P2pServer>)
      requires Valid()
      modifies this`madeServers, servers
      ensures Valid()
      ensures srv.Some? <==> FirstFree(old(servers[..])) < MAX_SLOTS
      ensures srv.Some? ==> fresh(srv.value)
      ensures Snapshot() == if srv.None? then old(Snapshot()) else old(Snapshot()).(
                servers := old(Snapshot()).servers[srv.value := Server(INVALID, jni, name, NoConns())],
                serverSlots := old(servers[..])[FirstFree(old(servers[..])) := srv])
    {
      srv := StoreNewServer(jni, name);
      if srv.Some? {
        AddedSnapshot(srv.value);
        assert forall t <- old(madeServers) :: t.serverConn[..] == old(t.serverConn[..]);
      }
    }

    twostate lemma AddedSnapshot(new s: P2pServer)
      requires old(Valid()) && fresh(s) && fresh(s.serverConn)
      requires madeServers == old(madeServers) + {s} && madeClients == old(madeClients) && madeConns == old(madeConns)
      requires unchanged(clients) && unchanged(old(madeServers), old(madeClients), old(madeConns))
      requires forall t <- old(madeServers) :: unchanged(t.serverConn)
      ensures Snapshot() == old(Snapshot()).(serverSlots := servers[..],
                                             servers := old(Snapshot()).servers[s := s.Value()])
    {
      assert forall t <- old(madeServers) :: t.Value() == old(t.Value());
    }

    /** Where only the two tables' slots have changed */
    twostate lemma SlotsSnapshot()
      requires old(Valid()) && unchanged(this`madeServers, this`madeClients, this`madeConns)
      requires unchanged(madeServers, madeClients, madeConns) && forall s <- madeServers :: unchanged(s.serverConn)
      ensures Snapshot() == old(Snapshot()).(serverSlots := servers[..], clientSlots := clients[..])
    {
      assert forall s <- madeServers :: s.Value() == old(s.Value());
    }

    /** removeServer */
    method RemoveServerSection(jni: nat)
      requires Valid()
      modifies servers
      ensures Valid() && Snapshot() == RemoveServer(old(Snapshot()), jni)
    {
      ghost var r := Snapshot();
      for i := 0 to servers.Length
        invariant Snapshot() == r
        invariant forall j :: 0 <= j < i && servers[j].Some? ==> servers[j].value !in ServerHits(r, ServerByJni(jni))
      {
        if servers[i].Some? && servers[i].value.jniHandle == jni {
          assert r.serverSlots[i].value in ServerHits(r, ServerByJni(jni));
          servers[i] := None;
          SlotsSnapshot();
          return;
        }
      }
    }

    /** createClient, up to the release of mMutex */
    method StoreNewClient(jni: nat, miu: int, rw: int) returns (client: Option<P2pClient>)
      modifies this`madeClients, this`madeConns, clients
      ensures var i := FirstFree(old(clients[..]));
              if i == clients.Length
              then client.None? && clients[..] == old(clients[..]) && madeClients == old(madeClients)
                   && madeConns == old(madeConns)
              else && client.Some? && fresh(client.value) && fresh(client.value.clientConn)
                   && client.value.Value() == Client(INVALID, false, client.value.clientConn)
                   && client.value.clientConn.Value() == NewConn(jni).(miu := miu, recvWindow := rw)
                   && clients[..] == old(clients[..])[i := client] && madeClients == old(madeClients) + {client.value}
                   && madeConns == old(madeConns) + {client.value.clientConn}
    {
      var i := FreeSlot(clients);
      if i == clients.Length {
        return None;
      }
      var k := new P2pClient();
      k.clientConn.jniHandle, k.clientConn.maxInfoUnit, k.clientConn.recvWindow := jni, miu, rw;
      clients[i] := Some(k);
      madeClients, madeConns := madeClients + {k}, madeConns + {k.clientConn};
      client := Some(k);
    }

    method CreateClientSection(jni: nat, miu: int, rw: int) returns (client: Option<P2pClient>)
      requires Valid()
      modifies this`madeClients, this`madeConns, clients
      ensures Valid()
      ensures client.Some? <==> FirstFree(old(clients[..])) < MAX_SLOTS
      ensures client.Some? ==> fresh(client.value) && fresh(client.value.clientConn)
      ensures Snapshot() == match client
                            case Some(k) => CreateClient(old(Snapshot()), jni, miu, rw, k, k.clientConn)
                            case None => old(Snapshot())
    {
      client := StoreNewClient(jni, miu, rw);
      if client.Some? {
        NewClientSnapshot(client.value);
      }
    }

    twostate lemma NewClientSnapshot(new k: P2pClient)
      requires old(Valid()) && fresh(k) && fresh(k.clientConn)
      requires madeServers == old(madeServers) && madeClients == old(madeClients) + {k}
      requires madeConns == old(madeConns) + {k.clientConn}
      requires unchanged(servers) && (forall s <- old(madeServers) :: unchanged(s, s.serverConn))
      requires (forall l <- old(madeClients) :: unchanged(l)) && (forall c <- old(madeConns) :: unchanged(c))
      ensures Snapshot() == old(Snapshot()).(clientSlots := clients[..],
                                             clients := old(Snapshot()).clients[k := k.Value()],
                                             conns := old(Snapshot()).conns[k.clientConn := k.clientConn.Value()])
    {
      assert Snapshot().servers == old(Snapshot()).servers;
    }

    method StoreNewConn(s: P2pServer, jni: nat) returns (made: Option<NfaConn>)
      modifies this`madeConns, s.serverConn
      ensures var j := FirstFree(old(s.serverConn[..]));
              if j == s.serverConn.Length
              then made.None? && s.serverConn[..] == old(s.serverConn[..]) && madeConns == old(madeConns)
              else && made.Some? && fresh(made.value) && made.value.Value() == NewConn(jni)
                   && s.serverConn[..] == old(s.serverConn[..])[j := made] && madeConns == old(madeConns) + {made.value}
    {
      made := s.AllocateConnection(jni);
      if made.Some? {
        madeConns := madeConns + {made.value};
      }
    }

    /** accept's allocateConnection, on a server of the tables or one just removed from them */
    method AllocateSection(s: P2pServer, jni: nat) returns (made: Option<NfaConn>)
      requires Valid() && s in madeServers
      modifies this`madeConns, s.serverConn
      ensures Valid()
      ensures made.Some? <==> FirstFree(old(s.serverConn[..])) < MAX_SERVER_CONNS
      ensures made.Some? ==> fresh(made.value)
      ensures Snapshot() == match made
                            case Some(c) => AllocateConnection(old(Snapshot()), s, jni, c)
                            case None => old(Snapshot())
    {
      made := StoreNewConn(s, jni);
      if made.Some? {
        AllocatedSnapshot(s, made.value);
      }
    }

    twostate lemma AllocatedSnapshot(s: P2pServer, new c: NfaConn)
      requires old(Valid()) && s in old(madeServers) && fresh(c)
      requires madeServers == old(madeServers) && madeClients == old(madeClients) && madeConns == old(madeConns) + {c}
      requires unchanged(servers, clients) && unchanged(old(madeServers), old(madeClients), old(madeConns))
      requires forall t <- madeServers :: t != s ==> unchanged(t.serverConn)
      ensures Snapshot() == old(Snapshot()).(servers := old(Snapshot()).servers[s := s.Value()],
                                             conns := old(Snapshot()).conns[c := c.Value()])
    {
      assert Snapshot().servers == old(Snapshot()).servers[s := s.Value()];
    }

    /** removeServerConnection, called by removeConn and by accept */
    method DropServerConn(s: P2pServer, jni: nat) returns (ok: bool)
      requires Valid() && s in madeServers
      modifies s.serverConn
      ensures Valid() && Snapshot() == RemoveServerConnection(old(Snapshot()), s, jni)
      ensures ok <==> s in HolderHits(old(Snapshot()), ByJni(jni))
    {
      PlaceIsFirst(s, ByJni(jni));
      ok := s.RemoveServerConnection(jni);
      ReslottedSnapshot(s);
    }

    twostate lemma ReslottedSnapshot(s: P2pServer)
      requires old(Valid()) && s in madeServers
      requires unchanged(this, servers, clients) && unchanged(old(madeServers), old(madeClients), old(madeConns))
      requires forall t <- madeServers :: t != s ==> unchanged(t.serverConn)
      ensures Snapshot() == old(Snapshot()).(servers := old(Snapshot()).servers[s := s.Value()])
    {
      assert Snapshot().conns == old(Snapshot()).conns;
    }

    /** removeConn: a client goes with its slot, a server's connection out of that server's table */
    method RemoveConnSection(jni: nat)
      requires Valid()
      modifies clients, set s | s in madeServers :: s.serverConn
      ensures Valid() && Snapshot() == RemoveConn(old(Snapshot()), jni)
    {
      ghost var r := Snapshot();
      var i := ClientSlot(jni);
      assert Snapshot() == r && Valid();
      if i < clients.Length {
        clients[i] := None;
        SlotsSnapshot();
      } else {
        RemoveFromServers(jni);
      }
    }

    method ClientSlot(jni: nat) returns (i: nat)
      requires Valid()
      ensures i == First(clients[..], ClientHits(Snapshot(), ByJni(jni)))
    {
      i := 0;
      while i < clients.Length && !(clients[i].Some? && clients[i].value.clientConn.jniHandle == jni)
        invariant i <= clients.Length
        invariant forall j :: 0 <= j < i && clients[j].Some? ==> clients[j].value !in ClientHits(Snapshot(), ByJni(jni))
      {
        i := i + 1;
      }
      assert i < clients.Length ==> clients[..][i].value in Occupants(clients[..]);
    }

    method RemoveFromServers(jni: nat)
      requires Valid()
      modifies set s | s in madeServers :: s.serverConn
      ensures Valid()
      ensures Snapshot() == match FindHolder(old(Snapshot()), ByJni(jni))
                            case Some(s) => RemoveServerConnection(old(Snapshot()), s, jni)
                            case None => old(Snapshot())
    {
      ghost var r := Snapshot();
      var i, ok := 0, false;
      while i < servers.Length && !ok
        invariant i <= servers.Length && Valid()
        invariant !ok ==> Snapshot() == r
        invariant !ok ==> forall j :: 0 <= j < i && r.serverSlots[j].Some? ==>
                    r.serverSlots[j].value !in HolderHits(r, ByJni(jni))
        invariant ok ==> i > 0 && First(r.serverSlots, HolderHits(r, ByJni(jni))) == i - 1
        invariant ok ==> r.serverSlots[i - 1].Some? && r.serverSlots[i - 1].value in r.servers
                         && Snapshot() == RemoveServerConnection(r, r.serverSlots[i - 1].value, jni)
      {
        assert r.serverSlots[i] == servers[i];
        ok := DropFromSlot(i, jni, r);
        i := i + 1;
      }
    }

    method DropFromSlot(i: nat, jni: nat, ghost r: Registry<P2pServer, P2pClient, NfaConn>) returns (ok: bool)
      requires Valid() && i < servers.Length && r == Snapshot()
      modifies set s | s in madeServers :: s.serverConn
      ensures Valid()
      ensures ok <==> servers[i].Some? && servers[i].value in HolderHits(r, ByJni(jni))
      ensures Snapshot() == if ok then RemoveServerConnection(r, servers[i].value, jni) else r
    {
      ok := false;
      if servers[i].Some? {
        assert servers[..][i].value in Occupants(servers[..]);
        ok := DropServerConn(servers[i].value, jni);
      }
    }

    /** One write to the handle of a connection, in the tables or not */
    method SetHandle(c: NfaConn, h: int)
      requires Valid() && c in madeConns
      modifies c`nfaConnHandle
      ensures Valid() && Snapshot() == SetConnHandle(old(Snapshot()), c, h)
    {
      ghost var r := Snapshot();
      c.nfaConnHandle := h;
      assert Snapshot().conns == r.conns[c := c.Value()];
    }

    /** The stack's disconnect event, as far as the tables: the connection it names goes down, and the thread
        disconnecting it, its senders and its receivers are woken. */
    method CloseConnection(h: int) returns (found: Option<NfaConn>)
      requires Valid()
      modifies madeConns
      ensures Valid() && found == FindConnection(old(Snapshot()), ByNfa(h))
      ensures Snapshot() == match found
                            case Some(c) => SetConnHandle(old(Snapshot()), c, INVALID)
                            case None => old(Snapshot())
      ensures forall c <- madeConns :: c.Whole() == if found == Some(c) then Disconnected(old(c.Whole()))
              else old(c.Whole())
    {
      ghost var r := Snapshot();
      found := FindConn(ByNfa(h));
      assert Snapshot() == r && Valid();
      if found.Some? {
        FoundExists(ByNfa(h));
        Close(found.value);
      }
    }

    method Close(c: NfaConn)
      requires Valid() && c in madeConns
      modifies c
      ensures Valid() && Snapshot() == SetConnHandle(old(Snapshot()), c, INVALID)
              && c.Whole() == Disconnected(old(c.Whole()))
    {
      SetHandle(c, INVALID);
      Wake(c);
    }

    method Wake(c: NfaConn)
      requires Valid() && c in madeConns
      modifies c`discSignals, c`congSignals, c`readSignals
      ensures Valid() && Snapshot() == old(Snapshot())
      ensures c.Whole() == Woken(old(c.Whole())).(discSignals := old(c.discSignals) + 1)
    {
      c.discSignals := c.discSignals + 1;
      c.congSignals := c.congSignals + 1;
      c.readSignals := c.readSignals + 1;
    }

    lemma FoundExists(key: Key)
      requires Valid() && FindConnection(Snapshot(), key).Some?
      ensures FindConnection(Snapshot(), key).value in madeConns
    {
      SnapshotIsWf();
      ScanFindsAMember(Snapshot(), key);
    }

    /** handleNfcOnOff(true) */
    method TurnOn()
      requires Valid()
      modifies servers, clients
      ensures Valid() && Snapshot() == NfcOn(old(Snapshot()))
    {
      forall i | 0 <= i < servers.Length { servers[i] := None; }
      forall i | 0 <= i < clients.Length { clients[i] := None; }
      SlotsSnapshot();
    }

    /** What turning NFC off does to one client: a client still connecting is woken; a connected one goes
        down and its senders and receivers are woken. */
    method DisconnectClient(k: P2pClient)
      modifies k`connectingSignals, k.clientConn
      ensures k.clientConn.Whole() == ClientTakenDown(old(k.clientConn.Whole()))
      ensures k.connectingSignals == old(k.connectingSignals)
                                     + if old(k.clientConn.nfaConnHandle) == INVALID then 1 else 0
    {
      if k.clientConn.nfaConnHandle == INVALID {
        k.connectingSignals := k.connectingSignals + 1;
      } else {
        k.clientConn.nfaConnHandle := INVALID;
        k.clientConn.congSignals := k.clientConn.congSignals + 1;
        k.clientConn.readSignals := k.clientConn.readSignals + 1;
      }
    }

    /** The connections of the clients in the first slots */
    ghost function ClientConns(n: nat): set<NfaConn>
      requires n <= clients.Length
      reads clients
    {
      set k | k in Occupants(clients[..n]) :: k.clientConn
    }

    /** The connections in the tables of the servers in the first slots */
    ghost function ServerConns(n: nat): set<NfaConn>
      requires n <= servers.Length
      reads servers, set s | s in Occupants(servers[..n]) :: s.serverConn
    {
      set s, c | s in Occupants(servers[..n]) && c in Occupants(s.serverConn[..]) :: c
    }

    ghost predicate OneOwner()
      reads Tables()
    {
      && Valid() && NoRepeats(clients[..]) && NoRepeats(servers[..])
      && (forall s <- madeServers :: NoRepeats(s.serverConn[..]))
      && (forall k <- madeClients :: forall l <- madeClients :: k.clientConn == l.clientConn ==> k == l)
      && (forall s <- madeServers :: forall t <- madeServers ::
            s != t ==> Occupants(s.serverConn[..]) !! Occupants(t.serverConn[..]))
      && (forall k <- madeClients :: forall s <- madeServers :: k.clientConn !in Occupants(s.serverConn[..]))
    }

    method DisconnectClients()
      requires OneOwner()
      modifies madeClients, madeConns
      ensures OneOwner()
      ensures forall k <- madeClients :: k.Value() == old(k.Value()) && k.connectingSignals ==
                old(k.connectingSignals)
                + if k in Occupants(clients[..]) && old(k.clientConn.nfaConnHandle) == INVALID then 1 else 0
      ensures forall c <- madeConns :: c.Whole() ==
                if c in ClientConns(clients.Length) then ClientTakenDown(old(c.Whole())) else old(c.Whole())
    {
      for i := 0 to clients.Length
        invariant OneOwner()
        invariant forall k <- madeClients :: k.Value() == old(k.Value()) && k.connectingSignals ==
                    old(k.connectingSignals)
                    + if k in Occupants(clients[..i]) && old(k.clientConn.nfaConnHandle) == INVALID then 1 else 0
        invariant forall c <- madeConns :: c.Whole() ==
                    if c in ClientConns(i) then ClientTakenDown(old(c.Whole())) else old(c.Whole())
      {
        NextClient(i);
        DisconnectSlot(i);
      }
      assert clients[..clients.Length] == clients[..];
    }

    method DisconnectSlot(i: nat)
      requires OneOwner() && i < clients.Length
      modifies madeClients, madeConns
      ensures OneOwner()
      ensures forall k <- madeClients :: k.Value() == old(k.Value()) && k.connectingSignals ==
                old(k.connectingSignals)
                + if Some(k) == clients[i] && old(k.clientConn.nfaConnHandle) == INVALID then 1 else 0
      ensures forall c <- madeConns :: c.Whole() ==
                if clients[i].Some? && c == clients[i].value.clientConn then ClientTakenDown(old(c.Whole()))
                   else old(c.Whole())
    {
      if clients[i].Some? {
        assert clients[..][i].value in Occupants(clients[..]);
        DisconnectClient(clients[i].value);
      }
    }

    lemma NextClient(i: nat)
      requires OneOwner() && i < clients.Length
      ensures clients[..i + 1] == clients[..i] + [clients[i]]
      ensures clients[i].None? ==>
                Occupants(clients[..i + 1]) == Occupants(clients[..i]) && ClientConns(i + 1) == ClientConns(i)
      ensures clients[i].Some? ==>
                var k := clients[i].value;
                && k in madeClients && k.clientConn in madeConns && k !in Occupants(clients[..i])
                && Occupants(clients[..i + 1]) == Occupants(clients[..i]) + {k}
                && k.clientConn !in ClientConns(i) && ClientConns(i + 1) == ClientConns(i) + {k.clientConn}
    {
      assert clients[..][i] == clients[i];
      assert forall j :: 0 <= j < i ==>
                           clients[..i][j] == clients[..][j] == clients[j]
                             && (clients[j].Some? ==> clients[j] != clients[i]);
      assert Occupants(clients[..i + 1]) == Occupants(clients[..i])
             + (if clients[i].Some? then {clients[i].value} else {}) by {
        assert forall j :: 0 <= j < i ==> clients[..i + 1][j] == clients[..i][j];
        assert clients[..i + 1][i] == clients[i];
      }
      assert Occupants(clients[..i]) <= Occupants(clients[..]) by {
        assert forall j :: 0 <= j < i && clients[..i][j].Some? ==> clients[..][j].value in Occupants(clients[..]);
      }
      if clients[i].Some? {
        assert clients[..][i].value in Occupants(clients[..]);
      }
    }

    method UnblockServers()
      requires OneOwner()
      modifies madeConns
      ensures forall c <- madeConns :: c.Whole() ==
                if c in ServerConns(servers.Length) then TakenDown(old(c.Whole())) else old(c.Whole())
    {
      for i := 0 to servers.Length
        invariant OneOwner()
        invariant forall c <- madeConns :: c.Whole() ==
                    if c in ServerConns(i) then TakenDown(old(c.Whole())) else old(c.Whole())
      {
        NextServer(i);
        UnblockSlot(i);
      }
    }

    method UnblockSlot(i: nat)
      requires OneOwner() && i < servers.Length
      modifies madeConns
      ensures OneOwner()
      ensures forall c <- madeConns :: c.Whole() ==
                if servers[i].Some? && c in Occupants(servers[i].value.serverConn[..])
                then TakenDown(old(c.Whole())) else old(c.Whole())
    {
      if servers[i].Some? {
        assert servers[..][i].value in Occupants(servers[..]);
        servers[i].value.UnblockAll();
      }
    }

    lemma NextServer(i: nat)
      requires OneOwner() && i < servers.Length
      ensures servers[i].None? ==> ServerConns(i + 1) == ServerConns(i)
      ensures servers[i].Some? ==>
                var own := Occupants(servers[i].value.serverConn[..]);
                own <= madeConns && own !! ServerConns(i) && ServerConns(i + 1) == ServerConns(i) + own
    {
      assert servers[..][i] == servers[i];
      assert forall j :: 0 <= j < i ==>
                           servers[..i][j] == servers[..][j] == servers[j]
                             && (servers[j].Some? ==> servers[j] != servers[i]);
      assert Occupants(servers[..i + 1]) == Occupants(servers[..i])
             + (if servers[i].Some? then {servers[i].value} else {}) by {
        assert forall j :: 0 <= j < i ==> servers[..i + 1][j] == servers[..i][j];
        assert servers[..i + 1][i] == servers[i];
      }
      assert Occupants(servers[..i]) <= Occupants(servers[..]) by {
        assert forall j :: 0 <= j < i && servers[..i][j].Some? ==> servers[..][j].value in Occupants(servers[..]);
      }
      if servers[i].Some? {
        assert servers[..][i].value in Occupants(servers[..]);
      }
    }

    /** In the registry's terms: every object has one owner, and the sweep reaches the members. */
    lemma OwnersFromRegistry()
      requires Valid() && Owned(Snapshot())
      ensures OneOwner()
    {
      var r := Snapshot();
      forall s | s in madeServers
        ensures NoRepeats(s.serverConn[..]) && forall c <- Occupants(s.serverConn[..]) :: Holds(r.servers[s].slots, c)
      {
        assert r.servers[s].slots == s.serverConn[..];
      }
      assert forall k <- madeClients :: r.clients[k].conn == k.clientConn;
    }

    lemma ClientConnsAreMembers()
      requires Valid()
      ensures forall c <- madeConns :: ViaClient(Snapshot(), c) <==> c in ClientConns(clients.Length)
    {
      var r := Snapshot();
      assert clients[..clients.Length] == clients[..];
      forall c | c in ClientConns(clients.Length) ensures ViaClient(r, c) {
        var k :| k in Occupants(clients[..]) && k.clientConn == c;
        assert k in r.clients && Holds(r.clientSlots, k) && r.clients[k].conn == c;
      }
      forall c | c in madeConns && ViaClient(r, c) ensures c in ClientConns(clients.Length) {
        var k :| k in r.clients && Holds(r.clientSlots, k) && r.clients[k].conn == c;
        assert k in Occupants(clients[..]);
      }
    }

    lemma ServerConnsAreMembers()
      requires Valid()
      ensures forall c <- madeConns :: ViaServer(Snapshot(), c) <==> c in ServerConns(servers.Length)
    {
      var r := Snapshot();
      assert servers[..servers.Length] == servers[..];
      forall c | c in ServerConns(servers.Length) ensures ViaServer(r, c) {
        var s :| s in Occupants(servers[..]) && c in Occupants(s.serverConn[..]);
        assert s in r.servers && Holds(r.serverSlots, s) && Holds(r.servers[s].slots, c);
      }
      forall c | c in madeConns && ViaServer(r, c) ensures c in ServerConns(servers.Length) {
        var s :| s in r.servers && Holds(r.serverSlots, s) && Holds(r.servers[s].slots, c);
        assert s in Occupants(servers[..]) && c in Occupants(s.serverConn[..]);
      }
    }

    lemma NoConnOfBoth()
      requires OneOwner()
      ensures ClientConns(clients.Length) !! ServerConns(servers.Length)
    {
      assert clients[..clients.Length] == clients[..] && servers[..servers.Length] == servers[..];
    }

    method Sweep()
      requires OneOwner()
      modifies madeClients, madeConns
      ensures forall c <- madeConns :: c.Whole() ==
                if c in ServerConns(servers.Length) then TakenDown(old(c.Whole()))
                else if c in ClientConns(clients.Length) then ClientTakenDown(old(c.Whole()))
                else old(c.Whole())
      ensures forall k <- madeClients :: k.Value() == old(k.Value()) && k.connectingSignals ==
                old(k.connectingSignals)
                + if k in Occupants(clients[..]) && old(k.clientConn.nfaConnHandle) == INVALID then 1 else 0
    {
      NoConnOfBoth();
      DisconnectClients();
      UnblockServers();
    }

    method SweepMembers(ghost r: Registry<P2pServer, P2pClient, NfaConn>)
      requires OneOwner() && r == Snapshot()
      modifies madeClients, madeConns
      ensures forall c <- madeConns :: c.Whole() ==
                if ViaServer(r, c) then TakenDown(old(c.Whole()))
                else if ViaClient(r, c) then ClientTakenDown(old(c.Whole()))
                else old(c.Whole())
      ensures forall k <- madeClients :: k.Value() == old(k.Value()) && k.connectingSignals ==
                old(k.connectingSignals)
                + if k in Occupants(clients[..]) && old(k.clientConn.nfaConnHandle) == INVALID then 1 else 0
    {
      ClientConnsAreMembers();
      ServerConnsAreMembers();
      Sweep();
    }

    /** The same sweep, in the registry's terms */
    twostate lemma SweptSnapshot(r: Registry<P2pServer, P2pClient, NfaConn>)
      requires r == old(Snapshot())
      requires unchanged(this`madeServers, this`madeClients, this`madeConns, servers, clients)
      requires forall s <- madeServers :: unchanged(s, s.serverConn)
      requires forall k <- madeClients :: k.Value() == old(k.Value())
      requires forall c <- madeConns ::
                 c.Value() == if ViaServer(r, c) || ViaClient(r, c) then old(c.Value()).(nfa := INVALID)
                              else old(c.Value())
      ensures Snapshot() == NfcOff(r)
    {
      NfcOffPointwise(r, Snapshot().conns);
      assert Snapshot().clients == r.clients;
      assert Snapshot().servers == r.servers;
    }

    /** handleNfcOnOff(false): every connection of the tables goes down, no slot changes, and each connection
        is woken once, except a client's that was not up: there the client itself is woken instead. */
    method TurnOff()
      requires OneOwner()
      modifies madeClients, madeConns
      ensures Valid() && Snapshot() == NfcOff(old(Snapshot()))
      ensures forall c <- madeConns :: c.Whole() ==
                if ViaServer(old(Snapshot()), c) then TakenDown(old(c.Whole()))
                else if ViaClient(old(Snapshot()), c) then ClientTakenDown(old(c.Whole()))
                else old(c.Whole())
      ensures forall k <- madeClients :: k.connectingSignals == old(k.connectingSignals) +
                if k in Occupants(clients[..]) && old(k.clientConn.nfaConnHandle) == INVALID then 1 else 0
    {
      ghost var r := Snapshot();
      SweepMembers(r);
      SweptSnapshot(r);
    }

    /** enableP2pListening; the stack's call, if one is made, is accepted or not. */
    method EnableP2pListening(enable: bool, listenMask: int, accepted: bool)
      requires Valid()
      modifies this`isP2pListening
      ensures isP2pListening == if !accepted || (enable && listenMask == 0) then old(isP2pListening) else enable
      ensures Valid() && Snapshot() == old(Snapshot())
    {
      if enable && !isP2pListening && listenMask != 0 {
        if accepted {
          isP2pListening := true;
        }
      } else if !enable && isP2pListening {
        if accepted {
          isP2pListening := false;
        }
      }
      FlagIsApart();
    }

    /** The flag is no part of the tables. */
    twostate lemma FlagIsApart()
      requires old(Valid())
      requires unchanged(this`madeServers, this`madeClients, this`madeConns, servers, clients)
      requires unchanged(madeServers, madeClients, madeConns) && forall s <- madeServers :: unchanged(s.serverConn)
      ensures Valid() && Snapshot() == old(Snapshot()) && (old(OneOwner()) ==> OneOwner())
    {
      SlotsSnapshot();
      assert forall s <- madeServers :: s.serverConn[..] == old(s.serverConn[..]);
    }

    /** handleNfcOnOff */
    method HandleNfcOnOff(isOn: bool)
      requires OneOwner()
      modifies this`isP2pListening, servers, clients, madeClients, madeConns
      ensures Valid() && !isP2pListening
      ensures Snapshot() == if isOn then NfcOn(old(Snapshot())) else NfcOff(old(Snapshot()))
    {
      isP2pListening := false;
      FlagIsApart();
      if isOn {
        TurnOn();
      } else {
        TurnOff();
      }
    }
  }
}
