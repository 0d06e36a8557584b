/** The connection registry of PeerToPeer: a table of servers, each with its own table of connections, and
    a table of clients.  Objects are named by identifiers of any type, because a thread may go on holding an
    object that has left the tables; the same definitions specify the classes of module PeerToPeer (with
    references as identifiers) and the transition systems (with numbers). */
module PeerRegistry {
  import opened Options

  const INVALID := 0xFFFF          // NFA_HANDLE_INVALID
  const MAX_SLOTS := 10            // PeerToPeer::sMax
  const MAX_SERVER_CONNS := 5      // MAX_NFA_CONNS_PER_SERVER

  /** NfaConn */
  datatype Conn = Conn(nfa: int, jni: nat, miu: int, recvWindow: int, remoteMiu: int, remoteRecvWindow: int)

  /** P2pClient */
  datatype Client<C> = Client(nfa: int, connecting: bool, conn: C)

  /** P2pServer */
  datatype Server<C> = Server(nfa: int, jni: nat, name: string, slots: seq<Option<C>>)

  datatype Registry<!S(==), !K(==), !C(==)> = Registry(
    serverSlots: seq<Option<S>>,
    clientSlots: seq<Option<K>>,
    servers: map<S, Server<C>>,
    clients: map<K, Client<C>>,
    conns: map<C, Conn>)

  /** A connection is looked up by its JNI handle or by its NFA handle. */
  datatype Key = ByJni(jni: nat) | ByNfa(nfa: int)

  datatype ServerKey = ServerByJni(jni: nat) | ServerByNfa(nfa: int) | ServerByName(name: string)

  // ---- scanning a table ----

  /** The first slot whose occupant is wanted; the table's length when there is none. */
  function First<T(==)>(slots: seq<Option<T>>, hits: set<T>): (i: nat)
    ensures i <= |slots|
    ensures i < |slots| ==> slots[i].Some? && slots[i].value in hits
    ensures forall j :: 0 <= j < i && slots[j].Some? ==> slots[j].value !in hits
  {
    if slots == [] then 0
    else if slots[0].Some? && slots[0].value in hits then 0
    else 1 + First(slots[1..], hits)
  }

  /** The first empty slot; the table's length when it is full. */
  function FirstFree<T>(slots: seq<Option<T>>): (i: nat)
    ensures i <= |slots|
    ensures i < |slots| ==> slots[i].None?
    ensures forall j :: 0 <= j < i ==> slots[j].Some?
  {
    if slots == [] || slots[0].None? then 0 else 1 + FirstFree(slots[1..])
  }

  predicate Matches(c: Conn, key: Key) {
    match key
    case ByJni(h) => c.jni == h
    case ByNfa(h) => c.nfa == h
  }

  predicate ServerMatches<C>(s: Server<C>, key: ServerKey) {
    match key
    case ServerByJni(h) => s.jni == h
    case ServerByNfa(h) => s.nfa == h
    case ServerByName(n) => s.name == n
  }

  function ConnHits<S, K, C>(r: Registry<S, K, C>, key: Key): set<C> {
    set c | c in r.conns && Matches(r.conns[c], key)
  }

  function ClientHits<S, K, C>(r: Registry<S, K, C>, key: Key): set<K> {
    set k | k in r.clients && r.clients[k].conn in ConnHits(r, key)
  }

  function ClientNfaHits<S, K, C>(r: Registry<S, K, C>, h: int): set<K> {
    set k | k in r.clients && r.clients[k].nfa == h
  }

  function ServerHits<S, K, C>(r: Registry<S, K, C>, key: ServerKey): set<S> {
    set s | s in r.servers && ServerMatches(r.servers[s], key)
  }

  /** The servers whose own table holds a matching connection. */
  function HolderHits<S, K, C>(r: Registry<S, K, C>, key: Key): set<S> {
    set s | s in r.servers && First(r.servers[s].slots, ConnHits(r, key)) < |r.servers[s].slots|
  }

  function At<T>(slots: seq<Option<T>>, i: nat): Option<T> {
    if i < |slots| then slots[i] else None
  }

  // ---- the lookups ----

  function FindServer<S, K, C>(r: Registry<S, K, C>, key: ServerKey): Option<S> {
    At(r.serverSlots, First(r.serverSlots, ServerHits(r, key)))
  }

  /** findClient by JNI handle, findClientCon */
  function FindClient<S, K, C>(r: Registry<S, K, C>, key: Key): Option<K> {
    At(r.clientSlots, First(r.clientSlots, ClientHits(r, key)))
  }

  /** findClient by the client's own NFA handle */
  function FindClientByNfa<S, K, C>(r: Registry<S, K, C>, h: int): Option<K> {
    At(r.clientSlots, First(r.clientSlots, ClientNfaHits(r, h)))
  }

  function FindServerConn<S, K, C>(r: Registry<S, K, C>, s: S, key: Key): Option<C>
    requires s in r.servers
  {
    At(r.servers[s].slots, First(r.servers[s].slots, ConnHits(r, key)))
  }

  function FindHolder<S, K, C>(r: Registry<S, K, C>, key: Key): Option<S> {
    At(r.serverSlots, First(r.serverSlots, HolderHits(r, key)))
  }

  /** findConnection: all the clients first, then the servers' tables. */
  function FindConnection<S, K, C>(r: Registry<S, K, C>, key: Key): Option<C>
  {
    match FindClient(r, key)
    case Some(k) => Some(r.clients[k].conn)
    case None =>
      match FindHolder(r, key)
      case Some(s) => FindServerConn(r, s, key)
      case None => None
  }

  // ---- the updates, each one section under a mutex ----

  function NoConns<C>(): seq<Option<C>> { seq(MAX_SERVER_CONNS, _ => None) }

  function NoSlots<T>(): seq<Option<T>> { seq(MAX_SLOTS, _ => None) }

  function NewConn(jni: nat): Conn { Conn(INVALID, jni, 0, 0, 0, 0) }

  /** registerServer up to the release of mMutex; `s` is the object `new P2pServer` would make. */
  function RegisterServer<S, K, C>(r: Registry<S, K, C>, jni: nat, name: string, s: S): Registry<S, K, C>
  {
    match FindServer(r, ServerByName(name))
    case Some(x) => r.(servers := r.servers[x := r.servers[x].(jni := jni)])
    case None =>
      var i := FirstFree(r.serverSlots);
      if i < |r.serverSlots|
      then r.(servers := r.servers[s := Server(INVALID, jni, name, NoConns())],
              serverSlots := r.serverSlots[i := Some(s)])
      else r
  }

  function RemoveServer<S, K, C>(r: Registry<S, K, C>, jni: nat): Registry<S, K, C> {
    var i := First(r.serverSlots, ServerHits(r, ServerByJni(jni)));
    if i < |r.serverSlots| then r.(serverSlots := r.serverSlots[i := None]) else r
  }

  /** createClient up to the release of mMutex; `k` and `c` are the objects it would make. */
  function CreateClient<S, K, C>(r: Registry<S, K, C>, jni: nat, miu: int, recvWindow: int, k: K, c: C)
    : Registry<S, K, C>
  {
    var i := FirstFree(r.clientSlots);
    if i < |r.clientSlots|
    then r.(conns := r.conns[c := NewConn(jni).(miu := miu, recvWindow := recvWindow)],
            clients := r.clients[k := Client(INVALID, false, c)],
            clientSlots := r.clientSlots[i := Some(k)])
    else r
  }

  /** P2pServer::allocateConnection */
  function AllocateConnection<S, K, C>(r: Registry<S, K, C>, s: S, jni: nat, c: C): Registry<S, K, C>
    requires s in r.servers
  {
    var j := FirstFree(r.servers[s].slots);
    if j < |r.servers[s].slots|
    then r.(conns := r.conns[c := NewConn(jni)],
            servers := r.servers[s := r.servers[s].(slots := r.servers[s].slots[j := Some(c)])])
    else r
  }

  /** P2pServer::removeServerConnection */
  function RemoveServerConnection<S, K, C>(r: Registry<S, K, C>, s: S, jni: nat): Registry<S, K, C>
    requires s in r.servers
  {
    var j := First(r.servers[s].slots, ConnHits(r, ByJni(jni)));
    if j < |r.servers[s].slots|
    then r.(servers := r.servers[s := r.servers[s].(slots := r.servers[s].slots[j := None])])
    else r
  }

  /** removeConn */
  function RemoveConn<S, K, C>(r: Registry<S, K, C>, jni: nat): Registry<S, K, C>
  {
    var i := First(r.clientSlots, ClientHits(r, ByJni(jni)));
    if i < |r.clientSlots| then r.(clientSlots := r.clientSlots[i := None])
    else
      match FindHolder(r, ByJni(jni))
      case Some(s) => RemoveServerConnection(r, s, jni)
      case None => r
  }

  function SetConnHandle<S, K, C>(r: Registry<S, K, C>, c: C, h: int): Registry<S, K, C>
    requires c in r.conns
  {
    r.(conns := r.conns[c := r.conns[c].(nfa := h)])
  }

  /** handleNfcOnOff(true) */
  function NfcOn<S, K, C>(r: Registry<S, K, C>): Registry<S, K, C> {
    r.(serverSlots := NoSlots(), clientSlots := NoSlots())
  }

  /** handleNfcOnOff(false) */
  function NfcOff<S, K, C>(r: Registry<S, K, C>): Registry<S, K, C>
  {
    r.(conns := map c | c in r.conns :: if c in Members(r) then r.conns[c].(nfa := INVALID) else r.conns[c])
  }

  // ---- shape ----

  /** No dangling pointers, and tables of the declared sizes. */
  ghost predicate Wf<S, K, C>(r: Registry<S, K, C>) {
    && |r.serverSlots| == MAX_SLOTS && |r.clientSlots| == MAX_SLOTS
    && (forall i :: 0 <= i < |r.serverSlots| && r.serverSlots[i].Some? ==> r.serverSlots[i].value in r.servers)
    && (forall i :: 0 <= i < |r.clientSlots| && r.clientSlots[i].Some? ==> r.clientSlots[i].value in r.clients)
    && (forall k <- r.clients :: r.clients[k].conn in r.conns)
    && (forall s <- r.servers :: |r.servers[s].slots| == MAX_SERVER_CONNS)
    && (forall s <- r.servers :: forall j :: 0 <= j < |r.servers[s].slots| && r.servers[s].slots[j].Some? ==>
          r.servers[s].slots[j].value in r.conns)
  }

  /** Does some slot hold this object? */
  predicate Holds<T(==)>(slots: seq<Option<T>>, x: T) { Some(x) in slots }

  predicate NoRepeats<T(==)>(slots: seq<Option<T>>) {
    forall i, j :: 0 <= i < j < |slots| && slots[i].Some? ==> slots[i] != slots[j]
  }

  /** Every object has one place at most. */
  ghost predicate Owned<S, K, C>(r: Registry<S, K, C>) {
    && NoRepeats(r.serverSlots) && NoRepeats(r.clientSlots)
    && (forall s <- r.servers :: NoRepeats(r.servers[s].slots))
    && (forall k <- r.clients :: forall l <- r.clients :: k != l ==> r.clients[k].conn != r.clients[l].conn)
    && (forall s <- r.servers :: forall t <- r.servers :: forall c <- r.conns ::
          Holds(r.servers[s].slots, c) && Holds(r.servers[t].slots, c) ==> s == t)
    && (forall k <- r.clients :: forall s <- r.servers :: !Holds(r.servers[s].slots, r.clients[k].conn))
  }

  /** The connection is reachable through a client, or through a server's table. */
  predicate ViaClient<S, K, C>(r: Registry<S, K, C>, c: C) {
    exists k <- r.clients :: Holds(r.clientSlots, k) && r.clients[k].conn == c
  }

  predicate ViaServer<S, K, C>(r: Registry<S, K, C>, c: C) {
    exists s <- r.servers :: Holds(r.serverSlots, s) && Holds(r.servers[s].slots, c)
  }

  function Members<S, K, C>(r: Registry<S, K, C>): set<C> {
    set c | c in r.conns && (ViaClient(r, c) || ViaServer(r, c))
  }

  ghost predicate UniqueJni<S, K, C>(r: Registry<S, K, C>) {
    forall c, d | c in Members(r) && d in Members(r) && r.conns[c].jni == r.conns[d].jni :: c == d
  }

  ghost predicate UniqueNfa<S, K, C>(r: Registry<S, K, C>) {
    forall c, d | c in Members(r) && d in Members(r) && r.conns[c].nfa == r.conns[d].nfa != INVALID :: c == d
  }

  // ---- the registry as a map ----

  /** The tables seen as one map from JNI handles to connections. */
  ghost function View<S, K, C>(r: Registry<S, K, C>): map<nat, C>
    requires UniqueJni(r)
  {
    map c | c in Members(r) :: r.conns[c].jni := c
  }

  /** ... and from live NFA connection handles. */
  ghost function NfaView<S, K, C>(r: Registry<S, K, C>): map<int, C>
    requires UniqueNfa(r)
  {
    map c | c in Members(r) && r.conns[c].nfa != INVALID :: r.conns[c].nfa := c
  }

  ghost function Lookup<X, Y>(m: map<X, Y>, x: X): Option<Y> {
    if x in m then Some(m[x]) else None
  }

  /** The two-phase scan finds a matching connection of the tables exactly when there is one. */
  lemma {:induction false} ScanFindsAMember<S, K, C>(r: Registry<S, K, C>, key: Key)
    requires Wf(r)
    ensures FindConnection(r, key).Some? ==>
              FindConnection(r, key).value in Members(r) && Matches(r.conns[FindConnection(r, key).value], key)
    ensures FindConnection(r, key).None? ==> forall c <- Members(r) :: !Matches(r.conns[c], key)
  {
    var i := First(r.clientSlots, ClientHits(r, key));
    if i < |r.clientSlots| {
      assert Holds(r.clientSlots, r.clientSlots[i].value);
    } else {
      var n := First(r.serverSlots, HolderHits(r, key));
      if n < |r.serverSlots| {
        var s := r.serverSlots[n].value;
        var j := First(r.servers[s].slots, ConnHits(r, key));
        assert Holds(r.serverSlots, s) && Holds(r.servers[s].slots, r.servers[s].slots[j].value);
      } else {
        forall c | c in Members(r) ensures !Matches(r.conns[c], key) {
          if Matches(r.conns[c], key) { NotMissed(r, key, c); }
        }
      }
    }
  }

  lemma {:induction false} NotMissed<S, K, C>(r: Registry<S, K, C>, key: Key, c: C)
    requires Wf(r) && c in Members(r) && Matches(r.conns[c], key)
    ensures First(r.clientSlots, ClientHits(r, key)) < |r.clientSlots|
            || First(r.serverSlots, HolderHits(r, key)) < |r.serverSlots|
  {
    assert c in ConnHits(r, key);
    if ViaClient(r, c) {
      var k :| k in r.clients && Holds(r.clientSlots, k) && r.clients[k].conn == c;
      assert k in ClientHits(r, key);
      var i :| 0 <= i < |r.clientSlots| && r.clientSlots[i] == Some(k);
      assert r.clientSlots[i].value in ClientHits(r, key);
    } else {
      var s :| s in r.servers && Holds(r.serverSlots, s) && Holds(r.servers[s].slots, c);
      var j :| 0 <= j < |r.servers[s].slots| && r.servers[s].slots[j] == Some(c);
      assert r.servers[s].slots[j].value in ConnHits(r, key);
      assert s in HolderHits(r, key);
      var i :| 0 <= i < |r.serverSlots| && r.serverSlots[i] == Some(s);
      assert r.serverSlots[i].value in HolderHits(r, key);
    }
  }

  /** findConnection by JNI handle is lookup in the map, whatever the order of the slots. */
  lemma {:induction false} FindByJniIsLookup<S, K, C>(r: Registry<S, K, C>, h: nat)
    requires Wf(r) && UniqueJni(r)
    ensures FindConnection(r, ByJni(h)) == Lookup(View(r), h)
  {
    ScanFindsAMember(r, ByJni(h));
    if h in View(r) {
      assert View(r)[h] in Members(r);
    }
  }

  /** findConnection by a live NFA handle is lookup in the other map. */
  lemma {:induction false} FindByNfaIsLookup<S, K, C>(r: Registry<S, K, C>, h: int)
    requires Wf(r) && UniqueNfa(r) && h != INVALID
    ensures FindConnection(r, ByNfa(h)) == Lookup(NfaView(r), h)
  {
    ScanFindsAMember(r, ByNfa(h));
    if h in NfaView(r) {
      assert NfaView(r)[h] in Members(r);
    }
  }

  predicate Answering<S, K, C>(r: Registry<S, K, C>, s: S, key: ServerKey) {
    s in r.servers && Holds(r.serverSlots, s) && ServerMatches(r.servers[s], key)
  }

  /** findServerLocked finds the registered server with the key, when no two share it. */
  lemma {:induction false} FindServerIsLookup<S, K, C>(r: Registry<S, K, C>, key: ServerKey, s: S)
    requires Wf(r) && s in r.servers && forall t, u | Answering(r, t, key) && Answering(r, u, key) :: t == u
    ensures FindServer(r, key) == Some(s) <==> Answering(r, s, key)
    ensures FindServer(r, key) == None ==> !Answering(r, s, key)
  {
    var i := First(r.serverSlots, ServerHits(r, key));
    if i < |r.serverSlots| {
      assert Holds(r.serverSlots, r.serverSlots[i].value);
      assert Answering(r, r.serverSlots[i].value, key);
    } else if Holds(r.serverSlots, s) {
      var j :| 0 <= j < |r.serverSlots| && r.serverSlots[j] == Some(s);
      assert r.serverSlots[j].value !in ServerHits(r, key);
    }
  }

  predicate Owning<S, K, C>(r: Registry<S, K, C>, k: K, key: Key) {
    k in r.clients && Holds(r.clientSlots, k) && r.clients[k].conn in r.conns
      && Matches(r.conns[r.clients[k].conn], key)
  }

  /** findClient finds the client in the table whose connection has the key, when no two do. */
  lemma {:induction false} FindClientIsLookup<S, K, C>(r: Registry<S, K, C>, key: Key, k: K)
    requires Wf(r) && k in r.clients && forall l, m | Owning(r, l, key) && Owning(r, m, key) :: l == m
    ensures FindClient(r, key) == Some(k) <==> Owning(r, k, key)
    ensures FindClient(r, key) == None ==> !Owning(r, k, key)
  {
    var i := First(r.clientSlots, ClientHits(r, key));
    if i < |r.clientSlots| {
      assert Holds(r.clientSlots, r.clientSlots[i].value);
      assert Owning(r, r.clientSlots[i].value, key);
    } else if Holds(r.clientSlots, k) {
      var j :| 0 <= j < |r.clientSlots| && r.clientSlots[j] == Some(k);
      assert r.clientSlots[j].value !in ClientHits(r, key);
    }
  }

  /** Slot order does not matter: two registries with the same members and fields answer alike. */
  lemma {:induction false} SlotOrderIsIrrelevant<S, K, C>(r: Registry<S, K, C>, q: Registry<S, K, C>, key: Key)
    requires Wf(r) && Wf(q) && r.conns == q.conns && Members(r) == Members(q)
    requires UniqueJni(r) && UniqueNfa(r) && key != ByNfa(INVALID)
    ensures FindConnection(r, key) == FindConnection(q, key)
  {
    ScanFindsAMember(r, key);
    ScanFindsAMember(q, key);
  }

  // ---- what each update does to the set of registered connections ----

  /** Everything removeConn may touch: the one slot of the connection it names, in whichever table. */
  lemma {:induction false} RemoveConnTouchesOneSlot<S, K, C>(r: Registry<S, K, C>, h: nat)
    requires Wf(r)
    ensures var r' := RemoveConn(r, h);
            && Wf(r') && r'.conns == r.conns && r'.clients == r.clients && r'.serverSlots == r.serverSlots
            && r'.servers.Keys == r.servers.Keys
            && (forall i :: 0 <= i < MAX_SLOTS && r'.clientSlots[i] != r.clientSlots[i] ==>
                  r'.clientSlots[i].None? && FindClient(r, ByJni(h)) == r.clientSlots[i])
            && (forall s <- r.servers ::
                  && r'.servers[s].(slots := r.servers[s].slots) == r.servers[s]
                  && forall j :: 0 <= j < MAX_SERVER_CONNS && r'.servers[s].slots[j] != r.servers[s].slots[j] ==>
                       r'.servers[s].slots[j].None? && FindConnection(r, ByJni(h)) == r.servers[s].slots[j])
  {
  }

  lemma {:induction false} ClearedSlot<T>(slots: seq<Option<T>>, i: nat, x: T)
    requires i < |slots| && NoRepeats(slots) && slots[i].Some?
    ensures NoRepeats(slots[i := None])
    ensures Holds(slots[i := None], x) <==> Holds(slots, x) && Some(x) != slots[i]
  {
    var after := slots[i := None];
    if Holds(slots, x) && Some(x) != slots[i] {
      var j :| 0 <= j < |slots| && slots[j] == Some(x);
      assert after[j] == Some(x);
    }
    if Holds(after, x) {
      var j :| 0 <= j < |after| && after[j] == Some(x);
      assert slots[j] == Some(x) && j != i;
    }
  }

  lemma {:induction false} FilledSlot<T>(slots: seq<Option<T>>, i: nat, x: T, y: T)
    requires i < |slots| && NoRepeats(slots) && slots[i].None? && !Holds(slots, x)
    ensures NoRepeats(slots[i := Some(x)])
    ensures Holds(slots[i := Some(x)], y) <==> Holds(slots, y) || x == y
  {
    var after := slots[i := Some(x)];
    assert after[i] == Some(x);
    if Holds(slots, y) {
      var j :| 0 <= j < |slots| && slots[j] == Some(y);
      assert after[j] == Some(y);
    }
    forall j | 0 <= j < |slots| && j != i ensures after[j] == slots[j] && slots[j] != Some(x) {
      assert slots[j] in slots;
    }
  }

  function Reslotted<S, K, C>(r: Registry<S, K, C>, s: S, slots: seq<Option<C>>, conns: map<C, Conn>): Registry<S, K, C>
    requires s in r.servers
  {
    r.(servers := r.servers[s := r.servers[s].(slots := slots)], conns := conns)
  }

  /** Replacing one server's table: ownership survives when nothing owned elsewhere is brought in. */
  lemma {:induction false} ReslottedOwned<S, K, C>(
    r: Registry<S, K, C>, s: S, slots: seq<Option<C>>, conns: map<C, Conn>)
    requires Wf(r) && Owned(r) && s in r.servers && |slots| == MAX_SERVER_CONNS && r.conns.Keys <= conns.Keys
    requires NoRepeats(slots)
    requires forall c :: Holds(slots, c) ==> c in conns && (Holds(r.servers[s].slots, c) || c !in r.conns)
    ensures Wf(Reslotted(r, s, slots, conns)) && Owned(Reslotted(r, s, slots, conns))
  {
    var r' := Reslotted(r, s, slots, conns);
    forall j | 0 <= j < |slots| && slots[j].Some? ensures slots[j].value in conns {
      assert Holds(slots, slots[j].value);
    }
    forall t, c | t in r.servers && c !in r.conns ensures !Holds(r.servers[t].slots, c) {}
    forall t, c | t in r.servers && Holds(slots, c) && Holds(r.servers[t].slots, c) ensures t == s {}
  }

  /** ... and only the connections of that table can change their membership. */
  lemma {:induction false} ReslottedMember<S, K, C>(
    r: Registry<S, K, C>, s: S, slots: seq<Option<C>>, conns: map<C, Conn>, c: C)
    requires Wf(r) && Owned(r) && s in r.servers && r.conns.Keys <= conns.Keys && c in conns
    requires forall d :: Holds(slots, d) ==> Holds(r.servers[s].slots, d) || d !in r.conns
    ensures c in Members(Reslotted(r, s, slots, conns)) <==>
              if Holds(r.servers[s].slots, c) || Holds(slots, c) then Holds(r.serverSlots, s) && Holds(slots, c)
              else c in Members(r)
  {
    var r' := Reslotted(r, s, slots, conns);
    assert ViaClient(r', c) <==> ViaClient(r, c);
    if Holds(slots, c) && Holds(r.serverSlots, s) {
      assert Holds(r'.serverSlots, s) && Holds(r'.servers[s].slots, c);
    }
    if ViaServer(r, c) && !Holds(r.servers[s].slots, c) {
      var t :| t in r.servers && Holds(r.serverSlots, t) && Holds(r.servers[t].slots, c);
      assert t != s && Holds(r'.serverSlots, t) && Holds(r'.servers[t].slots, c);
    }
    if ViaServer(r', c) {
      var t :| t in r'.servers && Holds(r'.serverSlots, t) && Holds(r'.servers[t].slots, c);
      if t != s { assert Holds(r.servers[t].slots, c); }
    }
  }

  /** Dropping a server's connection takes exactly that connection out, if the server is registered. */
  lemma {:induction false} RemoveServerConnectionMembers<S, K, C>(r: Registry<S, K, C>, s: S, h: nat)
    requires Wf(r) && Owned(r) && s in r.servers
    ensures Wf(RemoveServerConnection(r, s, h)) && Owned(RemoveServerConnection(r, s, h))
    ensures Members(RemoveServerConnection(r, s, h)) ==
              if Holds(r.serverSlots, s) && FindServerConn(r, s, ByJni(h)).Some?
              then Members(r) - {FindServerConn(r, s, ByJni(h)).value} else Members(r)
  {
    var slots := r.servers[s].slots;
    var j := First(slots, ConnHits(r, ByJni(h)));
    if j < |slots| {
      var after := slots[j := None];
      assert RemoveServerConnection(r, s, h) == Reslotted(r, s, after, r.conns);
      assert Holds(slots, slots[j].value);
      forall c ensures NoRepeats(after) && (Holds(after, c) <==> Holds(slots, c) && Some(c) != slots[j]) {
        ClearedSlot(slots, j, c);
      }
      ReslottedOwned(r, s, after, r.conns);
      forall c | c in r.conns
        ensures c in Members(Reslotted(r, s, after, r.conns)) <==>
                  c in Members(r) && !(Holds(r.serverSlots, s) && Some(c) == slots[j])
      {
        ReslottedMember(r, s, after, r.conns, c);
        if Holds(slots, c) { HeldMember(r, s, c); }
      }
    }
  }

  /** A connection in a server's table is a member just when that server is registered. */
  lemma {:induction false} HeldMember<S, K, C>(r: Registry<S, K, C>, s: S, c: C)
    requires Wf(r) && Owned(r) && s in r.servers && c in r.conns && Holds(r.servers[s].slots, c)
    ensures c in Members(r) <==> Holds(r.serverSlots, s)
  {
    if ViaServer(r, c) {
      var t :| t in r.servers && Holds(r.serverSlots, t) && Holds(r.servers[t].slots, c);
      assert t == s;
    }
  }

  /** removeConn(h) takes out exactly the connection findConnection(h) answers with. */
  lemma {:induction false} RemoveConnMembers<S, K, C>(r: Registry<S, K, C>, h: nat)
    requires Wf(r) && Owned(r)
    ensures Wf(RemoveConn(r, h)) && Owned(RemoveConn(r, h))
    ensures Members(RemoveConn(r, h)) ==
              match FindConnection(r, ByJni(h)) case Some(c) => Members(r) - {c} case None => Members(r)
  {
    var r' := RemoveConn(r, h);
    var i := First(r.clientSlots, ClientHits(r, ByJni(h)));
    if i < |r.clientSlots| {
      var k := r.clientSlots[i].value;
      assert Holds(r.clientSlots, k);
      forall l ensures NoRepeats(r'.clientSlots) && (Holds(r'.clientSlots, l) <==> Holds(r.clientSlots, l) && l != k) {
        ClearedSlot(r.clientSlots, i, l);
      }
      assert forall c <- r.conns :: ViaServer(r', c) <==> ViaServer(r, c);
      assert forall c <- r.conns :: ViaServer(r, c) ==> c != r.clients[k].conn;
    } else {
      match FindHolder(r, ByJni(h)) {
        case Some(s) =>
          var n := First(r.serverSlots, HolderHits(r, ByJni(h)));
          assert r.serverSlots[n] == Some(s);
          assert Holds(r.serverSlots, s);
          RemoveServerConnectionMembers(r, s, h);
        case None =>
      }
    }
  }

  lemma {:induction false} RemoveConnKeepsConns<S, K, C>(r: Registry<S, K, C>, h: nat)
    ensures RemoveConn(r, h).conns == r.conns
  {
  }

  lemma {:induction false} RemovedMembers<S, K, C>(r: Registry<S, K, C>, h: nat)
    requires Wf(r) && Owned(r) && UniqueJni(r)
    ensures Members(RemoveConn(r, h)) == if h in View(r) then Members(r) - {View(r)[h]} else Members(r)
  {
    RemoveConnMembers(r, h);
    FindByJniIsLookup(r, h);
  }

  /** removeConn refines deletion from the map: the entry for h goes, every other entry stays. */
  lemma {:induction false} RemoveConnIsMapRemoval<S, K, C>(r: Registry<S, K, C>, h: nat)
    requires Wf(r) && Owned(r) && UniqueJni(r)
    ensures UniqueJni(RemoveConn(r, h))
    ensures View(RemoveConn(r, h)) == View(r) - {h}
  {
    RemoveConnKeepsConns(r, h);
    RemovedMembers(r, h);
    ShrunkView(r, RemoveConn(r, h), h);
  }

  lemma {:induction false} ViewEntries<S, K, C>(r: Registry<S, K, C>)
    requires UniqueJni(r)
    ensures forall c <- Members(r) :: r.conns[c].jni in View(r) && View(r)[r.conns[c].jni] == c
    ensures forall x <- View(r) :: View(r)[x] in Members(r) && r.conns[View(r)[x]].jni == x
  {
  }

  lemma {:induction false} FewerMembersStayUnique<S, K, C>(r: Registry<S, K, C>, r': Registry<S, K, C>)
    requires UniqueJni(r) && r'.conns == r.conns && Members(r') <= Members(r)
    ensures UniqueJni(r')
  {
    forall c, d | c in Members(r') && d in Members(r') && r.conns[c].jni == r.conns[d].jni ensures c == d {
      assert c in Members(r) && d in Members(r);
    }
  }

  lemma {:induction false} ShrunkView<S, K, C>(r: Registry<S, K, C>, r': Registry<S, K, C>, h: nat)
    requires UniqueJni(r) && r'.conns == r.conns
    requires Members(r') == if h in View(r) then Members(r) - {View(r)[h]} else Members(r)
    ensures UniqueJni(r') && View(r') == View(r) - {h}
  {
    FewerMembersStayUnique(r, r');
    forall x ensures x in View(r') <==> x in View(r) && x != h {
      if x in View(r) && x != h { EntryStays(r, r', h, x); }
      if x in View(r') { EntryWasThere(r, r', h, x); }
    }
    forall x | x in View(r') ensures View(r')[x] == View(r)[x] {
      EntryWasThere(r, r', h, x);
    }
  }

  lemma {:induction false} EntryWasThere<S, K, C>(r: Registry<S, K, C>, r': Registry<S, K, C>, h: nat, x: nat)
    requires UniqueJni(r) && UniqueJni(r') && r'.conns == r.conns && x in View(r')
    requires Members(r') == if h in View(r) then Members(r) - {View(r)[h]} else Members(r)
    ensures x in View(r) && x != h && View(r')[x] == View(r)[x]
  {
    ViewEntries(r);
    ViewEntries(r');
    assert View(r')[x] in Members(r);
  }

  lemma {:induction false} EntryStays<S, K, C>(r: Registry<S, K, C>, r': Registry<S, K, C>, h: nat, x: nat)
    requires UniqueJni(r) && UniqueJni(r') && r'.conns == r.conns && x in View(r) && x != h
    requires Members(r') == if h in View(r) then Members(r) - {View(r)[h]} else Members(r)
    ensures x in View(r')
  {
    ViewEntries(r);
    ViewEntries(r');
    assert View(r)[x] in Members(r');
  }

  /** Taking a server out of the table takes out the connections it holds, and no other. */
  lemma {:induction false} RemoveServerMembers<S, K, C>(r: Registry<S, K, C>, jni: nat)
    requires Wf(r) && Owned(r)
    ensures Wf(RemoveServer(r, jni)) && Owned(RemoveServer(r, jni))
    ensures Members(RemoveServer(r, jni)) ==
              match FindServer(r, ServerByJni(jni))
              case Some(s) => set c | c in Members(r) && !(s in r.servers && Holds(r.servers[s].slots, c))
              case None => Members(r)
  {
    var r' := RemoveServer(r, jni);
    var i := First(r.serverSlots, ServerHits(r, ServerByJni(jni)));
    if i < |r.serverSlots| {
      var s := r.serverSlots[i].value;
      assert Holds(r.serverSlots, s);
      forall t ensures NoRepeats(r'.serverSlots) && (Holds(r'.serverSlots, t) <==> Holds(r.serverSlots, t) && t != s) {
        ClearedSlot(r.serverSlots, i, t);
      }
      forall c | c in r.conns
        ensures ViaClient(r', c) <==> ViaClient(r, c)
        ensures ViaServer(r', c) <==> ViaServer(r, c) && !Holds(r.servers[s].slots, c)
        ensures ViaClient(r, c) ==> !Holds(r.servers[s].slots, c)
      {
        if ViaServer(r, c) && !Holds(r.servers[s].slots, c) {
          var t :| t in r.servers && Holds(r.serverSlots, t) && Holds(r.servers[t].slots, c);
          assert Holds(r'.serverSlots, t);
        }
      }
    }
  }

  /** A server newly registered, or registered again, brings no connection with it. */
  lemma {:induction false} RegisterServerMembers<S, K, C>(r: Registry<S, K, C>, jni: nat, name: string, s: S)
    requires Wf(r) && Owned(r) && s !in r.servers
    ensures Wf(RegisterServer(r, jni, name, s)) && Owned(RegisterServer(r, jni, name, s))
    ensures Members(RegisterServer(r, jni, name, s)) == Members(r)
  {
    match FindServer(r, ServerByName(name)) {
      case Some(x) => RenamedServerMembers(r, x, jni);
      case None =>
        var i := FirstFree(r.serverSlots);
        if i < |r.serverSlots| { AddedServerMembers(r, jni, name, s, i); }
    }
  }

  /** Tables with the same slots, and servers with the same slots in them, have the same members. */
  lemma {:induction false} SameSlotsSameMembers<S, K, C>(r: Registry<S, K, C>, r': Registry<S, K, C>)
    requires r'.serverSlots == r.serverSlots && r'.clientSlots == r.clientSlots && r'.clients == r.clients
             && r'.conns == r.conns
    requires r'.servers.Keys == r.servers.Keys && forall s <- r.servers :: r'.servers[s].slots == r.servers[s].slots
    ensures Members(r') == Members(r)
  {
    assert forall c <- r.conns :: (ViaServer(r', c) <==> ViaServer(r, c)) && (ViaClient(r', c) <==> ViaClient(r, c));
  }

  lemma {:induction false} RenamedServerMembers<S, K, C>(r: Registry<S, K, C>, x: S, jni: nat)
    requires Wf(r) && Owned(r) && x in r.servers
    ensures var r' := r.(servers := r.servers[x := r.servers[x].(jni := jni)]);
            Wf(r') && Owned(r') && Members(r') == Members(r)
  {
    var r' := r.(servers := r.servers[x := r.servers[x].(jni := jni)]);
    assert forall t <- r.servers :: r'.servers[t].slots == r.servers[t].slots;
    SameSlotsSameMembers(r, r');
  }

  function WithServer<S, K, C>(r: Registry<S, K, C>, jni: nat, name: string, s: S, i: nat): Registry<S, K, C>
    requires i < |r.serverSlots|
  {
    r.(servers := r.servers[s := Server(INVALID, jni, name, NoConns())], serverSlots := r.serverSlots[i := Some(s)])
  }

  lemma {:induction false} AddedServerMembers<S, K, C>(r: Registry<S, K, C>, jni: nat, name: string, s: S, i: nat)
    requires Wf(r) && Owned(r) && s !in r.servers && i < |r.serverSlots| && r.serverSlots[i].None?
    ensures var r' := WithServer(r, jni, name, s, i);
            Wf(r') && Owned(r') && Members(r') == Members(r)
  {
    var r' := WithServer(r, jni, name, s, i);
    assert !Holds(r.serverSlots, s);
    forall t ensures NoRepeats(r'.serverSlots) && (Holds(r'.serverSlots, t) <==> Holds(r.serverSlots, t) || s == t) {
      FilledSlot(r.serverSlots, i, s, t);
    }
    assert forall c: C :: !Holds(r'.servers[s].slots, c);
    EmptyServerSameMembers(r, r', s);
    EmptyServerWf(r, r', s, i);
    EmptyServerOwned(r, r', s);
  }

  lemma {:induction false} EmptyServerWf<S, K, C>(r: Registry<S, K, C>, r': Registry<S, K, C>, s: S, i: nat)
    requires Wf(r) && s !in r.servers && r'.servers.Keys == r.servers.Keys + {s}
    requires forall t <- r.servers :: r'.servers[t] == r.servers[t]
    requires r'.servers[s].slots == NoConns()
    requires i < |r.serverSlots| && r'.serverSlots == r.serverSlots[i := Some(s)]
    requires r'.clientSlots == r.clientSlots && r'.clients == r.clients && r'.conns == r.conns
    ensures Wf(r')
  {
  }

  lemma {:induction false} EmptyServerOwned<S, K, C>(r: Registry<S, K, C>, r': Registry<S, K, C>, s: S)
    requires Owned(r) && s !in r.servers && r'.servers.Keys == r.servers.Keys + {s}
    requires forall t <- r.servers :: r'.servers[t] == r.servers[t]
    requires NoRepeats(r'.servers[s].slots) && forall c: C :: !Holds(r'.servers[s].slots, c)
    requires NoRepeats(r'.serverSlots)
    requires r'.clientSlots == r.clientSlots && r'.clients == r.clients && r'.conns == r.conns
    ensures Owned(r')
  {
  }

  /** A server with an empty table more makes no difference to the members. */
  lemma {:induction false} EmptyServerSameMembers<S, K, C>(r: Registry<S, K, C>, r': Registry<S, K, C>, s: S)
    requires s !in r.servers && r'.servers.Keys == r.servers.Keys + {s} && forall c: C :: !Holds(r'.servers[s].slots, c)
    requires forall t <- r.servers :: r'.servers[t] == r.servers[t]
    requires forall t :: Holds(r'.serverSlots, t) <==> Holds(r.serverSlots, t) || s == t
    requires r'.clientSlots == r.clientSlots && r'.clients == r.clients && r'.conns == r.conns
    ensures Members(r') == Members(r)
  {
    forall c | c in r.conns ensures (ViaServer(r', c) <==> ViaServer(r, c)) && (ViaClient(r', c) <==> ViaClient(r, c)) {
      if ViaServer(r, c) {
        var t :| t in r.servers && Holds(r.serverSlots, t) && Holds(r.servers[t].slots, c);
        assert Holds(r'.serverSlots, t) && Holds(r'.servers[t].slots, c);
      }
    }
  }

  /** A new client brings its own new connection. */
  lemma {:induction false} CreateClientMembers<S, K, C>(r: Registry<S, K, C>, jni: nat, miu: int, rw: int, k: K, c: C)
    requires Wf(r) && Owned(r) && k !in r.clients && c !in r.conns
    ensures Wf(CreateClient(r, jni, miu, rw, k, c)) && Owned(CreateClient(r, jni, miu, rw, k, c))
    ensures Members(CreateClient(r, jni, miu, rw, k, c)) ==
              if FirstFree(r.clientSlots) < |r.clientSlots| then Members(r) + {c} else Members(r)
  {
    var r' := CreateClient(r, jni, miu, rw, k, c);
    var i := FirstFree(r.clientSlots);
    if i < |r.clientSlots| {
      assert !Holds(r.clientSlots, k);
      forall l ensures NoRepeats(r'.clientSlots) && (Holds(r'.clientSlots, l) <==> Holds(r.clientSlots, l) || k == l) {
        FilledSlot(r.clientSlots, i, k, l);
      }
      forall s | s in r.servers ensures !Holds(r.servers[s].slots, c) {}
      NewClientMembers(r, r', k, c);
      NewClientWf(r, r', k, c, i);
      NewClientOwned(r, r', k, c);
    }
  }

  lemma {:induction false} NewClientWf<S, K, C>(r: Registry<S, K, C>, r': Registry<S, K, C>, k: K, c: C, i: nat)
    requires Wf(r) && k !in r.clients && r'.clients.Keys == r.clients.Keys + {k} && r'.clients[k].conn == c
    requires forall l <- r.clients :: r'.clients[l] == r.clients[l]
    requires c !in r.conns && r'.conns.Keys == r.conns.Keys + {c}
    requires r'.serverSlots == r.serverSlots && r'.servers == r.servers
    requires i < |r.clientSlots| && r'.clientSlots == r.clientSlots[i := Some(k)]
    ensures Wf(r')
  {
  }

  lemma {:induction false} NewClientOwned<S, K, C>(r: Registry<S, K, C>, r': Registry<S, K, C>, k: K, c: C)
    requires Owned(r) && forall l <- r.clients :: r.clients[l].conn in r.conns
    requires k !in r.clients && r'.clients.Keys == r.clients.Keys + {k} && r'.clients[k].conn == c
    requires forall l <- r.clients :: r'.clients[l] == r.clients[l]
    requires c !in r.conns && r'.conns.Keys == r.conns.Keys + {c}
    requires r'.serverSlots == r.serverSlots && r'.servers == r.servers
             && forall s <- r.servers :: !Holds(r.servers[s].slots, c)
    requires NoRepeats(r'.clientSlots)
    ensures Owned(r')
  {
  }

  lemma {:induction false} NewClientMembers<S, K, C>(r: Registry<S, K, C>, r': Registry<S, K, C>, k: K, c: C)
    requires k !in r.clients && r'.clients.Keys == r.clients.Keys + {k} && r'.clients[k].conn == c
    requires forall l <- r.clients :: r'.clients[l] == r.clients[l] && r.clients[l].conn in r.conns
    requires c !in r.conns && r'.conns.Keys == r.conns.Keys + {c}
    requires r'.serverSlots == r.serverSlots && r'.servers == r.servers
             && forall s <- r.servers :: !Holds(r.servers[s].slots, c)
    requires forall l :: Holds(r'.clientSlots, l) <==> Holds(r.clientSlots, l) || k == l
    ensures Members(r') == Members(r) + {c}
  {
    forall d | d in r.conns ensures ViaClient(r', d) <==> ViaClient(r, d) {
      if ViaClient(r, d) {
        var l :| l in r.clients && Holds(r.clientSlots, l) && r.clients[l].conn == d;
        assert l in r'.clients && Holds(r'.clientSlots, l);
      }
    }
    assert forall d <- r.conns :: ViaServer(r', d) <==> ViaServer(r, d);
    assert ViaClient(r', c) by { assert k in r'.clients && Holds(r'.clientSlots, k); }
  }

  /** accept's new connection joins the members when its server is registered; nothing leaves. */
  lemma {:induction false} AllocateConnectionMembers<S, K, C>(r: Registry<S, K, C>, s: S, jni: nat, c: C)
    requires Wf(r) && Owned(r) && s in r.servers && c !in r.conns
    ensures Wf(AllocateConnection(r, s, jni, c)) && Owned(AllocateConnection(r, s, jni, c))
    ensures Members(AllocateConnection(r, s, jni, c)) ==
              if FirstFree(r.servers[s].slots) < |r.servers[s].slots| && Holds(r.serverSlots, s)
              then Members(r) + {c} else Members(r)
  {
    var slots := r.servers[s].slots;
    var j := FirstFree(slots);
    if j < |slots| {
      var after, conns := slots[j := Some(c)], r.conns[c := NewConn(jni)];
      assert AllocateConnection(r, s, jni, c) == Reslotted(r, s, after, conns);
      forall d ensures NoRepeats(after) && (Holds(after, d) <==> Holds(slots, d) || c == d) {
        FilledSlot(slots, j, c, d);
      }
      ReslottedOwned(r, s, after, conns);
      AllocatedMembers(r, s, after, conns, c);
    }
  }

  lemma {:induction false} AllocatedMembers<S, K, C>(
    r: Registry<S, K, C>, s: S, after: seq<Option<C>>, conns: map<C, Conn>, c: C)
    requires Wf(r) && Owned(r) && s in r.servers && c !in r.conns && conns.Keys == r.conns.Keys + {c}
    requires forall d :: Holds(after, d) <==> Holds(r.servers[s].slots, d) || c == d
    ensures Members(Reslotted(r, s, after, conns)) == if Holds(r.serverSlots, s) then Members(r) + {c} else Members(r)
  {
    forall d | d in conns
      ensures d in Members(Reslotted(r, s, after, conns)) <==> d in Members(r) || (d == c && Holds(r.serverSlots, s))
    {
      ReslottedMember(r, s, after, conns, d);
      if Holds(r.servers[s].slots, d) { HeldMember(r, s, d); }
    }
  }

  lemma {:induction false} SetConnHandleMembers<S, K, C>(r: Registry<S, K, C>, c: C, h: int)
    requires Wf(r) && Owned(r) && c in r.conns
    ensures Wf(SetConnHandle(r, c, h)) && Owned(SetConnHandle(r, c, h))
    ensures Members(SetConnHandle(r, c, h)) == Members(r)
  {
    var r' := SetConnHandle(r, c, h);
    assert r'.conns.Keys == r.conns.Keys;
    assert forall d <- r.conns :: (ViaClient(r', d) <==> ViaClient(r, d)) && (ViaServer(r', d) <==> ViaServer(r, d));
  }

  /** Turning NFC off leaves every table as it is, and no live handle in any of them; a connection in none of them keeps
      its own. */
  lemma {:induction false} NfcOffMembers<S, K, C>(r: Registry<S, K, C>)
    requires Wf(r) && Owned(r)
    ensures Wf(NfcOff(r)) && Owned(NfcOff(r))
    ensures Members(NfcOff(r)) == Members(r)
    ensures forall c <- Members(r) :: NfcOff(r).conns[c].nfa == INVALID
    ensures forall c <- r.conns :: c !in Members(r) ==> c in NfcOff(r).conns && NfcOff(r).conns[c] == r.conns[c]
  {
    var r' := NfcOff(r);
    assert r'.conns.Keys == r.conns.Keys;
    assert forall d <- r.conns :: (ViaClient(r', d) <==> ViaClient(r, d)) && (ViaServer(r', d) <==> ViaServer(r, d));
  }

  lemma {:induction false} NfcOnMembers<S, K, C>(r: Registry<S, K, C>)
    requires Wf(r) && Owned(r)
    ensures Wf(NfcOn(r)) && Owned(NfcOn(r)) && Members(NfcOn(r)) == {}
  {
    var r' := NfcOn(r);
    assert forall s :: !Holds(r'.serverSlots, s);
    assert forall k :: !Holds(r'.clientSlots, k);
  }
}
