/** The registry over whole runs: any number of JNI threads and the stack's callback thread change it one
    mutex-protected section at a time, in any order.  JNI handles come from getNewJniHandle and the stack's
    handles are new, so neither repeats. */
module PeerRegistryRuns {
  import opened Options
  import opened PeerRegistry

  type Reg = Registry<nat, nat, nat>

  /** What the callback thread has found under mMutex and not yet written. */
  datatype Callback =
    | Idle
    | RegAnswer(s: nat, h: int)       // NFA_P2P_REG_SERVER_EVT
    | ConnReqServer(s: nat, h: int)   // NFA_P2P_CONN_REQ_EVT, server found
    | ConnReq(c: nat, h: int)         // ... and a waiting connection found
    | ClientReg(k: nat, h: int)       // NFA_P2P_REG_CLIENT_EVT
    | ConnectAnswer(k: nat, h: int)   // NFA_P2P_CONNECTED_EVT
    | Disc(c: nat)                    // NFA_P2P_DISC_EVT

  /** The registry, the handles given out so far, the clients with a connect request outstanding, and the
      fate of every connection handle: stored by the stack, closed by a disconnect or by turning NFC off,
      taken out of the tables with its connection, or stored in a connection already out of the tables. */
  datatype World = World(reg: Reg, cb: Callback, jnis: set<nat>, handles: set<int>, outstanding: set<nat>,
                         delivered: set<int>, closed: set<int>, removed: set<int>, missed: set<int>)

  const NO_TABLES: Reg := Registry(NoSlots(), NoSlots(), map[], map[], map[])
  const START := World(NO_TABLES, Idle, {}, {}, {}, {}, {}, {}, {})

  datatype Action =
    | RegisterServerAct(jni: nat, name: string, s: nat)
    | RemoveServerAct(jni: nat)
    | CreateClientAct(jni: nat, miu: int, rw: int, k: nat, c: nat)
    | RemoveConnAct(jni: nat)
    | AllocateAct(s: nat, jni: nat, c: nat)
    | DropServerConnAct(s: nat, jni: nat)
    | BeginConnect(k: nat)
    | EndConnect(k: nat)
    | TurnOn
    | TurnOff
    | RegServerEvt(name: string, h: int)
    | StoreServerHandle
    | ConnReqEvt(server: int, h: int)
    | PickWaiting
    | StoreConnRequest(miu: int, rw: int)
    | RegClientEvt(h: int)
    | StoreClientHandle
    | ConnectedEvt(client: int, h: int)
    | StoreConnected(miu: int, rw: int)
    | DiscEvt(h: int)
    | StoreDisconnect

  /** The NFA handles of a set of connections, NFA_HANDLE_INVALID left out. */
  function Handles(r: Reg, cs: set<nat>): set<int> {
    set c | c in cs && c in r.conns && r.conns[c].nfa != INVALID :: r.conns[c].nfa
  }

  /** The connection handles live in the tables. */
  function Live(r: Reg): set<int> { Handles(r, Members(r)) }

  function HeldBy(r: Reg, s: nat): set<nat> {
    set c | c in r.conns && s in r.servers && Holds(r.servers[s].slots, c)
  }

  function Found(c: Option<nat>): set<nat> { if c.Some? then {c.value} else {} }

  predicate NewHandle(w: World, h: int) { h != INVALID && h !in w.handles }

  /** When an action is possible.  The stack answers a connect only when one is outstanding. */
  ghost predicate Can(w: World, a: Action)
    requires Wf(w.reg)
  {
    match a
    case RegisterServerAct(jni, _, s) => jni !in w.jnis && s !in w.reg.servers
    case CreateClientAct(jni, _, _, k, c) => jni !in w.jnis && k !in w.reg.clients && c !in w.reg.conns
    case AllocateAct(s, jni, c) => s in w.reg.servers && jni !in w.jnis && c !in w.reg.conns
    case DropServerConnAct(s, _) => s in w.reg.servers
    case BeginConnect(k) => k in w.reg.clients
    case EndConnect(k) => k in w.reg.clients
    case RegServerEvt(_, h) => w.cb.Idle? && NewHandle(w, h)
    case StoreServerHandle => w.cb.RegAnswer?
    case ConnReqEvt(_, h) => w.cb.Idle? && NewHandle(w, h)
    case PickWaiting => w.cb.ConnReqServer?
    case StoreConnRequest(_, _) => w.cb.ConnReq?
    case RegClientEvt(h) => w.cb.Idle? && NewHandle(w, h)
    case StoreClientHandle => w.cb.ClientReg?
    case ConnectedEvt(ch, h) =>
      && w.cb.Idle? && NewHandle(w, h)
      && (FindClientByNfa(w.reg, ch).Some? ==> FindClientByNfa(w.reg, ch).value in w.outstanding)
    case StoreConnected(_, _) => w.cb.ConnectAnswer?
    case DiscEvt(h) => w.cb.Idle? && h != INVALID
    case StoreDisconnect => w.cb.Disc?
    case _ => true
  }

  /** The references the callback thread holds are to objects that exist. */
  predicate Refs(w: World) {
    match w.cb
    case RegAnswer(s, _) => s in w.reg.servers
    case ConnReqServer(s, _) => s in w.reg.servers
    case ConnReq(c, _) => c in w.reg.conns
    case ClientReg(k, _) => k in w.reg.clients
    case ConnectAnswer(k, _) => k in w.reg.clients
    case Disc(c) => c in w.reg.conns
    case Idle => true
  }

  /** A handle stored in connection `c` by the stack. */
  function Store(w: World, c: nat, h: int, miu: int, rw: int): World
    requires c in w.reg.conns
  {
    var r := w.reg.(conns := w.reg.conns[c := w.reg.conns[c].(nfa := h, remoteMiu := miu, remoteRecvWindow := rw)]);
    w.(reg := r, cb := Idle, delivered := w.delivered + {h},
       missed := if c in Members(w.reg) then w.missed else w.missed + {h})
  }

  ghost function Do(w: World, a: Action): World
    requires Wf(w.reg) && Refs(w) && Can(w, a)
  {
    var r := w.reg;
    match a
    case RegisterServerAct(jni, name, s) => w.(reg := RegisterServer(r, jni, name, s), jnis := w.jnis + {jni})
    case RemoveServerAct(jni) =>
      w.(reg := RemoveServer(r, jni),
         removed := w.removed + match FindServer(r, ServerByJni(jni))
                                case Some(s) => Handles(r, HeldBy(r, s))
                                case None => {})
    case CreateClientAct(jni, miu, rw, k, c) => w.(reg := CreateClient(r, jni, miu, rw, k, c), jnis := w.jnis + {jni})
    case RemoveConnAct(jni) =>
      w.(reg := RemoveConn(r, jni), removed := w.removed + Handles(r, Found(FindConnection(r, ByJni(jni)))))
    case AllocateAct(s, jni, c) => w.(reg := AllocateConnection(r, s, jni, c), jnis := w.jnis + {jni})
    case DropServerConnAct(s, jni) =>
      w.(reg := RemoveServerConnection(r, s, jni),
         removed := w.removed + Handles(r, Found(FindServerConn(r, s, ByJni(jni)))))
    case BeginConnect(k) =>
      w.(reg := r.(clients := r.clients[k := r.clients[k].(connecting := true)]), outstanding := w.outstanding + {k})
    case EndConnect(k) => w.(reg := r.(clients := r.clients[k := r.clients[k].(connecting := false)]))
    case TurnOn => w.(reg := NfcOn(r), removed := w.removed + Live(r))
    case TurnOff => w.(reg := NfcOff(r), closed := w.closed + Live(r))
    case RegServerEvt(name, h) =>
      w.(handles := w.handles + {h},
         cb := match FindServer(r, ServerByName(name)) case Some(s) => RegAnswer(s, h) case None => Idle)
    case StoreServerHandle =>
      w.(reg := r.(servers := r.servers[w.cb.s := r.servers[w.cb.s].(nfa := w.cb.h)]), cb := Idle)
    case ConnReqEvt(sh, h) =>
      w.(handles := w.handles + {h},
         cb := match FindServer(r, ServerByNfa(sh)) case Some(s) => ConnReqServer(s, h) case None => Idle)
    case PickWaiting =>
      w.(cb := match FindServerConn(r, w.cb.s, ByNfa(INVALID)) case Some(c) => ConnReq(c, w.cb.h) case None => Idle)
    case StoreConnRequest(miu, rw) => Store(w, w.cb.c, w.cb.h, miu, rw)
    case RegClientEvt(h) =>
      w.(handles := w.handles + {h},
         cb := match FindClientByNfa(r, INVALID) case Some(k) => ClientReg(k, h) case None => Idle)
    case StoreClientHandle =>
      w.(reg := r.(clients := r.clients[w.cb.k := r.clients[w.cb.k].(nfa := w.cb.h)]), cb := Idle)
    case ConnectedEvt(ch, h) =>
      w.(handles := w.handles + {h},
         cb := match FindClientByNfa(r, ch) case Some(k) => ConnectAnswer(k, h) case None => Idle)
    case StoreConnected(miu, rw) =>
      Store(w, r.clients[w.cb.k].conn, w.cb.h, miu, rw).(outstanding := w.outstanding - {w.cb.k})
    case DiscEvt(h) => w.(cb := match FindConnection(r, ByNfa(h)) case Some(c) => Disc(c) case None => Idle)
    case StoreDisconnect =>
      w.(reg := SetConnHandle(r, w.cb.c, INVALID), cb := Idle, closed := w.closed + Handles(r, {w.cb.c}))
  }

  /** Runs.  That the tables have no dangling references is part of what every reachable state satisfies
      (AfterKeepsInv), so asking for it here excludes nothing. */
  ghost predicate Legal(w: World, run: seq<Action>)
    decreases run
  {
    run == [] || (Wf(w.reg) && Refs(w) && Can(w, run[0]) && Legal(Do(w, run[0]), run[1..]))
  }

  ghost function After(w: World, run: seq<Action>): World
    requires Legal(w, run)
    decreases run
  {
    if run == [] then w else After(Do(w, run[0]), run[1..])
  }

  // ---- the registry invariant ----

  /** Handles given out once are never on two objects. */
  ghost predicate Distinct(w: World) {
    && (forall c <- w.reg.conns :: w.reg.conns[c].jni in w.jnis)
    && (forall s <- w.reg.servers :: w.reg.servers[s].jni in w.jnis)
    && (forall c <- w.reg.conns :: forall d <- w.reg.conns :: w.reg.conns[c].jni == w.reg.conns[d].jni ==> c == d)
    && (forall s <- w.reg.servers :: forall t <- w.reg.servers ::
          w.reg.servers[s].jni == w.reg.servers[t].jni ==> s == t)
    && (forall c <- w.reg.conns :: w.reg.conns[c].nfa == INVALID || w.reg.conns[c].nfa in w.handles)
    && (forall c <- w.reg.conns :: forall d <- w.reg.conns ::
          w.reg.conns[c].nfa == w.reg.conns[d].nfa != INVALID ==> c == d)
  }

  /** Registered service names are distinct. */
  predicate DistinctNames(r: Reg) {
    forall i, j | 0 <= i < j < |r.serverSlots| && r.serverSlots[i].Some? && r.serverSlots[j].Some?
                  && r.serverSlots[i].value in r.servers && r.serverSlots[j].value in r.servers ::
      r.servers[r.serverSlots[i].value].name != r.servers[r.serverSlots[j].value].name
  }

  /** A handle on its way to an object is on none yet, and the object it goes to is still waiting. */
  ghost predicate Pending(w: World) {
    && Refs(w)
    && (!w.cb.Idle? && !w.cb.Disc? ==>
          w.cb.h in w.handles && w.cb.h !in w.delivered && forall c <- w.reg.conns :: w.reg.conns[c].nfa != w.cb.h)
    && (w.cb.ConnReq? ==> w.reg.conns[w.cb.c].nfa == INVALID
                          && forall k <- w.reg.clients :: w.reg.clients[k].conn != w.cb.c)
    && (w.cb.ClientReg? ==> w.reg.clients[w.cb.k].nfa == INVALID)
    && INVALID !in w.handles
  }

  ghost predicate Inv(w: World) {
    Wf(w.reg) && Owned(w.reg) && Keyed(w)
  }

  /** The part of the invariant that is about handles and names. */
  ghost predicate Keyed(w: World) {
    Refs(w) && Distinct(w) && DistinctNames(w.reg) && Pending(w) && w.delivered <= w.handles
  }

  /** `w'` gives nothing a new key: objects are the same, handles the same or invalidated, slots the same or
      emptied, and the callback thread where it was or finished. */
  ghost predicate Calmer(w: World, w': World) {
    && w'.reg.conns.Keys == w.reg.conns.Keys && w'.reg.clients.Keys == w.reg.clients.Keys
    && w'.reg.servers.Keys == w.reg.servers.Keys
    && w'.jnis == w.jnis && w'.handles == w.handles && w'.delivered == w.delivered && (w'.cb == w.cb || w'.cb.Idle?)
    && |w'.reg.serverSlots| == |w.reg.serverSlots|
    && (forall i :: 0 <= i < |w.reg.serverSlots| ==>
          w'.reg.serverSlots[i] == w.reg.serverSlots[i] || w'.reg.serverSlots[i].None?)
    && (forall c <- w.reg.conns :: w'.reg.conns[c].jni == w.reg.conns[c].jni
          && (w'.reg.conns[c].nfa == w.reg.conns[c].nfa || w'.reg.conns[c].nfa == INVALID))
    && (forall s <- w.reg.servers ::
          w'.reg.servers[s].jni == w.reg.servers[s].jni && w'.reg.servers[s].name == w.reg.servers[s].name)
    && (forall k <- w.reg.clients :: w'.reg.clients[k].conn == w.reg.clients[k].conn
          && (w'.reg.clients[k].nfa == w.reg.clients[k].nfa || w'.cb.Idle?))
  }

  lemma {:induction false} CalmKeepsKeys(w: World, w': World)
    requires Keyed(w) && Calmer(w, w')
    ensures Keyed(w')
  {
    forall i | 0 <= i < |w'.reg.serverSlots| && w'.reg.serverSlots[i].Some?
      ensures w'.reg.serverSlots[i] == w.reg.serverSlots[i] {}
  }

  /** Sections that only take connections or servers out of the tables. */
  lemma {:induction false} RemovalKeepsInv(w: World, a: Action)
    requires Inv(w) && Can(w, a) && (a.RemoveServerAct? || a.RemoveConnAct? || a.DropServerConnAct? || a.TurnOn?)
    ensures Inv(Do(w, a))
  {
    RemovalKeepsShape(w.reg, a, Do(w, a).reg);
    RemovalIsCalm(w, a);
    CalmKeepsKeys(w, Do(w, a));
  }

  lemma {:induction false} RemovalKeepsShape(r: Reg, a: Action, r': Reg)
    requires Wf(r) && Owned(r)
    requires (a.RemoveServerAct? && r' == RemoveServer(r, a.jni)) || (a.RemoveConnAct? && r' == RemoveConn(r, a.jni))
             || (a.DropServerConnAct? && a.s in r.servers && r' == RemoveServerConnection(r, a.s, a.jni))
             || (a.TurnOn? && r' == NfcOn(r))
    ensures Wf(r') && Owned(r')
  {
    match a {
      case RemoveServerAct(jni) => RemoveServerMembers(r, jni);
      case RemoveConnAct(jni) => RemoveConnMembers(r, jni);
      case DropServerConnAct(s, jni) => RemoveServerConnectionMembers(r, s, jni);
      case TurnOn => NfcOnMembers(r);
    }
  }

  lemma {:induction false} RemovalIsCalm(w: World, a: Action)
    requires Wf(w.reg) && Refs(w) && Can(w, a)
             && (a.RemoveServerAct? || a.RemoveConnAct? || a.DropServerConnAct? || a.TurnOn?)
    ensures Calmer(w, Do(w, a))
  {
    if a.RemoveConnAct? { RemoveConnTouchesOneSlot(w.reg, a.jni); }
  }

  lemma {:induction false} RegisterServerKeepsInv(w: World, a: Action)
    requires Inv(w) && Can(w, a) && a.RegisterServerAct?
    ensures Inv(Do(w, a))
  {
    RegisterServerMembers(w.reg, a.jni, a.name, a.s);
    RegisterServerKeepsKeys(w, a);
  }

  lemma {:induction false} RegisterServerKeepsKeys(w: World, a: Action)
    requires Wf(w.reg) && Keyed(w) && Can(w, a) && a.RegisterServerAct?
    ensures Keyed(Do(w, a))
  {
    var r := w.reg;
    if FindServer(r, ServerByName(a.name)).Some? {
      RenamedServerKeepsKeys(w, FindServer(r, ServerByName(a.name)).value, a.jni);
    } else if FirstFree(r.serverSlots) < |r.serverSlots| {
      AddedServerKeepsKeys(w, a, FirstFree(r.serverSlots));
    } else {
      assert Do(w, a) == w.(jnis := w.jnis + {a.jni});
    }
  }

  lemma {:induction false} RenamedServerKeepsKeys(w: World, s: nat, jni: nat)
    requires Wf(w.reg) && Keyed(w) && jni !in w.jnis && s in w.reg.servers
    ensures Keyed(w.(reg := w.reg.(servers := w.reg.servers[s := w.reg.servers[s].(jni := jni)]),
                     jnis := w.jnis + {jni}))
  {
  }

  lemma {:induction false} AddedServerKeepsKeys(w: World, a: Action, i: nat)
    requires Wf(w.reg) && Keyed(w) && a.RegisterServerAct? && a.jni !in w.jnis && a.s !in w.reg.servers
    requires FindServer(w.reg, ServerByName(a.name)).None? && i < |w.reg.serverSlots|
    ensures Keyed(w.(reg := w.reg.(servers := w.reg.servers[a.s := Server(INVALID, a.jni, a.name, NoConns())],
                                   serverSlots := w.reg.serverSlots[i := Some(a.s)]),
                     jnis := w.jnis + {a.jni}))
  {
    var r := w.reg;
    forall i | 0 <= i < |r.serverSlots| && r.serverSlots[i].Some?
      ensures r.servers[r.serverSlots[i].value].name != a.name && r.serverSlots[i].value != a.s
    {
      assert r.serverSlots[i].value !in ServerHits(r, ServerByName(a.name));
    }
  }

  lemma {:induction false} AllocationKeepsInv(w: World, a: Action)
    requires Inv(w) && Can(w, a) && (a.CreateClientAct? || a.AllocateAct?)
    ensures Inv(Do(w, a))
  {
    match a {
      case CreateClientAct(jni, miu, rw, k, c) => CreateClientMembers(w.reg, jni, miu, rw, k, c);
      case AllocateAct(s, jni, c) => AllocateConnectionMembers(w.reg, s, jni, c);
    }
    AllocationKeepsKeys(w, a);
  }

  lemma {:induction false} AllocationKeepsKeys(w: World, a: Action)
    requires Wf(w.reg) && Keyed(w) && Can(w, a) && (a.CreateClientAct? || a.AllocateAct?)
    ensures Keyed(Do(w, a))
  {
    AllocationIsNew(w, a);
    NewConnKeepsKeys(w, Do(w, a), a.c, a.jni);
  }

  /** A connection under a new JNI handle, with no NFA handle yet, is all that may have been added. */
  ghost predicate OneNewConn(w: World, w': World, c: nat, jni: nat) {
    && w'.jnis == w.jnis + {jni} && w'.handles == w.handles && w'.delivered == w.delivered && w'.cb == w.cb
    && w'.reg.serverSlots == w.reg.serverSlots && w'.reg.servers.Keys == w.reg.servers.Keys
    && w.reg.conns.Keys <= w'.reg.conns.Keys <= w.reg.conns.Keys + {c} && w.reg.clients.Keys <= w'.reg.clients.Keys
    && (forall d <- w.reg.conns :: w'.reg.conns[d] == w.reg.conns[d])
    && (c in w'.reg.conns ==> w'.reg.conns[c].jni == jni && w'.reg.conns[c].nfa == INVALID)
    && (forall s <- w.reg.servers ::
          w'.reg.servers[s].jni == w.reg.servers[s].jni && w'.reg.servers[s].name == w.reg.servers[s].name)
    && (forall k <- w'.reg.clients ::
          if k in w.reg.clients then w'.reg.clients[k] == w.reg.clients[k] else w'.reg.clients[k].conn == c)
  }

  lemma {:induction false} AllocationIsNew(w: World, a: Action)
    requires Wf(w.reg) && Refs(w) && Can(w, a) && (a.CreateClientAct? || a.AllocateAct?)
    ensures OneNewConn(w, Do(w, a), a.c, a.jni)
  {
  }

  lemma {:induction false} NewConnKeepsKeys(w: World, w': World, c: nat, jni: nat)
    requires Keyed(w) && OneNewConn(w, w', c, jni) && jni !in w.jnis && c !in w.reg.conns
    ensures Keyed(w')
  {
    NewConnIsDistinct(w, w', c, jni);
  }

  lemma {:induction false} NewConnIsDistinct(w: World, w': World, c: nat, jni: nat)
    requires Distinct(w) && OneNewConn(w, w', c, jni) && jni !in w.jnis && c !in w.reg.conns
    ensures Distinct(w')
  {
  }

  lemma {:induction false} ClosingKeepsInv(w: World, a: Action)
    requires Inv(w) && Can(w, a) && (a.TurnOff? || a.StoreDisconnect?)
    ensures Inv(Do(w, a))
  {
    if a.TurnOff? { NfcOffMembers(w.reg); } else { SetConnHandleMembers(w.reg, w.cb.c, INVALID); }
    CalmKeepsKeys(w, Do(w, a));
  }

  /** Looking something up in the callback thread changes no table. */
  lemma {:induction false} LookupKeepsInv(w: World, a: Action)
    requires Inv(w) && Can(w, a)
    requires a.RegServerEvt? || a.ConnReqEvt? || a.PickWaiting? || a.RegClientEvt? || a.ConnectedEvt? || a.DiscEvt?
    ensures Inv(Do(w, a)) && Do(w, a).reg == w.reg
  {
    if a.PickWaiting? || a.DiscEvt? { ConnLookupKeepsKeys(w, a); } else { EventKeepsKeys(w, a); }
  }

  lemma {:induction false} EventKeepsKeys(w: World, a: Action)
    requires Wf(w.reg) && Keyed(w) && Can(w, a)
    requires a.RegServerEvt? || a.ConnReqEvt? || a.RegClientEvt? || a.ConnectedEvt?
    ensures Keyed(Do(w, a))
  {
  }

  lemma {:induction false} ConnLookupKeepsKeys(w: World, a: Action)
    requires Inv(w) && Can(w, a) && (a.PickWaiting? || a.DiscEvt?)
    ensures Keyed(Do(w, a))
  {
    match a {
      case PickWaiting => if FindServerConn(w.reg, w.cb.s, ByNfa(INVALID)).Some? { WaitingIsOwned(w.reg, w.cb.s); }
      case DiscEvt(h) => ScanFindsAMember(w.reg, ByNfa(h));
    }
  }

  lemma {:induction false} WaitingIsOwned(r: Reg, s: nat)
    requires Wf(r) && Owned(r) && s in r.servers && FindServerConn(r, s, ByNfa(INVALID)).Some?
    ensures var c := FindServerConn(r, s, ByNfa(INVALID)).value;
            c in r.conns && r.conns[c].nfa == INVALID && forall k <- r.clients :: r.clients[k].conn != c
  {
    assert Holds(r.servers[s].slots, FindServerConn(r, s, ByNfa(INVALID)).value);
  }

  /** Updates of fields the tables are not searched by leave ownership and membership alone. */
  lemma {:induction false} FieldsAside(r: Reg, r': Reg)
    requires Wf(r) && Owned(r)
    requires r'.serverSlots == r.serverSlots && r'.clientSlots == r.clientSlots && r'.conns.Keys == r.conns.Keys
    requires r'.clients.Keys == r.clients.Keys && r'.servers.Keys == r.servers.Keys
    requires forall k <- r.clients :: r'.clients[k].conn == r.clients[k].conn
    requires forall s <- r.servers :: r'.servers[s].slots == r.servers[s].slots
    ensures Wf(r') && Owned(r') && Members(r') == Members(r)
  {
    SamePlaces(r, r');
  }

  lemma {:induction false} SamePlaces(r: Reg, r': Reg)
    requires r'.serverSlots == r.serverSlots && r'.clientSlots == r.clientSlots && r'.conns.Keys == r.conns.Keys
    requires r'.clients.Keys == r.clients.Keys && r'.servers.Keys == r.servers.Keys
    requires forall k <- r.clients :: r'.clients[k].conn == r.clients[k].conn
    requires forall s <- r.servers :: r'.servers[s].slots == r.servers[s].slots
    ensures Members(r') == Members(r)
  {
    assert forall c <- r.conns :: (ViaClient(r', c) <==> ViaClient(r, c)) && (ViaServer(r', c) <==> ViaServer(r, c));
  }

  lemma {:induction false} MarkIsCalm(w: World, a: Action)
    requires Wf(w.reg) && Keyed(w) && Can(w, a) && Marks(a)
    ensures Calmer(w, Do(w, a))
  {
  }

  lemma {:induction false} MarkKeepsInv(w: World, a: Action)
    requires Inv(w) && Can(w, a) && Marks(a)
    ensures Inv(Do(w, a)) && Members(Do(w, a).reg) == Members(w.reg) && Do(w, a).reg.conns == w.reg.conns
  {
    FieldsAside(w.reg, Do(w, a).reg);
    MarkIsCalm(w, a);
    CalmKeepsKeys(w, Do(w, a));
  }

  lemma {:induction false} StoreServerKeepsInv(w: World)
    requires Inv(w) && w.cb.RegAnswer?
    ensures Inv(Do(w, StoreServerHandle)) && Members(Do(w, StoreServerHandle).reg) == Members(w.reg)
    ensures Do(w, StoreServerHandle).reg.conns == w.reg.conns
  {
    FieldsAside(w.reg, Do(w, StoreServerHandle).reg);
    CalmKeepsKeys(w, Do(w, StoreServerHandle));
  }

  lemma {:induction false} StoreKeepsInv(w: World, c: nat, miu: int, rw: int)
    requires Inv(w) && c in w.reg.conns && (w.cb.ConnReq? || w.cb.ConnectAnswer?)
    ensures Inv(Store(w, c, w.cb.h, miu, rw)) && Members(Store(w, c, w.cb.h, miu, rw).reg) == Members(w.reg)
  {
    FieldsAside(w.reg, Store(w, c, w.cb.h, miu, rw).reg);
    StoreKeepsKeys(w, c, miu, rw);
  }

  lemma {:induction false} StoreKeepsKeys(w: World, c: nat, miu: int, rw: int)
    requires Keyed(w) && c in w.reg.conns && (w.cb.ConnReq? || w.cb.ConnectAnswer?)
    ensures Keyed(Store(w, c, w.cb.h, miu, rw))
  {
    var r, r' := w.reg, Store(w, c, w.cb.h, miu, rw).reg;
    assert r'.conns.Keys == r.conns.Keys;
    assert forall d <- r.conns :: r'.conns[d].jni == r.conns[d].jni && (d != c ==> r'.conns[d] == r.conns[d]);
  }

  predicate ChangesTables(a: Action) {
    a.RegisterServerAct? || a.RemoveServerAct? || a.RemoveConnAct? || a.DropServerConnAct? || a.TurnOn? || a.TurnOff?
    || a.CreateClientAct? || a.AllocateAct?
  }

  lemma {:induction false} TableChangeKeepsInv(w: World, a: Action)
    requires Inv(w) && Can(w, a) && ChangesTables(a)
    ensures Inv(Do(w, a))
  {
    match a {
      case RegisterServerAct(_, _, _) => RegisterServerKeepsInv(w, a);
      case CreateClientAct(_, _, _, _, _) => AllocationKeepsInv(w, a);
      case AllocateAct(_, _, _) => AllocationKeepsInv(w, a);
      case TurnOff => ClosingKeepsInv(w, a);
      case _ => RemovalKeepsInv(w, a);
    }
  }

  /** The callback thread writes a handle. */
  predicate StoresHandle(a: Action) {
    a.StoreDisconnect? || a.StoreServerHandle? || a.StoreConnRequest? || a.StoreConnected?
  }

  predicate Marks(a: Action) { a.BeginConnect? || a.EndConnect? || a.StoreClientHandle? }

  lemma {:induction false} HandleStoreKeepsInv(w: World, a: Action)
    requires Inv(w) && Can(w, a) && StoresHandle(a)
    ensures Inv(Do(w, a))
  {
    match a {
      case StoreDisconnect => ClosingKeepsInv(w, a);
      case StoreServerHandle => StoreServerKeepsInv(w);
      case StoreConnRequest(miu, rw) => StoreKeepsInv(w, w.cb.c, miu, rw);
      case StoreConnected(miu, rw) => StoreKeepsInv(w, w.reg.clients[w.cb.k].conn, miu, rw);
    }
  }

  lemma {:induction false} DoKeepsInv(w: World, a: Action)
    requires Inv(w) && Can(w, a)
    ensures Inv(Do(w, a))
  {
    if ChangesTables(a) {
      TableChangeKeepsInv(w, a);
    } else if StoresHandle(a) {
      HandleStoreKeepsInv(w, a);
    } else if Marks(a) {
      MarkKeepsInv(w, a);
    } else {
      LookupKeepsInv(w, a);
    }
  }

  lemma {:induction false} AfterKeepsInv(w: World, run: seq<Action>)
    requires Inv(w) && Legal(w, run)
    ensures Inv(After(w, run))
    decreases run
  {
    if run == [] {
    } else {
      DoKeepsInv(w, run[0]);
      AfterKeepsInv(Do(w, run[0]), run[1..]);
    }
  }

  /** In every reachable state the registered service names, the servers' JNI handles, the connections' JNI
      handles across both tables and the live NFA connection handles are pairwise distinct. */
  lemma {:induction false} KeysNeverCollide(run: seq<Action>)
    requires Legal(START, run)
    ensures var r := After(START, run).reg;
            && Wf(r) && Owned(r) && UniqueJni(r) && UniqueNfa(r) && DistinctNames(r)
            && (forall s <- r.servers :: forall t <- r.servers :: r.servers[s].jni == r.servers[t].jni ==> s == t)
  {
    StartIsSound();
    AfterKeepsInv(START, run);
  }

  lemma {:induction false} StartIsSound()
    ensures Inv(START) && Live(START.reg) == {}
  {
    assert forall s: nat :: !Holds(NO_TABLES.serverSlots, s);
  }

  /** So in every reachable state findConnection is lookup, and removeConn deletion, in one map. */
  lemma {:induction false} LookupsRefineOneMap(run: seq<Action>, h: nat)
    requires Legal(START, run)
    ensures var r := After(START, run).reg;
            && Wf(r) && UniqueJni(r) && UniqueJni(RemoveConn(r, h))
            && FindConnection(r, ByJni(h)) == Lookup(View(r), h)
            && View(RemoveConn(r, h)) == View(r) - {h}
  {
    KeysNeverCollide(run);
    FindByJniIsLookup(After(START, run).reg, h);
    RemoveConnIsMapRemoval(After(START, run).reg, h);
  }

  /** A connection request, or a client registration, only ever fills an object whose handle is invalid. */
  lemma {:induction false} OnlyWaitingObjectsAreFilled(run: seq<Action>)
    requires Legal(START, run)
    ensures var w := After(START, run);
            && (w.cb.ConnReq? ==> w.cb.c in w.reg.conns && w.reg.conns[w.cb.c].nfa == INVALID)
            && (w.cb.ClientReg? ==> w.cb.k in w.reg.clients && w.reg.clients[w.cb.k].nfa == INVALID)
  {
    StartIsSound();
    AfterKeepsInv(START, run);
  }

  // ---- the stack's own handles for servers and clients ----

  /** Servers and clients have the handles the stack gave them, no handle is on two of them, and one on its way
      is on none. */
  ghost predicate EndpointsDistinct(w: World) {
    && (forall s <- w.reg.servers :: w.reg.servers[s].nfa == INVALID || w.reg.servers[s].nfa in w.handles)
    && (forall k <- w.reg.clients :: w.reg.clients[k].nfa == INVALID || w.reg.clients[k].nfa in w.handles)
    && (forall s <- w.reg.servers :: forall t <- w.reg.servers ::
          w.reg.servers[s].nfa == w.reg.servers[t].nfa != INVALID ==> s == t)
    && (forall k <- w.reg.clients :: forall l <- w.reg.clients ::
          w.reg.clients[k].nfa == w.reg.clients[l].nfa != INVALID ==> k == l)
    && (forall s <- w.reg.servers :: forall k <- w.reg.clients :: w.reg.servers[s].nfa == w.reg.clients[k].nfa ==>
          w.reg.servers[s].nfa == INVALID)
    && (!w.cb.Idle? && !w.cb.Disc? ==>
          && w.cb.h in w.handles && w.cb.h != INVALID
          && (forall s <- w.reg.servers :: w.reg.servers[s].nfa != w.cb.h)
          && (forall k <- w.reg.clients :: w.reg.clients[k].nfa != w.cb.h))
  }

  /** No server or client gets a handle; new ones have none. */
  ghost predicate EndpointsAlike(w: World, w': World) {
    && w'.handles == w.handles && (w'.cb == w.cb || w'.cb.Idle?)
    && (forall s <- w'.reg.servers ::
          w'.reg.servers[s].nfa == if s in w.reg.servers then w.reg.servers[s].nfa else INVALID)
    && (forall k <- w'.reg.clients ::
          w'.reg.clients[k].nfa == if k in w.reg.clients then w.reg.clients[k].nfa else INVALID)
  }

  predicate GivesHandles(a: Action) { a.StoreServerHandle? || a.StoreClientHandle? }

  predicate LooksUp(a: Action) {
    a.RegServerEvt? || a.ConnReqEvt? || a.PickWaiting? || a.RegClientEvt? || a.ConnectedEvt? || a.DiscEvt?
  }

  lemma {:induction false} OthersLeaveEndpoints(w: World, a: Action)
    requires Wf(w.reg) && Refs(w) && Can(w, a) && !GivesHandles(a) && !LooksUp(a)
    ensures EndpointsAlike(w, Do(w, a))
  {
    if a.RemoveConnAct? { RemoveConnTouchesOneSlot(w.reg, a.jni); }
  }

  lemma {:induction false} AlikeStaysDistinct(w: World, w': World)
    requires EndpointsDistinct(w) && EndpointsAlike(w, w')
    ensures EndpointsDistinct(w')
  {
  }

  lemma {:induction false} LookupKeepsEndpoints(w: World, a: Action)
    requires Wf(w.reg) && Refs(w) && Can(w, a) && EndpointsDistinct(w) && LooksUp(a)
    ensures EndpointsDistinct(Do(w, a))
  {
  }

  lemma {:induction false} GivenHandleIsDistinct(w: World, a: Action)
    requires Wf(w.reg) && Refs(w) && Can(w, a) && EndpointsDistinct(w) && GivesHandles(a)
    ensures EndpointsDistinct(Do(w, a))
  {
  }

  lemma {:induction false} EndpointsStayDistinct(w: World, a: Action)
    requires Wf(w.reg) && Refs(w) && Can(w, a) && EndpointsDistinct(w)
    ensures EndpointsDistinct(Do(w, a))
  {
    if GivesHandles(a) {
      GivenHandleIsDistinct(w, a);
    } else if LooksUp(a) {
      LookupKeepsEndpoints(w, a);
    } else {
      OthersLeaveEndpoints(w, a);
      AlikeStaysDistinct(w, Do(w, a));
    }
  }

  lemma {:induction false} AfterKeepsEndpoints(w: World, run: seq<Action>)
    requires Inv(w) && Legal(w, run) && EndpointsDistinct(w)
    ensures EndpointsDistinct(After(w, run))
    decreases run
  {
    if run == [] {
    } else {
      DoKeepsInv(w, run[0]);
      EndpointsStayDistinct(w, run[0]);
      AfterKeepsEndpoints(Do(w, run[0]), run[1..]);
    }
  }

  /** In every reachable state the handles the stack gave to servers and clients are pairwise distinct, so an event
      for a handle finds the one server, or the one client in the table, that has it. */
  lemma {:induction false} EventsFindTheirEndpoint(run: seq<Action>, h: int)
    requires Legal(START, run) && h != INVALID
    ensures var r := After(START, run).reg;
            && (forall s <- r.servers :: FindServer(r, ServerByNfa(h)) == Some(s) <==> Answering(r, s, ServerByNfa(h)))
            && (forall k <- r.clients ::
                  FindClientByNfa(r, h) == Some(k) <==> Holds(r.clientSlots, k) && r.clients[k].nfa == h)
  {
    StartIsSound();
    AfterKeepsInv(START, run);
    AfterKeepsEndpoints(START, run);
    HandleFindsEndpoint(After(START, run), h);
  }

  lemma {:induction false} HandleFindsEndpoint(w: World, h: int)
    requires Wf(w.reg) && EndpointsDistinct(w) && h != INVALID
    ensures var r := w.reg;
            && (forall s <- r.servers :: FindServer(r, ServerByNfa(h)) == Some(s) <==> Answering(r, s, ServerByNfa(h)))
            && (forall k <- r.clients ::
                  FindClientByNfa(r, h) == Some(k) <==> Holds(r.clientSlots, k) && r.clients[k].nfa == h)
  {
    var r := w.reg;
    forall s | s in r.servers ensures FindServer(r, ServerByNfa(h)) == Some(s) <==> Answering(r, s, ServerByNfa(h)) {
      FindServerIsLookup(r, ServerByNfa(h), s);
    }
    forall k | k in r.clients
      ensures FindClientByNfa(r, h) == Some(k) <==> Holds(r.clientSlots, k) && r.clients[k].nfa == h
    {
      HandleFindsClient(w, h, k);
    }
  }

  lemma {:induction false} HandleFindsClient(w: World, h: int, k: nat)
    requires Wf(w.reg) && EndpointsDistinct(w) && h != INVALID && k in w.reg.clients
    ensures FindClientByNfa(w.reg, h) == Some(k) <==> Holds(w.reg.clientSlots, k) && w.reg.clients[k].nfa == h
  {
    var r := w.reg;
    var i := First(r.clientSlots, ClientNfaHits(r, h));
    if i < |r.clientSlots| {
      assert Holds(r.clientSlots, r.clientSlots[i].value);
    } else if Holds(r.clientSlots, k) {
      var j :| 0 <= j < |r.clientSlots| && r.clientSlots[j] == Some(k);
      assert r.clientSlots[j].value !in ClientNfaHits(r, h);
    }
  }
}
