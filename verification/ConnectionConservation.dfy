/** Where every connection handle the stack has delivered is to be found. */
module ConnectionConservation {
  import opened Options
  import opened PeerRegistry
  import opened PeerRegistryRuns
  import opened Reachability

  /** The handles live in the tables are those the stack stored, less those closed, those taken out with
      their connection, and those stored in a connection that had already been taken out. */
  ghost predicate Conserved(w: World) {
    && w.closed <= w.delivered && w.removed <= w.delivered && w.missed <= w.delivered
    && Live(w.reg) == w.delivered - w.closed - w.removed - w.missed
    && forall c <- w.reg.conns :: w.reg.conns[c].nfa != INVALID ==> w.reg.conns[c].nfa in w.delivered
  }

  /** A client waiting for its connect to be answered has no connection yet. */
  ghost predicate ConnectsAreDown(w: World) {
    && (forall k <- w.outstanding :: k in w.reg.clients && w.reg.clients[k].conn in w.reg.conns
          && w.reg.conns[w.reg.clients[k].conn].nfa == INVALID)
    && (w.cb.ConnectAnswer? ==> w.cb.k in w.outstanding)
  }

  /** The caller connects a client only while it has no connection. */
  ghost predicate ConnectsWhenDown(w: World, a: Action) {
    a.BeginConnect? ==> a.k in w.reg.clients && w.reg.clients[a.k].conn in w.reg.conns
                        && w.reg.conns[w.reg.clients[a.k].conn].nfa == INVALID
  }

  ghost predicate Careful(w: World, run: seq<Action>)
    requires Legal(w, run)
    decreases run
  {
    run == [] || (ConnectsWhenDown(w, run[0]) && Careful(Do(w, run[0]), run[1..]))
  }

  ghost predicate DistinctNfa(r: Reg) {
    forall c <- r.conns :: forall d <- r.conns :: r.conns[c].nfa == r.conns[d].nfa != INVALID ==> c == d
  }

  // ---- what each update does to the live handles ----

  /** Members taken out with their handles. */
  lemma {:induction false} LiveLess(r: Reg, r': Reg, gone: set<nat>)
    requires r'.conns == r.conns && Members(r') == Members(r) - gone && DistinctNfa(r)
    ensures Live(r') == Live(r) - Handles(r, gone)
  {
    forall h | h in Live(r) - Handles(r, gone) ensures h in Live(r') {
      var c :| c in Members(r) && r.conns[c].nfa == h;
      assert c in Members(r');
    }
  }

  lemma {:induction false} LiveSame(r: Reg, r': Reg)
    requires Members(r) <= Members(r') && r.conns.Keys <= r'.conns.Keys
    requires forall c <- r.conns :: r'.conns[c] == r.conns[c]
    requires forall c <- Members(r') :: c in Members(r) || r'.conns[c].nfa == INVALID
    ensures Live(r') == Live(r)
  {
  }

  lemma {:induction false} LiveAfterRemoveServer(r: Reg, jni: nat)
    requires Wf(r) && Owned(r) && DistinctNfa(r)
    ensures Live(RemoveServer(r, jni)) ==
              match FindServer(r, ServerByJni(jni))
              case Some(s) => Live(r) - Handles(r, HeldBy(r, s))
              case None => Live(r)
  {
    RemoveServerMembers(r, jni);
    var gone := match FindServer(r, ServerByJni(jni)) case Some(s) => HeldBy(r, s) case None => {};
    LiveLess(r, RemoveServer(r, jni), gone);
  }

  lemma {:induction false} LiveAfterRemoveConn(r: Reg, jni: nat)
    requires Wf(r) && Owned(r) && DistinctNfa(r)
    ensures Live(RemoveConn(r, jni)) == Live(r) - Handles(r, Found(FindConnection(r, ByJni(jni))))
    ensures RemoveConn(r, jni).conns == r.conns
  {
    RemoveConnMembers(r, jni);
    RemoveConnTouchesOneSlot(r, jni);
    LiveLess(r, RemoveConn(r, jni), Found(FindConnection(r, ByJni(jni))));
  }

  /** accept may drop a connection of a server that has itself been dropped; its handle is not live. */
  lemma {:induction false} LiveAfterDrop(r: Reg, s: nat, jni: nat)
    requires Wf(r) && Owned(r) && DistinctNfa(r) && s in r.servers
    ensures Live(RemoveServerConnection(r, s, jni)) == Live(r) - Handles(r, Found(FindServerConn(r, s, ByJni(jni))))
    ensures RemoveServerConnection(r, s, jni).conns == r.conns
  {
    var found := FindServerConn(r, s, ByJni(jni));
    RemoveServerConnectionMembers(r, s, jni);
    if found.Some? {
      assert Holds(r.servers[s].slots, found.value);
      HeldMember(r, s, found.value);
    }
    LiveLess(r, RemoveServerConnection(r, s, jni), Found(found));
  }

  /** Storing a handle in one connection, seen over any set of connections. */
  lemma {:induction false} HandlesAfterStore(r: Reg, c: nat, conn: Conn, among: set<nat>)
    requires DistinctNfa(r) && c in r.conns && conn.nfa !in Handles(r, among)
    ensures var r' := r.(conns := r.conns[c := conn]);
            Handles(r', among) ==
              Handles(r, among) - Handles(r, {c}) + (if c in among && conn.nfa != INVALID then {conn.nfa} else {})
  {
    var r' := r.(conns := r.conns[c := conn]);
    forall x | x in Handles(r, among) - Handles(r, {c}) ensures x in Handles(r', among) {
      var d :| d in among && d in r.conns && r.conns[d].nfa == x;
      assert d != c && r'.conns[d].nfa == x;
    }
    if c in among && conn.nfa != INVALID { assert r'.conns[c].nfa == conn.nfa; }
    forall x | x in Handles(r', among)
      ensures x in Handles(r, among) - Handles(r, {c}) || (x == conn.nfa && c in among)
    {
      var d :| d in among && d in r'.conns && r'.conns[d].nfa == x;
    }
  }

  lemma {:induction false} LiveAfterStore(r: Reg, c: nat, conn: Conn)
    requires Wf(r) && Owned(r) && DistinctNfa(r) && c in r.conns && conn.nfa !in Live(r)
    ensures var r' := r.(conns := r.conns[c := conn]);
            Live(r') == Live(r) - Handles(r, {c}) + (if c in Members(r) && conn.nfa != INVALID then {conn.nfa} else {})
  {
    FieldsAside(r, r.(conns := r.conns[c := conn]));
    HandlesAfterStore(r, c, conn, Members(r));
  }

  // ---- conservation, action by action ----

  lemma {:induction false} RemovalConserves(w: World, a: Action)
    requires Inv(w) && Conserved(w) && Can(w, a)
             && (a.RemoveServerAct? || a.RemoveConnAct? || a.DropServerConnAct? || a.TurnOn?)
    ensures Conserved(Do(w, a))
  {
    match a {
      case RemoveServerAct(jni) => LiveAfterRemoveServer(w.reg, jni);
      case RemoveConnAct(jni) => LiveAfterRemoveConn(w.reg, jni);
      case DropServerConnAct(s, jni) => LiveAfterDrop(w.reg, s, jni);
      case TurnOn => NfcOnMembers(w.reg);
    }
  }

  /** A table that gains a connection without a handle, or nothing */
  lemma {:induction false} GainConserves(w: World, w': World)
    requires Conserved(w) && w'.closed == w.closed && w'.removed == w.removed && w'.missed == w.missed
             && w'.delivered == w.delivered
    requires Members(w.reg) <= Members(w'.reg) && w.reg.conns.Keys <= w'.reg.conns.Keys
    requires forall c <- w.reg.conns :: w'.reg.conns[c] == w.reg.conns[c]
    requires forall c <- w'.reg.conns :: c in w.reg.conns || w'.reg.conns[c].nfa == INVALID
    requires forall c <- Members(w'.reg) :: c in Members(w.reg) || w'.reg.conns[c].nfa == INVALID
    ensures Conserved(w')
  {
    LiveSame(w.reg, w'.reg);
  }

  lemma {:induction false} CreationConserves(w: World, a: Action)
    requires Inv(w) && Conserved(w) && Can(w, a) && a.CreateClientAct?
    ensures Conserved(Do(w, a))
  {
    CreateClientMembers(w.reg, a.jni, a.miu, a.rw, a.k, a.c);
    GainConserves(w, Do(w, a));
  }

  lemma {:induction false} AllocationConserves(w: World, a: Action)
    requires Inv(w) && Conserved(w) && Can(w, a) && a.AllocateAct?
    ensures Conserved(Do(w, a))
  {
    AllocateConnectionMembers(w.reg, a.s, a.jni, a.c);
    GainConserves(w, Do(w, a));
  }

  lemma {:induction false} RegistrationConserves(w: World, a: Action)
    requires Inv(w) && Conserved(w) && Can(w, a) && a.RegisterServerAct?
    ensures Conserved(Do(w, a))
  {
    RegisterServerMembers(w.reg, a.jni, a.name, a.s);
  }

  lemma {:induction false} TurnOffConserves(w: World)
    requires Inv(w) && Conserved(w)
    ensures Conserved(Do(w, TurnOff))
  {
    NfcOffMembers(w.reg);
    assert Live(NfcOff(w.reg)) == {};
  }

  lemma {:induction false} DisconnectConserves(w: World)
    requires Inv(w) && Conserved(w) && w.cb.Disc?
    ensures Conserved(Do(w, StoreDisconnect))
  {
    LiveAfterStore(w.reg, w.cb.c, w.reg.conns[w.cb.c].(nfa := INVALID));
  }

  lemma {:induction false} LiveAfterTheStore(w: World, c: nat, miu: int, rw: int)
    requires Inv(w) && c in w.reg.conns && (w.cb.ConnReq? || w.cb.ConnectAnswer?)
    ensures w.cb.h != INVALID && w.cb.h !in w.delivered
    ensures Live(Store(w, c, w.cb.h, miu, rw).reg) ==
              Live(w.reg) - Handles(w.reg, {c}) + (if c in Members(w.reg) then {w.cb.h} else {})
  {
    assert w.cb.h !in Live(w.reg);
    LiveAfterStore(w.reg, c, w.reg.conns[c].(nfa := w.cb.h, remoteMiu := miu, remoteRecvWindow := rw));
  }

  /** One more handle delivered, to a member or past all of them */
  lemma {:induction false} OneMoreConserved(w: World, w': World, h: int, live: bool)
    requires Conserved(w) && h !in w.delivered
    requires w'.delivered == w.delivered + {h} && w'.closed == w.closed && w'.removed == w.removed
    requires w'.missed == if live then w.missed else w.missed + {h}
    requires Live(w'.reg) == Live(w.reg) + if live then {h} else {}
    requires forall c <- w'.reg.conns :: w'.reg.conns[c].nfa != INVALID ==> w'.reg.conns[c].nfa in w'.delivered
    ensures Conserved(w')
  {
  }

  /** One handle less that is live, and not for having been closed or removed */
  lemma {:induction false} OneLessUnconserved(w: World, w': World, h: int)
    requires Conserved(w) && h in Live(w.reg) && h !in Live(w'.reg)
    requires h in w'.delivered && w'.closed == w.closed && w'.removed == w.removed && w'.missed == w.missed
    ensures !Conserved(w')
  {
    assert h in w.delivered - w.closed - w.removed - w.missed;
  }

  /** A store conserves handles exactly when it overwrites none that is live. */
  lemma {:induction false} StoreConserves(w: World, c: nat, miu: int, rw: int)
    requires Inv(w) && Conserved(w) && c in w.reg.conns && (w.cb.ConnReq? || w.cb.ConnectAnswer?)
    ensures Conserved(Store(w, c, w.cb.h, miu, rw)) <==> (w.reg.conns[c].nfa == INVALID || c !in Members(w.reg))
  {
    var r, w' := w.reg, Store(w, c, w.cb.h, miu, rw);
    LiveAfterTheStore(w, c, miu, rw);
    if c in Members(r) && r.conns[c].nfa != INVALID {
      assert r.conns[c].nfa in Handles(r, {c});
      OneLessUnconserved(w, w', r.conns[c].nfa);
    } else {
      NothingLiveAt(r, c);
      OneMoreConserved(w, w', w.cb.h, c in Members(r));
    }
  }

  lemma {:induction false} NothingLiveAt(r: Reg, c: nat)
    requires DistinctNfa(r) && c in r.conns && (r.conns[c].nfa == INVALID || c !in Members(r))
    ensures Live(r) - Handles(r, {c}) == Live(r)
  {
    if c !in Members(r) {
      forall d | d in Members(r) ensures r.conns[d].nfa == INVALID || r.conns[d].nfa != r.conns[c].nfa {}
    }
  }

  /** So a second connect of a connected client is what loses a handle, and nothing else is. */
  lemma {:induction false} ConnectedConservesExactlyWhenDown(w: World, miu: int, rw: int)
    requires Inv(w) && Conserved(w) && w.cb.ConnectAnswer?
    ensures var c := w.reg.clients[w.cb.k].conn;
            Conserved(Do(w, StoreConnected(miu, rw))) <==> (w.reg.conns[c].nfa == INVALID || c !in Members(w.reg))
  {
    StoreConserves(w, w.reg.clients[w.cb.k].conn, miu, rw);
  }

  lemma {:induction false} TableChangeConserves(w: World, a: Action)
    requires Inv(w) && Conserved(w) && Can(w, a) && ChangesTables(a)
    ensures Conserved(Do(w, a))
  {
    match a {
      case RegisterServerAct(_, _, _) => RegistrationConserves(w, a);
      case CreateClientAct(_, _, _, _, _) => CreationConserves(w, a);
      case AllocateAct(_, _, _) => AllocationConserves(w, a);
      case TurnOff => TurnOffConserves(w);
      case _ => RemovalConserves(w, a);
    }
  }

  lemma {:induction false} HandleStoreConserves(w: World, a: Action)
    requires Inv(w) && Conserved(w) && Can(w, a) && StoresHandle(a) && !Overwrites(w, a)
    ensures Conserved(Do(w, a))
  {
    match a {
      case StoreDisconnect => DisconnectConserves(w);
      case StoreServerHandle => StoreServerKeepsInv(w);
      case StoreConnRequest(miu, rw) => StoreConserves(w, w.cb.c, miu, rw);
      case StoreConnected(miu, rw) => StoreConserves(w, w.reg.clients[w.cb.k].conn, miu, rw);
    }
  }

  lemma {:induction false} DoConserves(w: World, a: Action)
    requires Inv(w) && Conserved(w) && Can(w, a)
    requires !Overwrites(w, a)
    ensures Conserved(Do(w, a))
  {
    if ChangesTables(a) {
      TableChangeConserves(w, a);
    } else if StoresHandle(a) {
      HandleStoreConserves(w, a);
    } else if Marks(a) {
      MarkKeepsInv(w, a);
    } else {
      LookupKeepsInv(w, a);
    }
  }

  /** Apart from the callback's own store, no action gives a client's connection a handle. */
  lemma {:induction false} ClientsStayDown(w: World, a: Action, k: nat)
    requires Wf(w.reg) && Keyed(w) && Can(w, a) && k in w.reg.clients
             && w.reg.conns[w.reg.clients[k].conn].nfa == INVALID
    requires !(a.StoreConnected? && w.cb.k == k)
    requires forall l <- w.reg.clients :: l != k ==> w.reg.clients[l].conn != w.reg.clients[k].conn
    ensures var r' := Do(w, a).reg;
            && k in r'.clients && r'.clients[k].conn == w.reg.clients[k].conn && r'.clients[k].conn in r'.conns
            && r'.conns[r'.clients[k].conn].nfa == INVALID
  {
    if a.RemoveConnAct? {
      RemoveConnTouchesOneSlot(w.reg, a.jni);
    } else if !ChangesTables(a) {
      ClientsStayDownInTables(w, a, k);
    }
  }

  lemma {:induction false} ClientsStayDownInTables(w: World, a: Action, k: nat)
    requires Wf(w.reg) && Keyed(w) && Can(w, a) && !ChangesTables(a)
    requires k in w.reg.clients && w.reg.conns[w.reg.clients[k].conn].nfa == INVALID
    requires !(a.StoreConnected? && w.cb.k == k)
    requires forall l <- w.reg.clients :: l != k ==> w.reg.clients[l].conn != w.reg.clients[k].conn
    ensures var r' := Do(w, a).reg;
            && k in r'.clients && r'.clients[k].conn == w.reg.clients[k].conn && r'.clients[k].conn in r'.conns
            && r'.conns[r'.clients[k].conn].nfa == INVALID
  {
  }

  lemma {:induction false} DoKeepsConnectsDown(w: World, a: Action)
    requires Inv(w) && ConnectsAreDown(w) && Can(w, a) && ConnectsWhenDown(w, a)
    ensures ConnectsAreDown(Do(w, a))
  {
    var w' := Do(w, a);
    forall k | k in w'.outstanding
      ensures k in w'.reg.clients && w'.reg.clients[k].conn in w'.reg.conns
              && w'.reg.conns[w'.reg.clients[k].conn].nfa == INVALID
    {
      ClientsStayDown(w, a, k);
    }
  }

  // ---- whole runs ----

  /** A connect answer is about to overwrite a handle that is live in the tables. */
  ghost predicate Overwrites(w: World, a: Action)
    requires Wf(w.reg) && Refs(w)
  {
    a.StoreConnected? && w.cb.ConnectAnswer?
    && var c := w.reg.clients[w.cb.k].conn;
       c in Members(w.reg) && w.reg.conns[c].nfa != INVALID
  }

  ghost predicate NeverOverwrites(w: World, run: seq<Action>)
    requires Legal(w, run)
    decreases run
  {
    run == [] || (!Overwrites(w, run[0]) && NeverOverwrites(Do(w, run[0]), run[1..]))
  }

  /** A handle the stack delivered that no connection has and no other account explains. */
  ghost predicate Lost(w: World, h: int) {
    && h in w.delivered && h !in w.closed && h !in w.removed && h !in w.missed
    && forall c <- w.reg.conns :: w.reg.conns[c].nfa != h
  }

  lemma {:induction false} OverwritingLoses(w: World, a: Action)
    requires Inv(w) && Conserved(w) && Can(w, a) && Overwrites(w, a)
    ensures Lost(Do(w, a), w.reg.conns[w.reg.clients[w.cb.k].conn].nfa)
  {
    assert w.reg.conns[w.reg.clients[w.cb.k].conn].nfa in Live(w.reg);
  }

  lemma {:induction false} LostStaysLost(w: World, a: Action, h: int)
    requires Wf(w.reg) && Keyed(w) && Can(w, a) && Lost(w, h)
    ensures Lost(Do(w, a), h)
  {
    if a.RemoveConnAct? {
      RemoveConnTouchesOneSlot(w.reg, a.jni);
    } else if !ChangesTables(a) {
      LostStaysLostInTables(w, a, h);
    }
  }

  lemma {:induction false} LostStaysLostInTables(w: World, a: Action, h: int)
    requires Wf(w.reg) && Keyed(w) && Can(w, a) && Lost(w, h) && !ChangesTables(a)
    ensures Lost(Do(w, a), h)
  {
  }

  lemma {:induction false} LostForever(w: World, run: seq<Action>, h: int)
    requires Inv(w) && Legal(w, run) && Lost(w, h)
    ensures Lost(After(w, run), h)
    decreases run
  {
    if run == [] {
    } else {
      LostStaysLost(w, run[0], h);
      DoKeepsInv(w, run[0]);
      LostForever(Do(w, run[0]), run[1..], h);
    }
  }

  ghost predicate Accounted(w: World) {
    Live(w.reg) == w.delivered - w.closed - w.removed - w.missed
  }

  lemma {:induction false} AccountedWhile(w: World, run: seq<Action>)
    requires Inv(w) && Conserved(w) && Legal(w, run)
    ensures Accounted(After(w, run)) <==> NeverOverwrites(w, run)
    decreases run
  {
    if run == [] {
    } else {
      DoKeepsInv(w, run[0]);
      if Overwrites(w, run[0]) {
        var h := w.reg.conns[w.reg.clients[w.cb.k].conn].nfa;
        OverwritingLoses(w, run[0]);
        LostForever(Do(w, run[0]), run[1..], h);
        assert h !in Live(After(w, run).reg);
      } else {
        DoConserves(w, run[0]);
        AccountedWhile(Do(w, run[0]), run[1..]);
      }
    }
  }

  /** Conservation of connections over every run: the live handles are those delivered, less those closed,
      removed or missed, exactly when no connect answer ever found its client connected. */
  lemma {:induction false} ConservedExactlyWhenNeverOverwritten(run: seq<Action>)
    requires Legal(START, run)
    ensures Accounted(After(START, run)) <==> NeverOverwrites(START, run)
  {
    StartIsSound();
    AccountedWhile(START, run);
  }

  lemma {:induction false} CarefulNeverOverwrites(w: World, run: seq<Action>)
    requires Inv(w) && ConnectsAreDown(w) && Legal(w, run) && Careful(w, run)
    ensures NeverOverwrites(w, run)
    decreases run
  {
    if run == [] {
    } else {
      DoKeepsInv(w, run[0]);
      DoKeepsConnectsDown(w, run[0]);
      CarefulNeverOverwrites(Do(w, run[0]), run[1..]);
    }
  }

  /** In particular when every caller connects a client only while it has no connection. */
  lemma {:induction false} ConnectionsAreConserved(run: seq<Action>)
    requires Legal(START, run) && Careful(START, run)
    ensures Accounted(After(START, run))
  {
    StartIsSound();
    CarefulNeverOverwrites(START, run);
    ConservedExactlyWhenNeverOverwritten(run);
  }

  // ---- a run that loses a handle ----

  /** One client, registered with handle 7 when `up`, whose connection has handle h. */
  function OneClient(own: int, connecting: bool, h: int): Reg {
    Registry(NoSlots(), NoSlots<nat>()[0 := Some(0)], map[], map[0 := Client(own, connecting, 0)],
             map[0 := Conn(h, 1, 128, 1, if h == INVALID then 0 else 128, if h == INVALID then 0 else 1)])
  }

  function Registered(connecting: bool, h: int, more: set<int>): World {
    World(OneClient(7, connecting, h), Idle, {1}, {7} + more, {}, more, {}, {}, {})
  }

  /** One section of any operation or callback */
  ghost predicate Moves(w: World, w': World) { exists a :: Wf(w.reg) && Refs(w) && Can(w, a) && Do(w, a) == w' }

  lemma {:induction false} Takes(w: World, a: Action, w': World)
    requires Wf(w.reg) && Refs(w) && Can(w, a) && Do(w, a) == w'
    ensures Reaches(Moves, w, w')
  {
    OneStep(Moves, w, w');
  }

  lemma {:induction false} OneClientLookups(own: int, connecting: bool, h: int)
    ensures var r := OneClient(own, connecting, h);
            && Wf(r) && FindClientByNfa(r, own) == Some(0) && Members(r) == {0}
  {
    var r := OneClient(own, connecting, h);
    assert 0 in ClientNfaHits(r, own);
    assert r.clientSlots[0] == Some(0);
    assert Holds(r.clientSlots, 0) && r.clients[0].conn == 0;
  }

  const CREATE := CreateClientAct(1, 128, 1, 0, 0)

  function Created(): World { World(OneClient(INVALID, false, INVALID), Idle, {1}, {}, {}, {}, {}, {}, {}) }

  /** The world with the registration's answer on its way */
  function Registering(): World { Created().(handles := {7}, cb := ClientReg(0, 7)) }

  lemma {:induction false} ClientIsMade()
    ensures Wf(START.reg) && Refs(START) && Can(START, CREATE) && Do(START, CREATE) == Created()
  {
    StartIsSound();
  }

  lemma {:induction false} ClientIsAsked()
    ensures Wf(Created().reg) && Can(Created(), RegClientEvt(7)) && Do(Created(), RegClientEvt(7)) == Registering()
    ensures Do(Registering(), StoreClientHandle) == Registered(false, INVALID, {})
  {
    OneClientLookups(INVALID, false, INVALID);
  }

  lemma {:induction false} ClientIsRegistered()
    ensures Reaches(Moves, START, Registered(false, INVALID, {}))
  {
    ClientIsMade();
    ClientIsAsked();
    Takes(START, CREATE, Created());
    Takes(Created(), RegClientEvt(7), Registering());
    Takes(Registering(), StoreClientHandle, Registered(false, INVALID, {}));
    ReachesOn(Moves, START, Created(), Registering());
    ReachesOn(Moves, START, Registering(), Registered(false, INVALID, {}));
  }

  lemma {:induction false} ConnectEnds(h: int, more: set<int>)
    ensures Refs(Registered(true, h, more)) && Wf(Registered(true, h, more).reg)
    ensures Do(Registered(true, h, more), EndConnect(0)) == Registered(false, h, more)
  {
    OneClientLookups(7, true, h);
  }

  lemma {:induction false} ClientConnects(before: int, h: int, more: set<int>)
    requires h != INVALID && h != 7 && h !in more
    ensures Reaches(Moves, Registered(false, before, more), Registered(false, h, more + {h}))
  {
    var w0 := Registered(false, before, more);
    var w1 := Registered(true, before, more).(outstanding := {0});
    var w2 := w1.(handles := w1.handles + {h}, cb := ConnectAnswer(0, h));
    var w3, w4 := Registered(true, h, more + {h}), Registered(false, h, more + {h});
    OneClientLookups(7, false, before);
    Takes(w0, BeginConnect(0), w1);
    OneClientLookups(7, true, before);
    Takes(w1, ConnectedEvt(7, h), w2);
    assert w3.handles == w2.handles && {0} - {0} == {};
    Takes(w2, StoreConnected(128, 1), w3);
    ConnectEnds(h, more + {h});
    Takes(w3, EndConnect(0), w4);
    ReachesOn(Moves, w0, w1, w2);
    ReachesOn(Moves, w0, w2, w3);
    ReachesOn(Moves, w0, w3, w4);
  }

  lemma {:induction false} SecondHandleOnly(w: World)
    requires w == Registered(false, 21, {20, 21})
    ensures Live(w.reg) == {21} && Lost(w, 20)
  {
    OneClientLookups(7, false, 21);
    assert w.reg.conns[0].nfa == 21;
  }

  /** A client connected twice: the stack delivered handles 20 and 21, nothing was closed, removed or missed, and handle
      20 is nowhere. */
  lemma {:induction false} ConnectingTwiceLosesAHandle()
    ensures exists w :: Reaches(Moves, START, w) && w.delivered == {20, 21} && w.closed == w.removed == w.missed == {}
                        && Live(w.reg) == {21} && Lost(w, 20)
  {
    var up, once, last := Registered(false, INVALID, {}), Registered(false, 20, {} + {20}),
        Registered(false, 21, {20, 21});
    ClientIsRegistered();
    ClientConnects(INVALID, 20, {});
    ReachesOn(Moves, START, up, once);
    ClientConnects(20, 21, {} + {20});
    assert {} + {20} + {21} == {20, 21};
    ReachesOn(Moves, START, once, last);
    SecondHandleOnly(last);
  }
}
