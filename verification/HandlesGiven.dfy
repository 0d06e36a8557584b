/** From the stack's events to later lookups: the handle an event brings ends up in the object the event found, and
    finds that object from then on. */
module HandlesGiven {
  import opened Options
  import opened PeerRegistry
  import opened PeerRegistryRuns
  import Lifecycle = ConnectionLifecycle
  import opened RequestsAnswered

  ghost predicate Sound(w: World) { Inv(w) && EndpointsDistinct(w) && Lifecycle.Genuine(w) }

  lemma {:induction false} DoIsSound(w: World, a: Action)
    requires Sound(w) && Can(w, a)
    ensures Sound(Do(w, a))
  {
    DoKeepsInv(w, a);
    EndpointsStayDistinct(w, a);
    Lifecycle.StaysGenuine(w, a);
  }

  lemma {:induction false} AfterIsSound(w: World, run: seq<Action>)
    requires Sound(w) && Legal(w, run)
    ensures Sound(After(w, run))
    decreases run
  {
    if run == [] {
    } else {
      DoIsSound(w, run[0]);
      AfterIsSound(Do(w, run[0]), run[1..]);
    }
  }

  lemma {:induction false} ReachableIsSound(before: seq<Action>)
    requires Legal(START, before)
    ensures Sound(After(START, before))
  {
    StartIsSound();
    AfterIsSound(START, before);
  }

  // ---- between the lookup and the store ----

  predicate OfCallback(a: Action) { LooksUp(a) || StoresHandle(a) || a.StoreClientHandle? }

  /** The callback thread looks an object up, and callers' threads run. */
  ghost predicate LooksUpFirst(w: World, event: Action, mid: seq<Action>) {
    Wf(w.reg) && Refs(w) && Can(w, event) && Legal(Do(w, event), mid) && forall a <- mid :: !OfCallback(a)
  }

  /** ... and then it stores what the event brings. */
  ghost predicate Answers(w: World, event: Action, mid: seq<Action>, store: Action) {
    LooksUpFirst(w, event, mid) && var w' := After(Do(w, event), mid); Wf(w'.reg) && Refs(w') && Can(w', store)
  }

  ghost function Answered(w: World, event: Action, mid: seq<Action>, store: Action): World
    requires Answers(w, event, mid, store)
  {
    Do(After(Do(w, event), mid), store)
  }

  ghost predicate Kept(w: World, w': World) {
    && w'.cb == w.cb && w'.handles == w.handles && Lifecycle.Onward(w, w')
    && w.reg.servers.Keys <= w'.reg.servers.Keys
  }

  lemma {:induction false} CallerKeeps(w: World, a: Action)
    requires Wf(w.reg) && Refs(w) && Can(w, a) && !OfCallback(a)
    ensures Kept(w, Do(w, a))
  {
    Lifecycle.DoIsOnward(w, a);
    if a.RemoveConnAct? { RemoveConnTouchesOneSlot(w.reg, a.jni); }
  }

  lemma {:induction false} CallersKeep(w: World, mid: seq<Action>)
    requires Legal(w, mid) && forall a <- mid :: !OfCallback(a)
    ensures Kept(w, After(w, mid))
    decreases mid
  {
    if mid == [] {
    } else {
      CallerKeeps(w, mid[0]);
      CallersKeep(Do(w, mid[0]), mid[1..]);
    }
  }

  lemma {:induction false} AnsweredIsSound(w: World, event: Action, mid: seq<Action>, store: Action)
    requires Sound(w) && Answers(w, event, mid, store)
    ensures Sound(After(Do(w, event), mid)) && Sound(Answered(w, event, mid, store))
    ensures Kept(Do(w, event), After(Do(w, event), mid))
  {
    DoIsSound(w, event);
    CallersKeep(Do(w, event), mid);
    AfterIsSound(Do(w, event), mid);
    DoIsSound(After(Do(w, event), mid), store);
  }

  // ---- the registration of a server ----

  predicate ServerKnown(w: World, s: nat, h: int) {
    s in w.reg.servers && w.reg.servers[s].nfa == h && Holds(w.reg.serverSlots, s)
  }

  /** The action takes the server out of the table, or brings it another handle. */
  predicate Unregisters(w: World, a: Action, s: nat) {
    match a
    case TurnOn => true
    case RemoveServerAct(jni) => FindServer(w.reg, ServerByJni(jni)) == Some(s)
    case StoreServerHandle => w.cb.RegAnswer? && w.cb.s == s
    case _ => false
  }

  ghost predicate StaysRegistered(w: World, run: seq<Action>, s: nat)
    requires Legal(w, run)
    decreases run
  {
    run == [] || (!Unregisters(w, run[0], s) && StaysRegistered(Do(w, run[0]), run[1..], s))
  }

  /** The handle has been given out, and is not on its way to anything. */
  predicate Spent(w: World, h: int) {
    h in w.handles && (!w.cb.Idle? && !w.cb.Disc? ==> w.cb.h != h)
  }

  lemma {:induction false} StaysSpent(w: World, a: Action, h: int)
    requires Wf(w.reg) && Refs(w) && Can(w, a) && Spent(w, h)
    ensures Spent(Do(w, a), h)
  {
    if !OfCallback(a) { CallerKeeps(w, a); }
  }

  lemma {:induction false} RegisteringKeepsServers(r: Reg, jni: nat, name: string, t: nat, s: nat)
    requires Wf(r) && NoRepeats(r.serverSlots) && t !in r.servers && s in r.servers
    ensures Holds(RegisterServer(r, jni, name, t).serverSlots, s) <==> Holds(r.serverSlots, s)
  {
    var i := FirstFree(r.serverSlots);
    if FindServer(r, ServerByName(name)).None? && i < |r.serverSlots| {
      assert !Holds(r.serverSlots, t);
      FilledSlot(r.serverSlots, i, t, s);
    }
  }

  lemma {:induction false} RemovingTakesOne(r: Reg, jni: nat, s: nat)
    requires Wf(r) && Owned(r) && s in r.servers
    ensures Holds(RemoveServer(r, jni).serverSlots, s)
            <==> Holds(r.serverSlots, s) && FindServer(r, ServerByJni(jni)) != Some(s)
  {
    var i := First(r.serverSlots, ServerHits(r, ServerByJni(jni)));
    if i < |r.serverSlots| { ClearedSlot(r.serverSlots, i, s); }
  }

  lemma {:induction false} OthersKeepServerSlots(w: World, a: Action)
    requires Wf(w.reg) && Refs(w) && Can(w, a) && !a.RegisterServerAct? && !a.RemoveServerAct? && !a.TurnOn?
    ensures Do(w, a).reg.serverSlots == w.reg.serverSlots
  {
    if a.RemoveConnAct? { RemoveConnTouchesOneSlot(w.reg, a.jni); }
  }

  lemma {:induction false} ServerSlotsChange(w: World, a: Action, s: nat)
    requires Inv(w) && Can(w, a) && s in w.reg.servers
    ensures Holds(Do(w, a).reg.serverSlots, s) <==>
              Holds(w.reg.serverSlots, s) && !a.TurnOn?
              && (a.RemoveServerAct? ==> FindServer(w.reg, ServerByJni(a.jni)) != Some(s))
  {
    match a {
      case RemoveServerAct(jni) => RemovingTakesOne(w.reg, jni, s);
      case RegisterServerAct(jni, name, t) => RegisteringKeepsServers(w.reg, jni, name, t, s);
      case TurnOn =>
      case _ => OthersKeepServerSlots(w, a);
    }
  }

  lemma {:induction false} ServerHandleChange(w: World, a: Action, s: nat)
    requires Wf(w.reg) && Refs(w) && Can(w, a) && s in w.reg.servers
    ensures s in Do(w, a).reg.servers
    ensures Do(w, a).reg.servers[s].nfa == if a.StoreServerHandle? && w.cb.s == s then w.cb.h else w.reg.servers[s].nfa
  {
    if a.RemoveConnAct? { RemoveConnTouchesOneSlot(w.reg, a.jni); }
  }

  lemma {:induction false} ServerKnownUntil(w: World, a: Action, s: nat, h: int)
    requires Inv(w) && Can(w, a) && Spent(w, h) && s in w.reg.servers
    ensures s in Do(w, a).reg.servers && (ServerKnown(Do(w, a), s, h) ==> ServerKnown(w, s, h))
    ensures ServerKnown(w, s, h) ==> (ServerKnown(Do(w, a), s, h) <==> !Unregisters(w, a, s))
  {
    ServerSlotsChange(w, a, s);
    ServerHandleChange(w, a, s);
  }

  lemma {:induction false} ServerNeverKnown(w: World, run: seq<Action>, s: nat, h: int)
    requires Inv(w) && Legal(w, run) && Spent(w, h) && s in w.reg.servers && !ServerKnown(w, s, h)
    ensures !ServerKnown(After(w, run), s, h)
    decreases run
  {
    if run == [] {
    } else {
      ServerKnownUntil(w, run[0], s, h);
      StaysSpent(w, run[0], h);
      DoKeepsInv(w, run[0]);
      ServerNeverKnown(Do(w, run[0]), run[1..], s, h);
    }
  }

  lemma {:induction false} ServerKnownWhile(w: World, run: seq<Action>, s: nat, h: int)
    requires Inv(w) && Legal(w, run) && Spent(w, h) && ServerKnown(w, s, h)
    ensures ServerKnown(After(w, run), s, h) <==> StaysRegistered(w, run, s)
    decreases run
  {
    if run == [] {
    } else {
      ServerKnownUntil(w, run[0], s, h);
      StaysSpent(w, run[0], h);
      DoKeepsInv(w, run[0]);
      if ServerKnown(Do(w, run[0]), s, h) {
        ServerKnownWhile(Do(w, run[0]), run[1..], s, h);
      } else {
        ServerNeverKnown(Do(w, run[0]), run[1..], s, h);
      }
    }
  }

  lemma {:induction false} ServerFoundWhile(w: World, run: seq<Action>, s: nat, h: int)
    requires Sound(w) && Legal(w, run) && Spent(w, h) && s in w.reg.servers && w.reg.servers[s].nfa == h
    ensures FindServer(After(w, run).reg, ServerByNfa(h)) == Some(s)
            <==> Holds(w.reg.serverSlots, s) && StaysRegistered(w, run, s)
  {
    AfterIsSound(w, run);
    ServersStay(w, run, s);
    HandleFindsEndpoint(After(w, run), h);
    if ServerKnown(w, s, h) { ServerKnownWhile(w, run, s, h); } else { ServerNeverKnown(w, run, s, h); }
  }

  lemma {:induction false} ServersStay(w: World, run: seq<Action>, s: nat)
    requires Legal(w, run) && s in w.reg.servers
    ensures s in After(w, run).reg.servers
    decreases run
  {
    if run == [] {
    } else {
      ServerHandleChange(w, run[0], s);
      ServersStay(Do(w, run[0]), run[1..], s);
    }
  }

  lemma {:induction false} ServerIsLookedUp(w: World, name: string, h: int, s: nat)
    requires Wf(w.reg) && Refs(w) && Can(w, RegServerEvt(name, h)) && FindServer(w.reg, ServerByName(name)) == Some(s)
    ensures var w' := Do(w, RegServerEvt(name, h)); w'.cb == RegAnswer(s, h) && h in w'.handles && w'.reg == w.reg
  {
  }

  lemma {:induction false} ServerHandleIsStored(w: World, h: int, s: nat)
    requires Wf(w.reg) && Refs(w) && w.cb == RegAnswer(s, h)
    ensures var w' := Do(w, StoreServerHandle);
            s in w'.reg.servers && w'.reg.servers[s].nfa == h && w'.cb.Idle? && w'.handles == w.handles
  {
  }

  lemma {:induction false} ServerGetsHandle(w: World, name: string, h: int, s: nat, mid: seq<Action>)
    requires Sound(w) && Answers(w, RegServerEvt(name, h), mid, StoreServerHandle)
    requires FindServer(w.reg, ServerByName(name)) == Some(s)
    ensures var w' := Answered(w, RegServerEvt(name, h), mid, StoreServerHandle);
            Sound(w') && Spent(w', h) && s in w'.reg.servers && w'.reg.servers[s].nfa == h
  {
    var event := RegServerEvt(name, h);
    assert Answered(w, event, mid, StoreServerHandle) == Do(After(Do(w, event), mid), StoreServerHandle);
    AnsweredIsSound(w, event, mid, StoreServerHandle);
    ServerIsLookedUp(w, name, h, s);
    ServerHandleIsStored(After(Do(w, event), mid), h, s);
  }

  /** Over every run: the stack answers the registration of a service with handle h, whatever callers do before the
      handle is stored.  From then on an event for h finds that service's server exactly while it stays in the table
      and gets no other answer. */
  lemma {:induction false} RegisteredServerIsFound(
    before: seq<Action>, name: string, h: int, s: nat, mid: seq<Action>, run: seq<Action>)
    requires Legal(START, before) && Answers(After(START, before), RegServerEvt(name, h), mid, StoreServerHandle)
    requires FindServer(After(START, before).reg, ServerByName(name)) == Some(s)
    requires Legal(Answered(After(START, before), RegServerEvt(name, h), mid, StoreServerHandle), run)
    ensures var w := Answered(After(START, before), RegServerEvt(name, h), mid, StoreServerHandle);
            FindServer(After(w, run).reg, ServerByNfa(h)) == Some(s)
            <==> Holds(w.reg.serverSlots, s) && StaysRegistered(w, run, s)
  {
    ReachableIsSound(before);
    ServerGetsHandle(After(START, before), name, h, s, mid);
    ServerFoundWhile(Answered(After(START, before), RegServerEvt(name, h), mid, StoreServerHandle), run, s, h);
  }

  // ---- the registration of a client ----

  lemma {:induction false} ClientIsLookedUp(w: World, h: int, k: nat)
    requires Wf(w.reg) && Refs(w) && Can(w, RegClientEvt(h)) && FindClientByNfa(w.reg, INVALID) == Some(k)
    ensures Do(w, RegClientEvt(h)).cb == ClientReg(k, h)
  {
  }

  lemma {:induction false} ClientHandleIsStored(w: World, h: int, k: nat)
    requires Wf(w.reg) && Refs(w) && w.cb == ClientReg(k, h)
    ensures k in Do(w, StoreClientHandle).reg.clients && Do(w, StoreClientHandle).reg.clients[k].nfa == h
  {
  }

  lemma {:induction false} ClientGetsHandle(w: World, h: int, k: nat, mid: seq<Action>)
    requires Sound(w) && Answers(w, RegClientEvt(h), mid, StoreClientHandle)
    requires FindClientByNfa(w.reg, INVALID) == Some(k)
    ensures var w' := Answered(w, RegClientEvt(h), mid, StoreClientHandle);
            Sound(w') && k in w'.reg.clients && w'.reg.clients[k].nfa == h && h != INVALID
  {
    var event := RegClientEvt(h);
    assert Answered(w, event, mid, StoreClientHandle) == Do(After(Do(w, event), mid), StoreClientHandle);
    AnsweredIsSound(w, event, mid, StoreClientHandle);
    ClientIsLookedUp(w, h, k);
    ClientHandleIsStored(After(Do(w, event), mid), h, k);
  }

  /** ... and with a client's registration: the stack's later answer to its connect finds the client exactly while its
      connection stays in the table. */
  lemma {:induction false} RegisteredClientIsFound(
    before: seq<Action>, h: int, k: nat, mid: seq<Action>, run: seq<Action>)
    requires Legal(START, before) && Answers(After(START, before), RegClientEvt(h), mid, StoreClientHandle)
    requires FindClientByNfa(After(START, before).reg, INVALID) == Some(k)
    requires Legal(Answered(After(START, before), RegClientEvt(h), mid, StoreClientHandle), run)
    ensures var w := Answered(After(START, before), RegClientEvt(h), mid, StoreClientHandle);
            && k in w.reg.clients
            && (FindClientByNfa(After(w, run).reg, h) == Some(k)
                <==> Holds(w.reg.clientSlots, k) && StaysIn(w, run, w.reg.clients[k].conn))
  {
    ReachableIsSound(before);
    ClientGetsHandle(After(START, before), h, k, mid);
    ClientFoundWhileIn(Answered(After(START, before), RegClientEvt(h), mid, StoreClientHandle), k, h, run);
  }

  // ---- a connection comes up ----

  /** The connection has the handle, and the other side's parameters. */
  predicate IsUp(w: World, c: nat, h: int, miu: int, rw: int) {
    c in w.reg.conns && w.reg.conns[c].nfa == h && w.reg.conns[c].remoteMiu == miu
    && w.reg.conns[c].remoteRecvWindow == rw
  }

  lemma {:induction false} ConnectIsLookedUp(w: World, client: int, h: int, k: nat)
    requires Wf(w.reg) && Refs(w) && Can(w, ConnectedEvt(client, h)) && FindClientByNfa(w.reg, client) == Some(k)
    ensures Do(w, ConnectedEvt(client, h)).cb == ConnectAnswer(k, h) && Do(w, ConnectedEvt(client, h)).reg == w.reg
    ensures k in w.reg.clients
  {
  }

  lemma {:induction false} ConnectIsStored(w: World, h: int, k: nat, miu: int, rw: int)
    requires Wf(w.reg) && Refs(w) && w.cb == ConnectAnswer(k, h)
    ensures var w' := Do(w, StoreConnected(miu, rw));
            && w'.reg.clients == w.reg.clients && k in w.reg.clients && IsUp(w', w.reg.clients[k].conn, h, miu, rw)
            && h in w'.delivered
  {
  }

  lemma {:induction false} ClientComesUp(w: World, client: int, h: int, k: nat, miu: int, rw: int, mid: seq<Action>)
    requires Sound(w) && Answers(w, ConnectedEvt(client, h), mid, StoreConnected(miu, rw))
    requires FindClientByNfa(w.reg, client) == Some(k)
    ensures var w' := Answered(w, ConnectedEvt(client, h), mid, StoreConnected(miu, rw));
            && Sound(w') && k in w.reg.clients && k in w'.reg.clients
            && w'.reg.clients[k].conn == w.reg.clients[k].conn && IsUp(w', w.reg.clients[k].conn, h, miu, rw)
            && h in w'.delivered
  {
    var event, store := ConnectedEvt(client, h), StoreConnected(miu, rw);
    assert Answered(w, event, mid, store) == Do(After(Do(w, event), mid), store);
    AnsweredIsSound(w, event, mid, store);
    ConnectIsLookedUp(w, client, h, k);
    ConnectIsStored(After(Do(w, event), mid), h, k, miu, rw);
  }

  /** The stack reports the connect of the client with handle `client`: its own connection is up, with what the stack
      reported, and found by its new handle exactly while it is in the tables and nothing overwrites it. */
  lemma {:induction false} ConnectedIsFound(before: seq<Action>, client: int, h: int, k: nat, miu: int, rw: int,
                                            mid: seq<Action>, run: seq<Action>)
    requires Legal(START, before)
    requires Answers(After(START, before), ConnectedEvt(client, h), mid, StoreConnected(miu, rw))
    requires FindClientByNfa(After(START, before).reg, client) == Some(k)
    requires Legal(Answered(After(START, before), ConnectedEvt(client, h), mid, StoreConnected(miu, rw)), run)
    ensures var w := Answered(After(START, before), ConnectedEvt(client, h), mid, StoreConnected(miu, rw));
            && k in w.reg.clients && IsUp(w, w.reg.clients[k].conn, h, miu, rw)
            && (FindConnection(After(w, run).reg, ByNfa(h)) == Some(w.reg.clients[k].conn)
                <==> w.reg.clients[k].conn in Members(w.reg) && Undisturbed(w, run, w.reg.clients[k].conn))
  {
    var w0 := After(START, before);
    ReachableIsSound(before);
    ClientComesUp(w0, client, h, k, miu, rw, mid);
    FoundWhileUndisturbed(Answered(w0, ConnectedEvt(client, h), mid, StoreConnected(miu, rw)), w0.reg.clients[k].conn,
                          h, run);
  }

  // ---- a connection is asked for ----

  /** A connection request reaches the server with that handle, whatever callers do meanwhile. */
  lemma {:induction false} RequestReachesServer(before: seq<Action>, server: int, h: int, s: nat, mid: seq<Action>)
    requires Legal(START, before) && LooksUpFirst(After(START, before), ConnReqEvt(server, h), mid)
    requires FindServer(After(START, before).reg, ServerByNfa(server)) == Some(s)
    ensures After(Do(After(START, before), ConnReqEvt(server, h)), mid).cb == ConnReqServer(s, h)
  {
    ReachableIsSound(before);
    CallersKeep(Do(After(START, before), ConnReqEvt(server, h)), mid);
  }

  lemma {:induction false} WaitingIsPicked(w: World, s: nat, h: int, c: nat)
    requires Wf(w.reg) && Refs(w) && w.cb == ConnReqServer(s, h)
    requires FindServerConn(w.reg, s, ByNfa(INVALID)) == Some(c)
    ensures Do(w, PickWaiting).cb == ConnReq(c, h) && Do(w, PickWaiting).reg == w.reg
    ensures c in w.reg.conns && w.reg.conns[c].nfa == INVALID && Holds(w.reg.servers[s].slots, c)
  {
  }

  lemma {:induction false} RequestIsStored(w: World, h: int, c: nat, miu: int, rw: int)
    requires Wf(w.reg) && Refs(w) && w.cb == ConnReq(c, h)
    ensures IsUp(Do(w, StoreConnRequest(miu, rw)), c, h, miu, rw) && h in Do(w, StoreConnRequest(miu, rw)).delivered
  {
  }

  lemma {:induction false} WaitingComesUp(w: World, s: nat, h: int, c: nat, miu: int, rw: int, mid: seq<Action>)
    requires Sound(w) && w.cb == ConnReqServer(s, h) && Answers(w, PickWaiting, mid, StoreConnRequest(miu, rw))
    requires FindServerConn(w.reg, s, ByNfa(INVALID)) == Some(c)
    ensures c in w.reg.conns && w.reg.conns[c].nfa == INVALID && Holds(w.reg.servers[s].slots, c)
    ensures var w' := Answered(w, PickWaiting, mid, StoreConnRequest(miu, rw));
            Sound(w') && IsUp(w', c, h, miu, rw) && h in w'.delivered
  {
    var store := StoreConnRequest(miu, rw);
    assert Answered(w, PickWaiting, mid, store) == Do(After(Do(w, PickWaiting), mid), store);
    AnsweredIsSound(w, PickWaiting, mid, store);
    WaitingIsPicked(w, s, h, c);
    RequestIsStored(After(Do(w, PickWaiting), mid), h, c, miu, rw);
  }

  /** The connection of that server's table that was waiting is up with what the stack reported, and found by its new
      handle exactly while it is in the tables and nothing overwrites it. */
  lemma {:induction false} RequestedIsFound(before: seq<Action>, s: nat, h: int, c: nat, miu: int, rw: int,
                                            mid: seq<Action>, run: seq<Action>)
    requires Legal(START, before) && After(START, before).cb == ConnReqServer(s, h)
    requires Answers(After(START, before), PickWaiting, mid, StoreConnRequest(miu, rw))
    requires FindServerConn(After(START, before).reg, s, ByNfa(INVALID)) == Some(c)
    requires Legal(Answered(After(START, before), PickWaiting, mid, StoreConnRequest(miu, rw)), run)
    ensures var r := After(START, before).reg;
            c in r.conns && r.conns[c].nfa == INVALID && Holds(r.servers[s].slots, c)
    ensures var w := Answered(After(START, before), PickWaiting, mid, StoreConnRequest(miu, rw));
            && IsUp(w, c, h, miu, rw)
            && (FindConnection(After(w, run).reg, ByNfa(h)) == Some(c)
                <==> c in Members(w.reg) && Undisturbed(w, run, c))
  {
    ReachableIsSound(before);
    WaitingComesUp(After(START, before), s, h, c, miu, rw, mid);
    FoundWhileUndisturbed(Answered(After(START, before), PickWaiting, mid, StoreConnRequest(miu, rw)), c, h, run);
  }

  // ---- a connection goes down ----

  /** The handle is on no connection and on its way to none. */
  ghost predicate Unused(w: World, h: int) { Spent(w, h) && forall c <- w.reg.conns :: w.reg.conns[c].nfa != h }

  lemma {:induction false} TablesUseNoHandle(w: World, a: Action, h: int)
    requires Wf(w.reg) && Refs(w) && Can(w, a) && ChangesTables(a) && h != INVALID
    requires forall c <- w.reg.conns :: w.reg.conns[c].nfa != h
    ensures forall c <- Do(w, a).reg.conns :: Do(w, a).reg.conns[c].nfa != h
  {
    if a.RemoveConnAct? { RemoveConnTouchesOneSlot(w.reg, a.jni); }
  }

  lemma {:induction false} StaysUnused(w: World, a: Action, h: int)
    requires Wf(w.reg) && Refs(w) && Can(w, a) && Unused(w, h) && h != INVALID
    ensures Unused(Do(w, a), h)
  {
    StaysSpent(w, a, h);
    if ChangesTables(a) { TablesUseNoHandle(w, a, h); }
  }

  lemma {:induction false} UnusedForGood(w: World, run: seq<Action>, h: int)
    requires Legal(w, run) && Unused(w, h) && h != INVALID
    ensures Unused(After(w, run), h)
    decreases run
  {
    if run == [] {
    } else {
      StaysUnused(w, run[0], h);
      UnusedForGood(Do(w, run[0]), run[1..], h);
    }
  }

  lemma {:induction false} DisconnectIsLookedUp(w: World, h: int, c: nat)
    requires Inv(w) && Can(w, DiscEvt(h)) && FindConnection(w.reg, ByNfa(h)) == Some(c)
    ensures Do(w, DiscEvt(h)).cb == Disc(c) && Do(w, DiscEvt(h)).reg == w.reg && Do(w, DiscEvt(h)).handles == w.handles
    ensures c in w.reg.conns && w.reg.conns[c].nfa == h && h in w.handles
  {
    ScanFindsAMember(w.reg, ByNfa(h));
  }

  /** Nobody but one connection has the handle. */
  ghost predicate OnlyOn(w: World, c: nat, h: int) {
    Spent(w, h) && forall d <- w.reg.conns :: d != c ==> w.reg.conns[d].nfa != h
  }

  lemma {:induction false} TablesKeepOnly(w: World, a: Action, c: nat, h: int)
    requires Wf(w.reg) && Refs(w) && Can(w, a) && ChangesTables(a) && h != INVALID && c in w.reg.conns
    requires forall d <- w.reg.conns :: d != c ==> w.reg.conns[d].nfa != h
    ensures forall d <- Do(w, a).reg.conns :: d != c ==> Do(w, a).reg.conns[d].nfa != h
  {
    if a.RemoveConnAct? { RemoveConnTouchesOneSlot(w.reg, a.jni); }
  }

  lemma {:induction false} CallersKeepOnly(w: World, mid: seq<Action>, c: nat, h: int)
    requires Legal(w, mid) && (forall a <- mid :: !OfCallback(a)) && OnlyOn(w, c, h) && h != INVALID && c in w.reg.conns
    ensures OnlyOn(After(w, mid), c, h)
    decreases mid
  {
    if mid == [] {
    } else {
      CallerKeeps(w, mid[0]);
      if ChangesTables(mid[0]) { TablesKeepOnly(w, mid[0], c, h); }
      CallersKeepOnly(Do(w, mid[0]), mid[1..], c, h);
    }
  }

  lemma {:induction false} DisconnectIsStored(w: World, c: nat, h: int)
    requires Wf(w.reg) && Refs(w) && w.cb == Disc(c) && OnlyOn(w, c, h) && h != INVALID
    ensures c in Do(w, StoreDisconnect).reg.conns && Do(w, StoreDisconnect).reg.conns[c].nfa == INVALID
    ensures Unused(Do(w, StoreDisconnect), h)
  {
  }

  lemma {:induction false} ConnectionGoesDown(w: World, h: int, c: nat, mid: seq<Action>)
    requires Sound(w) && Answers(w, DiscEvt(h), mid, StoreDisconnect) && FindConnection(w.reg, ByNfa(h)) == Some(c)
    ensures var w' := Answered(w, DiscEvt(h), mid, StoreDisconnect);
            Sound(w') && Unused(w', h) && c in w'.reg.conns && w'.reg.conns[c].nfa == INVALID
  {
    assert Answered(w, DiscEvt(h), mid, StoreDisconnect) == Do(After(Do(w, DiscEvt(h)), mid), StoreDisconnect);
    AnsweredIsSound(w, DiscEvt(h), mid, StoreDisconnect);
    DisconnectIsLookedUp(w, h, c);
    CallersKeepOnly(Do(w, DiscEvt(h)), mid, c, h);
    DisconnectIsStored(After(Do(w, DiscEvt(h)), mid), c, h);
  }

  /** The stack reports a disconnect: the connection it names has no handle, and no event for the old one finds
      anything again. */
  lemma {:induction false} DisconnectedIsNotFound(
    before: seq<Action>, h: int, c: nat, mid: seq<Action>, run: seq<Action>)
    requires Legal(START, before) && Answers(After(START, before), DiscEvt(h), mid, StoreDisconnect)
    requires FindConnection(After(START, before).reg, ByNfa(h)) == Some(c)
    requires Legal(Answered(After(START, before), DiscEvt(h), mid, StoreDisconnect), run)
    ensures var w := Answered(After(START, before), DiscEvt(h), mid, StoreDisconnect);
            && c in w.reg.conns && w.reg.conns[c].nfa == INVALID
            && FindConnection(After(w, run).reg, ByNfa(h)) == None
  {
    ReachableIsSound(before);
    ConnectionGoesDown(After(START, before), h, c, mid);
    var w := Answered(After(START, before), DiscEvt(h), mid, StoreDisconnect);
    UnusedForGood(w, run, h);
    AfterIsSound(w, run);
    ScanFindsAMember(After(w, run).reg, ByNfa(h));
  }
}
