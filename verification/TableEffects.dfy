/** What callers find in the tables after each of their own sections, in every reachable state. */
module TableEffects {
  import opened Options
  import opened PeerRegistry
  import opened PeerRegistryRuns
  import opened RequestsAnswered
  import opened HandlesGiven

  // ---- servers ----

  /** Distinct names, on the slots, mean one server a name. */
  lemma {:induction false} OneServerPerName(r: Reg, name: string, t: nat, u: nat)
    requires Wf(r) && DistinctNames(r)
    requires PeerRegistry.Answering(r, t, ServerByName(name)) && PeerRegistry.Answering(r, u, ServerByName(name))
    ensures t == u
  {
    var i :| 0 <= i < |r.serverSlots| && r.serverSlots[i] == Some(t);
    var j :| 0 <= j < |r.serverSlots| && r.serverSlots[j] == Some(u);
  }

  /** findServer finds what is registered under the name, or under the JNI handle. */
  lemma {:induction false} ServerLookup(w: World, key: ServerKey, s: nat)
    requires Inv(w) && !key.ServerByNfa? && s in w.reg.servers
    ensures FindServer(w.reg, key) == Some(s) <==> PeerRegistry.Answering(w.reg, s, key)
  {
    forall t, u | PeerRegistry.Answering(w.reg, t, key) && PeerRegistry.Answering(w.reg, u, key) ensures t == u {
      if key.ServerByName? { OneServerPerName(w.reg, key.name, t, u); }
    }
    FindServerIsLookup(w.reg, key, s);
  }

  lemma {:induction false} NoServerNoAnswer(w: World, key: ServerKey)
    requires Inv(w) && !key.ServerByNfa?
    ensures FindServer(w.reg, key).None? <==> forall s :: !PeerRegistry.Answering(w.reg, s, key)
    ensures FindServer(w.reg, key).Some? ==> PeerRegistry.Answering(w.reg, FindServer(w.reg, key).value, key)
  {
    forall s | s in w.reg.servers ensures FindServer(w.reg, key) == Some(s) <==> PeerRegistry.Answering(w.reg, s, key) {
      ServerLookup(w, key, s);
    }
    var i := First(w.reg.serverSlots, ServerHits(w.reg, key));
    if i < |w.reg.serverSlots| { assert Holds(w.reg.serverSlots, w.reg.serverSlots[i].value); }
  }

  /** The server that has the name once the service is registered, if any has */
  function Registered(w: World, a: Action): Option<nat>
    requires a.RegisterServerAct?
  {
    match FindServer(w.reg, ServerByName(a.name))
    case Some(x) => Some(x)
    case None => if FirstFree(w.reg.serverSlots) < |w.reg.serverSlots| then Some(a.s) else None
  }

  lemma {:induction false} NewServerSlot(r: Reg, jni: nat, name: string, s: nat)
    requires Wf(r) && s !in r.servers && FindServer(r, ServerByName(name)).None?
    ensures Holds(RegisterServer(r, jni, name, s).serverSlots, s) <==> FirstFree(r.serverSlots) < |r.serverSlots|
  {
    var i := FirstFree(r.serverSlots);
    if i < |r.serverSlots| { assert RegisterServer(r, jni, name, s).serverSlots[i] == Some(s); }
  }

  lemma {:induction false} RegisteringAnswers(w: World, a: Action, key: ServerKey, t: nat)
    requires Inv(w) && a.RegisterServerAct? && Can(w, a) && !key.ServerByNfa?
    ensures var x := Registered(w, a);
            PeerRegistry.Answering(Do(w, a).reg, t, key) <==>
              if Some(t) == x then key == ServerByName(a.name) || key == ServerByJni(a.jni)
              else PeerRegistry.Answering(w.reg, t, key)
  {
    NoServerNoAnswer(w, ServerByName(a.name));
    if t in w.reg.servers {
      RegisteringKeepsServers(w.reg, a.jni, a.name, a.s, t);
    } else if FindServer(w.reg, ServerByName(a.name)).None? {
      NewServerSlot(w.reg, a.jni, a.name, a.s);
    }
  }

  /** One server, `x` if any, gets a name and a handle, and the others keep what they have. */
  lemma {:induction false} OneServerNamed(w: World, w': World, x: Option<nat>, named: bool, key: ServerKey)
    requires Inv(w) && Inv(w') && !key.ServerByNfa? && (named && x.None? ==> FindServer(w.reg, key).None?)
    requires forall t: nat :: PeerRegistry.Answering(w'.reg, t, key) <==>
                                if Some(t) == x then named else PeerRegistry.Answering(w.reg, t, key)
    ensures FindServer(w'.reg, key) ==
              if named then x else if x.Some? && FindServer(w.reg, key) == x then None else FindServer(w.reg, key)
  {
    NoServerNoAnswer(w, key);
    NoServerNoAnswer(w', key);
    if named && x.Some? { ServerLookup(w', key, x.value); }
    if FindServer(w.reg, key).Some? && FindServer(w.reg, key) != x && !named {
      ServerLookup(w', key, FindServer(w.reg, key).value);
    }
    if FindServer(w'.reg, key).Some? && FindServer(w'.reg, key) != x {
      ServerLookup(w, key, FindServer(w'.reg, key).value);
    }
  }

  lemma {:induction false} FreshJniFindsNoServer(w: World, jni: nat)
    requires Inv(w) && jni !in w.jnis
    ensures FindServer(w.reg, ServerByJni(jni)).None?
  {
    NoServerNoAnswer(w, ServerByJni(jni));
  }

  /** Registering a service: its name and its new JNI handle find one server, a known name's server before, a fresh one
      in a free slot otherwise, none if the table is full.  The JNI handle a known server had finds nothing any more;
      no other lookup changes. */
  lemma {:induction false} RegisteredServiceIsFound(before: seq<Action>, a: Action, key: ServerKey)
    requires Legal(START, before) && a.RegisterServerAct? && !key.ServerByNfa?
    requires ReachableCan(before, a)
    ensures var w := After(START, before);
            var x := Registered(w, a);
            FindServer(Do(w, a).reg, key) ==
              if key == ServerByName(a.name) || key == ServerByJni(a.jni) then x
              else if x.Some? && FindServer(w.reg, key) == x then None
              else FindServer(w.reg, key)
  {
    var w := After(START, before);
    ReachableIsSound(before);
    DoIsSound(w, a);
    forall t: nat
      ensures PeerRegistry.Answering(Do(w, a).reg, t, key) <==>
                if Some(t) == Registered(w, a) then key == ServerByName(a.name) || key == ServerByJni(a.jni)
                else PeerRegistry.Answering(w.reg, t, key)
    {
      RegisteringAnswers(w, a, key, t);
    }
    FreshJniFindsNoServer(w, a.jni);
    OneServerNamed(w, Do(w, a), Registered(w, a), key == ServerByName(a.name) || key == ServerByJni(a.jni), key);
  }

  /** Removing a server: its JNI handle finds nothing any more, and no other lookup by JNI handle changes. */
  lemma {:induction false} RemovedServiceIsNotFound(before: seq<Action>, jni: nat, other: nat)
    requires Legal(START, before)
    ensures var w := After(START, before);
            FindServer(RemoveServer(w.reg, jni), ServerByJni(other))
            == if other == jni then None else FindServer(w.reg, ServerByJni(other))
  {
    var w := After(START, before);
    var a, key := RemoveServerAct(jni), ServerByJni(other);
    ReachableIsSound(before);
    DoIsSound(w, a);
    var x := FindServer(w.reg, ServerByJni(jni));
    NoServerNoAnswer(w, ServerByJni(jni));
    forall t: nat
      ensures PeerRegistry.Answering(Do(w, a).reg, t, key) <==>
                if Some(t) == x then false else PeerRegistry.Answering(w.reg, t, key)
    {
      if t in w.reg.servers { RemovingTakesOne(w.reg, jni, t); }
    }
    OneServerNamed(w, Do(w, a), x, false, key);
  }

  /** The action is possible in the state the run leads to, which is as sound as all of them are. */
  ghost predicate ReachableCan(before: seq<Action>, a: Action)
    requires Legal(START, before)
  {
    var w := After(START, before);
    Wf(w.reg) && Refs(w) && Can(w, a)
  }

  // ---- connections ----

  /** One connection with a new JNI handle, if any, and no other change of members or JNI handles */
  lemma {:induction false} OneConnAdded(w: World, w': World, c: nat, jni: nat, added: bool, h: nat)
    requires Inv(w) && Inv(w') && jni !in w.jnis && c !in w.reg.conns
    requires Members(w'.reg) == if added then Members(w.reg) + {c} else Members(w.reg)
    requires forall d <- w.reg.conns :: d in w'.reg.conns && w'.reg.conns[d].jni == w.reg.conns[d].jni
    requires added ==> c in w'.reg.conns && w'.reg.conns[c].jni == jni
    ensures FindConnection(w'.reg, ByJni(h)) ==
              if h == jni then (if added then Some(c) else None) else FindConnection(w.reg, ByJni(h))
  {
    ScanFindsAMember(w.reg, ByJni(h));
    ScanFindsAMember(w'.reg, ByJni(h));
  }

  /** Creating a client: if there is a free slot, its JNI handle finds a connection with the parameters asked for and no
      handle of the stack's yet, whose client has none either and is not connecting; otherwise nothing.  No other
      JNI handle finds anything else. */
  lemma {:induction false} CreatedClientIsFound(before: seq<Action>, a: Action, h: nat)
    requires Legal(START, before) && a.CreateClientAct? && ReachableCan(before, a)
    ensures var w := After(START, before);
            var w', free := Do(w, a), FirstFree(w.reg.clientSlots) < |w.reg.clientSlots|;
            && FindConnection(w'.reg, ByJni(h)) ==
                 (if h == a.jni then (if free then Some(a.c) else None) else FindConnection(w.reg, ByJni(h)))
            && (free ==> && a.k in w'.reg.clients && w'.reg.clients[a.k] == Client(INVALID, false, a.c)
                         && a.c in w'.reg.conns && w'.reg.conns[a.c] == Conn(INVALID, a.jni, a.miu, a.rw, 0, 0)
                         && FindClient(w'.reg, ByJni(a.jni)) == Some(a.k))
  {
    var w := After(START, before);
    var w', free := Do(w, a), FirstFree(w.reg.clientSlots) < |w.reg.clientSlots|;
    ReachableIsSound(before);
    DoIsSound(w, a);
    CreatedAmongAll(w, a, h);
    if free { NewClientIsFound(w, a); }
  }

  lemma {:induction false} CreatedAmongAll(w: World, a: Action, h: nat)
    requires Inv(w) && a.CreateClientAct? && Can(w, a) && Inv(Do(w, a))
    ensures FindConnection(Do(w, a).reg, ByJni(h)) ==
              if h == a.jni then (if FirstFree(w.reg.clientSlots) < |w.reg.clientSlots| then Some(a.c) else None)
              else FindConnection(w.reg, ByJni(h))
  {
    CreateClientMembers(w.reg, a.jni, a.miu, a.rw, a.k, a.c);
    OneConnAdded(w, Do(w, a), a.c, a.jni, FirstFree(w.reg.clientSlots) < |w.reg.clientSlots|, h);
  }

  lemma {:induction false} NewClientIsFound(w: World, a: Action)
    requires Inv(w) && a.CreateClientAct? && Can(w, a) && FirstFree(w.reg.clientSlots) < |w.reg.clientSlots|
    ensures FindClient(Do(w, a).reg, ByJni(a.jni)) == Some(a.k)
  {
    var r' := Do(w, a).reg;
    var i := FirstFree(w.reg.clientSlots);
    assert ClientHits(r', ByJni(a.jni)) == {a.k};
    assert r'.clientSlots[i] == Some(a.k);
    assert forall j :: 0 <= j < i ==> r'.clientSlots[j] == w.reg.clientSlots[j];
  }

  /** accept allocating its connection: found by its JNI handle in the server's table if that has a free slot, and by
      everybody else too if the server is still registered.  No other JNI handle finds anything else. */
  lemma {:induction false} AllocatedConnectionIsFound(before: seq<Action>, a: Action, h: nat)
    requires Legal(START, before) && a.AllocateAct? && ReachableCan(before, a)
    ensures var w := After(START, before);
            var w', free := Do(w, a), FirstFree(w.reg.servers[a.s].slots) < |w.reg.servers[a.s].slots|;
            && FindConnection(w'.reg, ByJni(h)) ==
                 (if h == a.jni then (if free && Holds(w.reg.serverSlots, a.s) then Some(a.c) else None)
                  else FindConnection(w.reg, ByJni(h)))
            && FindServerConn(w'.reg, a.s, ByJni(a.jni)) == (if free then Some(a.c) else None)
            && (free ==> a.c in w'.reg.conns && w'.reg.conns[a.c] == Conn(INVALID, a.jni, 0, 0, 0, 0))
  {
    var w := After(START, before);
    var w', free := Do(w, a), FirstFree(w.reg.servers[a.s].slots) < |w.reg.servers[a.s].slots|;
    ReachableIsSound(before);
    DoIsSound(w, a);
    AllocatedAmongAll(w, a, h);
    AllocatedIsFound(w, a);
  }

  lemma {:induction false} AllocatedAmongAll(w: World, a: Action, h: nat)
    requires Inv(w) && a.AllocateAct? && Can(w, a) && Inv(Do(w, a))
    ensures var free := FirstFree(w.reg.servers[a.s].slots) < |w.reg.servers[a.s].slots|;
            FindConnection(Do(w, a).reg, ByJni(h)) ==
              if h == a.jni then (if free && Holds(w.reg.serverSlots, a.s) then Some(a.c) else None)
              else FindConnection(w.reg, ByJni(h))
  {
    var free := FirstFree(w.reg.servers[a.s].slots) < |w.reg.servers[a.s].slots|;
    AllocatedFields(w, a);
    assert Members(Do(w, a).reg)
           == if free && Holds(w.reg.serverSlots, a.s) then Members(w.reg) + {a.c} else Members(w.reg) by {
      AllocateConnectionMembers(w.reg, a.s, a.jni, a.c);
    }
    OneConnAdded(w, Do(w, a), a.c, a.jni, free && Holds(w.reg.serverSlots, a.s), h);
  }

  lemma {:induction false} AllocatedFields(w: World, a: Action)
    requires Wf(w.reg) && a.AllocateAct? && Refs(w) && Can(w, a)
    ensures forall d <- w.reg.conns :: d in Do(w, a).reg.conns && Do(w, a).reg.conns[d] == w.reg.conns[d]
    ensures FirstFree(w.reg.servers[a.s].slots) < |w.reg.servers[a.s].slots| ==>
              a.c in Do(w, a).reg.conns && Do(w, a).reg.conns[a.c] == NewConn(a.jni)
  {
  }

  lemma {:induction false} AllocatedIsFound(w: World, a: Action)
    requires Inv(w) && a.AllocateAct? && Can(w, a)
    ensures var free := FirstFree(w.reg.servers[a.s].slots) < |w.reg.servers[a.s].slots|;
            FindServerConn(Do(w, a).reg, a.s, ByJni(a.jni)) == if free then Some(a.c) else None
  {
    FilledTableFinds(w.reg, a.s, a.jni, a.c);
  }

  lemma {:induction false} FilledTableFinds(r: Reg, s: nat, jni: nat, c: nat)
    requires Wf(r) && s in r.servers && c !in r.conns && forall d <- r.conns :: r.conns[d].jni != jni
    ensures FindServerConn(AllocateConnection(r, s, jni, c), s, ByJni(jni))
            == if FirstFree(r.servers[s].slots) < |r.servers[s].slots| then Some(c) else None
  {
    var slots, r' := r.servers[s].slots, AllocateConnection(r, s, jni, c);
    var j := FirstFree(slots);
    if j < |slots| {
      assert ConnHits(r', ByJni(jni)) == {c};
      assert r'.servers[s].slots[j] == Some(c);
      assert forall i :: 0 <= i < j ==> r'.servers[s].slots[i] == slots[i] && slots[i].value in r.conns;
    } else {
      assert ConnHits(r', ByJni(jni)) == {};
    }
  }

  // ---- what stays as it was made ----

  lemma {:induction false} TablesKeepParameters(w: World, a: Action, c: nat)
    requires Wf(w.reg) && Refs(w) && Can(w, a) && ChangesTables(a) && c in w.reg.conns
    ensures c in Do(w, a).reg.conns
    ensures Do(w, a).reg.conns[c].(nfa := 0) == w.reg.conns[c].(nfa := 0)
  {
    if a.RemoveConnAct? { RemoveConnTouchesOneSlot(w.reg, a.jni); }
  }

  /** Nothing changes a connection's JNI handle or its own parameters, and only the stack's reports change the other
      side's. */
  lemma {:induction false} ParametersStay(w: World, a: Action, c: nat)
    requires Wf(w.reg) && Refs(w) && Can(w, a) && c in w.reg.conns
    ensures c in Do(w, a).reg.conns
    ensures var x, y := w.reg.conns[c], Do(w, a).reg.conns[c];
            && y.jni == x.jni && y.miu == x.miu && y.recvWindow == x.recvWindow
            && (!a.StoreConnRequest? && !a.StoreConnected? ==>
                  y.remoteMiu == x.remoteMiu && y.remoteRecvWindow == x.remoteRecvWindow)
  {
    if ChangesTables(a) { TablesKeepParameters(w, a, c); }
  }

  /** Over every run, a connection has the JNI handle and the parameters it was made with. */
  lemma {:induction false} ParametersAreKept(w: World, run: seq<Action>, c: nat)
    requires Legal(w, run) && c in w.reg.conns
    ensures c in After(w, run).reg.conns
    ensures var x, y := w.reg.conns[c], After(w, run).reg.conns[c];
            y.jni == x.jni && y.miu == x.miu && y.recvWindow == x.recvWindow
    decreases run
  {
    if run == [] {
    } else {
      ParametersStay(w, run[0], c);
      ParametersAreKept(Do(w, run[0]), run[1..], c);
    }
  }
}
