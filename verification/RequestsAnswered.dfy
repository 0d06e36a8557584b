/** When the stack's event for a request finds the object that was asked for: the callbacks look it up by its handle, in
    tables that may have changed since. */
module RequestsAnswered {
  import opened Options
  import opened PeerRegistry
  import opened PeerRegistryRuns
  import Lifecycle = ConnectionLifecycle

  /** The connection is in the tables under this handle. */
  ghost predicate Known(w: World, c: nat, h: int) {
    c in Members(w.reg) && w.reg.conns[c].nfa == h
  }

  /** An event with a connection's handle, a disconnect or the end of congestion, finds exactly the connection that
      is in the tables under it. */
  lemma {:induction false} EventFindsExactlyTheKnown(w: World, c: nat, h: int)
    requires Inv(w) && h != INVALID
    ensures FindConnection(w.reg, ByNfa(h)) == Some(c) <==> Known(w, c, h)
  {
    ScanFindsAMember(w.reg, ByNfa(h));
  }

  // ---- what comes in between ----

  /** The action takes the connection out of the tables. */
  ghost predicate TakesOut(w: World, a: Action, c: nat)
    requires Wf(w.reg) && c in w.reg.conns
  {
    match a
    case TurnOn => true
    case RemoveConnAct(jni) => w.reg.conns[c].jni == jni
    case RemoveServerAct(jni) =>
      var s := FindServer(w.reg, ServerByJni(jni));
      s.Some? && s.value in w.reg.servers && Holds(w.reg.servers[s.value].slots, c)
    case DropServerConnAct(s, jni) => s in w.reg.servers && FindServerConn(w.reg, s, ByJni(jni)) == Some(c)
    case _ => false
  }

  /** The action stores another handle in the connection, or the invalid one. */
  predicate Overwrites(w: World, a: Action, c: nat) {
    match a
    case TurnOff => true
    case StoreDisconnect => w.cb.Disc? && w.cb.c == c
    case StoreConnRequest(_, _) => w.cb.ConnReq? && w.cb.c == c
    case StoreConnected(_, _) => w.cb.ConnectAnswer? && w.cb.k in w.reg.clients && w.reg.clients[w.cb.k].conn == c
    case _ => false
  }

  ghost predicate Disturbs(w: World, a: Action, c: nat)
    requires Wf(w.reg) && c in w.reg.conns
  {
    TakesOut(w, a, c) || Overwrites(w, a, c)
  }

  /** The connection exists, and nothing in the run takes it out or overwrites its handle. */
  ghost predicate Undisturbed(w: World, run: seq<Action>, c: nat)
    requires Legal(w, run)
    decreases run
  {
    run == [] || (Wf(w.reg) && c in w.reg.conns && !Disturbs(w, run[0], c) && Undisturbed(Do(w, run[0]), run[1..], c))
  }

  // ---- one action ----

  lemma {:induction false} ServerTakesOut(w: World, jni: nat, c: nat)
    requires Wf(w.reg) && Owned(w.reg) && c in Members(w.reg)
    ensures c in Members(RemoveServer(w.reg, jni)) <==> !TakesOut(w, RemoveServerAct(jni), c)
  {
    RemoveServerMembers(w.reg, jni);
  }

  lemma {:induction false} RemovalTakesOut(w: World, jni: nat, c: nat)
    requires Wf(w.reg) && Owned(w.reg) && Distinct(w) && c in Members(w.reg)
    ensures c in Members(RemoveConn(w.reg, jni)) <==> !TakesOut(w, RemoveConnAct(jni), c)
  {
    RemoveConnMembers(w.reg, jni);
    ScanFindsAMember(w.reg, ByJni(jni));
  }

  predicate Removes(a: Action) { a.RemoveServerAct? || a.RemoveConnAct? || a.DropServerConnAct? || a.TurnOn? }

  lemma {:induction false} RemovalsTakeOut(w: World, a: Action, c: nat)
    requires Wf(w.reg) && Owned(w.reg) && Refs(w) && Distinct(w) && Can(w, a) && c in Members(w.reg) && Removes(a)
    ensures c in Members(Do(w, a).reg) <==> !TakesOut(w, a, c)
  {
    match a {
      case RemoveServerAct(jni) => ServerTakesOut(w, jni, c);
      case RemoveConnAct(jni) => RemovalTakesOut(w, jni, c);
      case DropServerConnAct(s, jni) => DropTakesOut(w, s, jni, c);
      case TurnOn => NfcOnMembers(w.reg);
    }
  }

  lemma {:induction false} DropTakesOut(w: World, s: nat, jni: nat, c: nat)
    requires Wf(w.reg) && Owned(w.reg) && s in w.reg.servers && c in Members(w.reg)
    ensures c in Members(RemoveServerConnection(w.reg, s, jni)) <==> FindServerConn(w.reg, s, ByJni(jni)) != Some(c)
  {
    RemoveServerConnectionMembers(w.reg, s, jni);
    var found := FindServerConn(w.reg, s, ByJni(jni));
    if found == Some(c) {
      assert Holds(w.reg.servers[s].slots, c);
      HeldMember(w.reg, s, c);
    }
  }

  predicate Adds(a: Action) { a.RegisterServerAct? || a.CreateClientAct? || a.AllocateAct? }

  lemma {:induction false} AdditionsKeepMembers(w: World, a: Action)
    requires Wf(w.reg) && Owned(w.reg) && Refs(w) && Can(w, a) && Adds(a)
    ensures Members(w.reg) <= Members(Do(w, a).reg)
  {
    match a {
      case RegisterServerAct(jni, name, s) => RegisterServerMembers(w.reg, jni, name, s);
      case CreateClientAct(jni, miu, rw, k, d) => CreateClientMembers(w.reg, jni, miu, rw, k, d);
      case AllocateAct(s, jni, d) => AllocateConnectionMembers(w.reg, s, jni, d);
    }
  }

  lemma {:induction false} TableChangesTakeOut(w: World, a: Action, c: nat)
    requires Inv(w) && Can(w, a) && c in Members(w.reg) && ChangesTables(a)
    ensures c in Members(Do(w, a).reg) <==> !TakesOut(w, a, c)
  {
    if a.TurnOff? {
      NfcOffMembers(w.reg);
    } else if Adds(a) {
      AdditionsKeepMembers(w, a);
    } else {
      RemovalsTakeOut(w, a, c);
    }
  }

  /** What is in the tables stays there exactly when it is not taken out. */
  lemma {:induction false} MemberUntilTakenOut(w: World, a: Action, c: nat)
    requires Inv(w) && Can(w, a) && c in Members(w.reg)
    ensures c in Members(Do(w, a).reg) <==> !TakesOut(w, a, c)
  {
    if ChangesTables(a) {
      TableChangesTakeOut(w, a, c);
    } else if StoresHandle(a) {
      Lifecycle.HandleStoresKeepMembers(w, a);
    } else if Marks(a) {
      MarkKeepsInv(w, a);
    } else {
      LookupKeepsInv(w, a);
    }
  }

  lemma {:induction false} TablesKeepHandle(w: World, a: Action, c: nat)
    requires Wf(w.reg) && Refs(w) && Can(w, a) && ChangesTables(a) && c in Members(w.reg)
    requires w.reg.conns[c].nfa != INVALID
    ensures c in Do(w, a).reg.conns && (Do(w, a).reg.conns[c].nfa == w.reg.conns[c].nfa <==> !a.TurnOff?)
  {
    if a.RemoveConnAct? { RemoveConnTouchesOneSlot(w.reg, a.jni); }
  }

  /** A handle stays where it is exactly when it is not overwritten. */
  lemma {:induction false} HandleUntilOverwritten(w: World, a: Action, c: nat)
    requires Wf(w.reg) && Keyed(w) && Can(w, a) && c in Members(w.reg)
    requires w.reg.conns[c].nfa != INVALID && w.reg.conns[c].nfa in w.delivered
    ensures c in Do(w, a).reg.conns && (Do(w, a).reg.conns[c].nfa == w.reg.conns[c].nfa <==> !Overwrites(w, a, c))
  {
    if ChangesTables(a) { TablesKeepHandle(w, a, c); }
  }

  /** A known connection stays known exactly when it is not disturbed. */
  lemma {:induction false} KnownUntilDisturbed(w: World, a: Action, c: nat, h: int)
    requires Inv(w) && Can(w, a) && Known(w, c, h) && h in w.delivered
    ensures Known(Do(w, a), c, h) <==> !Disturbs(w, a, c)
  {
    assert h != INVALID;
    MemberUntilTakenOut(w, a, c);
    HandleUntilOverwritten(w, a, c);
  }

  /** Handles are not given out twice: what has lost its handle or its place is not known under it again. */
  lemma {:induction false} UnknownForGood(w: World, a: Action, c: nat, h: int)
    requires Inv(w) && Can(w, a) && c in w.reg.conns && !Known(w, c, h) && h in w.delivered
    ensures c in Do(w, a).reg.conns && h in Do(w, a).delivered && !Known(Do(w, a), c, h)
  {
    Lifecycle.DoIsOnward(w, a);
    Lifecycle.MembersOnlyByMaking(w, a);
    if w.reg.conns[c].nfa != h { HandleNotRegained(w, a, c, h); }
  }

  lemma {:induction false} AdditionsKeepConns(w: World, a: Action)
    requires Wf(w.reg) && Refs(w) && Can(w, a) && Adds(a)
    ensures forall c <- w.reg.conns :: c in Do(w, a).reg.conns && Do(w, a).reg.conns[c] == w.reg.conns[c]
  {
  }

  lemma {:induction false} TablesRegainNothing(w: World, a: Action, c: nat, h: int)
    requires Wf(w.reg) && Refs(w) && Can(w, a) && ChangesTables(a)
    requires c in w.reg.conns && w.reg.conns[c].nfa != h && h != INVALID
    ensures c in Do(w, a).reg.conns && Do(w, a).reg.conns[c].nfa != h
  {
    if a.RemoveConnAct? {
      RemoveConnTouchesOneSlot(w.reg, a.jni);
    } else if Adds(a) {
      AdditionsKeepConns(w, a);
    }
  }

  lemma {:induction false} HandleNotRegained(w: World, a: Action, c: nat, h: int)
    requires Wf(w.reg) && Keyed(w) && Can(w, a) && c in w.reg.conns && w.reg.conns[c].nfa != h && h in w.delivered
    ensures c in Do(w, a).reg.conns && Do(w, a).reg.conns[c].nfa != h
  {
    assert h != INVALID;
    if ChangesTables(a) { TablesRegainNothing(w, a, c, h); }
  }

  // ---- whole runs ----

  lemma {:induction false} UnknownStaysUnknown(w: World, run: seq<Action>, c: nat, h: int)
    requires Inv(w) && Legal(w, run) && c in w.reg.conns && !Known(w, c, h) && h in w.delivered
    ensures !Known(After(w, run), c, h)
    decreases run
  {
    if run == [] {
    } else {
      UnknownForGood(w, run[0], c, h);
      DoKeepsInv(w, run[0]);
      UnknownStaysUnknown(Do(w, run[0]), run[1..], c, h);
    }
  }

  lemma {:induction false} KnownWhileUndisturbed(w: World, run: seq<Action>, c: nat, h: int)
    requires Inv(w) && Legal(w, run) && Known(w, c, h) && h in w.delivered
    ensures Known(After(w, run), c, h) <==> Undisturbed(w, run, c)
    decreases run
  {
    if run == [] {
    } else {
      KnownUntilDisturbed(w, run[0], c, h);
      DoKeepsInv(w, run[0]);
      Lifecycle.DoIsOnward(w, run[0]);
      if Known(Do(w, run[0]), c, h) {
        KnownWhileUndisturbed(Do(w, run[0]), run[1..], c, h);
      } else {
        UnknownStaysUnknown(Do(w, run[0]), run[1..], c, h);
      }
    }
  }

  lemma {:induction false} HandlesAreDelivered(w: World, run: seq<Action>)
    requires Inv(w) && Lifecycle.Genuine(w) && Legal(w, run)
    ensures Lifecycle.Genuine(After(w, run))
    decreases run
  {
    if run == [] {
    } else {
      Lifecycle.StaysGenuine(w, run[0]);
      DoKeepsInv(w, run[0]);
      HandlesAreDelivered(Do(w, run[0]), run[1..]);
    }
  }

  lemma {:induction false} FoundWhileUndisturbed(w: World, c: nat, h: int, run: seq<Action>)
    requires Inv(w) && Legal(w, run) && c in w.reg.conns && w.reg.conns[c].nfa == h && h in w.delivered
    ensures FindConnection(After(w, run).reg, ByNfa(h)) == Some(c) <==> c in Members(w.reg) && Undisturbed(w, run, c)
  {
    AfterKeepsInv(w, run);
    EventFindsExactlyTheKnown(After(w, run), c, h);
    if Known(w, c, h) {
      KnownWhileUndisturbed(w, run, c, h);
    } else {
      UnknownStaysUnknown(w, run, c, h);
    }
  }

  /** Over every run: the stack is asked to disconnect, or to send to, a connection c under its handle h.  Whatever
      happens until the stack's event for that handle, the event finds the connection, and so the thread that waits,
      exactly when the connection was in the tables and nothing has taken it out or overwritten the handle in between.
      NFC turned off or on, a server or connection removed, or another event may; the thread is then not answered. */
  lemma {:induction false} AnswerFindsItExactlyWhenUndisturbed(before: seq<Action>, c: nat, h: int, run: seq<Action>)
    requires Legal(START, before) && Legal(After(START, before), run)
    requires var w := After(START, before); c in w.reg.conns && w.reg.conns[c].nfa == h && h != INVALID
    ensures var w := After(START, before);
            FindConnection(After(w, run).reg, ByNfa(h)) == Some(c) <==> c in Members(w.reg) && Undisturbed(w, run, c)
  {
    StartIsSound();
    AfterKeepsInv(START, before);
    HandlesAreDelivered(START, before);
    FoundWhileUndisturbed(After(START, before), c, h, run);
  }

  // ---- the answer to a connect ----

  /** A client is in the table just when its own connection is a member. */
  lemma {:induction false} HeldJustWhenMember(w: World, k: nat)
    requires Wf(w.reg) && Owned(w.reg) && k in w.reg.clients
    ensures Holds(w.reg.clientSlots, k) <==> w.reg.clients[k].conn in Members(w.reg)
  {
    var c := w.reg.clients[k].conn;
    if Holds(w.reg.clientSlots, k) {
      assert ViaClient(w.reg, c);
    } else {
      assert !ViaClient(w.reg, c) && !ViaServer(w.reg, c);
    }
  }

  /** Nothing in the run takes the connection out. */
  ghost predicate StaysIn(w: World, run: seq<Action>, c: nat)
    requires Legal(w, run)
    decreases run
  {
    run == [] || (Wf(w.reg) && c in w.reg.conns && !TakesOut(w, run[0], c) && StaysIn(Do(w, run[0]), run[1..], c))
  }

  lemma {:induction false} MemberWhileNotTakenOut(w: World, run: seq<Action>, c: nat)
    requires Inv(w) && Legal(w, run) && c in w.reg.conns
    ensures c in After(w, run).reg.conns && (c in Members(After(w, run).reg) ==> c in Members(w.reg))
    ensures c in Members(w.reg) ==> (c in Members(After(w, run).reg) <==> StaysIn(w, run, c))
    decreases run
  {
    if run == [] {
    } else {
      if c in Members(w.reg) { MemberUntilTakenOut(w, run[0], c); }
      Lifecycle.MembersOnlyByMaking(w, run[0]);
      Lifecycle.DoIsOnward(w, run[0]);
      DoKeepsInv(w, run[0]);
      MemberWhileNotTakenOut(Do(w, run[0]), run[1..], c);
    }
  }

  lemma {:induction false} TablesKeepClients(w: World, a: Action, k: nat)
    requires Wf(w.reg) && Refs(w) && Can(w, a) && ChangesTables(a) && k in w.reg.clients
    ensures k in Do(w, a).reg.clients && Do(w, a).reg.clients[k] == w.reg.clients[k]
  {
    if a.RemoveConnAct? { RemoveConnTouchesOneSlot(w.reg, a.jni); }
  }

  /** The stack's handle of a client never changes again. */
  lemma {:induction false} ClientKeepsHandle(w: World, a: Action, k: nat)
    requires Wf(w.reg) && Keyed(w) && Can(w, a) && k in w.reg.clients && w.reg.clients[k].nfa != INVALID
    ensures k in Do(w, a).reg.clients
    ensures Do(w, a).reg.clients[k].nfa == w.reg.clients[k].nfa && Do(w, a).reg.clients[k].conn == w.reg.clients[k].conn
  {
    if ChangesTables(a) { TablesKeepClients(w, a, k); }
  }

  lemma {:induction false} ClientKeepsHandleThroughout(w: World, run: seq<Action>, k: nat)
    requires Inv(w) && Legal(w, run) && k in w.reg.clients && w.reg.clients[k].nfa != INVALID
    ensures k in After(w, run).reg.clients
    ensures After(w, run).reg.clients[k].nfa == w.reg.clients[k].nfa
    ensures After(w, run).reg.clients[k].conn == w.reg.clients[k].conn
    decreases run
  {
    if run == [] {
    } else {
      ClientKeepsHandle(w, run[0], k);
      DoKeepsInv(w, run[0]);
      ClientKeepsHandleThroughout(Do(w, run[0]), run[1..], k);
    }
  }

  lemma {:induction false} ClientFoundWhileIn(w: World, k: nat, h: int, run: seq<Action>)
    requires Inv(w) && EndpointsDistinct(w) && Legal(w, run)
    requires k in w.reg.clients && w.reg.clients[k].nfa == h && h != INVALID
    ensures FindClientByNfa(After(w, run).reg, h) == Some(k)
            <==> Holds(w.reg.clientSlots, k) && StaysIn(w, run, w.reg.clients[k].conn)
  {
    var w' := After(w, run);
    AfterKeepsInv(w, run);
    AfterKeepsEndpoints(w, run);
    HandleFindsEndpoint(w', h);
    ClientKeepsHandleThroughout(w, run, k);
    HeldJustWhenMember(w, k);
    HeldJustWhenMember(w', k);
    MemberWhileNotTakenOut(w, run, w.reg.clients[k].conn);
  }

  /** Over every run: the stack's answer to a connect finds the client k that asked, registered with handle h, exactly
      when k was in the table and its connection has not been taken out in between. */
  lemma {:induction false} ConnectAnswerFindsItExactlyWhileIn(before: seq<Action>, k: nat, h: int, run: seq<Action>)
    requires Legal(START, before) && Legal(After(START, before), run)
    requires var r := After(START, before).reg; k in r.clients && r.clients[k].nfa == h && h != INVALID
    ensures var w := After(START, before);
            FindClientByNfa(After(w, run).reg, h) == Some(k)
            <==> Holds(w.reg.clientSlots, k) && StaysIn(w, run, w.reg.clients[k].conn)
  {
    StartIsSound();
    AfterKeepsInv(START, before);
    AfterKeepsEndpoints(START, before);
    ClientFoundWhileIn(After(START, before), k, h, run);
  }

  // ---- the answer to a registration ----

  /** Slot i is the first whose client has no handle of the stack's. */
  predicate FirstUnregistered(r: Reg, i: nat)
    requires Wf(r)
  {
    && i < |r.clientSlots| && r.clientSlots[i].Some? && r.clients[r.clientSlots[i].value].nfa == INVALID
    && forall j :: 0 <= j < i && r.clientSlots[j].Some? ==> r.clients[r.clientSlots[j].value].nfa != INVALID
  }

  /** The answer to a registration names no client: it finds the one that asked exactly when no client before it in the
      table is without a handle.  One whose registration was refused, and waits, is; it gets a later client's answer. */
  lemma {:induction false} RegistrationFindsTheFirst(w: World, k: nat)
    requires Wf(w.reg)
    ensures FindClientByNfa(w.reg, INVALID) == Some(k)
            <==> exists i: nat :: FirstUnregistered(w.reg, i) && w.reg.clientSlots[i] == Some(k)
  {
    var r := w.reg;
    var n := First(r.clientSlots, ClientNfaHits(r, INVALID));
    if n < |r.clientSlots| { assert FirstUnregistered(r, n); }
    forall i: nat | FirstUnregistered(r, i) ensures i == n {
      assert r.clientSlots[i].value in ClientNfaHits(r, INVALID);
    }
  }
}
