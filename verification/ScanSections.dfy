/** The servers' connection tables are looked through with mMutex held all the while, and what NFC off takes down of a
    server with that server's mutex held too; and a handle is made invalid before anybody is woken to look at it. */
module ScanSections {
  import opened Options
  import opened Monitors
  import opened PeerScripts
  import opened ThreadMachine
  import opened LockRuns
  import opened ThreadTraces
  import opened OperationPurposes
  import opened ScriptTallies
  import opened OperationEffects
  import opened SectionsHeld

  // ---- what is held, from what is still to be released ----

  /** The next that happens to the mutex is its release. */
  predicate HoldsNow(todo: seq<Act>, m: Lock) {
    todo != [] && (todo[0] == Release(m) || (todo[0] != Acquire(m) && HoldsNow(todo[1..], m)))
  }

  lemma {:induction false} HoldsIsHeld(at: Ledger, todo: seq<Act>, m: Lock)
    requires Disciplined(at, todo) && HoldsNow(todo, m)
    ensures m in at.locks
    decreases todo
  {
    if todo[0] != Release(m) { HoldsIsHeld(After(at, todo[0]), todo[1..], m); }
  }

  lemma {:induction false} HoldsBefore(a: seq<Act>, b: seq<Act>, m: Lock)
    requires HoldsNow(a, m)
    ensures HoldsNow(a + b, m)
    decreases a
  {
    assert (a + b)[1..] == a[1..] + b;
    if a[0] != Release(m) { HoldsBefore(a[1..], b, m); }
  }

  /** Nothing is done to the mutex, and then it is released. */
  lemma {:induction false} HoldsUntil(a: seq<Act>, b: seq<Act>, m: Lock)
    requires (forall x <- a :: x != Acquire(m)) && HoldsNow(b, m)
    ensures HoldsNow(a + b, m)
    decreases a
  {
    if a == [] {
      assert a + b == b;
    } else {
      assert (a + b)[1..] == a[1..] + b;
      assert a[0] in a && forall x <- a[1..] :: x in a;
      if a[0] != Release(m) { HoldsUntil(a[1..], b, m); }
    }
  }

  // ---- the tables ----

  predicate TakesServer(a: Act) { a.Acquire? && a.lock.ServerMutex? }

  /** Wherever a server's mutex is taken, mMutex is held. */
  predicate UnderPeer(todo: seq<Act>) {
    todo == [] || ((TakesServer(todo[0]) ==> HoldsNow(todo, PeerMutex)) && UnderPeer(todo[1..]))
  }

  lemma {:induction false} UnderPeerBoth(a: seq<Act>, b: seq<Act>)
    requires UnderPeer(a) && UnderPeer(b)
    ensures UnderPeer(a + b)
    decreases a
  {
    if a == [] {
      assert a + b == b;
    } else {
      assert (a + b)[1..] == a[1..] + b;
      UnderPeerBoth(a[1..], b);
      if TakesServer(a[0]) { HoldsBefore(a, b, PeerMutex); }
    }
  }

  lemma {:induction false} UnderPeerTail(done: seq<Act>, todo: seq<Act>)
    requires UnderPeer(done + todo)
    ensures UnderPeer(todo)
    decreases done
  {
    if done == [] {
      assert done + todo == todo;
    } else {
      assert (done + todo)[1..] == done[1..] + todo;
      UnderPeerTail(done[1..], todo);
    }
  }

  lemma {:induction false} NoServersAtAll(todo: seq<Act>)
    requires forall a <- todo :: !TakesServer(a)
    ensures UnderPeer(todo)
    decreases todo
  {
    if todo != [] { NoServersAtAll(todo[1..]); }
  }

  /** A block that leaves mMutex alone, and then its release */
  lemma {:induction false} BodyUnderPeer(body: seq<Act>)
    requires forall a <- body :: a != Acquire(PeerMutex)
    ensures UnderPeer(body + [Release(PeerMutex)])
    decreases body
  {
    if body == [] {
      assert body + [Release(PeerMutex)] == [Release(PeerMutex)];
    } else {
      assert (body + [Release(PeerMutex)])[1..] == body[1..] + [Release(PeerMutex)];
      assert forall x <- body[1..] :: x in body;
      BodyUnderPeer(body[1..]);
      HoldsUntil(body, [Release(PeerMutex)], PeerMutex);
    }
  }

  lemma {:induction false} BracketUnderPeer(body: seq<Act>)
    requires forall a <- body :: a != Acquire(PeerMutex)
    ensures UnderPeer([Acquire(PeerMutex)] + body + [Release(PeerMutex)])
  {
    var all := [Acquire(PeerMutex)] + body + [Release(PeerMutex)];
    BodyUnderPeer(body);
    assert all[1..] == body + [Release(PeerMutex)];
  }

  lemma {:induction false} ScanUnderPeer(scanned: seq<nat>)
    ensures UnderPeer(TableScan(scanned))
  {
    ScansOnlyLock(scanned);
    BracketUnderPeer(ServerSections(scanned));
  }

  lemma {:induction false} CallsTakeNoServer(e: Event, accepted: seq<bool>)
    ensures forall a <- Calls(e, accepted) :: !TakesServer(a)
  {
    if accepted != [] { CallsTakeNoServer(e, accepted[1..]); }
  }

  lemma {:induction false} TimesTakeNoServer(n: nat, block: seq<Act>)
    requires forall a <- block :: !TakesServer(a)
    ensures forall a <- Times(n, block) :: !TakesServer(a)
  {
    if n != 0 { TimesTakeNoServer(n - 1, block); }
  }

  /** The operations that look at a server's table on their own: accept, and the callback that serves it */
  predicate OnOneServer(op: Op) { op.Accept? || op.ConnReqEvt? }

  /** A scan first, and no table after it */
  lemma {:induction false} ScanThenNoServer(scanned: seq<nat>, rest: seq<Act>)
    requires forall a <- rest :: !TakesServer(a)
    ensures UnderPeer(TableScan(scanned) + rest)
  {
    ScanUnderPeer(scanned);
    NoServersAtAll(rest);
    UnderPeerBoth(TableScan(scanned), rest);
  }

  lemma {:induction false} DisconnectsUnderPeer(op: Op)
    requires op.DiscEvt? || op.DiscWhileConnectingEvt?
    ensures UnderPeer(Script(op))
  {
    match op {
      case DiscEvt(scanned, c) => ScanThenNoServer(scanned, DiscNotifications(c));
      case DiscWhileConnectingEvt(scanned, k, known) =>
        var e := Connecting(k);
        ScanThenNoServer(scanned, PeerSection() + if known then Guarded(e, Answer(e, None)) else []);
    }
  }

  lemma {:induction false} TrafficUnderPeer(op: Op)
    requires op.DataEvt? || op.CongestEvt?
    ensures UnderPeer(Script(op))
  {
    match op {
      case DataEvt(scanned, c, known) =>
        ScanThenNoServer(scanned, if known then Guarded(Read(c), Notify(Read(c))) else []);
      case CongestEvt(scanned, c, known, notifies) =>
        var e := Congestion(c);
        ScanThenNoServer(scanned, if known && notifies then Guarded(e, Answer(e, None)) else []);
    }
  }

  lemma {:induction false} AnswersUnderPeer(op: Op)
    requires op.RegServerEvt? || op.RegClientEvt? || op.ConnectedEvt? || op.SetTechEvt? || op.PollingEvt?
    ensures UnderPeer(Script(op))
  {
    NoServersAtAll(Script(op));
  }

  lemma {:induction false} CallbacksUnderPeer(op: Op)
    requires IsCallback(op) && !op.ConnReqEvt?
    ensures UnderPeer(Script(op))
  {
    match op {
      case DiscEvt(_, _) => DisconnectsUnderPeer(op);
      case DiscWhileConnectingEvt(_, _, _) => DisconnectsUnderPeer(op);
      case DataEvt(_, _, _) => TrafficUnderPeer(op);
      case CongestEvt(_, _, _, _) => TrafficUnderPeer(op);
      case _ => AnswersUnderPeer(op);
    }
  }

  lemma {:induction false} NoServerThenScan(front: seq<Act>, scanned: seq<nat>, rest: seq<Act>)
    requires (forall a <- front :: !TakesServer(a)) && (forall a <- rest :: !TakesServer(a))
    ensures UnderPeer(front + (TableScan(scanned) + rest))
  {
    NoServersAtAll(front);
    ScanThenNoServer(scanned, rest);
    UnderPeerBoth(front, TableScan(scanned) + rest);
  }

  lemma {:induction false} ClientCallsUnderPeer(op: Op)
    requires op.CreateClient? || op.CreateDataLinkConn?
    ensures UnderPeer(Script(op))
  {
    var script := Script(op);
    var scans := (op.CreateClient? && (op.creation.RegistrationRefused? || op.creation.NotRegistered?))
                 || (op.CreateDataLinkConn? && (op.connect.CallRefused? || op.connect.NotConnected?));
    if scans {
      var front := script[..|script| - |TableScan(op.scanned)|];
      assert script == front + (TableScan(op.scanned) + []);
      NoServerThenScan(front, op.scanned, []);
    } else {
      NoServersAtAll(script);
    }
  }

  lemma {:induction false} TeardownUnderPeer(c: ConnId, request: seq<Act>, removal: seq<nat>)
    requires forall a <- request :: !TakesServer(a)
    ensures UnderPeer(PeerSection() + Teardown(c, request, removal))
  {
    var mid := PeerSection() + (UnblockConn(c) + request + [Acquire(DisconnectMutex)]);
    NoServerThenScan(mid, removal, [Release(DisconnectMutex)]);
    assert PeerSection() + Teardown(c, request, removal) == mid + (TableScan(removal) + [Release(DisconnectMutex)]);
  }

  lemma {:induction false} DisconnectUnderPeer(op: Op)
    requires op.DisconnectConnOriented? && Unblocks(op.disconnect)
    ensures UnderPeer(Script(op))
  {
    var c, accepted := op.conn, op.disconnect.DisconnectAccepted?;
    var request := if op.disconnect.NeverConnected? then [] else Call(Disconnecting(c), accepted);
    assert forall a <- request :: !TakesServer(a);
    ScanUnderPeer(op.scanned);
    TeardownUnderPeer(c, request, op.removalScan);
    UnderPeerBoth(TableScan(op.scanned), PeerSection() + Teardown(c, request, op.removalScan));
    assert Script(op) == TableScan(op.scanned) + (PeerSection() + Teardown(c, request, op.removalScan));
  }

  lemma {:induction false} EarlyDisconnectUnderPeer(op: Op)
    requires op.DisconnectConnOriented? && !Unblocks(op.disconnect)
    ensures UnderPeer(Script(op))
  {
    var e := Connecting(op.client);
    ScanThenNoServer(op.scanned,
                     if op.disconnect.UnknownConnection? then [] else PeerSection() + Guarded(e, Notify(e)));
  }

  lemma {:induction false} DeregisterUnderPeer(op: Op)
    requires op.DeregisterServer?
    ensures UnderPeer(Script(op))
  {
    CallsTakeNoServer(Polling, op.discoveryCalls);
    CallsTakeNoServer(Polling, op.restart);
    NoServersAtAll(Script(op));
  }

  lemma {:induction false} DataUnderPeer(op: Op)
    requires op.Send? || op.Receive?
    ensures UnderPeer(Script(op))
  {
    match op {
      case Send(scanned, c, known, rounds, peerGone) =>
        TimesTakeNoServer(rounds, Call(Congestion(c), true));
        ScanThenNoServer(scanned, if !known then []
                                  else Times(rounds, Call(Congestion(c), true))
                                       + (if peerGone then [] else Call(Congestion(c), false)));
      case Receive(scanned, c, known, polls) =>
        TimesTakeNoServer(polls, Guarded(Read(c), Wait(Read(c))));
        ScanThenNoServer(scanned, if known then Times(polls, Guarded(Read(c), Wait(Read(c)))) else []);
    }
  }

  lemma {:induction false} NfcOffUnderPeer(op: Op)
    requires op.NfcOff?
    ensures UnderPeer(Script(op))
  {
    var body := SweepClients(op.clients) + SweepServers(op.servers);
    SweepsTakeNoPeer(op.clients, op.servers);
    BracketUnderPeer(body);
    NfcOffScript(op.clients, op.servers);
  }

  lemma {:induction false} ShortCallsUnderPeer(op: Op)
    requires op.GetNewJniHandle? || op.RegisterServer? || op.EnableP2pListening? || op.NfcOn? || op.ActivatedEvt?
    ensures UnderPeer(Script(op))
  {
    NoServersAtAll(Script(op));
  }

  lemma {:induction false} CallsUnderPeer(op: Op)
    requires !IsCallback(op) && !op.Accept?
    ensures UnderPeer(Script(op))
  {
    match op {
      case DeregisterServer(_, _, _, _) => DeregisterUnderPeer(op);
      case CreateClient(_, _, _) => ClientCallsUnderPeer(op);
      case CreateDataLinkConn(_, _, _) => ClientCallsUnderPeer(op);
      case Send(_, _, _, _, _) => DataUnderPeer(op);
      case Receive(_, _, _, _) => DataUnderPeer(op);
      case DisconnectConnOriented(_, _, _, outcome, _) =>
        if Unblocks(outcome) { DisconnectUnderPeer(op); } else { EarlyDisconnectUnderPeer(op); }
      case FindConnection(scanned) => ScanUnderPeer(scanned);
      case NfcOff(_, _) => NfcOffUnderPeer(op);
      case _ => ShortCallsUnderPeer(op);
    }
  }

  /** In every reachable state, a thread about to look at a server's table, other than for that server's own accept,
      holds mMutex: what a scan finds is in the tables all at once. */
  lemma {:induction false} TablesAreScannedUnderPeerMutex(ls: seq<Label>, t: Tid)
    requires Legal(START, ls) && t in Exec(START, ls).threads
    requires var th := Exec(START, ls).threads[t];
             th.mode.Running? && th.todo != [] && TakesServer(th.todo[0]) && !OnOneServer(th.op)
    ensures PeerMutex in Exec(START, ls).threads[t].ledger.locks
  {
    var th := Exec(START, ls).threads[t];
    ExecKeepsLockInv(START, ls);
    AllUnderway(START, ls);
    assert ThreadOk(th);
    var done :| Script(th.op) == done + th.todo;
    if IsCallback(th.op) { CallbacksUnderPeer(th.op); } else { CallsUnderPeer(th.op); }
    UnderPeerTail(done, th.todo);
    HoldsIsHeld(th.ledger, th.todo, PeerMutex);
  }

  // ---- the sweep of a server's connections ----

  /** The connection a notification or a store is about */
  function Concerns(a: Act): Option<ConnId> {
    match a
    case Invalidate(c) => Some(c)
    case Notify(Read(c)) => Some(c)
    case Notify(Congestion(c)) => Some(c)
    case Notify(Disconnecting(c)) => Some(c)
    case Answer(Read(c), _) => Some(c)
    case Answer(Congestion(c), _) => Some(c)
    case Answer(Disconnecting(c), _) => Some(c)
    case _ => None
  }

  predicate OfAServer(a: Act) { Concerns(a).Some? && Concerns(a).value.OfServer? }

  /** The server is swept, with the connection in its table. */
  ghost predicate SweptWith(servers: seq<ServerSweep>, s: nat, n: nat) {
    exists i :: 0 <= i < |servers| && servers[i].server == s && n in servers[i].conns
  }

  /** What is done to a server's connection is done with that server's mutex held. */
  ghost predicate UnderServer(todo: seq<Act>, servers: seq<ServerSweep>) {
    todo == []
    || (UnderServer(todo[1..], servers)
        && (OfAServer(todo[0]) ==>
              exists s: nat :: SweptWith(servers, s, Concerns(todo[0]).value.n) && HoldsNow(todo, ServerMutex(s))))
  }

  lemma {:induction false} UnderServerBoth(a: seq<Act>, b: seq<Act>, servers: seq<ServerSweep>)
    requires UnderServer(a, servers) && UnderServer(b, servers)
    ensures UnderServer(a + b, servers)
    decreases a
  {
    if a == [] {
      assert a + b == b;
    } else {
      assert (a + b)[1..] == a[1..] + b;
      UnderServerBoth(a[1..], b, servers);
      if OfAServer(a[0]) {
        var s: nat :| SweptWith(servers, s, Concerns(a[0]).value.n) && HoldsNow(a, ServerMutex(s));
        HoldsBefore(a, b, ServerMutex(s));
      }
    }
  }

  lemma {:induction false} UnderServerTail(done: seq<Act>, todo: seq<Act>, servers: seq<ServerSweep>)
    requires UnderServer(done + todo, servers)
    ensures UnderServer(todo, servers)
    decreases done
  {
    if done == [] {
      assert done + todo == todo;
    } else {
      assert (done + todo)[1..] == done[1..] + todo;
      UnderServerTail(done[1..], todo, servers);
    }
  }

  lemma {:induction false} NothingOfServers(todo: seq<Act>, servers: seq<ServerSweep>)
    requires forall a <- todo :: !OfAServer(a)
    ensures UnderServer(todo, servers)
    decreases todo
  {
    if todo != [] {
      assert forall a <- todo[1..] :: a in todo;
      NothingOfServers(todo[1..], servers);
    }
  }

  /** A block about connections of the server, which leaves its mutex alone until the release */
  lemma {:induction false} BodyUnderServer(body: seq<Act>, s: nat, servers: seq<ServerSweep>)
    requires forall a <- body :: a != Acquire(ServerMutex(s))
    requires forall a <- body :: OfAServer(a) ==> SweptWith(servers, s, Concerns(a).value.n)
    ensures UnderServer(body + [Release(ServerMutex(s))], servers)
    decreases body
  {
    var all := body + [Release(ServerMutex(s))];
    if body == [] {
      assert all == [Release(ServerMutex(s))] && all[1..] == [];
      assert UnderServer([], servers) && Concerns(all[0]).None?;
    } else {
      assert all[1..] == body[1..] + [Release(ServerMutex(s))] && all[0] == body[0] && body[0] in body;
      assert forall a <- body[1..] :: a in body;
      BodyUnderServer(body[1..], s, servers);
      HoldsUntil(body, [Release(ServerMutex(s))], ServerMutex(s));
      FirstUnderServer(all, s, servers);
    }
  }

  lemma {:induction false} FirstUnderServer(todo: seq<Act>, s: nat, servers: seq<ServerSweep>)
    requires todo != [] && UnderServer(todo[1..], servers) && HoldsNow(todo, ServerMutex(s))
    requires OfAServer(todo[0]) ==> SweptWith(servers, s, Concerns(todo[0]).value.n)
    ensures UnderServer(todo, servers)
  {
  }

  lemma {:induction false} UnblocksConcern(conns: seq<nat>, a: Act)
    requires a in UnblockConns(conns)
    ensures !TakesServer(a) && (Concerns(a).Some? ==> Concerns(a).value.OfServer? && Concerns(a).value.n in conns)
  {
    if conns != [] && a !in TakeDown(OfServer(conns[0])) { UnblocksConcern(conns[1..], a); }
  }

  lemma {:induction false} UnblockAllUnderServer(servers: seq<ServerSweep>, i: nat)
    requires i < |servers|
    ensures UnderServer(UnblockAll(servers[i]), servers)
  {
    var s, body := servers[i].server, UnblockConns(servers[i].conns);
    forall a | a in body ensures a != Acquire(ServerMutex(s)) { UnblocksConcern(servers[i].conns, a); }
    forall a | a in body && OfAServer(a) ensures SweptWith(servers, s, Concerns(a).value.n) {
      UnblocksConcern(servers[i].conns, a);
    }
    BodyUnderServer(body, s, servers);
    assert UnblockAll(servers[i])[1..] == body + [Release(ServerMutex(s))];
  }

  lemma {:induction false} SweepUnderServer(servers: seq<ServerSweep>, i: nat)
    requires i <= |servers|
    ensures UnderServer(SweepServers(servers[i..]), servers)
    decreases |servers| - i
  {
    if i < |servers| {
      UnblockAllUnderServer(servers, i);
      SweepUnderServer(servers, i + 1);
      UnderServerBoth(UnblockAll(servers[i]), SweepServers(servers[i + 1..]), servers);
      assert servers[i..][0] == servers[i] && servers[i..][1..] == servers[i + 1..];
    }
  }

  lemma {:induction false} ClientSweepConcerns(clients: seq<ClientSweep>, a: Act)
    requires a in SweepClients(clients)
    ensures Concerns(a).Some? ==> Concerns(a).value.OfClient?
  {
    if clients != [] && a !in SweepClient(clients[0]) { ClientSweepConcerns(clients[1..], a); }
  }

  lemma {:induction false} NfcOffUnderServer(op: Op)
    requires op.NfcOff?
    ensures UnderServer(Script(op), op.servers)
  {
    var front, sweep := [Acquire(PeerMutex)] + SweepClients(op.clients), SweepServers(op.servers);
    forall a | a in front ensures !OfAServer(a) {
      if a != Acquire(PeerMutex) { ClientSweepConcerns(op.clients, a); }
    }
    NothingOfServers(front, op.servers);
    SweepUnderServer(op.servers, 0);
    assert op.servers[0..] == op.servers;
    NothingOfServers([Release(PeerMutex)], op.servers);
    UnderServerBoth(front, sweep, op.servers);
    UnderServerBoth(front + sweep, [Release(PeerMutex)], op.servers);
  }

  /** NFC off takes a server's connection down with that server's mutex held. */
  lemma {:induction false} SweepHoldsServerMutex(ls: seq<Label>, t: Tid, n: nat)
    requires Legal(START, ls) && Faces(Exec(START, ls), t) && Exec(START, ls).threads[t].op.NfcOff?
    requires Concerns(Exec(START, ls).threads[t].todo[0]) == Some(OfServer(n))
    ensures var th := Exec(START, ls).threads[t];
            exists s: nat :: SweptWith(th.op.servers, s, n) && ServerMutex(s) in th.ledger.locks
  {
    var th := Exec(START, ls).threads[t];
    ExecKeepsLockInv(START, ls);
    AllUnderway(START, ls);
    assert ThreadOk(th);
    var done :| Script(th.op) == done + th.todo;
    NfcOffUnderServer(th.op);
    UnderServerTail(done, th.todo, th.op.servers);
    var s: nat :| SweptWith(th.op.servers, s, n) && HoldsNow(th.todo, ServerMutex(s));
    HoldsIsHeld(th.ledger, th.todo, ServerMutex(s));
  }

  // ---- invalid first, then notified ----

  /** Whoever is notified about a connection, its handle has been made invalid before. */
  predicate InvalidFirst(todo: seq<Act>, invalid: set<ConnId>) {
    todo == []
    || ((Signal(todo[0]) && Concerns(todo[0]).Some? ==> Concerns(todo[0]).value in invalid)
        && InvalidFirst(todo[1..], if todo[0].Invalidate? then invalid + {todo[0].conn} else invalid))
  }

  lemma {:induction false} MoreInvalid(todo: seq<Act>, some: set<ConnId>, more: set<ConnId>)
    requires InvalidFirst(todo, some) && some <= more
    ensures InvalidFirst(todo, more)
    decreases todo
  {
    if todo != [] {
      if todo[0].Invalidate? {
        MoreInvalid(todo[1..], some + {todo[0].conn}, more + {todo[0].conn});
      } else {
        MoreInvalid(todo[1..], some, more);
      }
    }
  }

  lemma {:induction false} InvalidFirstBoth(a: seq<Act>, b: seq<Act>, invalid: set<ConnId>)
    requires InvalidFirst(a, invalid) && InvalidFirst(b, invalid)
    ensures InvalidFirst(a + b, invalid)
    decreases a
  {
    if a == [] {
      assert a + b == b;
    } else {
      var more := if a[0].Invalidate? then invalid + {a[0].conn} else invalid;
      assert (a + b)[1..] == a[1..] + b;
      MoreInvalid(b, invalid, more);
      InvalidFirstBoth(a[1..], b, more);
    }
  }

  lemma {:induction false} InvalidBefore(done: seq<Act>, todo: seq<Act>, invalid: set<ConnId>, c: ConnId)
    requires InvalidFirst(done + todo, invalid) && todo != [] && Signal(todo[0]) && Concerns(todo[0]) == Some(c)
    ensures c in invalid || Invalidate(c) in done
    decreases done
  {
    if done == [] {
      assert done + todo == todo;
    } else {
      assert (done + todo)[0] == done[0] && (done + todo)[1..] == done[1..] + todo;
      InvalidBefore(done[1..], todo, if done[0].Invalidate? then invalid + {done[0].conn} else invalid, c);
    }
  }

  lemma {:induction false} NobodyConcerned(todo: seq<Act>)
    requires forall a <- todo :: Concerns(a).None?
    ensures InvalidFirst(todo, {})
    decreases todo
  {
    if todo != [] {
      assert todo[0] in todo && forall a <- todo[1..] :: a in todo;
      NobodyConcerned(todo[1..]);
    }
  }

  lemma {:induction false} AllInvalid(todo: seq<Act>, c: ConnId)
    requires forall a <- todo :: !a.Invalidate? && (Concerns(a).None? || Concerns(a) == Some(c))
    ensures InvalidFirst(todo, {c})
    decreases todo
  {
    if todo != [] {
      assert todo[0] in todo && forall a <- todo[1..] :: a in todo;
      AllInvalid(todo[1..], c);
    }
  }

  lemma {:induction false} DownInvalidFirst(c: ConnId, rest: seq<Act>)
    requires forall a <- rest :: !a.Invalidate? && (Concerns(a).None? || Concerns(a) == Some(c))
    ensures InvalidFirst([Invalidate(c)] + rest, {})
  {
    AllInvalid(rest, c);
    assert ([Invalidate(c)] + rest)[1..] == rest && {} + {c} == {c};
  }

  lemma {:induction false} ConnsInvalidFirst(conns: seq<nat>)
    ensures InvalidFirst(UnblockConns(conns), {})
  {
    if conns != [] {
      DownInvalidFirst(OfServer(conns[0]), UnblockConn(OfServer(conns[0])));
      ConnsInvalidFirst(conns[1..]);
      InvalidFirstBoth(TakeDown(OfServer(conns[0])), UnblockConns(conns[1..]), {});
    }
  }

  lemma {:induction false} ServersInvalidFirst(servers: seq<ServerSweep>)
    ensures InvalidFirst(SweepServers(servers), {})
  {
    if servers != [] {
      var m, body := ServerMutex(servers[0].server), UnblockConns(servers[0].conns);
      ConnsInvalidFirst(servers[0].conns);
      NobodyConcerned([Acquire(m)]);
      NobodyConcerned([Release(m)]);
      InvalidFirstBoth([Acquire(m)], body, {});
      InvalidFirstBoth([Acquire(m)] + body, [Release(m)], {});
      ServersInvalidFirst(servers[1..]);
      InvalidFirstBoth(UnblockAll(servers[0]), SweepServers(servers[1..]), {});
    }
  }

  lemma {:induction false} ClientsInvalidFirst(clients: seq<ClientSweep>)
    ensures InvalidFirst(SweepClients(clients), {})
  {
    if clients != [] {
      match clients[0] {
        case Unconnected(k) => NobodyConcerned(Guarded(Connecting(k), Notify(Connecting(k))));
        case Connected(k) => DownInvalidFirst(OfClient(k), UnblockConn(OfClient(k)));
      }
      ClientsInvalidFirst(clients[1..]);
      InvalidFirstBoth(SweepClient(clients[0]), SweepClients(clients[1..]), {});
    }
  }

  lemma {:induction false} NfcOffInvalidFirst(op: Op)
    requires op.NfcOff?
    ensures InvalidFirst(Script(op), {})
  {
    var a, b := SweepClients(op.clients), SweepServers(op.servers);
    ClientsInvalidFirst(op.clients);
    ServersInvalidFirst(op.servers);
    NobodyConcerned([Acquire(PeerMutex)]);
    NobodyConcerned([Release(PeerMutex)]);
    InvalidFirstBoth([Acquire(PeerMutex)], a, {});
    InvalidFirstBoth([Acquire(PeerMutex)] + a, b, {});
    InvalidFirstBoth([Acquire(PeerMutex)] + a + b, [Release(PeerMutex)], {});
  }

  lemma {:induction false} DiscInvalidFirst(op: Op)
    requires op.DiscEvt?
    ensures InvalidFirst(Script(op), {})
  {
    var c, d := op.conn, DisconnectMutex;
    ScansOnlyLock(op.scanned);
    NobodyConcerned(TableScan(op.scanned));
    NobodyConcerned([Acquire(d)]);
    NobodyConcerned([Release(d)]);
    DownInvalidFirst(c, NotifyDisconnected(c));
    InvalidFirstBoth([Acquire(d)], [Invalidate(c)] + NotifyDisconnected(c), {});
    InvalidFirstBoth([Acquire(d)] + ([Invalidate(c)] + NotifyDisconnected(c)), [Release(d)], {});
    InvalidFirstBoth(TableScan(op.scanned), DiscNotifications(c), {});
  }

  lemma {:induction false} MemberCounts(todo: seq<Act>, a: Act, p: Probe)
    requires a in todo && Counts(a, p)
    ensures Tally(todo, p) > 0
    decreases todo
  {
    TallyIsNatural(todo[1..], p);
    if todo[0] != a { MemberCounts(todo[1..], a, p); }
  }

  /** When a disconnect callback, or NFC off, is about to wake somebody who waits on a connection, it has made the
      connection's handle invalid. */
  lemma {:induction false} InvalidBeforeAnybodyIsWoken(before: seq<Label>, t: Tid, op: Op, ls: seq<Label>, c: ConnId)
    requires Legal(START, before) && t !in Exec(START, before).threads && Legal(Outset(before, t, op), ls)
    requires op.DiscEvt? || op.NfcOff?
    requires var s := Exec(Outset(before, t, op), ls);
             Faces(s, t) && Signal(s.threads[t].todo[0]) && Concerns(s.threads[t].todo[0]) == Some(c)
    ensures TimesStored(Exec(Outset(before, t, op), ls).log, t, Write(ConnHandle(c), INVALID)) > 0
  {
    var s, w := Outset(before, t, op), Write(ConnHandle(c), INVALID);
    ExecKeepsLockInv(START, before);
    NextKeepsLockInv(Exec(START, before), Spawn(t, op));
    CompletedAndLeft(s, ls, t);
    if op.DiscEvt? { DiscInvalidFirst(op); } else { NfcOffInvalidFirst(op); }
    InvalidBefore(Completed(s, ls, t), Exec(s, ls).threads[t].todo, {}, c);
    MemberCounts(Completed(s, ls, t), Invalidate(c), Stores(w));
    NothingStoredAtOutset(before, t, op, w);
    CompletedIsStored(s, ls, t, w);
  }

  // ---- callbacks look up before they act ----

  /** A callback's lookups under mMutex */
  function Lookups(op: Op): seq<Act>
    requires IsCallback(op)
  {
    match op
    case DiscEvt(scanned, _) => TableScan(scanned)
    case DiscWhileConnectingEvt(scanned, _, _) => TableScan(scanned) + PeerSection()
    case DataEvt(scanned, _, _) => TableScan(scanned)
    case CongestEvt(scanned, _, _, _) => TableScan(scanned)
    case SetTechEvt => []
    case PollingEvt => []
    case _ => PeerSection()
  }

  lemma {:induction false} DeliveriesLookUp(op: Op) returns (rest: seq<Act>)
    requires op.RegServerEvt? || op.RegClientEvt? || op.ConnectedEvt?
    ensures Script(op) == Lookups(op) + rest && Acquire(PeerMutex) !in rest
    ensures forall a <- Lookups(op) :: !Visible(a)
  {
    rest := Script(op)[|PeerSection()|..];
  }

  lemma {:induction false} RequestsLookUp(op: Op) returns (rest: seq<Act>)
    requires op.ConnReqEvt?
    ensures Script(op) == Lookups(op) + rest && Acquire(PeerMutex) !in rest
    ensures forall a <- Lookups(op) :: !Visible(a)
  {
    rest := Script(op)[|PeerSection()|..];
  }

  lemma {:induction false} DisconnectsLookUp(op: Op) returns (rest: seq<Act>)
    requires op.DiscEvt?
    ensures Script(op) == Lookups(op) + rest && Acquire(PeerMutex) !in rest
    ensures forall a <- Lookups(op) :: !Visible(a)
  {
    ScansOnlyLock(op.scanned);
    rest := DiscNotifications(op.conn);
  }

  lemma {:induction false} FailedConnectsLookUp(op: Op) returns (rest: seq<Act>)
    requires op.DiscWhileConnectingEvt?
    ensures Script(op) == Lookups(op) + rest && Acquire(PeerMutex) !in rest
    ensures forall a <- Lookups(op) :: !Visible(a)
  {
    ScansOnlyLock(op.scanned);
    rest := Script(op)[|Lookups(op)|..];
  }

  lemma {:induction false} TrafficLooksUp(op: Op) returns (rest: seq<Act>)
    requires op.DataEvt? || op.CongestEvt?
    ensures Script(op) == Lookups(op) + rest && Acquire(PeerMutex) !in rest
    ensures forall a <- Lookups(op) :: !Visible(a)
  {
    ScansOnlyLock(op.scanned);
    rest := Script(op)[|TableScan(op.scanned)|..];
  }

  lemma {:induction false} NoticesLookUp(op: Op) returns (rest: seq<Act>)
    requires op.SetTechEvt? || op.PollingEvt?
    ensures Script(op) == Lookups(op) + rest && Acquire(PeerMutex) !in rest
    ensures forall a <- Lookups(op) :: !Visible(a)
  {
    rest := Script(op);
  }

  lemma {:induction false} LookupsComeFirst(op: Op) returns (rest: seq<Act>)
    requires IsCallback(op)
    ensures Script(op) == Lookups(op) + rest && Acquire(PeerMutex) !in rest
    ensures forall a <- Lookups(op) :: !Visible(a)
  {
    match op {
      case ConnReqEvt(_, _, _, _) => rest := RequestsLookUp(op);
      case DiscEvt(_, _) => rest := DisconnectsLookUp(op);
      case DiscWhileConnectingEvt(_, _, _) => rest := FailedConnectsLookUp(op);
      case DataEvt(_, _, _) => rest := TrafficLooksUp(op);
      case CongestEvt(_, _, _, _) => rest := TrafficLooksUp(op);
      case SetTechEvt => rest := NoticesLookUp(op);
      case PollingEvt => rest := NoticesLookUp(op);
      case _ => rest := DeliveriesLookUp(op);
    }
  }

  /** When a callback is about to store or to notify anything, it has been through all its lookups under mMutex. */
  lemma {:induction false} CallbacksLookUpFirst(ls: seq<Label>, t: Tid)
    requires Legal(START, ls) && Faces(Exec(START, ls), t) && IsCallback(Exec(START, ls).threads[t].op)
    ensures Acquire(PeerMutex) !in Exec(START, ls).threads[t].todo
  {
    var th := Exec(START, ls).threads[t];
    ExecKeepsLockInv(START, ls);
    AllUnderway(START, ls);
    var done :| Script(th.op) == done + th.todo;
    var rest := LookupsComeFirst(th.op);
    TailOfSecond(Lookups(th.op), rest, done, th.todo);
  }
}
