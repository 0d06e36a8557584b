/** Every operation and callback of PeerToPeer.cpp as the lock and event instructions it issues.  The
    fields of an operation say which branches it takes; loops take any number of rounds. */
module PeerScripts {
  import opened Options
  import opened Monitors

  datatype RegisterOutcome = AlreadyRegistered | NoFreeEntry | StackRefuses | NoHandle | Registered
  datatype ConnectOutcome = UnknownClient | CallRefused | NotConnected | ConnectionUp
  datatype DisconnectOutcome =
    | UnknownConnection | StillConnecting | NeverConnected | DisconnectRefused | DisconnectAccepted

  datatype ClientOutcome = NoFreeClient | RegistrationRefused | NotRegistered | ClientRegistered

  datatype ClientSweep = Unconnected(client: nat) | Connected(client: nat)
  datatype ServerSweep = ServerSweep(server: nat, conns: seq<nat>)

  datatype Op =
    // calls made by JNI threads; `scanned` lists the servers whose connection table the scan visits
    | GetNewJniHandle
    | RegisterServer(server: nat, registration: RegisterOutcome)
    | DeregisterServer(server: nat, known: bool, discoveryCalls: seq<bool>, restart: seq<bool>)
    | Accept(server: nat, known: bool, slotFree: bool, gotHandle: bool)
    | CreateClient(client: nat, creation: ClientOutcome, scanned: seq<nat>)
    | CreateDataLinkConn(client: nat, connect: ConnectOutcome, scanned: seq<nat>)
    | Send(scanned: seq<nat>, conn: ConnId, known: bool, congestedRounds: nat, peerGone: bool)
    | Receive(scanned: seq<nat>, conn: ConnId, known: bool, polls: nat)
    | DisconnectConnOriented(scanned: seq<nat>, client: nat, conn: ConnId, disconnect: DisconnectOutcome,
                             removalScan: seq<nat>)
    | FindConnection(scanned: seq<nat>)
    | EnableP2pListening(calls: bool, accepted: bool)
    | NfcOn
    | NfcOff(clients: seq<ClientSweep>, servers: seq<ServerSweep>)
    // callbacks made by the stack
    | RegServerEvt(server: nat, known: bool, handle: int)
    | ConnReqEvt(server: nat, known: bool, waiting: Option<nat>, handle: int)
    | RegClientEvt(client: nat, known: bool, handle: int)
    | ConnectedEvt(client: nat, known: bool, handle: int)
    | DiscEvt(scanned: seq<nat>, conn: ConnId)
    | DiscWhileConnectingEvt(scanned: seq<nat>, client: nat, known: bool)
    | DataEvt(scanned: seq<nat>, conn: ConnId, known: bool)
    | CongestEvt(scanned: seq<nat>, conn: ConnId, known: bool, notifies: bool)
    | ActivatedEvt
    | SetTechEvt
    | PollingEvt

  function PeerSection(): seq<Act> { [Acquire(PeerMutex), Release(PeerMutex)] }

  function ServerSection(s: nat): seq<Act> { [Acquire(ServerMutex(s)), Release(ServerMutex(s))] }

  /** SyncEventGuard around one instruction. */
  function Guarded(e: Event, a: Act): seq<Act> { [Acquire(EventMutex(e)), a, Release(EventMutex(e))] }

  /** SyncEventGuard around a stack call: the thread waits only when the stack accepts. */
  function Call(e: Event, accepted: bool): seq<Act> {
    if accepted then Guarded(e, Handshake(e)) else [Acquire(EventMutex(e)), Release(EventMutex(e))]
  }

  function Calls(e: Event, accepted: seq<bool>): seq<Act> {
    if accepted == [] then [] else Call(e, accepted[0]) + Calls(e, accepted[1..])
  }

  function Times(n: nat, block: seq<Act>): seq<Act> {
    if n == 0 then [] else block + Times(n - 1, block)
  }

  function ServerSections(scanned: seq<nat>): seq<Act> {
    if scanned == [] then [] else ServerSection(scanned[0]) + ServerSections(scanned[1..])
  }

  /** findConnection and removeConn: mMutex held over a scan of the servers' own tables. */
  function TableScan(scanned: seq<nat>): seq<Act> {
    [Acquire(PeerMutex)] + ServerSections(scanned) + [Release(PeerMutex)]
  }

  function UnblockConn(c: ConnId): seq<Act> {
    Guarded(Congestion(c), Notify(Congestion(c))) + Guarded(Read(c), Notify(Read(c)))
  }

  function TakeDown(c: ConnId): seq<Act> { [Invalidate(c)] + UnblockConn(c) }

  function UnblockConns(conns: seq<nat>): seq<Act> {
    if conns == [] then [] else TakeDown(OfServer(conns[0])) + UnblockConns(conns[1..])
  }

  function UnblockAll(sweep: ServerSweep): seq<Act> {
    [Acquire(ServerMutex(sweep.server))] + UnblockConns(sweep.conns) + [Release(ServerMutex(sweep.server))]
  }

  function SweepServers(servers: seq<ServerSweep>): seq<Act> {
    if servers == [] then [] else UnblockAll(servers[0]) + SweepServers(servers[1..])
  }

  function SweepClient(c: ClientSweep): seq<Act> {
    match c
    case Unconnected(k) => Guarded(Connecting(k), Notify(Connecting(k)))
    case Connected(k) => TakeDown(OfClient(k))
  }

  function SweepClients(clients: seq<ClientSweep>): seq<Act> {
    if clients == [] then [] else SweepClient(clients[0]) + SweepClients(clients[1..])
  }

  function NotifyDisconnected(c: ConnId): seq<Act> {
    Guarded(Disconnecting(c), Answer(Disconnecting(c), None))
    + Guarded(Congestion(c), Answer(Congestion(c), None))
    + Guarded(Read(c), Notify(Read(c)))
  }

  /** The disconnect callback's work under mDisconnectMutex. */
  function DiscNotifications(c: ConnId): seq<Act> {
    [Acquire(DisconnectMutex)] + ([Invalidate(c)] + NotifyDisconnected(c)) + [Release(DisconnectMutex)]
  }

  /** disconnectConnOriented once the connection is known and no connect is under way. */
  function Teardown(c: ConnId, request: seq<Act>, removalScan: seq<nat>): seq<Act> {
    UnblockConn(c) + request + ([Acquire(DisconnectMutex)] + TableScan(removalScan) + [Release(DisconnectMutex)])
  }

  /** The connection request is stored in the waiting connection. */
  function Accepting(s: nat, n: nat, h: int): seq<Act> {
    Guarded(ConnRequest(s), Answer(ConnRequest(s), Some(Write(ConnHandle(OfServer(n)), h))))
  }

  function Script(op: Op): seq<Act> {
    match op
    case GetNewJniHandle => [Acquire(HandleMutex), Release(HandleMutex)]
    case RegisterServer(s, outcome) =>
      PeerSection() +
      (match outcome
       case AlreadyRegistered => []
       case NoFreeEntry => []
       case StackRefuses => Call(RegServer(s), false) + PeerSection()
       case NoHandle => Call(RegServer(s), true) + PeerSection()
       case Registered => Call(RegServer(s), true))
    case DeregisterServer(s, known, stops, restart) =>
      PeerSection() +
      (if known then
        Calls(Polling, stops) + (Guarded(ConnRequest(s), Notify(ConnRequest(s)))
                                 + (PeerSection() + Calls(Polling, restart)))
      else [])
    case Accept(s, known, slotFree, gotHandle) =>
      PeerSection() +
      (if !known then []
       else (ServerSection(s) +
         (if !slotFree then []
          else Guarded(ConnRequest(s), Wait(ConnRequest(s))) + (if gotHandle then [] else ServerSection(s)))))
    case CreateClient(k, outcome, scanned) =>
      PeerSection() +
      (match outcome
       case NoFreeClient => []
       case RegistrationRefused => Guarded(Registering(k), WaitRefused(Registering(k))) + TableScan(scanned)
       case NotRegistered => Call(Registering(k), true) + TableScan(scanned)
       case ClientRegistered => Call(Registering(k), true))
    case CreateDataLinkConn(k, outcome, scanned) =>
      PeerSection() +
      (match outcome
       case UnknownClient => []
       case CallRefused => Call(Connecting(k), false) + TableScan(scanned)
       case NotConnected => Call(Connecting(k), true) + TableScan(scanned)
       case ConnectionUp => Call(Connecting(k), true))
    case Send(scanned, c, known, rounds, peerGone) =>
      TableScan(scanned) +
      (if !known then []
       else Times(rounds, Call(Congestion(c), true)) + (if peerGone then [] else Call(Congestion(c), false)))
    case Receive(scanned, c, known, polls) =>
      TableScan(scanned) + (if known then Times(polls, Guarded(Read(c), Wait(Read(c)))) else [])
    case DisconnectConnOriented(scanned, k, c, outcome, removalScan) =>
      TableScan(scanned) +
      (match outcome
       case UnknownConnection => []
       case StillConnecting => PeerSection() + Guarded(Connecting(k), Notify(Connecting(k)))
       case NeverConnected => PeerSection() + Teardown(c, [], removalScan)
       case DisconnectRefused => PeerSection() + Teardown(c, Call(Disconnecting(c), false), removalScan)
       case DisconnectAccepted => PeerSection() + Teardown(c, Call(Disconnecting(c), true), removalScan))
    case FindConnection(scanned) => TableScan(scanned)
    case EnableP2pListening(calls, accepted) => if calls then Call(SetTech, accepted) else []
    case NfcOn => PeerSection()
    case NfcOff(clients, servers) =>
      [Acquire(PeerMutex)] + SweepClients(clients) + SweepServers(servers) + [Release(PeerMutex)]
    case RegServerEvt(s, known, h) =>
      PeerSection() + (if known then Guarded(RegServer(s), Answer(RegServer(s), Some(Write(ServerHandle(s), h))))
                       else [])
    case ConnReqEvt(s, known, waiting, h) =>
      PeerSection() +
      (if !known then []
       else ServerSection(s) + (if waiting.Some? then Accepting(s, waiting.value, h) else []))
    case RegClientEvt(k, known, h) =>
      PeerSection()
      + (if known then Guarded(Registering(k), Answer(Registering(k), Some(Write(ClientHandle(k), h)))) else [])
    case ConnectedEvt(k, known, h) =>
      PeerSection()
      + (if known then Guarded(Connecting(k), Answer(Connecting(k), Some(Write(ConnHandle(OfClient(k)), h)))) else [])
    case DiscEvt(scanned, c) => TableScan(scanned) + DiscNotifications(c)
    case DiscWhileConnectingEvt(scanned, k, known) =>
      TableScan(scanned) + (PeerSection() + (if known then Guarded(Connecting(k), Answer(Connecting(k), None)) else []))
    case DataEvt(scanned, c, known) =>
      TableScan(scanned) + (if known then Guarded(Read(c), Notify(Read(c))) else [])
    case CongestEvt(scanned, c, known, notifies) =>
      TableScan(scanned) + (if known && notifies then Guarded(Congestion(c), Answer(Congestion(c), None)) else [])
    case ActivatedEvt => PeerSection()
    case SetTechEvt => Guarded(SetTech, Answer(SetTech, None))
    case PollingEvt => Guarded(Polling, Answer(Polling, None))
  }

  lemma {:induction false} NfcOffScript(clients: seq<ClientSweep>, servers: seq<ServerSweep>)
    ensures Script(NfcOff(clients, servers))
            == [Acquire(PeerMutex)] + (SweepClients(clients) + SweepServers(servers)) + [Release(PeerMutex)]
  {
    var a, b := SweepClients(clients), SweepServers(servers);
    assert [Acquire(PeerMutex)] + a + b == [Acquire(PeerMutex)] + (a + b);
  }

  /** The handle-carrying answer a callback is there to deliver. */
  function Delivers(op: Op): Option<Event> {
    match op
    case RegServerEvt(s, known, _) => if known then Some(RegServer(s)) else None
    case RegClientEvt(k, known, _) => if known then Some(Registering(k)) else None
    case ConnectedEvt(k, known, _) => if known then Some(Connecting(k)) else None
    case DiscWhileConnectingEvt(_, k, known) => if known then Some(Connecting(k)) else None
    case _ => None
  }

  /** The event on which an operation waits although its request was refused */
  function WaitsRefused(op: Op): Option<Event> {
    if op.CreateClient? && op.creation.RegistrationRefused? then Some(Registering(op.client)) else None
  }

  function Opening(op: Op): Ledger { Ledger({}, Delivers(op), WaitsRefused(op)) }

  // ---- every script follows the discipline ----

  lemma {:induction false} SectionLeads(at: Ledger, l: Lock)
    requires forall h <- at.locks :: Rank(h) < Rank(l)
    ensures Leads(at, [Acquire(l), Release(l)], at)
  {
    var script := [Acquire(l), Release(l)];
    assert l !in at.locks;
    assert at.locks + {l} - {l} == at.locks;
    assert script[1..] == [Release(l)] && [Release(l)][1..] == [];
    assert Leads(at, [], at);
    assert Leads(After(at, Acquire(l)), [Release(l)], at);
  }

  lemma {:induction false} GuardedLeads(at: Ledger, e: Event, a: Act)
    requires forall h <- at.locks :: Rank(h) < MAX_RANK
    requires !a.Acquire? && !a.Release? && Permitted(at.(locks := at.locks + {EventMutex(e)}), a)
    ensures Leads(at, Guarded(e, a), After(at, a))
  {
    var m := EventMutex(e);
    assert m !in at.locks;
    assert at.locks + {m} - {m} == at.locks;
    assert Guarded(e, a)[1..] == [a, Release(m)];
    assert [a, Release(m)][1..] == [Release(m)] && [Release(m)][1..] == [];
    var inside := After(at, Acquire(m));
    assert Leads(After(at, a), [], After(at, a));
    assert Leads(After(inside, a), [Release(m)], After(at, a));
    assert Leads(inside, [a, Release(m)], After(at, a));
  }

  lemma {:induction false} CallLeads(e: Event, accepted: bool)
    requires IsHandshakeEvent(e)
    ensures Leads(NOTHING, Call(e, accepted), NOTHING)
  {
    if accepted {
      assert {} + {EventMutex(e)} == {EventMutex(e)};
      GuardedLeads(NOTHING, e, Handshake(e));
    } else {
      SectionLeads(NOTHING, EventMutex(e));
    }
  }

  lemma {:induction false} CallsLead(e: Event, accepted: seq<bool>)
    requires IsHandshakeEvent(e)
    ensures Leads(NOTHING, Calls(e, accepted), NOTHING)
  {
    if accepted == [] {
    } else {
      CallLeads(e, accepted[0]);
      CallsLead(e, accepted[1..]);
      LeadsConcat(NOTHING, Call(e, accepted[0]), NOTHING, Calls(e, accepted[1..]), NOTHING);
    }
  }

  lemma {:induction false} TimesLead(n: nat, block: seq<Act>)
    requires Leads(NOTHING, block, NOTHING)
    ensures Leads(NOTHING, Times(n, block), NOTHING)
  {
    if n == 0 {
    } else {
      TimesLead(n - 1, block);
      LeadsConcat(NOTHING, block, NOTHING, Times(n - 1, block), NOTHING);
    }
  }

  /** One lock taken around a block that leaves the ledger as it found it. */
  lemma {:induction false} BracketLeads(at: Ledger, l: Lock, body: seq<Act>)
    requires forall h <- at.locks :: Rank(h) < Rank(l)
    requires Leads(After(at, Acquire(l)), body, After(at, Acquire(l)))
    ensures Leads(at, [Acquire(l)] + body + [Release(l)], at)
  {
    var inside := After(at, Acquire(l));
    assert l !in at.locks;
    assert at.locks + {l} - {l} == at.locks;
    assert [Acquire(l)][1..] == [] && [Release(l)][1..] == [];
    assert Leads(inside, [], inside) && Leads(at, [], at);
    assert Leads(at, [Acquire(l)], inside);
    assert Leads(inside, [Release(l)], at);
    LeadsConcat(at, [Acquire(l)], inside, body, inside);
    LeadsConcat(at, [Acquire(l)] + body, inside, [Release(l)], at);
  }

  lemma {:induction false} ServerSectionsLead(at: Ledger, scanned: seq<nat>)
    requires forall h <- at.locks :: Rank(h) < 2
    ensures Leads(at, ServerSections(scanned), at)
  {
    if scanned == [] {
    } else {
      SectionLeads(at, ServerMutex(scanned[0]));
      ServerSectionsLead(at, scanned[1..]);
      LeadsConcat(at, ServerSection(scanned[0]), at, ServerSections(scanned[1..]), at);
    }
  }

  lemma {:induction false} TableScanLeads(at: Ledger, scanned: seq<nat>)
    requires forall h <- at.locks :: Rank(h) < 1
    ensures Leads(at, TableScan(scanned), at)
  {
    ServerSectionsLead(After(at, Acquire(PeerMutex)), scanned);
    BracketLeads(at, PeerMutex, ServerSections(scanned));
  }

  lemma {:induction false} UnblockConnLeads(at: Ledger, c: ConnId)
    requires forall h <- at.locks :: Rank(h) < MAX_RANK
    ensures Leads(at, UnblockConn(c), at)
  {
    GuardedLeads(at, Congestion(c), Notify(Congestion(c)));
    GuardedLeads(at, Read(c), Notify(Read(c)));
    LeadsConcat(at, Guarded(Congestion(c), Notify(Congestion(c))), at, Guarded(Read(c), Notify(Read(c))), at);
  }

  lemma {:induction false} InvalidateLeads(at: Ledger, c: ConnId)
    ensures Leads(at, [Invalidate(c)], at)
  {
    assert [Invalidate(c)][1..] == [];
    assert Leads(at, [], at);
  }

  lemma {:induction false} TakeDownLeads(at: Ledger, c: ConnId)
    requires forall h <- at.locks :: Rank(h) < MAX_RANK
    ensures Leads(at, TakeDown(c), at)
  {
    InvalidateLeads(at, c);
    UnblockConnLeads(at, c);
    LeadsConcat(at, [Invalidate(c)], at, UnblockConn(c), at);
  }

  lemma {:induction false} UnblockConnsLead(at: Ledger, conns: seq<nat>)
    requires forall h <- at.locks :: Rank(h) < MAX_RANK
    ensures Leads(at, UnblockConns(conns), at)
  {
    if conns == [] {
    } else {
      TakeDownLeads(at, OfServer(conns[0]));
      UnblockConnsLead(at, conns[1..]);
      LeadsConcat(at, TakeDown(OfServer(conns[0])), at, UnblockConns(conns[1..]), at);
    }
  }

  const IN_PEER := Ledger({PeerMutex}, None, None)
  const IN_DISCONNECT := Ledger({DisconnectMutex}, None, None)

  lemma {:induction false} SweepServersLead(servers: seq<ServerSweep>)
    ensures Leads(IN_PEER, SweepServers(servers), IN_PEER)
  {
    if servers == [] {
    } else {
      var s := ServerMutex(servers[0].server);
      UnblockConnsLead(After(IN_PEER, Acquire(s)), servers[0].conns);
      BracketLeads(IN_PEER, s, UnblockConns(servers[0].conns));
      SweepServersLead(servers[1..]);
      LeadsConcat(IN_PEER, UnblockAll(servers[0]), IN_PEER, SweepServers(servers[1..]), IN_PEER);
    }
  }

  lemma {:induction false} SweepClientsLead(clients: seq<ClientSweep>)
    ensures Leads(IN_PEER, SweepClients(clients), IN_PEER)
  {
    if clients == [] {
    } else {
      match clients[0] {
        case Unconnected(k) => GuardedLeads(IN_PEER, Connecting(k), Notify(Connecting(k)));
        case Connected(k) => TakeDownLeads(IN_PEER, OfClient(k));
      }
      SweepClientsLead(clients[1..]);
      LeadsConcat(IN_PEER, SweepClient(clients[0]), IN_PEER, SweepClients(clients[1..]), IN_PEER);
    }
  }

  lemma {:induction false} DiscNotificationsLead(c: ConnId)
    ensures Leads(NOTHING, DiscNotifications(c), NOTHING)
  {
    InvalidateLeads(IN_DISCONNECT, c);
    NotifyDisconnectedLeads(c);
    LeadsConcat(IN_DISCONNECT, [Invalidate(c)], IN_DISCONNECT, NotifyDisconnected(c), IN_DISCONNECT);
    assert {} + {DisconnectMutex} == {DisconnectMutex};
    BracketLeads(NOTHING, DisconnectMutex, [Invalidate(c)] + NotifyDisconnected(c));
  }

  lemma {:induction false} NotifyDisconnectedLeads(c: ConnId)
    ensures Leads(IN_DISCONNECT, NotifyDisconnected(c), IN_DISCONNECT)
  {
    var d := IN_DISCONNECT;
    var a := Guarded(Disconnecting(c), Answer(Disconnecting(c), None));
    var b := Guarded(Congestion(c), Answer(Congestion(c), None));
    var r := Guarded(Read(c), Notify(Read(c)));
    GuardedLeads(d, Disconnecting(c), Answer(Disconnecting(c), None));
    GuardedLeads(d, Congestion(c), Answer(Congestion(c), None));
    GuardedLeads(d, Read(c), Notify(Read(c)));
    LeadsConcat(d, a, d, b, d);
    LeadsConcat(d, a + b, d, r, d);
  }

  lemma {:induction false} TeardownLeads(c: ConnId, request: seq<Act>, removalScan: seq<nat>)
    requires Leads(NOTHING, request, NOTHING)
    ensures Leads(NOTHING, Teardown(c, request, removalScan), NOTHING)
  {
    var removal := [Acquire(DisconnectMutex)] + TableScan(removalScan) + [Release(DisconnectMutex)];
    UnblockConnLeads(NOTHING, c);
    TableScanLeads(After(NOTHING, Acquire(DisconnectMutex)), removalScan);
    BracketLeads(NOTHING, DisconnectMutex, TableScan(removalScan));
    LeadsConcat(NOTHING, UnblockConn(c), NOTHING, request, NOTHING);
    LeadsConcat(NOTHING, UnblockConn(c) + request, NOTHING, removal, NOTHING);
  }

  lemma {:induction false} PeerSectionLeads(at: Ledger)
    requires at.locks == {}
    ensures Leads(at, PeerSection(), at)
  {
    SectionLeads(at, PeerMutex);
  }

  /** The scripts of the server calls, of accept, and of connecting. */
  lemma {:induction false} RegistrationScriptLeads(op: Op)
    requires op.RegisterServer? || op.DeregisterServer? || op.Accept? || op.CreateDataLinkConn?
    ensures Disciplined(NOTHING, Script(op))
  {
    var O := NOTHING;
    PeerSectionLeads(O);
    match op {
      case RegisterServer(s, outcome) =>
        CallLeads(RegServer(s), outcome != StackRefuses);
        LeadsConcat(O, Call(RegServer(s), outcome != StackRefuses), O, PeerSection(), O);
        var rest := Script(op)[|PeerSection()|..];
        assert Script(op) == PeerSection() + rest;
        LeadsConcat(O, PeerSection(), O, rest, O);
      case DeregisterServer(s, known, stops, restart) =>
        CallsLead(Polling, stops);
        CallsLead(Polling, restart);
        GuardedLeads(O, ConnRequest(s), Notify(ConnRequest(s)));
        var notify := Guarded(ConnRequest(s), Notify(ConnRequest(s)));
        LeadsConcat(O, PeerSection(), O, Calls(Polling, restart), O);
        LeadsConcat(O, notify, O, PeerSection() + Calls(Polling, restart), O);
        LeadsConcat(O, Calls(Polling, stops), O, notify + (PeerSection() + Calls(Polling, restart)), O);
        LeadsConcat(O, PeerSection(), O,
                    if known then Calls(Polling, stops) + (notify + (PeerSection() + Calls(Polling, restart)))
                       else [], O);
      case Accept(s, known, slotFree, gotHandle) =>
        SectionLeads(O, ServerMutex(s));
        assert {} + {EventMutex(ConnRequest(s))} == {EventMutex(ConnRequest(s))};
        var wait := Guarded(ConnRequest(s), Wait(ConnRequest(s)));
        GuardedLeads(O, ConnRequest(s), Wait(ConnRequest(s)));
        var last := if gotHandle then [] else ServerSection(s);
        LeadsConcat(O, wait, O, last, O);
        var body := if !slotFree then [] else wait + last;
        LeadsConcat(O, ServerSection(s), O, body, O);
        LeadsConcat(O, PeerSection(), O, if !known then [] else ServerSection(s) + body, O);
      case CreateDataLinkConn(k, outcome, scanned) =>
        CallLeads(Connecting(k), outcome != CallRefused);
        TableScanLeads(O, scanned);
        LeadsConcat(O, Call(Connecting(k), outcome != CallRefused), O, TableScan(scanned), O);
        var rest := Script(op)[|PeerSection()|..];
        assert Script(op) == PeerSection() + rest;
        LeadsConcat(O, PeerSection(), O, rest, O);
    }
  }

  /** createClient waits whether or not the stack has accepted the registration. */
  lemma {:induction false} CreateClientScriptLeads(op: Op)
    requires op.CreateClient?
    ensures Disciplined(Opening(op), Script(op))
  {
    var at, e := Opening(op), Registering(op.client);
    var scan := TableScan(op.scanned);
    PeerSectionLeads(at);
    TableScanLeads(NOTHING, op.scanned);
    CallLeads(e, true);
    assert {} + {EventMutex(e)} == {EventMutex(e)};
    if op.creation.RegistrationRefused? {
      GuardedLeads(at, e, WaitRefused(e));
      LeadsConcat(at, Guarded(e, WaitRefused(e)), NOTHING, scan, NOTHING);
    } else {
      LeadsConcat(NOTHING, Call(e, true), NOTHING, scan, NOTHING);
    }
    var rest := Script(op)[|PeerSection()|..];
    assert Script(op) == PeerSection() + rest;
    LeadsConcat(at, PeerSection(), at, rest, NOTHING);
  }

  lemma {:induction false} DisconnectScriptLeads(op: Op)
    requires op.DisconnectConnOriented?
    ensures Disciplined(NOTHING, Script(op))
  {
    var DisconnectConnOriented(scanned, k, c, outcome, removalScan) := op;
    var O := NOTHING;
    PeerSectionLeads(O);
    TableScanLeads(O, scanned);
    GuardedLeads(O, Connecting(k), Notify(Connecting(k)));
    CallLeads(Disconnecting(c), outcome == DisconnectAccepted);
    var request := if outcome == NeverConnected then [] else Call(Disconnecting(c), outcome == DisconnectAccepted);
    assert Leads(O, request, O);
    TeardownLeads(c, request, removalScan);
    var tail := if outcome == StillConnecting then Guarded(Connecting(k), Notify(Connecting(k)))
                else Teardown(c, request, removalScan);
    LeadsConcat(O, PeerSection(), O, tail, O);
    var rest := if outcome == UnknownConnection then [] else PeerSection() + tail;
    assert Leads(O, rest, O);
    LeadsConcat(O, TableScan(scanned), O, rest, O);
    assert Script(op) == TableScan(scanned) + rest;
  }

  lemma {:induction false} NfcOffScriptLeads(op: Op)
    requires op.NfcOff?
    ensures Disciplined(NOTHING, Script(op))
  {
    var a, b := SweepClients(op.clients), SweepServers(op.servers);
    SweepClientsLead(op.clients);
    SweepServersLead(op.servers);
    LeadsConcat(IN_PEER, a, IN_PEER, b, IN_PEER);
    assert {} + {PeerMutex} == {PeerMutex};
    BracketLeads(NOTHING, PeerMutex, a + b);
    NfcOffScript(op.clients, op.servers);
  }

  lemma {:induction false} SendScriptLeads(op: Op)
    requires op.Send?
    ensures Disciplined(NOTHING, Script(op))
  {
    var O := NOTHING;
    var call := Call(Congestion(op.conn), true);
    TableScanLeads(O, op.scanned);
    CallLeads(Congestion(op.conn), true);
    CallLeads(Congestion(op.conn), false);
    TimesLead(op.congestedRounds, call);
    var last := if op.peerGone then [] else Call(Congestion(op.conn), false);
    LeadsConcat(O, Times(op.congestedRounds, call), O, last, O);
    LeadsConcat(O, TableScan(op.scanned), O, if !op.known then [] else Times(op.congestedRounds, call) + last, O);
  }

  lemma {:induction false} ReceiveScriptLeads(op: Op)
    requires op.Receive?
    ensures Disciplined(NOTHING, Script(op))
  {
    var e := Read(op.conn);
    TableScanLeads(NOTHING, op.scanned);
    assert {} + {EventMutex(e)} == {EventMutex(e)};
    GuardedLeads(NOTHING, e, Wait(e));
    TimesLead(op.polls, Guarded(e, Wait(e)));
    LeadsConcat(NOTHING, TableScan(op.scanned), NOTHING,
                if op.known then Times(op.polls, Guarded(e, Wait(e))) else [], NOTHING);
  }

  /** The callbacks that deliver a handle, or the news that a connect has failed. */
  lemma {:induction false} DeliveryScriptLeads(op: Op)
    requires op.RegServerEvt? || op.RegClientEvt? || op.ConnectedEvt? || op.DiscWhileConnectingEvt?
    ensures Disciplined(Opening(op), Script(op))
  {
    var at := Opening(op);
    var (e, w) := match op
      case RegServerEvt(s, _, h) => (RegServer(s), Some(Write(ServerHandle(s), h)))
      case RegClientEvt(k, _, h) => (Registering(k), Some(Write(ClientHandle(k), h)))
      case ConnectedEvt(k, _, h) => (Connecting(k), Some(Write(ConnHandle(OfClient(k)), h)))
      case DiscWhileConnectingEvt(_, k, _) => (Connecting(k), None);
    var answer := if op.known then Guarded(e, Answer(e, w)) else [];
    PeerSectionLeads(at);
    if op.known { GuardedLeads(at, e, Answer(e, w)); }
    LeadsConcat(at, PeerSection(), at, answer, NOTHING);
    if op.DiscWhileConnectingEvt? {
      TableScanLeads(at, op.scanned);
      LeadsConcat(at, TableScan(op.scanned), at, PeerSection() + answer, NOTHING);
    }
  }

  lemma {:induction false} ConnReqScriptLeads(op: Op)
    requires op.ConnReqEvt?
    ensures Disciplined(NOTHING, Script(op))
  {
    var ConnReqEvt(s, known, waiting, h) := op;
    var answer := if waiting.Some? then Accepting(s, waiting.value, h) else [];
    PeerSectionLeads(NOTHING);
    if waiting.Some? {
      var w := Write(ConnHandle(OfServer(waiting.value)), h);
      GuardedLeads(NOTHING, ConnRequest(s), Answer(ConnRequest(s), Some(w)));
    }
    SectionLeads(NOTHING, ServerMutex(s));
    LeadsConcat(NOTHING, ServerSection(s), NOTHING, answer, NOTHING);
    LeadsConcat(NOTHING, PeerSection(), NOTHING, if known then ServerSection(s) + answer else [], NOTHING);
  }

  lemma {:induction false} DiscScriptLeads(op: Op)
    requires op.DiscEvt?
    ensures Disciplined(NOTHING, Script(op))
  {
    TableScanLeads(NOTHING, op.scanned);
    DiscNotificationsLead(op.conn);
    LeadsConcat(NOTHING, TableScan(op.scanned), NOTHING, DiscNotifications(op.conn), NOTHING);
  }

  lemma {:induction false} TrafficScriptLeads(op: Op)
    requires op.DataEvt? || op.CongestEvt?
    ensures Disciplined(NOTHING, Script(op))
  {
    var e := if op.DataEvt? then Read(op.conn) else Congestion(op.conn);
    var notice := if op.DataEvt? then Notify(e) else Answer(e, None);
    var heard := op.known && (op.CongestEvt? ==> op.notifies);
    TableScanLeads(NOTHING, op.scanned);
    GuardedLeads(NOTHING, e, notice);
    LeadsConcat(NOTHING, TableScan(op.scanned), NOTHING, if heard then Guarded(e, notice) else [], NOTHING);
  }

  lemma {:induction false} NoticeScriptLeads(op: Op)
    requires op.ActivatedEvt? || op.SetTechEvt? || op.PollingEvt?
    ensures Disciplined(NOTHING, Script(op))
  {
    match op {
      case ActivatedEvt => PeerSectionLeads(NOTHING);
      case SetTechEvt => GuardedLeads(NOTHING, SetTech, Answer(SetTech, None));
      case PollingEvt => GuardedLeads(NOTHING, Polling, Answer(Polling, None));
    }
  }

  /** Every operation and callback takes its locks in increasing rank, waits holding nothing but the mutex
      of the event it waits on, notifies under that event's mutex, releases everything, and answers a
      request for a handle only where that is what it is for, once. */
  lemma {:induction false} EveryOperationDisciplined(op: Op)
    ensures Disciplined(Opening(op), Script(op))
  {
    match op {
      case GetNewJniHandle => SectionLeads(NOTHING, HandleMutex);
      case RegisterServer(_, _) => RegistrationScriptLeads(op);
      case DeregisterServer(_, _, _, _) => RegistrationScriptLeads(op);
      case Accept(_, _, _, _) => RegistrationScriptLeads(op);
      case CreateClient(_, _, _) => CreateClientScriptLeads(op);
      case CreateDataLinkConn(_, _, _) => RegistrationScriptLeads(op);
      case Send(_, _, _, _, _) => SendScriptLeads(op);
      case Receive(_, _, _, _) => ReceiveScriptLeads(op);
      case DisconnectConnOriented(_, _, _, _, _) => DisconnectScriptLeads(op);
      case FindConnection(scanned) => TableScanLeads(NOTHING, scanned);
      case EnableP2pListening(calls, accepted) => CallLeads(SetTech, accepted);
      case NfcOn => PeerSectionLeads(NOTHING);
      case NfcOff(_, _) => NfcOffScriptLeads(op);
      case RegServerEvt(_, _, _) => DeliveryScriptLeads(op);
      case RegClientEvt(_, _, _) => DeliveryScriptLeads(op);
      case ConnectedEvt(_, _, _) => DeliveryScriptLeads(op);
      case DiscWhileConnectingEvt(_, _, _) => DeliveryScriptLeads(op);
      case ConnReqEvt(_, _, _, _) => ConnReqScriptLeads(op);
      case DiscEvt(_, _) => DiscScriptLeads(op);
      case DataEvt(_, _, _) => TrafficScriptLeads(op);
      case CongestEvt(_, _, _, _) => TrafficScriptLeads(op);
      case _ => NoticeScriptLeads(op);
    }
  }
}
