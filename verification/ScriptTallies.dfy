/** Every script of PeerToPeer.cpp amounts to exactly what the operation is there for. */
module ScriptTallies {
  import opened Options
  import opened Monitors
  import opened PeerScripts
  import opened ThreadMachine
  import opened ThreadTraces
  import opened OperationPurposes

  // ---- what operations come to, one after the other ----

  /** A notification of the event under its mutex, counted */
  function Rung(e: Event, p: Probe): int { One(p == Rings(e)) + One(p == Takes(EventMutex(e))) }

  function Visited(scanned: seq<nat>, p: Probe): int {
    if p.Takes? && p.lock.ServerMutex? then multiset(scanned)[p.lock.server] else 0
  }

  function Section(m: Lock, p: Probe): int { One(p == Takes(m)) }

  function Peer(p: Probe): int { Section(PeerMutex, p) }

  function Slept(e: Event, p: Probe): int { One(p == Naps(e)) + One(p == Takes(EventMutex(e))) }

  function SleptTimes(e: Event, n: nat, p: Probe): int { if p == Naps(e) || p == Takes(EventMutex(e)) then n else 0 }

  function Called(e: Event, accepted: bool, p: Probe): int {
    One(p == Takes(EventMutex(e))) + One(accepted && p == Naps(e))
  }

  function Scanned(scanned: seq<nat>, p: Probe): int { Peer(p) + Visited(scanned, p) }

  function AllCalled(e: Event, accepted: seq<bool>, p: Probe): int {
    if p == Naps(e) then Count(accepted, true)
    else if p == Takes(EventMutex(e)) then Count(accepted, true) + Count(accepted, false) else 0
  }

  function Replied(e: Event, w: Option<Write>, p: Probe): int {
    Rung(e, p) + One(p == Replies(e)) + One(p.Stores? && w == Some(p.write))
  }

  function Downed(c: ConnId, p: Probe): int { One(p == Stores(Write(ConnHandle(c), INVALID))) }

  function TakenDown(c: ConnId, p: Probe): int { Downed(c, p) + Rung(Congestion(c), p) + Rung(Read(c), p) }

  function ClientsSwept(clients: seq<ClientSweep>, p: Probe): int {
    if clients == [] then 0
    else (match clients[0]
          case Unconnected(k) => Rung(Connecting(k), p)
          case Connected(k) => TakenDown(OfClient(k), p))
         + ClientsSwept(clients[1..], p)
  }

  function ConnsSwept(conns: seq<nat>, p: Probe): int {
    if conns == [] then 0 else TakenDown(OfServer(conns[0]), p) + ConnsSwept(conns[1..], p)
  }

  function ServersSwept(servers: seq<ServerSweep>, p: Probe): int {
    if servers == [] then 0
    else Section(ServerMutex(servers[0].server), p) + ConnsSwept(servers[0].conns, p) + ServersSwept(servers[1..], p)
  }

  function TornDown(c: ConnId, removal: seq<nat>, p: Probe): int {
    Rung(Congestion(c), p) + Rung(Read(c), p) + Section(DisconnectMutex, p) + Scanned(removal, p)
  }

  /** So many rounds of waiting, and then a call that goes through unless the peer is gone */
  function Sent(e: Event, rounds: nat, peerGone: bool, p: Probe): int {
    SleptTimes(e, rounds, p) + if peerGone then 0 else Called(e, false, p)
  }

  /** What a call's instructions come to */
  function CallShape(op: Op, p: Probe): int {
    match op
    case GetNewJniHandle => Section(HandleMutex, p)
    case RegisterServer(s, outcome) =>
      Peer(p) + (match outcome
                 case StackRefuses => Called(RegServer(s), false, p) + Peer(p)
                 case NoHandle => Called(RegServer(s), true, p) + Peer(p)
                 case Registered => Called(RegServer(s), true, p)
                 case _ => 0)
    case DeregisterServer(s, known, stops, restart) =>
      Peer(p) + if !known then 0
                else AllCalled(Polling, stops, p) + Rung(ConnRequest(s), p) + Peer(p) + AllCalled(Polling, restart, p)
    case Accept(s, known, slotFree, gotHandle) =>
      Peer(p) + (if !known then 0
                 else Section(ServerMutex(s), p)
                      + if !slotFree then 0
                        else Slept(ConnRequest(s), p) + if gotHandle then 0 else Section(ServerMutex(s), p))
    case CreateClient(k, outcome, scanned) =>
      Peer(p) + (match outcome
                 case NoFreeClient => 0
                 case ClientRegistered => Slept(Registering(k), p)
                 case _ => Slept(Registering(k), p) + Scanned(scanned, p))
    case CreateDataLinkConn(k, outcome, scanned) =>
      Peer(p) + (match outcome
                 case UnknownClient => 0
                 case CallRefused => Called(Connecting(k), false, p) + Scanned(scanned, p)
                 case NotConnected => Slept(Connecting(k), p) + Scanned(scanned, p)
                 case ConnectionUp => Slept(Connecting(k), p))
    case Send(scanned, c, known, rounds, peerGone) =>
      Scanned(scanned, p) + if !known then 0 else Sent(Congestion(c), rounds, peerGone, p)
    case Receive(scanned, c, known, polls) => Scanned(scanned, p) + if known then SleptTimes(Read(c), polls, p) else 0
    case DisconnectConnOriented(scanned, k, c, outcome, removal) =>
      Scanned(scanned, p) + (match outcome
                             case UnknownConnection => 0
                             case StillConnecting => Peer(p) + Rung(Connecting(k), p)
                             case NeverConnected => Peer(p) + TornDown(c, removal, p)
                             case DisconnectRefused =>
                               Peer(p) + TornDown(c, removal, p) + Called(Disconnecting(c), false, p)
                             case DisconnectAccepted => Peer(p) + TornDown(c, removal, p) + Slept(Disconnecting(c), p))
    case FindConnection(scanned) => Scanned(scanned, p)
    case EnableP2pListening(calls, accepted) => if calls then Called(SetTech, accepted, p) else 0
    case NfcOff(clients, servers) => Peer(p) + ClientsSwept(clients, p) + ServersSwept(servers, p)
    case _ => Peer(p)
  }

  predicate IsCallback(op: Op) {
    op.RegServerEvt? || op.RegClientEvt? || op.ConnectedEvt? || op.ConnReqEvt? || op.DiscEvt?
    || op.DiscWhileConnectingEvt? || op.DataEvt? || op.CongestEvt? || op.SetTechEvt? || op.PollingEvt?
  }

  /** ... and a callback's */
  function CallbackShape(op: Op, p: Probe): int
    requires IsCallback(op)
  {
    match op
    case RegServerEvt(s, known, h) =>
      Peer(p) + if known then Replied(RegServer(s), Some(Write(ServerHandle(s), h)), p) else 0
    case RegClientEvt(k, known, h) =>
      Peer(p) + if known then Replied(Registering(k), Some(Write(ClientHandle(k), h)), p) else 0
    case ConnectedEvt(k, known, h) =>
      Peer(p) + if known then Replied(Connecting(k), Some(Write(ConnHandle(OfClient(k)), h)), p) else 0
    case ConnReqEvt(s, known, waiting, h) =>
      Peer(p) + if !known then 0
                else Section(ServerMutex(s), p)
                     + if waiting.None? then 0
                       else Replied(ConnRequest(s), Some(Write(ConnHandle(OfServer(waiting.value)), h)), p)
    case DiscEvt(scanned, c) =>
      Scanned(scanned, p) + Section(DisconnectMutex, p) + Downed(c, p) + Replied(Disconnecting(c), None, p)
      + Replied(Congestion(c), None, p) + Rung(Read(c), p)
    case DiscWhileConnectingEvt(scanned, k, known) =>
      Scanned(scanned, p) + Peer(p) + if known then Replied(Connecting(k), None, p) else 0
    case DataEvt(scanned, c, known) => Scanned(scanned, p) + if known then Rung(Read(c), p) else 0
    case CongestEvt(scanned, c, known, notifies) =>
      Scanned(scanned, p) + if known && notifies then Replied(Congestion(c), None, p) else 0
    case SetTechEvt => Replied(SetTech, None, p)
    case PollingEvt => Replied(Polling, None, p)
  }



  // ---- what blocks come to ----

  lemma {:induction false} SectionTally(l: Lock, p: Probe)
    ensures Tally([Acquire(l), Release(l)], p) == Section(l, p)
  {
    assert [Acquire(l), Release(l)] == [Acquire(l)] + [Release(l)];
    TallyOfBoth([Acquire(l)], [Release(l)], p);
    TallyOfOne(Acquire(l), p);
    TallyOfOne(Release(l), p);
  }

  lemma {:induction false} BracketTally(l: Lock, body: seq<Act>, p: Probe)
    ensures Tally([Acquire(l)] + body + [Release(l)], p) == Section(l, p) + Tally(body, p)
  {
    TallyOfBoth([Acquire(l)] + body, [Release(l)], p);
    TallyOfBoth([Acquire(l)], body, p);
    TallyOfOne(Acquire(l), p);
    TallyOfOne(Release(l), p);
  }

  lemma {:induction false} GuardedTally(e: Event, a: Act, p: Probe)
    ensures Tally(Guarded(e, a), p) == Section(EventMutex(e), p) + One(Counts(a, p))
  {
    assert Guarded(e, a) == [Acquire(EventMutex(e))] + [a] + [Release(EventMutex(e))];
    BracketTally(EventMutex(e), [a], p);
    TallyOfOne(a, p);
  }

  lemma {:induction false} RungTally(e: Event, p: Probe)
    ensures Tally(Guarded(e, Notify(e)), p) == Rung(e, p)
  {
    GuardedTally(e, Notify(e), p);
  }

  lemma {:induction false} ReplyTally(e: Event, w: Option<Write>, p: Probe)
    ensures Tally(Guarded(e, Answer(e, w)), p) == Replied(e, w, p)
  {
    GuardedTally(e, Answer(e, w), p);
  }

  lemma {:induction false} SleepTally(e: Event, a: Act, p: Probe)
    requires Pauses(a) && a.event == e
    ensures Tally(Guarded(e, a), p) == Slept(e, p)
  {
    GuardedTally(e, a, p);
  }

  lemma {:induction false} SleepsTally(e: Event, a: Act, n: nat, p: Probe)
    requires Pauses(a) && a.event == e
    ensures Tally(Times(n, Guarded(e, a)), p) == SleptTimes(e, n, p)
  {
    if n == 0 {
    } else {
      SleepTally(e, a, p);
      SleepsTally(e, a, n - 1, p);
      TallyOfBoth(Guarded(e, a), Times(n - 1, Guarded(e, a)), p);
    }
  }

  lemma {:induction false} CallTally(e: Event, accepted: bool, p: Probe)
    ensures Tally(Call(e, accepted), p) == Called(e, accepted, p)
  {
    if accepted { GuardedTally(e, Handshake(e), p); } else { SectionTally(EventMutex(e), p); }
  }

  lemma {:induction false} CountFirst(calls: seq<bool>, x: bool)
    requires calls != []
    ensures Count(calls, x) == One(calls[0] == x) + Count(calls[1..], x)
  {
    assert calls == [calls[0]] + calls[1..];
  }

  lemma {:induction false} CallsTally(e: Event, accepted: seq<bool>, p: Probe)
    ensures Tally(Calls(e, accepted), p) == AllCalled(e, accepted, p)
  {
    if accepted == [] {
    } else {
      CallTally(e, accepted[0], p);
      CallsTally(e, accepted[1..], p);
      TallyOfBoth(Call(e, accepted[0]), Calls(e, accepted[1..]), p);
      CountFirst(accepted, true);
      CountFirst(accepted, false);
    }
  }

  lemma {:induction false} VisitedFirst(scanned: seq<nat>, p: Probe)
    requires scanned != []
    ensures Visited(scanned, p) == Section(ServerMutex(scanned[0]), p) + Visited(scanned[1..], p)
  {
    assert scanned == [scanned[0]] + scanned[1..];
  }

  lemma {:induction false} ServerSectionsTally(scanned: seq<nat>, p: Probe)
    ensures Tally(ServerSections(scanned), p) == Visited(scanned, p)
  {
    if scanned == [] {
    } else {
      SectionTally(ServerMutex(scanned[0]), p);
      ServerSectionsTally(scanned[1..], p);
      TallyOfBoth(ServerSection(scanned[0]), ServerSections(scanned[1..]), p);
      VisitedFirst(scanned, p);
    }
  }

  lemma {:induction false} TableScanTally(scanned: seq<nat>, p: Probe)
    ensures Tally(TableScan(scanned), p) == Scanned(scanned, p)
  {
    BracketTally(PeerMutex, ServerSections(scanned), p);
    ServerSectionsTally(scanned, p);
  }

  lemma {:induction false} UnblockTally(c: ConnId, p: Probe)
    ensures Tally(UnblockConn(c), p) == Rung(Congestion(c), p) + Rung(Read(c), p)
  {
    RungTally(Congestion(c), p);
    RungTally(Read(c), p);
    TallyOfBoth(Guarded(Congestion(c), Notify(Congestion(c))), Guarded(Read(c), Notify(Read(c))), p);
  }

  lemma {:induction false} TakeDownTally(c: ConnId, p: Probe)
    ensures Tally(TakeDown(c), p) == TakenDown(c, p)
  {
    TallyOfOne(Invalidate(c), p);
    UnblockTally(c, p);
    TallyOfBoth([Invalidate(c)], UnblockConn(c), p);
  }

  lemma {:induction false} ConnsSweptTally(conns: seq<nat>, p: Probe)
    ensures Tally(UnblockConns(conns), p) == ConnsSwept(conns, p)
  {
    if conns == [] {
    } else {
      TakeDownTally(OfServer(conns[0]), p);
      ConnsSweptTally(conns[1..], p);
      TallyOfBoth(TakeDown(OfServer(conns[0])), UnblockConns(conns[1..]), p);
    }
  }

  lemma {:induction false} ServersSweptTally(servers: seq<ServerSweep>, p: Probe)
    ensures Tally(SweepServers(servers), p) == ServersSwept(servers, p)
  {
    if servers == [] {
    } else {
      ConnsSweptTally(servers[0].conns, p);
      BracketTally(ServerMutex(servers[0].server), UnblockConns(servers[0].conns), p);
      ServersSweptTally(servers[1..], p);
      TallyOfBoth(UnblockAll(servers[0]), SweepServers(servers[1..]), p);
    }
  }

  lemma {:induction false} ClientsSweptTally(clients: seq<ClientSweep>, p: Probe)
    ensures Tally(SweepClients(clients), p) == ClientsSwept(clients, p)
  {
    if clients == [] {
    } else {
      match clients[0] {
        case Unconnected(k) => RungTally(Connecting(k), p);
        case Connected(k) => TakeDownTally(OfClient(k), p);
      }
      ClientsSweptTally(clients[1..], p);
      TallyOfBoth(SweepClient(clients[0]), SweepClients(clients[1..]), p);
    }
  }

  lemma {:induction false} TeardownTally(c: ConnId, request: seq<Act>, removal: seq<nat>, p: Probe)
    ensures Tally(Teardown(c, request, removal), p) == TornDown(c, removal, p) + Tally(request, p)
  {
    UnblockTally(c, p);
    TallyOfBoth(UnblockConn(c), request, p);
    TableScanTally(removal, p);
    BracketTally(DisconnectMutex, TableScan(removal), p);
    var removing := [Acquire(DisconnectMutex)] + TableScan(removal) + [Release(DisconnectMutex)];
    TallyOfBoth(UnblockConn(c) + request, removing, p);
  }

  lemma {:induction false} NotifyDisconnectedTally(c: ConnId, p: Probe)
    ensures Tally(NotifyDisconnected(c), p)
            == Replied(Disconnecting(c), None, p) + Replied(Congestion(c), None, p) + Rung(Read(c), p)
  {
    var a := Guarded(Disconnecting(c), Answer(Disconnecting(c), None));
    var b := Guarded(Congestion(c), Answer(Congestion(c), None));
    ReplyTally(Disconnecting(c), None, p);
    ReplyTally(Congestion(c), None, p);
    RungTally(Read(c), p);
    TallyOfBoth(a + b, Guarded(Read(c), Notify(Read(c))), p);
    TallyOfBoth(a, b, p);
  }

  // ---- every script comes to its shape ----

  lemma {:induction false} AfterPeer(rest: seq<Act>, p: Probe)
    ensures Tally(PeerSection() + rest, p) == Peer(p) + Tally(rest, p)
  {
    SectionTally(PeerMutex, p);
    TallyOfBoth(PeerSection(), rest, p);
  }

  lemma {:induction false} AfterScan(scanned: seq<nat>, rest: seq<Act>, p: Probe)
    ensures Tally(TableScan(scanned) + rest, p) == Scanned(scanned, p) + Tally(rest, p)
  {
    TableScanTally(scanned, p);
    TallyOfBoth(TableScan(scanned), rest, p);
  }

  lemma {:induction false} RegisterServerTally(op: Op, p: Probe)
    requires op.RegisterServer?
    ensures Tally(Script(op), p) == CallShape(op, p)
  {
    var RegisterServer(s, outcome) := op;
    var call := Call(RegServer(s), !outcome.StackRefuses?);
    CallTally(RegServer(s), !outcome.StackRefuses?, p);
    SectionTally(PeerMutex, p);
    TallyOfBoth(call, PeerSection(), p);
    var rest := Script(op)[|PeerSection()|..];
    assert Script(op) == PeerSection() + rest;
    AfterPeer(rest, p);
  }

  lemma {:induction false} DeregisterServerTally(op: Op, p: Probe)
    requires op.DeregisterServer?
    ensures Tally(Script(op), p) == CallShape(op, p)
  {
    var DeregisterServer(s, known, stops, restart) := op;
    var notify := Guarded(ConnRequest(s), Notify(ConnRequest(s)));
    CallsTally(Polling, stops, p);
    CallsTally(Polling, restart, p);
    RungTally(ConnRequest(s), p);
    var last := PeerSection() + Calls(Polling, restart);
    AfterPeer(Calls(Polling, restart), p);
    TallyOfBoth(notify, last, p);
    TallyOfBoth(Calls(Polling, stops), notify + last, p);
    AfterPeer(if known then Calls(Polling, stops) + (notify + last) else [], p);
  }

  lemma {:induction false} AcceptTally(op: Op, p: Probe)
    requires op.Accept?
    ensures Tally(Script(op), p) == CallShape(op, p)
  {
    var Accept(s, known, slotFree, gotHandle) := op;
    var wait, last := Guarded(ConnRequest(s), Wait(ConnRequest(s))), if gotHandle then [] else ServerSection(s);
    var body := if !slotFree then [] else wait + last;
    SectionTally(ServerMutex(s), p);
    SleepTally(ConnRequest(s), Wait(ConnRequest(s)), p);
    TallyOfBoth(wait, last, p);
    TallyOfBoth(ServerSection(s), body, p);
    AfterPeer(if !known then [] else ServerSection(s) + body, p);
  }

  lemma {:induction false} CreateClientTally(op: Op, p: Probe)
    requires op.CreateClient?
    ensures Tally(Script(op), p) == CallShape(op, p)
  {
    var e := Registering(op.client);
    SleepTally(e, WaitRefused(e), p);
    CallTally(e, true, p);
    TableScanTally(op.scanned, p);
    TallyOfBoth(Guarded(e, WaitRefused(e)), TableScan(op.scanned), p);
    TallyOfBoth(Call(e, true), TableScan(op.scanned), p);
    var rest := Script(op)[|PeerSection()|..];
    assert Script(op) == PeerSection() + rest;
    AfterPeer(rest, p);
  }

  lemma {:induction false} CreateDataLinkConnTally(op: Op, p: Probe)
    requires op.CreateDataLinkConn?
    ensures Tally(Script(op), p) == CallShape(op, p)
  {
    var CreateDataLinkConn(k, outcome, scanned) := op;
    var call := Call(Connecting(k), !outcome.CallRefused?);
    CallTally(Connecting(k), !outcome.CallRefused?, p);
    TableScanTally(scanned, p);
    TallyOfBoth(call, TableScan(scanned), p);
    var rest := Script(op)[|PeerSection()|..];
    assert Script(op) == PeerSection() + rest;
    AfterPeer(rest, p);
  }

  function SentScript(e: Event, rounds: nat, peerGone: bool): seq<Act> {
    Times(rounds, Call(e, true)) + if peerGone then [] else Call(e, false)
  }

  lemma {:induction false} SentTally(e: Event, rounds: nat, peerGone: bool, p: Probe)
    ensures Tally(SentScript(e, rounds, peerGone), p) == Sent(e, rounds, peerGone, p)
  {
    CallTally(e, false, p);
    SleepsTally(e, Handshake(e), rounds, p);
    TallyOfBoth(Times(rounds, Call(e, true)), if peerGone then [] else Call(e, false), p);
  }

  lemma {:induction false} SendScript(op: Op)
    requires op.Send?
    ensures Script(op) == TableScan(op.scanned) + if !op.known then []
                                                  else SentScript(Congestion(op.conn), op.congestedRounds, op.peerGone)
  {
  }

  lemma {:induction false} SendTally(op: Op, p: Probe)
    requires op.Send?
    ensures Tally(Script(op), p) == CallShape(op, p)
  {
    var e := Congestion(op.conn);
    SendScript(op);
    SentTally(e, op.congestedRounds, op.peerGone, p);
    AfterScan(op.scanned, if !op.known then [] else SentScript(e, op.congestedRounds, op.peerGone), p);
  }

  lemma {:induction false} ReceiveTally(op: Op, p: Probe)
    requires op.Receive?
    ensures Tally(Script(op), p) == CallShape(op, p)
  {
    var e := Read(op.conn);
    SleepsTally(e, Wait(e), op.polls, p);
    AfterScan(op.scanned, if op.known then Times(op.polls, Guarded(e, Wait(e))) else [], p);
  }

  lemma {:induction false} EarlyDisconnectTally(op: Op, p: Probe)
    requires op.DisconnectConnOriented? && !Unblocks(op.disconnect)
    ensures Tally(Script(op), p) == CallShape(op, p)
  {
    var e := Connecting(op.client);
    var notify := Guarded(e, Notify(e));
    RungTally(e, p);
    AfterPeer(notify, p);
    AfterScan(op.scanned, if op.disconnect.StillConnecting? then PeerSection() + notify else [], p);
  }

  lemma {:induction false} DisconnectTally(op: Op, p: Probe)
    requires op.DisconnectConnOriented? && Unblocks(op.disconnect)
    ensures Tally(Script(op), p) == CallShape(op, p)
  {
    var c, accepted := op.conn, op.disconnect.DisconnectAccepted?;
    var request := if op.disconnect.NeverConnected? then [] else Call(Disconnecting(c), accepted);
    var rest := PeerSection() + Teardown(c, request, op.removalScan);
    CallTally(Disconnecting(c), accepted, p);
    TeardownTally(c, request, op.removalScan, p);
    AfterPeer(Teardown(c, request, op.removalScan), p);
    AfterScan(op.scanned, rest, p);
    assert Script(op) == TableScan(op.scanned) + rest;
  }

  lemma {:induction false} SweepsTally(clients: seq<ClientSweep>, servers: seq<ServerSweep>, p: Probe)
    ensures Tally([Acquire(PeerMutex)] + (SweepClients(clients) + SweepServers(servers)) + [Release(PeerMutex)], p)
            == Peer(p) + ClientsSwept(clients, p) + ServersSwept(servers, p)
  {
    ClientsSweptTally(clients, p);
    ServersSweptTally(servers, p);
    TallyOfBoth(SweepClients(clients), SweepServers(servers), p);
    BracketTally(PeerMutex, SweepClients(clients) + SweepServers(servers), p);
  }

  lemma {:induction false} NfcOffTally(op: Op, p: Probe)
    requires op.NfcOff?
    ensures Tally(Script(op), p) == CallShape(op, p)
  {
    NfcOffScript(op.clients, op.servers);
    SweepsTally(op.clients, op.servers, p);
  }

  lemma {:induction false} ReplyAfterPeer(e: Event, w: Option<Write>, known: bool, p: Probe)
    ensures Tally(PeerSection() + (if known then Guarded(e, Answer(e, w)) else []), p)
            == Peer(p) + if known then Replied(e, w, p) else 0
  {
    ReplyTally(e, w, p);
    AfterPeer(if known then Guarded(e, Answer(e, w)) else [], p);
  }

  lemma {:induction false} DeliveryTally(op: Op, p: Probe)
    requires op.RegServerEvt? || op.RegClientEvt? || op.ConnectedEvt?
    ensures Tally(Script(op), p) == CallbackShape(op, p)
  {
    match op {
      case RegServerEvt(s, known, h) => ReplyAfterPeer(RegServer(s), Some(Write(ServerHandle(s), h)), known, p);
      case RegClientEvt(k, known, h) => ReplyAfterPeer(Registering(k), Some(Write(ClientHandle(k), h)), known, p);
      case ConnectedEvt(k, known, h) =>
        ReplyAfterPeer(Connecting(k), Some(Write(ConnHandle(OfClient(k)), h)), known, p);
    }
  }

  lemma {:induction false} ConnReqTally(op: Op, p: Probe)
    requires op.ConnReqEvt?
    ensures Tally(Script(op), p) == CallbackShape(op, p)
  {
    var ConnReqEvt(s, known, waiting, h) := op;
    var answer := if waiting.Some? then Accepting(s, waiting.value, h) else [];
    SectionTally(ServerMutex(s), p);
    if waiting.Some? { ReplyTally(ConnRequest(s), Some(Write(ConnHandle(OfServer(waiting.value)), h)), p); }
    TallyOfBoth(ServerSection(s), answer, p);
    AfterPeer(if known then ServerSection(s) + answer else [], p);
  }

  lemma {:induction false} DiscTally(op: Op, p: Probe)
    requires op.DiscEvt?
    ensures Tally(Script(op), p) == CallbackShape(op, p)
  {
    var c := op.conn;
    TallyOfOne(Invalidate(c), p);
    NotifyDisconnectedTally(c, p);
    TallyOfBoth([Invalidate(c)], NotifyDisconnected(c), p);
    BracketTally(DisconnectMutex, [Invalidate(c)] + NotifyDisconnected(c), p);
    AfterScan(op.scanned, DiscNotifications(c), p);
  }

  lemma {:induction false} DiscWhileConnectingTally(op: Op, p: Probe)
    requires op.DiscWhileConnectingEvt?
    ensures Tally(Script(op), p) == CallbackShape(op, p)
  {
    var e := Connecting(op.client);
    ReplyAfterPeer(e, None, op.known, p);
    AfterScan(op.scanned, PeerSection() + if op.known then Guarded(e, Answer(e, None)) else [], p);
  }

  lemma {:induction false} DataTally(op: Op, p: Probe)
    requires op.DataEvt?
    ensures Tally(Script(op), p) == CallbackShape(op, p)
  {
    var e := Read(op.conn);
    RungTally(e, p);
    AfterScan(op.scanned, if op.known then Guarded(e, Notify(e)) else [], p);
  }

  lemma {:induction false} CongestTally(op: Op, p: Probe)
    requires op.CongestEvt?
    ensures Tally(Script(op), p) == CallbackShape(op, p)
  {
    var e := Congestion(op.conn);
    ReplyTally(e, None, p);
    AfterScan(op.scanned, if op.known && op.notifies then Guarded(e, Answer(e, None)) else [], p);
  }

  lemma {:induction false} NoticeTally(op: Op, p: Probe)
    requires op.SetTechEvt? || op.PollingEvt?
    ensures Tally(Script(op), p) == CallbackShape(op, p)
  {
    var e := if op.SetTechEvt? then SetTech else Polling;
    ReplyTally(e, None, p);
  }

  lemma {:induction false} ShortCallTally(op: Op, p: Probe)
    requires op.GetNewJniHandle? || op.FindConnection? || op.EnableP2pListening? || op.NfcOn? || op.ActivatedEvt?
    ensures Tally(Script(op), p) == CallShape(op, p)
  {
    SectionTally(HandleMutex, p);
    SectionTally(PeerMutex, p);
    if op.FindConnection? { TableScanTally(op.scanned, p); }
    if op.EnableP2pListening? { CallTally(SetTech, op.accepted, p); }
  }

  // ---- the shapes are what is intended ----

  lemma {:induction false} RegServerEvtIntended(op: Op, p: Probe)
    requires op.RegServerEvt?
    ensures CallbackShape(op, p) == Intended(op, p)
  {
  }

  lemma {:induction false} RegClientEvtIntended(op: Op, p: Probe)
    requires op.RegClientEvt? || op.ConnectedEvt?
    ensures CallbackShape(op, p) == Intended(op, p)
  {
  }

  lemma {:induction false} ConnReqEvtIntended(op: Op, p: Probe)
    requires op.ConnReqEvt?
    ensures CallbackShape(op, p) == Intended(op, p)
  {
  }

  lemma {:induction false} DiscEvtIntended(op: Op, p: Probe)
    requires op.DiscEvt?
    ensures CallbackShape(op, p) == Intended(op, p)
  {
  }

  lemma {:induction false} DiscWhileConnectingEvtIntended(op: Op, p: Probe)
    requires op.DiscWhileConnectingEvt?
    ensures CallbackShape(op, p) == Intended(op, p)
  {
  }

  lemma {:induction false} DataEvtIntended(op: Op, p: Probe)
    requires op.DataEvt?
    ensures CallbackShape(op, p) == Intended(op, p)
  {
  }

  lemma {:induction false} CongestEvtIntended(op: Op, p: Probe)
    requires op.CongestEvt?
    ensures CallbackShape(op, p) == Intended(op, p)
  {
  }

  lemma {:induction false} NoticeIntended(op: Op, p: Probe)
    requires op.SetTechEvt? || op.PollingEvt?
    ensures CallbackShape(op, p) == Intended(op, p)
  {
  }

  lemma {:induction false} ServerCallIntended(op: Op, p: Probe)
    requires op.RegisterServer? || op.Accept?
    ensures CallShape(op, p) == Intended(op, p)
  {
  }

  lemma {:induction false} DeregisterServerIntended(op: Op, p: Probe)
    requires op.DeregisterServer?
    ensures CallShape(op, p) == Intended(op, p)
  {
  }

  lemma {:induction false} CreateClientIntended(op: Op, p: Probe)
    requires op.CreateClient?
    ensures CallShape(op, p) == Intended(op, p)
  {
  }

  lemma {:induction false} CreateDataLinkConnIntended(op: Op, p: Probe)
    requires op.CreateDataLinkConn?
    ensures CallShape(op, p) == Intended(op, p)
  {
  }

  lemma {:induction false} SendIntended(op: Op, p: Probe)
    requires op.Send?
    ensures CallShape(op, p) == Intended(op, p)
  {
  }

  lemma {:induction false} ReceiveIntended(op: Op, p: Probe)
    requires op.Receive?
    ensures CallShape(op, p) == Intended(op, p)
  {
  }

  lemma {:induction false} EarlyDisconnectIntended(op: Op, p: Probe)
    requires op.DisconnectConnOriented? && !Unblocks(op.disconnect)
    ensures CallShape(op, p) == Intended(op, p)
  {
    assert op.scanned + [] == op.scanned;
  }

  lemma {:induction false} DisconnectIntended(op: Op, p: Probe)
    requires op.DisconnectConnOriented? && Unblocks(op.disconnect)
    ensures CallShape(op, p) == Intended(op, p)
  {
  }

  lemma {:induction false} LookupIntended(op: Op, p: Probe)
    requires op.GetNewJniHandle? || op.FindConnection?
    ensures CallShape(op, p) == Intended(op, p)
  {
  }

  lemma {:induction false} SectionIntended(op: Op, p: Probe)
    requires op.NfcOn? || op.ActivatedEvt?
    ensures CallShape(op, p) == Intended(op, p)
  {
  }

  lemma {:induction false} EnableP2pListeningIntended(op: Op, p: Probe)
    requires op.EnableP2pListening?
    ensures CallShape(op, p) == Intended(op, p)
  {
  }

  // ---- the sweep of NFC off, counted ----

  /** Notifications of the event by the sweep of the clients */
  function RungForClients(clients: seq<ClientSweep>, e: Event): int {
    match e
    case Connecting(k) => multiset(clients)[Unconnected(k)]
    case Read(OfClient(k)) => multiset(clients)[Connected(k)]
    case Congestion(OfClient(k)) => multiset(clients)[Connected(k)]
    case _ => 0
  }

  function ClientShare(clients: seq<ClientSweep>, p: Probe): int {
    match p
    case Rings(e) => RungForClients(clients, e)
    case Takes(EventMutex(e)) => RungForClients(clients, e)
    case Stores(Write(ConnHandle(OfClient(k)), h)) => if h == INVALID then multiset(clients)[Connected(k)] else 0
    case _ => 0
  }

  lemma {:induction false} ClientShareOfFirst(clients: seq<ClientSweep>, p: Probe)
    requires clients != []
    ensures ClientShare(clients, p) == ClientShare([clients[0]], p) + ClientShare(clients[1..], p)
  {
    assert clients == [clients[0]] + clients[1..];
  }

  lemma {:induction false} ClientShareOfOne(c: ClientSweep, p: Probe)
    ensures ClientShare([c], p) == match c
                                   case Unconnected(k) => Rung(Connecting(k), p)
                                   case Connected(k) => TakenDown(OfClient(k), p)
  {
  }

  lemma {:induction false} ClientsSweptCounted(clients: seq<ClientSweep>, p: Probe)
    ensures ClientsSwept(clients, p) == ClientShare(clients, p)
  {
    if clients == [] {
    } else {
      ClientShareOfFirst(clients, p);
      ClientShareOfOne(clients[0], p);
      ClientsSweptCounted(clients[1..], p);
    }
  }

  function RungForConns(conns: seq<nat>, e: Event): int {
    match e
    case Read(OfServer(n)) => multiset(conns)[n]
    case Congestion(OfServer(n)) => multiset(conns)[n]
    case _ => 0
  }

  function ConnShare(conns: seq<nat>, p: Probe): int {
    match p
    case Rings(e) => RungForConns(conns, e)
    case Takes(EventMutex(e)) => RungForConns(conns, e)
    case Stores(Write(ConnHandle(OfServer(n)), h)) => if h == INVALID then multiset(conns)[n] else 0
    case _ => 0
  }

  lemma {:induction false} ConnsSweptCounted(conns: seq<nat>, p: Probe)
    ensures ConnsSwept(conns, p) == ConnShare(conns, p)
  {
    if conns == [] {
    } else {
      ConnsSweptCounted(conns[1..], p);
      assert conns == [conns[0]] + conns[1..];
      ConnShareOfOne(conns[0], conns[1..], p);
    }
  }

  lemma {:induction false} ConnShareOfOne(n: nat, rest: seq<nat>, p: Probe)
    ensures ConnShare([n] + rest, p) == TakenDown(OfServer(n), p) + ConnShare(rest, p)
  {
  }

  function RungForServers(servers: seq<ServerSweep>, e: Event): int {
    match e
    case Read(OfServer(n)) => Swept(servers, n)
    case Congestion(OfServer(n)) => Swept(servers, n)
    case _ => 0
  }

  function ServerShare(servers: seq<ServerSweep>, p: Probe): int {
    match p
    case Rings(e) => RungForServers(servers, e)
    case Takes(EventMutex(e)) => RungForServers(servers, e)
    case Takes(ServerMutex(s)) => Visits(servers, s)
    case Stores(Write(ConnHandle(OfServer(n)), h)) => if h == INVALID then Swept(servers, n) else 0
    case _ => 0
  }

  lemma {:induction false} ServersSweptCounted(servers: seq<ServerSweep>, p: Probe)
    ensures ServersSwept(servers, p) == ServerShare(servers, p)
  {
    if servers == [] {
    } else {
      ServersSweptCounted(servers[1..], p);
      ConnsSweptCounted(servers[0].conns, p);
    }
  }

  lemma {:induction false} SharesIntended(clients: seq<ClientSweep>, servers: seq<ServerSweep>, p: Probe)
    ensures Peer(p) + ClientShare(clients, p) + ServerShare(servers, p) == Intended(NfcOff(clients, servers), p)
  {
  }

  lemma {:induction false} NfcOffIntended(op: Op, p: Probe)
    requires op.NfcOff?
    ensures CallShape(op, p) == Intended(op, p)
  {
    ClientsSweptCounted(op.clients, p);
    ServersSweptCounted(op.servers, p);
    SharesIntended(op.clients, op.servers, p);
  }

  // ---- all of them ----

  lemma {:induction false} CallbackAsIntended(op: Op, p: Probe)
    requires IsCallback(op)
    ensures Tally(Script(op), p) == Intended(op, p)
  {
    match op {
      case RegServerEvt(_, _, _) => DeliveryTally(op, p); RegServerEvtIntended(op, p);
      case RegClientEvt(_, _, _) => DeliveryTally(op, p); RegClientEvtIntended(op, p);
      case ConnectedEvt(_, _, _) => DeliveryTally(op, p); RegClientEvtIntended(op, p);
      case ConnReqEvt(_, _, _, _) => ConnReqTally(op, p); ConnReqEvtIntended(op, p);
      case DiscEvt(_, _) => DiscTally(op, p); DiscEvtIntended(op, p);
      case DiscWhileConnectingEvt(_, _, _) => DiscWhileConnectingTally(op, p); DiscWhileConnectingEvtIntended(op, p);
      case DataEvt(_, _, _) => DataTally(op, p); DataEvtIntended(op, p);
      case CongestEvt(_, _, _, _) => CongestTally(op, p); CongestEvtIntended(op, p);
      case _ => NoticeTally(op, p); NoticeIntended(op, p);
    }
  }

  lemma {:induction false} CallAsIntended(op: Op, p: Probe)
    requires !IsCallback(op)
    ensures Tally(Script(op), p) == Intended(op, p)
  {
    match op {
      case RegisterServer(_, _) => RegisterServerTally(op, p); ServerCallIntended(op, p);
      case DeregisterServer(_, _, _, _) => DeregisterServerTally(op, p); DeregisterServerIntended(op, p);
      case Accept(_, _, _, _) => AcceptTally(op, p); ServerCallIntended(op, p);
      case CreateClient(_, _, _) => CreateClientTally(op, p); CreateClientIntended(op, p);
      case CreateDataLinkConn(_, _, _) => CreateDataLinkConnTally(op, p); CreateDataLinkConnIntended(op, p);
      case Send(_, _, _, _, _) => SendTally(op, p); SendIntended(op, p);
      case Receive(_, _, _, _) => ReceiveTally(op, p); ReceiveIntended(op, p);
      case DisconnectConnOriented(_, _, _, outcome, _) =>
        if Unblocks(outcome) {
          DisconnectTally(op, p);
          DisconnectIntended(op, p);
        } else {
          EarlyDisconnectTally(op, p);
          EarlyDisconnectIntended(op, p);
        }
      case NfcOff(_, _) => NfcOffTally(op, p); NfcOffIntended(op, p);
      case EnableP2pListening(_, _) => ShortCallTally(op, p); EnableP2pListeningIntended(op, p);
      case NfcOn => ShortCallTally(op, p); SectionIntended(op, p);
      case ActivatedEvt => ShortCallTally(op, p); SectionIntended(op, p);
      case _ => ShortCallTally(op, p); LookupIntended(op, p);
    }
  }

  /** Every operation notifies, answers, waits, locks and stores exactly as much as it is there for. */
  lemma {:induction false} ScriptIsAsIntended(op: Op, p: Probe)
    ensures Tally(Script(op), p) == Intended(op, p)
  {
    if IsCallback(op) { CallbackAsIntended(op, p); } else { CallAsIntended(op, p); }
  }
}
