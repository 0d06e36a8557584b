/** What each call and callback of PeerToPeer.cpp is there for, told event by event, handle by handle and mutex by
    mutex. */
module OperationPurposes {
  import opened Options
  import opened Monitors
  import opened PeerScripts
  import opened ThreadMachine
  import opened ThreadTraces

  // ---- who rings for whom ----

  /** disconnectConnOriented gets as far as unblocking the connection. */
  predicate TearsDown(op: Op, c: ConnId) { op.DisconnectConnOriented? && op.conn == c && Unblocks(op.disconnect) }

  predicate Unblocks(outcome: DisconnectOutcome) { !outcome.UnknownConnection? && !outcome.StillConnecting? }

  function Swept(servers: seq<ServerSweep>, n: nat): int {
    if servers == [] then 0 else multiset(servers[0].conns)[n] + Swept(servers[1..], n)
  }

  /** How often NFC off takes the connection down */
  function Sweeps(op: Op, c: ConnId): int {
    if !op.NfcOff? then 0
    else match c
         case OfClient(k) => multiset(op.clients)[Connected(k)]
         case OfServer(n) => Swept(op.servers, n)
  }

  /** The callback that brings the answer to a request on the event */
  predicate Answering(op: Op, e: Event) {
    match e
    case RegServer(s) => op.RegServerEvt? && op.known && op.server == s
    case ConnRequest(s) => op.ConnReqEvt? && op.known && op.waiting.Some? && op.server == s
    case Registering(k) => op.RegClientEvt? && op.known && op.client == k
    case Connecting(k) => (op.ConnectedEvt? || op.DiscWhileConnectingEvt?) && op.known && op.client == k
    case Read(_) => false
    case Congestion(c) => (op.CongestEvt? && op.known && op.notifies && op.conn == c) || (op.DiscEvt? && op.conn == c)
    case Disconnecting(c) => op.DiscEvt? && op.conn == c
    case SetTech => op.SetTechEvt?
    case Polling => op.PollingEvt?
  }

  /** How often the operation notifies the event: with the answer, with news, or because there will be none */
  function RingsOf(op: Op, e: Event): int {
    One(Answering(op, e)) +
    match e
    case ConnRequest(s) => One(op.DeregisterServer? && op.known && op.server == s)
    case Connecting(k) =>
      One(op.DisconnectConnOriented? && op.disconnect.StillConnecting? && op.client == k)
      + (if op.NfcOff? then multiset(op.clients)[Unconnected(k)] else 0)
    case Read(c) =>
      One((op.DataEvt? && op.known && op.conn == c) || (op.DiscEvt? && op.conn == c) || TearsDown(op, c))
      + Sweeps(op, c)
    case Congestion(c) => One(TearsDown(op, c)) + Sweeps(op, c)
    case _ => 0
  }

  // ---- what is stored ----

  /** How often an operation stores the handle */
  function StoresOf(op: Op, w: Write): int {
    match w.field
    case ServerHandle(s) => One(op.RegServerEvt? && op.known && op.server == s && op.handle == w.value)
    case ClientHandle(k) => One(op.RegClientEvt? && op.known && op.client == k && op.handle == w.value)
    case ConnHandle(c) =>
      One(op.ConnectedEvt? && op.known && OfClient(op.client) == c && op.handle == w.value)
      + One(op.ConnReqEvt? && op.known && op.waiting.Some? && OfServer(op.waiting.value) == c && op.handle == w.value)
      + if w.value == INVALID then One(op.DiscEvt? && op.conn == c) + Sweeps(op, c) else 0
  }

  // ---- who waits, and who is refused ----

  function Count(calls: seq<bool>, accepted: bool): int { multiset(calls)[accepted] }

  /** How often an operation waits for the event */
  function NapsOf(op: Op, e: Event): int {
    match e
    case RegServer(s) =>
      One(op.RegisterServer? && op.server == s && (op.registration.NoHandle? || op.registration.Registered?))
    case ConnRequest(s) => One(op.Accept? && op.server == s && op.known && op.slotFree)
    case Registering(k) => One(op.CreateClient? && op.client == k && !op.creation.NoFreeClient?)
    case Connecting(k) =>
      One(op.CreateDataLinkConn? && op.client == k && (op.connect.NotConnected? || op.connect.ConnectionUp?))
    case Read(c) => if op.Receive? && op.known && op.conn == c then op.polls else 0
    case Congestion(c) => if op.Send? && op.known && op.conn == c then op.congestedRounds else 0
    case Disconnecting(c) => One(op.DisconnectConnOriented? && op.conn == c && op.disconnect.DisconnectAccepted?)
    case SetTech => One(op.EnableP2pListening? && op.calls && op.accepted)
    case Polling =>
      if op.DeregisterServer? && op.known then Count(op.discoveryCalls, true) + Count(op.restart, true) else 0
  }

  /** How often it makes a call under the event's mutex and does not wait: because it is refused, or done at once */
  function CallsInVain(op: Op, e: Event): int {
    match e
    case RegServer(s) => One(op.RegisterServer? && op.server == s && op.registration.StackRefuses?)
    case Connecting(k) => One(op.CreateDataLinkConn? && op.client == k && op.connect.CallRefused?)
    case Congestion(c) => One(op.Send? && op.known && op.conn == c && !op.peerGone)
    case Disconnecting(c) => One(op.DisconnectConnOriented? && op.conn == c && op.disconnect.DisconnectRefused?)
    case SetTech => One(op.EnableP2pListening? && op.calls && !op.accepted)
    case Polling =>
      if op.DeregisterServer? && op.known then Count(op.discoveryCalls, false) + Count(op.restart, false) else 0
    case _ => 0
  }

  // ---- who takes which mutex ----

  /** How often the operation goes through mMutex */
  function PeerSections(op: Op): int {
    match op
    case GetNewJniHandle => 0
    case EnableP2pListening(_, _) => 0
    case SetTechEvt => 0
    case PollingEvt => 0
    case RegisterServer(_, outcome) => 1 + One(outcome.StackRefuses? || outcome.NoHandle?)
    case DeregisterServer(_, known, _, _) => 1 + One(known)
    case CreateClient(_, outcome, _) => 1 + One(outcome.RegistrationRefused? || outcome.NotRegistered?)
    case CreateDataLinkConn(_, outcome, _) => 1 + One(outcome.CallRefused? || outcome.NotConnected?)
    case DisconnectConnOriented(_, _, _, outcome, _) => 1 + One(!outcome.UnknownConnection?) + One(Unblocks(outcome))
    case DiscWhileConnectingEvt(_, _, _) => 2
    case _ => 1
  }

  /** The scans of the servers' connection tables */
  function Scans(op: Op): seq<nat> {
    match op
    case CreateClient(_, outcome, scanned) =>
      if outcome.RegistrationRefused? || outcome.NotRegistered? then scanned else []
    case CreateDataLinkConn(_, outcome, scanned) =>
      if outcome.CallRefused? || outcome.NotConnected? then scanned else []
    case DisconnectConnOriented(scanned, _, _, outcome, removal) => scanned + if Unblocks(outcome) then removal else []
    case Send(scanned, _, _, _, _) => scanned
    case Receive(scanned, _, _, _) => scanned
    case FindConnection(scanned) => scanned
    case DiscEvt(scanned, _) => scanned
    case DiscWhileConnectingEvt(scanned, _, _) => scanned
    case DataEvt(scanned, _, _) => scanned
    case CongestEvt(scanned, _, _, _) => scanned
    case _ => []
  }

  function Visits(servers: seq<ServerSweep>, s: nat): int {
    if servers == [] then 0 else One(servers[0].server == s) + Visits(servers[1..], s)
  }

  /** How often an operation takes the mutex */
  function TakesOf(op: Op, m: Lock): int {
    match m
    case HandleMutex => One(op.GetNewJniHandle?)
    case DisconnectMutex => One(op.DiscEvt? || (op.DisconnectConnOriented? && Unblocks(op.disconnect)))
    case PeerMutex => PeerSections(op)
    case ServerMutex(s) =>
      multiset(Scans(op))[s]
      + (if op.Accept? && op.known && op.server == s then 1 + One(op.slotFree && !op.gotHandle) else 0)
      + One(op.ConnReqEvt? && op.known && op.server == s)
      + (if op.NfcOff? then Visits(op.servers, s) else 0)
    case EventMutex(e) => RingsOf(op, e) + NapsOf(op, e) + CallsInVain(op, e)
  }

  /** All that an operation is to do, by what is counted */
  function Intended(op: Op, p: Probe): int {
    match p
    case Rings(e) => RingsOf(op, e)
    case Replies(e) => One(Answering(op, e))
    case Naps(e) => NapsOf(op, e)
    case Takes(m) => TakesOf(op, m)
    case Stores(w) => StoresOf(op, w)
  }
}
