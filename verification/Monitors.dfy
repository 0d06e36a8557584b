/** The mutexes and SyncEvent monitors of the peer-to-peer code, the instructions a thread can issue on
    them, and the locking discipline a sequence of instructions may follow. */
module Monitors {
  import opened Options
  import PeerRegistry

  const INVALID := PeerRegistry.INVALID

  /** Every client has its own connection; those of servers are counted. */
  datatype ConnId = OfClient(client: nat) | OfServer(n: nat)

  /** One SyncEvent per server, client, connection, or for the whole stack. */
  datatype Event =
    | RegServer(server: nat)         // P2pServer::mRegServerEvent
    | ConnRequest(server: nat)       // P2pServer::mConnRequestEvent
    | Registering(client: nat)       // P2pClient::mRegisteringEvent
    | Connecting(client: nat)        // P2pClient::mConnectingEvent
    | Read(conn: ConnId)             // NfaConn::mReadEvent
    | Congestion(conn: ConnId)       // NfaConn::mCongEvent
    | Disconnecting(conn: ConnId)    // NfaConn::mDisconnectingEvent
    | SetTech                        // PeerToPeer::mSetTechEvent
    | Polling                        // sNfaEnableDisablePollingEvent

  /** The handles the stack's callbacks store */
  datatype Field =
    | ServerHandle(server: nat)      // P2pServer::mNfaP2pServerHandle
    | ClientHandle(client: nat)      // P2pClient::mNfaP2pClientHandle
    | ConnHandle(conn: ConnId)       // NfaConn::mNfaConnHandle

  datatype Write = Write(field: Field, value: int)

  datatype Lock =
    | DisconnectMutex              // PeerToPeer::mDisconnectMutex
    | PeerMutex                    // PeerToPeer::mMutex
    | ServerMutex(server: nat)     // P2pServer::mMutex
    | HandleMutex                  // PeerToPeer::mNewJniHandleMutex
    | EventMutex(event: Event)     // SyncEvent::mMutex

  /** The documented order: mMutex before everything inside a server or client; the disconnect mutex is
      outside mMutex, and a SyncEvent's mutex is innermost. */
  function Rank(l: Lock): nat {
    match l
    case DisconnectMutex => 0
    case PeerMutex => 1
    case ServerMutex(_) => 2
    case HandleMutex => 3
    case EventMutex(_) => 3
  }

  const MAX_RANK := 3

  datatype Act =
    | Acquire(lock: Lock)
    | Release(lock: Lock)
    | Handshake(event: Event)        // a stack call that is accepted, then SyncEvent::wait
    | WaitRefused(event: Event)      // a stack call that is refused, and SyncEvent::wait all the same
    | Wait(event: Event)             // SyncEvent::wait with no request of the thread's own
    | Notify(event: Event)           // SyncEvent::notifyOne by a bystander
    | Answer(event: Event, write: Option<Write>)  // the stack callback's write (if any), then notifyOne
    | Invalidate(conn: ConnId)       // a connection's handle is made invalid, outside any event's mutex

  /** The events on which a thread waits only for the answer to a request it has just made.  accept() and
      receive() wait without having requested anything. */
  predicate IsHandshakeEvent(e: Event) {
    !e.ConnRequest? && !e.Read?
  }

  /** The handshake events whose callback stores a handle for the requester to look at. */
  predicate CarriesHandle(e: Event) {
    e.RegServer? || e.Registering? || e.Connecting?
  }

  /** Where the requester looks for the answer */
  function FieldOf(e: Event): Field
    requires CarriesHandle(e)
  {
    match e
    case RegServer(s) => ServerHandle(s)
    case Registering(k) => ClientHandle(k)
    case Connecting(k) => ConnHandle(OfClient(k))
  }

  /** What an answer may store: a requester's handle where it looks for it, or the handle of a connection that a
      server's connection request brings. */
  predicate StoresWell(e: Event, w: Write) {
    if CarriesHandle(e) then w.field == FieldOf(e) else e.ConnRequest? && w.field.ConnHandle? && w.field.conn.OfServer?
  }

  /** The mutexes a thread holds, the handle-carrying answer it has yet to deliver, and the event on which it is yet
      to wait after a refusal. */
  datatype Ledger = Ledger(locks: set<Lock>, due: Option<Event>, refused: Option<Event>)

  const NOTHING := Ledger({}, None, None)

  /** The ledger after one instruction that follows the discipline. */
  function After(at: Ledger, a: Act): Ledger {
    match a
    case Acquire(l) => at.(locks := at.locks + {l})
    case Release(l) => at.(locks := at.locks - {l})
    case Answer(e, _) => if CarriesHandle(e) then at.(due := None) else at
    case WaitRefused(_) => at.(refused := None)
    case _ => at
  }

  /** What the discipline asks of one instruction. */
  predicate Permitted(at: Ledger, a: Act) {
    match a
    case Acquire(l) => forall h <- at.locks :: Rank(h) < Rank(l)
    case Release(l) => l in at.locks
    case Handshake(e) => at.locks == {EventMutex(e)} && IsHandshakeEvent(e)
    case WaitRefused(e) => at.locks == {EventMutex(e)} && e.Registering? && at.refused == Some(e)
    case Wait(e) => at.locks == {EventMutex(e)} && !IsHandshakeEvent(e)
    case Notify(e) => EventMutex(e) in at.locks && !e.Registering?
    case Answer(e, w) =>
      && EventMutex(e) in at.locks && (CarriesHandle(e) ==> at.due == Some(e))
      && (w.Some? ==> StoresWell(e, w.value))
    case Invalidate(_) => true
  }

  /** A script that starts with one ledger, follows the discipline, and ends with another. */
  predicate Leads(at: Ledger, script: seq<Act>, end: Ledger)
    decreases script
  {
    if script == [] then at == end
    else Permitted(at, script[0]) && Leads(After(at, script[0]), script[1..], end)
  }

  /** A script that follows the discipline, releases everything it takes and delivers what is due. */
  predicate Disciplined(at: Ledger, script: seq<Act>) {
    Leads(at, script, NOTHING)
  }

  lemma {:induction false} LeadsConcat(at: Ledger, a: seq<Act>, mid: Ledger, b: seq<Act>, end: Ledger)
    requires Leads(at, a, mid) && Leads(mid, b, end)
    ensures Leads(at, a + b, end)
    decreases a
  {
    if a == [] {
      assert a + b == b;
    } else {
      LeadsConcat(After(at, a[0]), a[1..], mid, b, end);
      assert (a + b)[1..] == a[1..] + b;
    }
  }
}
