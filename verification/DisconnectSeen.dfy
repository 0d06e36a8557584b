/** What send and disconnectConnOriented read of their connection when the stack's disconnect event has woken them. */
module DisconnectSeen {
  import opened Options
  import opened Monitors
  import opened PeerScripts
  import opened ThreadMachine
  import opened NoLostWakeup
  import opened Reachability
  import opened LockRuns

  // ---- the disconnect callback writes before it notifies ----

  /** How much of its script a thread has behind it */
  predicate OnScript(th: Thread) {
    |th.todo| <= |Script(th.op)| && th.todo == Script(th.op)[|Script(th.op)| - |th.todo|..]
  }

  /** The disconnect callback's script up to its write */
  function UpToWrite(scanned: seq<nat>): nat { |TableScan(scanned)| + 2 }

  lemma {:induction false} SectionsOnlyLock(scanned: seq<nat>)
    ensures forall a <- ServerSections(scanned) :: a.Acquire? || a.Release?
  {
    if scanned == [] {
    } else {
      SectionsOnlyLock(scanned[1..]);
    }
  }

  /** It notifies only after that, on the connection's own events, and up to there it invalidates nothing but its own
      connection. */
  lemma {:induction false} NotifiesAfterWrite(scanned: seq<nat>, c: ConnId, i: nat)
    requires i < |Script(DiscEvt(scanned, c))|
    ensures var script := Script(DiscEvt(scanned, c));
            && (script[i].Answer? ==> i >= UpToWrite(scanned)
                                      && (script[i].event == Disconnecting(c) || script[i].event == Congestion(c)))
            && (i == UpToWrite(scanned) - 1 ==> script[i] == Invalidate(c))
  {
    var scan, script := TableScan(scanned), Script(DiscEvt(scanned, c));
    SectionsOnlyLock(scanned);
    if i < |scan| {
      assert script[i] == scan[i] && scan[i] in scan;
    } else {
      var rest := [Acquire(DisconnectMutex), Invalidate(c)] + NotifyDisconnected(c) + [Release(DisconnectMutex)];
      assert DiscNotifications(c) == rest;
      assert script[i] == rest[i - |scan|];
    }
  }

  ghost predicate InvalidatedBy(log: seq<Entry>, c: ConnId, d: Tid) {
    exists n: nat :: n < |log| && log[n] == Entry(Write(ConnHandle(c), INVALID), d, None)
  }

  predicate PastWrite(th: Thread) {
    th.op.DiscEvt? && |th.todo| + UpToWrite(th.op.scanned) <= |Script(th.op)|
  }

  predicate WokenByDisconnect(s: State, u: Tid) {
    u in s.threads && s.threads[u].mode.Woken? && s.threads[u].mode.waker.Callback?
    && s.threads[u].mode.waker.thread in s.threads && s.threads[s.threads[u].mode.waker.thread].op.DiscEvt?
  }

  /** The connection whose disconnect event has woken the thread */
  function Lost(s: State, u: Tid): ConnId
    requires WokenByDisconnect(s, u)
  {
    s.threads[s.threads[u].mode.waker.thread].op.conn
  }

  ghost predicate WokenWell(s: State, u: Tid)
    requires WokenByDisconnect(s, u)
  {
    && (s.threads[u].mode.event == Disconnecting(Lost(s, u)) || s.threads[u].mode.event == Congestion(Lost(s, u)))
    && InvalidatedBy(s.log, Lost(s, u), s.threads[u].mode.waker.thread)
  }

  /** Every store is an invalidation, or an answer that may store there. */
  predicate WellStored(x: Entry) {
    match x.answering
    case None => x.write.field.ConnHandle? && x.write.value == INVALID
    case Some(e) => StoresWell(e, x.write)
  }

  predicate WakerKnown(s: State, th: Thread) {
    th.mode.Woken? && th.mode.waker.Callback? ==> th.mode.waker.thread in s.threads
  }

  ghost predicate SeenInv(s: State) {
    && LockInv(s)
    && (forall t <- s.threads :: OnScript(s.threads[t]))
    && (forall t <- s.threads :: PastWrite(s.threads[t]) ==> InvalidatedBy(s.log, s.threads[t].op.conn, t))
    && (forall t <- s.threads :: WakerKnown(s, s.threads[t]))
    && (forall t <- s.threads :: WokenByDisconnect(s, t) ==> WokenWell(s, t))
    && (forall x <- s.log :: WellStored(x))
  }

  lemma {:induction false} LogGrows(s: State, t: Tid, woken: Option<Tid>)
    requires LockInv(s) && CanRun(s, t, woken) && forall x <- s.log :: WellStored(x)
    ensures var log, log' := s.log, Step(s, t, woken).log;
            && |log| <= |log'| && (forall i :: 0 <= i < |log| ==> log'[i] == log[i])
            && (forall x <- log' :: WellStored(x))
            && (s.threads[t].mode.Running? && s.threads[t].todo[0].Invalidate? ==>
                  InvalidatedBy(log', s.threads[t].todo[0].conn, t))
  {
    assert ThreadOk(s.threads[t]);
    var log' := Step(s, t, woken).log;
    if s.threads[t].mode.Running? && s.threads[t].todo[0].Invalidate? {
      assert log'[|s.log|] == Entry(Write(ConnHandle(s.threads[t].todo[0].conn), INVALID), t, None);
    }
  }

  lemma {:induction false} TodoGoesOn(s: State, t: Tid, woken: Option<Tid>, u: Tid)
    requires LockInv(s) && CanRun(s, t, woken) && u in s.threads
    ensures u in Step(s, t, woken).threads
    ensures var th, th' := s.threads[u], Step(s, t, woken).threads[u];
            && th'.op == th.op
            && (th'.todo == th.todo || (u == t && th.todo != [] && th'.todo == th.todo[1..]))
            && (th'.mode == th.mode || !th'.mode.Woken? || !th'.mode.waker.Callback? || th'.mode.waker.thread == t)
  {
    if u != t { OtherThreadsStep(s, t, woken, u); }
  }

  lemma {:induction false} TailOnScript(th: Thread, th': Thread)
    requires OnScript(th) && th'.op == th.op && (th'.todo == th.todo || (th.todo != [] && th'.todo == th.todo[1..]))
    ensures OnScript(th')
  {
  }

  /** A step goes on along the script. */
  lemma {:induction false} ScriptGoesOn(s: State, t: Tid, woken: Option<Tid>, u: Tid)
    requires LockInv(s) && CanRun(s, t, woken) && u in s.threads && OnScript(s.threads[u])
    ensures u in Step(s, t, woken).threads
    ensures var th, th' := s.threads[u], Step(s, t, woken).threads[u];
            && th'.op == th.op && OnScript(th') && (th'.todo == th.todo || (u == t && th'.todo == th.todo[1..]))
            && (th'.mode == th.mode || !th'.mode.Woken? || !th'.mode.waker.Callback? || th'.mode.waker.thread == t)
  {
    TodoGoesOn(s, t, woken, u);
    TailOnScript(s.threads[u], Step(s, t, woken).threads[u]);
  }

  lemma {:induction false} StaysInvalidated(log: seq<Entry>, log': seq<Entry>, c: ConnId, d: Tid)
    requires |log| <= |log'| && forall i :: 0 <= i < |log| ==> log'[i] == log[i]
    requires InvalidatedBy(log, c, d)
    ensures InvalidatedBy(log', c, d)
  {
    var n: nat :| n < |log| && log[n] == Entry(Write(ConnHandle(c), INVALID), d, None);
    assert log'[n] == log[n];
  }

  /** A callback gets past its write only by writing. */
  lemma {:induction false} WritesGettingPast(s: State, t: Tid, woken: Option<Tid>, u: Tid)
    requires SeenInv(s) && CanRun(s, t, woken) && u in Step(s, t, woken).threads
             && PastWrite(Step(s, t, woken).threads[u])
    ensures InvalidatedBy(Step(s, t, woken).log, Step(s, t, woken).threads[u].op.conn, u)
  {
    var s' := Step(s, t, woken);
    OtherKeys(s, t, woken);
    ScriptGoesOn(s, t, woken, u);
    LogGrows(s, t, woken);
    var th := s.threads[u];
    if PastWrite(th) {
      StaysInvalidated(s.log, s'.log, th.op.conn, u);
    } else {
      var i := |Script(th.op)| - |th.todo|;
      assert u == t && i == UpToWrite(th.op.scanned) - 1 && th.todo[0] == Script(th.op)[i];
      NotifiesAfterWrite(th.op.scanned, th.op.conn, i);
      assert ThreadOk(th);
    }
  }

  lemma {:induction false} OtherKeys(s: State, t: Tid, woken: Option<Tid>)
    requires LockInv(s) && CanRun(s, t, woken)
    ensures Step(s, t, woken).threads.Keys == s.threads.Keys
  {
  }

  /** A disconnect callback that wakes a thread has written before. */
  lemma {:induction false} WakesAfterWriting(s: State, t: Tid, woken: Option<Tid>, u: Tid)
    requires SeenInv(s) && CanRun(s, t, woken) && WokenByDisconnect(Step(s, t, woken), u)
    ensures WokenWell(Step(s, t, woken), u)
  {
    var s' := Step(s, t, woken);
    OtherKeys(s, t, woken);
    LogGrows(s, t, woken);
    var d := s'.threads[u].mode.waker.thread;
    ScriptGoesOn(s, t, woken, d);
    if s'.threads[u].mode == s.threads[u].mode {
      StaysInvalidated(s.log, s'.log, Lost(s, u), d);
    } else {
      NewlyWoken(s, t, woken, u);
      var th := s.threads[t];
      var i := |Script(th.op)| - |th.todo|;
      assert th.todo[0] == Script(th.op)[i];
      NotifiesAfterWrite(th.op.scanned, th.op.conn, i);
      StaysInvalidated(s.log, s'.log, th.op.conn, t);
    }
  }

  lemma {:induction false} NewlyWoken(s: State, t: Tid, woken: Option<Tid>, u: Tid)
    requires LockInv(s) && CanRun(s, t, woken) && u in Step(s, t, woken).threads && u in s.threads
    requires var m := Step(s, t, woken).threads[u].mode; m != s.threads[u].mode && m.Woken? && m.waker.Callback?
    ensures var m := Step(s, t, woken).threads[u].mode;
            m.waker.thread == t && s.threads[t].mode.Running? && s.threads[t].todo[0].Answer?
              && s.threads[t].todo[0].event == m.event
  {
    assert ThreadOk(s.threads[t]);
    if u != t { OtherThreadsStep(s, t, woken, u); }
  }

  lemma {:induction false} StepKeepsSeenInv(s: State, t: Tid, woken: Option<Tid>)
    requires SeenInv(s) && CanRun(s, t, woken)
    ensures SeenInv(Step(s, t, woken))
  {
    var s' := Step(s, t, woken);
    StepKeepsLockInv(s, t, woken);
    LogGrows(s, t, woken);
    OtherKeys(s, t, woken);
    forall u | u in s'.threads
      ensures OnScript(s'.threads[u]) && WakerKnown(s', s'.threads[u])
      ensures PastWrite(s'.threads[u]) ==> InvalidatedBy(s'.log, s'.threads[u].op.conn, u)
      ensures WokenByDisconnect(s', u) ==> WokenWell(s', u)
    {
      ScriptGoesOn(s, t, woken, u);
      if PastWrite(s'.threads[u]) { WritesGettingPast(s, t, woken, u); }
      if WokenByDisconnect(s', u) { WakesAfterWriting(s, t, woken, u); }
    }
  }

  lemma {:induction false} SpawnKeepsSeenInv(s: State, t: Tid, op: Op)
    requires SeenInv(s) && t !in s.threads
    ensures SeenInv(Next(s, Spawn(t, op)))
  {
    var s' := Next(s, Spawn(t, op));
    NextKeepsLockInv(s, Spawn(t, op));
    assert !PastWrite(s'.threads[t]) && OnScript(s'.threads[t]);
    forall u | u in s.threads
      ensures WokenByDisconnect(s', u) ==> WokenByDisconnect(s, u) && WokenWell(s', u)
    {
      assert s'.threads[u] == s.threads[u] && WakerKnown(s, s.threads[u]);
    }
  }

  lemma {:induction false} ExecKeepsSeenInv(s: State, ls: seq<Label>)
    requires SeenInv(s) && Legal(s, ls)
    ensures SeenInv(Exec(s, ls))
    decreases ls
  {
    if ls == [] {
    } else {
      match ls[0] {
        case Spawn(t, op) => SpawnKeepsSeenInv(s, t, op);
        case Run(t, woken) => StepKeepsSeenInv(s, t, woken);
      }
      ExecKeepsSeenInv(Next(s, ls[0]), ls[1..]);
    }
  }

  // ---- what is found ----

  /** The i-th store is the field's last. */
  ghost predicate LastStore(log: seq<Entry>, i: nat, f: Field) {
    i < |log| && log[i].write.field == f && forall j :: i < j < |log| ==> log[j].write.field != f
  }

  lemma {:induction false} LatestIsLast(log: seq<Entry>, n: nat, f: Field)
    requires n < |log| && log[n].write.field == f
    ensures exists i: nat :: n <= i && LastStore(log, i, f) && Latest(log, f) == Some(log[i].write.value)
    decreases |log|
  {
    var last := |log| - 1;
    if log[last].write.field == f {
      assert LastStore(log, last, f);
    } else {
      var front := log[..last];
      LatestIsLast(front, n, f);
      var i: nat :| n <= i && LastStore(front, i, f) && Latest(front, f) == Some(front[i].write.value);
      assert forall j :: 0 <= j < last ==> front[j] == log[j];
      assert LastStore(log, i, f);
    }
  }

  /** The request or answer that brings a connection a handle: a connection request if it is a server's, a connect
      answer if it is a client's. */
  predicate Brings(e: Event, c: ConnId) {
    match c
    case OfClient(k) => e == Connecting(k)
    case OfServer(_) => e.ConnRequest?
  }

  /** After the n-th store, the connection was last given a handle. */
  ghost predicate GivenHandleSince(log: seq<Entry>, n: nat, c: ConnId) {
    exists i: nat :: n < i && LastStore(log, i, ConnHandle(c)) && log[i].write.value != INVALID
                     && log[i].answering.Some? && Brings(log[i].answering.value, c)
  }

  /** In every interleaving, a thread woken by the disconnect event of a connection, on its congestion event as send
      or on its disconnecting event as disconnectConnOriented, is woken after the callback has made the handle
      invalid; and it finds the invalid handle if and only if the connection has not been given a handle since, by a
      connection request or a connect answer, that is still there. */
  lemma {:induction false} WokenByDisconnectFindsInvalid(ls: seq<Label>, u: Tid)
    requires Legal(START, ls) && WokenByDisconnect(Exec(START, ls), u)
    ensures var s := Exec(START, ls);
            var c := Lost(s, u);
            && (s.threads[u].mode.event == Disconnecting(c) || s.threads[u].mode.event == Congestion(c))
            && exists n: nat ::
                 && n < |s.log|
                 && s.log[n] == Entry(Write(ConnHandle(c), INVALID), s.threads[u].mode.waker.thread, None)
                 && (Latest(s.log, ConnHandle(c)) == Some(INVALID) <==> !GivenHandleSince(s.log, n, c))
  {
    var s := Exec(START, ls);
    ExecKeepsSeenInv(START, ls);
    var c := Lost(s, u);
    assert WokenWell(s, u);
    var n: nat :| n < |s.log| && s.log[n] == Entry(Write(ConnHandle(c), INVALID), s.threads[u].mode.waker.thread, None);
    FoundSince(s.log, n, c);
  }

  lemma {:induction false} FoundSince(log: seq<Entry>, n: nat, c: ConnId)
    requires n < |log| && log[n].write == Write(ConnHandle(c), INVALID) && forall x <- log :: WellStored(x)
    ensures Latest(log, ConnHandle(c)) == Some(INVALID) <==> !GivenHandleSince(log, n, c)
  {
    LatestIsLast(log, n, ConnHandle(c));
    var i: nat :| n <= i && LastStore(log, i, ConnHandle(c)) && Latest(log, ConnHandle(c)) == Some(log[i].write.value);
    assert WellStored(log[i]);
  }

  // ---- a sender that finds another handle ----

  const CONN := OfServer(0)

  /** The sender, congested and waiting */
  function Sender(): Thread {
    Thread(Send([], CONN, true, 1, false),
           [Handshake(Congestion(CONN))] + ([Release(EventMutex(Congestion(CONN)))] + Call(Congestion(CONN), false)),
           NOTHING, Waiting(Congestion(CONN)))
  }

  const SENDING := Guarded(Congestion(CONN), Handshake(Congestion(CONN))) + Call(Congestion(CONN), false)

  /** The sender with this left to do */
  function Sending(todo: seq<Act>): State {
    State(map[1 := Thread(Send([], CONN, true, 1, false), todo, NOTHING, Running)], {}, [])
  }

  lemma {:induction false} SenderFindsConnection()
    ensures Reaches(CarefulMoves, START, Sending(SENDING))
  {
    var op, e := Send([], CONN, true, 1, false), Congestion(CONN);
    Starts(START, 1, op);
    assert Times(1, Call(e, true)) == Call(e, true) + Times(0, Call(e, true)) == Guarded(e, Handshake(e));
    assert Script(op) == [Acquire(PeerMutex), Release(PeerMutex)] + SENDING;
    var s := Sending([Acquire(PeerMutex), Release(PeerMutex)] + SENDING);
    assert Put(START, 1, Thread(op, Script(op), Opening(op), Running)) == s;
    ThroughSection(s, 1, PeerMutex, SENDING);
    assert Put(s, 1, s.threads[1].(todo := SENDING)) == Sending(SENDING);
    ReachesOn(CarefulMoves, START, s, Sending(SENDING));
  }

  lemma {:induction false} SenderIsCongested()
    ensures Reaches(CarefulMoves, START, State(map[1 := Sender()], {Congestion(CONN)}, []))
  {
    var e, s := Congestion(CONN), Sending(SENDING);
    SenderFindsConnection();
    FallsAsleep(s, 1, Handshake(e), Call(e, false));
    var s1 := Sleeping(s, 1, Handshake(e), [Release(EventMutex(e))] + Call(e, false));
    assert s1.threads == map[1 := Sender()] && s1.owed == {e};
    ReachesOn(CarefulMoves, START, s, s1);
  }

  /** The disconnect callback with this left to do */
  function Disconnector(locks: set<Lock>, todo: seq<Act>): Thread {
    Thread(DiscEvt([], CONN), todo, Ledger(locks, None, None), Running)
  }

  const INVALIDATED := Entry(Write(ConnHandle(CONN), INVALID), 2, None)
  const READING := Guarded(Read(CONN), Notify(Read(CONN))) + [Release(DisconnectMutex)]
  const CONGESTION := Guarded(Congestion(CONN), Answer(Congestion(CONN), None)) + READING
  const DISCONNECTING := Guarded(Disconnecting(CONN), Answer(Disconnecting(CONN), None)) + CONGESTION

  /** The sender asleep, and the callback in mDisconnectMutex with this left to do */
  function Disturbed(todo: seq<Act>, log: seq<Entry>): State {
    State(map[1 := Sender(), 2 := Disconnector({DisconnectMutex}, todo)], {Congestion(CONN)}, log)
  }

  const TAKING := [Acquire(DisconnectMutex)] + ([Invalidate(CONN)] + DISCONNECTING)

  lemma {:induction false} CallbackScript()
    ensures Script(DiscEvt([], CONN)) == [Acquire(PeerMutex), Release(PeerMutex)] + TAKING
  {
    assert DiscNotifications(CONN) == TAKING;
  }

  lemma {:induction false} CallbackAsksNothing()
    ensures Claims(Script(DiscEvt([], CONN))) == {}
  {
    assert forall a <- Script(DiscEvt([], CONN)) :: !Asks(a);
  }

  lemma {:induction false} CallbackStarts()
    ensures Reaches(CarefulMoves, State(map[1 := Sender()], {Congestion(CONN)}, []),
                    State(map[1 := Sender(), 2 := Disconnector({}, TAKING)], {Congestion(CONN)}, []))
  {
    var s, op := State(map[1 := Sender()], {Congestion(CONN)}, []), DiscEvt([], CONN);
    var s1 := Put(s, 2, Disconnector({}, Script(op)));
    CallbackScript();
    CallbackAsksNothing();
    Starts(s, 2, op);
    CallbackPasses(s1);
    ReachesOn(CarefulMoves, s, s1, State(map[1 := Sender(), 2 := Disconnector({}, TAKING)], {Congestion(CONN)}, []));
  }

  lemma {:induction false} CallbackPasses(s: State)
    requires s.threads == map[1 := Sender(), 2 := Disconnector({}, [Acquire(PeerMutex), Release(PeerMutex)] + TAKING)]
    requires s.owed == {Congestion(CONN)} && s.log == []
    ensures Reaches(CarefulMoves, s, State(map[1 := Sender(), 2 := Disconnector({}, TAKING)], {Congestion(CONN)}, []))
  {
    ThroughSection(s, 2, PeerMutex, TAKING);
    assert Put(s, 2, s.threads[2].(todo := TAKING))
        == State(map[1 := Sender(), 2 := Disconnector({}, TAKING)], {Congestion(CONN)}, []);
  }

  lemma {:induction false} CallbackLocks()
    ensures Reaches(CarefulMoves, State(map[1 := Sender(), 2 := Disconnector({}, TAKING)], {Congestion(CONN)}, []),
                    Disturbed([Invalidate(CONN)] + DISCONNECTING, []))
  {
    var s := State(map[1 := Sender(), 2 := Disconnector({}, TAKING)], {Congestion(CONN)}, []);
    assert TAKING[1..] == [Invalidate(CONN)] + DISCONNECTING && {} + {DisconnectMutex} == {DisconnectMutex};
    Goes(s, 2, None);
    assert Step(s, 2, None).threads == Disturbed([Invalidate(CONN)] + DISCONNECTING, []).threads;
  }

  lemma {:induction false} CallbackWrites()
    ensures Reaches(CarefulMoves, Disturbed([Invalidate(CONN)] + DISCONNECTING, []),
                    Disturbed(DISCONNECTING, [INVALIDATED]))
  {
    var s := Disturbed([Invalidate(CONN)] + DISCONNECTING, []);
    assert s.threads[2].todo[1..] == DISCONNECTING;
    Goes(s, 2, None);
    var s1 := Step(s, 2, None);
    assert s1.threads == Disturbed(DISCONNECTING, []).threads && s1.log == [INVALIDATED];
  }

  lemma {:induction false} CallbackNotifies()
    ensures Reaches(CarefulMoves, Disturbed(DISCONNECTING, [INVALIDATED]), Disturbed(CONGESTION, [INVALIDATED]))
  {
    var s, a := Disturbed(DISCONNECTING, [INVALIDATED]), Answer(Disconnecting(CONN), None);
    ThroughGuarded(s, 2, a, None, CONGESTION);
    var s1 := Step(Facing(s, 2, a, CONGESTION), 2, None);
    assert ([a] + CONGESTION)[1..] == CONGESTION;
    assert s1.threads == Disturbed(CONGESTION, []).threads && s1.owed == {Congestion(CONN)} && s1.log == [INVALIDATED];
  }

  /** The sender, woken by the callback */
  function WokenSender(): Thread { Sender().(mode := Woken(Congestion(CONN), Callback(2, None))) }

  function Disconnected(todo: seq<Act>): State {
    State(map[1 := WokenSender(), 2 := Disconnector({DisconnectMutex}, todo)], {}, [INVALIDATED])
  }

  lemma {:induction false} CallbackWakesSender()
    ensures Reaches(CarefulMoves, Disturbed(CONGESTION, [INVALIDATED]), Disconnected(READING))
  {
    var s, a := Disturbed(CONGESTION, [INVALIDATED]), Answer(Congestion(CONN), None);
    ThroughGuarded(s, 2, a, Some(1), READING);
    assert ([a] + READING)[1..] == READING;
    var s1 := Step(Facing(s, 2, a, READING), 2, Some(1));
    assert s1.threads == Disconnected(READING).threads && s1.owed == {} && s1.log == [INVALIDATED];
  }

  /** The callback is done. */
  function Done(): State { State(map[1 := WokenSender(), 2 := Disconnector({}, [])], {}, [INVALIDATED]) }

  lemma {:induction false} CallbackEnds()
    ensures Reaches(CarefulMoves, Disconnected(READING), Done())
  {
    var s, a := Disconnected(READING), Notify(Read(CONN));
    var rest := [Release(DisconnectMutex)];
    ThroughGuarded(s, 2, a, None, rest);
    assert ([a] + rest)[1..] == rest && rest[1..] == [];
    var s1 := Step(Facing(s, 2, a, rest), 2, None);
    assert s1.threads == Disconnected(rest).threads && s1.owed == {} && s1.log == [INVALIDATED];
    Goes(s1, 2, None);
    assert {DisconnectMutex} - {DisconnectMutex} == {};
    assert Step(s1, 2, None).threads == Done().threads;
    ReachesOn(CarefulMoves, s, s1, Done());
  }

  lemma {:induction false} SenderIsDisconnected()
    ensures Reaches(CarefulMoves, START, Done())
  {
    var m := State(map[1 := Sender()], {Congestion(CONN)}, []);
    var n := State(map[1 := Sender(), 2 := Disconnector({}, TAKING)], {Congestion(CONN)}, []);
    SenderIsCongested();
    CallbackStarts();
    ReachesOn(CarefulMoves, START, m, n);
    CallbackLocks();
    ReachesOn(CarefulMoves, START, n, Disturbed([Invalidate(CONN)] + DISCONNECTING, []));
    CallbackWrites();
    ReachesOn(CarefulMoves, START, Disturbed([Invalidate(CONN)] + DISCONNECTING, []),
              Disturbed(DISCONNECTING, [INVALIDATED]));
    CallbackNotifies();
    ReachesOn(CarefulMoves, START, Disturbed(DISCONNECTING, [INVALIDATED]), Disturbed(CONGESTION, [INVALIDATED]));
    CallbackWakesSender();
    ReachesOn(CarefulMoves, START, Disturbed(CONGESTION, [INVALIDATED]), Disconnected(READING));
    CallbackEnds();
    ReachesOn(CarefulMoves, START, Disconnected(READING), Done());
  }

  /** The new peer's request, answered by thread 3 */
  function Reused(h: int): State {
    var w := Write(ConnHandle(CONN), h);
    State(Done().threads[3 := Thread(ConnReqEvt(0, true, Some(0), h), [], NOTHING, Running)], {},
          [INVALIDATED, Entry(w, 3, Some(ConnRequest(0)))])
  }

  /** ... and on its way to the waiting connection */
  function Arrived(h: int): State {
    State(Done().threads[3 := Thread(ConnReqEvt(0, true, Some(0), h), Accepting(0, 0, h), NOTHING, Running)], {},
          [INVALIDATED])
  }

  lemma {:induction false} RequestStarts(h: int)
    ensures var op := ConnReqEvt(0, true, Some(0), h);
            Reaches(CarefulMoves, Done(), Put(Done(), 3, Thread(op, Script(op), NOTHING, Running)))
  {
    var op := ConnReqEvt(0, true, Some(0), h);
    assert forall a <- Script(op) :: !Asks(a);
    Starts(Done(), 3, op);
  }

  lemma {:induction false} RequestArrives(h: int)
    ensures Reaches(CarefulMoves, Done(), Arrived(h))
  {
    var op, s := ConnReqEvt(0, true, Some(0), h), Done();
    var s1 := Put(s, 3, Thread(op, Script(op), NOTHING, Running));
    RequestStarts(h);
    assert Script(op) == [Acquire(PeerMutex), Release(PeerMutex)]
                         + ([Acquire(ServerMutex(0)), Release(ServerMutex(0))] + Accepting(0, 0, h));
    ThroughTwoSections(s1, 3, PeerMutex, ServerMutex(0), Accepting(0, 0, h));
    assert Put(s1, 3, s1.threads[3].(todo := Accepting(0, 0, h))) == Arrived(h);
    ReachesOn(CarefulMoves, s, s1, Arrived(h));
  }

  lemma {:induction false} RequestTakesConnection(h: int)
    ensures Reaches(CarefulMoves, Arrived(h), Reused(h))
  {
    var s, a := Arrived(h), Answer(ConnRequest(0), Some(Write(ConnHandle(CONN), h)));
    assert Accepting(0, 0, h) == Guarded(ConnRequest(0), a) + [];
    ThroughGuarded(s, 3, a, None, []);
    assert [a] + [] == [a] && [a][1..] == [];
    var s1 := Step(Facing(s, 3, a, []), 3, None);
    assert s1.threads == Reused(h).threads && s1.owed == {} && s1.log == Reused(h).log;
  }

  /** A run in which it has: a server's connection that the disconnect event has made invalid looks like one that waits
      for a request, so the next connection request takes it, and the sender woken by the disconnect finds the new
      peer's handle. */
  lemma {:induction false} SenderFindsAnotherPeer(h: int)
    ensures exists s :: Reaches(CarefulMoves, START, s) && 1 in s.threads
                        && s.threads[1].op.Send? && s.threads[1].op.conn == CONN
                        && WokenByDisconnect(s, 1) && Lost(s, 1) == CONN && Latest(s.log, ConnHandle(CONN)) == Some(h)
  {
    SenderIsDisconnected();
    RequestArrives(h);
    ReachesOn(CarefulMoves, START, Done(), Arrived(h));
    RequestTakesConnection(h);
    ReachesOn(CarefulMoves, START, Arrived(h), Reused(h));
    assert WokenByDisconnect(Reused(h), 1) && Lost(Reused(h), 1) == CONN;
  }
}
