/** Which mutex is held around what others could see: the disconnect callback against the removal of the connection,
    the sweep of NFC off, and the order in which disconnectConnOriented unblocks and asks. */
module SectionsHeld {
  import opened Options
  import opened Monitors
  import opened PeerScripts
  import opened ThreadMachine
  import opened LockRuns
  import opened ThreadTraces
  import opened OperationPurposes
  import opened ScriptTallies
  import opened OperationEffects

  // ---- a mutex is held from its acquisition to its release ----

  lemma {:induction false} HeldTillReleased(at: Ledger, todo: seq<Act>, m: Lock)
    requires Disciplined(at, todo) && Release(m) in todo && Acquire(m) !in todo
    ensures m in at.locks
    decreases todo
  {
    if todo[0] != Release(m) { HeldTillReleased(After(at, todo[0]), todo[1..], m); }
  }

  lemma {:induction false} HeldIsReleased(at: Ledger, todo: seq<Act>, m: Lock)
    requires Disciplined(at, todo) && m in at.locks
    ensures Release(m) in todo
    decreases todo
  {
    if todo[0] != Release(m) { HeldIsReleased(After(at, todo[0]), todo[1..], m); }
  }

  /** A tail of a + b that starts with something not in a is a tail of b. */
  lemma {:induction false} TailOfSecond(a: seq<Act>, b: seq<Act>, done: seq<Act>, todo: seq<Act>)
    requires a + b == done + todo && todo != [] && todo[0] !in a
    ensures |a| <= |done| && todo == b[|done| - |a|..]
  {
    assert (a + b)[|done|] == todo[0];
    assert todo == (a + b)[|done|..];
  }

  lemma {:induction false} DoneBefore(done: seq<Act>, todo: seq<Act>, k: nat)
    requires k < |done + todo| && (done + todo)[k] !in todo
    ensures k < |done|
  {
    assert forall i :: |done| <= i < |done + todo| ==> (done + todo)[i] in todo;
  }

  lemma {:induction false} ScansOnlyLock(scanned: seq<nat>)
    ensures forall a <- ServerSections(scanned) :: (a.Acquire? || a.Release?) && a.lock.ServerMutex?
  {
    if scanned != [] { ScansOnlyLock(scanned[1..]); }
  }

  /** What is done between the last lock and the last unlock of a mutex is done while it is held. */
  lemma {:induction false} InBracket(
    front: seq<Act>, m: Lock, body: seq<Act>, done: seq<Act>, todo: seq<Act>, at: Ledger)
    requires Disciplined(at, todo) && done + todo == front + ([Acquire(m)] + body + [Release(m)])
    requires Acquire(m) !in body && |front| < |done| && todo != []
    ensures m in at.locks
  {
    var n := |done| - |front|;
    assert todo == (front + ([Acquire(m)] + body + [Release(m)]))[|done|..];
    assert todo == (body + [Release(m)])[n - 1..];
    assert todo[|todo| - 1] == Release(m);
    forall a | a in todo ensures a != Acquire(m) { assert a in body + [Release(m)]; }
    HeldTillReleased(at, todo, m);
  }

  // ---- the disconnect callback against the removal ----

  /** What others can see: a notification or a store */
  predicate Visible(a: Act) { Signal(a) || a.Invalidate? }

  predicate Faces(s: State, t: Tid) {
    t in s.threads && s.threads[t].mode.Running? && s.threads[t].todo != [] && Visible(s.threads[t].todo[0])
  }

  lemma {:induction false} CallbackHolds(th: Thread)
    requires th.op.DiscEvt? && Underway(th) && th.mode.Running? && ThreadOk(th)
    requires th.todo != [] && Visible(th.todo[0])
    ensures DisconnectMutex in th.ledger.locks
  {
    var op := th.op;
    var done :| Script(op) == done + th.todo;
    var body := [Invalidate(op.conn)] + NotifyDisconnected(op.conn);
    ScansOnlyLock(op.scanned);
    TailOfSecond(TableScan(op.scanned), DiscNotifications(op.conn), done, th.todo);
    InBracket(TableScan(op.scanned), DisconnectMutex, body, done, th.todo, th.ledger);
  }

  /** disconnectConnOriented in its last section of mMutex, which removes the connection */
  predicate Removing(s: State, u: Tid) {
    && u in s.threads && s.threads[u].op.DisconnectConnOriented? && Unblocks(s.threads[u].op.disconnect)
    && PeerMutex in s.threads[u].ledger.locks && Acquire(PeerMutex) !in s.threads[u].todo
  }

  lemma {:induction false} RemovalHolds(s: State, u: Tid)
    requires LockInv(s) && Removing(s, u) && Underway(s.threads[u])
    ensures DisconnectMutex in s.threads[u].ledger.locks
  {
    var th := s.threads[u];
    assert ThreadOk(th);
    var DisconnectConnOriented(scanned, _, c, outcome, removal) := th.op;
    var done :| Script(th.op) == done + th.todo;
    var request := if outcome == NeverConnected then [] else Call(Disconnecting(c), outcome == DisconnectAccepted);
    var front := TableScan(scanned) + (PeerSection() + (UnblockConn(c) + request));
    var last := [Acquire(DisconnectMutex)] + TableScan(removal) + [Release(DisconnectMutex)];
    assert Script(th.op) == front + last;
    assert last[1] == Acquire(PeerMutex);
    assert (done + th.todo)[|front| + 1] == Acquire(PeerMutex);
    DoneBefore(done, th.todo, |front| + 1);
    ScansOnlyLock(removal);
    HeldIsReleased(th.ledger, th.todo, PeerMutex);
    InBracket(front, DisconnectMutex, TableScan(removal), done, th.todo, th.ledger);
  }

  /** In no reachable state does a disconnect callback store or notify while disconnectConnOriented is removing a
      connection. */
  lemma {:induction false} RemovalExcludesNotifications(ls: seq<Label>, t: Tid, u: Tid)
    requires Legal(START, ls) && Faces(Exec(START, ls), t) && Exec(START, ls).threads[t].op.DiscEvt?
    ensures !Removing(Exec(START, ls), u)
  {
    var s := Exec(START, ls);
    ExecKeepsLockInv(START, ls);
    AllUnderway(START, ls);
    assert ThreadOk(s.threads[t]);
    CallbackHolds(s.threads[t]);
    if u in s.threads && u != t { OneHolder(s, t, u, DisconnectMutex); }
    if Removing(s, u) { RemovalHolds(s, u); }
  }

  lemma {:induction false} OneHolder(s: State, t: Tid, u: Tid, m: Lock)
    requires Exclusion(s) && t in s.threads && u in s.threads && t != u && m in s.threads[t].ledger.locks
    ensures m !in s.threads[u].ledger.locks
  {
    assert s.threads[t].ledger.locks !! s.threads[u].ledger.locks;
  }

  // ---- the sweep of NFC off ----

  lemma {:induction false} SweepHolds(th: Thread)
    requires th.op.NfcOff? && Underway(th) && th.mode.Running? && ThreadOk(th)
    requires th.todo != [] && Visible(th.todo[0])
    ensures PeerMutex in th.ledger.locks
  {
    var done :| Script(th.op) == done + th.todo;
    var body := SweepClients(th.op.clients) + SweepServers(th.op.servers);
    NfcOffScript(th.op.clients, th.op.servers);
    assert Script(th.op) == [] + ([Acquire(PeerMutex)] + body + [Release(PeerMutex)]);
    SweepsTakeNoPeer(th.op.clients, th.op.servers);
    assert (done + th.todo)[0] == Acquire(PeerMutex);
    InBracket([], PeerMutex, body, done, th.todo, th.ledger);
  }

  /** NFC off stores and notifies with mMutex held. */
  lemma {:induction false} SweepHoldsPeerMutex(ls: seq<Label>, t: Tid)
    requires Legal(START, ls) && Faces(Exec(START, ls), t) && Exec(START, ls).threads[t].op.NfcOff?
    ensures PeerMutex in Exec(START, ls).threads[t].ledger.locks
  {
    ExecKeepsLockInv(START, ls);
    AllUnderway(START, ls);
    assert ThreadOk(Exec(START, ls).threads[t]);
    SweepHolds(Exec(START, ls).threads[t]);
  }

  lemma {:induction false} SweepsTakeNoPeer(clients: seq<ClientSweep>, servers: seq<ServerSweep>)
    ensures Acquire(PeerMutex) !in SweepClients(clients) + SweepServers(servers)
  {
    ClientSweepTakesNoPeer(clients);
    ServerSweepTakesNoPeer(servers);
  }

  lemma {:induction false} ClientSweepTakesNoPeer(clients: seq<ClientSweep>)
    ensures Acquire(PeerMutex) !in SweepClients(clients)
  {
    if clients != [] { ClientSweepTakesNoPeer(clients[1..]); }
  }

  lemma {:induction false} ServerSweepTakesNoPeer(servers: seq<ServerSweep>)
    ensures Acquire(PeerMutex) !in SweepServers(servers)
  {
    if servers != [] {
      UnblocksTakeNoPeer(servers[0].conns);
      ServerSweepTakesNoPeer(servers[1..]);
    }
  }

  lemma {:induction false} UnblocksTakeNoPeer(conns: seq<nat>)
    ensures Acquire(PeerMutex) !in UnblockConns(conns)
  {
    if conns != [] { UnblocksTakeNoPeer(conns[1..]); }
  }

  // ---- disconnectConnOriented unblocks before it asks ----

  lemma {:induction false} NoneCounts(todo: seq<Act>, p: Probe)
    requires forall a <- todo :: !Counts(a, p)
    ensures Tally(todo, p) == 0
    decreases todo
  {
    if todo != [] { NoneCounts(todo[1..], p); }
  }

  function BeforeAsking(op: Op): seq<Act>
    requires op.DisconnectConnOriented?
  {
    TableScan(op.scanned) + (PeerSection() + (UnblockConn(op.conn) + [Acquire(EventMutex(Disconnecting(op.conn)))]))
  }

  function FromAsking(op: Op): seq<Act>
    requires op.DisconnectConnOriented?
  {
    var e := Disconnecting(op.conn);
    [Handshake(e), Release(EventMutex(e))]
    + ([Acquire(DisconnectMutex)] + TableScan(op.removalScan) + [Release(DisconnectMutex)])
  }

  lemma {:induction false} AcceptedScript(op: Op)
    requires op.DisconnectConnOriented? && op.disconnect.DisconnectAccepted?
    ensures Script(op) == BeforeAsking(op) + FromAsking(op)
  {
  }

  lemma {:induction false} AfterAskingNoRing(op: Op, a: Act)
    requires op.DisconnectConnOriented?
    ensures a in FromAsking(op) ==> !Signal(a)
    ensures a in BeforeAsking(op) ==> !a.Handshake?
  {
    ScansOnlyLock(op.scanned);
    ScansOnlyLock(op.removalScan);
  }

  lemma {:induction false} NothingToRing(th: Thread, e: Event)
    requires th.op.DisconnectConnOriented? && Underway(th) && th.todo != []
    requires th.todo[0] == Handshake(Disconnecting(th.op.conn))
    ensures Tally(th.todo, Rings(e)) == 0
  {
    var op, todo := th.op, th.todo;
    NextIsIntended(th, Naps(Disconnecting(op.conn)));
    AcceptedScript(op);
    var done :| BeforeAsking(op) + FromAsking(op) == done + todo;
    AfterAskingNoRing(op, todo[0]);
    TailOfSecond(BeforeAsking(op), FromAsking(op), done, todo);
    forall a | a in todo ensures !Counts(a, Rings(e)) { AfterAskingNoRing(op, a); }
    NoneCounts(todo, Rings(e));
  }

  /** What is completed of an operation, if nothing that counts is left */
  lemma {:induction false} AllIsCompleted(s: State, ls: seq<Label>, t: Tid, p: Probe)
    requires LockInv(s) && Legal(s, ls) && t in s.threads && s.threads[t].todo == Script(s.threads[t].op)
    requires t in Exec(s, ls).threads && Tally(Exec(s, ls).threads[t].todo, p) == 0
    ensures Tally(Completed(s, ls, t), p) == Intended(s.threads[t].op, p)
  {
    CompletedAndLeft(s, ls, t);
    TallyOfBoth(Completed(s, ls, t), Exec(s, ls).threads[t].todo, p);
    ScriptIsAsIntended(s.threads[t].op, p);
  }

  lemma {:induction false} RungByNow(s: State, ls: seq<Label>, t: Tid, e: Event)
    requires LockInv(s) && Legal(s, ls) && t in s.threads && s.threads[t].todo == Script(s.threads[t].op)
    requires var op := s.threads[t].op; op.DisconnectConnOriented? && Asleep(Exec(s, ls), t, Disconnecting(op.conn))
    ensures s.threads[t].op.disconnect.DisconnectAccepted?
    ensures Tally(Completed(s, ls, t), Rings(e)) == RingsOf(s.threads[t].op, e)
  {
    var th := Exec(s, ls).threads[t];
    ExecKeepsLockInv(s, ls);
    CompletedAndLeft(s, ls, t);
    assert ThreadOk(th);
    assert Script(th.op) == Completed(s, ls, t) + th.todo;
    NothingToRing(th, e);
    NextIsIntended(th, Naps(Disconnecting(th.op.conn)));
    AllIsCompleted(s, ls, t, Rings(e));
  }

  lemma {:induction false} UnblockedFromHere(s: State, ls: seq<Label>, t: Tid, u: Tid, e: Event)
    requires LockInv(s) && Legal(s, ls) && t in s.threads && s.threads[t].todo == Script(s.threads[t].op)
    requires var op := s.threads[t].op;
             && op.DisconnectConnOriented? && Asleep(Exec(s, ls), t, Disconnecting(op.conn))
             && (e == Congestion(op.conn) || e == Read(op.conn))
    requires Asleep(s, u, e) && SoleSleeper(s, ls, u, e)
    ensures Left(s.threads[u], Exec(s, ls), u)
  {
    RungByNow(s, ls, t, e);
    RingsWake(s, ls, t, u, e);
  }

  /** Once disconnectConnOriented sleeps, waiting for the disconnect it has asked for, whoever slept on the connection's
      congestion or read event when it set out is past that wait. */
  lemma {:induction false} UnblocksBeforeItAsks(before: seq<Label>, t: Tid, op: Op, ls: seq<Label>, u: Tid, e: Event)
    requires Legal(START, before) && t !in Exec(START, before).threads && Legal(Outset(before, t, op), ls)
    requires op.DisconnectConnOriented? && Asleep(Exec(Outset(before, t, op), ls), t, Disconnecting(op.conn))
    requires e == Congestion(op.conn) || e == Read(op.conn)
    requires Asleep(Outset(before, t, op), u, e) && SoleSleeper(Outset(before, t, op), ls, u, e)
    ensures Left(Outset(before, t, op).threads[u], Exec(Outset(before, t, op), ls), u)
  {
    OutsetSetsOut(before, t, op);
    UnblockedFromHere(Outset(before, t, op), ls, t, u, e);
  }
}
