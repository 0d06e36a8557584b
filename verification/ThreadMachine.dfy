/** Any number of threads running the peer-to-peer operations and callbacks, interleaved instruction by
    instruction, with POSIX mutexes and condition variables. */
module ThreadMachine {
  import opened Options
  import opened Monitors
  import opened PeerScripts

  type Tid = nat

  /** Who has notified, and what its callback stored */
  datatype Waker = Bystander | Callback(thread: Tid, write: Option<Write>)

  datatype Mode =
    | Running
    | Called(event: Event)               // the stack has accepted the request; the event's mutex is still held
    | Waiting(event: Event)              // inside SyncEvent::wait, the event's mutex given up
    | Woken(event: Event, waker: Waker)  // notified, taking the event's mutex back

  /** `todo` starts with the instruction under way. */
  datatype Thread = Thread(op: Op, todo: seq<Act>, ledger: Ledger, mode: Mode)

  /** One store of a handle: by which thread, and in answer to which event, if to any. */
  datatype Entry = Entry(write: Write, thread: Tid, answering: Option<Event>)

  /** `owed` are the events for which the stack has accepted a request and not yet delivered the answer; `log` is
      every store of a handle so far. */
  datatype State = State(threads: map<Tid, Thread>, owed: set<Event>, log: seq<Entry>)

  const START := State(map[], {}, [])

  /** What a field holds; None before its first store. */
  function Latest(log: seq<Entry>, f: Field): Option<int> {
    if log == [] then None
    else if log[|log| - 1].write.field == f then Some(log[|log| - 1].write.value) else Latest(log[..|log| - 1], f)
  }

  datatype Label = Spawn(thread: Tid, op: Op) | Run(thread: Tid, woken: Option<Tid>)

  ghost predicate Free(s: State, l: Lock) {
    forall t <- s.threads :: l !in s.threads[t].ledger.locks
  }

  predicate Asleep(s: State, t: Tid, e: Event) {
    t in s.threads && s.threads[t].mode == Waiting(e)
  }

  /** pthread_cond_signal wakes one sleeping thread, if there is one. */
  ghost predicate Wakes(s: State, e: Event, woken: Option<Tid>) {
    match woken
    case None => forall t <- s.threads :: !Asleep(s, t, e)
    case Some(w) => Asleep(s, w, e)
  }

  ghost predicate CanRun(s: State, t: Tid, woken: Option<Tid>) {
    t in s.threads && s.threads[t].todo != [] &&
    var th := s.threads[t];
    match th.mode
    case Called(_) => woken.None?
    case Waiting(_) => false
    case Woken(e, _) => woken.None? && Free(s, EventMutex(e))
    case Running =>
      match th.todo[0]
      case Acquire(l) => woken.None? && Free(s, l)
      case Notify(e) => Wakes(s, e, woken)
      case Answer(e, _) => Wakes(s, e, woken)
      case _ => woken.None?
  }

  ghost predicate Enabled(s: State, l: Label) {
    match l
    case Spawn(t, _) => t !in s.threads
    case Run(t, woken) => CanRun(s, t, woken)
  }

  function Put(s: State, t: Tid, th: Thread): State { s.(threads := s.threads[t := th]) }

  function Wake(s: State, e: Event, woken: Option<Tid>, waker: Waker): State {
    if woken.Some? && woken.value in s.threads
    then Put(s, woken.value, s.threads[woken.value].(mode := Woken(e, waker)))
    else s
  }

  /** The ledger of a thread whose wait is over */
  function Resumed(th: Thread, e: Event): Ledger
    requires th.todo != []
  {
    After(After(th.ledger, Acquire(EventMutex(e))), th.todo[0])
  }

  function GiveUp(at: Ledger, e: Event): Ledger { at.(locks := at.locks - {EventMutex(e)}) }

  /** The state after thread `t` has run one instruction. */
  function Step(s: State, t: Tid, woken: Option<Tid>): State
    requires t in s.threads && s.threads[t].todo != []
  {
    var th := s.threads[t];
    var next := th.(todo := th.todo[1..]);
    match th.mode
    case Called(e) => Put(s, t, th.(mode := Waiting(e), ledger := GiveUp(th.ledger, e)))
    case Waiting(_) => s
    case Woken(e, _) => Put(s, t, next.(mode := Running, ledger := Resumed(th, e)))
    case Running =>
      var done := next.(ledger := After(th.ledger, th.todo[0]));
      match th.todo[0]
      case Acquire(_) => Put(s, t, done)
      case Release(_) => Put(s, t, done)
      case Handshake(e) => Put(s, t, th.(mode := Called(e))).(owed := s.owed + {e})
      case WaitRefused(e) => Put(s, t, th.(mode := Waiting(e), ledger := GiveUp(th.ledger, e)))
      case Wait(e) => Put(s, t, th.(mode := Waiting(e), ledger := GiveUp(th.ledger, e)))
      case Notify(e) => Wake(Put(s, t, done), e, woken, Bystander)
      case Answer(e, w) =>
        Wake(Put(s, t, done), e, woken, Callback(t, w))
          .(owed := s.owed - {e}, log := s.log + if w.Some? then [Entry(w.value, t, Some(e))] else [])
      case Invalidate(c) => Put(s, t, done).(log := s.log + [Entry(Write(ConnHandle(c), INVALID), t, None)])
  }

  ghost function Next(s: State, l: Label): State
    requires Enabled(s, l)
  {
    match l
    case Spawn(t, op) => Put(s, t, Thread(op, Script(op), Opening(op), Running))
    case Run(t, woken) => Step(s, t, woken)
  }

  ghost predicate Legal(s: State, ls: seq<Label>)
    decreases ls
  {
    ls == [] || (Enabled(s, ls[0]) && Legal(Next(s, ls[0]), ls[1..]))
  }

  /** The state reached from `s` by a run. */
  ghost function Exec(s: State, ls: seq<Label>): State
    requires Legal(s, ls)
    decreases ls
  {
    if ls == [] then s else Exec(Next(s, ls[0]), ls[1..])
  }

  /** One step of any thread, or a new thread */
  ghost predicate Moves(s: State, s': State) { exists l :: Enabled(s, l) && Next(s, l) == s' }

  // ---- the locking invariant ----

  predicate ThreadOk(th: Thread) {
    match th.mode
    case Running => Disciplined(th.ledger, th.todo)
    case Called(e) =>
      th.todo != [] && th.todo[0] == Handshake(e) && IsHandshakeEvent(e)
      && th.ledger.locks == {EventMutex(e)} && Disciplined(th.ledger, th.todo[1..])
    case Waiting(e) => Suspended(th, e)
    case Woken(e, _) => Suspended(th, e)
  }

  predicate Suspended(th: Thread, e: Event) {
    && th.todo != [] && th.ledger.locks == {} && Disciplined(Resumed(th, e), th.todo[1..])
    && if !IsHandshakeEvent(e) then th.todo[0] == Wait(e)
       else th.todo[0] == Handshake(e)
            || (th.todo[0] == WaitRefused(e) && e.Registering? && th.ledger.refused == Some(e))
  }

  ghost predicate Exclusion(s: State) {
    forall t, u | t in s.threads && u in s.threads && t != u :: s.threads[t].ledger.locks !! s.threads[u].ledger.locks
  }

  ghost predicate LockInv(s: State) {
    (forall t <- s.threads :: ThreadOk(s.threads[t])) && Exclusion(s)
  }

  /** One instruction keeps the discipline of the thread that runs it. */
  lemma {:induction false} OwnThreadStep(s: State, t: Tid, woken: Option<Tid>)
    requires LockInv(s) && CanRun(s, t, woken)
    ensures t in Step(s, t, woken).threads && ThreadOk(Step(s, t, woken).threads[t])
    ensures forall l <- Step(s, t, woken).threads[t].ledger.locks :: l in s.threads[t].ledger.locks || Free(s, l)
  {
    var th := s.threads[t];
    assert ThreadOk(th);
    match th.mode {
      case Called(e) => assert {EventMutex(e)} - {EventMutex(e)} + {EventMutex(e)} == {EventMutex(e)};
      case Waiting(_) => assert false;
      case Woken(_, _) =>
      case Running =>
        assert Permitted(th.ledger, th.todo[0]) && Disciplined(After(th.ledger, th.todo[0]), th.todo[1..]);
        match th.todo[0] {
          case Wait(e) => assert {EventMutex(e)} - {EventMutex(e)} + {EventMutex(e)} == {EventMutex(e)};
          case WaitRefused(e) => assert {EventMutex(e)} - {EventMutex(e)} + {EventMutex(e)} == {EventMutex(e)};
          case _ =>
        }
    }
  }

  /** ... and touches no other thread, except that the thread it wakes stops waiting. */
  lemma {:induction false} OtherThreadsStep(s: State, t: Tid, woken: Option<Tid>, u: Tid)
    requires LockInv(s) && CanRun(s, t, woken) && u in s.threads && u != t
    ensures Step(s, t, woken).threads.Keys == s.threads.Keys
    ensures Step(s, t, woken).threads[u] == s.threads[u]
            || (woken == Some(u) && s.threads[u].mode.Waiting? && Step(s, t, woken).threads[u].mode.Woken?
                && Step(s, t, woken).threads[u].mode.event == s.threads[u].mode.event
                && Step(s, t, woken).threads[u] == s.threads[u].(mode := Step(s, t, woken).threads[u].mode))
  {
  }

  lemma {:induction false} StepKeepsLockInv(s: State, t: Tid, woken: Option<Tid>)
    requires LockInv(s) && CanRun(s, t, woken)
    ensures LockInv(Step(s, t, woken))
  {
    var s' := Step(s, t, woken);
    OwnThreadStep(s, t, woken);
    assert s'.threads.Keys == s.threads.Keys;
    forall u | u in s.threads && u != t
      ensures ThreadOk(s'.threads[u]) && s'.threads[u].ledger.locks == s.threads[u].ledger.locks
    {
      OtherThreadsStep(s, t, woken, u);
      assert ThreadOk(s.threads[u]);
    }
    forall a, b | a in s'.threads && b in s'.threads && a != b
      ensures s'.threads[a].ledger.locks !! s'.threads[b].ledger.locks
    {
      if a == t {
        forall l | l in s'.threads[a].ledger.locks ensures l !in s'.threads[b].ledger.locks {}
      } else if b == t {
        forall l | l in s'.threads[b].ledger.locks ensures l !in s'.threads[a].ledger.locks {}
      }
    }
  }

  lemma {:induction false} NextKeepsLockInv(s: State, l: Label)
    requires LockInv(s) && Enabled(s, l)
    ensures LockInv(Next(s, l))
  {
    match l {
      case Spawn(t, op) => EveryOperationDisciplined(op);
      case Run(t, woken) => StepKeepsLockInv(s, t, woken);
    }
  }

  lemma {:induction false} ExecKeepsLockInv(s: State, ls: seq<Label>)
    requires LockInv(s) && Legal(s, ls)
    ensures LockInv(Exec(s, ls))
    decreases ls
  {
    if ls == [] {
    } else {
      NextKeepsLockInv(s, ls[0]);
      ExecKeepsLockInv(Next(s, ls[0]), ls[1..]);
    }
  }

  // ---- deadlock freedom ----

  /** The mutex a thread is asking for, if its next move is to take one. */
  function Wanted(th: Thread): Option<Lock> {
    match th.mode
    case Woken(e, _) => Some(EventMutex(e))
    case Running => if th.todo != [] && th.todo[0].Acquire? then Some(th.todo[0].lock) else None
    case _ => None
  }

  /** `t` cannot go on until `u` gives up a mutex. */
  predicate BlockedBy(s: State, t: Tid, u: Tid) {
    t in s.threads && u in s.threads && Wanted(s.threads[t]).Some?
      && Wanted(s.threads[t]).value in s.threads[u].ledger.locks
  }

  /** If the holder of a mutex is itself blocked, it is blocked on a mutex of higher rank. */
  lemma {:induction false} BlockedHolderWantsHigher(s: State, t: Tid, u: Tid, v: Tid)
    requires LockInv(s) && BlockedBy(s, t, u) && BlockedBy(s, u, v)
    ensures Rank(Wanted(s.threads[t]).value) < Rank(Wanted(s.threads[u]).value)
  {
    assert ThreadOk(s.threads[u]);
    assert s.threads[u].ledger.locks != {};
    assert Permitted(s.threads[u].ledger, s.threads[u].todo[0]);
  }

  /** The i-th thread of a closed walk is blocked by the one after it. */
  predicate Link(s: State, cycle: seq<Tid>, i: nat)
    requires i < |cycle|
  {
    BlockedBy(s, cycle[i], cycle[if i + 1 == |cycle| then 0 else i + 1])
  }

  /** No reachable state has a cycle of threads blocked on each other's mutexes. */
  lemma {:induction false} NoDeadlockCycle(ls: seq<Label>, cycle: seq<Tid>)
    requires Legal(START, ls) && cycle != []
    ensures exists i :: 0 <= i < |cycle| && !Link(Exec(START, ls), cycle, i)
  {
    var s := Exec(START, ls);
    ExecKeepsLockInv(START, ls);
    if forall i :: 0 <= i < |cycle| ==> Link(s, cycle, i) {
      var last := |cycle| - 1;
      RanksClimb(s, cycle, last);
      assert Link(s, cycle, last) && Link(s, cycle, 0);
      BlockedHolderWantsHigher(s, cycle[last], cycle[0], cycle[if last == 0 then 0 else 1]);
      assert false;
    }
  }

  lemma {:induction false} RanksClimb(s: State, cycle: seq<Tid>, n: nat)
    requires LockInv(s) && n < |cycle|
    requires forall i :: 0 <= i < |cycle| ==> Link(s, cycle, i)
    ensures cycle[n] in s.threads && cycle[0] in s.threads
    ensures Wanted(s.threads[cycle[n]]).Some? && Wanted(s.threads[cycle[0]]).Some?
    ensures Rank(Wanted(s.threads[cycle[0]]).value) <= Rank(Wanted(s.threads[cycle[n]]).value)
  {
    assert Link(s, cycle, n);
    if n == 0 {
    } else {
      RanksClimb(s, cycle, n - 1);
      assert Link(s, cycle, n - 1);
      BlockedHolderWantsHigher(s, cycle[n - 1], cycle[n], cycle[if n + 1 == |cycle| then 0 else n + 1]);
    }
  }

  /** The thread still has instructions to run and is not asleep in SyncEvent::wait. */
  predicate Busy(s: State, t: Tid) {
    t in s.threads && s.threads[t].todo != [] && !s.threads[t].mode.Waiting?
  }

  ghost predicate SomeoneCanRun(s: State) {
    exists t, woken :: CanRun(s, t, woken)
  }

  /** From any busy thread, following the holders of wanted mutexes leads to a thread that can run. */
  lemma {:induction false} ChainEndsInRunnable(s: State, t: Tid)
    requires LockInv(s) && Busy(s, t)
    ensures SomeoneCanRun(s)
    decreases if Wanted(s.threads[t]).Some? then MAX_RANK - Rank(Wanted(s.threads[t]).value) else MAX_RANK + 1
  {
    var th := s.threads[t];
    assert ThreadOk(th);
    match Wanted(th) {
      case Some(l) =>
        if Free(s, l) {
          assert CanRun(s, t, None);
        } else {
          var u :| u in s.threads && l in s.threads[u].ledger.locks;
          assert ThreadOk(s.threads[u]);
          assert Busy(s, u);
          if Wanted(s.threads[u]).Some? {
            assert Permitted(s.threads[u].ledger, s.threads[u].todo[0]);
            ChainEndsInRunnable(s, u);
          } else {
            UnblockedCanRun(s, u);
          }
        }
      case None => UnblockedCanRun(s, t);
    }
  }

  lemma {:induction false} UnblockedCanRun(s: State, t: Tid)
    requires LockInv(s) && Busy(s, t) && Wanted(s.threads[t]).None?
    ensures SomeoneCanRun(s)
  {
    var th := s.threads[t];
    if th.mode.Running? && (th.todo[0].Notify? || th.todo[0].Answer?) {
      var e := th.todo[0].event;
      if w :| w in s.threads && Asleep(s, w, e) {
        assert CanRun(s, t, Some(w));
      } else {
        assert CanRun(s, t, None);
      }
    } else {
      assert CanRun(s, t, None);
    }
  }

  /** Deadlock freedom: in every reachable state, unless every thread has finished or sleeps in
      SyncEvent::wait, some thread can run its next instruction. */
  lemma {:induction false} DeadlockFreedom(ls: seq<Label>, t: Tid)
    requires Legal(START, ls) && Busy(Exec(START, ls), t)
    ensures SomeoneCanRun(Exec(START, ls))
  {
    ExecKeepsLockInv(START, ls);
    ChainEndsInRunnable(Exec(START, ls), t);
  }

  /** A thread that sleeps on an event holds no mutex at all; a thread about to sleep holds only the
      event's own. */
  lemma {:induction false} SleepersHoldNothing(ls: seq<Label>, t: Tid)
    requires Legal(START, ls) && t in Exec(START, ls).threads
    ensures var th := Exec(START, ls).threads[t];
            && (th.mode.Waiting? ==> th.ledger.locks == {})
            && (th.mode.Called? ==> th.ledger.locks == {EventMutex(th.mode.event)})
            && (th.mode.Running? && th.todo != []
                && (th.todo[0].Wait? || th.todo[0].Handshake? || th.todo[0].WaitRefused?) ==>
                  th.ledger.locks == {EventMutex(th.todo[0].event)})
  {
    ExecKeepsLockInv(START, ls);
    assert ThreadOk(Exec(START, ls).threads[t]);
  }
}
