/** Runs of the thread machine in which one thread at a time gets through whole sections. */
module LockRuns {
  import opened Options
  import opened Monitors
  import opened PeerScripts
  import opened ThreadMachine
  import opened NoLostWakeup
  import opened AnswersSeen
  import opened Reachability

  /** The steps with one requester per object, of a stack that answers only when asked */
  ghost predicate CarefulMoves(s: State, s': State) {
    exists l :: Enabled(s, l) && OneRequester(s, l) && HonestStack(s, l) && Next(s, l) == s'
  }

  /** Such steps and the runs of the other theorems are the same thing. */
  lemma {:induction false} CarefulRun(s: State, s': State)
    requires Reaches(CarefulMoves, s, s')
    ensures exists ls :: Legal(s, ls) && OneRequesterRun(s, ls) && HonestRun(s, ls) && Exec(s, ls) == s'
  {
    var path :| Path(CarefulMoves, path) && path[0] == s && path[|path| - 1] == s';
    CarefulPath(path);
  }

  lemma {:induction false} CarefulPath(path: seq<State>)
    requires Path(CarefulMoves, path)
    ensures exists ls :: Legal(path[0], ls) && OneRequesterRun(path[0], ls) && HonestRun(path[0], ls)
                         && Exec(path[0], ls) == path[|path| - 1]
    decreases |path|
  {
    if |path| == 1 {
      assert Legal(path[0], []) && Exec(path[0], []) == path[0];
    } else {
      var rest := path[1..];
      assert forall i :: 0 < i < |rest| ==> rest[i - 1] == path[i] && rest[i] == path[i + 1];
      CarefulPath(rest);
      assert CarefulMoves(path[1 - 1], path[1]);
      var l :| Enabled(path[0], l) && OneRequester(path[0], l) && HonestStack(path[0], l)
        && Next(path[0], l) == path[1];
      var ls :| Legal(rest[0], ls) && OneRequesterRun(rest[0], ls) && HonestRun(rest[0], ls)
                && Exec(rest[0], ls) == rest[|rest| - 1];
      var all := [l] + ls;
      assert all[0] == l && all[1..] == ls;
      assert Legal(path[0], all) && OneRequesterRun(path[0], all) && HonestRun(path[0], all);
      assert Exec(path[0], all) == path[|path| - 1];
    }
  }

  lemma {:induction false} Starts(s: State, t: Tid, op: Op)
    requires t !in s.threads && OneRequester(s, Spawn(t, op)) && HonestStack(s, Spawn(t, op))
    ensures Reaches(CarefulMoves, s, Put(s, t, Thread(op, Script(op), Opening(op), Running)))
  {
    OneStep(CarefulMoves, s, Next(s, Spawn(t, op)));
  }

  lemma {:induction false} Goes(s: State, t: Tid, woken: Option<Tid>)
    requires CanRun(s, t, woken)
    ensures Reaches(CarefulMoves, s, Step(s, t, woken))
  {
    assert Enabled(s, Run(t, woken)) && Next(s, Run(t, woken)) == Step(s, t, woken);
    OneStep(CarefulMoves, s, Step(s, t, woken));
  }

  /** A thread in no section of its own */
  predicate AtEase(s: State, t: Tid, script: seq<Act>) {
    t in s.threads && s.threads[t].mode == Running && s.threads[t].ledger.locks == {} && s.threads[t].todo == script
  }

  /** Through a lock and unlock */
  lemma {:induction false} ThroughSection(s: State, t: Tid, l: Lock, rest: seq<Act>)
    requires AtEase(s, t, [Acquire(l), Release(l)] + rest) && Free(s, l)
    ensures Reaches(CarefulMoves, s, Put(s, t, s.threads[t].(todo := rest)))
  {
    var th := s.threads[t];
    assert th.todo[1..] == [Release(l)] + rest && th.todo[1..][1..] == rest;
    var m := Step(s, t, None);
    Goes(s, t, None);
    Goes(m, t, None);
    assert {} + {l} - {l} == {};
    assert Step(m, t, None) == Put(s, t, th.(todo := rest));
    ReachesOn(CarefulMoves, s, m, Put(s, t, th.(todo := rest)));
  }

  lemma {:induction false} ThroughTwoSections(s: State, t: Tid, a: Lock, b: Lock, rest: seq<Act>)
    requires AtEase(s, t, [Acquire(a), Release(a)] + ([Acquire(b), Release(b)] + rest)) && Free(s, a) && Free(s, b)
    ensures Reaches(CarefulMoves, s, Put(s, t, s.threads[t].(todo := rest)))
  {
    var m := Put(s, t, s.threads[t].(todo := [Acquire(b), Release(b)] + rest));
    ThroughSection(s, t, a, [Acquire(b), Release(b)] + rest);
    ThroughSection(m, t, b, rest);
    assert Put(m, t, m.threads[t].(todo := rest)) == Put(s, t, s.threads[t].(todo := rest));
    ReachesOn(CarefulMoves, s, m, Put(s, t, s.threads[t].(todo := rest)));
  }

  /** The thread with only this instruction, and then the rest, to run */
  function Facing(s: State, t: Tid, a: Act, rest: seq<Act>): State
    requires t in s.threads
  {
    Put(s, t, s.threads[t].(todo := [a] + rest))
  }

  predicate Signal(a: Act) { a.Notify? || a.Answer? }

  /** The thread inside the event's mutex, facing the signal */
  function Inside(s: State, t: Tid, a: Act, rest: seq<Act>): State
    requires t in s.threads && Signal(a)
  {
    var th, m := s.threads[t], EventMutex(a.event);
    Put(s, t, th.(todo := [a, Release(m)] + rest, ledger := th.ledger.(locks := th.ledger.locks + {m})))
  }

  lemma {:induction false} GetsInside(s: State, t: Tid, a: Act, rest: seq<Act>)
    requires t in s.threads && s.threads[t].mode == Running && Signal(a) && Free(s, EventMutex(a.event))
    requires s.threads[t].todo == Guarded(a.event, a) + rest
    ensures Reaches(CarefulMoves, s, Inside(s, t, a, rest))
  {
    assert s.threads[t].todo[1..] == [a, Release(EventMutex(a.event))] + rest;
    Goes(s, t, None);
  }

  /** What a signal does to all but the thread itself, which goes on as `th` */
  function Signalled(s: State, t: Tid, a: Act, woken: Option<Tid>, th: Thread): State
    requires Signal(a)
  {
    match a
    case Answer(e, w) =>
      Wake(Put(s, t, th), e, woken, Callback(t, w))
        .(owed := s.owed - {e}, log := s.log + if w.Some? then [Entry(w.value, t, Some(e))] else [])
    case _ => Wake(Put(s, t, th), a.event, woken, Bystander)
  }

  /** The thread once it has signalled, and about to leave the mutex if it holds it */
  function Past(th: Thread, a: Act, todo: seq<Act>, locks: set<Lock>): Thread {
    th.(todo := todo, ledger := After(th.ledger, a).(locks := locks))
  }

  lemma {:induction false} StepSignals(s: State, t: Tid, a: Act, woken: Option<Tid>)
    requires t in s.threads && s.threads[t].mode == Running && Signal(a)
    requires s.threads[t].todo != [] && s.threads[t].todo[0] == a
    ensures var th := s.threads[t];
            Step(s, t, woken) == Signalled(s, t, a, woken, Past(th, a, th.todo[1..], th.ledger.locks))
  {
  }

  /** Who the thread was before makes no difference. */
  lemma {:induction false} SignalledAnyway(s: State, t: Tid, a: Act, woken: Option<Tid>, x: Thread, y: Thread)
    requires Signal(a)
    ensures Signalled(Put(s, t, x), t, a, woken, y) == Signalled(s, t, a, woken, y)
  {
    assert s.threads[t := x][t := y] == s.threads[t := y];
  }

  lemma {:induction false} SignalIsSignalled(s: State, t: Tid, a: Act, woken: Option<Tid>, x: Thread, rest: seq<Act>)
    requires x.mode == Running && Signal(a) && x.todo == [a] + rest
    ensures Step(Put(s, t, x), t, woken) == Signalled(s, t, a, woken, Past(x, a, rest, x.ledger.locks))
  {
    StepSignals(Put(s, t, x), t, a, woken);
    SignalledAnyway(s, t, a, woken, x, Past(x, a, rest, x.ledger.locks));
    assert x.todo[1..] == rest;
  }

  lemma {:induction false} LeavesSignalled(s: State, t: Tid, a: Act, woken: Option<Tid>, th: Thread, th': Thread)
    requires Signal(a) && woken != Some(t) && th.mode == Running && th.todo != [] && th.todo[0].Release?
    requires th' == th.(todo := th.todo[1..], ledger := After(th.ledger, th.todo[0]))
    ensures Reaches(CarefulMoves, Signalled(s, t, a, woken, th), Signalled(s, t, a, woken, th'))
  {
    var x := Signalled(s, t, a, woken, th);
    assert x.threads[t] == th;
    Goes(x, t, None);
    assert Step(x, t, None).threads == Signalled(s, t, a, woken, th').threads;
  }

  lemma {:induction false} SignalsAndLeaves(s: State, t: Tid, a: Act, woken: Option<Tid>, rest: seq<Act>)
    requires t in s.threads && s.threads[t].mode == Running && Signal(a) && woken != Some(t)
    requires EventMutex(a.event) !in s.threads[t].ledger.locks && Wakes(s, a.event, woken)
    ensures Reaches(CarefulMoves, Inside(s, t, a, rest), Step(Facing(s, t, a, rest), t, woken))
  {
    var th, m, s1 := s.threads[t], EventMutex(a.event), Inside(s, t, a, rest);
    assert Wakes(s1, a.event, woken);
    Goes(s1, t, woken);
    var inside, outside := Past(th, a, [Release(m)] + rest, th.ledger.locks + {m}), Past(th, a, rest, th.ledger.locks);
    assert [a, Release(m)] + rest == [a] + ([Release(m)] + rest);
    SignalIsSignalled(s, t, a, woken, s1.threads[t], [Release(m)] + rest);
    SignalIsSignalled(s, t, a, woken, th.(todo := [a] + rest), rest);
    assert th.ledger.locks + {m} - {m} == th.ledger.locks && ([Release(m)] + rest)[1..] == rest;
    LeavesSignalled(s, t, a, woken, inside, outside);
    ReachesOn(CarefulMoves, s1, Signalled(s, t, a, woken, inside), Signalled(s, t, a, woken, outside));
  }

  /** What a thread does under an event's mutex, seen from outside */
  lemma {:induction false} ThroughGuarded(s: State, t: Tid, a: Act, woken: Option<Tid>, rest: seq<Act>)
    requires t in s.threads && s.threads[t].mode == Running && Signal(a)
    requires s.threads[t].todo == Guarded(a.event, a) + rest && EventMutex(a.event) !in s.threads[t].ledger.locks
    requires Free(s, EventMutex(a.event)) && Wakes(s, a.event, woken) && woken != Some(t)
    ensures Reaches(CarefulMoves, s, Step(Facing(s, t, a, rest), t, woken))
  {
    GetsInside(s, t, a, rest);
    SignalsAndLeaves(s, t, a, woken, rest);
    ReachesOn(CarefulMoves, s, Inside(s, t, a, rest), Step(Facing(s, t, a, rest), t, woken));
  }

  /** The thread asleep on e, having called the stack before if it has anything to ask */
  function Sleeping(s: State, t: Tid, a: Act, rest: seq<Act>): State
    requires t in s.threads && (a.Wait? || Asks(a))
  {
    var th := s.threads[t].(todo := [a] + rest, mode := Waiting(a.event));
    Put(s, t, th).(owed := if a.Handshake? then s.owed + {a.event} else s.owed)
  }

  lemma {:induction false} FallsAsleep(s: State, t: Tid, a: Act, rest: seq<Act>)
    requires (a.Wait? || Asks(a)) && AtEase(s, t, Guarded(a.event, a) + rest) && Free(s, EventMutex(a.event))
    ensures Reaches(CarefulMoves, s, Sleeping(s, t, a, [Release(EventMutex(a.event))] + rest))
  {
    var th, m := s.threads[t], EventMutex(a.event);
    var s1 := Step(s, t, None);
    assert th.todo[1..] == [a] + ([Release(m)] + rest);
    Goes(s, t, None);
    var s2 := Step(s1, t, None);
    Goes(s1, t, None);
    ReachesOn(CarefulMoves, s, s1, s2);
    assert {} + {m} - {m} == {};
    var end := Sleeping(s, t, a, [Release(m)] + rest);
    if a.Handshake? {
      Goes(s2, t, None);
      assert Step(s2, t, None).threads == end.threads;
      ReachesOn(CarefulMoves, s, s2, end);
    } else {
      assert s2.threads == end.threads;
    }
  }
}
