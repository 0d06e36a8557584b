/** P2pServer::accept publishes its connection, and PeerToPeer::receive finds no data, before they take the event's
    mutex, so the notification they are to wait for can come too early. */
module AcceptRace {
  import opened Options
  import opened Monitors
  import opened PeerScripts
  import opened ThreadMachine
  import opened AnswersSeen
  import opened Reachability
  import opened LockRuns

  // ---- exactly when the request is heard ----

  /** Thread `t` is about to notify event e, as a bystander or with an answer. */
  predicate Notifying(s: State, t: Tid, e: Event) {
    t in s.threads && s.threads[t].mode == Running && s.threads[t].todo != [] && Signal(s.threads[t].todo[0])
    && s.threads[t].todo[0].event == e
  }

  function WakerOf(t: Tid, a: Act): Waker
    requires Signal(a)
  {
    if a.Answer? then Callback(t, a.write) else Bystander
  }

  ghost predicate NoOtherSleeps(s: State, u: Tid, e: Event) {
    forall x <- s.threads :: x != u ==> !Asleep(s, x, e)
  }

  /** At the instruction that notifies, the one thread there may be on the event is woken if it is asleep, and is left
      as it is if not. */
  lemma {:induction false} NotifyWakesExactlyTheSleeper(s: State, t: Tid, woken: Option<Tid>, e: Event, u: Tid)
    requires Notifying(s, t, e) && CanRun(s, t, woken) && u in s.threads && u != t && NoOtherSleeps(s, u, e)
    ensures var a := s.threads[t].todo[0];
            && Next(s, Run(t, woken)).threads[u] ==
                 (if Asleep(s, u, e) then s.threads[u].(mode := Woken(e, WakerOf(t, a))) else s.threads[u])
            && (a.Answer? ==> e !in Next(s, Run(t, woken)).owed)
  {
  }

  /** Ready to wait on e, or waiting: accept from the moment its connection is in the table, receive from the moment it
      has found no data. */
  predicate InWindow(s: State, u: Tid, e: Event) {
    u in s.threads && s.threads[u].todo != [] &&
    var th := s.threads[u];
    || (th.mode == Running && |th.todo| > 1 && th.todo[0] == Acquire(EventMutex(e)) && th.todo[1] == Wait(e))
    || (th.todo[0] == Wait(e) && (th.mode == Running || th.mode == Waiting(e)))
  }

  predicate Signals(s: State, l: Label, e: Event) { l.Run? && Notifying(s, l.thread, e) }

  /** Nobody notifies the event any more, whatever else is done. */
  ghost predicate Quiet(s: State, ls: seq<Label>, e: Event)
    requires Legal(s, ls)
    decreases ls
  {
    ls == [] || (!Signals(s, ls[0], e) && Quiet(Next(s, ls[0]), ls[1..], e))
  }

  lemma {:induction false} QuietStepKeepsWindow(s: State, l: Label, e: Event, u: Tid)
    requires Enabled(s, l) && !Signals(s, l, e) && InWindow(s, u, e)
    ensures InWindow(Next(s, l), u, e)
  {
  }

  lemma {:induction false} QuietRunKeepsWindow(s: State, ls: seq<Label>, e: Event, u: Tid)
    requires Legal(s, ls) && Quiet(s, ls, e) && InWindow(s, u, e)
    ensures InWindow(Exec(s, ls), u, e)
    decreases ls
  {
    if ls == [] {
    } else {
      QuietStepKeepsWindow(s, ls[0], e, u);
      QuietRunKeepsWindow(Next(s, ls[0]), ls[1..], e, u);
    }
  }

  /** accept and receive wait without having requested anything, so their events are never owed. */
  lemma {:induction false} OnlyRequestsAreOwed(s: State, ls: seq<Label>)
    requires LockInv(s) && Legal(s, ls) && forall e <- s.owed :: IsHandshakeEvent(e)
    ensures forall e <- Exec(s, ls).owed :: IsHandshakeEvent(e)
    decreases ls
  {
    if ls == [] {
    } else {
      NextKeepsLockInv(s, ls[0]);
      if ls[0].Run? { assert ThreadOk(s.threads[ls[0].thread]); }
      OnlyRequestsAreOwed(Next(s, ls[0]), ls[1..]);
    }
  }

  /** Some continuation without a further notification gets the thread past its wait. */
  ghost predicate GetsPast(s: State, u: Tid, e: Event) {
    exists rest :: Legal(s, rest) && Quiet(s, rest, e) && !InWindow(Exec(s, rest), u, e)
  }

  /** Before or in the wait; in it, unless there is something for the thread to do */
  ghost predicate SleepsUnowed(s: State, u: Tid, e: Event) {
    InWindow(s, u, e) && (Busy(s, u) || Asleep(s, u, e)) && e !in s.owed
  }

  /** In every reachable state, for accept waiting for a connection request as for receive waiting for data: a
      notification that comes when the thread is ready to wait or waits, and no other sleeps on the event, lets it
      past its wait exactly when it is already asleep.  If it is not, it is before or in its wait in all that
      follows, and sleeps there with nothing owed once it has nothing else to do. */
  lemma {:induction false} WaiterIsWokenExactlyWhenAsleep(ls: seq<Label>, t: Tid, woken: Option<Tid>, e: Event, u: Tid)
    requires Legal(START, ls) && !IsHandshakeEvent(e)
    requires var s := Exec(START, ls);
             Notifying(s, t, e) && CanRun(s, t, woken) && InWindow(s, u, e) && NoOtherSleeps(s, u, e)
    ensures var s := Exec(START, ls);
            GetsPast(Next(s, Run(t, woken)), u, e) <==> Asleep(s, u, e)
    ensures var s := Exec(START, ls);
            !Asleep(s, u, e) ==>
              forall rest :: Legal(Next(s, Run(t, woken)), rest) && Quiet(Next(s, Run(t, woken)), rest, e) ==>
                SleepsUnowed(Exec(Next(s, Run(t, woken)), rest), u, e)
  {
    var s := Exec(START, ls);
    ExecKeepsLockInv(START, ls);
    OnlyRequestsAreOwed(START, ls);
    NotifyWakesExactlyTheSleeper(s, t, woken, e, u);
    NextKeepsLockInv(s, Run(t, woken));
    var s1 := Next(s, Run(t, woken));
    if Asleep(s, u, e) {
      assert Legal(s1, []) && Quiet(s1, [], e) && Exec(s1, []) == s1;
    } else {
      forall rest | Legal(s1, rest) && Quiet(s1, rest, e) ensures SleepsUnowed(Exec(s1, rest), u, e) {
        QuietRunKeepsWindow(s1, rest, e, u);
        OnlyRequestsAreOwed(s1, rest);
      }
    }
  }

  // ---- a request that comes too early ----

  /** accept has allocated its connection and not yet taken the event's mutex. */
  function Publisher(server: nat): Thread {
    var e := ConnRequest(server);
    Thread(Accept(server, true, true, true), Guarded(e, Wait(e)), NOTHING, Running)
  }

  lemma {:induction false} AcceptPublishes(server: nat)
    ensures Reaches(CarefulMoves, START, Put(START, 1, Publisher(server)))
  {
    var accept, e := Accept(server, true, true, true), ConnRequest(server);
    var a := Thread(accept, Script(accept), NOTHING, Running);
    var s := Put(START, 1, a);
    Starts(START, 1, accept);
    assert a.todo == [Acquire(PeerMutex), Release(PeerMutex)]
                     + ([Acquire(ServerMutex(server)), Release(ServerMutex(server))] + Guarded(e, Wait(e)));
    ThroughTwoSections(s, 1, PeerMutex, ServerMutex(server), Guarded(e, Wait(e)));
    assert Put(s, 1, a.(todo := Guarded(e, Wait(e)))) == Put(START, 1, Publisher(server));
    ReachesOn(CarefulMoves, START, s, Put(START, 1, Publisher(server)));
  }

  function Asked(server: nat, h: int): Op { ConnReqEvt(server, true, Some(0), h) }

  /** The connection request has been answered. */
  function Served(server: nat, h: int): State {
    var e, w := ConnRequest(server), Write(ConnHandle(OfServer(0)), h);
    State(map[1 := Publisher(server), 2 := Thread(Asked(server, h), [], NOTHING, Running)], {}, [Entry(w, 2, Some(e))])
  }

  lemma {:induction false} RequestIsUnheard(server: nat, h: int)
    ensures Reaches(CarefulMoves, Put(START, 1, Publisher(server)), Served(server, h))
  {
    var s, e := Put(START, 1, Publisher(server)), ConnRequest(server);
    var a := Answer(e, Some(Write(ConnHandle(OfServer(0)), h)));
    var s1 := RequestArrives(server, h);
    assert s1.threads[2].todo == Guarded(e, a) + [];
    ThroughGuarded(s1, 2, a, None, []);
    assert [a] + [] == [a] && [a][1..] == [];
    var end := Step(Facing(s1, 2, a, []), 2, None);
    assert end.threads == Served(server, h).threads && end.owed == {} && end.log == Served(server, h).log;
    ReachesOn(CarefulMoves, s, s1, Served(server, h));
  }

  lemma {:induction false} RequestArrives(server: nat, h: int) returns (s1: State)
    ensures s1 == Put(Put(START, 1, Publisher(server)), 2,
                      Thread(Asked(server, h), Accepting(server, 0, h), NOTHING, Running))
    ensures Reaches(CarefulMoves, Put(START, 1, Publisher(server)), s1)
  {
    var s, op := Put(START, 1, Publisher(server)), Asked(server, h);
    var r := Thread(op, Script(op), NOTHING, Running);
    Starts(s, 2, op);
    assert r.todo == [Acquire(PeerMutex), Release(PeerMutex)]
                     + ([Acquire(ServerMutex(server)), Release(ServerMutex(server))] + Accepting(server, 0, h));
    ThroughTwoSections(Put(s, 2, r), 2, PeerMutex, ServerMutex(server), Accepting(server, 0, h));
    s1 := Put(Put(s, 2, r), 2, r.(todo := Accepting(server, 0, h)));
    assert s1 == Put(s, 2, Thread(op, Accepting(server, 0, h), NOTHING, Running));
    ReachesOn(CarefulMoves, s, Put(s, 2, r), s1);
  }

  /** A run in which the stack's connection request arrives after accept has published its connection and before it
      waits: the callback stores the handle and notifies nobody, and accept then sleeps with nothing owed to it. */
  lemma {:induction false} AcceptCanMissItsRequest(server: nat, h: int)
    ensures exists s :: Reaches(CarefulMoves, START, s) && s.threads.Keys == {1, 2} && s.owed == {}
                        && s.threads[1].op.Accept? && s.threads[1].mode == Waiting(ConnRequest(server))
                        && s.threads[2].op == Asked(server, h) && s.threads[2].todo == []
                        && Latest(s.log, ConnHandle(OfServer(0))) == Some(h)
  {
    var e, s := ConnRequest(server), Served(server, h);
    AcceptPublishes(server);
    RequestIsUnheard(server, h);
    ReachesOn(CarefulMoves, START, Put(START, 1, Publisher(server)), s);
    assert Guarded(e, Wait(e)) == Guarded(e, Wait(e)) + [];
    FallsAsleep(s, 1, Wait(e), []);
    ReachesOn(CarefulMoves, START, s, Sleeping(s, 1, Wait(e), [Release(EventMutex(e))] + []));
  }
}
