/** createClient waits for the answer to its registration whether or not the stack has accepted it. */
module RefusedRegistration {
  import opened Options
  import opened Monitors
  import opened PeerScripts
  import opened ThreadMachine
  import opened NoLostWakeup
  import opened AnswersSeen
  import opened Reachability
  import opened LockRuns

  /** The thread has asked for a registration, been refused, and waits all the same. */
  predicate SleepsRefused(s: State, t: Tid) {
    t in s.threads && s.threads[t].mode.Waiting? && s.threads[t].todo != [] && s.threads[t].todo[0].WaitRefused?
  }

  lemma {:induction false} StepLeavesRefused(s: State, t: Tid, woken: Option<Tid>, u: Tid)
    requires DeliveryInv(s) && CanRun(s, t, woken) && SleepsRefused(s, u)
    ensures SleepsRefused(Step(s, t, woken), u) && Step(s, t, woken).threads[u] == s.threads[u]
  {
    assert ThreadOk(s.threads[t]) && ThreadOk(s.threads[u]);
    RefusedIsNotOwed(s, u);
    OtherThreadsStep(s, t, woken, u);
    StepEffects(s, t, woken, s.threads[u].mode.event);
  }

  /** Nobody ever wakes it: no bystander notifies a registration, and no answer comes to one that was not asked for. */
  lemma {:induction false} RefusedSleepsOn(s: State, ls: seq<Label>, u: Tid)
    requires DeliveryInv(s) && SleepsRefused(s, u) && Legal(s, ls) && OneRequesterRun(s, ls) && HonestRun(s, ls)
    ensures u in Exec(s, ls).threads && Exec(s, ls).threads[u] == s.threads[u]
    decreases ls
  {
    if ls == [] {
    } else {
      NextKeepsDeliveryInv(s, ls[0]);
      if ls[0].Run? { StepLeavesRefused(s, ls[0].thread, ls[0].woken, u); }
      RefusedSleepsOn(Next(s, ls[0]), ls[1..], u);
    }
  }

  /** In every reachable state, with one requester per object and a stack that answers only when asked: a createClient
      whose registration was refused, once asleep, is asleep after everything that may follow. */
  lemma {:induction false} RefusedClientSleepsForever(ls: seq<Label>, t: Tid, rest: seq<Label>)
    requires Legal(START, ls) && OneRequesterRun(START, ls) && HonestRun(START, ls) && SleepsRefused(Exec(START, ls), t)
    requires Legal(Exec(START, ls), rest) && OneRequesterRun(Exec(START, ls), rest) && HonestRun(Exec(START, ls), rest)
    ensures var s := Exec(Exec(START, ls), rest);
            && SleepsRefused(s, t) && s.threads[t].op.CreateClient?
            && s.threads[t].mode == Waiting(Registering(s.threads[t].op.client))
            && Registering(s.threads[t].op.client) !in s.owed
  {
    ExecKeepsDeliveryInv(START, ls);
    RefusedSleepsOn(Exec(START, ls), rest, t);
    ExecKeepsDeliveryInv(Exec(START, ls), rest);
    RefusedIsNotOwed(Exec(Exec(START, ls), rest), t);
    assert ThreadOk(Exec(Exec(START, ls), rest).threads[t]);
  }

  /** Such a thread is reached at once: the registration is refused, and createClient sleeps with nothing owed to it or
      to anybody. */
  lemma {:induction false} RefusedClientFallsAsleep(client: nat, scanned: seq<nat>)
    ensures exists s :: Reaches(CarefulMoves, START, s) && SleepsRefused(s, 1) && s.owed == {}
                        && s.threads[1].op == CreateClient(client, RegistrationRefused, scanned)
  {
    var op, e := CreateClient(client, RegistrationRefused, scanned), Registering(client);
    var s := Put(START, 1, Thread(op, Script(op), Opening(op), Running));
    var rest := Guarded(e, WaitRefused(e)) + TableScan(scanned);
    Starts(START, 1, op);
    assert s.threads[1].todo == [Acquire(PeerMutex), Release(PeerMutex)] + rest;
    ThroughSection(s, 1, PeerMutex, rest);
    var s1 := Put(s, 1, s.threads[1].(todo := rest));
    ReachesOn(CarefulMoves, START, s, s1);
    FallsAsleep(s1, 1, WaitRefused(e), TableScan(scanned));
    ReachesOn(CarefulMoves, START, s1, Sleeping(s1, 1, WaitRefused(e), [Release(EventMutex(e))] + TableScan(scanned)));
  }
}
