/** What a call or a callback has done to the others once it has finished, whatever ran in between: whom it has woken,
    which requests it has discharged, which handles it has stored, how often it has slept and taken each mutex. */
module OperationEffects {
  import opened Options
  import opened Monitors
  import opened PeerScripts
  import opened ThreadMachine
  import opened NoLostWakeup
  import opened ThreadTraces
  import opened OperationPurposes
  import opened ScriptTallies

  /** The state in which thread `t` sets out on the operation, after a run of whatever else */
  ghost function Outset(before: seq<Label>, t: Tid, op: Op): State
    requires Legal(START, before) && t !in Exec(START, before).threads
  {
    Next(Exec(START, before), Spawn(t, op))
  }

  /** From there, thread `t` and any others run until thread `t` has finished. */
  ghost predicate Course(before: seq<Label>, t: Tid, op: Op, ls: seq<Label>) {
    && Legal(START, before) && t !in Exec(START, before).threads && Legal(Outset(before, t, op), ls)
    && IsThrough(Outset(before, t, op), ls, t)
  }

  /** Thread `t` is about to begin the operation. */
  ghost predicate SetsOut(s: State, t: Tid, op: Op) {
    LockInv(s) && t in s.threads && s.threads[t].op == op && s.threads[t].todo == Script(op)
  }

  ghost predicate IsThrough(s: State, ls: seq<Label>, t: Tid)
    requires Legal(s, ls)
  {
    t in Exec(s, ls).threads && Exec(s, ls).threads[t].todo == []
  }

  lemma {:induction false} OutsetSetsOut(before: seq<Label>, t: Tid, op: Op)
    requires Legal(START, before) && t !in Exec(START, before).threads
    ensures SetsOut(Outset(before, t, op), t, op)
  {
    ExecKeepsLockInv(START, before);
    NextKeepsLockInv(Exec(START, before), Spawn(t, op));
  }

  lemma {:induction false} FinishedCompletes(s: State, ls: seq<Label>, t: Tid, op: Op, p: Probe)
    requires SetsOut(s, t, op) && Legal(s, ls) && IsThrough(s, ls, t)
    ensures Tally(Completed(s, ls, t), p) == Intended(op, p)
  {
    CompletedAndLeft(s, ls, t);
    assert Completed(s, ls, t) == Script(op);
    ScriptIsAsIntended(op, p);
  }

  lemma {:induction false} WakesFromHere(s: State, ls: seq<Label>, t: Tid, op: Op, u: Tid, e: Event)
    requires SetsOut(s, t, op) && Legal(s, ls) && IsThrough(s, ls, t) && RingsOf(op, e) > 0
    requires Asleep(s, u, e) && SoleSleeper(s, ls, u, e)
    ensures Left(s.threads[u], Exec(s, ls), u)
  {
    FinishedCompletes(s, ls, t, op, Rings(e));
    RingsWake(s, ls, t, u, e);
  }

  /** Whoever sleeps on an event that an operation is to notify, when it sets out, is past that wait when it has
      finished, if nobody else slept on the event meanwhile. */
  lemma {:induction false} FinishedHasWoken(before: seq<Label>, t: Tid, op: Op, ls: seq<Label>, u: Tid, e: Event)
    requires Course(before, t, op, ls) && RingsOf(op, e) > 0
    requires Asleep(Outset(before, t, op), u, e) && SoleSleeper(Outset(before, t, op), ls, u, e)
    ensures Left(Outset(before, t, op).threads[u], Exec(Outset(before, t, op), ls), u)
  {
    OutsetSetsOut(before, t, op);
    WakesFromHere(Outset(before, t, op), ls, t, op, u, e);
  }

  /** With one requester per object, nobody else sleeps on an event that is asked for. */
  lemma {:induction false} RequesterSleepsAlone(s: State, ls: seq<Label>, u: Tid, e: Event)
    requires WakeupInv(s) && Legal(s, ls) && OneRequesterRun(s, ls) && IsHandshakeEvent(e)
    ensures SoleSleeper(s, ls, u, e)
    decreases ls
  {
    forall w | w in s.threads && Asleep(s, w, e) && Asleep(s, u, e) ensures w == u {
      assert ThreadOk(s.threads[w]) && ThreadOk(s.threads[u]);
      OneAsker(s, w, u);
    }
    if ls != [] {
      NextKeepsWakeupInv(s, ls[0]);
      RequesterSleepsAlone(Next(s, ls[0]), ls[1..], u, e);
    }
  }

  lemma {:induction false} AnswersFromHere(s: State, ls: seq<Label>, t: Tid, op: Op, e: Event)
    requires SetsOut(s, t, op) && Legal(s, ls) && IsThrough(s, ls, t) && Answering(op, e)
    ensures !OwedThroughout(s, ls, e)
  {
    FinishedCompletes(s, ls, t, op, Replies(e));
    AnswersDischarge(s, ls, t, e);
  }

  lemma {:induction false} OutsetKeepsWakeupInv(before: seq<Label>, t: Tid, op: Op)
    requires Legal(START, before) && t !in Exec(START, before).threads
    requires OneRequesterRun(START, before) && OneRequester(Exec(START, before), Spawn(t, op))
    ensures WakeupInv(Outset(before, t, op))
  {
    ExecKeepsWakeupInv(START, before);
    NextKeepsWakeupInv(Exec(START, before), Spawn(t, op));
  }

  /** With one requester per object: a requester asleep when a callback with its answer sets out is past that wait when
      the callback has finished, and the answer has not stayed owed. */
  lemma {:induction false} AnswerEndsTheWait(before: seq<Label>, t: Tid, op: Op, ls: seq<Label>, u: Tid, e: Event)
    requires Course(before, t, op, ls) && Answering(op, e)
    requires OneRequesterRun(START, before) && OneRequester(Exec(START, before), Spawn(t, op))
    requires OneRequesterRun(Outset(before, t, op), ls)
    ensures !OwedThroughout(Outset(before, t, op), ls, e)
    ensures IsHandshakeEvent(e) && Asleep(Outset(before, t, op), u, e) ==>
              Left(Outset(before, t, op).threads[u], Exec(Outset(before, t, op), ls), u)
  {
    OutsetSetsOut(before, t, op);
    AnswersFromHere(Outset(before, t, op), ls, t, op, e);
    if IsHandshakeEvent(e) && Asleep(Outset(before, t, op), u, e) {
      OutsetKeepsWakeupInv(before, t, op);
      RequesterSleepsAlone(Outset(before, t, op), ls, u, e);
      WakesFromHere(Outset(before, t, op), ls, t, op, u, e);
    }
  }

  // ---- nobody else is woken, and nothing else answered ----

  ghost predicate Underway(th: Thread) { exists done :: Script(th.op) == done + th.todo }

  lemma {:induction false} GoesOn(th: Thread, now: seq<Act>, th': Thread)
    requires Underway(th) && th'.op == th.op && th.todo == now + th'.todo
    ensures Underway(th')
  {
    var done :| Script(th.op) == done + th.todo;
    assert Script(th'.op) == (done + now) + th'.todo;
  }

  lemma {:induction false} StepKeepsUnderway(s: State, l: Label, u: Tid)
    requires LockInv(s) && Enabled(s, l) && u in s.threads && Underway(s.threads[u])
    ensures u in Next(s, l).threads && Underway(Next(s, l).threads[u])
  {
    StepCompletes(s, l, u);
    GoesOn(s.threads[u], CompletedAtOnce(s, l, u), Next(s, l).threads[u]);
  }

  lemma {:induction false} SpawnedIsUnderway(s: State, l: Label, u: Tid)
    requires Enabled(s, l) && u in Next(s, l).threads && u !in s.threads
    ensures Underway(Next(s, l).threads[u])
  {
    var th := Next(s, l).threads[u];
    assert Script(th.op) == [] + th.todo;
  }

  lemma {:induction false} AllUnderway(s: State, ls: seq<Label>)
    requires LockInv(s) && Legal(s, ls) && forall u <- s.threads :: Underway(s.threads[u])
    ensures forall u <- Exec(s, ls).threads :: Underway(Exec(s, ls).threads[u])
    decreases ls
  {
    if ls == [] {
    } else {
      NextKeepsLockInv(s, ls[0]);
      forall u | u in Next(s, ls[0]).threads ensures Underway(Next(s, ls[0]).threads[u]) {
        if u in s.threads { StepKeepsUnderway(s, ls[0], u); } else { SpawnedIsUnderway(s, ls[0], u); }
      }
      AllUnderway(Next(s, ls[0]), ls[1..]);
    }
  }

  lemma {:induction false} TallyIsNatural(todo: seq<Act>, p: Probe)
    ensures Tally(todo, p) >= 0
    decreases todo
  {
    if todo != [] { TallyIsNatural(todo[1..], p); }
  }

  /** An instruction a thread has yet to run is one it is there to run. */
  lemma {:induction false} NextIsIntended(th: Thread, p: Probe)
    requires Underway(th) && th.todo != [] && Counts(th.todo[0], p)
    ensures Intended(th.op, p) > 0
  {
    var done :| Script(th.op) == done + th.todo;
    TallyOfBoth(done, th.todo, p);
    TallyIsNatural(done, p);
    TallyIsNatural(th.todo[1..], p);
    ScriptIsAsIntended(th.op, p);
  }

  /** Waking somebody, or taking an event off those owed, is what the instruction says. */
  lemma {:induction false} WakingIsRinging(s: State, t: Tid, woken: Option<Tid>, u: Tid, e: Event)
    requires LockInv(s) && CanRun(s, t, woken)
    ensures Asleep(s, u, e) && !Asleep(Step(s, t, woken), u, e) ==> Counts(s.threads[t].todo[0], Rings(e))
    ensures e in s.owed && e !in Step(s, t, woken).owed ==> Counts(s.threads[t].todo[0], Replies(e))
  {
    assert ThreadOk(s.threads[t]);
  }

  /** In every reachable state, a sleeper is woken, and an answer ceases to be owed, only by a thread whose operation is
      there to notify, or to answer, that event. */
  lemma {:induction false} OnlyTheMeantAreWoken(ls: seq<Label>, t: Tid, woken: Option<Tid>, u: Tid, e: Event)
    requires Legal(START, ls) && CanRun(Exec(START, ls), t, woken)
    ensures Asleep(Exec(START, ls), u, e) && !Asleep(Step(Exec(START, ls), t, woken), u, e) ==>
              RingsOf(Exec(START, ls).threads[t].op, e) > 0
    ensures e in Exec(START, ls).owed && e !in Step(Exec(START, ls), t, woken).owed ==>
              Answering(Exec(START, ls).threads[t].op, e)
  {
    var s := Exec(START, ls);
    ExecKeepsLockInv(START, ls);
    AllUnderway(START, ls);
    WakingIsRinging(s, t, woken, u, e);
    if Asleep(s, u, e) && !Asleep(Step(s, t, woken), u, e) { NextIsIntended(s.threads[t], Rings(e)); }
    if e in s.owed && e !in Step(s, t, woken).owed { NextIsIntended(s.threads[t], Replies(e)); }
  }

  // ---- what it has stored, how often it has slept and taken each mutex ----

  /** Only threads there are have stored anything. */
  lemma {:induction false} StoredByThreads(s: State, ls: seq<Label>)
    requires Legal(s, ls) && forall x <- s.log :: x.thread in s.threads
    ensures forall x <- Exec(s, ls).log :: x.thread in Exec(s, ls).threads
    decreases ls
  {
    if ls == [] {
    } else {
      StoredByThreads(Next(s, ls[0]), ls[1..]);
    }
  }

  lemma {:induction false} StrangersStoreNothing(log: seq<Entry>, t: Tid, w: Write)
    requires forall x <- log :: x.thread != t
    ensures TimesStored(log, t, w) == 0
    decreases |log|
  {
    if log != [] {
      var last := |log| - 1;
      assert log[last] in log && forall x <- log[..last] :: x in log;
      StrangersStoreNothing(log[..last], t, w);
    }
  }

  lemma {:induction false} NothingStoredAtOutset(before: seq<Label>, t: Tid, op: Op, w: Write)
    requires Legal(START, before) && t !in Exec(START, before).threads
    ensures TimesStored(Outset(before, t, op).log, t, w) == 0
  {
    StoredByThreads(START, before);
    StrangersStoreNothing(Exec(START, before).log, t, w);
  }

  lemma {:induction false} StoresFromHere(s: State, ls: seq<Label>, t: Tid, op: Op, w: Write)
    requires SetsOut(s, t, op) && Legal(s, ls) && IsThrough(s, ls, t)
    ensures TimesStored(Exec(s, ls).log, t, w) == TimesStored(s.log, t, w) + StoresOf(op, w)
  {
    FinishedCompletes(s, ls, t, op, Stores(w));
    CompletedIsStored(s, ls, t, w);
  }

  /** Once it has finished, a thread has stored exactly the handles its operation is there to store. */
  lemma {:induction false} FinishedHasStored(before: seq<Label>, t: Tid, op: Op, ls: seq<Label>, w: Write)
    requires Course(before, t, op, ls)
    ensures TimesStored(Exec(Outset(before, t, op), ls).log, t, w) == StoresOf(op, w)
  {
    OutsetSetsOut(before, t, op);
    NothingStoredAtOutset(before, t, op, w);
    StoresFromHere(Outset(before, t, op), ls, t, op, w);
  }

  lemma {:induction false} FinishedIsAwake(s: State, ls: seq<Label>, t: Tid, e: Event)
    requires LockInv(s) && Legal(s, ls) && IsThrough(s, ls, t)
    ensures !InWait(Exec(s, ls), t, e)
  {
    ExecKeepsLockInv(s, ls);
    assert ThreadOk(Exec(s, ls).threads[t]);
  }

  lemma {:induction false} NapsFromHere(s: State, ls: seq<Label>, t: Tid, op: Op, e: Event)
    requires SetsOut(s, t, op) && Legal(s, ls) && IsThrough(s, ls, t) && !InWait(s, t, e)
    ensures FallsAsleepOn(s, ls, t, e) == NapsOf(op, e)
  {
    FinishedCompletes(s, ls, t, op, Naps(e));
    CompletedIsSlept(s, ls, t, e);
    FinishedIsAwake(s, ls, t, e);
  }

  lemma {:induction false} TakesFromHere(s: State, ls: seq<Label>, t: Tid, op: Op, m: Lock)
    requires SetsOut(s, t, op) && Legal(s, ls) && IsThrough(s, ls, t)
    ensures TimesTaken(s, ls, t, m) == TakesOf(op, m)
  {
    FinishedCompletes(s, ls, t, op, Takes(m));
    CompletedIsTaken(s, ls, t, m);
  }

  /** ... and has fallen asleep on each event and taken each mutex exactly as often as its branches say. */
  lemma {:induction false} FinishedHasSleptAndTaken(
    before: seq<Label>, t: Tid, op: Op, ls: seq<Label>, e: Event, m: Lock)
    requires Course(before, t, op, ls)
    ensures FallsAsleepOn(Outset(before, t, op), ls, t, e) == NapsOf(op, e)
    ensures TimesTaken(Outset(before, t, op), ls, t, m) == TakesOf(op, m)
  {
    OutsetSetsOut(before, t, op);
    NapsFromHere(Outset(before, t, op), ls, t, op, e);
    TakesFromHere(Outset(before, t, op), ls, t, op, m);
  }
}
