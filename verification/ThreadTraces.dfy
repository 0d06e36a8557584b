/** The instructions one thread gets through in a run of all of them, and what the run shows of each. */
module ThreadTraces {
  import opened Options
  import opened Monitors
  import opened PeerScripts
  import opened ThreadMachine
  import opened NoLostWakeup
  import opened LockRuns

  // ---- what instructions are for ----

  /** What is counted in a list of instructions: the notifications of an event, those of them that answer a request,
      the waits for an event, the times a mutex is taken, or the stores of a handle */
  datatype Probe =
    | Rings(event: Event) | Replies(event: Event) | Naps(event: Event) | Takes(lock: Lock) | Stores(write: Write)

  predicate Counts(a: Act, p: Probe) {
    match p
    case Rings(e) => Signal(a) && a.event == e
    case Replies(e) => a.Answer? && a.event == e
    case Naps(e) => Pauses(a) && a.event == e
    case Takes(l) => a == Acquire(l)
    case Stores(w) => (a.Answer? && a.write == Some(w)) || (a.Invalidate? && w == Write(ConnHandle(a.conn), INVALID))
  }

  predicate Pauses(a: Act) { Asks(a) || a.Wait? }

  function One(b: bool): int { if b then 1 else 0 }

  function Tally(todo: seq<Act>, p: Probe): int {
    if todo == [] then 0 else One(Counts(todo[0], p)) + Tally(todo[1..], p)
  }

  lemma {:induction false} TallyOfBoth(a: seq<Act>, b: seq<Act>, p: Probe)
    ensures Tally(a + b, p) == Tally(a, p) + Tally(b, p)
    decreases a
  {
    if a == [] {
      assert a + b == b;
    } else {
      assert (a + b)[1..] == a[1..] + b;
      TallyOfBoth(a[1..], b, p);
    }
  }

  lemma {:induction false} TallyOfOne(a: Act, p: Probe)
    ensures Tally([a], p) == One(Counts(a, p))
  {
    assert [a][1..] == [] && Tally([], p) == 0;
  }

  // ---- the instructions of one thread ----

  /** What thread `t` completes in the step */
  ghost function CompletedAtOnce(s: State, l: Label, t: Tid): seq<Act>
    requires Enabled(s, l)
  {
    if l.Run? && l.thread == t && |Next(s, l).threads[t].todo| < |s.threads[t].todo| then [s.threads[t].todo[0]] else []
  }

  /** The instructions that thread `t` completes in the run */
  ghost function Completed(s: State, ls: seq<Label>, t: Tid): seq<Act>
    requires Legal(s, ls)
    decreases ls
  {
    if ls == [] then [] else CompletedAtOnce(s, ls[0], t) + Completed(Next(s, ls[0]), ls[1..], t)
  }

  lemma {:induction false} StepCompletes(s: State, l: Label, t: Tid)
    requires LockInv(s) && Enabled(s, l) && t in s.threads
    ensures t in Next(s, l).threads && Next(s, l).threads[t].op == s.threads[t].op
    ensures s.threads[t].todo == CompletedAtOnce(s, l, t) + Next(s, l).threads[t].todo
  {
    if l.Run? && l.thread != t { OtherThreadsStep(s, l.thread, l.woken, t); }
  }

  /** What is completed and what is left make up what there was. */
  lemma {:induction false} CompletedAndLeft(s: State, ls: seq<Label>, t: Tid)
    requires LockInv(s) && Legal(s, ls) && t in s.threads
    ensures t in Exec(s, ls).threads && Exec(s, ls).threads[t].op == s.threads[t].op
    ensures s.threads[t].todo == Completed(s, ls, t) + Exec(s, ls).threads[t].todo
    decreases ls
  {
    if ls == [] {
    } else {
      NextKeepsLockInv(s, ls[0]);
      StepCompletes(s, ls[0], t);
      CompletedAndLeft(Next(s, ls[0]), ls[1..], t);
    }
  }

  // ---- who is woken ----

  /** Thread `u` is no longer in the wait it was in. */
  ghost predicate Left(before: Thread, s: State, u: Tid) {
    u in s.threads
    && (|s.threads[u].todo| < |before.todo| || (s.threads[u].todo == before.todo && s.threads[u].mode.Woken?))
  }

  /** Whenever `u` sleeps on e in the run, nobody else does. */
  ghost predicate SoleSleeper(s: State, ls: seq<Label>, u: Tid, e: Event)
    requires Legal(s, ls)
    decreases ls
  {
    (Asleep(s, u, e) ==> forall w <- s.threads :: Asleep(s, w, e) ==> w == u)
    && (ls == [] || SoleSleeper(Next(s, ls[0]), ls[1..], u, e))
  }

  /** The thread's step notifies the event. */
  predicate Signalling(th: Thread, e: Event) {
    th.mode.Running? && th.todo != [] && Signal(th.todo[0]) && th.todo[0].event == e
  }

  lemma {:induction false} RunWakes(s: State, v: Tid, woken: Option<Tid>, u: Tid, e: Event)
    requires LockInv(s) && CanRun(s, v, woken) && u in s.threads && s.threads[u].mode == Waiting(e)
    requires forall w <- s.threads :: Asleep(s, w, e) ==> w == u
    ensures if Signalling(s.threads[v], e) then Left(s.threads[u], Step(s, v, woken), u)
            else u in Step(s, v, woken).threads && Step(s, v, woken).threads[u] == s.threads[u]
  {
    assert v != u;
    OtherThreadsStep(s, v, woken, u);
  }

  /** A step leaves the sleeper where it is, unless it signals the event: with no other sleeper, then it does not. */
  lemma {:induction false} StepWakes(s: State, l: Label, u: Tid, e: Event)
    requires LockInv(s) && Enabled(s, l) && u in s.threads && s.threads[u].mode == Waiting(e)
    requires forall w <- s.threads :: Asleep(s, w, e) ==> w == u
    ensures if l.Run? && Signalling(s.threads[l.thread], e) then Left(s.threads[u], Next(s, l), u)
            else u in Next(s, l).threads && Next(s, l).threads[u] == s.threads[u]
  {
    if l.Run? { RunWakes(s, l.thread, l.woken, u, e); }
  }

  lemma {:induction false} StepKeepsLeft(before: Thread, s: State, l: Label, u: Tid)
    requires LockInv(s) && Enabled(s, l) && Left(before, s, u)
    ensures Left(before, Next(s, l), u)
  {
    StepCompletes(s, l, u);
    if l.Run? && l.thread != u { OtherThreadsStep(s, l.thread, l.woken, u); }
  }

  lemma {:induction false} LeftForGood(before: Thread, s: State, ls: seq<Label>, u: Tid)
    requires LockInv(s) && Legal(s, ls) && Left(before, s, u)
    ensures Left(before, Exec(s, ls), u)
    decreases ls
  {
    if ls == [] {
    } else {
      NextKeepsLockInv(s, ls[0]);
      StepKeepsLeft(before, s, ls[0], u);
      LeftForGood(before, Next(s, ls[0]), ls[1..], u);
    }
  }

  /** The thread's next step completes its instruction. */
  predicate Finishes(th: Thread) {
    th.todo != [] && (th.mode.Woken? || (th.mode.Running? && !Asks(th.todo[0]) && !th.todo[0].Wait?))
  }

  /** The step completes an instruction that counts. */
  ghost predicate CountsNow(s: State, l: Label, t: Tid, p: Probe)
    requires Enabled(s, l)
  {
    l.Run? && l.thread == t && Finishes(s.threads[t]) && Counts(s.threads[t].todo[0], p)
  }

  lemma {:induction false} AtOnce(s: State, l: Label, t: Tid, p: Probe)
    requires Enabled(s, l)
    ensures Tally(CompletedAtOnce(s, l, t), p) == One(CountsNow(s, l, t, p))
  {
    if l.Run? && l.thread == t && Finishes(s.threads[t]) {
      TallyOfOne(s.threads[t].todo[0], p);
    } else {
      assert CompletedAtOnce(s, l, t) == [];
    }
  }

  /** What the first step completes, and what the others do */
  lemma {:induction false} FirstAndRest(s: State, ls: seq<Label>, t: Tid, p: Probe)
    requires Legal(s, ls) && ls != []
    ensures Tally(Completed(s, ls, t), p)
            == One(CountsNow(s, ls[0], t, p)) + Tally(Completed(Next(s, ls[0]), ls[1..], t), p)
  {
    AtOnce(s, ls[0], t, p);
    TallyOfBoth(CompletedAtOnce(s, ls[0], t), Completed(Next(s, ls[0]), ls[1..], t), p);
  }

  lemma {:induction false} RingWakes(s: State, l: Label, t: Tid, u: Tid, e: Event)
    requires LockInv(s) && Enabled(s, l) && u in s.threads && s.threads[u].mode == Waiting(e)
    requires forall w <- s.threads :: Asleep(s, w, e) ==> w == u
    requires CountsNow(s, l, t, Rings(e))
    ensures Left(s.threads[u], Next(s, l), u)
  {
    assert ThreadOk(s.threads[t]);
    StepWakes(s, l, u, e);
  }

  lemma {:induction false} RingsWake(s: State, ls: seq<Label>, t: Tid, u: Tid, e: Event)
    requires LockInv(s) && Legal(s, ls) && SoleSleeper(s, ls, u, e)
    requires t in s.threads && u in s.threads && s.threads[u].mode == Waiting(e)
    requires Tally(Completed(s, ls, t), Rings(e)) > 0
    ensures Left(s.threads[u], Exec(s, ls), u)
    decreases ls
  {
    var s' := Next(s, ls[0]);
    NextKeepsLockInv(s, ls[0]);
    FirstAndRest(s, ls, t, Rings(e));
    StepCompletes(s, ls[0], t);
    if CountsNow(s, ls[0], t, Rings(e)) { RingWakes(s, ls[0], t, u, e); }
    StepWakes(s, ls[0], u, e);
    if Left(s.threads[u], s', u) {
      LeftForGood(s.threads[u], s', ls[1..], u);
    } else {
      RingsWake(s', ls[1..], t, u, e);
    }
  }

  // ---- what is answered ----

  /** The event is owed before, during and after the run. */
  ghost predicate OwedThroughout(s: State, ls: seq<Label>, e: Event)
    requires Legal(s, ls)
    decreases ls
  {
    e in s.owed && (ls == [] || OwedThroughout(Next(s, ls[0]), ls[1..], e))
  }

  lemma {:induction false} AnswerDischarges(s: State, l: Label, t: Tid, e: Event)
    requires LockInv(s) && Enabled(s, l) && CountsNow(s, l, t, Replies(e))
    ensures e !in Next(s, l).owed
  {
    assert ThreadOk(s.threads[t]);
  }

  lemma {:induction false} AnswersDischarge(s: State, ls: seq<Label>, t: Tid, e: Event)
    requires LockInv(s) && Legal(s, ls) && t in s.threads
    requires Tally(Completed(s, ls, t), Replies(e)) > 0
    ensures !OwedThroughout(s, ls, e)
    decreases ls
  {
    NextKeepsLockInv(s, ls[0]);
    FirstAndRest(s, ls, t, Replies(e));
    StepCompletes(s, ls[0], t);
    if CountsNow(s, ls[0], t, Replies(e)) {
      AnswerDischarges(s, ls[0], t, e);
    } else {
      AnswersDischarge(Next(s, ls[0]), ls[1..], t, e);
    }
  }

  // ---- what is stored ----

  /** How often a thread has stored the handle */
  function TimesStored(log: seq<Entry>, t: Tid, w: Write): int {
    if log == [] then 0
    else TimesStored(log[..|log| - 1], t, w) + One(log[|log| - 1].thread == t && log[|log| - 1].write == w)
  }

  lemma {:induction false} StepLogsExactly(s: State, v: Tid, woken: Option<Tid>, w: Write)
    requires LockInv(s) && CanRun(s, v, woken)
    ensures var log' := Step(s, v, woken).log;
            || (log' == s.log && !CountsNow(s, Run(v, woken), v, Stores(w)))
            || (|log'| == |s.log| + 1 && log'[..|s.log|] == s.log && log'[|s.log|].thread == v
                && (log'[|s.log|].write == w <==> CountsNow(s, Run(v, woken), v, Stores(w))))
  {
    assert ThreadOk(s.threads[v]);
  }

  lemma {:induction false} StepLogs(s: State, l: Label, t: Tid, w: Write)
    requires LockInv(s) && Enabled(s, l)
    ensures TimesStored(Next(s, l).log, t, w) == TimesStored(s.log, t, w) + One(CountsNow(s, l, t, Stores(w)))
  {
    if l.Run? { StepLogsExactly(s, l.thread, l.woken, w); }
  }

  lemma {:induction false} CompletedIsStored(s: State, ls: seq<Label>, t: Tid, w: Write)
    requires LockInv(s) && Legal(s, ls) && t in s.threads
    ensures TimesStored(Exec(s, ls).log, t, w) == TimesStored(s.log, t, w) + Tally(Completed(s, ls, t), Stores(w))
    decreases ls
  {
    if ls == [] {
    } else {
      NextKeepsLockInv(s, ls[0]);
      FirstAndRest(s, ls, t, Stores(w));
      StepCompletes(s, ls[0], t);
      StepLogs(s, ls[0], t, w);
      CompletedIsStored(Next(s, ls[0]), ls[1..], t, w);
    }
  }

  // ---- how often a thread sleeps, and takes a mutex ----

  /** How often thread `t` falls asleep on e in the run */
  ghost function FallsAsleepOn(s: State, ls: seq<Label>, t: Tid, e: Event): int
    requires Legal(s, ls)
    decreases ls
  {
    if ls == [] then 0
    else One(!Asleep(s, t, e) && Asleep(Next(s, ls[0]), t, e)) + FallsAsleepOn(Next(s, ls[0]), ls[1..], t, e)
  }

  /** Asleep, or woken and not yet back */
  predicate InWait(s: State, t: Tid, e: Event) {
    t in s.threads && (s.threads[t].mode.Waiting? || s.threads[t].mode.Woken?) && s.threads[t].mode.event == e
  }

  /** A thread's own step ends a wait if it completes it, and only falls asleep if it does not. */
  lemma {:induction false} OwnStepPauses(s: State, t: Tid, woken: Option<Tid>, e: Event)
    requires LockInv(s) && CanRun(s, t, woken)
    ensures !Asleep(s, t, e)
    ensures InWait(Step(s, t, woken), t, e) <==> Asleep(Step(s, t, woken), t, e)
    ensures var th := s.threads[t];
            InWait(s, t, e) <==> Finishes(th) && Pauses(th.todo[0]) && th.todo[0].event == e
  {
    assert ThreadOk(s.threads[t]);
    assert woken != Some(t);
  }

  lemma {:induction false} OwnStepSleeps(s: State, t: Tid, woken: Option<Tid>, e: Event)
    requires LockInv(s) && CanRun(s, t, woken)
    ensures One(!Asleep(s, t, e) && Asleep(Step(s, t, woken), t, e)) + One(InWait(s, t, e))
            == One(CountsNow(s, Run(t, woken), t, Naps(e))) + One(InWait(Step(s, t, woken), t, e))
  {
    OwnStepPauses(s, t, woken, e);
  }

  lemma {:induction false} StepSleeps(s: State, l: Label, t: Tid, e: Event)
    requires LockInv(s) && Enabled(s, l) && t in s.threads
    ensures One(!Asleep(s, t, e) && Asleep(Next(s, l), t, e)) + One(InWait(s, t, e))
            == One(CountsNow(s, l, t, Naps(e))) + One(InWait(Next(s, l), t, e))
  {
    if l.Run? && l.thread == t {
      OwnStepSleeps(s, t, l.woken, e);
    } else if l.Run? {
      OtherThreadsStep(s, l.thread, l.woken, t);
    }
  }

  lemma {:induction false} CompletedIsSlept(s: State, ls: seq<Label>, t: Tid, e: Event)
    requires LockInv(s) && Legal(s, ls) && t in s.threads
    ensures FallsAsleepOn(s, ls, t, e) + One(InWait(s, t, e))
            == Tally(Completed(s, ls, t), Naps(e)) + One(InWait(Exec(s, ls), t, e))
    decreases ls
  {
    if ls == [] {
    } else {
      NextKeepsLockInv(s, ls[0]);
      FirstAndRest(s, ls, t, Naps(e));
      StepCompletes(s, ls[0], t);
      StepSleeps(s, ls[0], t, e);
      CompletedIsSlept(Next(s, ls[0]), ls[1..], t, e);
    }
  }

  ghost predicate TakesAtOnce(s: State, l: Label, t: Tid, m: Lock)
    requires Enabled(s, l)
  {
    t in s.threads && s.threads[t].mode.Running? && t in Next(s, l).threads
    && m !in s.threads[t].ledger.locks && m in Next(s, l).threads[t].ledger.locks
  }

  /** How often thread `t` takes mutex m in the run, other than on waking up */
  ghost function TimesTaken(s: State, ls: seq<Label>, t: Tid, m: Lock): int
    requires Legal(s, ls)
    decreases ls
  {
    if ls == [] then 0 else One(TakesAtOnce(s, ls[0], t, m)) + TimesTaken(Next(s, ls[0]), ls[1..], t, m)
  }

  lemma {:induction false} OwnStepTakes(s: State, t: Tid, woken: Option<Tid>, m: Lock)
    requires LockInv(s) && CanRun(s, t, woken)
    ensures TakesAtOnce(s, Run(t, woken), t, m) <==> Finishes(s.threads[t]) && s.threads[t].todo[0] == Acquire(m)
  {
    assert ThreadOk(s.threads[t]);
    assert woken != Some(t);
  }

  lemma {:induction false} StepTakes(s: State, l: Label, t: Tid, m: Lock)
    requires LockInv(s) && Enabled(s, l) && t in s.threads
    ensures TakesAtOnce(s, l, t, m) <==> CountsNow(s, l, t, Takes(m))
  {
    if l.Run? && l.thread == t {
      OwnStepTakes(s, t, l.woken, m);
    } else if l.Run? {
      OtherThreadsStep(s, l.thread, l.woken, t);
    }
  }

  lemma {:induction false} CompletedIsTaken(s: State, ls: seq<Label>, t: Tid, m: Lock)
    requires LockInv(s) && Legal(s, ls) && t in s.threads
    ensures TimesTaken(s, ls, t, m) == Tally(Completed(s, ls, t), Takes(m))
    decreases ls
  {
    if ls == [] {
    } else {
      NextKeepsLockInv(s, ls[0]);
      FirstAndRest(s, ls, t, Takes(m));
      StepCompletes(s, ls[0], t);
      StepTakes(s, ls[0], t, m);
      CompletedIsTaken(Next(s, ls[0]), ls[1..], t, m);
      assert TimesTaken(s, ls, t, m)
             == One(TakesAtOnce(s, ls[0], t, m)) + TimesTaken(Next(s, ls[0]), ls[1..], t, m);
    }
  }
}
