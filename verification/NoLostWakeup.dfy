/** A thread that makes a request of the stack and waits for the answer is never left asleep by an answer
    that came too early: the event's mutex is held from before the call until the wait. */
module NoLostWakeup {
  import opened Options
  import opened Monitors
  import opened PeerScripts
  import opened ThreadMachine

  /** Does the instruction ask something of the stack, accepted or not, and wait for the answer? */
  predicate Asks(a: Act) { a.Handshake? || a.WaitRefused? }

  /** The events on which a script makes requests of its own. */
  function Claims(todo: seq<Act>): set<Event> {
    set a | a in todo && Asks(a) :: a.event
  }

  /** One requester per object: no two calls in progress make requests on the same event. */
  ghost predicate OneRequester(s: State, l: Label) {
    l.Spawn? ==> forall t <- s.threads :: Claims(s.threads[t].todo) !! Claims(Script(l.op))
  }

  ghost predicate OneRequesterRun(s: State, ls: seq<Label>)
    requires Legal(s, ls)
    decreases ls
  {
    ls == [] || (OneRequester(s, ls[0]) && OneRequesterRun(Next(s, ls[0]), ls[1..]))
  }

  ghost predicate DisjointClaims(s: State) {
    forall t, u | t in s.threads && u in s.threads && t != u ::
      Claims(s.threads[t].todo) !! Claims(s.threads[u].todo)
  }

  /** The thread has asked, is to wait or waits for the answer, and has not been woken. */
  predicate Requesting(th: Thread) {
    th.todo != [] && Asks(th.todo[0]) && (th.mode.Called? || th.mode.Waiting?)
  }

  predicate Accepted(th: Thread) { th.todo != [] && th.todo[0].Handshake? }

  ghost predicate AnswerPending(s: State) {
    forall t <- s.threads :: Requesting(s.threads[t]) && Accepted(s.threads[t]) ==> s.threads[t].todo[0].event in s.owed
  }

  /** This thread's request is why the answer is owed. */
  predicate AskedBy(s: State, t: Tid, e: Event) {
    t in s.threads && Requesting(s.threads[t]) && s.threads[t].todo[0] == Handshake(e)
  }

  /** Nothing but its answer ends the wait for a registration. */
  ghost predicate RegistrationsAsked(s: State) {
    forall e <- s.owed :: e.Registering? ==> exists t :: AskedBy(s, t, e)
  }

  /** Only an operation that is to wait after a refusal is marked so. */
  ghost predicate RefusalsKnown(s: State) {
    forall t <- s.threads :: s.threads[t].ledger.refused.Some? ==>
        s.threads[t].ledger.refused == WaitsRefused(s.threads[t].op)
  }

  ghost predicate WakeupInv(s: State) {
    LockInv(s) && DisjointClaims(s) && AnswerPending(s) && RegistrationsAsked(s) && RefusalsKnown(s)
  }

  lemma {:induction false} ClaimsShrink(s: State, t: Tid, woken: Option<Tid>)
    requires LockInv(s) && CanRun(s, t, woken)
    ensures forall u <- s.threads :: u in Step(s, t, woken).threads
                                     && Claims(Step(s, t, woken).threads[u].todo) <= Claims(s.threads[u].todo)
  {
    forall u | u in s.threads
      ensures u in Step(s, t, woken).threads && Claims(Step(s, t, woken).threads[u].todo) <= Claims(s.threads[u].todo)
    {
      if u != t { OtherThreadsStep(s, t, woken, u); }
    }
  }

  /** While a thread sits between its request and its wait, it holds the event's mutex, so nobody else can
      answer or notify. */
  lemma {:induction false} NobodyAnswersACaller(s: State, t: Tid, woken: Option<Tid>, u: Tid)
    requires LockInv(s) && CanRun(s, t, woken) && u in s.threads && s.threads[u].mode.Called? && u != t
    ensures !(s.threads[t].mode.Running? && (s.threads[t].todo[0].Answer? || s.threads[t].todo[0].Notify?)
              && s.threads[t].todo[0].event == s.threads[u].mode.event)
  {
    assert ThreadOk(s.threads[t]) && ThreadOk(s.threads[u]);
    if s.threads[t].mode.Running? && (s.threads[t].todo[0].Answer? || s.threads[t].todo[0].Notify?) {
      assert Permitted(s.threads[t].ledger, s.threads[t].todo[0]);
      assert EventMutex(s.threads[t].todo[0].event) in s.threads[t].ledger.locks;
      assert EventMutex(s.threads[u].mode.event) in s.threads[u].ledger.locks;
    }
  }

  /** The thread asleep on a handshake event is the only one, so an answer wakes exactly it. */
  lemma {:induction false} AnswerWakesTheRequester(s: State, t: Tid, woken: Option<Tid>, u: Tid)
    requires WakeupInv(s) && CanRun(s, t, woken) && s.threads[t].mode.Running?
    requires s.threads[t].todo[0].Answer? || s.threads[t].todo[0].Notify?
    requires u in s.threads && s.threads[u].mode == Waiting(s.threads[t].todo[0].event)
    requires s.threads[u].todo != [] && Asks(s.threads[u].todo[0])
    ensures woken == Some(u)
  {
    var e := s.threads[t].todo[0].event;
    assert Asleep(s, u, e);
    assert woken.Some?;
    var w := woken.value;
    assert ThreadOk(s.threads[w]) && ThreadOk(s.threads[u]);
    assert e in Claims(s.threads[w].todo) && e in Claims(s.threads[u].todo) by {
      assert s.threads[w].todo[0] in s.threads[w].todo && s.threads[u].todo[0] in s.threads[u].todo;
    }
  }

  lemma {:induction false} RequesterStaysOwed(s: State, t: Tid, woken: Option<Tid>, u: Tid)
    requires WakeupInv(s) && CanRun(s, t, woken) && u in Step(s, t, woken).threads
    requires Requesting(Step(s, t, woken).threads[u]) && Accepted(Step(s, t, woken).threads[u])
    ensures Step(s, t, woken).threads[u].todo[0].event in Step(s, t, woken).owed
  {
    var s' := Step(s, t, woken);
    if u == t {
      assert ThreadOk(s.threads[t]);
    } else {
      OtherThreadsStep(s, t, woken, u);
      assert ThreadOk(s.threads[u]);
      assert s'.threads[u] == s.threads[u];
      if s.threads[t].mode.Running? && s.threads[t].todo[0].Answer?
         && s.threads[t].todo[0].event == s.threads[u].todo[0].event {
        if s.threads[u].mode.Called? {
          NobodyAnswersACaller(s, t, woken, u);
        } else {
          AnswerWakesTheRequester(s, t, woken, u);
        }
      }
    }
  }

  /** A registration owed before is still asked for by the same thread, unless this step answers it. */
  lemma {:induction false} AskerStays(s: State, t: Tid, woken: Option<Tid>, u: Tid, e: Event)
    requires LockInv(s) && CanRun(s, t, woken) && AskedBy(s, u, e) && e.Registering? && e in Step(s, t, woken).owed
    ensures AskedBy(Step(s, t, woken), u, e)
  {
    assert ThreadOk(s.threads[t]) && ThreadOk(s.threads[u]);
    if u != t { OtherThreadsStep(s, t, woken, u); }
  }

  lemma {:induction false} StepKeepsRegistrationsAsked(s: State, t: Tid, woken: Option<Tid>)
    requires WakeupInv(s) && CanRun(s, t, woken)
    ensures RegistrationsAsked(Step(s, t, woken))
  {
    var s' := Step(s, t, woken);
    forall e | e in s'.owed && e.Registering? ensures exists u :: AskedBy(s', u, e) {
      if e in s.owed {
        var u :| AskedBy(s, u, e);
        AskerStays(s, t, woken, u, e);
      } else {
        assert AskedBy(s', t, e);
      }
    }
  }

  lemma {:induction false} StepKeepsRefusalsKnown(s: State, t: Tid, woken: Option<Tid>)
    requires LockInv(s) && RefusalsKnown(s) && CanRun(s, t, woken)
    ensures RefusalsKnown(Step(s, t, woken))
  {
    forall u | u in s.threads && u != t ensures Step(s, t, woken).threads[u].ledger == s.threads[u].ledger {
      OtherThreadsStep(s, t, woken, u);
    }
  }

  lemma {:induction false} SpawnKeepsRegistrationsAsked(s: State, t: Tid, op: Op)
    requires RegistrationsAsked(s) && t !in s.threads
    ensures RegistrationsAsked(Next(s, Spawn(t, op)))
  {
    var s' := Next(s, Spawn(t, op));
    forall e | e in s'.owed && e.Registering? ensures exists u :: AskedBy(s', u, e) {
      var u :| AskedBy(s, u, e);
      assert AskedBy(s', u, e);
    }
  }

  lemma {:induction false} SpawnKeepsClaims(s: State, t: Tid, op: Op)
    requires DisjointClaims(s) && t !in s.threads && OneRequester(s, Spawn(t, op))
    ensures DisjointClaims(Next(s, Spawn(t, op)))
  {
    var s' := Next(s, Spawn(t, op));
    assert s'.threads[t].todo == Script(op) && forall u <- s.threads :: s'.threads[u].todo == s.threads[u].todo;
  }

  lemma {:induction false} SpawnKeepsPending(s: State, t: Tid, op: Op)
    requires AnswerPending(s) && RefusalsKnown(s) && t !in s.threads
    ensures AnswerPending(Next(s, Spawn(t, op))) && RefusalsKnown(Next(s, Spawn(t, op)))
  {
    assert forall u <- s.threads :: Next(s, Spawn(t, op)).threads[u] == s.threads[u];
  }

  lemma {:induction false} SpawnKeepsWakeupInv(s: State, t: Tid, op: Op)
    requires WakeupInv(s) && t !in s.threads && OneRequester(s, Spawn(t, op))
    ensures WakeupInv(Next(s, Spawn(t, op)))
  {
    NextKeepsLockInv(s, Spawn(t, op));
    SpawnKeepsRegistrationsAsked(s, t, op);
    SpawnKeepsClaims(s, t, op);
    SpawnKeepsPending(s, t, op);
  }

  lemma {:induction false} NextKeepsWakeupInv(s: State, l: Label)
    requires WakeupInv(s) && Enabled(s, l) && OneRequester(s, l)
    ensures WakeupInv(Next(s, l))
  {
    match l {
      case Spawn(t, op) => SpawnKeepsWakeupInv(s, t, op);
      case Run(t, woken) =>
        StepKeepsLockInv(s, t, woken);
        StepKeepsAnswerPending(s, t, woken);
        StepKeepsRegistrationsAsked(s, t, woken);
        StepKeepsRefusalsKnown(s, t, woken);
    }
  }

  lemma {:induction false} StepKeepsAnswerPending(s: State, t: Tid, woken: Option<Tid>)
    requires WakeupInv(s) && CanRun(s, t, woken)
    ensures DisjointClaims(Step(s, t, woken)) && AnswerPending(Step(s, t, woken))
  {
    var s' := Step(s, t, woken);
    ClaimsShrink(s, t, woken);
    assert s'.threads.Keys == s.threads.Keys;
    forall u | u in s'.threads && Requesting(s'.threads[u]) && Accepted(s'.threads[u])
      ensures s'.threads[u].todo[0].event in s'.owed
    {
      RequesterStaysOwed(s, t, woken, u);
    }
  }

  lemma {:induction false} ExecKeepsWakeupInv(s: State, ls: seq<Label>)
    requires WakeupInv(s) && Legal(s, ls) && OneRequesterRun(s, ls)
    ensures WakeupInv(Exec(s, ls))
    decreases ls
  {
    if ls == [] {
    } else {
      NextKeepsWakeupInv(s, ls[0]);
      ExecKeepsWakeupInv(Next(s, ls[0]), ls[1..]);
    }
  }

  lemma {:induction false} OneAsker(s: State, t: Tid, u: Tid)
    requires DisjointClaims(s) && t in s.threads && u in s.threads
    requires Requesting(s.threads[t]) && Requesting(s.threads[u])
    requires s.threads[t].todo[0].event == s.threads[u].todo[0].event
    ensures t == u
  {
    assert s.threads[t].todo[0].event in Claims(s.threads[t].todo)
           && s.threads[u].todo[0].event in Claims(s.threads[u].todo);
  }

  /** A refused request is owed nothing. */
  lemma {:induction false} RefusedIsNotOwed(s: State, t: Tid)
    requires WakeupInv(s) && t in s.threads && Requesting(s.threads[t]) && !Accepted(s.threads[t])
    ensures var th := s.threads[t]; th.todo[0].event !in s.owed && WaitsRefused(th.op) == Some(th.todo[0].event)
  {
    assert ThreadOk(s.threads[t]);
    forall u | AskedBy(s, u, s.threads[t].todo[0].event) ensures u == t {
      OneAsker(s, t, u);
    }
  }

  /** No lost wakeup: with one requester per object, in every interleaving, a thread that has asked something of the
      stack and not been woken is still owed its answer if and only if the stack accepted; otherwise it is a
      createClient whose registration was refused.  (Once the answer has been delivered, the requester is no longer
      asleep.) */
  lemma {:induction false} NoWakeupIsLost(ls: seq<Label>, t: Tid)
    requires Legal(START, ls) && OneRequesterRun(START, ls)
    requires t in Exec(START, ls).threads && Requesting(Exec(START, ls).threads[t])
    ensures var s := Exec(START, ls);
            var th := s.threads[t];
            && (th.todo[0].event in s.owed <==> Accepted(th))
            && (!Accepted(th) ==> th.op.CreateClient? && th.op.creation.RegistrationRefused?
                                  && th.todo[0].event == Registering(th.op.client))
  {
    ExecKeepsWakeupInv(START, ls);
    if !Accepted(Exec(START, ls).threads[t]) { RefusedIsNotOwed(Exec(START, ls), t); }
  }

  /** When a callback is about to answer a request, the requester is never in the window between the stack
      call and the wait; if it is asleep, then this very answer wakes it, with the handle stored. */
  lemma {:induction false} AnswerFindsRequesterWaiting(ls: seq<Label>, t: Tid, woken: Option<Tid>, u: Tid)
    requires Legal(START, ls) && OneRequesterRun(START, ls)
    requires CanRun(Exec(START, ls), t, woken)
    requires var th := Exec(START, ls).threads[t]; th.mode.Running? && th.todo[0].Answer?
    requires u in Exec(START, ls).threads && u != t && Requesting(Exec(START, ls).threads[u])
    requires Exec(START, ls).threads[u].todo[0].event == Exec(START, ls).threads[t].todo[0].event
    ensures var s, s' := Exec(START, ls), Step(Exec(START, ls), t, woken);
            && s.threads[u].mode.Waiting?
            && u in s'.threads
            && s'.threads[u].mode == Woken(s.threads[u].todo[0].event, Callback(t, s.threads[t].todo[0].write))
            && s'.log == s.log + match s.threads[t].todo[0].write
                                 case Some(w) => [Entry(w, t, Some(s.threads[u].todo[0].event))]
                                 case None => []
  {
    var s := Exec(START, ls);
    ExecKeepsWakeupInv(START, ls);
    assert ThreadOk(s.threads[u]);
    if s.threads[u].mode.Called? {
      NobodyAnswersACaller(s, t, woken, u);
    } else {
      AnswerWakesTheRequester(s, t, woken, u);
    }
  }
}
