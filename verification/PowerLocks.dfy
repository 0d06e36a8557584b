/** The mutexes setLevel takes: it locks mMutex again while it still holds the one of gDeactivatedEvent, and keeps
    mMutex while the stack answers its request.  Any number of callers, and the stack's callback thread, which needs
    gDeactivatedEvent to report a deactivation and must be free to answer. */
module PowerLocks {
  import opened Options
  import opened Reachability

  /** Where a caller is. */
  datatype Caller =
    | Entering      // about to lock mMutex
    | Deciding      // holds mMutex
    | Leaving       // has given it up, and is about to lock gDeactivatedEvent
    | Looking       // holds gDeactivatedEvent, about to look at gActivated
    | Sleeping      // waits for a deactivation
    | Woken         // notified, taking gDeactivatedEvent back
    | Returning     // holds gDeactivatedEvent, about to lock mMutex again
    | HoldingBoth
    | Switching     // holds mMutex
    | Requesting    // holds mMutex, and waits on mPowerStateEvent for the stack's answer
    | Finished

  /** The callback thread: free, about to lock gDeactivatedEvent, or holding it */
  datatype Stack = Free | Reporting | Announcing

  datatype State = State(callers: map<nat, Caller>, stack: Stack, activated: bool)

  const START := State(map[], Free, false)

  datatype Label =
    | Calls(t: nat)
    | Activates
    | Deactivates
    | Goes(t: nat, choice: bool)      // the caller's next move, and its choice where it has one
    | StackGoes(woken: Option<nat>)
    | StackAnswers(t: nat)

  predicate HoldsMutex(c: Caller) { c.Deciding? || c.HoldingBoth? || c.Switching? || c.Requesting? }

  predicate HoldsEvent(c: Caller) { c.Looking? || c.Returning? || c.HoldingBoth? }

  ghost predicate MutexFree(s: State) { forall t <- s.callers :: !HoldsMutex(s.callers[t]) }

  ghost predicate EventFree(s: State) { !s.stack.Announcing? && forall t <- s.callers :: !HoldsEvent(s.callers[t]) }

  ghost predicate Enabled(s: State, l: Label) {
    match l
    case Calls(t) => t !in s.callers
    case Activates => s.stack.Free?
    case Deactivates => s.stack.Free?
    case Goes(t, _) =>
      t in s.callers &&
      (match s.callers[t]
       case Entering => MutexFree(s)
       case Leaving => EventFree(s)
       case Woken => EventFree(s)
       case Returning => MutexFree(s)
       case Sleeping => false
       case Requesting => false
       case Finished => false
       case _ => true)
    case StackGoes(woken) =>
      (match s.stack
       case Free => false
       case Reporting =>
         && EventFree(s)
         && (match woken
             case Some(u) => u in s.callers && s.callers[u].Sleeping?
             case None => forall u <- s.callers :: !s.callers[u].Sleeping?)
       case Announcing => woken.None?)
    case StackAnswers(t) => s.stack.Free? && t in s.callers && s.callers[t].Requesting?
  }

  /** setLevel's next move.  Deciding: does the change wait for a deactivation?  Switching: does the stack accept a
      request? */
  function Moved(s: State, c: Caller, choice: bool): Caller {
    match c
    case Entering => Deciding
    case Deciding => if choice then Leaving else Switching
    case Leaving => Looking
    case Looking => if s.activated then Sleeping else Returning
    case Woken => Returning
    case Returning => HoldingBoth
    case HoldingBoth => Switching
    case Switching => if choice then Requesting else Finished
    case _ => c
  }

  function Put(s: State, t: nat, c: Caller): State { s.(callers := s.callers[t := c]) }

  function Next(s: State, l: Label): State {
    match l
    case Calls(t) => Put(s, t, Entering)
    case Activates => s.(activated := true)
    case Deactivates => s.(stack := Reporting)
    case Goes(t, choice) => if t in s.callers then Put(s, t, Moved(s, s.callers[t], choice)) else s
    case StackGoes(woken) =>
      if s.stack.Reporting? then
        var u := s.(stack := Announcing, activated := false);
        if woken.Some? then Put(u, woken.value, Woken) else u
      else s.(stack := Free)
    case StackAnswers(t) => Put(s, t, Finished)
  }

  ghost predicate Moves(s: State, s': State) { exists l :: Enabled(s, l) && Next(s, l) == s' }

  // ---- mutual exclusion ----

  ghost predicate Exclusive(s: State) {
    && (forall t, u | t in s.callers && u in s.callers && HoldsMutex(s.callers[t]) && HoldsMutex(s.callers[u]) ::
          t == u)
    && (forall t, u | t in s.callers && u in s.callers && HoldsEvent(s.callers[t]) && HoldsEvent(s.callers[u]) ::
          t == u)
    && (s.stack.Announcing? ==> forall t <- s.callers :: !HoldsEvent(s.callers[t]))
  }

  lemma {:induction false} NextStaysExclusive(s: State, l: Label)
    requires Exclusive(s) && Enabled(s, l)
    ensures Exclusive(Next(s, l))
  {
  }

  lemma {:induction false} ReachableIsExclusive(s: State)
    requires Reaches(Moves, START, s)
    ensures Exclusive(s)
  {
    forall a, b | Exclusive(a) && Moves(a, b) ensures Exclusive(b) {
      var l :| Enabled(a, l) && Next(a, l) == b;
      NextStaysExclusive(a, l);
    }
    Kept(Moves, Exclusive, START, s);
  }

  // ---- deadlock, exactly ----

  /** A caller is neither done nor waiting for a deactivation, or the callback thread is at work. */
  ghost predicate Busy(s: State) {
    !s.stack.Free? || exists t <- s.callers :: !s.callers[t].Finished? && !s.callers[t].Sleeping?
  }

  /** Somebody's move that was begun can go on. */
  ghost predicate CanGoOn(s: State) {
    exists l :: Enabled(s, l) && !l.Calls? && !l.Activates? && !l.Deactivates?
  }

  /** The circle, closed by callers a and b */
  ghost predicate CircleOf(s: State, a: nat, b: nat) {
    s.stack.Reporting? && a in s.callers && b in s.callers && s.callers[a].Returning? && s.callers[b].Requesting?
  }

  /** One caller holds gDeactivatedEvent and wants mMutex, which another holds while it waits for the stack's answer,
      and the callback thread that is to bring it waits for gDeactivatedEvent. */
  ghost predicate Circle(s: State) {
    exists a, b :: CircleOf(s, a, b)
  }

  lemma {:induction false} CircleCannotGoOn(s: State)
    requires Exclusive(s) && Circle(s)
    ensures Busy(s) && !CanGoOn(s)
  {
  }

  /** A caller whose next move needs no mutex */
  predicate Unhindered(c: Caller) { c.Deciding? || c.Looking? || c.HoldingBoth? || c.Switching? }

  /** When nobody holds a mutex but those who wait in the circle, and it is not closed, there is a next move. */
  lemma {:induction false} SomeMoveOutsideCircle(s: State)
    requires Exclusive(s) && Busy(s) && !Circle(s) && !s.stack.Announcing?
    requires forall t <- s.callers :: !Unhindered(s.callers[t])
    requires s.stack.Free? ==> forall t <- s.callers :: !s.callers[t].Requesting?
    ensures CanGoOn(s)
  {
    if a :| a in s.callers && s.callers[a].Returning? {
      assert s.stack.Reporting? ==> forall b <- s.callers :: s.callers[b].Requesting? ==> CircleOf(s, a, b);
      assert MutexFree(s);
      assert Enabled(s, Goes(a, false));
    } else if s.stack.Reporting? {
      if u :| u in s.callers && s.callers[u].Sleeping? {
        assert Enabled(s, StackGoes(Some(u)));
      } else {
        assert Enabled(s, StackGoes(None));
      }
    } else {
      var t :| t in s.callers && !s.callers[t].Finished? && !s.callers[t].Sleeping?;
      assert Enabled(s, Goes(t, false));
    }
  }

  lemma {:induction false} NoCircleGoesOn(s: State)
    requires Exclusive(s) && Busy(s) && !Circle(s)
    ensures CanGoOn(s)
  {
    if s.stack.Announcing? {
      assert Enabled(s, StackGoes(None));
    } else if t :| t in s.callers && Unhindered(s.callers[t]) {
      assert Enabled(s, Goes(t, false));
    } else if t :| s.stack.Free? && t in s.callers && s.callers[t].Requesting? {
      assert Enabled(s, StackAnswers(t));
    } else {
      SomeMoveOutsideCircle(s);
    }
  }

  /** In every reachable state, with any number of callers: while there is something to do nobody can go on if and only
      if the circle is closed. */
  lemma {:induction false} DeadlockedExactlyInTheCircle(s: State)
    requires Reaches(Moves, START, s) && Busy(s)
    ensures !CanGoOn(s) <==> Circle(s)
  {
    ReachableIsExclusive(s);
    if Circle(s) { CircleCannotGoOn(s); } else { NoCircleGoesOn(s); }
  }

  /** It never opens again. */
  lemma {:induction false} CircleStays(s: State, a: nat, b: nat, s': State)
    requires CircleOf(s, a, b) && Reaches(Moves, s, s')
    ensures CircleOf(s', a, b)
  {
    var closed := (x: State) => CircleOf(x, a, b);
    forall x, y | closed(x) && Moves(x, y) ensures closed(y) {
      var l :| Enabled(x, l) && Next(x, l) == y;
    }
    Kept(Moves, closed, s, s');
  }

  /** One caller at a time cannot close it. */
  lemma {:induction false} OneCallerGoesOn(s: State, t: nat)
    requires Reaches(Moves, START, s) && Busy(s)
    requires forall u <- s.callers :: u != t ==> s.callers[u].Finished?
    ensures CanGoOn(s)
  {
    DeadlockedExactlyInTheCircle(s);
  }

  // ---- who waits, and who is woken ----

  /** The caller's change is to wait for a deactivation, and none has come since. */
  predicate StillWaiting(c: Caller) { c.Leaving? || c.Looking? || c.Sleeping? }

  /** A tag or a reader is active, and no deactivation is reported. */
  ghost predicate StaysActive(s: State, ls: seq<Label>)
    decreases ls
  {
    s.activated && s.stack.Free?
    && (ls == [] || (Enabled(s, ls[0]) && !ls[0].Deactivates? && StaysActive(Next(s, ls[0]), ls[1..])))
  }

  ghost function After(s: State, ls: seq<Label>): State
    decreases ls
  {
    if ls == [] then s else After(Next(s, ls[0]), ls[1..])
  }

  /** While the link stays active, a change between full and low power is not made: the caller gets no further than its
      wait. */
  lemma {:induction false} ChangesWaitForDeactivation(s: State, ls: seq<Label>, t: nat)
    requires StaysActive(s, ls) && t in s.callers && StillWaiting(s.callers[t])
    ensures t in After(s, ls).callers && StillWaiting(After(s, ls).callers[t])
    decreases ls
  {
    if ls == [] {
    } else {
      ChangesWaitForDeactivation(Next(s, ls[0]), ls[1..], t);
    }
  }

  /** A change that need not wait is made under mMutex at once, and one that must gives the mutex up. */
  lemma {:induction false} OnlySomeChangesWait(s: State, t: nat, waits: bool)
    requires t in s.callers && s.callers[t].Deciding?
    ensures var c := Next(s, Goes(t, waits)).callers[t];
            (StillWaiting(c) <==> waits) && (HoldsMutex(c) <==> !waits)
  {
  }

  /** With nothing active, a caller that looks goes on without sleeping. */
  lemma {:induction false} InactiveNeedsNoWait(s: State, t: nat, choice: bool)
    requires t in s.callers && s.callers[t].Looking?
    ensures Next(s, Goes(t, choice)).callers[t].Sleeping? <==> s.activated
  {
  }

  /** A deactivation that gets through leaves nothing active, wakes one sleeper if there is any, and moves nobody
      else. */
  lemma {:induction false} DeactivationWakesOne(s: State, woken: Option<nat>)
    requires Reaches(Moves, START, s) && s.stack.Reporting? && Enabled(s, StackGoes(woken))
    ensures var s' := Next(s, StackGoes(woken));
            && !s'.activated && s'.callers.Keys == s.callers.Keys
            && (woken.Some? <==> exists u :: u in s.callers && s.callers[u].Sleeping?)
            && (woken.Some? ==> woken.value in s.callers && s.callers[woken.value].Sleeping?
                                && s'.callers[woken.value].Woken?)
            && forall u <- s.callers :: woken != Some(u) ==> s'.callers[u] == s.callers[u]
  {
  }

  // ---- how it is closed ----

  function Two(one: Caller, two: Caller, stack: Stack): State { State(map[1 := one, 2 := two], stack, false) }

  /** Two callers change the level at once: the first has decided when the second goes through to its request; then
      the first finds that it need not wait, and the stack reports a deactivation. */
  function Stage(i: nat): State
    requires i <= 14
  {
    match i
    case 0 => START
    case 1 => START.(callers := map[1 := Entering])
    case 2 => START.(callers := map[1 := Deciding])
    case 3 => START.(callers := map[1 := Leaving])
    case 4 => Two(Leaving, Entering, Free)
    case 5 => Two(Leaving, Deciding, Free)
    case 6 => Two(Leaving, Leaving, Free)
    case 7 => Two(Leaving, Looking, Free)
    case 8 => Two(Leaving, Returning, Free)
    case 9 => Two(Leaving, HoldingBoth, Free)
    case 10 => Two(Leaving, Switching, Free)
    case 11 => Two(Leaving, Requesting, Free)
    case 12 => Two(Looking, Requesting, Free)
    case 13 => Two(Returning, Requesting, Free)
    case _ => Two(Returning, Requesting, Reporting)
  }

  function StageLabel(i: nat): Label {
    match i
    case 0 => Calls(1)
    case 1 => Goes(1, true)
    case 2 => Goes(1, true)
    case 3 => Calls(2)
    case 12 => Goes(1, true)
    case 11 => Goes(1, true)
    case 13 => Deactivates
    case _ => Goes(2, true)
  }

  lemma {:induction false} StageGoesOn(i: nat)
    requires i < 14
    ensures Moves(Stage(i), Stage(i + 1))
  {
    assert Next(Stage(i), StageLabel(i)).callers == Stage(i + 1).callers;
    assert Enabled(Stage(i), StageLabel(i)) && Next(Stage(i), StageLabel(i)) == Stage(i + 1);
  }

  /** Two callers of setLevel, between full and low power, and a deactivation: nobody can go on, ever. */
  lemma {:induction false} TwoCallersCanDeadlock()
    ensures exists s :: Reaches(Moves, START, s) && CircleOf(s, 1, 2) && Busy(s) && !CanGoOn(s)
  {
    var path := seq(15, i requires 0 <= i < 15 => Stage(i));
    forall i | 0 < i < |path| ensures Moves(path[i - 1], path[i]) {
      StageGoesOn(i - 1);
    }
    var s := Stage(14);
    assert path[0] == START && path[|path| - 1] == s && Path(Moves, path);
    assert CircleOf(s, 1, 2);
    DeadlockedExactlyInTheCircle(s);
  }
}
