/** checkforTranscation: the events of a card-emulation transaction, the clean-up timer, and the threads that
    end the transaction.  A clean-up thread works in two parts, and the stack's events may come in between:
    first it reads the deferred requests and clears the in-progress flag, then it replays them and zeroes the
    whole record.  One session with NFA enabled; PN547C2 adds the Mifare state. */
module TransactionMachine {
  datatype TransState =
    | Default | ActivatedEvt | EeAction | FieldOn | TransStart | FieldOff | TransProgress | TransEnd | MifareAct
    | CeActivated | CeDeactivated

  /** The record, the timer, and the clean-up threads that have not begun, or are between their two parts. */
  datatype Trans = Trans(state: TransState, inProgress: bool, armed: bool, created: nat, midway: nat)

  const ZEROED := Trans(Default, false, false, 0, 0)

  datatype Event =
    | Activation(listen: bool, nfcDep: bool)
    | EeActionEvt(mifare: bool)          // mifare: PN547C2, technology A, screen off or locked
    | CeActivatedEvt
    | CeDeactivatedEvt
    | DeactivatedToIdle                  // PN547C2
    | Field(ok: bool, on: bool)
    | TimerFires
    | ThreadBegins
    | ThreadEnds

  /** The timer must be running to fire, and threads come in their order. */
  predicate Enabled(t: Trans, e: Event) {
    match e
    case TimerFires => t.armed
    case ThreadBegins => t.created > 0
    case ThreadEnds => t.midway > 0
    case _ => true
  }

  /** cleanup_timer */
  function CleanUp(t: Trans): Trans { t.(created := t.created + 1, state := TransEnd) }

  function Next(t: Trans, e: Event): Trans
    requires Enabled(t, e)
  {
    match e
    case Activation(listen, nfcDep) => if listen && !nfcDep then t.(state := ActivatedEvt, inProgress := true) else t
    case EeActionEvt(mifare) =>
      if t.state.Default? || t.state.ActivatedEvt?
      then t.(state := if mifare then MifareAct else EeAction, inProgress := true) else t
    case CeActivatedEvt =>
      if t.state.Default? || t.state.ActivatedEvt? then t.(state := CeActivated, inProgress := true) else t
    case CeDeactivatedEvt => if t.state.CeActivated? then t.(state := CeDeactivated) else t
    case DeactivatedToIdle => if t.state.MifareAct? then CleanUp(t) else t
    case Field(ok, on) =>
      if ok && !on && (t.state.EeAction? || t.state.CeDeactivated?) then t.(state := FieldOff, armed := true)
      else if ok && on && t.state.FieldOff? then t.(state := TransStart, armed := false)
      else if ok && !on && (t.state.TransStart? || t.state.ActivatedEvt?) then CleanUp(t)
      else t
    case TimerFires => CleanUp(t.(armed := false))
    case ThreadBegins => t.(inProgress := false, created := t.created - 1, midway := t.midway + 1)
    case ThreadEnds => t.(state := Default, inProgress := false, midway := t.midway - 1)
  }

  class TransactionCheck {
    var state: TransState
    var inProgress: bool
    var armed: bool
    var created: nat
    var midway: nat

    function Value(): Trans
      reads this
    {
      Trans(state, inProgress, armed, created, midway)
    }

    constructor ()
      ensures Value() == ZEROED
    {
      state, inProgress, armed, created, midway := Default, false, false, 0, 0;
    }

    /** cleanup_timer, with the thread's creation successful */
    method CleanupTimer()
      modifies this
      ensures Value() == CleanUp(old(Value()))
    {
      created := created + 1;
      state := TransEnd;
    }

    method CheckForTransaction(e: Event)
      requires !e.TimerFires? && !e.ThreadBegins? && !e.ThreadEnds?
      modifies this
      ensures Value() == Next(old(Value()), e)
    {
      match e {
        case Activation(listen, nfcDep) =>
          if !nfcDep && listen {
            state := ActivatedEvt;
            inProgress := true;
          }
        case EeActionEvt(mifare) =>
          if state == Default || state == ActivatedEvt {
            if mifare {
              state := MifareAct;
              inProgress := true;
            } else {
              state := EeAction;
              inProgress := true;
            }
          }
        case CeActivatedEvt =>
          if state == Default || state == ActivatedEvt {
            state := CeActivated;
            inProgress := true;
          }
        case CeDeactivatedEvt =>
          if state == CeActivated {
            state := CeDeactivated;
          }
        case DeactivatedToIdle =>
          if state == MifareAct {
            CleanupTimer();
          }
        case Field(ok, on) =>
          if ok && (state == EeAction || state == CeDeactivated) && !on {
            state := FieldOff;
            armed := true;
          } else if ok && state == FieldOff && on {
            state := FieldOn;
            state := TransStart;
            armed := false;
          } else if ok && state == TransStart && !on {
            state := TransProgress;
            CleanupTimer();
          } else if ok && state == ActivatedEvt && !on {
            CleanupTimer();
          }
      }
    }

    method TimerProc()
      requires armed
      modifies this
      ensures Value() == Next(old(Value()), TimerFires)
    {
      armed := false;
      CleanupTimer();
    }

    /** enableThread, up to clearing the flag ... */
    method BeginThread()
      requires created > 0
      modifies this
      ensures Value() == Next(old(Value()), ThreadBegins)
    {
      created, midway := created - 1, midway + 1;
      inProgress := false;
    }

    /** ... and from the replay to the end */
    method EndThread()
      requires midway > 0
      modifies this
      ensures Value() == Next(old(Value()), ThreadEnds)
    {
      midway := midway - 1;
      state, inProgress := Default, false;
    }
  }

  // ---- runs ----

  predicate Legal(t: Trans, run: seq<Event>)
    decreases run
  {
    run == [] || (Enabled(t, run[0]) && Legal(Next(t, run[0]), run[1..]))
  }

  function After(t: Trans, run: seq<Event>): Trans
    requires Legal(t, run)
    decreases run
  {
    if run == [] then t else After(Next(t, run[0]), run[1..])
  }

  predicate Coherent(t: Trans) {
    && (t.state.FieldOff? ==> t.armed)
    && (t.state.TransStart? ==> !t.armed)
    && (t.state.TransEnd? ==> t.created + t.midway > 0)
    && (!t.inProgress ==> t.state.Default? || t.created + t.midway > 0)
    && !t.state.FieldOn? && !t.state.TransProgress?
  }

  lemma {:induction false} RunsStayCoherent(t: Trans, run: seq<Event>)
    requires Coherent(t) && Legal(t, run)
    ensures Coherent(After(t, run))
    decreases run
  {
    if run == [] {
    } else {
      RunsStayCoherent(Next(t, run[0]), run[1..]);
    }
  }

  /** In every reachable state: with the field off the clean-up timer is running; with a transaction started it
      is not; an ended transaction has a clean-up thread pending; and when no transaction is in progress the
      record is back at its default, or a clean-up thread is pending to bring it there. */
  lemma {:induction false} EveryRunIsCoherent(run: seq<Event>)
    requires Legal(ZEROED, run)
    ensures var t := After(ZEROED, run);
            && (t.state.FieldOff? ==> t.armed)
            && (t.state.TransStart? ==> !t.armed)
            && (t.state.TransEnd? ==> t.created + t.midway > 0)
            && (!t.inProgress ==> t.state.Default? || t.created + t.midway > 0)
  {
    RunsStayCoherent(ZEROED, run);
  }

  // ---- transactions that overlap a clean-up ----

  /** Something of an earlier transaction is still to come: a clean-up thread, or the timer that starts one.  The
      events that begin a transaction stop neither. */
  predicate LeftOver(t: Trans) { t.created + t.midway > 0 || t.armed }

  /** The event marks a transaction as in progress. */
  predicate Begins(t: Trans, e: Event)
    requires Enabled(t, e)
  {
    (e.Activation? || e.EeActionEvt? || e.CeActivatedEvt?) && Next(t, e).inProgress && Next(t, e).state != t.state
  }

  /** The event ends a transaction that is under way, not for its own field having gone off: a clean-up thread
      clears its flag, or a timer set by an earlier one declares it over. */
  predicate Premature(t: Trans, e: Event) {
    t.inProgress && !t.state.TransEnd? && (e.ThreadBegins? || e.ThreadEnds? || (e.TimerFires? && !t.state.FieldOff?))
  }

  predicate NeverPremature(t: Trans, run: seq<Event>)
    requires Legal(t, run)
    decreases run
  {
    run == [] || (!Premature(t, run[0]) && NeverPremature(Next(t, run[0]), run[1..]))
  }

  predicate NeverOverlaps(t: Trans, run: seq<Event>)
    requires Legal(t, run)
    decreases run
  {
    run == [] || (!(Begins(t, run[0]) && LeftOver(t)) && NeverOverlaps(Next(t, run[0]), run[1..]))
  }

  /** Nothing that may happen next is premature, ... */
  ghost predicate Safe(t: Trans) { forall f :: Enabled(t, f) ==> !Premature(t, f) }

  /** ... now and after every event of the run. */
  ghost predicate StaysSafe(t: Trans, run: seq<Event>)
    requires Legal(t, run)
    decreases run
  {
    Safe(t) && (run == [] || StaysSafe(Next(t, run[0]), run[1..]))
  }

  predicate Orderly(t: Trans) {
    && (t.created + t.midway > 0 ==> t.state.TransEnd? || t.state.Default?)
    && (t.state.Default? ==> !t.inProgress)
    && (t.armed <==> t.state.FieldOff?)
  }

  lemma {:induction false} OrderlyRunsAreNeverPremature(t: Trans, run: seq<Event>)
    requires Orderly(t) && Legal(t, run) && NeverOverlaps(t, run)
    ensures NeverPremature(t, run)
    decreases run
  {
    if run == [] {
    } else {
      OrderlyRunsAreNeverPremature(Next(t, run[0]), run[1..]);
    }
  }

  /** As long as no transaction begins while a clean-up thread is pending or the timer is running, no transaction is
      ever ended before its field has gone off. */
  lemma {:induction false} SeparateTransactionsAreNotForgotten(run: seq<Event>)
    requires Legal(ZEROED, run) && NeverOverlaps(ZEROED, run)
    ensures NeverPremature(ZEROED, run)
  {
    OrderlyRunsAreNeverPremature(ZEROED, run);
  }

  /** Where everything has been orderly so far, a transaction that begins is open to a premature end just when
      something is left over. */
  lemma {:induction false} BeginningIsSafeExactlyWithNothingLeftOver(t: Trans, e: Event)
    requires Orderly(t) && Enabled(t, e) && Begins(t, e)
    ensures Safe(Next(t, e)) <==> !LeftOver(t)
  {
    var u := Next(t, e);
    if t.created > 0 {
      assert Enabled(u, ThreadBegins) && Premature(u, ThreadBegins);
    } else if t.midway > 0 {
      assert Enabled(u, ThreadEnds) && Premature(u, ThreadEnds);
    } else if t.armed {
      assert Enabled(u, TimerFires) && Premature(u, TimerFires);
    }
  }

  lemma {:induction false} OrderlyRunsAreSafeExactly(t: Trans, run: seq<Event>)
    requires Orderly(t) && Legal(t, run)
    ensures StaysSafe(t, run) <==> NeverOverlaps(t, run)
    decreases run
  {
    if run == [] {
    } else if Begins(t, run[0]) && LeftOver(t) {
      BeginningIsSafeExactlyWithNothingLeftOver(t, run[0]);
    } else {
      OrderlyRunsAreSafeExactly(Next(t, run[0]), run[1..]);
    }
  }

  /** Over every run: at no point is a transaction open to a premature end if and only if none ever begins while a
      clean-up thread is pending or the timer is running. */
  lemma {:induction false} TransactionsAreSafeExactlyWhenSeparate(run: seq<Event>)
    requires Legal(ZEROED, run)
    ensures StaysSafe(ZEROED, run) <==> NeverOverlaps(ZEROED, run)
  {
    OrderlyRunsAreSafeExactly(ZEROED, run);
  }

  /** From t the run is possible, ends as it should, and is not without a premature clearing. */
  predicate EndsPremature(t: Trans, run: seq<Event>, last: Trans) {
    Legal(t, run) && After(t, run) == last && !NeverPremature(t, run)
  }

  lemma {:induction false} Prepend(t: Trans, e: Event, rest: seq<Event>, last: Trans)
    requires Enabled(t, e) && EndsPremature(Next(t, e), rest, last)
    ensures EndsPremature(t, [e] + rest, last)
  {
    assert ([e] + rest)[0] == e && ([e] + rest)[1..] == rest;
  }

  const ON := Activation(true, false)
  const OFF := Field(true, false)
  const THREAD_ENDS: seq<Event> := [ThreadEnds] + []
  const SECOND_BEGINS: seq<Event> := [ON] + THREAD_ENDS
  const THREAD_BEGINS: seq<Event> := [ThreadBegins] + SECOND_BEGINS
  const FIRST_ENDS: seq<Event> := [OFF] + THREAD_BEGINS
  const TWO_TRANSACTIONS: seq<Event> := [ON] + FIRST_ENDS

  lemma {:induction false} ThreadForgets()
    ensures EndsPremature(Trans(ActivatedEvt, true, false, 0, 1), THREAD_ENDS, ZEROED)
  {
    assert THREAD_ENDS[0] == ThreadEnds && THREAD_ENDS[1..] == [];
    assert Legal(ZEROED, []) && After(ZEROED, []) == ZEROED;
  }

  lemma {:induction false} SecondBegins()
    ensures EndsPremature(Trans(TransEnd, false, false, 0, 1), SECOND_BEGINS, ZEROED)
  {
    ThreadForgets();
    Prepend(Trans(TransEnd, false, false, 0, 1), ON, THREAD_ENDS, ZEROED);
  }

  lemma {:induction false} ThreadIsReplaying()
    ensures EndsPremature(Trans(TransEnd, true, false, 1, 0), THREAD_BEGINS, ZEROED)
  {
    SecondBegins();
    Prepend(Trans(TransEnd, true, false, 1, 0), ThreadBegins, SECOND_BEGINS, ZEROED);
  }

  lemma {:induction false} FirstEnds()
    ensures EndsPremature(Trans(ActivatedEvt, true, false, 0, 0), FIRST_ENDS, ZEROED)
  {
    ThreadIsReplaying();
    Prepend(Trans(ActivatedEvt, true, false, 0, 0), OFF, THREAD_BEGINS, ZEROED);
  }

  /** Such a run: the second activation comes while the thread of the first transaction is replaying, and the
      end of that thread leaves the second transaction, its field still on, not in progress. */
  lemma {:induction false} SecondTransactionIsForgotten()
    ensures EndsPremature(ZEROED, TWO_TRANSACTIONS, ZEROED)
  {
    FirstEnds();
    Prepend(ZEROED, ON, FIRST_ENDS, ZEROED);
  }

  const TIMER_FIRES: seq<Event> := [TimerFires] + []
  const NEXT_BEGINS: seq<Event> := [ON] + TIMER_FIRES
  const FIELD_GOES: seq<Event> := [OFF] + NEXT_BEGINS
  const TIMER_LEFT: seq<Event> := [EeActionEvt(false)] + FIELD_GOES
  const TIMED_OUT := Trans(TransEnd, true, false, 1, 0)

  lemma {:induction false} TimerIsLate()
    ensures EndsPremature(Trans(ActivatedEvt, true, true, 0, 0), TIMER_FIRES, TIMED_OUT)
  {
    assert TIMER_FIRES[0] == TimerFires && TIMER_FIRES[1..] == [];
    assert Legal(TIMED_OUT, []) && After(TIMED_OUT, []) == TIMED_OUT;
  }

  lemma {:induction false} NextBeginsInTime()
    ensures EndsPremature(Trans(FieldOff, true, true, 0, 0), NEXT_BEGINS, TIMED_OUT)
  {
    TimerIsLate();
    Prepend(Trans(FieldOff, true, true, 0, 0), ON, TIMER_FIRES, TIMED_OUT);
  }

  /** And such a run with the timer: the first transaction's field goes off, a second activation comes within the
      timer's 50 ms, and the timer declares that one over with its field on. */
  lemma {:induction false} SecondTransactionIsTimedOut()
    ensures EndsPremature(ZEROED, TIMER_LEFT, TIMED_OUT)
  {
    NextBeginsInTime();
    Prepend(Trans(EeAction, true, false, 0, 0), OFF, NEXT_BEGINS, TIMED_OUT);
    Prepend(ZEROED, EeActionEvt(false), FIELD_GOES, TIMED_OUT);
  }
}
