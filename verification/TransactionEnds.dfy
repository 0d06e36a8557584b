/** Transactions end: once the field is off for good, the timer or a clean-up thread brings the record back to zero; and
    exactly which transactions the field going off does not end. */
module TransactionEnds {
  import opened TransactionMachine

  /** Which events begin a transaction, or go on with one as a new one */
  lemma {:induction false} BeginsExactly(t: Trans, e: Event)
    requires Enabled(t, e)
    ensures Begins(t, e) <==>
              || (e.Activation? && e.listen && !e.nfcDep && !t.state.ActivatedEvt?)
              || ((e.EeActionEvt? || e.CeActivatedEvt?) && (t.state.Default? || t.state.ActivatedEvt?))
  {
  }

  /** From here on the field stays off and no transaction begins. */
  ghost predicate OffForGood(t: Trans, run: seq<Event>)
    requires Legal(t, run)
    decreases run
  {
    run == [] || (run[0] != Field(true, true) && !Begins(t, run[0]) && OffForGood(Next(t, run[0]), run[1..]))
  }

  /** The record is back where it was, but for what is left over. */
  predicate Over(t: Trans) { t.state.Default? && !t.inProgress }

  lemma {:induction false} StepTowardsEnd(t: Trans, e: Event)
    requires Enabled(t, e) && (LeftOver(t) || Over(t)) && e != Field(true, true) && !Begins(t, e)
    ensures LeftOver(Next(t, e)) || Over(Next(t, e))
  {
  }

  lemma {:induction false} EndsWithWhatIsLeft(t: Trans, run: seq<Event>)
    requires (LeftOver(t) || Over(t)) && Legal(t, run) && OffForGood(t, run)
    ensures LeftOver(After(t, run)) || After(t, run) == ZEROED
    decreases run
  {
    if run == [] {
    } else {
      StepTowardsEnd(t, run[0]);
      EndsWithWhatIsLeft(Next(t, run[0]), run[1..]);
    }
  }

  /** How much is left to run: the timer starts a thread, and a thread has two parts. */
  function Remaining(t: Trans): nat { (if t.armed then 3 else 0) + 2 * t.created + t.midway }

  function Due(t: Trans): Event
    requires LeftOver(t)
  {
    if t.armed then TimerFires else if t.created > 0 then ThreadBegins else ThreadEnds
  }

  /** The timer and the threads alone bring the record back to zero. */
  lemma {:induction false} WhatIsLeftEnds(t: Trans) returns (run: seq<Event>)
    requires LeftOver(t)
    ensures Legal(t, run) && OffForGood(t, run) && After(t, run) == ZEROED
    decreases Remaining(t)
  {
    var u := Next(t, Due(t));
    StepTowardsEnd(t, Due(t));
    if LeftOver(u) {
      var rest := WhatIsLeftEnds(u);
      run := [Due(t)] + rest;
      assert run[1..] == rest;
    } else {
      run := [Due(t)];
      assert run[1..] == [];
      assert Legal(u, []) && After(u, []) == u;
    }
  }

  /** However things go on with the field off for good, once the timer and the threads have run the record is zero; and
      they can. */
  ghost predicate Ends(t: Trans) {
    && (forall run :: Legal(t, run) && OffForGood(t, run) && !LeftOver(After(t, run)) ==> After(t, run) == ZEROED)
    && exists run :: Legal(t, run) && OffForGood(t, run) && After(t, run) == ZEROED
  }

  lemma {:induction false} LeftOverEnds(t: Trans)
    requires LeftOver(t)
    ensures Ends(t)
  {
    forall run | Legal(t, run) && OffForGood(t, run) && !LeftOver(After(t, run)) ensures After(t, run) == ZEROED {
      EndsWithWhatIsLeft(t, run);
    }
    var run := WhatIsLeftEnds(t);
  }

  /** The field going off does not end these: a card emulation not yet deactivated, and a Mifare one, which ends with
      the deactivation of the RF link. */
  predicate Unmoved(s: TransState) { s.CeActivated? || s.MifareAct? }

  /** The field going off changes nothing exactly where no transaction is under way, the end is on its way already, or
      the transaction waits for a deactivation. */
  lemma {:induction false} FieldOffChangesNothingExactly(run: seq<Event>)
    requires Legal(ZEROED, run)
    ensures var t := After(ZEROED, run);
            Next(t, Field(true, false)) == t
            <==> t.state.Default? || t.state.FieldOff? || t.state.TransEnd? || Unmoved(t.state)
  {
    RunsStayCoherent(ZEROED, run);
  }

  /** In every reachable state in which a transaction is in progress, the field going off starts the timer or a clean-up
      thread, unless the transaction waits for a deactivation and nothing is left over from another. */
  lemma {:induction false} FieldOffStartsTheEnd(run: seq<Event>)
    requires Legal(ZEROED, run) && After(ZEROED, run).inProgress
    ensures var t := After(ZEROED, run);
            LeftOver(Next(t, Field(true, false))) <==> !Unmoved(t.state) || LeftOver(t)
  {
    RunsStayCoherent(ZEROED, run);
    InProgressIsMarked(ZEROED, run);
  }

  lemma {:induction false} InProgressIsMarked(t: Trans, run: seq<Event>)
    requires Legal(t, run) && (t.inProgress ==> !t.state.Default?)
    ensures After(t, run).inProgress ==> !After(t, run).state.Default?
    decreases run
  {
    if run == [] {
    } else {
      InProgressIsMarked(Next(t, run[0]), run[1..]);
    }
  }

  /** Over every run: a transaction in progress ends, once its field goes off for good, exactly unless it waits for a
      deactivation with nothing left over from another. */
  lemma {:induction false} TransactionsEndExactly(run: seq<Event>)
    requires Legal(ZEROED, run) && After(ZEROED, run).inProgress
    ensures var t := After(ZEROED, run);
            Ends(Next(t, Field(true, false))) <==> !Unmoved(t.state) || LeftOver(t)
  {
    var t := After(ZEROED, run);
    var u := Next(t, Field(true, false));
    FieldOffStartsTheEnd(run);
    if LeftOver(u) {
      LeftOverEnds(u);
    } else {
      assert u == t;
      assert Legal(u, []) && OffForGood(u, []) && After(u, []) == u;
    }
  }

  // ---- the transactions that wait for a deactivation ----

  /** A Mifare transaction ends with the deactivation of the RF link, whatever the field does. */
  lemma {:induction false} DeactivationEndsMifare(t: Trans)
    requires t.state.MifareAct?
    ensures Ends(Next(t, DeactivatedToIdle))
  {
    LeftOverEnds(Next(t, DeactivatedToIdle));
  }

  /** A card emulation ends if it is deactivated and then the field goes off. */
  lemma {:induction false} DeactivatedThenOffEnds(t: Trans)
    requires t.state.CeActivated?
    ensures Ends(Next(Next(t, CeDeactivatedEvt), Field(true, false)))
  {
    LeftOverEnds(Next(Next(t, CeDeactivatedEvt), Field(true, false)));
  }

  /** The field does not go off another time. */
  ghost predicate NoFieldOff(run: seq<Event>) { forall i :: 0 <= i < |run| ==> run[i] != Field(true, false) }

  lemma {:induction false} WaitingGoesOn(t: Trans, run: seq<Event>)
    requires Legal(t, run) && OffForGood(t, run) && NoFieldOff(run)
    requires t.inProgress && !LeftOver(t) && (t.state.CeActivated? || t.state.CeDeactivated?)
    ensures var u := After(t, run);
            u.inProgress && !LeftOver(u) && (u.state.CeActivated? || u.state.CeDeactivated?)
    decreases run
  {
    if run == [] {
    } else {
      WaitingGoesOn(Next(t, run[0]), run[1..]);
    }
  }

  /** If the field goes off first and the deactivation is reported after it, the card emulation stays in progress, and
      every request deferred, for as long as no field goes off again and nothing else begins. */
  lemma {:induction false} OffThenDeactivatedGoesOn(t: Trans, run: seq<Event>)
    requires t.state.CeActivated? && t.inProgress && !LeftOver(t)
    requires var u := Next(Next(t, Field(true, false)), CeDeactivatedEvt);
             Legal(u, run) && OffForGood(u, run) && NoFieldOff(run)
    ensures var u := After(Next(Next(t, Field(true, false)), CeDeactivatedEvt), run); u.inProgress && !LeftOver(u)
  {
    WaitingGoesOn(Next(Next(t, Field(true, false)), CeDeactivatedEvt), run);
  }

  // ---- a payment ----

  /** The field goes off and on again within the timer's time: the timer is stopped, and the transaction goes on until
      the field goes off once more, which ends it. */
  lemma {:induction false} PaymentEndsWithItsField(t: Trans)
    requires t.state.EeAction? || t.state.CeDeactivated?
    ensures var paying := Next(Next(t, Field(true, false)), Field(true, true));
            && paying.inProgress == t.inProgress && !paying.armed && !paying.state.Default? && !paying.state.FieldOff?
            && Ends(Next(paying, Field(true, false)))
  {
    LeftOverEnds(Next(Next(Next(t, Field(true, false)), Field(true, true)), Field(true, false)));
  }

  /** ... by a clean-up thread, at once. */
  lemma {:induction false} PaymentNeedsNoTimer(t: Trans)
    requires t.state.EeAction? || t.state.CeDeactivated?
    ensures var paying := Next(Next(t, Field(true, false)), Field(true, true));
            var paid := Next(paying, Field(true, false));
            !paid.armed && paid.created == t.created + 1
  {
  }

  /** A transaction is begun by one of three events, with nothing left over from another, and each says how it ends:
      one of the secure element's by the timer once its field goes off; a Mifare one by a clean-up thread once the RF
      link is deactivated; a card emulation by the timer, once it is deactivated and its field goes off after that.
      Until then nothing is on its way to end it. */
  lemma {:induction false} BeginningSaysHowItEnds(t: Trans)
    requires (t.state.Default? || t.state.ActivatedEvt?) && !LeftOver(t)
    ensures var u := Next(t, EeActionEvt(false)); u.inProgress && !LeftOver(u) && Next(u, Field(true, false)).armed
    ensures var u := Next(t, EeActionEvt(true));
            && u.inProgress && !LeftOver(u) && Next(u, Field(true, false)) == u
            && Next(u, DeactivatedToIdle).created == 1 && !Next(u, DeactivatedToIdle).armed
    ensures var u := Next(t, CeActivatedEvt);
            && u.inProgress && !LeftOver(u) && Next(u, Field(true, false)) == u && Next(u, DeactivatedToIdle) == u
            && !LeftOver(Next(u, CeDeactivatedEvt))
            && Next(Next(u, CeDeactivatedEvt), Field(true, false)).armed
  {
  }

  /** A peer, or a tag that is polled, begins no transaction, and a reader that activates the card begins one which the
      field going off ends at once. */
  lemma {:induction false} ActivationBeginsExactly(t: Trans, listen: bool, nfcDep: bool)
    requires (t.state.Default? || t.state.ActivatedEvt?) && !t.inProgress && !LeftOver(t)
    ensures var u := Next(t, Activation(listen, nfcDep));
            && (u.inProgress <==> listen && !nfcDep)
            && (u.inProgress ==> !LeftOver(u) && Next(u, Field(true, false)).created == 1)
  {
  }

  /** Field notifications that are not good count for nothing. */
  lemma {:induction false} BadFieldIsIgnored(t: Trans, on: bool)
    ensures Next(t, Field(false, on)) == t
  {
  }
}
