/** What a woken requester reads: the handle its own callback stored, or NFA_HANDLE_INVALID when a
    disconnect arrived in between. */
module AnswersSeen {
  import opened Options
  import opened Monitors
  import opened PeerScripts
  import opened ThreadMachine
  import opened NoLostWakeup

  /** The stack runs one callback at a time, and answers a registration or a connect only when asked. */
  ghost predicate HonestStack(s: State, l: Label) {
    l.Spawn? && Delivers(l.op).Some? ==>
      Delivers(l.op).value in s.owed && forall t <- s.threads :: s.threads[t].ledger.due.None?
  }

  ghost predicate HonestRun(s: State, ls: seq<Label>)
    requires Legal(s, ls)
    decreases ls
  {
    ls == [] || (HonestStack(s, ls[0]) && HonestRun(Next(s, ls[0]), ls[1..]))
  }

  /** At most one handle is on its way to a requester, and it is owed. */
  ghost predicate OneDelivery(s: State) {
    forall t <- s.threads :: s.threads[t].ledger.due.Some? ==>
      && s.threads[t].ledger.due.value in s.owed
      && forall u <- s.threads :: u != t ==> s.threads[u].ledger.due.None?
  }

  /** A requester woken by a callback that stored a handle, about to look at it. */
  predicate Delivered(th: Thread) {
    th.mode.Woken? && CarriesHandle(th.mode.event) && th.mode.waker.Callback? && th.mode.waker.write.Some?
  }

  /** The n-th store is the one that answered this requester, and every later one to the field is an invalidation. */
  ghost predicate StoredFor(log: seq<Entry>, n: nat, th: Thread)
    requires Delivered(th)
  {
    && n < |log| && log[n] == Entry(th.mode.waker.write.value, th.mode.waker.thread, Some(th.mode.event))
    && log[n].write.field == FieldOf(th.mode.event) && OnlyInvalid(log, n + 1, FieldOf(th.mode.event))
  }

  /** From index n on, nothing but the invalid handle is stored in the field. */
  ghost predicate OnlyInvalid(log: seq<Entry>, n: nat, f: Field) {
    forall i :: n <= i < |log| && log[i].write.field == f ==> log[i].write.value == INVALID
  }

  /** Is anything stored in the field from index n on? */
  ghost predicate StoredSince(log: seq<Entry>, n: nat, f: Field) {
    exists i :: n <= i < |log| && log[i].write.field == f
  }

  /** What is found in a field after a store followed by invalidations only */
  lemma {:induction false} LatestAfter(log: seq<Entry>, n: nat, f: Field)
    requires n < |log| && log[n].write.field == f && OnlyInvalid(log, n + 1, f)
    ensures Latest(log, f) == Some(if StoredSince(log, n + 1, f) then INVALID else log[n].write.value)
    decreases |log|
  {
    var last := |log| - 1;
    if log[last].write.field == f {
      assert n < last ==> StoredSince(log, n + 1, f);
    } else {
      var front := log[..last];
      LatestAfter(front, n, f);
      assert forall i :: 0 <= i < last ==> front[i] == log[i];
      assert StoredSince(log, n + 1, f) <==> StoredSince(front, n + 1, f);
    }
  }

  ghost predicate Sees(s: State, th: Thread)
    requires Delivered(th)
  {
    th.mode.event !in s.owed && exists n: nat :: StoredFor(s.log, n, th)
  }

  ghost predicate DeliveryInv(s: State) {
    WakeupInv(s) && OneDelivery(s) && forall t <- s.threads :: Delivered(s.threads[t]) ==> Sees(s, s.threads[t])
  }

  predicate Answers(th: Thread, e: Event) {
    th.todo != [] && th.mode.Running? && th.todo[0].Answer? && th.todo[0].event == e
  }

  /** Only an answer takes a handle request off the list of those owed, or stores a handle where it is looked for. */
  lemma {:induction false} StepEffects(s: State, t: Tid, woken: Option<Tid>, e: Event)
    requires LockInv(s) && CanRun(s, t, woken) && CarriesHandle(e)
    ensures var s' := Step(s, t, woken);
            && (e in s.owed && e !in s'.owed ==> Answers(s.threads[t], e))
            && (e !in s.owed && e in s'.owed ==> s.threads[t].mode.Running? && s.threads[t].todo[0] == Handshake(e))
            && (Answers(s.threads[t], e) ==> s.threads[t].ledger.due == Some(e) && s'.threads[t].ledger.due == None)
            && (s'.threads[t].ledger.due == s.threads[t].ledger.due || s'.threads[t].ledger.due == None)
  {
    assert ThreadOk(s.threads[t]);
  }

  lemma {:induction false} StepStores(s: State, t: Tid, woken: Option<Tid>, e: Event)
    requires LockInv(s) && CanRun(s, t, woken) && CarriesHandle(e) && !Answers(s.threads[t], e)
    ensures var log, log' := s.log, Step(s, t, woken).log;
            |log| <= |log'| && log'[..|log|] == log && OnlyInvalid(log', |log|, FieldOf(e))
  {
    assert ThreadOk(s.threads[t]);
  }

  lemma {:induction false} NothingNewIsDue(s: State, t: Tid, woken: Option<Tid>, u: Tid)
    requires LockInv(s) && CanRun(s, t, woken) && u in Step(s, t, woken).threads
    ensures u in s.threads
    ensures var due := Step(s, t, woken).threads[u].ledger.due; due == s.threads[u].ledger.due || due.None?
  {
    if u == t { StepEffects(s, t, woken, RegServer(0)); } else { OtherThreadsStep(s, t, woken, u); }
  }

  lemma {:induction false} StepKeepsOneDelivery(s: State, t: Tid, woken: Option<Tid>)
    requires DeliveryInv(s) && CanRun(s, t, woken)
    ensures OneDelivery(Step(s, t, woken))
  {
    var s' := Step(s, t, woken);
    forall u | u in s'.threads
      ensures u in s.threads && (s'.threads[u].ledger.due == s.threads[u].ledger.due || s'.threads[u].ledger.due.None?)
    {
      NothingNewIsDue(s, t, woken, u);
    }
    forall u | u in s'.threads && s'.threads[u].ledger.due.Some?
      ensures s'.threads[u].ledger.due.value in s'.owed
    {
      var e := s.threads[u].ledger.due.value;
      assert e in s.owed;
      DueCarriesHandle(s, u);
      StepEffects(s, t, woken, e);
    }
  }

  lemma {:induction false} DueCarriesHandle(s: State, u: Tid)
    requires LockInv(s) && u in s.threads && s.threads[u].ledger.due.Some?
    ensures CarriesHandle(s.threads[u].ledger.due.value)
  {
    var th := s.threads[u];
    assert ThreadOk(th);
    match th.mode {
      case Running => DueIsAnswered(th.ledger, th.todo);
      case Called(e) => DueIsAnswered(th.ledger, th.todo[1..]);
      case Waiting(e) => DueIsAnswered(Resumed(th, e), th.todo[1..]);
      case Woken(e, _) => DueIsAnswered(Resumed(th, e), th.todo[1..]);
    }
  }

  /** A script that ends owing nothing can only have owed an event that carries a handle. */
  lemma {:induction false} DueIsAnswered(at: Ledger, script: seq<Act>)
    requires Disciplined(at, script) && at.due.Some?
    ensures CarriesHandle(at.due.value)
    decreases script
  {
    if script != [] && After(at, script[0]).due == at.due {
      DueIsAnswered(After(at, script[0]), script[1..]);
    }
  }

  /** A handle already delivered stays as it is, or is invalidated, until its requester looks at it. */
  lemma {:induction false} StepKeepsSight(s: State, t: Tid, woken: Option<Tid>, u: Tid)
    requires DeliveryInv(s) && CanRun(s, t, woken) && u in s.threads && u != t && Delivered(s.threads[u])
    ensures Sees(Step(s, t, woken), s.threads[u])
  {
    var e := s.threads[u].mode.event;
    assert ThreadOk(s.threads[u]);
    assert e in Claims(s.threads[u].todo) by { assert s.threads[u].todo[0] in s.threads[u].todo; }
    assert Sees(s, s.threads[u]);
    StepEffects(s, t, woken, e);
    StepStores(s, t, woken, e);
    var n: nat :| StoredFor(s.log, n, s.threads[u]);
    var log' := Step(s, t, woken).log;
    assert forall i :: 0 <= i < |s.log| ==> log'[i] == log'[..|s.log|][i];
    assert StoredFor(log', n, s.threads[u]);
  }

  lemma {:induction false} NewlyDelivered(s: State, t: Tid, woken: Option<Tid>, u: Tid)
    requires LockInv(s) && CanRun(s, t, woken) && u in s.threads
    requires Delivered(Step(s, t, woken).threads[u]) && Step(s, t, woken).threads[u] != s.threads[u]
    ensures Sees(Step(s, t, woken), Step(s, t, woken).threads[u])
  {
    assert ThreadOk(s.threads[t]);
    if u != t { OtherThreadsStep(s, t, woken, u); }
    assert StoredFor(Step(s, t, woken).log, |s.log|, Step(s, t, woken).threads[u]);
  }

  lemma {:induction false} StepKeepsDeliveryInv(s: State, t: Tid, woken: Option<Tid>)
    requires DeliveryInv(s) && CanRun(s, t, woken) && WakeupInv(Step(s, t, woken))
    ensures DeliveryInv(Step(s, t, woken))
  {
    var s' := Step(s, t, woken);
    StepKeepsOneDelivery(s, t, woken);
    assert s'.threads.Keys == s.threads.Keys;
    forall u | u in s'.threads && Delivered(s'.threads[u]) ensures Sees(s', s'.threads[u]) {
      if s'.threads[u] != s.threads[u] {
        NewlyDelivered(s, t, woken, u);
      } else {
        assert u != t;
        StepKeepsSight(s, t, woken, u);
      }
    }
  }

  lemma {:induction false} NextKeepsDeliveryInv(s: State, l: Label)
    requires DeliveryInv(s) && Enabled(s, l) && OneRequester(s, l) && HonestStack(s, l)
    ensures DeliveryInv(Next(s, l))
  {
    NextKeepsWakeupInv(s, l);
    match l {
      case Spawn(t, op) =>
        assert forall u <- s.threads :: Next(s, l).threads[u] == s.threads[u];
      case Run(t, woken) => StepKeepsDeliveryInv(s, t, woken);
    }
  }

  lemma {:induction false} ExecKeepsDeliveryInv(s: State, ls: seq<Label>)
    requires DeliveryInv(s) && Legal(s, ls) && OneRequesterRun(s, ls) && HonestRun(s, ls)
    ensures DeliveryInv(Exec(s, ls))
    decreases ls
  {
    if ls == [] {
    } else {
      NextKeepsDeliveryInv(s, ls[0]);
      ExecKeepsDeliveryInv(Next(s, ls[0]), ls[1..]);
    }
  }

  /** In every interleaving, a requester woken by the callback that answered it finds the handle that callback stored,
      or the invalid one exactly when the connection has been invalidated since; and its request has been
      discharged. */
  lemma {:induction false} RequesterSeesItsAnswer(ls: seq<Label>, t: Tid)
    requires Legal(START, ls) && OneRequesterRun(START, ls) && HonestRun(START, ls)
    requires t in Exec(START, ls).threads && Delivered(Exec(START, ls).threads[t])
    ensures var s := Exec(START, ls);
            var th := s.threads[t];
            && th.mode.event !in s.owed
            && exists n: nat :: StoredFor(s.log, n, th)
                 && Latest(s.log, FieldOf(th.mode.event))
                    == Some(if StoredSince(s.log, n + 1, FieldOf(th.mode.event)) then INVALID else s.log[n].write.value)
  {
    var s := Exec(START, ls);
    ExecKeepsDeliveryInv(START, ls);
    var n: nat :| StoredFor(s.log, n, s.threads[t]);
    LatestAfter(s.log, n, FieldOf(s.threads[t].mode.event));
  }
}
