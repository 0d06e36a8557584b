/** The events that drive NfcTag from the stack: discovery records, activations and deactivations.  When
    several tags are found they are activated one after another, put to sleep in between, and reported as one
    tag after the last. */
module TagPolling {
  import opened Options
  import opened NfcTagLists
  import opened TargetTypes

  /** What the stack and the driver's modes bring.  `same` says that IsSameKovio recognised the tag; `multi`
      that the multiprotocol timer takes over. */
  datatype Event =
    | DiscoveryRecord(d: Target, more: bool, reader: bool, multi: bool)
    | DiscoveryFailed
    | SelectFailed
    | Activated(a: Target, same: bool)
    | ActivatedUpdate(a: Target)
    | DeactivatedSleep
    | DeactivatedIdle

  /** Counters and indices inside the arrays */
  ghost predicate Bounded(t: Tag) {
    && |t.list| == MAX_NUM_TECHNOLOGY && 0 <= t.index <= MAX_NUM_TECHNOLOGY && 0 <= t.num <= MAX_NUM_TECHNOLOGY
    && 0 <= t.discTechs <= MAX_NUM_TECHNOLOGY && 0 <= t.selected < MAX_NUM_TECHNOLOGY
  }

  /** A Mifare record when one entry is left */
  predicate MifareAtTen(t: Tag, e: Event) {
    e.DiscoveryRecord? && e.d.protocol.Mifare? && t.num == MAX_NUM_TECHNOLOGY - 1
  }

  /** handleRfDiscoveryEvent, after the record is saved */
  function Counted(t: Tag, more: bool, reader: bool, multi: bool): Tag
    requires more || Bounded(t)
  {
    var u := t.(discNtf := t.discNtf + 1);
    if more then u
    else if !reader && P2pFound(t) then Reset(u)
    else if !reader && multi then u
    else
      var v := u.(discNtf := if reader then 0 else t.discNtf);
      Selecting(v, FirstTag(v))
  }

  /** Is the tag reported, once this activation is in the list? */
  predicate Reports(t: Tag)
    requires Searchable(t)
  {
    t.discNtf == 0 || NextValid(t) == None
  }

  /** The end of createNativeNfcTag */
  function Finished(t: Tag): Tag
    requires Searchable(t)
  {
    t.(index := if t.discNtf == 0 then 0 else t.num, discNtf := if Reports(t) then 0 else t.discNtf)
  }

  function KovioSeen(t: Tag, a: Target): Tag
    requires Fits(t)
  {
    if a.protocol.Kovio? then t.(list := t.list[0 := t.list[0].(params := a.params)]) else t
  }

  /** The deactivated case: the next tag is selected while notifications are outstanding. */
  function Woken(t: Tag): Tag
    requires Searchable(t)
  {
    if t.discNtf != 0 then
      var u := t.(discNtf := t.discNtf - 1);
      Selecting(u, NextValid(u))
    else t
  }

  /** A discovery record is saved, and counted.  What is read past the arrays is not defined. */
  function Recording(t: Tag, d: Target, more: bool, reader: bool, multi: bool): (r: Tag)
    requires Bounded(t)
    ensures Bounded(r) <==> !(d.protocol.Mifare? && t.num == MAX_NUM_TECHNOLOGY - 1)
    ensures d.protocol.Mifare? && t.num == MAX_NUM_TECHNOLOGY - 1 ==> r.num == r.discTechs == MAX_NUM_TECHNOLOGY + 1
  {
    var u := Discover(t, d);
    if u.num > MAX_NUM_TECHNOLOGY && !more then u else Counted(u, more, reader, multi)
  }

  /** One event.  All indices stay inside the arrays, except after a Mifare record at the last entry: that
      leaves mNumTechList and mNumDiscTechList at 12, and what the searches then read is not defined. */
  function Step(t: Tag, e: Event): (r: Tag)
    requires Bounded(t)
    ensures Bounded(r) <==> !MifareAtTen(t, e)
    ensures MifareAtTen(t, e) ==> r.num == r.discTechs == MAX_NUM_TECHNOLOGY + 1
  {
    match e
    case DiscoveryRecord(d, more, reader, multi) => Recording(t, d, more, reader, multi)
    case DiscoveryFailed => t.(discNtf := 0)
    case SelectFailed => t.(index := 0)
    case Activated(a, same) =>
      if a.protocol.Kovio? && same then KovioSeen(t, a) else Finished(Activate(KovioSeen(t, a), a))
    case ActivatedUpdate(a) => Activate(t, a)
    case DeactivatedSleep => Woken(t)
    case DeactivatedIdle => Reset(Woken(t).(discNtf := 0, index := 0))
  }

  ghost predicate StaysBounded(t: Tag, run: seq<Event>)
    requires Bounded(t)
    decreases run
  {
    run == [] || (Bounded(Step(t, run[0])) && StaysBounded(Step(t, run[0]), run[1..]))
  }

  ghost predicate NoMifareAtTen(t: Tag, run: seq<Event>)
    requires Bounded(t)
    decreases run
  {
    run == [] || (!MifareAtTen(t, run[0]) && NoMifareAtTen(Step(t, run[0]), run[1..]))
  }

  /** Over any run, the counters stay within the arrays exactly when no Mifare record arrives at index 10. */
  lemma {:induction false} BoundedExactlyWithoutMifareAtTen(t: Tag, run: seq<Event>)
    requires Bounded(t)
    ensures StaysBounded(t, run) <==> NoMifareAtTen(t, run)
    decreases run
  {
    if run != [] && !MifareAtTen(t, run[0]) {
      BoundedExactlyWithoutMifareAtTen(Step(t, run[0]), run[1..]);
    }
  }

  // ---- the technology list ----

  /** An activation keeps every entry below mTechListIndex and appends its own expansion. */
  lemma {:induction false} ActivationAppends(t: Tag, a: Target)
    requires Bounded(t)
    ensures var u := Activate(t, a);
            && u.list[..t.index] == t.list[..t.index]
            && (t.index < MAX_NUM_TECHNOLOGY ==>
                  u.num == t.index + |Expansion(a, Room(t.index))| <= MAX_NUM_TECHNOLOGY
                  && u.list[..u.num] == t.list[..t.index] + Expansion(a, Room(t.index)))
            && (t.index == MAX_NUM_TECHNOLOGY ==> u.num == t.index && u.list == t.list)
  {
    if t.index < MAX_NUM_TECHNOLOGY {
      var e := Expansion(a, Room(t.index));
      assert Activate(t, a).list == t.list[..t.index] + e + t.list[t.index + |e|..];
    }
  }

  /** The technologies of several targets, one after another */
  function Technologies(targets: seq<Target>): seq<Entry> {
    if targets == [] then []
    else Technologies(targets[..|targets| - 1]) + Expansion(targets[|targets| - 1], true)
  }

  /** Where the polling of several tags stands: the driver waits for the activation of the tag it selected, or
      for the sleep it asked for, or it has reported the tag. */
  datatype Phase = AwaitingActivation | AwaitingSleep | Settled

  /** The tag, the phase, the activations so far, and the lists reported to the NFC service. */
  datatype Poll = Poll(t: Tag, phase: Phase, activations: seq<Target>, reports: seq<seq<Entry>>)

  /** The driver's next step; `a` is the activation the stack brings, when one is awaited. */
  function PollStep(p: Poll, a: Target): Poll
    requires Bounded(p.t) && p.phase != Settled && !a.protocol.Kovio?
  {
    if p.phase == AwaitingActivation then
      var u := Activate(p.t, a);
      var v := Step(p.t, Activated(a, false));
      Poll(v, if v.discNtf != 0 then AwaitingSleep else Settled, p.activations + [a],
           if Reports(u) then p.reports + [u.list[..u.num]] else p.reports)
    else p.(t := Step(p.t, DeactivatedSleep), phase := AwaitingActivation)
  }

  ghost predicate Runs(p: Poll, run: seq<Target>, q: Poll)
    decreases run
  {
    if run == [] then q == p
    else Bounded(p.t) && p.phase != Settled && !run[0].protocol.Kovio? && Runs(PollStep(p, run[0]), run[1..], q)
  }

  /** One sweep over the tags starts after selectFirstTag, with n more notifications than the first. */
  predicate Starts(p: Poll, n: nat) {
    p.phase == AwaitingActivation && p.activations == [] && p.reports == [] && p.t.discNtf == n && p.t.index == 0
  }

  ghost predicate PollInv(p: Poll, n: nat) {
    && Bounded(p.t) && p.t.discNtf >= 0
    && |p.reports| == (if p.phase == Settled then 1 else 0)
    && (p.phase == Settled ==> p.t.discNtf == 0 && 1 <= |p.activations| <= n + 1)
    && (p.phase == AwaitingActivation ==> |p.activations| + p.t.discNtf == n)
    && (p.phase == AwaitingSleep ==> p.t.discNtf > 0 && |p.activations| + p.t.discNtf == n + 1 && NextValid(p.t).Some?)
    && (|Technologies(p.activations)| <= MAX_NUM_TECHNOLOGY ==> ListsAll(p))
  }

  /** The list below mTechListIndex, and the one reported, are all the technologies activated. */
  ghost predicate ListsAll(p: Poll)
    requires Bounded(p.t)
  {
    && (p.phase != Settled ==> p.t.list[..p.t.index] == Technologies(p.activations))
    && forall r <- p.reports :: r == Technologies(p.activations)
  }

  lemma {:induction false} NextIsAppended(p: Poll, a: Target)
    requires Bounded(p.t) && p.phase == AwaitingActivation
    requires |Technologies(p.activations + [a])| <= MAX_NUM_TECHNOLOGY
             && p.t.list[..p.t.index] == Technologies(p.activations)
    ensures |Technologies(p.activations)| <= MAX_NUM_TECHNOLOGY
    ensures var u := Activate(p.t, a);
            u.num <= MAX_NUM_TECHNOLOGY && u.list[..u.num] == Technologies(p.activations + [a])
  {
    var all := p.activations + [a];
    assert all[..|all| - 1] == p.activations;
    ActivationAppends(p.t, a);
  }

  /** What a step does with an activation, apart from the list */
  lemma {:induction false} Activating(p: Poll, a: Target)
    requires Bounded(p.t) && p.phase == AwaitingActivation && !a.protocol.Kovio?
    ensures var q, u := PollStep(p, a), Activate(p.t, a);
            && Bounded(q.t) && q.phase != AwaitingActivation && q.activations == p.activations + [a]
            && q.t.list == u.list && q.t.num == u.num && q.t.discTechs == p.t.discTechs && q.t.selected == p.t.selected
            && q.reports == (if q.phase == Settled then p.reports + [u.list[..u.num]] else p.reports)
            && (q.phase == Settled ==> q.t.discNtf == 0)
            && (q.phase == AwaitingSleep <==> p.t.discNtf != 0 && NextValid(u) != None)
            && (q.phase == AwaitingSleep ==> q.t.index == u.num && q.t.discNtf == p.t.discNtf)
  {
    var u := Activate(p.t, a);
    SearchIsOfTheList(u, Finished(u), 0);
  }

  lemma {:induction false} ActivationKeepsInv(p: Poll, a: Target, n: nat)
    requires PollInv(p, n) && p.phase == AwaitingActivation && !a.protocol.Kovio?
    ensures PollInv(PollStep(p, a), n)
  {
    var q, u := PollStep(p, a), Activate(p.t, a);
    Activating(p, a);
    SearchIsOfTheList(u, q.t, 0);
    if |Technologies(q.activations)| <= MAX_NUM_TECHNOLOGY {
      NextIsAppended(p, a);
    }
  }

  lemma {:induction false} PollStepKeepsInv(p: Poll, a: Target, n: nat)
    requires PollInv(p, n) && p.phase != Settled && !a.protocol.Kovio?
    ensures PollInv(PollStep(p, a), n)
  {
    if p.phase == AwaitingActivation {
      ActivationKeepsInv(p, a, n);
    }
  }

  lemma {:induction false} RunKeepsPollInv(p: Poll, run: seq<Target>, q: Poll, n: nat)
    requires PollInv(p, n) && Runs(p, run, q)
    ensures PollInv(q, n)
    decreases run
  {
    if run == [] {
    } else {
      PollStepKeepsInv(p, run[0], n);
      RunKeepsPollInv(PollStep(p, run[0]), run[1..], q, n);
    }
  }

  /** Every sweep reports the tag exactly once and stops there, at the latest on activation n + 1; and while
      their technologies fit in the list, it reports the technologies of all the activations, in order. */
  lemma {:induction false} EverySweepReportsOnce(p: Poll, run: seq<Target>, q: Poll, n: nat)
    requires Bounded(p.t) && Starts(p, n) && Runs(p, run, q)
    ensures |q.reports| == (if q.phase == Settled then 1 else 0)
    ensures |q.activations| <= n + 1
    ensures |q.activations| == n + 1 ==> q.phase == Settled
    ensures q.phase == Settled && |Technologies(q.activations)| <= MAX_NUM_TECHNOLOGY ==>
              q.reports == [Technologies(q.activations)]
  {
    assert p.t.list[..p.t.index] == [];
    RunKeepsPollInv(p, run, q, n);
    assert |q.reports| == 1 ==> q.reports == [q.reports[0]] && q.reports[0] in q.reports;
  }

  /** It never gets stuck before: every activation that is not reported is followed, after the sleep, by a
      selectNextTag that finds a tag, one with another handle than the tag put to sleep. */
  lemma {:induction false} DeferredActivationIsFollowedUp(p: Poll, run: seq<Target>, q: Poll, n: nat)
    requires Bounded(p.t) && Starts(p, n) && Runs(p, run, q) && q.phase == AwaitingSleep
    ensures Bounded(q.t)
    ensures var u := Woken(q.t);
            && 0 <= u.selected < u.discTechs && u.selected < |u.list|
            && u.list[u.selected].handle != q.t.list[q.t.selected].handle
            && u.list[u.selected].libType != NfcDep
  {
    RunKeepsPollInv(p, run, q, n);
    SearchIsOfTheList(q.t, q.t.(discNtf := q.t.discNtf - 1), 0);
  }

  // ---- the driver ----

  /** A discovery record, then handleRfDiscoveryEvent */
  method OnDiscoveryRecord(tag: NfcTag, d: Target, more: bool, reader: bool, multi: bool)
    requires tag.Valid() && Bounded(tag.Value())
    requires more || !MifareAtTen(tag.Value(), DiscoveryRecord(d, more, reader, multi))
    modifies tag, tag.techList, tag.techHandles, tag.techLibNfcTypes, tag.techParams
    ensures tag.Value() == Step(old(tag.Value()), DiscoveryRecord(d, more, reader, multi))
  {
    ghost var t := tag.Value();
    assert !more ==> Bounded(Step(t, DiscoveryRecord(d, true, reader, multi)));
    tag.DiscoverResult(d);
    HandleRfDiscovery(tag, more, reader, multi);
  }

  method HandleRfDiscovery(tag: NfcTag, more: bool, reader: bool, multi: bool)
    requires tag.Valid() && (more || Bounded(tag.Value()))
    modifies tag, tag.techList, tag.techHandles, tag.techLibNfcTypes, tag.techParams
    ensures tag.Value() == Counted(old(tag.Value()), more, reader, multi)
  {
    tag.numDiscNtf := tag.numDiscNtf + 1;
    if more {
      return;
    }
    var isP2p := tag.IsP2pDiscovered();
    if !reader && isP2p {
      tag.ResetTechnologies();
    } else if reader || !multi {
      tag.numDiscNtf := if reader then 0 else tag.numDiscNtf - 1;
      var selected := tag.SelectFirstTag();
    }
  }

  /** The activated case, for a tag that is polled; `same` is the answer IsSameKovio gives for a Kovio tag, and
      `sleep` the NFA_Deactivate asked for. */
  method OnActivated(tag: NfcTag, a: Target, same: bool) returns (reported: bool, sleep: bool)
    requires tag.Valid() && Bounded(tag.Value())
    modifies tag, tag.techList, tag.techHandles, tag.techLibNfcTypes, tag.techParams
    ensures tag.Value() == Step(old(tag.Value()), Activated(a, same))
    ensures reported <==> !(a.protocol.Kovio? && same) && Reports(Activate(KovioSeen(old(tag.Value()), a), a))
    ensures sleep <==> tag.numDiscNtf != 0
  {
    reported := false;
    var ignored := IsSameKovio(tag, a, same);
    if !ignored {
      tag.DiscoverActivation(a);
      reported := tag.Report();
    }
    sleep := tag.numDiscNtf != 0;
  }

  /** The parameters of a Kovio tag go into the first entry, whichever entry it will be written to. */
  method IsSameKovio(tag: NfcTag, a: Target, same: bool) returns (r: bool)
    requires tag.Valid() && Bounded(tag.Value())
    modifies tag.techParams
    ensures r == (a.protocol.Kovio? && same) && tag.Value() == KovioSeen(old(tag.Value()), a)
  {
    if a.protocol != Kovio {
      return false;
    }
    tag.techParams[0] := a.params;
    return same;
  }

  /** The deactivated case */
  method OnDeactivated(tag: NfcTag, sleep: bool)
    requires tag.Valid() && Bounded(tag.Value())
    modifies tag, tag.techList, tag.techHandles, tag.techLibNfcTypes, tag.techParams
    ensures tag.Value() == Step(old(tag.Value()), if sleep then DeactivatedSleep else DeactivatedIdle)
  {
    if tag.numDiscNtf != 0 {
      tag.numDiscNtf := tag.numDiscNtf - 1;
      var next := tag.SelectNextTag();
    }
    if !sleep {
      tag.numDiscNtf := 0;
      tag.techListIndex := 0;
      tag.ResetTechnologies();
    }
  }
}
