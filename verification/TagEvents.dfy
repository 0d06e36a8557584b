/** What the events outside a plain sweep lead to: peers among the tags, reader mode, the multiprotocol timer, failures,
    updates, and Kovio tags seen again. */
module TagEvents {
  import opened Options
  import opened NfcTagLists
  import opened TagPolling
  import opened TagSweep

  // ---- the last record of a discovery ----

  /** A peer is in the list. */
  ghost predicate ListsPeer(t: Tag) { exists i: nat :: i < t.num && i < |t.list| && t.list[i].libType.NfcDep? }

  lemma {:induction false} RecordKeepsPeer(t: Tag, d: Target)
    requires Bounded(t) && ListsPeer(t)
    ensures ListsPeer(Discover(t, d))
  {
    var i: nat :| i < t.num && i < |t.list| && t.list[i].libType.NfcDep?;
    assert Discover(t, d).list[i] == t.list[i];
  }

  /** A peer that is recorded is in the list, if there is room. */
  lemma {:induction false} PeerIsListed(t: Tag, d: Target)
    requires Bounded(t) && d.protocol.NfcDep? && t.num < MAX_NUM_TECHNOLOGY
    ensures ListsPeer(Discover(t, d))
  {
    assert Discover(t, d).list[t.num].libType.NfcDep?;
  }

  lemma {:induction false} LastRecordSeesPeer(t: Tag, d: Target, multi: bool)
    requires Bounded(t) && ListsPeer(t) && !MifareAtTen(t, DiscoveryRecord(d, false, false, multi))
    ensures var u := Step(t, DiscoveryRecord(d, false, false, multi));
            u.num == 0 && u.index == 0 && u.selected == t.selected && BlankBeyond(u)
  {
    RecordKeepsPeer(t, d);
  }

  /** Once a peer is in the list, whatever other records follow, the discovery ends with the list blank and no tag
      selected: peer-to-peer has precedence. */
  lemma {:induction false} PeerTakesOver(t: Tag, ds: seq<Target>)
    requires Bounded(t) && ListsPeer(t) && ds != [] && StaysBounded(t, Records(ds))
    ensures var u := After(t, Records(ds)); u.num == 0 && u.index == 0 && u.selected == t.selected && BlankBeyond(u)
    decreases ds
  {
    assert Records(ds)[0] == DiscoveryRecord(ds[0], |ds| > 1, false, false);
    if |ds| == 1 {
      LastRecordSeesPeer(t, ds[0], false);
    } else {
      RecordKeepsPeer(t, ds[0]);
      PeerTakesOver(Step(t, Records(ds)[0]), ds[1..]);
    }
  }

  /** In reader mode peers are no reason to stop, and whatever has been recorded the first activation is reported. */
  lemma {:induction false} ReaderReportsAtOnce(t: Tag, d: Target, multi: bool, a: Target)
    requires Bounded(t) && !MifareAtTen(t, DiscoveryRecord(d, false, true, multi))
    ensures var u := Step(t, DiscoveryRecord(d, false, true, multi));
            && u.list == Discover(t, d).list && u.num == Discover(t, d).num && u.discNtf == 0
            && Bounded(u) && Reports(Activate(u, a))
  {
  }

  /** With the multiprotocol timer no tag is selected yet, and the record counts as outstanding. */
  lemma {:induction false} TimerLeavesTheSelection(t: Tag, d: Target)
    requires Bounded(t) && !MifareAtTen(t, DiscoveryRecord(d, false, false, true)) && !ListsPeer(Discover(t, d))
    ensures var u := Step(t, DiscoveryRecord(d, false, false, true));
            && u.list == Discover(t, d).list && u.num == Discover(t, d).num
            && u.selected == t.selected && u.discNtf == t.discNtf + 1
  {
    assert forall i: nat :: i < Discover(t, d).num ==> !Discover(t, d).list[i].libType.NfcDep?;
  }

  // ---- failures and updates ----

  /** After a failed discovery nothing is outstanding: the next activation is reported. */
  lemma {:induction false} FailedDiscoveryReportsNext(t: Tag, a: Target)
    requires Bounded(t)
    ensures Reports(Activate(Step(t, DiscoveryFailed), a))
  {
  }

  /** After a failed selection the next activation is written to the front of the list. */
  lemma {:induction false} FailedSelectionStartsOver(t: Tag, a: Target)
    requires Bounded(t)
    ensures var u := Activate(Step(t, SelectFailed), a);
            u.num <= MAX_NUM_TECHNOLOGY && u.list[..u.num] == Expansion(a, true) && u.discNtf == t.discNtf
  {
    ActivationAppends(Step(t, SelectFailed), a);
  }

  /** An update writes the tag's technologies where the next activation goes, and leaves the sweep where it is. */
  lemma {:induction false} UpdateRewrites(t: Tag, a: Target)
    requires Bounded(t) && t.index < MAX_NUM_TECHNOLOGY
    ensures var u := Step(t, ActivatedUpdate(a));
            && u.num <= MAX_NUM_TECHNOLOGY && u.list[..u.num] == t.list[..t.index] + Expansion(a, Room(t.index))
            && u.index == t.index && u.discNtf == t.discNtf && u.selected == t.selected && u.discTechs == t.discTechs
  {
    ActivationAppends(t, a);
  }

  // ---- Kovio tags ----

  /** A Kovio tag seen again leaves its parameters in the first entry and changes nothing else. */
  lemma {:induction false} KovioAgainChangesNothingElse(t: Tag, a: Target)
    requires Bounded(t) && a.protocol.Kovio?
    ensures var u := Step(t, Activated(a, true));
            && u.list[0] == t.list[0].(params := a.params) && u.list[1..] == t.list[1..]
            && u.num == t.num && u.index == t.index && u.discNtf == t.discNtf && u.discTechs == t.discTechs
            && u.selected == t.selected
  {
  }

  /** A new one is listed; its parameters are in the first entry as well, even when it is listed further on. */
  lemma {:induction false} NewKovioIsListed(t: Tag, a: Target)
    requires Bounded(t) && a.protocol.Kovio? && t.index < MAX_NUM_TECHNOLOGY
    ensures var u := Step(t, Activated(a, false));
            u.num == t.index + 1 && u.list[t.index] == Plain(a, 10) && u.list[0].params == a.params
  {
  }

  // ---- the end of a sweep ----

  /** While notifications are outstanding the next tag is selected, whether the stack reports sleep or idle. */
  lemma {:induction false} IdleSelectsLikeSleep(t: Tag)
    requires Bounded(t)
    ensures Step(t, DeactivatedIdle).selected == Step(t, DeactivatedSleep).selected
  {
  }

  /** Where the next activation would be written once the sweep has been reported */
  ghost predicate Rewound(p: Poll, n: nat) {
    p.phase == Settled ==> p.t.index == if |p.activations| == n + 1 then 0 else p.t.num
  }

  lemma {:induction false} StepRewinds(p: Poll, a: Target, n: nat)
    requires PollInv(p, n) && p.phase != Settled && !a.protocol.Kovio?
    ensures Rewound(PollStep(p, a), n)
  {
  }

  lemma {:induction false} RunRewinds(p: Poll, run: seq<Target>, q: Poll, n: nat)
    requires PollInv(p, n) && Rewound(p, n) && Runs(p, run, q)
    ensures Rewound(q, n)
    decreases run
  {
    if run == [] {
    } else {
      PollStepKeepsInv(p, run[0], n);
      StepRewinds(p, run[0], n);
      RunRewinds(PollStep(p, run[0]), run[1..], q, n);
    }
  }

  /** Over every sweep: once the tag is reported, the next activation starts a new list exactly if every tag discovered
      has had its turn; after a sweep that found nothing more to select it goes on behind the list reported. */
  lemma {:induction false} NextTagStartsANewList(p: Poll, run: seq<Target>, q: Poll, n: nat)
    requires Bounded(p.t) && Starts(p, n) && Runs(p, run, q) && q.phase == Settled
    ensures q.t.index == if |q.activations| == n + 1 then 0 else q.t.num
  {
    assert p.t.list[..p.t.index] == [];
    RunRewinds(p, run, q, n);
  }
}
