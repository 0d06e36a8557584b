/** The sweep over several tags in the field, from their discovery records on: which of them are ever selected
    and activated.  The search for the next tag starts over each time, in a list that the activations rewrite. */
module TagSweep {
  import opened Options
  import opened NfcTagLists
  import opened TagPolling

  // ---- from the records to the first selection ----

  /** The records of one discovery, the last of them announcing no more */
  function Records(ds: seq<Target>): seq<Event> {
    if ds == [] then [] else [DiscoveryRecord(ds[0], |ds| > 1, false, false)] + Records(ds[1..])
  }

  function After(t: Tag, run: seq<Event>): (r: Tag)
    requires Bounded(t) && StaysBounded(t, run)
    ensures Bounded(r)
    decreases run
  {
    if run == [] then t else After(Step(t, run[0]), run[1..])
  }

  function Empty(): Tag { Tag(seq(MAX_NUM_TECHNOLOGY, _ => BLANK), 0, 0, 0, 0, 0) }

  /** No entry is left beyond those counted. */
  ghost predicate BlankBeyond(t: Tag) { forall i: nat :: t.num <= i < |t.list| ==> t.list[i] == BLANK }

  /** Nothing is in the list; the selected entry and the number of discovered technologies may be left over. */
  ghost predicate Fresh(t: Tag) {
    Bounded(t) && t.num == 0 && t.index == 0 && t.discNtf == 0 && BlankBeyond(t)
  }

  lemma {:induction false} RunsOn(t: Tag, a: seq<Event>, b: seq<Event>)
    requires Bounded(t) && StaysBounded(t, a + b)
    ensures StaysBounded(t, a) && StaysBounded(After(t, a), b) && After(t, a + b) == After(After(t, a), b)
    decreases a
  {
    if a == [] {
      assert a + b == b;
    } else {
      assert (a + b)[1..] == a[1..] + b;
      RunsOn(Step(t, a[0]), a[1..], b);
    }
  }

  /** Whatever has been discovered, activated and put to sleep: once a session ends with a deactivation to idle, the
      list is blank, and nothing is counted. */
  lemma {:induction false} SessionEndsFresh(t: Tag, run: seq<Event>)
    requires Bounded(t) && StaysBounded(t, run + [DeactivatedIdle])
    ensures Fresh(After(t, run + [DeactivatedIdle]))
  {
    RunsOn(t, run, [DeactivatedIdle]);
  }

  /** At least two tags, told apart by their discovery ids, none of them a peer or a Kovio tag; and no Mifare
      record arrives when one entry is left. */
  ghost predicate Sweepable(blank: Tag, ds: seq<Target>) {
    && Fresh(blank) && |ds| >= 2
    && (forall i, j :: 0 <= i < j < |ds| ==> ds[i].id != ds[j].id)
    && (forall d <- ds :: d.id != 0 && !d.protocol.NfcDep? && !d.protocol.Kovio?)
    && NoMifareAtTen(blank, Records(ds))
  }

  /** Where the sweep begins: the records are in the list and the first tag is selected. */
  ghost function Start(blank: Tag, ds: seq<Target>): (p: Poll)
    requires Sweepable(blank, ds)
    ensures Bounded(p.t)
  {
    BoundedExactlyWithoutMifareAtTen(blank, Records(ds));
    Poll(After(blank, Records(ds)), AwaitingActivation, [], [])
  }

  /** How many entries a record fills when there is room */
  function Width(d: Target): nat {
    if d.protocol.Mifare? || (d.protocol.T2T? && d.params.selRsp == 0)
       || (d.protocol.IsoDep? && (IsA(d.params.mode) || IsB(d.params.mode))) then 2 else 1
  }

  ghost predicate NoPeer(t: Tag) { forall i: nat :: i < |t.list| ==> !t.list[i].libType.NfcDep? }

  /** Discovery records alone have come so far. */
  ghost predicate Listing(t: Tag) {
    Bounded(t) && NoPeer(t) && (t.num > 0 ==> t.discTechs == t.num) && t.index == 0
  }

  /** Nothing written before is changed. */
  ghost predicate Extends(t: Tag, u: Tag) {
    t.num <= u.num <= |u.list| == |t.list| && forall i: nat :: i < t.num ==> u.list[i] == t.list[i]
  }

  lemma {:induction false} RecordExtends(t: Tag, d: Target)
    requires Listing(t) && !d.protocol.NfcDep? && !(d.protocol.Mifare? && t.num == MAX_NUM_TECHNOLOGY - 1)
    ensures var v := Discover(t, d); Listing(v) && Extends(t, v) && v.discNtf == t.discNtf && v.num > 0
  {
    var v := Discover(t, d);
    if t.num < MAX_NUM_TECHNOLOGY {
      var before := if Room(t.num) then t.list[t.num + 1] else BLANK;
      NoPeerRecorded(d, Room(t.num), before);
      assert v.list == Written(t.list, t.num, Recorded(d, Room(t.num), before));
    }
    assert v.list[..t.num] == t.list[..t.num];
  }

  lemma {:induction false} NoPeerRecorded(d: Target, room: bool, before: Entry)
    requires !d.protocol.NfcDep? && !before.libType.NfcDep?
    ensures forall e <- Recorded(d, room, before) :: !e.libType.NfcDep?
  {
  }

  /** A record keeps the entries already written; the last one selects the first entry. */
  lemma {:induction false} RecordKeeps(t: Tag, d: Target, more: bool)
    requires Listing(t) && !d.protocol.NfcDep? && !MifareAtTen(t, DiscoveryRecord(d, more, false, false))
    ensures var u := Step(t, DiscoveryRecord(d, more, false, false));
            && Listing(u) && Extends(t, u) && u.discNtf == t.discNtf + (if more then 1 else 0)
            && u.num > 0 && (!more ==> u.selected == 0)
            && u.list == Discover(t, d).list && u.num == Discover(t, d).num
  {
    RecordExtends(t, d);
    var v := Discover(t, d);
    assert FirstTag(v.(discNtf := t.discNtf)) == if v.num > 0 then Some(0) else None;
  }

  /** Where the list is after the first record of ds */
  function Next(t: Tag, ds: seq<Target>): Tag
    requires Bounded(t) && ds != []
  {
    Step(t, DiscoveryRecord(ds[0], |ds| > 1, false, false))
  }

  lemma {:induction false} RecordsAppend(t: Tag, ds: seq<Target>)
    requires Listing(t) && ds != [] && StaysBounded(t, Records(ds))
    requires forall d <- ds :: !d.protocol.NfcDep?
    ensures var u, v := After(t, Records(ds)), Next(t, ds);
            && Listing(u) && Listing(v) && Extends(t, v) && Extends(v, u) && u.discNtf == t.discNtf + |ds| - 1
            && u.num > 0 && u.selected == 0
            && v.list == Discover(t, ds[0]).list && v.num == Discover(t, ds[0]).num
            && StaysBounded(v, Records(ds[1..])) && u == After(v, Records(ds[1..]))
    decreases ds
  {
    var v := Next(t, ds);
    assert v == Step(t, Records(ds)[0]);
    RecordKeeps(t, ds[0], |ds| > 1);
    if |ds| > 1 {
      RecordsAppend(v, ds[1..]);
    }
  }

  /** The front of the list as the records of the first three tags fill it */
  ghost predicate Layout(t: Tag, ds: seq<Target>)
    requires |ds| >= 2
  {
    var a, b := ds[0], ds[1];
    var w, x := Width(a), Width(a) + Width(b);
    && Listing(t) && t.discNtf == |ds| - 1 && t.selected == 0 && t.discTechs == t.num
    && (if |ds| == 2 then t.num == x else t.num > x && t.list[x].handle == ds[2].id)
    && t.list[0].handle == a.id && t.list[w].handle == b.id
    && (w == 2 ==> t.list[1].handle == if a.protocol.Mifare? then 0 else a.id)
    && (x == w + 2 ==> t.list[w + 1].handle == if b.protocol.Mifare? then 0 else b.id)
  }

  /** One of the first three records: what it adds, and nothing beyond */
  ghost predicate Adds(t: Tag, u: Tag, d: Target) {
    && |u.list| == |t.list| == MAX_NUM_TECHNOLOGY && 0 <= t.num <= 4 && u.num == t.num + Width(d)
    && u.list[t.num].handle == d.id
    && (Width(d) == 2 ==> u.list[t.num + 1].handle == if d.protocol.Mifare? then 0 else d.id)
  }

  lemma {:induction false} RecordAdds(t: Tag, d: Target, v: Tag)
    requires Listing(t) && t.num <= 4 && BlankBeyond(t) && v.list == Discover(t, d).list && v.num == Discover(t, d).num
    ensures Adds(t, v, d) && BlankBeyond(v)
  {
  }

  lemma {:induction false} RecordsAdd(t: Tag, ds: seq<Target>)
    requires Listing(t) && ds != [] && StaysBounded(t, Records(ds)) && t.num <= 4 && BlankBeyond(t)
    requires forall d <- ds :: !d.protocol.NfcDep?
    ensures var u, v := After(t, Records(ds)), Next(t, ds);
            && Listing(u) && Listing(v) && Extends(v, u) && u.discNtf == t.discNtf + |ds| - 1 && u.selected == 0
            && Adds(t, v, ds[0]) && BlankBeyond(v)
            && StaysBounded(v, Records(ds[1..])) && u == After(v, Records(ds[1..]))
  {
    RecordsAppend(t, ds);
    RecordAdds(t, ds[0], Next(t, ds));
  }

  /** The first entries come from the first records. */
  lemma {:induction false} LayoutFrom(t0: Tag, t1: Tag, t2: Tag, u: Tag, ds: seq<Target>)
    requires |ds| >= 2 && Listing(u) && u.discNtf == |ds| - 1 && u.selected == 0
    requires t0.num == 0 && Adds(t0, t1, ds[0]) && Adds(t1, t2, ds[1]) && Extends(t1, u) && Extends(t2, u)
    requires |ds| == 2 ==> u == t2
    requires |ds| > 2 ==> exists t3 :: Adds(t2, t3, ds[2]) && Extends(t3, u)
    ensures Layout(u, ds)
  {
  }

  /** The first two records, and the third if there is one, fill the front of the list. */
  lemma {:induction false} FirstRecords(t: Tag, ds: seq<Target>)
    requires Listing(t) && |ds| >= 2 && t.num == 0 && t.discNtf == 0 && BlankBeyond(t) && StaysBounded(t, Records(ds))
    requires forall d <- ds :: !d.protocol.NfcDep?
    ensures Layout(After(t, Records(ds)), ds)
  {
    RecordsAdd(t, ds);
    var t1, rest := Next(t, ds), ds[1..];
    RecordsAdd(t1, rest);
    var t2 := Next(t1, rest);
    if |ds| > 2 {
      RecordsAdd(t2, rest[1..]);
      assert Adds(t2, Next(t2, rest[1..]), ds[2]);
    }
    LayoutFrom(t, t1, t2, After(t, Records(ds)), ds);
  }

  lemma {:induction false} StartLayout(blank: Tag, ds: seq<Target>)
    requires Sweepable(blank, ds)
    ensures Layout(Start(blank, ds).t, ds)
  {
    BoundedExactlyWithoutMifareAtTen(blank, Records(ds));
    FirstRecords(blank, ds);
  }

  // ---- a record too many ----

  function Jewel(id: int): Target { Target(id, T1T, Params(PollA, 0, 0, 0)) }

  function Classic(id: int): Target { Target(id, Mifare, Params(PollA, 8, 4, 0)) }

  /** Type-1 tags, one entry each, and a Mifare tag */
  function Crowd(n: nat): seq<Target> { if n == 0 then [Classic(100)] else [Jewel(n)] + Crowd(n - 1) }

  lemma {:induction false} CrowdFillsUp(t: Tag, n: nat)
    requires Bounded(t) && t.num + n == MAX_NUM_TECHNOLOGY - 1
    ensures !NoMifareAtTen(t, Records(Crowd(n)))
    decreases n
  {
    var e := Records(Crowd(n))[0];
    if n == 0 {
      assert MifareAtTen(t, e);
    } else {
      assert Crowd(n)[1..] == Crowd(n - 1) && |Crowd(n)| > 1;
      assert e == DiscoveryRecord(Jewel(n), true, false, false);
      CrowdFillsUp(Step(t, e), n - 1);
    }
  }

  /** From the empty list: ten type-1 tags and a Mifare tag in the field take the counters out of the arrays. */
  lemma {:induction false} ElevenTagsOverflow()
    ensures !NoMifareAtTen(Empty(), Records(Crowd(10))) && !StaysBounded(Empty(), Records(Crowd(10)))
  {
    CrowdFillsUp(Empty(), 10);
    BoundedExactlyWithoutMifareAtTen(Empty(), Records(Crowd(10)));
  }

  // ---- the sweep ----

  /** The tag that is activated is the one the driver selected: the first time as its record has it, later perhaps with
      another protocol or other parameters, as the driver asks for or the tag answers. */
  ghost predicate Ties(ds: seq<Target>, p: Poll, a: Target) {
    && Bounded(p.t) && p.phase != Settled && !a.protocol.Kovio?
    && (p.phase == AwaitingActivation ==> a.id == p.t.list[p.t.selected].handle && !a.protocol.NfcDep?)
    && (p.activations == [] ==> a in ds)
  }

  ghost predicate TiedRuns(ds: seq<Target>, p: Poll, run: seq<Target>, q: Poll)
    decreases run
  {
    if run == [] then q == p else Ties(ds, p, run[0]) && TiedRuns(ds, PollStep(p, run[0]), run[1..], q)
  }

  /** The first two tags, and no other, are activated, in turn; and so are they selected. */
  ghost predicate TakingTurns(ds: seq<Target>, q: Poll)
    requires |ds| >= 2
  {
    var n := |q.activations|;
    && 0 <= q.t.selected < |q.t.list| && (q.phase != AwaitingActivation ==> n > 0)
    && (forall i: nat :: i < n ==> q.activations[i].id == ds[i % 2].id)
    && q.t.list[q.t.selected].handle == ds[(if q.phase == AwaitingActivation then n else n - 1) % 2].id
  }

  /** The first tag is written with one entry more than its record had, which takes the place of the second
      tag's first. */
  predicate Overwrites(d: Target) { d.protocol.T2T? && d.params.selRsp == 1 }

  /** That was the only one with the second tag's handle, while another is left to be found. */
  predicate Crowded(ds: seq<Target>)
    requires |ds| >= 2
  {
    Overwrites(ds[0]) && (ds[1].protocol.Mifare? || (Width(ds[1]) == 1 && |ds| > 2))
  }

  /** That was all there was of the second tag, and there is no third. */
  predicate Swallowed(ds: seq<Target>)
    requires |ds| >= 2
  {
    Overwrites(ds[0]) && Width(ds[1]) == 1 && |ds| == 2
  }

  /** An activation writes its own entries from mTechListIndex on, as far as there is room. */
  lemma {:induction false} ActivationWrites(t: Tag, a: Target)
    requires Bounded(t) && NoPeer(t) && !a.protocol.NfcDep?
    ensures var u := Activate(t, a);
            && Bounded(u) && NoPeer(u) && t.index <= u.num
            && (forall i: nat :: i < t.index ==> u.list[i] == t.list[i])
            && (forall i: nat :: t.index <= i < u.num ==> u.list[i].handle == a.id)
            && (forall i: nat :: u.num <= i < |u.list| ==> u.list[i] == t.list[i])
            && (t.index < MAX_NUM_TECHNOLOGY ==> u.num == t.index + |Expansion(a, Room(t.index))|)
  {
  }

  /** Entry e is the second tag's first, and only the first tag's are before it. */
  ghost predicate Found(ds: seq<Target>, t: Tag, e: nat)
    requires |ds| >= 2
  {
    && Searchable(t) && NoPeer(t) && 1 <= e < t.discTechs
    && (forall i: nat :: i < e ==> t.list[i].handle == ds[0].id) && t.list[e].handle == ds[1].id
  }

  /** So the search goes from either of the two to the other. */
  lemma {:induction false} SearchFinds(ds: seq<Target>, t: Tag, e: nat)
    requires |ds| >= 2 && Found(ds, t, e) && ds[0].id != ds[1].id
    ensures t.list[t.selected].handle == ds[0].id ==> NextValid(t) == Some(e)
    ensures t.list[t.selected].handle == ds[1].id ==> NextValid(t) == Some(0)
  {
    if t.list[t.selected].handle == ds[0].id {
      assert Selectable(t, e) && forall i: nat :: i < e ==> !Selectable(t, i);
    } else if t.list[t.selected].handle == ds[1].id {
      assert Selectable(t, 0);
    }
  }

  lemma {:induction false} FoundStays(ds: seq<Target>, t: Tag, a: Target, e: nat)
    requires |ds| >= 2 && Bounded(t) && Found(ds, t, e) && e < t.index && !a.protocol.NfcDep?
    ensures Found(ds, Activate(t, a), e)
  {
    ActivationWrites(t, a);
  }

  /** The list after the first activation, when nothing is lost of the second tag */
  ghost predicate SecondIsNext(ds: seq<Target>, t: Tag, j: nat)
    requires |ds| >= 2
  {
    Found(ds, t, j) && |Expansion(ds[0], true)| <= j <= |Expansion(ds[0], true)| + 1
  }

  ghost predicate NothingElse(ds: seq<Target>, t: Tag)
    requires |ds| >= 2
  {
    Searchable(t) && forall i: nat :: i < t.discTechs ==> t.list[i].handle == ds[0].id
  }

  lemma {:induction false} AfterTheFirst(blank: Tag, ds: seq<Target>)
    requires Sweepable(blank, ds)
    ensures var u := Activate(Start(blank, ds).t, ds[0]);
            && Bounded(u) && u.selected == 0 && u.num == |Expansion(ds[0], true)| && u.list[0].handle == ds[0].id
            && (Crowded(ds) ==> u.discTechs > 2 && u.list[1].handle == ds[0].id && u.list[2].libType != NfcDep
                                && u.list[2].handle != ds[0].id && u.list[2].handle != ds[1].id)
            && (Swallowed(ds) ==> NothingElse(ds, u))
  {
    StartLayout(blank, ds);
    ActivationWrites(Start(blank, ds).t, ds[0]);
  }

  lemma {:induction false} SecondRemains(blank: Tag, ds: seq<Target>)
    requires Sweepable(blank, ds) && !Crowded(ds) && !Swallowed(ds)
    ensures exists j: nat :: SecondIsNext(ds, Activate(Start(blank, ds).t, ds[0]), j)
  {
    StartLayout(blank, ds);
    ActivationWrites(Start(blank, ds).t, ds[0]);
    var u := Activate(Start(blank, ds).t, ds[0]);
    assert SecondIsNext(ds, u, if Overwrites(ds[0]) then 2 else Width(ds[0]));
  }

  /** With the first tag activated once: asleep, the second selected, or all done */
  ghost predicate OnceActivated(ds: seq<Target>, p: Poll)
    requires |ds| >= 2
  {
    && Bounded(p.t) && p.activations == [ds[0]] && p.t.list[0].handle == ds[0].id
    && (p.phase != Settled ==> p.t.index == |Expansion(ds[0], true)|)
    && (p.phase != AwaitingActivation ==> p.t.selected == 0)
    && (p.phase == AwaitingSleep ==> p.t.discNtf != 0 && exists j: nat :: SecondIsNext(ds, p.t, j))
    && (p.phase == AwaitingActivation ==> SecondIsNext(ds, p.t, p.t.selected))
  }

  /** Later: what is still to be written comes after the second tag's first entry. */
  ghost predicate Turning(ds: seq<Target>, p: Poll, e: nat)
    requires |ds| >= 2
  {
    && Bounded(p.t) && Found(ds, p.t, e) && TakingTurns(ds, p) && |p.activations| > 1
    && (if p.phase == Settled then |p.activations| == |ds| else e < p.t.index)
    && (p.phase == AwaitingActivation ==> p.t.selected < p.t.index)
  }

  ghost predicate SweepInv(blank: Tag, ds: seq<Target>, p: Poll)
    requires Sweepable(blank, ds)
  {
    || p == Start(blank, ds)
    || (OnceActivated(ds, p) && (p.phase == Settled <==> Swallowed(ds)))
    || (!Swallowed(ds) && exists e :: Turning(ds, p, e))
  }

  lemma {:induction false} TheSelected(blank: Tag, ds: seq<Target>, a: Target, k: nat)
    requires Sweepable(blank, ds) && a in ds && k < |ds| && a.id == ds[k].id
    ensures a == ds[k]
  {
  }

  lemma {:induction false} FirstStep(blank: Tag, ds: seq<Target>, a: Target)
    requires Sweepable(blank, ds) && !Crowded(ds) && Ties(ds, Start(blank, ds), a)
    ensures var q := PollStep(Start(blank, ds), a); OnceActivated(ds, q) && (q.phase == Settled <==> Swallowed(ds))
  {
    StartLayout(blank, ds);
    TheSelected(blank, ds, a, 0);
    AfterTheFirst(blank, ds);
    Activating(Start(blank, ds), a);
    var u, q := Activate(Start(blank, ds).t, a), PollStep(Start(blank, ds), a);
    if Swallowed(ds) {
      assert NextValid(u) == None;
    } else {
      SecondRemains(blank, ds);
      var j: nat :| SecondIsNext(ds, u, j);
      SearchFinds(ds, u, j);
      assert SecondIsNext(ds, q.t, j);
    }
  }

  lemma {:induction false} SecondSelected(blank: Tag, ds: seq<Target>, p: Poll, a: Target)
    requires Sweepable(blank, ds) && OnceActivated(ds, p) && p.phase == AwaitingSleep && !a.protocol.Kovio?
    ensures OnceActivated(ds, PollStep(p, a))
  {
    var j: nat :| SecondIsNext(ds, p.t, j);
    SearchFinds(ds, p.t.(discNtf := p.t.discNtf - 1), j);
  }

  /** The tag activated is the one whose turn it is. */
  lemma {:induction false} TurnTaken(blank: Tag, ds: seq<Target>, p: Poll, a: Target)
    requires Sweepable(blank, ds) && Bounded(p.t) && p.phase == AwaitingActivation
    requires TakingTurns(ds, p) && Ties(ds, p, a)
    requires Activate(p.t, a).list[p.t.selected].handle == a.id
    ensures TakingTurns(ds, PollStep(p, a)) && a.id == ds[|p.activations| % 2].id
  {
    Activating(p, a);
  }

  /** The second activation writes where the first tag's entries end, at or before the entry selected. */
  lemma {:induction false} SecondWrites(ds: seq<Target>, t: Tag, a: Target)
    requires |ds| >= 2 && Bounded(t) && SecondIsNext(ds, t, t.selected) && t.index == |Expansion(ds[0], true)|
    requires a.id == ds[1].id && !a.protocol.NfcDep?
    ensures var u := Activate(t, a);
            && Bounded(u) && Found(ds, u, t.index) && t.index < u.num && u.list[u.selected].handle == ds[1].id
  {
    ActivationWrites(t, a);
  }

  lemma {:induction false} SecondActivated(blank: Tag, ds: seq<Target>, p: Poll, a: Target)
    requires Sweepable(blank, ds) && OnceActivated(ds, p) && p.phase == AwaitingActivation && Ties(ds, p, a)
    requires p.t.discNtf == |ds| - 2
    ensures Turning(ds, PollStep(p, a), |Expansion(ds[0], true)|)
  {
    SecondWrites(ds, p.t, a);
    TurnTaken(blank, ds, p, a);
    Activating(p, a);
    SearchFinds(ds, Activate(p.t, a), |Expansion(ds[0], true)|);
  }

  lemma {:induction false} LaterActivated(blank: Tag, ds: seq<Target>, p: Poll, a: Target, e: nat)
    requires Sweepable(blank, ds) && Turning(ds, p, e) && p.phase == AwaitingActivation && Ties(ds, p, a)
    requires |p.activations| + p.t.discNtf == |ds| - 1
    ensures Turning(ds, PollStep(p, a), e)
  {
    ActivationWrites(p.t, a);
    TurnTaken(blank, ds, p, a);
    FoundStays(ds, p.t, a, e);
    Activating(p, a);
    SearchFinds(ds, Activate(p.t, a), e);
  }

  lemma {:induction false} LaterSelected(blank: Tag, ds: seq<Target>, p: Poll, a: Target, e: nat)
    requires Sweepable(blank, ds) && Turning(ds, p, e)
    requires p.phase == AwaitingSleep && p.t.discNtf != 0 && !a.protocol.Kovio?
    ensures Turning(ds, PollStep(p, a), e)
  {
    SearchFinds(ds, p.t.(discNtf := p.t.discNtf - 1), e);
  }

  lemma {:induction false} StepKeepsSweepInv(blank: Tag, ds: seq<Target>, p: Poll, a: Target)
    requires Sweepable(blank, ds) && !Crowded(ds) && SweepInv(blank, ds, p) && PollInv(p, |ds| - 1)
    requires p.phase != Settled && Ties(ds, p, a)
    ensures SweepInv(blank, ds, PollStep(p, a))
  {
    if p == Start(blank, ds) {
      FirstStep(blank, ds, a);
    } else if OnceActivated(ds, p) {
      if p.phase == AwaitingSleep { SecondSelected(blank, ds, p, a); } else { SecondActivated(blank, ds, p, a); }
    } else {
      var e :| Turning(ds, p, e);
      if p.phase == AwaitingSleep { LaterSelected(blank, ds, p, a, e); } else { LaterActivated(blank, ds, p, a, e); }
    }
  }

  lemma {:induction false} InvTakesTurns(blank: Tag, ds: seq<Target>, p: Poll)
    requires Sweepable(blank, ds) && SweepInv(blank, ds, p)
    ensures TakingTurns(ds, p)
  {
    StartLayout(blank, ds);
  }

  lemma {:induction false} RunKeepsSweepInv(blank: Tag, ds: seq<Target>, p: Poll, run: seq<Target>, q: Poll)
    requires Sweepable(blank, ds) && !Crowded(ds) && SweepInv(blank, ds, p) && PollInv(p, |ds| - 1)
    requires TiedRuns(ds, p, run, q)
    ensures SweepInv(blank, ds, q)
    decreases run
  {
    if run == [] {
    } else {
      StepKeepsSweepInv(blank, ds, p, run[0]);
      PollStepKeepsInv(p, run[0], |ds| - 1);
      RunKeepsSweepInv(blank, ds, PollStep(p, run[0]), run[1..], q);
    }
  }

  lemma {:induction false} StartKeepsInv(blank: Tag, ds: seq<Target>)
    requires Sweepable(blank, ds)
    ensures Starts(Start(blank, ds), |ds| - 1) && PollInv(Start(blank, ds), |ds| - 1)
  {
    StartLayout(blank, ds);
    assert Start(blank, ds).t.list[..0] == [];
  }

  /** The first activation, and the selection after it */
  function FirstTwoSteps(ds: seq<Target>): seq<Target>
    requires ds != []
  {
    [ds[0], ds[0]]
  }

  /** Only the first two tags are activated, and one of them is selected. */
  ghost predicate Stays(ds: seq<Target>, q: Poll)
    requires |ds| >= 2
  {
    && 0 <= q.t.selected < |q.t.list|
    && (q.t.list[q.t.selected].handle == ds[0].id || q.t.list[q.t.selected].handle == ds[1].id)
    && forall a <- q.activations :: a.id == ds[0].id || a.id == ds[1].id
  }

  /** A crowded sweep selects something else as soon as the first tag is asleep. */
  lemma {:induction false} CrowdedSelectsAnother(blank: Tag, ds: seq<Target>) returns (q: Poll)
    requires Sweepable(blank, ds) && Crowded(ds)
    ensures TiedRuns(ds, Start(blank, ds), FirstTwoSteps(ds), q) && !Stays(ds, q)
  {
    StartLayout(blank, ds);
    AfterTheFirst(blank, ds);
    Activating(Start(blank, ds), ds[0]);
    var p, u := PollStep(Start(blank, ds), ds[0]), Activate(Start(blank, ds).t, ds[0]);
    var v := p.t.(discNtf := p.t.discNtf - 1);
    assert Selectable(u, 2) && !Selectable(u, 0) && !Selectable(u, 1);
    SearchIsOfTheList(u, v, 0);
    q := PollStep(p, ds[0]);
    assert q.t == Selecting(v, Some(2));
    assert FirstTwoSteps(ds)[1..] == [ds[0]];
    assert TiedRuns(ds, q, [], q);
    assert TiedRuns(ds, p, [ds[0]], q);
  }

  ghost predicate AlwaysStays(ds: seq<Target>, p: Poll)
    requires |ds| >= 2
  {
    forall run, q :: TiedRuns(ds, p, run, q) ==> Stays(ds, q)
  }

  /** Over every sweep of any number of tags: the search starts over each time, so that the driver never selects
      a third tag, exactly when the first activation does not crowd out the second tag. */
  lemma {:induction false} SelectionStaysExactly(blank: Tag, ds: seq<Target>)
    requires Sweepable(blank, ds)
    ensures AlwaysStays(ds, Start(blank, ds)) <==> !Crowded(ds)
  {
    if Crowded(ds) {
      var q := CrowdedSelectsAnother(blank, ds);
    } else {
      forall run, q | TiedRuns(ds, Start(blank, ds), run, q) ensures Stays(ds, q) {
        SweepTakesTurns(blank, ds, run, q);
      }
    }
  }

  lemma {:induction false} SweepTakesTurns(blank: Tag, ds: seq<Target>, run: seq<Target>, q: Poll)
    requires Sweepable(blank, ds) && !Crowded(ds) && TiedRuns(ds, Start(blank, ds), run, q)
    ensures SweepInv(blank, ds, q) && TakingTurns(ds, q) && Stays(ds, q)
  {
    StartKeepsInv(blank, ds);
    RunKeepsSweepInv(blank, ds, Start(blank, ds), run, q);
    InvTakesTurns(blank, ds, q);
  }

  /** What is then reported: the first tag and the second over and over, one activation for every tag in the
      field whatever those others are; or the first tag alone, if it took the place of the only other. */
  lemma {:induction false} SweepReportsTheFirstTwo(blank: Tag, ds: seq<Target>, run: seq<Target>, q: Poll)
    requires Sweepable(blank, ds) && !Crowded(ds) && TiedRuns(ds, Start(blank, ds), run, q) && q.phase == Settled
    ensures var n := |q.activations|;
            && n == (if Swallowed(ds) then 1 else |ds|)
               && (forall i: nat :: i < n ==> q.activations[i].id == ds[i % 2].id)
            && (|Technologies(q.activations)| <= MAX_NUM_TECHNOLOGY ==> q.reports == [Technologies(q.activations)])
  {
    SweepTakesTurns(blank, ds, run, q);
    StartKeepsInv(blank, ds);
    TiedRunsAreRuns(ds, Start(blank, ds), run, q);
    EverySweepReportsOnce(Start(blank, ds), run, q, |ds| - 1);
  }

  lemma {:induction false} TiedRunsAreRuns(ds: seq<Target>, p: Poll, run: seq<Target>, q: Poll)
    requires TiedRuns(ds, p, run, q)
    ensures Runs(p, run, q)
    decreases run
  {
    if run == [] {
    } else {
      TiedRunsAreRuns(ds, PollStep(p, run[0]), run[1..], q);
    }
  }

  // ---- session after session ----

  /** Where records lead depends on what is counted, not on what else is left over. */
  lemma {:induction false} SameCountSameRecords(t: Tag, u: Tag, ds: seq<Target>)
    requires Bounded(t) && Bounded(u) && t.num == u.num && forall d <- ds :: !d.protocol.NfcDep?
    ensures NoMifareAtTen(t, Records(ds)) <==> NoMifareAtTen(u, Records(ds))
    decreases ds
  {
    if |ds| > 1 && !MifareAtTen(t, Records(ds)[0]) {
      SameCountSameRecords(Step(t, Records(ds)[0]), Step(u, Records(ds)[0]), ds[1..]);
    }
  }

  /** After any session that has ended with a deactivation to idle, whatever it has left of the selection and of the
      number of technologies, the next discovery of the same tags goes as the first one would: only the first two are
      ever selected, exactly if the first activation does not crowd out the second. */
  lemma {:induction false} EverySessionSweepsAlike(run: seq<Event>, ds: seq<Target>)
    requires StaysBounded(Empty(), run + [DeactivatedIdle]) && Sweepable(Empty(), ds)
    ensures var t := After(Empty(), run + [DeactivatedIdle]);
            Sweepable(t, ds) && (AlwaysStays(ds, Start(t, ds)) <==> !Crowded(ds))
  {
    var t := After(Empty(), run + [DeactivatedIdle]);
    SessionEndsFresh(Empty(), run);
    SameCountSameRecords(Empty(), t, ds);
    SelectionStaysExactly(t, ds);
  }
}
