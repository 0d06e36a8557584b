/** The technology list given to the NFC service for a set of discovered devices: each technology once, with the
    handle and type of the device it was first found on, counting from the last device to the first. */
module TechnologyTree {
  import opened TargetTypes

  const MAX_NUM_TECHNOLOGIES := 32

  /** Remote device types of libnfc */
  datatype DevType =
    | Iso14443A | Iso14443_4A | Iso14443_4B | Iso14443_3A | Iso14443B | Iso15693 | Mifare | Felica | Jewel
    | OtherDevice(code: int)

  datatype Device = Device(devType: DevType, handle: int, sak: int)

  datatype Entry = Entry(tech: int, handle: int, devType: DevType)

  /** The technologies of one device, in the order they are added */
  function Expansion(d: Device): (techs: seq<int>) {
    match d.devType
    case Iso14443A => [TARGET_TYPE_ISO14443_4]
    case Iso14443_4A => [TARGET_TYPE_ISO14443_4]
    case Iso14443_4B => [TARGET_TYPE_ISO14443_4, TARGET_TYPE_ISO14443_3B]
    case Iso14443_3A => [TARGET_TYPE_ISO14443_3A]
    case Iso14443B => [TARGET_TYPE_ISO14443_4, TARGET_TYPE_ISO14443_3B]
    case Iso15693 => [TARGET_TYPE_ISO15693]
    case Mifare => [if d.sak == 0 then TARGET_TYPE_MIFARE_UL else TARGET_TYPE_MIFARE_CLASSIC]
    case Felica => [TARGET_TYPE_FELICA]
    case Jewel => [TARGET_TYPE_ISO14443_3A]
    case OtherDevice(_) => [TARGET_TYPE_UNKNOWN]
  }

  /** The devices that offer a technology, by its number */
  predicate Offers(d: Device, tech: int) {
    var k := d.devType;
    || (tech == 1 && (k.Iso14443_3A? || k.Jewel?))
    || (tech == 2 && (k.Iso14443B? || k.Iso14443_4B?))
    || (tech == 3 && (k.Iso14443A? || k.Iso14443_4A? || k.Iso14443B? || k.Iso14443_4B?))
    || (tech == 4 && k.Felica?)
    || (tech == 5 && k.Iso15693?)
    || (tech == 8 && k.Mifare? && d.sak != 0)
    || (tech == 9 && k.Mifare? && d.sak == 0)
    || (tech == -1 && k.OtherDevice?)
  }

  lemma {:induction false} ExpansionIsWhatIsOffered(d: Device, tech: int)
    ensures tech in Expansion(d) <==> Offers(d, tech)
  {
  }

  /** All that could be added for the devices, from the last to the first */
  function Candidates(devs: seq<Device>): seq<Entry> {
    if devs == [] then [] else Offered(devs[|devs| - 1]) + Candidates(devs[..|devs| - 1])
  }

  function Offered(d: Device): seq<Entry> {
    seq(|Expansion(d)|, i requires 0 <= i < |Expansion(d)| => Entry(Expansion(d)[i], d.handle, d.devType))
  }

  predicate Has(list: seq<Entry>, tech: int) { exists e :: e in list && e.tech == tech }

  /** The first entry for each technology */
  function FirstOfEach(list: seq<Entry>): seq<Entry> {
    if list == [] then []
    else
      var before, last := FirstOfEach(list[..|list| - 1]), list[|list| - 1];
      if Has(list[..|list| - 1], last.tech) then before else before + [last]
  }

  predicate NoRepeats(list: seq<Entry>) { forall i, j :: 0 <= i < j < |list| ==> list[i].tech != list[j].tech }

  /** addTechIfNeeded, on a list */
  function Add(list: seq<Entry>, e: Entry): seq<Entry> { if Has(list, e.tech) then list else list + [e] }

  function AddAll(list: seq<Entry>, es: seq<Entry>): seq<Entry>
    decreases es
  {
    if es == [] then list else AddAll(Add(list, es[0]), es[1..])
  }

  // ---- what the list is ----

  lemma {:induction false} FirstOfEachHasTheSame(list: seq<Entry>, tech: int)
    ensures Has(FirstOfEach(list), tech) <==> Has(list, tech)
    decreases |list|
  {
    if list == [] {
    } else {
      var front, last := list[..|list| - 1], list[|list| - 1];
      FirstOfEachHasTheSame(front, tech);
      assert list == front + [last];
      assert Has(list, tech) <==> Has(front, tech) || last.tech == tech;
      var before := FirstOfEach(front);
      assert Has(before + [last], tech) <==> Has(before, tech) || last.tech == tech by {
        if last.tech == tech { assert last in before + [last]; }
        if Has(before, tech) {
          var e :| e in before && e.tech == tech;
          assert e in before + [last];
        }
      }
    }
  }

  lemma {:induction false} AddMatchesFirstOfEach(list: seq<Entry>, e: Entry)
    ensures FirstOfEach(list + [e]) == Add(FirstOfEach(list), e)
  {
    assert (list + [e])[..|list|] == list;
    FirstOfEachHasTheSame(list, e.tech);
  }

  lemma {:induction false} AddAllMatchesFirstOfEach(list: seq<Entry>, es: seq<Entry>)
    ensures FirstOfEach(list + es) == AddAll(FirstOfEach(list), es)
    decreases |es|
  {
    if es == [] {
      assert list + es == list;
    } else {
      assert (list + [es[0]]) + es[1..] == list + es;
      AddMatchesFirstOfEach(list, es[0]);
      AddAllMatchesFirstOfEach(list + [es[0]], es[1..]);
      assert AddAll(FirstOfEach(list), es) == AddAll(Add(FirstOfEach(list), es[0]), es[1..]);
    }
  }

  /** No technology appears twice, every technology offered appears, and each entry is the first offered for its
      technology. */
  lemma {:induction false} FirstOfEachIsFirst(list: seq<Entry>)
    ensures NoRepeats(FirstOfEach(list))
    ensures forall tech :: Has(FirstOfEach(list), tech) <==> Has(list, tech)
    ensures forall e <- FirstOfEach(list) ::
              exists i :: 0 <= i < |list| && list[i] == e && forall j :: 0 <= j < i ==> list[j].tech != e.tech
    decreases |list|
  {
    forall tech ensures Has(FirstOfEach(list), tech) <==> Has(list, tech) { FirstOfEachHasTheSame(list, tech); }
    if list == [] {
    } else {
      var front, last := list[..|list| - 1], list[|list| - 1];
      FirstOfEachIsFirst(front);
      forall e | e in FirstOfEach(front)
        ensures exists i :: 0 <= i < |list| && list[i] == e && forall j :: 0 <= j < i ==> list[j].tech != e.tech
      {
        var i :| 0 <= i < |front| && front[i] == e && forall j :: 0 <= j < i ==> front[j].tech != e.tech;
        assert list[i] == e;
        assert forall j :: 0 <= j < i ==> list[j].tech == front[j].tech;
      }
      if !Has(front, last.tech) {
        NewTechIsFirst(list);
        AppendedHasNoRepeats(FirstOfEach(front), last);
      }
    }
  }

  lemma {:induction false} NewTechIsFirst(list: seq<Entry>)
    requires list != [] && !Has(list[..|list| - 1], list[|list| - 1].tech)
    ensures exists i ::
              0 <= i < |list| && list[i] == list[|list| - 1] && forall j :: 0 <= j < i ==>
                  list[j].tech != list[|list| - 1].tech
  {
    var n := |list| - 1;
    forall j | 0 <= j < n ensures list[j].tech != list[n].tech {
      assert list[j] in list[..n];
    }
    assert list[n] == list[|list| - 1];
  }

  lemma {:induction false} AppendedHasNoRepeats(list: seq<Entry>, e: Entry)
    requires NoRepeats(list) && !Has(list, e.tech)
    ensures NoRepeats(list + [e])
  {
    forall i | 0 <= i < |list| ensures list[i].tech != e.tech {
      assert list[i] in list;
    }
  }

  lemma {:induction false} CandidateOfSome(devs: seq<Device>, tech: int)
    ensures Has(Candidates(devs), tech) <==> exists d <- devs :: Offers(d, tech)
    decreases |devs|
  {
    if devs == [] {
    } else {
      var front, last := devs[..|devs| - 1], devs[|devs| - 1];
      CandidateOfSome(front, tech);
      assert devs == front + [last];
      ExpansionIsWhatIsOffered(last, tech);
      if tech in Expansion(last) {
        var i :| 0 <= i < |Expansion(last)| && Expansion(last)[i] == tech;
        assert Offered(last)[i].tech == tech && Offered(last)[i] in Candidates(devs);
      }
      if Has(Candidates(front), tech) {
        var e :| e in Candidates(front) && e.tech == tech;
        assert e in Candidates(devs);
      }
      if Has(Candidates(devs), tech) && !Has(Candidates(front), tech) {
        var e :| e in Candidates(devs) && e.tech == tech;
        assert e in Offered(last);
      }
    }
  }

  /** A technology is in the list exactly if one of the devices offers it. */
  lemma {:induction false} ListedExactlyIfOffered(devs: seq<Device>, tech: int)
    ensures Has(FirstOfEach(Candidates(devs)), tech) <==> exists d <- devs :: Offers(d, tech)
  {
    FirstOfEachHasTheSame(Candidates(devs), tech);
    CandidateOfSome(devs, tech);
  }

  lemma {:induction false} OfferedIsOffered(d: Device, e: Entry)
    requires e in Offered(d)
    ensures e.handle == d.handle && e.devType == d.devType && Offers(d, e.tech)
  {
    var i :| 0 <= i < |Offered(d)| && Offered(d)[i] == e;
    ExpansionIsWhatIsOffered(d, e.tech);
  }

  lemma {:induction false} NotAmongOffered(d: Device, tech: int)
    requires forall j :: 0 <= j < |Offered(d)| ==> Offered(d)[j].tech != tech
    ensures !Offers(d, tech)
  {
    ExpansionIsWhatIsOffered(d, tech);
    assert forall j :: 0 <= j < |Offered(d)| ==> Offered(d)[j].tech == Expansion(d)[j];
  }

  /** The entry comes from the i-th device, and none after it offers the technology. */
  ghost predicate OfLastOffering(devs: seq<Device>, e: Entry, i: nat) {
    && i < |devs| && e.handle == devs[i].handle && e.devType == devs[i].devType && Offers(devs[i], e.tech)
    && forall j :: i < j < |devs| ==> !Offers(devs[j], e.tech)
  }

  ghost predicate FirstAt(list: seq<Entry>, i: nat) {
    i < |list| && forall j :: 0 <= j < i ==> list[j].tech != list[i].tech
  }

  lemma {:induction false} FirstInSecond(a: seq<Entry>, b: seq<Entry>, i: nat)
    requires FirstAt(a + b, i) && i >= |a|
    ensures FirstAt(b, i - |a|) && b[i - |a|] == (a + b)[i]
    ensures forall j :: 0 <= j < |a| ==> a[j].tech != b[i - |a|].tech
  {
    assert forall j :: 0 <= j < |b| ==> b[j] == (a + b)[|a| + j];
    assert forall j :: 0 <= j < |a| ==> a[j] == (a + b)[j];
  }

  lemma {:induction false} StillLastOffering(front: seq<Device>, last: Device, e: Entry, k: nat)
    requires OfLastOffering(front, e, k) && !Offers(last, e.tech)
    ensures OfLastOffering(front + [last], e, k)
  {
  }

  /** The first candidate for a technology is of the last device that offers it. */
  lemma {:induction false} FirstCandidate(devs: seq<Device>, i: nat) returns (k: nat)
    requires FirstAt(Candidates(devs), i)
    ensures OfLastOffering(devs, Candidates(devs)[i], k)
    decreases |devs|
  {
    var front, last, e := devs[..|devs| - 1], devs[|devs| - 1], Candidates(devs)[i];
    if i < |Offered(last)| {
      OfferedIsOffered(last, e);
      k := |devs| - 1;
    } else {
      FirstInSecond(Offered(last), Candidates(front), i);
      k := FirstCandidate(front, i - |Offered(last)|);
      NotAmongOffered(last, e.tech);
      StillLastOffering(front, last, e, k);
      assert front + [last] == devs;
    }
  }

  /** Each entry has the handle and the type of the last device that offers its technology. */
  lemma {:induction false} EntriesAreOfTheLastOffering(devs: seq<Device>, e: Entry)
    requires e in FirstOfEach(Candidates(devs))
    ensures exists i :: OfLastOffering(devs, e, i)
  {
    FirstOfEachIsFirst(Candidates(devs));
    var i :| 0 <= i < |Candidates(devs)| && Candidates(devs)[i] == e
             && forall j :: 0 <= j < i ==> Candidates(devs)[j].tech != e.tech;
    var k := FirstCandidate(devs, i);
  }

  // ---- how long it can be ----

  const TECHNOLOGIES: set<int> :=
    {TARGET_TYPE_UNKNOWN, TARGET_TYPE_ISO14443_3A, TARGET_TYPE_ISO14443_3B, TARGET_TYPE_ISO14443_4, TARGET_TYPE_FELICA,
     TARGET_TYPE_ISO15693, TARGET_TYPE_MIFARE_CLASSIC, TARGET_TYPE_MIFARE_UL}

  lemma {:induction false} DistinctFit(list: seq<Entry>, among: set<int>)
    requires NoRepeats(list) && forall e <- list :: e.tech in among
    ensures |list| <= |among|
    decreases |list|
  {
    if list == [] {
    } else {
      var last := list[|list| - 1];
      DistinctFit(list[..|list| - 1], among - {last.tech});
      assert |among - {last.tech}| < |among| by {
        assert last in list;
        assert among == among - {last.tech} + {last.tech};
      }
    }
  }

  lemma {:induction false} CandidatesAreKnown(devs: seq<Device>)
    ensures forall e <- Candidates(devs) :: e.tech in TECHNOLOGIES
    decreases |devs|
  {
    if devs == [] {
    } else {
      CandidatesAreKnown(devs[..|devs| - 1]);
    }
  }

  /** Whatever the devices, the list has at most eight entries, so the 32 reserved for it are enough. */
  lemma {:induction false} AtMostEight(devs: seq<Device>)
    ensures |FirstOfEach(Candidates(devs))| <= 8
  {
    var list := FirstOfEach(Candidates(devs));
    FirstOfEachIsFirst(Candidates(devs));
    CandidatesAreKnown(devs);
    forall e | e in list ensures e.tech in TECHNOLOGIES {
      assert Has(list, e.tech);
      var f :| f in Candidates(devs) && f.tech == e.tech;
    }
    DistinctFit(list, TECHNOLOGIES);
    assert |TECHNOLOGIES| <= 8;
  }

  // ---- the loops ----

  function Rows(techs: array<int>, handles: array<int>, types: array<DevType>, n: nat): (rows: seq<Entry>)
    requires n <= techs.Length && n <= handles.Length && n <= types.Length
    reads techs, handles, types
    ensures |rows| == n && forall i :: 0 <= i < n ==> rows[i] == Entry(techs[i], handles[i], types[i])
  {
    if n == 0 then [] else Rows(techs, handles, types, n - 1) + [Entry(techs[n - 1], handles[n - 1], types[n - 1])]
  }

  method AddTechIfNeeded(techs: array<int>, handles: array<int>, types: array<DevType>, listSize: nat, e: Entry)
    returns (size: nat)
    requires techs != handles && techs.Length == handles.Length == types.Length && listSize <= techs.Length
    modifies techs, handles, types
    ensures size <= techs.Length
    ensures Rows(techs, handles, types, size) ==
              if Has(old(Rows(techs, handles, types, listSize)), e.tech) || listSize == techs.Length
              then old(Rows(techs, handles, types, listSize))
              else old(Rows(techs, handles, types, listSize)) + [e]
  {
    ghost var before := Rows(techs, handles, types, listSize);
    var found := false;
    for i := 0 to listSize
      invariant !found
      invariant forall j :: 0 <= j < i ==> before[j].tech != e.tech
    {
      if techs[i] == e.tech {
        assert before[i] in before;
        found := true;
        break;
      }
    }
    if !found && listSize < techs.Length {
      techs[listSize] := e.tech;
      handles[listSize] := e.handle;
      types[listSize] := e.devType;
      assert Rows(techs, handles, types, listSize) == before;
      return listSize + 1;
    }
    return listSize;
  }

  /** Room for eight: a list that stays within them is never cut. */
  lemma {:induction false} PrefixIsShorter(list: seq<Entry>, es: seq<Entry>)
    ensures |list| <= |AddAll(list, es)|
    decreases |es|
  {
    if es == [] {
    } else {
      PrefixIsShorter(Add(list, es[0]), es[1..]);
    }
  }

  method AddDevice(techs: array<int>, handles: array<int>, types: array<DevType>, listSize: nat, d: Device)
    returns (size: nat)
    requires techs != handles && techs.Length == handles.Length == types.Length && listSize <= techs.Length
    requires |AddAll(Rows(techs, handles, types, listSize), Offered(d))| <= techs.Length
    modifies techs, handles, types
    ensures size <= techs.Length
    ensures Rows(techs, handles, types, size) == AddAll(old(Rows(techs, handles, types, listSize)), Offered(d))
  {
    var list := Expansion(d);
    size := listSize;
    ghost var before := Rows(techs, handles, types, listSize);
    for i := 0 to |list|
      invariant size <= techs.Length
      invariant AddAll(before, Offered(d)) == AddAll(Rows(techs, handles, types, size), Offered(d)[i..])
    {
      var e := Entry(list[i], d.handle, d.devType);
      ghost var rows := Rows(techs, handles, types, size);
      assert Offered(d)[i..][0] == e && Offered(d)[i..][1..] == Offered(d)[i + 1..];
      PrefixIsShorter(Add(rows, e), Offered(d)[i + 1..]);
      size := AddTechIfNeeded(techs, handles, types, size, e);
    }
  }

  lemma {:induction false} CandidatesOfMore(d: Device, rest: seq<Device>)
    ensures Candidates([d] + rest) == Candidates(rest) + Offered(d)
    decreases |rest|
  {
    var all := [d] + rest;
    if rest == [] {
      assert all == [d] && all[..0] == [];
    } else {
      var front, last := rest[..|rest| - 1], rest[|rest| - 1];
      assert all[|all| - 1] == last && all[..|all| - 1] == [d] + front;
      CandidatesOfMore(d, front);
      assert Offered(last) + (Candidates(front) + Offered(d)) == (Offered(last) + Candidates(front)) + Offered(d);
    }
  }

  lemma {:induction false} CandidatesGrow(devs: seq<Device>, t: nat)
    requires t < |devs|
    ensures Candidates(devs[t..]) == Candidates(devs[t + 1..]) + Offered(devs[t])
  {
    assert devs[t..] == [devs[t]] + devs[t + 1..];
    CandidatesOfMore(devs[t], devs[t + 1..]);
  }

  /** nfc_jni_get_technology_tree: the list is the first of each technology, in the order the devices offer them
      from the last to the first, each with its device's handle and type. */
  method GetTechnologyTree(devs: seq<Device>) returns (technologies: seq<int>, handles: seq<int>, types: seq<DevType>)
    ensures var list := FirstOfEach(Candidates(devs));
            && |technologies| == |handles| == |types| == |list|
            && forall i :: 0 <= i < |list| ==> list[i] == Entry(technologies[i], handles[i], types[i])
  {
    var techArray := new int[MAX_NUM_TECHNOLOGIES];
    var handleArray := new int[MAX_NUM_TECHNOLOGIES];
    var typeArray := new DevType[MAX_NUM_TECHNOLOGIES](_ => OtherDevice(0));
    var index: nat := 0;
    var target: nat := |devs|;
    assert devs[target..] == [];
    while target > 0
      invariant target <= |devs| && index <= MAX_NUM_TECHNOLOGIES
      invariant Rows(techArray, handleArray, typeArray, index) == FirstOfEach(Candidates(devs[target..]))
    {
      target := target - 1;
      CandidatesGrow(devs, target);
      AddAllMatchesFirstOfEach(Candidates(devs[target + 1..]), Offered(devs[target]));
      AtMostEight(devs[target..]);
      index := AddDevice(techArray, handleArray, typeArray, index, devs[target]);
    }
    assert devs[0..] == devs;
    technologies, handles, types := techArray[..index], handleArray[..index], typeArray[..index];
  }
}
