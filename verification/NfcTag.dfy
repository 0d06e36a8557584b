/** NfcTag's technology list: four parallel arrays of eleven entries, filled by discovery records and by
    activations, and the search for the next tag to select.  Specified first as functions of a Tag value, then
    as the class that does it in place.  NFC_NXP_NOT_OPEN_INCLUDED is TRUE; non-standard cards are off. */
module NfcTagLists {
  import opened Options
  import opened TargetTypes

  const MAX_NUM_TECHNOLOGY := 11

  datatype Protocol =
    | NoProtocol | T1T | T2T | T3T | IsoDep | NfcDep | Iso15693 | Kovio | Mifare | T3BT | OtherProtocol(code: int)

  datatype Mode =
    | PollA | PollAActive | PollB | PollBPrime | PollOther(code: int)
    | ListenA | ListenAActive | ListenB | ListenBPrime | ListenOther(code: int)

  predicate IsA(m: Mode) { m.PollA? || m.PollAActive? || m.ListenA? || m.ListenAActive? }

  predicate IsB(m: Mode) { m.PollB? || m.PollBPrime? || m.ListenB? || m.ListenBPrime? }

  /** The stack's technology parameters; `rest` stands for all that is saved and not looked at here. */
  datatype Params = Params(mode: Mode, selRsp: int, nfcid0: int, rest: int)

  /** A discovery record, and the part of an activation that is the same */
  datatype Target = Target(id: int, protocol: Protocol, params: Params)

  datatype Entry = Entry(tech: int, handle: int, libType: Protocol, params: Params)

  const BLANK := Entry(0, 0, NoProtocol, Params(PollA, 0, 0, 0))

  datatype Tag = Tag(list: seq<Entry>, num: int, index: int, discNtf: int, discTechs: int, selected: int)

  function Plain(t: Target, tech: int): Entry { Entry(tech, t.id, t.protocol, t.params) }

  /** What an activation adds to the list; its second entry only when there is room for one. */
  function Expansion(t: Target, room: bool): (e: seq<Entry>)
    ensures 1 <= |e| <= 2
    ensures !room ==> |e| == 1
    ensures forall x <- e :: x.handle == t.id
  {
    match t.protocol
    case T1T => [Plain(t, TARGET_TYPE_ISO14443_3A)]
    case T2T =>
      if t.params.selRsp == 0 && t.params.nfcid0 == 4 && room then
        [Plain(t, TARGET_TYPE_ISO14443_3A), Plain(t, TARGET_TYPE_MIFARE_UL)]
      else if t.params.selRsp == 1 then
        // the Skylander workaround
        [Entry(TARGET_TYPE_ISO14443_3A, t.id, Mifare, t.params)]
        + (if room then [Entry(TARGET_TYPE_MIFARE_CLASSIC, t.id, Mifare, t.params.(selRsp := 8))] else [])
      else [Plain(t, TARGET_TYPE_ISO14443_3A)]
    case T3T => [Plain(t, TARGET_TYPE_FELICA)]
    case IsoDep =>
      [Plain(t, TARGET_TYPE_ISO14443_4)]
      + (if IsA(t.params.mode) && room then [Plain(t, TARGET_TYPE_ISO14443_3A)]
         else if IsB(t.params.mode) && room then [Plain(t, TARGET_TYPE_ISO14443_3B)]
         else [])
    case Iso15693 => [Plain(t, TARGET_TYPE_ISO15693)]
    case Kovio => [Plain(t, TARGET_TYPE_KOVIO_BARCODE)]
    case Mifare =>
      [Plain(t, TARGET_TYPE_ISO14443_3A)] + (if room then [Plain(t, TARGET_TYPE_MIFARE_CLASSIC)] else [])
    case T3BT => [Plain(t, TARGET_TYPE_ISO14443_3B)]
    case _ => [Plain(t, TARGET_TYPE_UNKNOWN)]
  }

  /** What a discovery record writes at index i.  A Mifare record names a second technology and leaves the
      handle, type and parameters that were there before beside it. */
  function Recorded(t: Target, room: bool, before: Entry): (e: seq<Entry>)
    ensures 1 <= |e| <= 2
    ensures !room ==> |e| == 1
  {
    match t.protocol
    case T1T => [Plain(t, TARGET_TYPE_ISO14443_3A)]
    case T2T =>
      [Plain(t, TARGET_TYPE_ISO14443_3A)]
      + (if t.params.selRsp == 0 && room then [Plain(t, TARGET_TYPE_MIFARE_UL)] else [])
    case T3T => [Plain(t, TARGET_TYPE_FELICA)]
    case IsoDep =>
      [Plain(t, TARGET_TYPE_ISO14443_4)]
      + (if IsA(t.params.mode) && room then [Plain(t, TARGET_TYPE_ISO14443_3A)]
         else if IsB(t.params.mode) && room then [Plain(t, TARGET_TYPE_ISO14443_3B)]
         else [])
    case Iso15693 => [Plain(t, TARGET_TYPE_ISO15693)]
    case Mifare =>
      [Plain(t, TARGET_TYPE_MIFARE_CLASSIC)] + (if room then [before.(tech := TARGET_TYPE_ISO14443_3A)] else [])
    case _ => [Plain(t, TARGET_TYPE_UNKNOWN)]
  }

  // ---- which technology is named for what ----

  /** What is left out when there is no room is the second entry. */
  lemma {:induction false} FirstEntryNeedsNoRoom(t: Target, before: Entry)
    ensures Expansion(t, false) == [Expansion(t, true)[0]]
    ensures Recorded(t, false, before) == [Recorded(t, true, before)[0]]
  {
  }

  predicate Names(es: seq<Entry>, tech: int) { exists e :: e in es && e.tech == tech }

  /** ISO-DEP over one of the two kinds of field */
  predicate DepOver(t: Target, a: bool) { t.protocol.IsoDep? && if a then IsA(t.params.mode) else IsB(t.params.mode) }

  /** What an activation is listed under, technology by technology; `room` for a second one */
  predicate Listed(t: Target, room: bool, tech: int) {
    || (tech == 1 && (t.protocol.T1T? || t.protocol.T2T? || t.protocol.Mifare? || (room && DepOver(t, true))))
    || (tech == 2 && (t.protocol.T3BT? || (room && DepOver(t, false) && !DepOver(t, true))))
    || (tech == 3 && t.protocol.IsoDep?)
    || (tech == 4 && t.protocol.T3T?)
    || (tech == 5 && t.protocol.Iso15693?)
    || (tech == 8 && room && (t.protocol.Mifare? || (t.protocol.T2T? && t.params.selRsp == 1)))
    || (tech == 9 && room && t.protocol.T2T? && t.params.selRsp == 0 && t.params.nfcid0 == 4)
    || (tech == 10 && t.protocol.Kovio?)
    || (tech == -1 && (t.protocol.NoProtocol? || t.protocol.NfcDep? || t.protocol.OtherProtocol?))
  }

  lemma {:induction false} NamesOneOrTwo(es: seq<Entry>, tech: int)
    requires 1 <= |es| <= 2
    ensures Names(es, tech) <==> es[0].tech == tech || (|es| == 2 && es[1].tech == tech)
  {
    assert es[0] in es && (|es| == 2 ==> es[1] in es);
  }

  /** An activation is listed under exactly the technologies its tag answers to, each with the tag's handle, and with
      its own protocol and parameters but for the Skylander workaround. */
  lemma {:induction false} ActivationIsListedUnder(t: Target, room: bool, tech: int)
    ensures Names(Expansion(t, room), tech) <==> Listed(t, room, tech)
    ensures !(t.protocol.T2T? && t.params.selRsp == 1) ==>
              forall e <- Expansion(t, room) :: e == Plain(t, e.tech)
    ensures t.protocol.T2T? && t.params.selRsp == 1 ==>
              forall e <- Expansion(t, room) ::
                e == Entry(e.tech, t.id, Mifare, if e.tech == 8 then t.params.(selRsp := 8) else t.params)
  {
    NamesOneOrTwo(Expansion(t, room), tech);
  }

  /** A discovery record is listed alike, but for four protocols: it knows no Kovio and no T3BT tag, takes every
      type-2 tag with SAK 0 for an Ultralight one, and has no workaround; and a Mifare record keeps beside it what was
      there. */
  lemma {:induction false} RecordIsListedUnder(t: Target, room: bool, before: Entry, tech: int)
    ensures Names(Recorded(t, room, before), tech) <==>
              if t.protocol.Kovio? || t.protocol.T3BT? then tech == -1
              else if t.protocol.T2T? then tech == 1 || (tech == 9 && room && t.params.selRsp == 0)
              else if t.protocol.Mifare? then tech == 8 || (tech == 1 && room)
              else Listed(t, room, tech)
    ensures forall e <- Recorded(t, room, before) ::
              e == Plain(t, e.tech) || (t.protocol.Mifare? && e == before.(tech := 1))
  {
    NamesOneOrTwo(Recorded(t, room, before), tech);
  }

  function Room(i: int): bool { i < MAX_NUM_TECHNOLOGY - 1 }

  function Written(list: seq<Entry>, i: nat, e: seq<Entry>): (r: seq<Entry>)
    requires i + |e| <= |list|
    ensures |r| == |list|
  {
    list[..i] + e + list[i + |e|..]
  }

  lemma {:induction false} WrittenOneOrTwo(list: seq<Entry>, i: nat, e: seq<Entry>)
    requires 1 <= |e| <= 2 && i + |e| <= |list|
    ensures Written(list, i, e) == if |e| == 1 then list[i := e[0]] else list[i := e[0]][i + 1 := e[1]]
  {
  }

  ghost predicate Fits(t: Tag) {
    |t.list| == MAX_NUM_TECHNOLOGY && 0 <= t.index <= MAX_NUM_TECHNOLOGY && 0 <= t.num
  }

  /** discoverTechnologies for an activation */
  function Activate(t: Tag, a: Target): Tag
    requires Fits(t)
  {
    if t.index >= MAX_NUM_TECHNOLOGY then t.(num := t.index)
    else
      var e := Expansion(a, Room(t.index));
      t.(list := Written(t.list, t.index, e), num := t.index + |e|)
  }

  /** discoverTechnologies for a discovery record.  A Mifare record counts two technologies whether or not
      there was room for the second. */
  function Discover(t: Tag, d: Target): Tag
    requires Fits(t)
  {
    if t.num >= MAX_NUM_TECHNOLOGY then t
    else
      var e := Recorded(d, Room(t.num), if Room(t.num) then t.list[t.num + 1] else BLANK);
      var n := if d.protocol.Mifare? then t.num + 2 else t.num + |e|;
      t.(list := Written(t.list, t.num, e), num := n, discTechs := n)
  }

  function Reset(t: Tag): Tag { t.(list := seq(MAX_NUM_TECHNOLOGY, _ => BLANK), num := 0, index := 0) }

  /** Another tag than the selected one, reachable through a frame or ISO-DEP interface */
  predicate Selectable(t: Tag, i: int)
    requires 0 <= t.selected < |t.list| && 0 <= i < |t.list|
  {
    t.list[t.selected].handle != t.list[i].handle && t.list[i].libType != NfcDep
  }

  ghost predicate Searchable(t: Tag) {
    |t.list| == MAX_NUM_TECHNOLOGY && 0 <= t.discTechs <= |t.list| && 0 <= t.selected < |t.list|
      && 0 <= t.num <= |t.list|
  }

  /** The first selectable entry from index i on; None when there is none. */
  function NextFrom(t: Tag, i: nat): (r: Option<nat>)
    requires Searchable(t) && i <= t.discTechs
    ensures r.Some? ==> i <= r.value < t.discTechs && Selectable(t, r.value)
                        && forall j: nat :: i <= j < r.value ==> !Selectable(t, j)
    ensures r.None? ==> forall j: nat :: i <= j < t.discTechs ==> !Selectable(t, j)
    decreases t.discTechs - i
  {
    if i == t.discTechs then None else if Selectable(t, i) then Some(i) else NextFrom(t, i + 1)
  }

  /** checkNextValidProtocol, with None for -1 */
  function NextValid(t: Tag): Option<nat>
    requires Searchable(t)
  {
    NextFrom(t, 0)
  }

  /** The search looks at the list, the number of discovered technologies and the selected entry alone. */
  lemma {:induction false} SearchIsOfTheList(t: Tag, u: Tag, i: nat)
    requires Searchable(t) && Searchable(u) && i <= t.discTechs
    requires t.list == u.list && t.discTechs == u.discTechs && t.selected == u.selected
    ensures NextFrom(t, i) == NextFrom(u, i)
    decreases t.discTechs - i
  {
    if i == t.discTechs {
    } else {
      SearchIsOfTheList(t, u, i + 1);
    }
  }

  function FirstFrom(t: Tag, i: nat): (r: Option<nat>)
    requires Searchable(t) && i <= t.num
    ensures r.Some? ==> i <= r.value < t.num && t.list[r.value].libType != NfcDep
                        && forall j: nat :: i <= j < r.value ==> t.list[j].libType == NfcDep
    ensures r.None? ==> forall j: nat :: i <= j < t.num ==> t.list[j].libType == NfcDep
    decreases t.num - i
  {
    if i == t.num then None else if t.list[i].libType != NfcDep then Some(i) else FirstFrom(t, i + 1)
  }

  /** The entry selectFirstTag selects, if there is one */
  function FirstTag(t: Tag): Option<nat>
    requires Searchable(t)
  {
    FirstFrom(t, 0)
  }

  predicate P2pFound(t: Tag)
    requires 0 <= t.num <= |t.list|
  {
    exists i :: 0 <= i < t.num && t.list[i].libType == NfcDep
  }

  function Selecting(t: Tag, i: Option<nat>): Tag {
    if i.Some? then t.(selected := i.value) else t
  }

  class NfcTag {
    const techList: array<int>
    const techHandles: array<int>
    const techLibNfcTypes: array<Protocol>
    const techParams: array<Params>
    var numTechList: int
    var techListIndex: int
    var numDiscNtf: int
    var numDiscTechList: int
    var selectedId: int

    ghost predicate Valid() {
      && techList.Length == techHandles.Length == techLibNfcTypes.Length == techParams.Length == MAX_NUM_TECHNOLOGY
      && techList != techHandles
    }

    function Row(i: nat): Entry
      requires Valid() && i < MAX_NUM_TECHNOLOGY
      reads techList, techHandles, techLibNfcTypes, techParams
    {
      Entry(techList[i], techHandles[i], techLibNfcTypes[i], techParams[i])
    }

    ghost function Rows(): (r: seq<Entry>)
      requires Valid()
      reads techList, techHandles, techLibNfcTypes, techParams
      ensures |r| == MAX_NUM_TECHNOLOGY && forall i: nat :: i < |r| ==> r[i] == Row(i)
    {
      seq(MAX_NUM_TECHNOLOGY,
          i requires 0 <= i < MAX_NUM_TECHNOLOGY reads techList, techHandles, techLibNfcTypes, techParams => Row(i))
    }

    ghost function Value(): Tag
      requires Valid()
      reads this, techList, techHandles, techLibNfcTypes, techParams
    {
      Tag(Rows(), numTechList, techListIndex, numDiscNtf, numDiscTechList, selectedId)
    }

    constructor ()
      ensures Valid() && Value() == Reset(Tag([], 0, 0, 0, 0, 0))
    {
      techList := new int[MAX_NUM_TECHNOLOGY](_ => 0);
      techHandles := new int[MAX_NUM_TECHNOLOGY](_ => 0);
      techLibNfcTypes := new Protocol[MAX_NUM_TECHNOLOGY](_ => NoProtocol);
      techParams := new Params[MAX_NUM_TECHNOLOGY](_ => BLANK.params);
      numTechList, techListIndex, numDiscNtf, numDiscTechList, selectedId := 0, 0, 0, 0, 0;
    }

    method Save(i: nat, t: Target, libType: Protocol, params: Params, tech: int)
      requires Valid() && i < MAX_NUM_TECHNOLOGY
      modifies techList, techHandles, techLibNfcTypes, techParams
      ensures Rows() == old(Rows())[i := Entry(tech, t.id, libType, params)]
    {
      techList[i] := tech;
      techHandles[i] := t.id;
      techLibNfcTypes[i] := libType;
      techParams[i] := params;
    }

    method SaveTech(i: nat, tech: int)
      requires Valid() && i < MAX_NUM_TECHNOLOGY
      modifies techList
      ensures Rows() == old(Rows())[i := old(Row(i)).(tech := tech)]
    {
      techList[i] := tech;
    }

    /** One more technology of the same target, if there is room for it */
    method AddTech(t: Target, libType: Protocol, params: Params, tech: int)
      requires Valid() && 0 <= numTechList < MAX_NUM_TECHNOLOGY
      modifies this`numTechList, techList, techHandles, techLibNfcTypes, techParams
      ensures Value() == if Room(old(numTechList))
                         then old(Value()).(list := old(Rows())[old(numTechList)
                                                                + 1 := Entry(tech, t.id, libType, params)],
                                            num := old(numTechList) + 1)
                         else old(Value())
    {
      if numTechList < MAX_NUM_TECHNOLOGY - 1 {
        numTechList := numTechList + 1;
        Save(numTechList, t, libType, params, tech);
      }
    }

    /** discoverTechnologies for an activation */
    method DiscoverActivation(a: Target)
      requires Valid() && Fits(Value())
      modifies this`numTechList, techList, techHandles, techLibNfcTypes, techParams
      ensures Value() == Activate(old(Value()), a)
    {
      numTechList := techListIndex;
      if numTechList >= MAX_NUM_TECHNOLOGY {
        return;
      }
      WriteActivation(a);
      numTechList := numTechList + 1;
    }

    /** ... the switch on the protocol, which leaves numTechList at the last entry written */
    method WriteActivation(a: Target)
      requires Valid() && 0 <= numTechList < MAX_NUM_TECHNOLOGY
      modifies this`numTechList, techList, techHandles, techLibNfcTypes, techParams
      ensures var e := Expansion(a, Room(old(numTechList)));
              Value() == old(Value()).(list := Written(old(Rows()), old(numTechList), e),
                                       num := old(numTechList) + |e| - 1)
    {
      WrittenOneOrTwo(Rows(), numTechList, Expansion(a, Room(numTechList)));
      match a.protocol {
        case T1T => Save(numTechList, a, a.protocol, a.params, TARGET_TYPE_ISO14443_3A);
        case T2T => WriteType2(a);
        case T3T => Save(numTechList, a, a.protocol, a.params, TARGET_TYPE_FELICA);
        case IsoDep => WriteIsoDep(a);
        case Iso15693 => Save(numTechList, a, a.protocol, a.params, TARGET_TYPE_ISO15693);
        case Kovio => Save(numTechList, a, a.protocol, a.params, TARGET_TYPE_KOVIO_BARCODE);
        case Mifare =>
          Save(numTechList, a, a.protocol, a.params, TARGET_TYPE_ISO14443_3A);
          AddTech(a, a.protocol, a.params, TARGET_TYPE_MIFARE_CLASSIC);
        case T3BT => Save(numTechList, a, a.protocol, a.params, TARGET_TYPE_ISO14443_3B);
        case _ => Save(numTechList, a, a.protocol, a.params, TARGET_TYPE_UNKNOWN);
      }
    }

    method WriteType2(a: Target)
      requires Valid() && 0 <= numTechList < MAX_NUM_TECHNOLOGY && a.protocol == T2T
      modifies this`numTechList, techList, techHandles, techLibNfcTypes, techParams
      ensures var e := Expansion(a, Room(old(numTechList)));
              Value() == old(Value()).(list := Written(old(Rows()), old(numTechList), e),
                                       num := old(numTechList) + |e| - 1)
    {
      WrittenOneOrTwo(Rows(), numTechList, Expansion(a, Room(numTechList)));
      var sel := a.params.selRsp;
      Save(numTechList, a, a.protocol, a.params, TARGET_TYPE_ISO14443_3A);
      if (a.params.nfcid0 == 4 && sel == 0) || sel == 0x18 || sel == 0x08 || sel == 0x01 {
        if sel == 0 && numTechList < MAX_NUM_TECHNOLOGY - 1 {
          AddTech(a, a.protocol, a.params, TARGET_TYPE_MIFARE_UL);
        } else if sel == 0x01 {
          Save(numTechList, a, Mifare, a.params, TARGET_TYPE_ISO14443_3A);
          AddTech(a, Mifare, a.params.(selRsp := 0x08), TARGET_TYPE_MIFARE_CLASSIC);
        }
      }
    }

    /** A type-4 tag: the same in both overloads */
    method WriteIsoDep(t: Target)
      requires Valid() && 0 <= numTechList < MAX_NUM_TECHNOLOGY && t.protocol == IsoDep
      modifies this`numTechList, techList, techHandles, techLibNfcTypes, techParams
      ensures var e := Expansion(t, Room(old(numTechList)));
              Value() == old(Value()).(list := Written(old(Rows()), old(numTechList), e),
                                       num := old(numTechList) + |e| - 1)
    {
      WrittenOneOrTwo(Rows(), numTechList, Expansion(t, Room(numTechList)));
      Save(numTechList, t, t.protocol, t.params, TARGET_TYPE_ISO14443_4);
      if IsA(t.params.mode) {
        AddTech(t, t.protocol, t.params, TARGET_TYPE_ISO14443_3A);
      } else if IsB(t.params.mode) {
        AddTech(t, t.protocol, t.params, TARGET_TYPE_ISO14443_3B);
      }
    }

    /** discoverTechnologies for a discovery record */
    method DiscoverResult(d: Target)
      requires Valid() && Fits(Value())
      modifies this`numTechList, this`numDiscTechList, techList, techHandles, techLibNfcTypes, techParams
      ensures Value() == Discover(old(Value()), d)
    {
      if numTechList >= MAX_NUM_TECHNOLOGY {
        return;
      }
      WriteRecord(d);
      numTechList := numTechList + 1;
      numDiscTechList := numTechList;
    }

    /** ... the switch on the protocol; after a Mifare record numTechList may be past the end. */
    method WriteRecord(d: Target)
      requires Valid() && 0 <= numTechList < MAX_NUM_TECHNOLOGY
      modifies this`numTechList, techList, techHandles, techLibNfcTypes, techParams
      ensures var e := Recorded(d, Room(old(numTechList)), if Room(old(numTechList)) then old(Row(numTechList + 1))
                                else BLANK);
              Value() == old(Value()).(list := Written(old(Rows()), old(numTechList), e),
                                       num := old(numTechList) + (if d.protocol.Mifare? then 1 else |e| - 1))
    {
      WrittenOneOrTwo(Rows(), numTechList,
                      Recorded(d, Room(numTechList), if Room(numTechList) then Row(numTechList + 1) else BLANK));
      match d.protocol {
        case T1T => Save(numTechList, d, d.protocol, d.params, TARGET_TYPE_ISO14443_3A);
        case T2T =>
          Save(numTechList, d, d.protocol, d.params, TARGET_TYPE_ISO14443_3A);
          if d.params.selRsp == 0 {
            AddTech(d, d.protocol, d.params, TARGET_TYPE_MIFARE_UL);
          }
        case T3T => Save(numTechList, d, d.protocol, d.params, TARGET_TYPE_FELICA);
        case IsoDep => WriteIsoDep(d);
        case Iso15693 => Save(numTechList, d, d.protocol, d.params, TARGET_TYPE_ISO15693);
        case Mifare =>
          Save(numTechList, d, d.protocol, d.params, TARGET_TYPE_MIFARE_CLASSIC);
          numTechList := numTechList + 1;
          if numTechList < MAX_NUM_TECHNOLOGY {
            SaveTech(numTechList, TARGET_TYPE_ISO14443_3A);
          }
        case _ => Save(numTechList, d, d.protocol, d.params, TARGET_TYPE_UNKNOWN);
      }
    }

    /** The end of createNativeNfcTag: the tag is reported unless another can still be selected. */
    method Report() returns (reported: bool)
      requires Valid() && Searchable(Value())
      modifies this`techListIndex, this`numDiscNtf
      ensures reported == (old(numDiscNtf) == 0 || NextValid(old(Value())) == None)
      ensures Value() == old(Value()).(index := if old(numDiscNtf) == 0 then 0 else numTechList,
                                       discNtf := if reported then 0 else old(numDiscNtf))
    {
      ghost var before := Value();
      techListIndex := numTechList;
      if numDiscNtf == 0 {
        techListIndex := 0;
      }
      SearchIsOfTheList(before, Value(), 0);
      var next := CheckNextValidProtocol();
      reported := numDiscNtf == 0 || next == None;
      if reported {
        numDiscNtf := 0;
      }
    }

    method CheckNextValidProtocol() returns (found: Option<nat>)
      requires Valid() && Searchable(Value())
      ensures found == NextValid(Value())
    {
      for i := 0 to numDiscTechList
        invariant NextValid(Value()) == NextFrom(Value(), i)
      {
        if techHandles[selectedId] != techHandles[i] && techLibNfcTypes[i] != NfcDep {
          return Some(i);
        }
      }
      return None;
    }

    /** selectNextTag; `target` is the entry handed to NFA_Select. */
    method SelectNextTag() returns (target: Option<nat>)
      requires Valid() && Searchable(Value())
      modifies this`selectedId
      ensures target == NextValid(old(Value())) && Value() == Selecting(old(Value()), target)
    {
      for i := 0 to numDiscTechList
        invariant Value() == old(Value()) && NextValid(Value()) == NextFrom(Value(), i)
      {
        if techHandles[selectedId] != techHandles[i] && techLibNfcTypes[i] != NfcDep {
          selectedId := i;
          return Some(i);
        }
      }
      return None;
    }

    method SelectFirstTag() returns (target: Option<nat>)
      requires Valid() && Searchable(Value())
      modifies this`selectedId
      ensures target == FirstTag(old(Value())) && Value() == Selecting(old(Value()), target)
    {
      for i := 0 to numTechList
        invariant Value() == old(Value()) && FirstTag(Value()) == FirstFrom(Value(), i)
      {
        if techLibNfcTypes[i] != NfcDep {
          selectedId := i;
          return Some(i);
        }
      }
      return None;
    }

    method IsP2pDiscovered() returns (found: bool)
      requires Valid() && Searchable(Value())
      ensures found <==> P2pFound(Value())
    {
      for i := 0 to numTechList
        invariant forall j :: 0 <= j < i ==> Value().list[j].libType != NfcDep
      {
        if techLibNfcTypes[i] == NfcDep {
          assert Value().list[i].libType == NfcDep;
          return true;
        }
      }
      return false;
    }

    method ResetTechnologies()
      requires Valid()
      modifies this`numTechList, this`techListIndex, techList, techHandles, techLibNfcTypes, techParams
      ensures Value() == Reset(old(Value()))
    {
      numTechList, techListIndex := 0, 0;
      forall i | 0 <= i < techList.Length { techList[i] := 0; }
      forall i | 0 <= i < techHandles.Length { techHandles[i] := 0; }
      forall i | 0 <= i < techLibNfcTypes.Length { techLibNfcTypes[i] := NoProtocol; }
      forall i | 0 <= i < techParams.Length { techParams[i] := BLANK.params; }
    }
  }
}
