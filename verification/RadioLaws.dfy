/** What the radio is left doing by requests to enable, to disable and to change the screen, told by its flags and by
    the commands sent to the stack. */
module RadioLaws {
  import opened Options
  import opened DeferredRequests

  // ---- the last command of a kind ----

  datatype Kind =
    | RfKind | PollingKind | LptdKind | ScreenKind | P2pKind | ResumeKind | ReaderKind | HalKind | ListeningKind
    | DurationKind | UiccKind | AutonomousKind | LockKind
    | PowerKind | ModeKind | ResetKind | AbortKind | SeKind

  function KindOf(c: Command): Kind {
    match c
    case RfDiscovery(_) => RfKind
    case EnablePolling(_) => PollingKind
    case DisablePolling => PollingKind
    case LowPowerTagDetection(_) => LptdKind
    case SetScreen(_) => ScreenKind
    case P2pListening(_) => P2pKind
    case ResumeP2p(_) => ResumeKind
    case ReaderMode(_) => ReaderKind
    case HalReaderMode(_) => HalKind
    case Listening(_) => ListeningKind
    case DiscoveryDuration(_) => DurationKind
    case UiccListen(_) => UiccKind
    case AutonomousMode(_, _) => AutonomousKind
    case LockRfInterface => LockKind
    case UnlockRfInterface => LockKind
    case FullPower => PowerKind
    case ModeOnDiscovery => ModeKind
    case ResetRfField => ResetKind
    case AbortInterop => AbortKind
    case SeListen(_, _) => SeKind
  }

  function LastOf(log: seq<Command>, k: Kind): Option<Command> {
    if log == [] then None
    else if KindOf(log[|log| - 1]) == k then Some(log[|log| - 1])
    else LastOf(log[..|log| - 1], k)
  }

  lemma {:induction false} SentLast(r: Radio, c: Command, k: Kind)
    ensures LastOf(Send(r, c).log, k) == if KindOf(c) == k then Some(c) else LastOf(r.log, k)
  {
    assert (r.log + [c])[..|r.log|] == r.log;
  }

  /** From here on, the stack accepts everything. */
  ghost predicate AllAccepted(g: Setting, r: Radio) { forall n :: n >= |r.log| ==> g.ok(n) }

  predicate Flags(r: Radio, discovery: bool, polling: bool, rf: bool, p2p: bool, reader: bool, screen: int) {
    && r.discovery == discovery && r.polling == polling && r.rf == rf && r.p2p == p2p && r.reader == reader
    && r.screen == screen
  }

  /** Commands are sent, and no flag changes. */
  predicate Told(r: Radio, r': Radio) {
    Flags(r', r.discovery, r.polling, r.rf, r.p2p, r.reader, r.screen) && |r'.log| >= |r.log|
  }

  lemma {:induction false} LockedWord(r: Radio, k: Kind)
    requires k != LockKind
    ensures LastOf(Send(r, LockRfInterface).log, k) == LastOf(r.log, k)
  {
    SentLast(r, LockRfInterface, k);
  }

  lemma {:induction false} UnlockedWord(r: Radio, k: Kind)
    requires k != LockKind
    ensures LastOf(Send(r, UnlockRfInterface).log, k) == LastOf(r.log, k)
  {
    SentLast(r, UnlockRfInterface, k);
  }

  // ---- enabling, with the modes that go with it ----

  lemma {:induction false} ReaderSwitched(r: Radio, on: bool, ms: int, k: Kind)
    ensures LastOf(SwitchReader(r, on, ms).log, k) ==
              match k
              case ReaderKind => Some(ReaderMode(on))
              case HalKind => Some(HalReaderMode(on))
              case ListeningKind => Some(Listening(!on))
              case DurationKind => Some(DiscoveryDuration(ms))
              case _ => LastOf(r.log, k)
  {
    var r1 := Send(r.(reader := on), ReaderMode(on));
    var r2 := Send(r1, HalReaderMode(on));
    var r3 := Send(r2, Listening(!on));
    SentLast(r.(reader := on), ReaderMode(on), k);
    SentLast(r1, HalReaderMode(on), k);
    SentLast(r2, Listening(!on), k);
    SentLast(r3, DiscoveryDuration(ms), k);
  }

  lemma {:induction false} UiccRestarted(r: Radio, mask: int, k: Kind)
    ensures LastOf(RestartUicc(r, mask).log, k) == if k == UiccKind then Some(UiccListen(mask)) else LastOf(r.log, k)
  {
    SentLast(r, UiccListen(0), k);
    SentLast(Send(r, UiccListen(0)), UiccListen(mask), k);
  }

  lemma {:induction false} P2pSwitched(r: Radio, on: bool, k: Kind)
    ensures LastOf(Send(Send(r.(p2p := on), P2pListening(on)), ResumeP2p(on)).log, k) ==
              match k
              case P2pKind => Some(P2pListening(on))
              case ResumeKind => Some(ResumeP2p(on))
              case _ => LastOf(r.log, k)
  {
    SentLast(r.(p2p := on), P2pListening(on), k);
    SentLast(Send(r.(p2p := on), P2pListening(on)), ResumeP2p(on), k);
  }

  /** Peer-to-peer and reader mode are as asked, and what changes is told to the stack. */
  lemma {:induction false} ModesFollow(g: Setting, r: Radio, p: Params, k: Kind)
    ensures var r' := SwitchModes(g, r, p);
            && r'.p2p == p.p2p && r'.reader == p.reader
            && LastOf(r'.log, k) ==
                 match k
                 case P2pKind => if p.p2p != r.p2p then Some(P2pListening(p.p2p)) else LastOf(r.log, k)
                 case ResumeKind => if p.p2p != r.p2p then Some(ResumeP2p(p.p2p)) else LastOf(r.log, k)
                 case ReaderKind => if p.reader != r.reader then Some(ReaderMode(p.reader)) else LastOf(r.log, k)
                 case HalKind => if p.reader != r.reader then Some(HalReaderMode(p.reader)) else LastOf(r.log, k)
                 case ListeningKind => if p.reader != r.reader then Some(Listening(!p.reader)) else LastOf(r.log, k)
                 case DurationKind =>
                   if p.reader == r.reader then LastOf(r.log, k)
                   else Some(DiscoveryDuration(if p.reader then READER_MODE_DISCOVERY_DURATION else g.duration))
                 case UiccKind => if p.reader == r.reader then Some(UiccListen(g.uiccOn)) else LastOf(r.log, k)
                 case _ => LastOf(r.log, k)
  {
    P2pSwitched(r, p.p2p, k);
    var r1 := if p.p2p != r.p2p then Send(Send(r.(p2p := p.p2p), P2pListening(p.p2p)), ResumeP2p(p.p2p)) else r;
    ReaderSwitched(r1, true, READER_MODE_DISCOVERY_DURATION, k);
    ReaderSwitched(r1, false, g.duration, k);
    UiccRestarted(r1, g.uiccOn, k);
  }

  /** The same flags but for those of the modes, and more commands */
  predicate OnlyModes(r: Radio, r': Radio) {
    && |r'.log| >= |r.log| && r'.discovery == r.discovery && r'.polling == r.polling && r'.rf == r.rf
    && r'.screen == r.screen
  }

  lemma {:induction false} ReaderIsMode(r: Radio, on: bool, ms: int)
    ensures OnlyModes(r, SwitchReader(r, on, ms))
  {
  }

  lemma {:induction false} ModesKeepTheRest(g: Setting, r: Radio, p: Params)
    ensures OnlyModes(r, SwitchModes(g, r, p))
  {
    var r1 := if p.p2p != r.p2p then Send(Send(r.(p2p := p.p2p), P2pListening(p.p2p)), ResumeP2p(p.p2p)) else r;
    assert OnlyModes(r, r1);
    ReaderIsMode(r1, true, READER_MODE_DISCOVERY_DURATION);
    ReaderIsMode(r1, false, g.duration);
    assert OnlyModes(r1, RestartUicc(r1, g.uiccOn));
  }

  // ---- polling ----

  /** The technologies asked for: all that are configured unless the parameters name some or the native data do */
  function AskedFor(g: Setting, p: Params, native: Option<int>): int {
    if p.mask == -1 && native.None? then g.defaultMask else if p.mask == -1 then native.value else p.mask
  }

  lemma {:induction false} MaskIsAskedFor(g: Setting, p: Params, native: Option<int>)
    ensures Mask(g, p, native) == AskedFor(g, p, native)
  {
  }

  /** With every command accepted: polling runs exactly if the mask is not 0, and for that mask; then peer-to-peer,
      reader mode and low-power detection are as asked, and otherwise as they were. */
  lemma {:induction false} PollingFollows(g: Setting, r: Radio, p: Params, mask: int)
    requires AllAccepted(g, r)
    ensures var r' := ConfigurePolling(g, r, p, mask);
            && (r'.polling <==> mask != 0)
            && LastOf(r'.log, PollingKind) == Some(if mask != 0 then EnablePolling(mask) else DisablePolling)
            && (if mask != 0 then r'.p2p == p.p2p && r'.reader == p.reader
                                  && LastOf(r'.log, LptdKind) == Some(LowPowerTagDetection(p.lptd))
                else r'.p2p == r.p2p && r'.reader == r.reader)
            && r'.rf == r.rf && r'.discovery == r.discovery && r'.screen == r.screen && |r'.log| >= |r.log|
  {
    if mask != 0 {
      var r1 := StopPolling(g, Send(r, P2pListening(false)));
      var r2 := Send(r1, LowPowerTagDetection(p.lptd));
      var r3 := StartPolling(g, r2, mask);
      SentLast(r1, LowPowerTagDetection(p.lptd), LptdKind);
      SentLast(r2, EnablePolling(mask), LptdKind);
      SentLast(r2, EnablePolling(mask), PollingKind);
      ModesFollow(g, r3, p, PollingKind);
      ModesFollow(g, r3, p, LptdKind);
      ModesKeepTheRest(g, r3, p);
    } else {
      SentLast(r, DisablePolling, PollingKind);
    }
  }

  /** The last word on a mode, after polling has been set up; it was `word` before, with peer-to-peer and reader mode as
      given. */
  function ModeWord(g: Setting, p2p: bool, reader: bool, word: Option<Command>, p: Params, mask: int, k: Kind)
    : Option<Command>
  {
    if mask == 0 then word
    else
      match k
      case P2pKind => Some(P2pListening(p.p2p && !p2p))
      case ResumeKind => if p.p2p != p2p then Some(ResumeP2p(p.p2p)) else word
      case ReaderKind => if p.reader != reader then Some(ReaderMode(p.reader)) else word
      case HalKind => if p.reader != reader then Some(HalReaderMode(p.reader)) else word
      case ListeningKind => if p.reader != reader then Some(Listening(!p.reader)) else word
      case DurationKind =>
        if p.reader == reader then word
        else Some(DiscoveryDuration(if p.reader then READER_MODE_DISCOVERY_DURATION else g.duration))
      case UiccKind => if p.reader == reader then Some(UiccListen(g.uiccOn)) else word
      case _ => word
  }

  predicate IsMode(k: Kind) {
    k.P2pKind? || k.ResumeKind? || k.ReaderKind? || k.HalKind? || k.ListeningKind? || k.DurationKind? || k.UiccKind?
    || k.PowerKind? || k.ModeKind?
  }

  function BeforeModes(g: Setting, r: Radio, p: Params, mask: int): Radio {
    var r1 := StopPolling(g, Send(r, P2pListening(false)));
    StartPolling(g, Send(r1, LowPowerTagDetection(p.lptd)), mask)
  }

  lemma {:induction false} PollingSwitched(g: Setting, r: Radio, p: Params, mask: int, k: Kind)
    requires IsMode(k)
    ensures var r' := BeforeModes(g, r, p, mask);
            && r'.p2p == r.p2p && r'.reader == r.reader && (AllAccepted(g, r) ==> r'.polling)
            && LastOf(r'.log, k) == if k == P2pKind then Some(P2pListening(false)) else LastOf(r.log, k)
  {
    var r0 := Send(r, P2pListening(false));
    var r1 := StopPolling(g, r0);
    SentLast(r, P2pListening(false), k);
    SentLast(r0, DisablePolling, k);
    SentLast(r1, LowPowerTagDetection(p.lptd), k);
    SentLast(Send(r1, LowPowerTagDetection(p.lptd)), EnablePolling(mask), k);
  }

  lemma {:induction false} ModeWordFollows(g: Setting, r: Radio, r1: Radio, p: Params, mask: int, k: Kind)
    requires IsMode(k) && mask != 0 && r1.p2p == r.p2p && r1.reader == r.reader
    requires LastOf(r1.log, k) == if k == P2pKind then Some(P2pListening(false)) else LastOf(r.log, k)
    ensures LastOf(SwitchModes(g, r1, p).log, k) == ModeWord(g, r.p2p, r.reader, LastOf(r.log, k), p, mask, k)
  {
    ModesFollow(g, r1, p, k);
  }

  lemma {:induction false} ModesAfterPolling(g: Setting, r: Radio, p: Params, mask: int, k: Kind)
    requires AllAccepted(g, r) && IsMode(k)
    ensures LastOf(ConfigurePolling(g, r, p, mask).log, k)
            == ModeWord(g, r.p2p, r.reader, LastOf(r.log, k), p, mask, k)
  {
    if mask != 0 {
      PollingSwitched(g, r, p, mask, k);
      ModeWordFollows(g, r, BeforeModes(g, r, p, mask), p, mask, k);
    } else {
      SentLast(r, DisablePolling, k);
    }
  }

  // ---- the whole of enabling ----

  /** Up to the start of discovery */
  function Prepared(g: Setting, r: Radio): Radio { StopIfRunning(g, Send(Send(r, LockRfInterface), FullPower)) }

  lemma {:induction false} PreparedFlags(g: Setting, r: Radio)
    ensures var r' := Prepared(g, r);
            && |r'.log| >= |r.log| && r'.discovery == r.discovery && r'.p2p == r.p2p && r'.reader == r.reader
            && r'.screen == r.screen
  {
  }

  lemma {:induction false} StoppingWord(g: Setting, r: Radio, k: Kind)
    requires k != RfKind
    ensures LastOf(StopIfRunning(g, r).log, k) == LastOf(r.log, k)
  {
    SentLast(r, RfDiscovery(false), k);
  }

  lemma {:induction false} PreparedWord(g: Setting, r: Radio, k: Kind)
    requires IsMode(k)
    ensures LastOf(Prepared(g, r).log, k) == if k == PowerKind then Some(FullPower) else LastOf(r.log, k)
  {
    var r1 := Send(r, LockRfInterface);
    LockedWord(r, k);
    SentLast(r1, FullPower, k);
    StoppingWord(g, Send(r1, FullPower), k);
  }

  lemma {:induction false} ListeningConfigured(g: Setting, r: Radio, mask: int, k: Kind)
    ensures var r' := ConfigureListening(g, r, mask);
            && Told(r, r')
            && LastOf(r'.log, k) ==
                 if (r.discovery || mask == 0) && k == P2pKind then Some(P2pListening(r.screen == SCREEN_UNLOCKED))
                 else if (r.discovery || mask == 0) && k == UiccKind then Some(UiccListen(g.uiccOn))
                 else LastOf(r.log, k)
  {
    SentLast(r, P2pListening(r.screen == SCREEN_UNLOCKED), k);
    UiccRestarted(Send(r, P2pListening(r.screen == SCREEN_UNLOCKED)), g.uiccOn, k);
  }

  lemma {:induction false} Started(g: Setting, r: Radio, k: Kind)
    requires AllAccepted(g, r)
    ensures var r' := Send(Send(StartRf(g, r, true).(discovery := true), ModeOnDiscovery), UnlockRfInterface);
            && Flags(r', true, r.polling, true, r.p2p, r.reader, r.screen)
            && (k != LockKind ==>
                  LastOf(r'.log, k) == if k == RfKind then Some(RfDiscovery(true))
                                       else if k == ModeKind then Some(ModeOnDiscovery) else LastOf(r.log, k))
  {
    var r1 := StartRf(g, r, true).(discovery := true);
    SentLast(r, RfDiscovery(true), k);
    SentLast(r1, ModeOnDiscovery, k);
    SentLast(Send(r1, ModeOnDiscovery), UnlockRfInterface, k);
  }

  lemma {:induction false} EnableInSteps(g: Setting, r: Radio, p: Params, native: Option<int>)
    requires !r.discovery || p.restart
    ensures var r1 := ConfigurePolling(g, Prepared(g, r), p, Mask(g, p, native));
            var r2 := ConfigureListening(g, r1, Mask(g, p, native));
            TurnOn(g, r, p, native) == Send(Send(StartRf(g, r2, true).(discovery := true), ModeOnDiscovery),
                                            UnlockRfInterface)
  {
  }

  lemma {:induction false} EnabledFlags(g: Setting, r: Radio, p: Params, native: Option<int>, mask: int)
    requires AllAccepted(g, r) && (!r.discovery || p.restart) && mask == Mask(g, p, native)
    ensures var r' := TurnOn(g, r, p, native);
            && Flags(r', true, mask != 0, true, if mask != 0 then p.p2p else r.p2p,
                     if mask != 0 then p.reader else r.reader, r.screen)
  {
    var r1 := ConfigurePolling(g, Prepared(g, r), p, mask);
    EnableInSteps(g, r, p, native);
    PreparedFlags(g, r);
    PollingFollows(g, Prepared(g, r), p, mask);
    ListeningConfigured(g, r1, mask, RfKind);
    Started(g, ConfigureListening(g, r1, mask), RfKind);
  }

  lemma {:induction false} EnabledWord(g: Setting, r: Radio, p: Params, native: Option<int>, mask: int, k: Kind)
    requires AllAccepted(g, r) && (!r.discovery || p.restart) && mask == Mask(g, p, native)
    requires k.RfKind? || k.PollingKind? || (k.LptdKind? && mask != 0)
    ensures LastOf(TurnOn(g, r, p, native).log, k) ==
              match k
              case RfKind => Some(RfDiscovery(true))
              case PollingKind => Some(if mask != 0 then EnablePolling(mask) else DisablePolling)
              case _ => Some(LowPowerTagDetection(p.lptd))
  {
    var r1 := ConfigurePolling(g, Prepared(g, r), p, mask);
    EnableInSteps(g, r, p, native);
    PreparedFlags(g, r);
    PollingFollows(g, Prepared(g, r), p, mask);
    ListeningConfigured(g, r1, mask, k);
    Started(g, ConfigureListening(g, r1, mask), k);
  }

  /** An enable that takes effect, with every command accepted: discovery runs, and the last word to the stack was to
      start it; it polls exactly if the mask is not 0, and for that mask; peer-to-peer, reader mode and low-power
      detection are then as asked. */
  lemma {:induction false} EnabledAsAsked(g: Setting, r: Radio, p: Params, native: Option<int>)
    requires AllAccepted(g, r) && (!r.discovery || p.restart)
    ensures var r', mask := TurnOn(g, r, p, native), AskedFor(g, p, native);
            && r'.discovery && r'.rf && LastOf(r'.log, RfKind) == Some(RfDiscovery(true))
            && (r'.polling <==> mask != 0)
            && LastOf(r'.log, PollingKind) == Some(if mask != 0 then EnablePolling(mask) else DisablePolling)
            && (if mask != 0 then r'.p2p == p.p2p && r'.reader == p.reader
                                  && LastOf(r'.log, LptdKind) == Some(LowPowerTagDetection(p.lptd))
                else r'.p2p == r.p2p && r'.reader == r.reader)
            && r'.screen == r.screen
  {
    var mask := AskedFor(g, p, native);
    MaskIsAskedFor(g, p, native);
    EnabledFlags(g, r, p, native, mask);
    EnabledWord(g, r, p, native, mask, RfKind);
    EnabledWord(g, r, p, native, mask, PollingKind);
    if mask != 0 { EnabledWord(g, r, p, native, mask, LptdKind); }
  }

  lemma {:induction false} WordsInEnable(g: Setting, r: Radio, p: Params, native: Option<int>, mask: int, k: Kind)
    requires AllAccepted(g, r) && (!r.discovery || p.restart) && IsMode(k) && mask == Mask(g, p, native)
    ensures LastOf(TurnOn(g, r, p, native).log, k) ==
              if k == PowerKind then Some(FullPower)
              else if k == ModeKind then Some(ModeOnDiscovery)
              else if (r.discovery || mask == 0) && k == P2pKind then Some(P2pListening(r.screen == SCREEN_UNLOCKED))
              else if (r.discovery || mask == 0) && k == UiccKind then Some(UiccListen(g.uiccOn))
              else ModeWord(g, r.p2p, r.reader, LastOf(r.log, k), p, mask, k)
  {
    var r1 := ConfigurePolling(g, Prepared(g, r), p, mask);
    var r2 := ConfigureListening(g, r1, mask);
    EnableInSteps(g, r, p, native);
    PreparedFlags(g, r);
    PreparedWord(g, r, k);
    PollingFollows(g, Prepared(g, r), p, mask);
    ModesAfterPolling(g, Prepared(g, r), p, mask, k);
    ListeningConfigured(g, r1, mask, k);
    Started(g, r2, k);
  }

  /** ... and what the stack was last told of power and of each mode: what changed; and where polling stays off, or
      discovery is only restarted, to listen for peers just when the screen is unlocked. */
  lemma {:induction false} EnabledModes(g: Setting, r: Radio, p: Params, native: Option<int>, k: Kind)
    requires AllAccepted(g, r) && (!r.discovery || p.restart) && IsMode(k)
    ensures var r', mask := TurnOn(g, r, p, native), AskedFor(g, p, native);
            LastOf(r'.log, k) ==
              if k == PowerKind then Some(FullPower)
              else if k == ModeKind then Some(ModeOnDiscovery)
              else if (r.discovery || mask == 0) && k == P2pKind then Some(P2pListening(r.screen == SCREEN_UNLOCKED))
              else if (r.discovery || mask == 0) && k == UiccKind then Some(UiccListen(g.uiccOn))
              else ModeWord(g, r.p2p, r.reader, LastOf(r.log, k), p, mask, k)
  {
    MaskIsAskedFor(g, p, native);
    WordsInEnable(g, r, p, native, AskedFor(g, p, native), k);
  }

  // ---- enabling, whatever the stack accepts ----

  /** What the stack was last told of polling and accepted; `start` if nothing */
  ghost function AcceptedPolling(g: Setting, log: seq<Command>, start: bool): bool {
    if log == [] then start
    else
      var n := |log| - 1;
      if log[n].EnablePolling? && g.ok(n) then true
      else if log[n].DisablePolling? && g.ok(n) then false
      else AcceptedPolling(g, log[..n], start)
  }

  /** The flag for polling is what the stack was last told and accepted. */
  ghost predicate PollingTold(g: Setting, r: Radio, start: bool) { r.polling == AcceptedPolling(g, r.log, start) }

  lemma {:induction false} SendTells(g: Setting, r: Radio, c: Command, start: bool)
    requires PollingTold(g, r, start) && !c.EnablePolling? && !c.DisablePolling?
    ensures PollingTold(g, Send(r, c), start)
  {
    assert (r.log + [c])[..|r.log|] == r.log;
  }

  lemma {:induction false} PollingCommandsTell(g: Setting, r: Radio, mask: int, start: bool)
    requires PollingTold(g, r, start)
    ensures PollingTold(g, StartPolling(g, r, mask), start) && PollingTold(g, StopPolling(g, r), start)
  {
    assert (r.log + [EnablePolling(mask)])[..|r.log|] == r.log;
    assert (r.log + [DisablePolling])[..|r.log|] == r.log;
  }

  /** Neither polling nor its commands */
  predicate NoPolling(r: Radio, r': Radio) {
    && |r'.log| >= |r.log| && r'.log[..|r.log|] == r.log && r'.polling == r.polling
    && forall i :: |r.log| <= i < |r'.log| ==> !r'.log[i].EnablePolling? && !r'.log[i].DisablePolling?
  }

  lemma {:induction false} NoPollingTells(g: Setting, r: Radio, r': Radio, start: bool)
    requires PollingTold(g, r, start) && NoPolling(r, r')
    ensures PollingTold(g, r', start)
    decreases |r'.log|
  {
    if |r'.log| > |r.log| {
      var n := |r'.log| - 1;
      assert r'.log[..n][..|r.log|] == r.log;
      NoPollingTells(g, r, r'.(log := r'.log[..n]), start);
    } else {
      assert r'.log == r.log;
    }
  }

  lemma {:induction false} ReaderIsNoPolling(r: Radio, on: bool, ms: int)
    ensures NoPolling(r, SwitchReader(r, on, ms))
  {
    var r' := SwitchReader(r, on, ms);
    assert r'.log == r.log + [ReaderMode(on), HalReaderMode(on), Listening(!on), DiscoveryDuration(ms)];
  }

  lemma {:induction false} P2pTells(g: Setting, r: Radio, on: bool, start: bool)
    requires PollingTold(g, r, start)
    ensures PollingTold(g, Send(Send(r.(p2p := on), P2pListening(on)), ResumeP2p(on)), start)
  {
    SendTells(g, r.(p2p := on), P2pListening(on), start);
    SendTells(g, Send(r.(p2p := on), P2pListening(on)), ResumeP2p(on), start);
  }

  lemma {:induction false} ReaderTells(g: Setting, r: Radio, on: bool, ms: int, start: bool)
    requires PollingTold(g, r, start)
    ensures PollingTold(g, SwitchReader(r, on, ms), start)
  {
    ReaderIsNoPolling(r, on, ms);
    NoPollingTells(g, r, SwitchReader(r, on, ms), start);
  }

  lemma {:induction false} UiccTells(g: Setting, r: Radio, mask: int, start: bool)
    requires PollingTold(g, r, start)
    ensures PollingTold(g, RestartUicc(r, mask), start)
  {
    SendTells(g, r, UiccListen(0), start);
    SendTells(g, Send(r, UiccListen(0)), UiccListen(mask), start);
  }

  lemma {:induction false} ModesTell(g: Setting, r: Radio, p: Params, start: bool)
    requires PollingTold(g, r, start)
    ensures PollingTold(g, SwitchModes(g, r, p), start)
  {
    if p.p2p != r.p2p { P2pTells(g, r, p.p2p, start); }
    var r1 := if p.p2p != r.p2p then Send(Send(r.(p2p := p.p2p), P2pListening(p.p2p)), ResumeP2p(p.p2p)) else r;
    ReaderTells(g, r1, true, READER_MODE_DISCOVERY_DURATION, start);
    ReaderTells(g, r1, false, g.duration, start);
    UiccTells(g, r1, g.uiccOn, start);
  }

  lemma {:induction false} ConfiguringTells(g: Setting, r: Radio, p: Params, mask: int, start: bool)
    requires PollingTold(g, r, start)
    ensures PollingTold(g, ConfigurePolling(g, r, p, mask), start)
  {
    PollingCommandsTell(g, r, mask, start);
    if mask != 0 {
      var r0 := Send(r, P2pListening(false));
      var r1 := StopPolling(g, r0);
      var r2 := Send(r1, LowPowerTagDetection(p.lptd));
      SendTells(g, r, P2pListening(false), start);
      PollingCommandsTell(g, r0, mask, start);
      SendTells(g, r1, LowPowerTagDetection(p.lptd), start);
      PollingCommandsTell(g, r2, mask, start);
      ModesTell(g, StartPolling(g, r2, mask), p, start);
    }
  }

  lemma {:induction false} RfTells(g: Setting, r: Radio, on: bool, start: bool)
    requires PollingTold(g, r, start)
    ensures PollingTold(g, StartRf(g, r, on), start)
  {
    SendTells(g, r, RfDiscovery(on), start);
  }

  lemma {:induction false} ListeningTells(g: Setting, r: Radio, mask: int, start: bool)
    requires PollingTold(g, r, start)
    ensures PollingTold(g, ConfigureListening(g, r, mask), start)
  {
    SendTells(g, r, P2pListening(r.screen == SCREEN_UNLOCKED), start);
    UiccTells(g, Send(r, P2pListening(r.screen == SCREEN_UNLOCKED)), g.uiccOn, start);
  }

  lemma {:induction false} PreparingTells(g: Setting, r: Radio, start: bool)
    requires PollingTold(g, r, start)
    ensures PollingTold(g, Prepared(g, r), start)
  {
    SendTells(g, r, LockRfInterface, start);
    SendTells(g, Send(r, LockRfInterface), FullPower, start);
    RfTells(g, Send(Send(r, LockRfInterface), FullPower), false, start);
  }

  lemma {:induction false} StartedTells(g: Setting, r: Radio, start: bool)
    requires PollingTold(g, r, start)
    ensures var r1 := StartRf(g, r, true).(discovery := true);
            PollingTold(g, Send(Send(r1, ModeOnDiscovery), UnlockRfInterface), start)
  {
    RfTells(g, r, true, start);
    var r1 := StartRf(g, r, true).(discovery := true);
    SendTells(g, r1, ModeOnDiscovery, start);
    SendTells(g, Send(r1, ModeOnDiscovery), UnlockRfInterface, start);
  }

  /** The modes are as asked exactly if there is polling to go with them. */
  lemma {:induction false} ModesGoWithPolling(g: Setting, r: Radio, p: Params, mask: int)
    ensures var r' := ConfigurePolling(g, r, p, mask);
            if mask != 0 && r'.polling then r'.p2p == p.p2p && r'.reader == p.reader
            else r'.p2p == r.p2p && r'.reader == r.reader
  {
    if mask != 0 {
      ModesKeepTheRest(g, BeforeModes(g, r, p, mask), p);
      ModesFollow(g, BeforeModes(g, r, p, mask), p, RfKind);
    }
  }

  /** An enable that takes effect, whatever the stack accepts of it: the flag for polling goes on being what the stack
      was last told and accepted, and peer-to-peer and reader mode are as asked exactly if there is polling, with a
      mask. */
  lemma {:induction false} EnabledAsAccepted(g: Setting, r: Radio, p: Params, native: Option<int>, start: bool)
    requires PollingTold(g, r, start) && (!r.discovery || p.restart)
    ensures var r' := TurnOn(g, r, p, native);
            && PollingTold(g, r', start) && r'.discovery
            && if AskedFor(g, p, native) != 0 && r'.polling then r'.p2p == p.p2p && r'.reader == p.reader
               else r'.p2p == r.p2p && r'.reader == r.reader
  {
    var mask := Mask(g, p, native);
    var r1 := ConfigurePolling(g, Prepared(g, r), p, mask);
    var r2 := ConfigureListening(g, r1, mask);
    EnableInSteps(g, r, p, native);
    PreparedFlags(g, r);
    PreparingTells(g, r, start);
    ConfiguringTells(g, Prepared(g, r), p, mask, start);
    ModesGoWithPolling(g, Prepared(g, r), p, mask);
    ListeningTells(g, r1, mask, start);
    ListeningConfigured(g, r1, mask, RfKind);
    StartedTells(g, r2, start);
  }

  // ---- disabling ----

  lemma {:induction false} Halted(g: Setting, r: Radio)
    requires AllAccepted(g, r)
    ensures var r' := Halt(g, r);
            Flags(r', r.discovery, false, false, r.p2p, r.reader, r.screen) && |r'.log| >= |r.log|
  {
  }

  lemma {:induction false} SeListens(g: Setting, r: Radio)
    requires AllAccepted(g, r)
    ensures Flags(ListenForSe(g, r), r.discovery, r.polling, r.rf || g.seSelected, r.p2p, r.reader, r.screen)
  {
  }

  /** The last word on a kind of command once RF discovery and polling are stopped, and once a secure element is
      listened for; it was `word` before. */
  function HaltWord(polling: bool, word: Option<Command>, k: Kind): Option<Command> {
    if k == RfKind then Some(RfDiscovery(false)) else if k == PollingKind && polling then Some(DisablePolling) else word
  }

  function SeWord(g: Setting, word: Option<Command>, k: Kind): Option<Command> {
    if !g.seSelected then word
    else if k == RfKind then Some(RfDiscovery(true))
    else if k == UiccKind then Some(UiccListen(g.uiccOff))
    else if k == P2pKind then Some(P2pListening(false))
    else word
  }

  lemma {:induction false} HaltedWord(g: Setting, r: Radio, k: Kind)
    ensures LastOf(Halt(g, r).log, k) == HaltWord(r.polling, LastOf(r.log, k), k)
  {
    SentLast(r, RfDiscovery(false), k);
    SentLast(StartRf(g, r, false), DisablePolling, k);
  }

  lemma {:induction false} SeListensWord(g: Setting, r: Radio, k: Kind)
    ensures LastOf(ListenForSe(g, r).log, k) == SeWord(g, LastOf(r.log, k), k)
  {
    var r1 := RestartUicc(r, g.uiccOff);
    UiccRestarted(r, g.uiccOff, k);
    SentLast(r1, P2pListening(false), k);
    SentLast(Send(r1, P2pListening(false)), RfDiscovery(true), k);
  }

  /** ... and once all is stopped */
  function StopWord(g: Setting, polling: bool, word: Option<Command>, k: Kind): Option<Command> {
    match k
    case RfKind => Some(RfDiscovery(g.seSelected))
    case PollingKind => if polling then Some(DisablePolling) else word
    case P2pKind => Some(P2pListening(false))
    case UiccKind => if g.seSelected then Some(UiccListen(g.uiccOff)) else word
    case ResetKind => Some(ResetRfField)
    case _ => word
  }

  lemma {:induction false} WordsCompose(g: Setting, polling: bool, word: Option<Command>, k: Kind)
    ensures var halted := HaltWord(polling, word, k);
            var told := if k == P2pKind then Some(P2pListening(false)) else halted;
            StopWord(g, polling, word, k) == if k == ResetKind then Some(ResetRfField) else SeWord(g, told, k)
  {
  }

  lemma {:induction false} StoppedFlags(g: Setting, r: Radio)
    requires AllAccepted(g, r)
    ensures Flags(StopAll(g, r), false, false, g.seSelected, false, r.reader, r.screen)
  {
    var r1 := Halt(g, r).(discovery := false);
    Halted(g, r);
    SeListens(g, Send(r1, P2pListening(false)));
  }

  lemma {:induction false} StoppedWord(g: Setting, r: Radio, k: Kind)
    ensures LastOf(StopAll(g, r).log, k) == StopWord(g, r.polling, LastOf(r.log, k), k)
  {
    HaltedWord(g, r, k);
    AfterHaltWord(g, Halt(g, r).(discovery := false), k);
    WordsCompose(g, r.polling, LastOf(r.log, k), k);
  }

  lemma {:induction false} AfterHaltWord(g: Setting, r: Radio, k: Kind)
    ensures var told := if k == P2pKind then Some(P2pListening(false)) else LastOf(r.log, k);
            LastOf(Send(ListenForSe(g, Send(r, P2pListening(false))).(p2p := false), ResetRfField).log, k)
            == if k == ResetKind then Some(ResetRfField) else SeWord(g, told, k)
  {
    var r1 := Send(r, P2pListening(false));
    SentLast(r, P2pListening(false), k);
    SeListensWord(g, r1, k);
    SentLast(ListenForSe(g, r1).(p2p := false), ResetRfField, k);
  }

  /** A disable that takes effect, with every command accepted: discovery is off, nothing is polled for, peer-to-peer is
      off, and RF discovery runs just when there is a secure element to listen for. */
  lemma {:induction false} DisabledAsAsked(g: Setting, r: Radio, k: Kind)
    requires AllAccepted(g, r) && r.discovery && k != LockKind
    ensures var r' := TurnOff(g, r);
            && Flags(r', false, false, g.seSelected, false, r.reader, r.screen)
            && LastOf(r'.log, k) == if k == AbortKind then Some(AbortInterop)
                                    else StopWord(g, r.polling, LastOf(r.log, k), k)
  {
    var r2 := Send(Send(r, AbortInterop), LockRfInterface);
    assert TurnOff(g, r) == Send(StopAll(g, r2), UnlockRfInterface);
    DisableBegins(r, k);
    StoppedFlags(g, r2);
    StoppedWord(g, r2, k);
    UnlockedWord(StopAll(g, r2), k);
  }

  lemma {:induction false} DisableBegins(r: Radio, k: Kind)
    requires k != LockKind
    ensures var r' := Send(Send(r, AbortInterop), LockRfInterface);
            && Told(r, r')
            && LastOf(r'.log, k) == if k == AbortKind then Some(AbortInterop) else LastOf(r.log, k)
  {
    SentLast(r, AbortInterop, k);
    SentLast(Send(r, AbortInterop), LockRfInterface, k);
  }

  // ---- the screen ----

  /** The last word on a kind of command once the screen has been announced; it was `word` before. */
  function ScreenWord(g: Setting, state: int, word: Option<Command>, k: Kind): Option<Command> {
    match k
    case ScreenKind => Some(SetScreen(state))
    case PollingKind => if state == SCREEN_LOCKED || state == SCREEN_OFF then Some(DisablePolling) else word
    case AutonomousKind => if g.autonomous.Some? then Some(AutonomousMode(state, g.autonomous.value)) else word
    case _ => word
  }

  /** The first command about a locked or dark screen */
  function Darkened(r: Radio, state: int): Radio {
    if state == SCREEN_LOCKED || state == SCREEN_OFF then Send(r, DisablePolling) else r
  }

  lemma {:induction false} DarkenedWord(r: Radio, state: int, k: Kind)
    ensures LastOf(Darkened(r, state).log, k)
            == if k == PollingKind && (state == SCREEN_LOCKED || state == SCREEN_OFF) then Some(DisablePolling)
               else LastOf(r.log, k)
  {
    SentLast(r, DisablePolling, k);
  }

  /** The next, where autonomous mode is configured */
  function Configured(g: Setting, r: Radio, state: int): Radio {
    if g.autonomous.Some? then Send(r, AutonomousMode(state, g.autonomous.value)) else r
  }

  lemma {:induction false} ConfiguredWord(g: Setting, r: Radio, state: int, k: Kind)
    ensures LastOf(Configured(g, r, state).log, k)
            == if k == AutonomousKind && g.autonomous.Some? then Some(AutonomousMode(state, g.autonomous.value))
               else LastOf(r.log, k)
  {
    if g.autonomous.Some? { SentLast(r, AutonomousMode(state, g.autonomous.value), k); }
  }

  lemma {:induction false} AnnouncedWord(g: Setting, r: Radio, state: int, k: Kind)
    ensures LastOf(Send(Configured(g, r, state), SetScreen(state)).log, k)
            == if k == ScreenKind then Some(SetScreen(state))
               else if k == AutonomousKind && g.autonomous.Some? then Some(AutonomousMode(state, g.autonomous.value))
               else LastOf(r.log, k)
  {
    ConfiguredWord(g, r, state, k);
    SentLast(Configured(g, r, state), SetScreen(state), k);
  }

  lemma {:induction false} ScreenAnnounced(g: Setting, r: Radio, state: int, k: Kind)
    ensures LastOf(ScreenCommands(g, r, state).log, k) == ScreenWord(g, state, LastOf(r.log, k), k)
  {
    DarkenedWord(r, state, k);
    AnnouncedWord(g, Darkened(r, state), state, k);
  }

  lemma {:induction false} OnlyAnnounced(g: Setting, r: Radio, state: int)
    ensures var r' := ScreenCommands(g, r, state); Told(r, r')
  {
  }

  /** Discovery is started again when the screen goes from off to locked, and from locked to off if there is a secure
      element to listen for. */
  predicate Restarts(g: Setting, before: int, after: int) {
    || (before == SCREEN_OFF && after == SCREEN_LOCKED)
    || (before == SCREEN_LOCKED && after == SCREEN_OFF && g.seSelected)
  }

  lemma {:induction false} ScreenSwitched(g: Setting, r: Radio, state: int, k: Kind)
    requires AllAccepted(g, r)
    ensures var r', on := SwitchScreen(g, r, state), Restarts(g, r.screen, state);
            && Flags(r', r.discovery, r.polling, on, r.p2p, r.reader, state)
            && LastOf(r'.log, k) ==
                 if k != RfKind then ScreenWord(g, state, LastOf(r.log, k), k)
                 else if on || r.rf then Some(RfDiscovery(on)) else LastOf(r.log, k)
  {
    var r1 := StopIfRunning(g, r);
    SentLast(r, RfDiscovery(false), k);
    ScreenAnnounced(g, r1, state, k);
    OnlyAnnounced(g, r1, state);
    SentLast(ScreenCommands(g, r1, state), RfDiscovery(true), k);
  }

  /** A new screen state, with every command accepted: the last word on the screen is the new state, polling is stopped
      for a locked or dark screen, and RF discovery runs afterwards exactly when the change restarts it. */
  lemma {:induction false} ScreenAsAsked(g: Setting, r: Radio, state: int, k: Kind)
    requires AllAccepted(g, r) && state != r.screen && state != SCREEN_DEFAULT && k != LockKind
    ensures var r', on := ChangeScreen(g, r, state), Restarts(g, r.screen, state);
            && Flags(r', r.discovery, r.polling, on, r.p2p, r.reader, state)
            && LastOf(r'.log, k) ==
                 if k != RfKind then ScreenWord(g, state, LastOf(r.log, k), k)
                 else if on || r.rf then Some(RfDiscovery(on)) else LastOf(r.log, k)
  {
    var r1 := Send(r, LockRfInterface);
    assert ChangeScreen(g, r, state) == Send(SwitchScreen(g, r1, state), UnlockRfInterface);
    LockedWord(r, k);
    ScreenSwitched(g, r1, state, k);
    UnlockedWord(SwitchScreen(g, r1, state), k);
  }

  /** The default state is no state to change to. */
  lemma {:induction false} DefaultScreenIsNoChange(g: Setting, r: Radio, k: Kind)
    requires k != LockKind
    ensures Told(r, ChangeScreen(g, r, SCREEN_DEFAULT))
    ensures LastOf(ChangeScreen(g, r, SCREEN_DEFAULT).log, k) == LastOf(r.log, k)
  {
    LockedWord(r, k);
    UnlockedWord(Send(r, LockRfInterface), k);
  }

  // ---- during a reader session ----

  lemma {:induction false} SessionPolls(g: Setting, r: Radio, mask: int, k: Kind)
    ensures LastOf(PollForSession(g, r, mask).log, k) ==
              match k
              case PollingKind => Some(EnablePolling(mask))
              case RfKind => Some(RfDiscovery(true))
              case _ => LastOf(r.log, k)
  {
    var r1 := Send(r, DisablePolling);
    SentLast(r, DisablePolling, k);
    SentLast(r1, EnablePolling(mask), k);
    SentLast(Send(r1, EnablePolling(mask)), RfDiscovery(true), k);
  }

  lemma {:induction false} SessionClears(g: Setting, r: Radio, src: int, k: Kind)
    ensures LastOf(ClearForSession(g, r, src).log, k) ==
              match k
              case RfKind => Some(RfDiscovery(false))
              case P2pKind => Some(P2pListening(false))
              case SeKind => Some(SeListen(src, 0))
              case _ => LastOf(r.log, k)
  {
    var r1 := StartRf(g, r, false);
    SentLast(r, RfDiscovery(false), k);
    SentLast(r1, P2pListening(false), k);
    SentLast(Send(r1, P2pListening(false)), SeListen(src, 0), k);
  }

  /** A request to enable during a started session polls for the session's own technologies, and no flag but that of
      RF discovery is changed; one to disable stops RF discovery while the session starts or stops, and while it
      starts also takes the secure element's listening away, and changes no other flag. */
  lemma {:induction false} SessionRequestsAsAsked(g: Setting, session: Session, s: Sys, q: Request, k: Kind)
    requires !s.buffer.inProgress && (q.Enable? || q.Disable?)
    requires if q.Enable? then session.Started? else session.StartInProgress? || session.StopInProgress?
    ensures var r, r' := s.radio, DoIn(g, session, s, q).radio;
            && Flags(r', r.discovery, r.polling, r'.rf, r.p2p, r.reader, r.screen)
            && (AllAccepted(g, r) ==> (r'.rf <==> q.Enable?))
            && LastOf(r'.log, k) ==
                 match k
                 case RfKind => Some(RfDiscovery(q.Enable?))
                 case PollingKind => if q.Enable? then Some(EnablePolling(session.mask)) else LastOf(r.log, k)
                 case P2pKind => if session.StartInProgress? then Some(P2pListening(false)) else LastOf(r.log, k)
                 case SeKind => if session.StartInProgress? then Some(SeListen(session.src, 0)) else LastOf(r.log, k)
                 case _ => LastOf(r.log, k)
  {
    match session {
      case Started(mask) => SessionPolls(g, s.radio, mask, k);
      case StartInProgress(src) => SessionClears(g, s.radio, src, k);
      case _ => SentLast(s.radio, RfDiscovery(false), k);
    }
  }

  // ---- while NFA is off, or being disabled ----

  /** Screen requests, and clean-ups with all they were to replay, are lost. */
  lemma {:induction false} LostWhileOff(g: Setting, session: Session, s: Sys, state: int, read: Read)
    requires !g.enabled || g.disabling
    ensures DoIn(g, session, s, Screen(state)) == s && EndIn(g, session, s, read) == s
  {
  }

  // ---- what is left after a replay ----

  lemma {:induction false} MoreIsAccepted(g: Setting, r: Radio, r': Radio)
    requires AllAccepted(g, r) && |r'.log| >= |r.log|
    ensures AllAccepted(g, r')
  {
  }

  lemma {:induction false} ScreenOnly(g: Setting, r: Radio, screen: Option<int>)
    requires AllAccepted(g, r)
    ensures var r' := if screen.Some? && screen.value != SCREEN_DEFAULT then ChangeScreen(g, r, screen.value) else r;
            && r'.screen == (if screen.Some? && screen.value != SCREEN_DEFAULT then screen.value else r.screen)
            && r'.discovery == r.discovery && r'.polling == r.polling && r'.p2p == r.p2p && r'.reader == r.reader
            && AllAccepted(g, r')
  {
    if screen.Some? && screen.value != SCREEN_DEFAULT && screen.value != r.screen {
      ScreenAsAsked(g, r, screen.value, ScreenKind);
      ScreenSendsMore(g, r, screen.value);
      MoreIsAccepted(g, r, ChangeScreen(g, r, screen.value));
    }
  }

  lemma {:induction false} ScreenSendsMore(g: Setting, r: Radio, state: int)
    ensures |ChangeScreen(g, r, state).log| >= |r.log|
  {
    OnlyAnnounced(g, StopIfRunning(g, Send(r, LockRfInterface)), state);
  }

  /** The radio does what an enable with these parameters asks for. */
  predicate Discovers(g: Setting, r: Radio, p: Params, mask: int) {
    && r.discovery && r.rf && (r.polling <==> mask != 0)
    && LastOf(r.log, PollingKind) == Some(if mask != 0 then EnablePolling(mask) else DisablePolling)
    && (mask != 0 ==> r.p2p == p.p2p && r.reader == p.reader)
  }

  /** Nothing is polled for, and RF discovery runs just for the reason given. */
  predicate Rests(r: Radio, listens: bool) { !r.discovery && !r.polling && !r.p2p && (r.rf <==> listens) }

  lemma {:induction false} EnableReplayed(g: Setting, r: Radio, p: Params, native: Option<int>)
    requires AllAccepted(g, r)
    ensures var t := TurnOn(g, r.(discovery := false, polling := false), p, native);
            Discovers(g, t, p, AskedFor(g, p, native)) && t.screen == r.screen
  {
    MoreIsAccepted(g, r, r.(discovery := false, polling := false));
    EnabledAsAsked(g, r.(discovery := false, polling := false), p, native);
  }

  lemma {:induction false} DisableReplayed(g: Setting, r: Radio, locked: bool)
    requires AllAccepted(g, r) && r.discovery
    ensures var t := if locked then StartRf(g, TurnOff(g, r), true) else TurnOff(g, r);
            Rests(t, g.seSelected || locked) && t.screen == r.screen && t.reader == r.reader
  {
    DisabledAsAsked(g, r, RfKind);
    DisableSendsMore(g, r);
  }

  /** Requests deferred during a transaction, then the clean-up, with every command accepted: if an enable was the last
      to enable or disable, discovery runs, polls for the mask last asked for, and the modes are as last asked; if a
      disable was, and discovery was on, it is off, and RF discovery runs just for a secure element or a locked
      screen; and the screen is the last asked for. */
  lemma {:induction false} ReplayLeavesTheRadioAsAsked(g: Setting, s: Sys, qs: seq<Request>)
    requires g.enabled && !g.disabling && s.buffer == EMPTY.(inProgress := true) && AllAccepted(g, s.radio)
    ensures var t := Replay(g, DoAll(g, s, qs)).radio;
            && t.screen == (if LastScreen(qs).Some? && LastScreen(qs).value != SCREEN_DEFAULT then LastScreen(qs).value
                            else s.radio.screen)
            && match LastSwitch(qs)
               case Some(Enable(p, _)) => Discovers(g, t, p, AskedFor(g, p, LastNative(qs, None)))
               case Some(_) =>
                 s.radio.discovery ==> Rests(t, g.seSelected || LastScreen(qs) == Some(SCREEN_LOCKED))
               case None => t.discovery == s.radio.discovery && t.polling == s.radio.polling && t.p2p == s.radio.p2p
  {
    ReplayIsLastRequestsOnly(g, s, qs);
    LastSwitchIsNoScreen(qs);
    LastOnlyFlags(g, s.radio, qs);
    LastOnlyAsAsked(g, s.radio, LastScreen(qs), LastSwitch(qs), LastNative(qs, None));
  }

  lemma {:induction false} LastOnlyAsAsked(g: Setting, r: Radio, screen: Option<int>, switch: Option<Request>,
                                           native: Option<int>)
    requires AllAccepted(g, r) && (switch.Some? ==> !switch.value.Screen?)
    ensures var t := LastOnly(g, r, screen, switch, native);
            match switch
            case Some(Enable(p, _)) => Discovers(g, t, p, AskedFor(g, p, native))
            case Some(_) => r.discovery ==> Rests(t, g.seSelected || screen == Some(SCREEN_LOCKED))
            case None => t.discovery == r.discovery && t.polling == r.polling && t.p2p == r.p2p
  {
    ScreenOnly(g, r, screen);
    var r1 := if screen.Some? && screen.value != SCREEN_DEFAULT then ChangeScreen(g, r, screen.value) else r;
    match switch {
      case Some(Enable(p, _)) => EnableReplayed(g, r1, p, native);
      case Some(Disable) => if r.discovery { DisableReplayed(g, r1, screen == Some(SCREEN_LOCKED)); }
      case _ =>
    }
  }

  lemma {:induction false} DisableSendsMore(g: Setting, r: Radio)
    ensures |TurnOff(g, r).log| >= |r.log|
  {
  }

  // ---- what holds throughout ----

  /** Is the RF interface locked?  None once it has been locked or unlocked twice in a row. */
  function Locked(log: seq<Command>): Option<bool> {
    if log == [] then Some(false)
    else
      var before := Locked(log[..|log| - 1]);
      match log[|log| - 1]
      case LockRfInterface => if before == Some(false) then Some(true) else None
      case UnlockRfInterface => if before == Some(true) then Some(false) else None
      case _ => before
  }

  /** What the stack was last told of RF discovery and accepted */
  ghost function AcceptedRf(g: Setting, log: seq<Command>): bool {
    if log == [] then false
    else if log[|log| - 1].RfDiscovery? && g.ok(|log| - 1) then log[|log| - 1].on
    else AcceptedRf(g, log[..|log| - 1])
  }

  /** The UICC is never told what to listen for without having been told to stop just before. */
  predicate StoppedFirst(log: seq<Command>) {
    log == []
    || (StoppedFirst(log[..|log| - 1])
        && var n := |log| - 1; log[n].UiccListen? && log[n].mask != 0 ==> n > 0 && log[n - 1] == UiccListen(0))
  }

  ghost predicate Orderly(g: Setting, r: Radio, locked: bool) {
    Locked(r.log) == Some(locked) && r.rf == AcceptedRf(g, r.log) && StoppedFirst(r.log)
  }

  predicate Harmless(c: Command) {
    !c.LockRfInterface? && !c.UnlockRfInterface? && !c.RfDiscovery? && (c.UiccListen? ==> c.mask == 0)
  }

  lemma {:induction false} HarmlessInLog(g: Setting, log: seq<Command>, c: Command)
    requires Harmless(c)
    ensures Locked(log + [c]) == Locked(log) && AcceptedRf(g, log + [c]) == AcceptedRf(g, log)
    ensures StoppedFirst(log) ==> StoppedFirst(log + [c])
  {
    assert (log + [c])[..|log|] == log;
  }

  lemma {:induction false} SendKeeps(g: Setting, r: Radio, c: Command, locked: bool)
    requires Orderly(g, r, locked) && Harmless(c)
    ensures Orderly(g, Send(r, c), locked)
  {
    HarmlessInLog(g, r.log, c);
  }

  lemma {:induction false} LockInLog(g: Setting, log: seq<Command>)
    ensures Locked(log) == Some(false) ==> Locked(log + [LockRfInterface]) == Some(true)
    ensures AcceptedRf(g, log + [LockRfInterface]) == AcceptedRf(g, log)
    ensures StoppedFirst(log) ==> StoppedFirst(log + [LockRfInterface])
  {
    assert (log + [LockRfInterface])[..|log|] == log;
  }

  lemma {:induction false} UnlockInLog(g: Setting, log: seq<Command>)
    ensures Locked(log) == Some(true) ==> Locked(log + [UnlockRfInterface]) == Some(false)
    ensures AcceptedRf(g, log + [UnlockRfInterface]) == AcceptedRf(g, log)
    ensures StoppedFirst(log) ==> StoppedFirst(log + [UnlockRfInterface])
  {
    assert (log + [UnlockRfInterface])[..|log|] == log;
  }

  lemma {:induction false} LockTurns(g: Setting, r: Radio, locked: bool)
    requires Orderly(g, r, locked)
    ensures Orderly(g, Send(r, if locked then UnlockRfInterface else LockRfInterface), !locked)
  {
    if locked { UnlockInLog(g, r.log); } else { LockInLog(g, r.log); }
  }

  lemma {:induction false} RfKeeps(g: Setting, r: Radio, on: bool, locked: bool)
    requires Orderly(g, r, locked)
    ensures Orderly(g, StartRf(g, r, on), locked)
  {
    assert (r.log + [RfDiscovery(on)])[..|r.log|] == r.log;
  }

  lemma {:induction false} UiccKeeps(g: Setting, r: Radio, mask: int, locked: bool)
    requires Orderly(g, r, locked)
    ensures Orderly(g, RestartUicc(r, mask), locked)
  {
    var r1 := Send(r, UiccListen(0));
    SendKeeps(g, r, UiccListen(0), locked);
    assert (r1.log + [UiccListen(mask)])[..|r1.log|] == r1.log;
  }

  lemma {:induction false} ReaderKeeps(g: Setting, r: Radio, on: bool, ms: int, locked: bool)
    requires Orderly(g, r, locked)
    ensures Orderly(g, SwitchReader(r, on, ms), locked)
  {
    var r1 := Send(r.(reader := on), ReaderMode(on));
    var r2 := Send(r1, HalReaderMode(on));
    SendKeeps(g, r.(reader := on), ReaderMode(on), locked);
    SendKeeps(g, r1, HalReaderMode(on), locked);
    SendKeeps(g, r2, Listening(!on), locked);
    SendKeeps(g, Send(r2, Listening(!on)), DiscoveryDuration(ms), locked);
  }

  lemma {:induction false} P2pKeeps(g: Setting, r: Radio, on: bool, locked: bool)
    requires Orderly(g, r, locked)
    ensures Orderly(g, Send(Send(r.(p2p := on), P2pListening(on)), ResumeP2p(on)), locked)
  {
    SendKeeps(g, r.(p2p := on), P2pListening(on), locked);
    SendKeeps(g, Send(r.(p2p := on), P2pListening(on)), ResumeP2p(on), locked);
  }

  lemma {:induction false} ModesKeep(g: Setting, r: Radio, p: Params, locked: bool)
    requires Orderly(g, r, locked)
    ensures Orderly(g, SwitchModes(g, r, p), locked)
  {
    if p.p2p != r.p2p { P2pKeeps(g, r, p.p2p, locked); }
    var r1 := if p.p2p != r.p2p then Send(Send(r.(p2p := p.p2p), P2pListening(p.p2p)), ResumeP2p(p.p2p)) else r;
    ReaderKeeps(g, r1, true, READER_MODE_DISCOVERY_DURATION, locked);
    ReaderKeeps(g, r1, false, g.duration, locked);
    UiccKeeps(g, r1, g.uiccOn, locked);
  }

  lemma {:induction false} BeforeModesKeeps(g: Setting, r: Radio, p: Params, mask: int, locked: bool)
    requires Orderly(g, r, locked)
    ensures Orderly(g, BeforeModes(g, r, p, mask), locked)
  {
    var r0 := Send(r, P2pListening(false));
    var r1 := StopPolling(g, r0);
    SendKeeps(g, r, P2pListening(false), locked);
    SendKeeps(g, r0, DisablePolling, locked);
    SendKeeps(g, r1, LowPowerTagDetection(p.lptd), locked);
    SendKeeps(g, Send(r1, LowPowerTagDetection(p.lptd)), EnablePolling(mask), locked);
  }

  lemma {:induction false} PollingKeeps(g: Setting, r: Radio, p: Params, mask: int, locked: bool)
    requires Orderly(g, r, locked)
    ensures Orderly(g, ConfigurePolling(g, r, p, mask), locked)
  {
    BeforeModesKeeps(g, r, p, mask, locked);
    ModesKeep(g, BeforeModes(g, r, p, mask), p, locked);
    SendKeeps(g, r, DisablePolling, locked);
  }

  lemma {:induction false} ListeningKeeps(g: Setting, r: Radio, mask: int, locked: bool)
    requires Orderly(g, r, locked)
    ensures Orderly(g, ConfigureListening(g, r, mask), locked)
  {
    SendKeeps(g, r, P2pListening(r.screen == SCREEN_UNLOCKED), locked);
    UiccKeeps(g, Send(r, P2pListening(r.screen == SCREEN_UNLOCKED)), g.uiccOn, locked);
  }

  lemma {:induction false} ReconfigureKeeps(g: Setting, r: Radio, p: Params, mask: int)
    requires Orderly(g, r, true)
    ensures Orderly(g, Reconfigure(g, r, p, mask), true)
  {
    RfKeeps(g, r, false, true);
    var r1 := ConfigurePolling(g, StopIfRunning(g, r), p, mask);
    PollingKeeps(g, StopIfRunning(g, r), p, mask, true);
    ListeningKeeps(g, r1, mask, true);
    RfKeeps(g, ConfigureListening(g, r1, mask), true, true);
    SendKeeps(g, StartRf(g, ConfigureListening(g, r1, mask), true).(discovery := true), ModeOnDiscovery, true);
  }

  lemma {:induction false} TurnOnKeeps(g: Setting, r: Radio, p: Params, native: Option<int>)
    requires Orderly(g, r, false)
    ensures Orderly(g, TurnOn(g, r, p, native), false)
  {
    LockTurns(g, r, false);
    SendKeeps(g, Send(r, LockRfInterface), FullPower, true);
    var r1 := Send(Send(r, LockRfInterface), FullPower);
    ReconfigureKeeps(g, r1, p, Mask(g, p, native));
    LockTurns(g, Reconfigure(g, r1, p, Mask(g, p, native)), true);
  }

  lemma {:induction false} SeKeeps(g: Setting, r: Radio, locked: bool)
    requires Orderly(g, r, locked)
    ensures Orderly(g, ListenForSe(g, r), locked)
  {
    var r1 := RestartUicc(r, g.uiccOff);
    UiccKeeps(g, r, g.uiccOff, locked);
    SendKeeps(g, r1, P2pListening(false), locked);
    RfKeeps(g, Send(r1, P2pListening(false)), true, locked);
  }

  lemma {:induction false} StopKeeps(g: Setting, r: Radio)
    requires Orderly(g, r, true)
    ensures Orderly(g, StopAll(g, r), true)
  {
    RfKeeps(g, r, false, true);
    SendKeeps(g, StartRf(g, r, false), DisablePolling, true);
    var r1 := Halt(g, r).(discovery := false);
    SendKeeps(g, r1, P2pListening(false), true);
    SeKeeps(g, Send(r1, P2pListening(false)), true);
    SendKeeps(g, ListenForSe(g, Send(r1, P2pListening(false))).(p2p := false), ResetRfField, true);
  }

  lemma {:induction false} TurnOffKeeps(g: Setting, r: Radio)
    requires Orderly(g, r, false)
    ensures Orderly(g, TurnOff(g, r), false)
  {
    var r1 := Send(r, AbortInterop);
    SendKeeps(g, r, AbortInterop, false);
    LockTurns(g, r1, false);
    StopKeeps(g, Send(r1, LockRfInterface));
    LockTurns(g, StopAll(g, Send(r1, LockRfInterface)), true);
  }

  lemma {:induction false} AnnouncingKeeps(g: Setting, r: Radio, state: int)
    requires Orderly(g, r, true)
    ensures Orderly(g, ScreenCommands(g, r, state), true)
  {
    SendKeeps(g, r, DisablePolling, true);
    var r1 := Darkened(r, state);
    if g.autonomous.Some? {
      SendKeeps(g, r1, AutonomousMode(state, g.autonomous.value), true);
      SendKeeps(g, Send(r1, AutonomousMode(state, g.autonomous.value)), SetScreen(state), true);
    } else {
      SendKeeps(g, r1, SetScreen(state), true);
    }
  }

  lemma {:induction false} SwitchingKeeps(g: Setting, r: Radio, state: int)
    requires Orderly(g, r, true)
    ensures Orderly(g, SwitchScreen(g, r, state), true)
  {
    RfKeeps(g, r, false, true);
    AnnouncingKeeps(g, StopIfRunning(g, r), state);
    RfKeeps(g, ScreenCommands(g, StopIfRunning(g, r), state), true, true);
  }

  lemma {:induction false} ScreenKeeps(g: Setting, r: Radio, state: int)
    requires Orderly(g, r, false)
    ensures Orderly(g, ChangeScreen(g, r, state), false)
  {
    var r1 := Send(r, LockRfInterface);
    LockTurns(g, r, false);
    SwitchingKeeps(g, r1, state);
    LockTurns(g, r1, true);
    LockTurns(g, SwitchScreen(g, r1, state), true);
  }

  lemma {:induction false} SessionKeeps(g: Setting, r: Radio, mask: int, src: int)
    requires Orderly(g, r, false)
    ensures Orderly(g, PollForSession(g, r, mask), false) && Orderly(g, ClearForSession(g, r, src), false)
  {
    var r1 := Send(r, DisablePolling);
    SendKeeps(g, r, DisablePolling, false);
    SendKeeps(g, r1, EnablePolling(mask), false);
    RfKeeps(g, Send(r1, EnablePolling(mask)), true, false);
    var r2 := StartRf(g, r, false);
    RfKeeps(g, r, false, false);
    SendKeeps(g, r2, P2pListening(false), false);
    SendKeeps(g, Send(r2, P2pListening(false)), SeListen(src, 0), false);
  }

  lemma {:induction false} EnableKeeps(g: Setting, session: Session, s: Sys, p: Params, native: Option<int>)
    requires Orderly(g, s.radio, false)
    ensures Orderly(g, DoIn(g, session, s, Enable(p, native)).radio, false)
  {
    TurnOnKeeps(g, s.radio, p, native);
    if session.Started? { SessionKeeps(g, s.radio, session.mask, 0); }
  }

  lemma {:induction false} DisableKeeps(g: Setting, session: Session, s: Sys)
    requires Orderly(g, s.radio, false)
    ensures Orderly(g, DoIn(g, session, s, Disable).radio, false)
  {
    TurnOffKeeps(g, s.radio);
    RfKeeps(g, s.radio, false, false);
    if session.StartInProgress? { SessionKeeps(g, s.radio, 0, session.src); }
  }

  lemma {:induction false} RequestKeeps(g: Setting, session: Session, s: Sys, q: Request)
    requires Orderly(g, s.radio, false)
    ensures Orderly(g, DoIn(g, session, s, q).radio, false)
  {
    match q {
      case Enable(p, native) => EnableKeeps(g, session, s, p, native);
      case Disable => DisableKeeps(g, session, s);
      case Screen(state) => ScreenKeeps(g, s.radio, state);
    }
  }

  lemma {:induction false} ReplayKeeps(g: Setting, session: Session, s: Sys, read: Read)
    requires Orderly(g, s.radio, false)
    ensures Orderly(g, ReplaySwitch(g, session, s, read).radio, false)
  {
    if read.request == REQUEST_ENABLE {
      var cleared := s.(radio := s.radio.(discovery := false, polling := false));
      EnableKeeps(g, session, cleared, s.buffer.params, s.buffer.native);
    } else if read.request == REQUEST_DISABLE {
      DisableKeeps(g, session, s);
    }
  }

  lemma {:induction false} CleanUpKeeps(g: Setting, session: Session, s: Sys, read: Read)
    requires Orderly(g, s.radio, false)
    ensures Orderly(g, EndIn(g, session, s, read).radio, false)
  {
    var s1 := ReplayScreen(g, s, read);
    RequestKeeps(g, NoSession, s, Screen(read.screen));
    ReplayKeeps(g, session, s1, read);
    RfKeeps(g, ReplaySwitch(g, session, s1, read).radio, true, false);
  }

  /** Requests in any reader session, transactions, and the two parts of the clean-up thread, in any order */
  datatype Event =
    | Asks(session: Session, request: Request)
    | TransactionBegins
    | CleanUpBegins
    | CleanUpEnds(session: Session, read: Read)

  function Happens(g: Setting, s: Sys, e: Event): Sys {
    match e
    case Asks(session, q) => DoIn(g, session, s, q)
    case TransactionBegins => s.(buffer := s.buffer.(inProgress := true))
    case CleanUpBegins => Begin(s).0
    case CleanUpEnds(session, read) => EndIn(g, session, s, read)
  }

  function HappenAll(g: Setting, s: Sys, es: seq<Event>): Sys {
    if es == [] then s else Happens(g, HappenAll(g, s, es[..|es| - 1]), es[|es| - 1])
  }

  const NEW := Sys(Radio(false, false, false, false, false, SCREEN_DEFAULT, []), EMPTY, false)

  /** After any requests, transactions and clean-ups, whatever the stack accepts: every lock of the RF interface has
      been followed by one unlock before the next, the manager's flag for RF discovery is what the stack was last told
      and accepted, and no UICC has been told what to listen for without being told to stop first. */
  lemma {:induction false} RadioIsOrderly(g: Setting, es: seq<Event>)
    ensures Orderly(g, HappenAll(g, NEW, es).radio, false)
    decreases |es|
  {
    if es == [] {
    } else {
      var s, e := HappenAll(g, NEW, es[..|es| - 1]), es[|es| - 1];
      RadioIsOrderly(g, es[..|es| - 1]);
      match e {
        case Asks(session, q) => RequestKeeps(g, session, s, q);
        case CleanUpEnds(session, read) => CleanUpKeeps(g, session, s, read);
        case _ =>
      }
    }
  }
}
