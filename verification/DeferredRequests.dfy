/** Enabling and disabling discovery and setting the screen state, in NativeNfcManager: while a transaction is
    in progress a request is only remembered, and the clean-up thread replays what is remembered.  Commands to
    the stack, and the RF interface mutex around them, go into a log; whether the stack accepts the n-th entry is
    given by `ok`. */
module DeferredRequests {
  import opened Options

  const SCREEN_DEFAULT := 0
  const SCREEN_OFF := 1
  const SCREEN_LOCKED := 2
  const SCREEN_UNLOCKED := 3

  const NO_REQUEST := 0
  const REQUEST_ENABLE := 1
  const REQUEST_DISABLE := 2

  datatype Command =
    | RfDiscovery(on: bool)
    | EnablePolling(mask: int)
    | DisablePolling
    | SetScreen(state: int)
    | LowPowerTagDetection(on: bool)
    | P2pListening(on: bool)
    | ResumeP2p(on: bool)
    | ReaderMode(on: bool)
    | Listening(on: bool)
    | UiccListen(mask: int)
    | SeListen(src: int, mask: int)
    | FullPower
    | ModeOnDiscovery
    | ResetRfField
    | HalReaderMode(on: bool)
    | DiscoveryDuration(ms: int)
    | AutonomousMode(state: int, standby: int)
    | AbortInterop
    | LockRfInterface
    | UnlockRfInterface

  const READER_MODE_DISCOVERY_DURATION := 200

  /** discovery_Parameters_t */
  datatype Params = Params(mask: int, lptd: bool, reader: bool, hostRouting: bool, p2p: bool, restart: bool)

  const NO_PARAMS := Params(0, false, false, false, false, false)

  /** What a request may change for the outside: the manager's flags and the commands sent. */
  datatype Radio = Radio(discovery: bool, polling: bool, rf: bool, p2p: bool, reader: bool, screen: int,
                         log: seq<Command>)

  /** The deferral part of transaction_data; `native` is the technology mask of the native data, if there is any. */
  datatype Buffer = Buffer(inProgress: bool, request: int, screen: int, native: Option<int>, params: Params)

  const EMPTY := Buffer(false, NO_REQUEST, SCREEN_DEFAULT, None, NO_PARAMS)

  datatype Sys = Sys(radio: Radio, buffer: Buffer, pendingScreen: bool)

  /** What does not change meanwhile: NFA on and not being disabled, a secure element selected, the
      configured UICC listen masks (under 0xC7 when enabling, under 0x07 when disabling), DEFAULT_TECH_MASK, the
      native data's discovery duration, the standby value of the autonomous mode when that is configured, and the
      stack's answers. */
  datatype Setting = Setting(enabled: bool, disabling: bool, seSelected: bool, uiccOn: int, uiccOff: int,
                             defaultMask: int,
                             duration: int, autonomous: Option<int>, ok: nat -> bool)

  datatype Request = Enable(params: Params, native: Option<int>) | Disable | Screen(state: int)

  // ---- the operations on the radio ----

  function Send(r: Radio, c: Command): Radio { r.(log := r.log + [c]) }

  /** Does the stack accept the next command? */
  predicate Accepts(g: Setting, r: Radio) { g.ok(|r.log|) }

  /** startRfDiscovery */
  function StartRf(g: Setting, r: Radio, on: bool): Radio {
    Send(r, RfDiscovery(on)).(rf := if Accepts(g, r) then on else r.rf)
  }

  function StopIfRunning(g: Setting, r: Radio): Radio { if r.rf then StartRf(g, r, false) else r }

  function StartPolling(g: Setting, r: Radio, mask: int): Radio {
    Send(r, EnablePolling(mask)).(polling := Accepts(g, r) || r.polling)
  }

  function StopPolling(g: Setting, r: Radio): Radio {
    Send(r, DisablePolling).(polling := !Accepts(g, r) && r.polling)
  }

  function RestartUicc(r: Radio, mask: int): Radio { Send(Send(r, UiccListen(0)), UiccListen(mask)) }

  function SwitchReader(r: Radio, on: bool, ms: int): Radio {
    Send(Send(Send(Send(r.(reader := on), ReaderMode(on)), HalReaderMode(on)), Listening(!on)), DiscoveryDuration(ms))
  }

  /** The P2P and reader-mode part of enabling, once polling runs */
  function SwitchModes(g: Setting, r: Radio, p: Params): Radio {
    var r1 :=
      if p.p2p && !r.p2p then Send(Send(r.(p2p := true), P2pListening(true)), ResumeP2p(true))
      else if !p.p2p && r.p2p then Send(Send(r.(p2p := false), P2pListening(false)), ResumeP2p(false))
      else r;
    if p.reader && !r.reader then SwitchReader(r1, true, READER_MODE_DISCOVERY_DURATION)
    else if !p.reader && r.reader then SwitchReader(r1, false, g.duration)
    else RestartUicc(r1, g.uiccOn)
  }

  function Mask(g: Setting, p: Params, native: Option<int>): int {
    if p.mask != -1 then p.mask else if native.Some? then native.value else g.defaultMask
  }

  function ConfigurePolling(g: Setting, r: Radio, p: Params, mask: int): Radio {
    if mask != 0 then
      var r1 := StopPolling(g, Send(r, P2pListening(false)));
      var r2 := StartPolling(g, Send(r1, LowPowerTagDetection(p.lptd)), mask);
      if r2.polling then SwitchModes(g, r2, p) else r2
    else StopPolling(g, r)
  }

  function ConfigureListening(g: Setting, r: Radio, mask: int): Radio {
    if r.discovery || mask == 0 then RestartUicc(Send(r, P2pListening(r.screen == SCREEN_UNLOCKED)), g.uiccOn) else r
  }

  /** enableDiscovery outside a transaction */
  function TurnOn(g: Setting, r: Radio, p: Params, native: Option<int>): Radio {
    if r.discovery && !p.restart then r
    else Send(Reconfigure(g, Send(Send(r, LockRfInterface), FullPower), p, Mask(g, p, native)), UnlockRfInterface)
  }

  /** ... with the RF interface locked */
  function Reconfigure(g: Setting, r: Radio, p: Params, mask: int): Radio {
    var r1 := ConfigurePolling(g, StopIfRunning(g, r), p, mask);
    var r2 := StartRf(g, ConfigureListening(g, r1, mask), true);
    Send(r2.(discovery := true), ModeOnDiscovery)
  }

  function StopIfPolling(g: Setting, r: Radio): Radio { if r.polling then StopPolling(g, r) else r }

  /** Card emulation goes on for a selected secure element. */
  function ListenForSe(g: Setting, r: Radio): Radio {
    if g.seSelected then StartRf(g, Send(RestartUicc(r, g.uiccOff), P2pListening(false)), true) else r
  }

  /** disableDiscovery outside a transaction */
  function TurnOff(g: Setting, r: Radio): Radio {
    var r1 := Send(r, AbortInterop);
    if !r.discovery then r1 else Send(StopAll(g, Send(r1, LockRfInterface)), UnlockRfInterface)
  }

  /** ... with the RF interface locked */
  function StopAll(g: Setting, r: Radio): Radio {
    var r1 := ListenForSe(g, Send(Halt(g, r).(discovery := false), P2pListening(false)));
    Send(r1.(p2p := false), ResetRfField)
  }

  function Halt(g: Setting, r: Radio): Radio { StopIfPolling(g, StartRf(g, r, false)) }

  /** doSetScreenState outside a transaction */
  function ChangeScreen(g: Setting, r: Radio, state: int): Radio {
    if r.screen == state then r
    else
      var r1 := Send(r, LockRfInterface);
      Send(if state != SCREEN_DEFAULT then SwitchScreen(g, r1, state) else r1, UnlockRfInterface)
  }

  /** ... with the RF interface locked */
  function SwitchScreen(g: Setting, r: Radio, state: int): Radio {
    var r1 := ScreenCommands(g, StopIfRunning(g, r), state);
    var r2 := if KeepsDiscovering(g, r.screen, state) then StartRf(g, r1, true) else r1;
    r2.(screen := state)
  }

  function ScreenCommands(g: Setting, r: Radio, state: int): Radio {
    var r1 := if state == SCREEN_LOCKED || state == SCREEN_OFF then Send(r, DisablePolling) else r;
    Send(if g.autonomous.Some? then Send(r1, AutonomousMode(state, g.autonomous.value)) else r1, SetScreen(state))
  }

  predicate KeepsDiscovering(g: Setting, before: int, state: int) {
    (before == SCREEN_OFF && state == SCREEN_LOCKED) || (before == SCREEN_LOCKED && state == SCREEN_OFF && g.seSelected)
  }

  // ---- during an ETSI reader session ----

  /** RoutingManager's reader state (PN548C2 with a secure element), with what the session asks for */
  datatype Session = NoSession | StartInProgress(src: int) | Started(mask: int) | StopInProgress

  /** enableDiscovery once a session has started: polling for the session's own technologies */
  function PollForSession(g: Setting, r: Radio, mask: int): Radio {
    StartRf(g, Send(Send(r, DisablePolling), EnablePolling(mask)), true)
  }

  /** disableDiscovery while one starts */
  function ClearForSession(g: Setting, r: Radio, src: int): Radio {
    Send(Send(StartRf(g, r, false), P2pListening(false)), SeListen(src, 0))
  }

  /** A request while no transaction is in progress.  One to enable during a started session marks a transaction as in
      progress. */
  function DoNow(g: Setting, session: Session, s: Sys, q: Request): Sys {
    match q
    case Enable(p, native) =>
      if session.Started? then
        s.(radio := PollForSession(g, s.radio, session.mask), buffer := s.buffer.(inProgress := true))
      else s.(radio := TurnOn(g, s.radio, p, native))
    case Disable =>
      s.(radio := match session
                  case StartInProgress(src) => ClearForSession(g, s.radio, src)
                  case StopInProgress => StartRf(g, s.radio, false)
                  case _ => TurnOff(g, s.radio))
    case Screen(state) => s.(radio := ChangeScreen(g, s.radio, state))
  }

  // ---- requests, deferred or not ----

  function DoIn(g: Setting, session: Session, s: Sys, q: Request): Sys {
    if q.Screen? && (g.disabling || !g.enabled) then s
    else if s.buffer.inProgress then Remember(s, q)
    else DoNow(g, session, s, q)
  }

  function Remember(s: Sys, q: Request): Sys {
    match q
    case Enable(p, native) =>
      s.(buffer := s.buffer.(request := REQUEST_ENABLE, params := p,
                             native := if native.Some? then native else s.buffer.native))
    case Disable => s.(buffer := s.buffer.(request := REQUEST_DISABLE))
    case Screen(state) => s.(buffer := s.buffer.(screen := state), pendingScreen := true)
  }

  /** A request outside a session */
  function Do(g: Setting, s: Sys, q: Request): Sys { DoIn(g, NoSession, s, q) }

  function DoAll(g: Setting, s: Sys, qs: seq<Request>): Sys {
    if qs == [] then s else Do(g, DoAll(g, s, qs[..|qs| - 1]), qs[|qs| - 1])
  }

  // ---- the clean-up thread, in its two parts ----

  /** What the thread has read when it begins */
  datatype Read = Read(request: int, screen: int)

  function Begin(s: Sys): (Sys, Read) {
    (s.(buffer := s.buffer.(inProgress := false)), Read(s.buffer.request, s.buffer.screen))
  }

  function ReplayScreen(g: Setting, s: Sys, read: Read): Sys {
    if read.screen != SCREEN_DEFAULT then Do(g, s, Screen(read.screen)) else s
  }

  function ReplaySwitch(g: Setting, session: Session, s: Sys, read: Read): Sys {
    if read.request == REQUEST_ENABLE then
      var cleared := s.(radio := s.radio.(discovery := false, polling := false));
      DoIn(g, session, cleared, Enable(s.buffer.params, s.buffer.native))
    else if read.request == REQUEST_DISABLE then DoIn(g, session, s, Disable)
    else s
  }

  function EndIn(g: Setting, session: Session, s: Sys, read: Read): Sys {
    if !g.enabled || g.disabling then s
    else
      var s1 := ReplaySwitch(g, session, ReplayScreen(g, s, read), read);
      var s2 := if read.screen == SCREEN_LOCKED && read.request == REQUEST_DISABLE
                then s1.(radio := StartRf(g, s1.radio, true)) else s1;
      s2.(buffer := EMPTY)
  }

  /** ... outside a session */
  function End(g: Setting, s: Sys, read: Read): Sys { EndIn(g, NoSession, s, read) }

  /** The thread with nothing in between */
  function Replay(g: Setting, s: Sys): Sys {
    var (s1, read) := Begin(s);
    End(g, s1, read)
  }

  // ---- the last requests of a sequence ----

  function LastSwitch(qs: seq<Request>): Option<Request> {
    if qs == [] then None
    else if qs[|qs| - 1].Screen? then LastSwitch(qs[..|qs| - 1]) else Some(qs[|qs| - 1])
  }

  function LastScreen(qs: seq<Request>): Option<int> {
    if qs == [] then None
    else if qs[|qs| - 1].Screen? then Some(qs[|qs| - 1].state) else LastScreen(qs[..|qs| - 1])
  }

  /** The native data given with the last enable that brought any */
  function LastNative(qs: seq<Request>, native: Option<int>): Option<int> {
    if qs == [] then native
    else if qs[|qs| - 1].Enable? && qs[|qs| - 1].native.Some? then qs[|qs| - 1].native
    else LastNative(qs[..|qs| - 1], native)
  }

  /** What the last requests alone do, one after the other, to the radio: the screen first; an enable from
      cleared discovery and polling flags; and discovery started again after a lock and a disable. */
  function LastOnly(g: Setting, r: Radio, screen: Option<int>, switch: Option<Request>, native: Option<int>): Radio {
    var r1 := if screen.Some? && screen.value != SCREEN_DEFAULT then ChangeScreen(g, r, screen.value) else r;
    match switch
    case None => r1
    case Some(Disable) =>
      var r2 := TurnOff(g, r1);
      if screen == Some(SCREEN_LOCKED) then StartRf(g, r2, true) else r2
    case Some(Enable(p, _)) => TurnOn(g, r1.(discovery := false, polling := false), p, native)
    case Some(Screen(_)) => r1
  }

  /** While a transaction is in progress no request reaches the radio: the flags stay, and nothing is sent.
      What is remembered is the last of each kind. */
  lemma {:induction false} DeferredRequestsAreRemembered(g: Setting, s: Sys, qs: seq<Request>)
    requires g.enabled && !g.disabling && s.buffer.inProgress
    ensures var t := DoAll(g, s, qs);
            && t.radio == s.radio && t.buffer.inProgress
            && t.buffer.screen == (if LastScreen(qs).Some? then LastScreen(qs).value else s.buffer.screen)
            && t.buffer.native == LastNative(qs, s.buffer.native)
            && (match LastSwitch(qs)
                case None => t.buffer.request == s.buffer.request && t.buffer.params == s.buffer.params
                case Some(Enable(p, _)) => t.buffer.request == REQUEST_ENABLE && t.buffer.params == p
                case Some(_) => t.buffer.request == REQUEST_DISABLE)
            && t.pendingScreen == (s.pendingScreen || LastScreen(qs).Some?)
    decreases |qs|
  {
    if qs == [] {
    } else {
      DeferredRequestsAreRemembered(g, s, qs[..|qs| - 1]);
    }
  }

  lemma {:induction false} LastSwitchIsNoScreen(qs: seq<Request>)
    ensures LastSwitch(qs).Some? ==> !LastSwitch(qs).value.Screen?
    decreases |qs|
  {
    if qs == [] {
    } else {
      LastSwitchIsNoScreen(qs[..|qs| - 1]);
    }
  }

  /** Deferred requests coalesce: whatever was asked for while the transaction was in progress, the replay does
      to the radio what the last screen request and then the last enable or disable do, and leaves nothing
      remembered. */
  lemma {:induction false} ReplayIsLastRequestsOnly(g: Setting, s: Sys, qs: seq<Request>)
    requires g.enabled && !g.disabling && s.buffer == EMPTY.(inProgress := true)
    ensures var t := Replay(g, DoAll(g, s, qs));
            && t.radio == LastOnly(g, s.radio, LastScreen(qs), LastSwitch(qs), LastNative(qs, None))
            && t.buffer == EMPTY
  {
    DeferredRequestsAreRemembered(g, s, qs);
    LastSwitchIsNoScreen(qs);
  }

  /** During a started reader session one request to enable is acted on, and everything after it, up to the end of the
      next clean-up, is deferred: nothing reaches the radio. */
  lemma {:induction false} SessionDefersTheRest(g: Setting, session: Session, s: Sys, p: Params, native: Option<int>,
                                                qs: seq<Request>)
    requires g.enabled && !g.disabling && !s.buffer.inProgress && session.Started?
    ensures DoAll(g, DoIn(g, session, s, Enable(p, native)), qs).radio == PollForSession(g, s.radio, session.mask)
  {
    DeferredRequestsAreRemembered(g, DoIn(g, session, s, Enable(p, native)), qs);
  }

  // ---- coalescing against doing everything ----

  function LastRealScreen(qs: seq<Request>, screen: int): int {
    if qs == [] then screen
    else if qs[|qs| - 1].Screen? && qs[|qs| - 1].state != SCREEN_DEFAULT then qs[|qs| - 1].state
    else LastRealScreen(qs[..|qs| - 1], screen)
  }

  /** Requests done at once, outside a transaction: the discovery flag follows the last enable or disable, and
      the screen the last request that was not the default. */
  lemma {:induction false} UndeferredFlags(g: Setting, s: Sys, qs: seq<Request>)
    requires g.enabled && !g.disabling && !s.buffer.inProgress
    ensures var t := DoAll(g, s, qs);
            && !t.buffer.inProgress
            && t.radio.discovery == (if LastSwitch(qs).Some? then LastSwitch(qs).value.Enable? else s.radio.discovery)
            && t.radio.screen == LastRealScreen(qs, s.radio.screen)
    decreases |qs|
  {
    if qs == [] {
    } else {
      UndeferredFlags(g, s, qs[..|qs| - 1]);
      FlagsAfter(g, DoAll(g, s, qs[..|qs| - 1]).radio, qs[|qs| - 1]);
    }
  }

  lemma {:induction false} FlagsAfter(g: Setting, r: Radio, q: Request)
    ensures q.Enable? ==>
              TurnOn(g, r, q.params, q.native).discovery && TurnOn(g, r, q.params, q.native).screen == r.screen
    ensures q.Disable? ==> !TurnOff(g, r).discovery && TurnOff(g, r).screen == r.screen
    ensures q.Screen? ==> ChangeScreen(g, r, q.state).discovery == r.discovery
                          && ChangeScreen(g, r, q.state).screen ==
                               if q.state == SCREEN_DEFAULT then r.screen else q.state
  {
    match q {
      case Enable(p, native) => ReconfigureFlags(g, Send(Send(r, LockRfInterface), FullPower), p, Mask(g, p, native));
      case Disable => StopFlags(g, Send(Send(r, AbortInterop), LockRfInterface));
      case Screen(state) => SwitchScreenFlags(g, Send(r, LockRfInterface), state);
    }
  }

  lemma {:induction false} ReconfigureFlags(g: Setting, r: Radio, p: Params, mask: int)
    ensures Reconfigure(g, r, p, mask).discovery && Reconfigure(g, r, p, mask).screen == r.screen
  {
    PollingKeepsScreen(g, StopIfRunning(g, r), p, mask);
  }

  lemma {:induction false} StopFlags(g: Setting, r: Radio)
    ensures !StopAll(g, r).discovery && StopAll(g, r).screen == r.screen
  {
  }

  lemma {:induction false} SwitchScreenFlags(g: Setting, r: Radio, state: int)
    ensures SwitchScreen(g, r, state).discovery == r.discovery && SwitchScreen(g, r, state).screen == state
  {
  }

  lemma {:induction false} ModesKeepScreen(g: Setting, r: Radio, p: Params)
    ensures SwitchModes(g, r, p).screen == r.screen
  {
  }

  lemma {:induction false} PollingKeepsScreen(g: Setting, r: Radio, p: Params, mask: int)
    ensures ConfigurePolling(g, r, p, mask).screen == r.screen
  {
    if mask != 0 {
      var r1 := StopPolling(g, Send(r, P2pListening(false)));
      ModesKeepScreen(g, StartPolling(g, Send(r1, LowPowerTagDetection(p.lptd)), mask), p);
    }
  }

  /** Deferring loses nothing of the discovery flag.  The screen ends as it would have without deferring exactly
      when the last screen request is not the default one, which wipes out what was remembered before it, or
      nothing that differs from the present screen was. */
  lemma {:induction false} DeferringAgainstDoing(g: Setting, s: Sys, qs: seq<Request>)
    requires g.enabled && !g.disabling && s.buffer == EMPTY.(inProgress := true)
    ensures var deferred := Replay(g, DoAll(g, s, qs)).radio;
            var done := DoAll(g, s.(buffer := EMPTY), qs).radio;
            && deferred.discovery == done.discovery
            && (deferred.screen == done.screen <==>
                  (LastScreen(qs).Some? && LastScreen(qs).value != SCREEN_DEFAULT)
                  || LastRealScreen(qs, s.radio.screen) == s.radio.screen)
  {
    ReplayIsLastRequestsOnly(g, s, qs);
    UndeferredFlags(g, s.(buffer := EMPTY), qs);
    LastOnlyFlags(g, s.radio, qs);
    LastScreenIsReal(qs, s.radio.screen);
  }

  lemma {:induction false} LastScreenIsReal(qs: seq<Request>, screen: int)
    ensures LastScreen(qs).Some? && LastScreen(qs).value != SCREEN_DEFAULT ==>
              LastRealScreen(qs, screen) == LastScreen(qs).value
    ensures LastScreen(qs).None? ==> LastRealScreen(qs, screen) == screen
    decreases |qs|
  {
    if qs == [] {
    } else {
      LastScreenIsReal(qs[..|qs| - 1], screen);
    }
  }

  lemma {:induction false} LastOnlyFlags(g: Setting, r: Radio, qs: seq<Request>)
    ensures var u := LastOnly(g, r, LastScreen(qs), LastSwitch(qs), LastNative(qs, None));
            && u.discovery == (if LastSwitch(qs).Some? then LastSwitch(qs).value.Enable? else r.discovery)
            && u.screen == (if LastScreen(qs).Some? && LastScreen(qs).value != SCREEN_DEFAULT
                            then LastScreen(qs).value else r.screen)
  {
    LastSwitchIsNoScreen(qs);
    var r1 := if LastScreen(qs).Some? && LastScreen(qs).value != SCREEN_DEFAULT
              then ChangeScreen(g, r, LastScreen(qs).value) else r;
    if LastScreen(qs).Some? { FlagsAfter(g, r, Screen(LastScreen(qs).value)); }
    match LastSwitch(qs) {
      case None =>
      case Some(Disable) => FlagsAfter(g, r1, Disable);
      case Some(Enable(p, _)) =>
        FlagsAfter(g, r1.(discovery := false, polling := false), Enable(p, LastNative(qs, None)));
      case Some(Screen(_)) =>
    }
  }

  // ---- a transaction that begins during the replay ----

  /** When a transaction begins between the thread's two parts, the replay is deferred into the record and
      zeroed with it: nothing that was remembered, before or since, is done, and no command is sent, except
      that after a lock and a disable discovery is started.  A remembered enable leaves the discovery and
      polling flags cleared. */
  lemma {:induction false} NewTransactionLosesTheReplay(g: Setting, s: Sys, read: Read, qs: seq<Request>)
    requires g.enabled && !g.disabling && s.buffer.inProgress
    ensures var t := End(g, DoAll(g, s, qs), read);
            && t.buffer == EMPTY
            && t.radio == (if read.request == REQUEST_ENABLE then s.radio.(discovery := false, polling := false)
                           else if read.request == REQUEST_DISABLE && read.screen == SCREEN_LOCKED
                           then StartRf(g, s.radio, true)
                           else s.radio)
  {
    DeferredRequestsAreRemembered(g, s, qs);
  }

  // ---- requests between the two parts ----

  /** What the thread remembers of enabling and disabling */
  function Remembered(read: Read): Option<bool> {
    if read.request == REQUEST_ENABLE then Some(true) else if read.request == REQUEST_DISABLE then Some(false) else None
  }

  lemma {:induction false} EndFlags(g: Setting, s: Sys, read: Read)
    requires g.enabled && !g.disabling && !s.buffer.inProgress
    ensures var t := End(g, s, read);
            && t.radio.discovery == (if Remembered(read).Some? then Remembered(read).value else s.radio.discovery)
            && t.radio.screen == (if read.screen != SCREEN_DEFAULT then read.screen else s.radio.screen)
  {
    var s1 := ReplayScreen(g, s, read);
    FlagsAfter(g, s.radio, Screen(read.screen));
    FlagsAfter(g, s1.radio.(discovery := false, polling := false), Enable(s1.buffer.params, s1.buffer.native));
    FlagsAfter(g, s1.radio, Disable);
  }

  /** Requests made after the thread has read what is remembered, while no transaction is in progress, are done at
      once, and the older remembered ones after them.  So the last request does not win: the discovery flag ends as
      it asks exactly when nothing contrary was remembered, and the screen exactly when no other one was. */
  lemma {:induction false} OlderRequestsOverride(g: Setting, s: Sys, read: Read, qs: seq<Request>)
    requires g.enabled && !g.disabling && !s.buffer.inProgress
    ensures var t := End(g, DoAll(g, s, qs), read).radio;
            && (LastSwitch(qs).Some? ==>
                  (t.discovery == LastSwitch(qs).value.Enable? <==>
                     Remembered(read) == None || Remembered(read) == Some(LastSwitch(qs).value.Enable?)))
            && (LastScreen(qs).Some? && LastScreen(qs).value != SCREEN_DEFAULT ==>
                  (t.screen == LastScreen(qs).value <==>
                     read.screen == SCREEN_DEFAULT || read.screen == LastScreen(qs).value))
  {
    UndeferredFlags(g, s, qs);
    EndFlags(g, DoAll(g, s, qs), read);
    LastScreenIsReal(qs, s.radio.screen);
  }

  // ---- the manager itself ----

  class NfcManager {
    const g: Setting
    var discovery: bool
    var polling: bool
    var rf: bool
    var p2p: bool
    var reader: bool
    var screen: int
    var log: seq<Command>
    var inProgress: bool
    var lastRequest: int
    var lastScreen: int
    var native: Option<int>
    var params: Params
    var pendingScreen: bool

    function TheRadio(): Radio
      reads this
    {
      Radio(discovery, polling, rf, p2p, reader, screen, log)
    }

    function Value(): Sys
      reads this
    {
      Sys(TheRadio(), Buffer(inProgress, lastRequest, lastScreen, native, params), pendingScreen)
    }

    constructor (g: Setting)
      ensures this.g == g && Value() == Sys(Radio(false, false, false, false, false, SCREEN_DEFAULT, []), EMPTY, false)
    {
      this.g := g;
      discovery, polling, rf, p2p, reader, screen, log := false, false, false, false, false, SCREEN_DEFAULT, [];
      inProgress, lastRequest, lastScreen, native, params := false, NO_REQUEST, SCREEN_DEFAULT, None, NO_PARAMS;
      pendingScreen := false;
    }

    /** One command to the stack; did it accept? */
    method Command(c: Command) returns (accepted: bool)
      modifies this`log
      ensures TheRadio() == Send(old(TheRadio()), c) && accepted == Accepts(g, old(TheRadio()))
    {
      accepted := g.ok(|log|);
      log := log + [c];
    }

    method StartRfDiscovery(on: bool)
      modifies this`log, this`rf
      ensures TheRadio() == StartRf(g, old(TheRadio()), on)
    {
      var accepted := Command(RfDiscovery(on));
      if accepted {
        rf := on;
      }
    }

    method EnablePollingFor(mask: int)
      modifies this`log, this`polling
      ensures TheRadio() == StartPolling(g, old(TheRadio()), mask)
    {
      var accepted := Command(EnablePolling(mask));
      if accepted {
        polling := true;
      }
    }

    method StopPollingNow()
      modifies this`log, this`polling
      ensures TheRadio() == StopPolling(g, old(TheRadio()))
    {
      var accepted := Command(DisablePolling);
      if accepted {
        polling := false;
      }
    }

    method RestartUiccListening(mask: int)
      modifies this`log
      ensures TheRadio() == RestartUicc(old(TheRadio()), mask)
    {
      var accepted := Command(UiccListen(0));
      accepted := Command(UiccListen(mask));
    }

    method SwitchReaderTo(on: bool, ms: int)
      modifies this`log, this`reader
      ensures TheRadio() == SwitchReader(old(TheRadio()), on, ms)
    {
      reader := on;
      var accepted := Command(ReaderMode(on));
      accepted := Command(HalReaderMode(on));
      accepted := Command(Listening(!on));
      accepted := Command(DiscoveryDuration(ms));
    }

    method SwitchToModes(p: Params)
      modifies this`log, this`p2p, this`reader
      ensures TheRadio() == SwitchModes(g, old(TheRadio()), p)
    {
      var accepted;
      if p.p2p && !p2p {
        p2p := true;
        accepted := Command(P2pListening(true));
        accepted := Command(ResumeP2p(true));
      } else if !p.p2p && p2p {
        p2p := false;
        accepted := Command(P2pListening(false));
        accepted := Command(ResumeP2p(false));
      }
      if p.reader && !reader {
        SwitchReaderTo(true, READER_MODE_DISCOVERY_DURATION);
      } else if !p.reader && reader {
        SwitchReaderTo(false, g.duration);
      } else {
        RestartUiccListening(g.uiccOn);
      }
    }

    method ConfigurePollingFor(p: Params, mask: int)
      modifies this`log, this`polling, this`p2p, this`reader
      ensures TheRadio() == ConfigurePolling(g, old(TheRadio()), p, mask)
    {
      if mask != 0 {
        var accepted := Command(P2pListening(false));
        StopPollingNow();
        accepted := Command(LowPowerTagDetection(p.lptd));
        EnablePollingFor(mask);
        if polling {
          SwitchToModes(p);
        }
      } else {
        StopPollingNow();
      }
    }

    method StopRfIfRunning()
      modifies this`log, this`rf
      ensures TheRadio() == StopIfRunning(g, old(TheRadio()))
    {
      if rf {
        StartRfDiscovery(false);
      }
    }

    method ConfigureListeningFor(mask: int)
      modifies this`log
      ensures TheRadio() == ConfigureListening(g, old(TheRadio()), mask)
    {
      if discovery || mask == 0 {
        var accepted := Command(P2pListening(screen == SCREEN_UNLOCKED));
        RestartUiccListening(g.uiccOn);
      }
    }

    method EnableDiscovery(p: Params, nativeMask: Option<int>, session: Session)
      modifies this
      ensures Value() == DoIn(g, session, old(Value()), Enable(p, nativeMask))
    {
      if inProgress {
        lastRequest := REQUEST_ENABLE;
        if nativeMask.Some? {
          native := nativeMask;
        }
        params := p;
        return;
      }
      if session.Started? {
        PollForReader(session.mask);
        inProgress := true;
        return;
      }
      EnableNow(p, nativeMask);
    }

    method PollForReader(mask: int)
      modifies this`log, this`rf
      ensures TheRadio() == PollForSession(g, old(TheRadio()), mask)
    {
      var accepted := Command(DisablePolling);
      accepted := Command(EnablePolling(mask));
      StartRfDiscovery(true);
    }

    method EnableNow(p: Params, nativeMask: Option<int>)
      modifies this`log, this`rf, this`polling, this`p2p, this`reader, this`discovery
      ensures TheRadio() == TurnOn(g, old(TheRadio()), p, nativeMask)
    {
      if discovery && !p.restart {
        return;
      }
      var accepted := Command(LockRfInterface);
      accepted := Command(FullPower);
      ReconfigureFor(p, Mask(g, p, nativeMask));
      accepted := Command(UnlockRfInterface);
    }

    method ReconfigureFor(p: Params, mask: int)
      modifies this`log, this`rf, this`polling, this`p2p, this`reader, this`discovery
      ensures TheRadio() == Reconfigure(g, old(TheRadio()), p, mask)
    {
      StopRfIfRunning();
      ConfigurePollingFor(p, mask);
      ConfigureListeningFor(mask);
      StartRfDiscovery(true);
      discovery := true;
      var accepted := Command(ModeOnDiscovery);
    }

    method DisableDiscovery(session: Session)
      modifies this
      ensures Value() == DoIn(g, session, old(Value()), Disable)
    {
      if inProgress {
        lastRequest := REQUEST_DISABLE;
        return;
      }
      match session {
        case StartInProgress(src) => ClearForReader(src);
        case StopInProgress => StartRfDiscovery(false);
        case _ => DisableNow();
      }
    }

    method ClearForReader(src: int)
      modifies this`log, this`rf
      ensures TheRadio() == ClearForSession(g, old(TheRadio()), src)
    {
      StartRfDiscovery(false);
      var accepted := Command(P2pListening(false));
      accepted := Command(SeListen(src, 0));
    }

    method DisableNow()
      modifies this`log, this`rf, this`polling, this`p2p, this`discovery
      ensures TheRadio() == TurnOff(g, old(TheRadio()))
    {
      var accepted := Command(AbortInterop);
      if !discovery {
        return;
      }
      accepted := Command(LockRfInterface);
      StopAllNow();
      accepted := Command(UnlockRfInterface);
    }

    method StopAllNow()
      modifies this`log, this`rf, this`polling, this`p2p, this`discovery
      ensures TheRadio() == StopAll(g, old(TheRadio()))
    {
      HaltRf();
      discovery := false;
      var accepted := Command(P2pListening(false));
      ListenForSelectedSe();
      p2p := false;
      accepted := Command(ResetRfField);
    }

    method HaltRf()
      modifies this`log, this`rf, this`polling
      ensures TheRadio() == Halt(g, old(TheRadio()))
    {
      StartRfDiscovery(false);
      StopPollingIfOn();
    }

    method StopPollingIfOn()
      modifies this`log, this`polling
      ensures TheRadio() == StopIfPolling(g, old(TheRadio()))
    {
      if polling {
        StopPollingNow();
      }
    }

    method ListenForSelectedSe()
      modifies this`log, this`rf
      ensures TheRadio() == ListenForSe(g, old(TheRadio()))
    {
      if g.seSelected {
        RestartUiccListening(g.uiccOff);
        var accepted := Command(P2pListening(false));
        StartRfDiscovery(true);
      }
    }

    method DoSetScreenState(state: int)
      modifies this
      ensures Value() == Do(g, old(Value()), Screen(state))
    {
      if g.disabling || !g.enabled {
        return;
      }
      if inProgress {
        lastScreen := state;
        pendingScreen := true;
        return;
      }
      ChangeScreenTo(state);
    }

    method ChangeScreenTo(state: int)
      modifies this`log, this`rf, this`screen
      ensures TheRadio() == ChangeScreen(g, old(TheRadio()), state)
    {
      if screen == state {
        return;
      }
      var accepted := Command(LockRfInterface);
      if state != SCREEN_DEFAULT {
        SwitchScreenTo(state);
      }
      accepted := Command(UnlockRfInterface);
    }

    method SwitchScreenTo(state: int)
      modifies this`log, this`rf, this`screen
      ensures TheRadio() == SwitchScreen(g, old(TheRadio()), state)
    {
      var before := screen;
      StopRfIfRunning();
      AnnounceScreen(state);
      if KeepsDiscovering(g, before, state) {
        StartRfDiscovery(true);
      }
      screen := state;
    }

    /** The commands about the screen itself */
    method AnnounceScreen(state: int)
      modifies this`log
      ensures TheRadio() == ScreenCommands(g, old(TheRadio()), state)
    {
      var accepted;
      if state == SCREEN_LOCKED || state == SCREEN_OFF {
        accepted := Command(DisablePolling);
      }
      if g.autonomous.Some? {
        accepted := Command(AutonomousMode(state, g.autonomous.value));
      }
      accepted := Command(SetScreen(state));
    }

    /** enableThread, up to clearing the flag ... */
    method BeginThread() returns (read: Read)
      modifies this`inProgress
      ensures (Value(), read) == Begin(old(Value()))
    {
      read := Read(lastRequest, lastScreen);
      inProgress := false;
    }

    /** ... and from there to the end */
    method EndThread(read: Read, session: Session)
      modifies this
      ensures Value() == EndIn(g, session, old(Value()), read)
    {
      if !g.enabled || g.disabling {
        return;
      }
      if read.screen != SCREEN_DEFAULT {
        DoSetScreenState(read.screen);
      }
      ReplayLastSwitch(read, session);
      if read.screen == SCREEN_LOCKED && read.request == REQUEST_DISABLE {
        StartRfDiscovery(true);
      }
      inProgress, lastRequest, lastScreen, native, params := false, NO_REQUEST, SCREEN_DEFAULT, None, NO_PARAMS;
    }

    method ReplayLastSwitch(read: Read, session: Session)
      modifies this
      ensures Value() == ReplaySwitch(g, session, old(Value()), read)
    {
      if read.request == REQUEST_ENABLE {
        discovery := false;
        polling := false;
        EnableDiscovery(params, native, session);
      } else if read.request == REQUEST_DISABLE {
        DisableDiscovery(session);
      }
    }
  }
}
