/** PowerSwitch: the power level the driver believes in, the state device management reports, and the bit mask of
    active modes.  A change between full and low power gives the mutex up to wait for a deactivation, and any number
    of other callers may come in there; the stack's callback comes while a request waits for it, with the mutex
    held. */
module PowerSwitches {
  datatype Level = UnknownLevel | FullPower | LowPower | PowerOff

  /** NFA_DM_PWR_STATE_UNKNOWN, NFA_DM_PWR_MODE_FULL, NFA_DM_PWR_MODE_OFF_SLEEP */
  datatype DmState = UnknownState | Full | OffSleep

  const SLEEP_WHEN_SCREEN_OFF := 0
  const FULL_WHEN_SCREEN_OFF := 1

  datatype Power = Power(level: Level, dm: DmState, expected: DmState, desired: int, activity: bv8)

  /** With the number of callers waiting for a deactivation to get to full power, and to low power */
  datatype System = System(p: Power, forFull: nat, forLow: nat)

  const INITIAL := Power(UnknownLevel, UnknownState, UnknownState, 0, 0)
  const START := System(INITIAL, 0, 0)

  /** What the stack does with a request: turns it down, or answers it with a good or a bad status. */
  datatype Answer = Refused | Succeeded | Failed

  datatype Op =
    | Initialize(level: Level, desired: int)
    | SetLevel(level: Level, answer: Answer)
    | Resume(level: Level, answer: Answer)   // a waiting setLevel has the mutex back
    | SetScreenOffState(desired: int)
    | SetModeOn(mode: bv8)
    | SetModeOff(mode: bv8)

  /** deviceManagementCallback, for the request outstanding */
  function CallBack(p: Power, answer: Answer): Power { if answer.Succeeded? then p.(dm := p.expected) else p }

  /** setPowerOffSleepState(true) */
  function Sleep(p: Power, answer: Answer): Power {
    if p.dm.OffSleep? then p
    else
      var q := p.(expected := OffSleep);
      if answer.Refused? then q else CallBack(q, answer).(level := LowPower)
  }

  /** setPowerOffSleepState(false) */
  function WakeUp(p: Power, answer: Answer): Power {
    if p.dm.Full? then p
    else
      var q := p.(dm := UnknownState, expected := Full);
      if answer.Refused? then q
      else
        var r := CallBack(q, answer);
        if r.dm.Full? then r.(level := FullPower) else r
  }

  /** setLevel, from the switch on */
  function Switch(p: Power, level: Level, answer: Answer): Power {
    match level
    case FullPower => if p.dm.OffSleep? then WakeUp(p, answer) else p
    case UnknownLevel => p
    case _ =>
      if p.desired == SLEEP_WHEN_SCREEN_OFF then Sleep(p, answer)
      else if p.desired == FULL_WHEN_SCREEN_OFF then p.(level := FullPower)
      else p
  }

  /** The changes that wait for a deactivation, without the mutex */
  predicate Waits(p: Power, level: Level) {
    (p.level.LowPower? && level.FullPower?) || (p.level.FullPower? && level.LowPower?)
  }

  /** setLevel, until it is done or waits */
  function Ask(p: Power, level: Level, answer: Answer): Power {
    if p.level == level || p.level.UnknownLevel? || Waits(p, level) then p else Switch(p, level, answer)
  }

  function Init(p: Power, level: Level, desired: int): Power {
    var q := p.(desired := desired);
    if level.FullPower? then q.(dm := Full, level := level)
    else if level.UnknownLevel? then q.(dm := UnknownState, level := level)
    else q
  }

  /** The status of a change once it is not waiting: what it takes of the configuration, of device management and of the
      stack's answer for the change to be made */
  predicate Succeeds(p: Power, level: Level, answer: Answer) {
    match level
    case UnknownLevel => false
    case FullPower => p.dm.OffSleep? && answer.Succeeded?
    case _ =>
      if p.desired == SLEEP_WHEN_SCREEN_OFF then !p.dm.OffSleep? && !answer.Refused?
      else p.desired == FULL_WHEN_SCREEN_OFF
  }

  predicate SomeoneWaits(s: System, level: Level) {
    (level.FullPower? && s.forFull > 0) || (level.LowPower? && s.forLow > 0)
  }

  function Do(s: System, op: Op): System {
    match op
    case Initialize(level, desired) => s.(p := Init(s.p, level, desired))
    case SetLevel(level, answer) =>
      var q := Ask(s.p, level, answer);
      if !Waits(s.p, level) then s.(p := q)
      else if level.FullPower? then s.(p := q, forFull := s.forFull + 1)
      else s.(p := q, forLow := s.forLow + 1)
    case Resume(level, answer) =>
      if !SomeoneWaits(s, level) then s
      else
        var q := Switch(s.p, level, answer);
        if level.FullPower? then s.(p := q, forFull := s.forFull - 1) else s.(p := q, forLow := s.forLow - 1)
    case SetScreenOffState(desired) => s.(p := s.p.(desired := desired))
    case SetModeOn(mode) => s.(p := s.p.(activity := s.p.activity | mode))
    case SetModeOff(mode) => s.(p := s.p.(activity := s.p.activity & !mode))
  }

  class PowerSwitch {
    var level: Level
    var dm: DmState
    var expected: DmState
    var desired: int
    var activity: bv8

    function Value(): Power
      reads this
    {
      Power(level, dm, expected, desired, activity)
    }

    constructor ()
      ensures Value() == INITIAL
    {
      level, dm, expected, desired, activity := UnknownLevel, UnknownState, UnknownState, 0, 0;
    }

    method Initialize(newLevel: Level, configured: int)
      modifies this
      ensures Value() == Init(old(Value()), newLevel, configured)
    {
      desired := configured;
      match newLevel {
        case FullPower =>
          dm := Full;
          level := newLevel;
        case UnknownLevel =>
          dm := UnknownState;
          level := newLevel;
        case _ =>
      }
    }

    /** setLevel, up to where it gives the mutex up, or to the end if it does not */
    method ChangeLevel(newLevel: Level, answer: Answer) returns (ok: bool, waits: bool)
      modifies this
      ensures waits <==> Waits(old(Value()), newLevel)
      ensures Value() == Ask(old(Value()), newLevel, answer)
      ensures ok <==> newLevel == old(level)
                      || (!old(level).UnknownLevel? && !waits && Succeeds(old(Value()), newLevel, answer))
      ensures ok ==> level == if newLevel == old(level) || newLevel.FullPower? then newLevel
                              else if old(desired) == SLEEP_WHEN_SCREEN_OFF then LowPower else FullPower
    {
      waits := false;
      if level == newLevel {
        return true, false;
      }
      if level == UnknownLevel {
        return false, false;
      }
      if (level == LowPower && newLevel == FullPower) || (level == FullPower && newLevel == LowPower) {
        return false, true;
      }
      ok := ResumeLevel(newLevel, answer);
    }

    /** ... and the rest, once it has the mutex again */
    method ResumeLevel(newLevel: Level, answer: Answer) returns (ok: bool)
      modifies this
      ensures Value() == Switch(old(Value()), newLevel, answer)
      ensures ok <==> Succeeds(old(Value()), newLevel, answer)
      ensures ok && newLevel.FullPower? ==> level == FullPower && dm == Full
      ensures ok && !newLevel.FullPower? ==>
                level == if old(desired) == SLEEP_WHEN_SCREEN_OFF then LowPower else FullPower
    {
      ok := false;
      match newLevel {
        case FullPower =>
          if dm == OffSleep {
            ok := SetPowerOffSleepState(false, answer);
          }
        case LowPower => ok := LowerLevel(answer);
        case PowerOff => ok := LowerLevel(answer);
        case UnknownLevel =>
      }
    }

    method LowerLevel(answer: Answer) returns (ok: bool)
      modifies this
      ensures Value() == if old(desired) == SLEEP_WHEN_SCREEN_OFF then Sleep(old(Value()), answer)
                         else if old(desired) == FULL_WHEN_SCREEN_OFF then old(Value()).(level := FullPower)
                         else old(Value())
      ensures ok <==> Succeeds(old(Value()), LowPower, answer)
      ensures ok ==> level == if old(desired) == SLEEP_WHEN_SCREEN_OFF then LowPower else FullPower
    {
      ok := false;
      if desired == SLEEP_WHEN_SCREEN_OFF {
        ok := SetPowerOffSleepState(true, answer);
      } else if desired == FULL_WHEN_SCREEN_OFF {
        level := FullPower;
        ok := true;
      }
    }

    method SetPowerOffSleepState(sleep: bool, answer: Answer) returns (ok: bool)
      modifies this
      ensures Value() == if sleep then Sleep(old(Value()), answer) else WakeUp(old(Value()), answer)
      ensures ok <==> if sleep then !old(dm).OffSleep? && !answer.Refused? else !old(dm).Full? && answer.Succeeded?
      ensures ok ==> level == (if sleep then LowPower else FullPower) && (!sleep ==> dm == Full)
    {
      if sleep {
        if dm == OffSleep {
          return false;
        }
        expected := OffSleep;
        if answer == Refused {
          return false;
        }
        DeviceManagementCallback(answer);
        level := LowPower;
      } else {
        if dm == Full {
          return false;
        }
        dm := UnknownState;
        expected := Full;
        if answer == Refused {
          return false;
        }
        DeviceManagementCallback(answer);
        if dm != Full {
          return false;
        }
        level := FullPower;
      }
      return true;
    }

    method DeviceManagementCallback(answer: Answer)
      modifies this
      ensures Value() == CallBack(old(Value()), answer)
    {
      if answer == Succeeded {
        dm := expected;
      }
    }

    method ModeOn(mode: bv8) returns (active: bool)
      modifies this
      ensures Value() == old(Value()).(activity := old(activity) | mode) && active == (activity != 0)
    {
      activity := activity | mode;
      active := activity != 0;
    }

    method ModeOff(mode: bv8) returns (active: bool)
      modifies this
      ensures Value() == old(Value()).(activity := old(activity) & !mode) && active == (activity != 0)
    {
      activity := activity & !mode;
      active := activity != 0;
    }
  }

  // ---- runs ----

  function After(s: System, ops: seq<Op>): System {
    if ops == [] then s else Do(After(s, ops[..|ops| - 1]), ops[|ops| - 1])
  }

  /** Full power is what device management reports too. */
  predicate Agrees(s: System) { s.p.level.FullPower? ==> s.p.dm.Full? }

  /** The operation gets to the switch, to lower the power. */
  predicate Lowers(s: System, op: Op) {
    || (op.SetLevel? && op.level.PowerOff? && !s.p.level.PowerOff? && !s.p.level.UnknownLevel?)
    || (op.Resume? && op.level.LowPower? && SomeoneWaits(s, op.level))
  }

  /** Lowering the power, when full power is what the configuration wants with the screen off, and the controller is
      not known to be awake */
  predicate BadLowering(s: System, op: Op) { Lowers(s, op) && s.p.desired == FULL_WHEN_SCREEN_OFF && !s.p.dm.Full? }

  /** POWER_OFF is asked for, and never believed. */
  predicate Normal(s: System) { !s.p.level.PowerOff? }

  lemma {:induction false} SwitchAgreesExactly(p: Power, level: Level, answer: Answer)
    requires p.level.FullPower? ==> p.dm.Full?
    ensures var q := Switch(p, level, answer);
            (q.level.FullPower? ==> q.dm.Full?)
            <==> !((level.LowPower? || level.PowerOff?) && p.desired == FULL_WHEN_SCREEN_OFF && !p.dm.Full?)
  {
  }

  lemma {:induction false} DoAgreesExactly(s: System, op: Op)
    requires Agrees(s) && Normal(s)
    ensures Agrees(Do(s, op)) <==> !BadLowering(s, op)
    ensures Normal(Do(s, op))
  {
    if op.SetLevel? || op.Resume? {
      SwitchAgreesExactly(s.p, op.level, op.answer);
    }
  }

  predicate AlwaysAgrees(s: System, ops: seq<Op>)
    decreases ops
  {
    Agrees(s) && (ops == [] || AlwaysAgrees(Do(s, ops[0]), ops[1..]))
  }

  predicate NeverBadLowering(s: System, ops: seq<Op>)
    decreases ops
  {
    ops == [] || (!BadLowering(s, ops[0]) && NeverBadLowering(Do(s, ops[0]), ops[1..]))
  }

  /** Power level agreement, over every run and any number of callers: the level is full only when device management
      says so, all along, exactly when the power is never lowered in that one situation. */
  lemma {:induction false} LevelAgreesExactly(s: System, ops: seq<Op>)
    requires Agrees(s) && Normal(s)
    ensures AlwaysAgrees(s, ops) <==> NeverBadLowering(s, ops)
    decreases ops
  {
    if ops == [] {
    } else {
      DoAgreesExactly(s, ops[0]);
      if !BadLowering(s, ops[0]) { LevelAgreesExactly(Do(s, ops[0]), ops[1..]); }
    }
  }

  /** Nobody comes in while another caller waits. */
  predicate OneAtATime(s: System, ops: seq<Op>)
    decreases ops
  {
    ops == [] || (((s.forFull == s.forLow == 0) || ops[0].Resume?) && OneAtATime(Do(s, ops[0]), ops[1..]))
  }

  /** In particular when only full and low power are ever asked for, by one caller at a time. */
  lemma {:induction false} FullAndLowAgree(s: System, ops: seq<Op>)
    requires Agrees(s) && Normal(s) && OneAtATime(s, ops)
    requires s.forFull + s.forLow <= 1 && (s.forLow > 0 ==> s.p.level.FullPower?)
    requires forall op <- ops :: op.SetLevel? ==> op.level.FullPower? || op.level.LowPower?
    ensures AlwaysAgrees(s, ops)
    decreases ops
  {
    if ops == [] {
    } else {
      assert ops[0] in ops;
      DoAgreesExactly(s, ops[0]);
      FullAndLowAgree(Do(s, ops[0]), ops[1..]);
    }
  }

  /** The run takes `s` to `s'`. */
  ghost predicate Runs(s: System, ops: seq<Op>, s': System) { After(s, ops) == s' }

  lemma {:induction false} OneMore(s: System, ops: seq<Op>, m: System, op: Op)
    requires Runs(s, ops, m)
    ensures Runs(s, ops + [op], Do(m, op))
  {
    assert (ops + [op])[..|ops|] == ops;
  }

  const WAKING: seq<Op> := [] + [Initialize(FullPower, 0)]
  const WAITING: seq<Op> := WAKING + [SetLevel(LowPower, Succeeded)]
  const SLEEPING: seq<Op> := WAITING + [Resume(LowPower, Succeeded)]
  const RECONFIGURED: seq<Op> := SLEEPING + [SetScreenOffState(1)]
  const SWITCHED_OFF: seq<Op> := RECONFIGURED + [SetLevel(PowerOff, Refused)]

  lemma {:induction false} GoesToSleep()
    ensures Runs(START, SLEEPING, System(Power(LowPower, OffSleep, OffSleep, 0, 0), 0, 0))
  {
    OneMore(START, [], START, Initialize(FullPower, 0));
    OneMore(START, WAKING, System(Power(FullPower, Full, UnknownState, 0, 0), 0, 0), SetLevel(LowPower, Succeeded));
    OneMore(START, WAITING, System(Power(FullPower, Full, UnknownState, 0, 0), 0, 1), Resume(LowPower, Succeeded));
  }

  /** A run of a single caller that ends believing in full power on a sleeping controller */
  lemma {:induction false} PowerOffCanDisagree()
    ensures Runs(START, SWITCHED_OFF, System(Power(FullPower, OffSleep, OffSleep, 1, 0), 0, 0))
  {
    GoesToSleep();
    OneMore(START, SLEEPING, System(Power(LowPower, OffSleep, OffSleep, 0, 0), 0, 0), SetScreenOffState(1));
    OneMore(START, RECONFIGURED, System(Power(LowPower, OffSleep, OffSleep, 1, 0), 0, 0), SetLevel(PowerOff, Refused));
  }

  // ---- stuck at low power ----

  /** Low power, on a controller not known to be asleep */
  predicate Stuck(s: System) { s.p.level.LowPower? && !s.p.dm.OffSleep? }

  /** A request for full power at low power succeeds exactly when the controller is known to be asleep and the stack
      wakes it. */
  lemma {:induction false} FullPowerExactlyFromSleep(s: System, answer: Answer)
    requires s.p.level.LowPower? && s.forFull > 0
    ensures Do(s, Resume(FullPower, answer)).p.level.FullPower? <==> s.p.dm.OffSleep? && answer.Succeeded?
  {
  }

  /** What leads there: a sleep answered with a bad status, or a wake-up that the stack refuses or answers so */
  predicate GetsStuck(s: System, op: Op) {
    || (Lowers(s, op) && s.p.desired == SLEEP_WHEN_SCREEN_OFF && !s.p.dm.OffSleep? && op.answer.Failed?)
    || (op.Resume? && op.level.FullPower? && SomeoneWaits(s, op.level)
        && s.p.level.LowPower? && s.p.dm.OffSleep? && !op.answer.Succeeded?)
  }

  /** What leads out of it: initialize, or a request to lower the power that the configuration answers with full
      power, or the stack with the sleep that had failed */
  predicate Reopens(s: System, op: Op) {
    || (op.Initialize? && (op.level.FullPower? || op.level.UnknownLevel?))
    || (Lowers(s, op) && (s.p.desired == FULL_WHEN_SCREEN_OFF
                          || (s.p.desired == SLEEP_WHEN_SCREEN_OFF && op.answer.Succeeded?)))
  }

  lemma {:induction false} SwitchStuckExactly(p: Power, level: Level, answer: Answer)
    ensures var q := Switch(p, level, answer);
            var lowers := level.LowPower? || level.PowerOff?;
            (q.level.LowPower? && !q.dm.OffSleep?)
            <==> if p.level.LowPower? && !p.dm.OffSleep?
                 then !(lowers && (p.desired == FULL_WHEN_SCREEN_OFF
                                   || (p.desired == SLEEP_WHEN_SCREEN_OFF && answer.Succeeded?)))
                 else || (lowers && p.desired == SLEEP_WHEN_SCREEN_OFF && !p.dm.OffSleep? && answer.Failed?)
                      || (level.FullPower? && p.level.LowPower? && p.dm.OffSleep? && !answer.Succeeded?)
  {
  }

  lemma {:induction false} StuckExactly(s: System, op: Op)
    requires Normal(s)
    ensures Stuck(Do(s, op)) <==> if Stuck(s) then !Reopens(s, op) else GetsStuck(s, op)
    ensures Normal(Do(s, op))
  {
    if op.SetLevel? || op.Resume? {
      SwitchStuckExactly(s.p, op.level, op.answer);
    }
  }

  /** A run that leads there: the stack answers a sleep badly. */
  lemma {:induction false} FailedSleepGetsStuck()
    ensures exists s :: Runs(START, WAITING + [Resume(LowPower, Failed)], s) && Stuck(s) && s.p.dm.Full?
  {
    var s := System(Power(FullPower, Full, UnknownState, 0, 0), 0, 1);
    OneMore(START, [], START, Initialize(FullPower, 0));
    OneMore(START, WAKING, System(Power(FullPower, Full, UnknownState, 0, 0), 0, 0), SetLevel(LowPower, Succeeded));
    OneMore(START, WAITING, s, Resume(LowPower, Failed));
    assert Stuck(Do(s, Resume(LowPower, Failed)));
  }

  predicate StaysStuck(s: System, ops: seq<Op>)
    decreases ops
  {
    Stuck(s) && (ops == [] || StaysStuck(Do(s, ops[0]), ops[1..]))
  }

  predicate NeverReopens(s: System, ops: seq<Op>)
    decreases ops
  {
    ops == [] || (!Reopens(s, ops[0]) && NeverReopens(Do(s, ops[0]), ops[1..]))
  }

  /** Over every run, of any number of callers: once stuck, the level is low on a controller not known to be asleep,
      so that no request for full power succeeds, for as long as nothing of that list comes, and no longer. */
  lemma {:induction false} StuckUntilReopened(s: System, ops: seq<Op>)
    requires Normal(s) && Stuck(s)
    ensures StaysStuck(s, ops) <==> NeverReopens(s, ops)
    decreases ops
  {
    if ops == [] {
    } else {
      StuckExactly(s, ops[0]);
      if !Reopens(s, ops[0]) { StuckUntilReopened(Do(s, ops[0]), ops[1..]); }
    }
  }

  /** In particular requests for full and low power alone, however many and however answered, change nothing. */
  lemma {:induction false} FullAndLowAreNotEnough(s: System, ops: seq<Op>)
    requires Normal(s) && Stuck(s) && s.forLow == 0
    requires forall op <- ops :: (op.SetLevel? || op.Resume?) && (op.level.FullPower? || op.level.LowPower?)
    ensures StaysStuck(s, ops)
    decreases ops
  {
    if ops == [] {
    } else {
      assert ops[0] in ops && forall op <- ops[1..] :: op in ops;
      StuckExactly(s, ops[0]);
      FullAndLowAreNotEnough(Do(s, ops[0]), ops[1..]);
    }
  }

  // ---- the configuration ----

  /** What was last configured for the screen being off */
  function LastConfigured(ops: seq<Op>): int {
    if ops == [] then 0
    else
      match ops[|ops| - 1]
      case Initialize(_, desired) => desired
      case SetScreenOffState(desired) => desired
      case _ => LastConfigured(ops[..|ops| - 1])
  }

  /** Over every run: a request to lower the power sleeps or stays at full power as was last configured, by initialize
      as well as by setScreenOffPowerState. */
  lemma {:induction false} DesiredIsLastConfigured(ops: seq<Op>)
    ensures After(START, ops).p.desired == LastConfigured(ops)
    decreases |ops|
  {
    if ops == [] {
    } else {
      DesiredIsLastConfigured(ops[..|ops| - 1]);
    }
  }

  predicate Unknown(s: System) {
    s.p.level.UnknownLevel? && s.p.dm.UnknownState? && s.forFull == 0 && s.forLow == 0
  }

  /** Initialized without a level, with no caller waiting, the switch knows neither its level nor the controller's
      state, whatever is asked of it, until it is initialized again. */
  lemma {:induction false} UnknownUntilInitialized(s: System, desired: int, ops: seq<Op>)
    requires s.forFull == 0 && s.forLow == 0 && forall op <- ops :: !op.Initialize?
    ensures Unknown(After(Do(s, Initialize(UnknownLevel, desired)), ops))
    decreases |ops|
  {
    if ops == [] {
    } else {
      assert ops[|ops| - 1] in ops && forall op <- ops[..|ops| - 1] :: op in ops;
      UnknownUntilInitialized(s, desired, ops[..|ops| - 1]);
    }
  }

  // ---- the activity mask ----

  predicate OneBit(b: bv8) { b != 0 && b & (b - 1) == 0 }

  predicate InMask(activity: bv8, b: bv8) { activity & b != 0 }

  /** Was this mode's last switch an on? */
  predicate On(ops: seq<Op>, b: bv8) {
    ops != [] &&
    var last, before := ops[|ops| - 1], ops[..|ops| - 1];
    if last.SetModeOn? && InMask(last.mode, b) then true
    else if last.SetModeOff? && InMask(last.mode, b) then false
    else On(before, b)
  }

  /** The mask holds exactly the modes switched on and not off since, whatever else happens. */
  lemma {:induction false} MaskIsWhatIsOn(ops: seq<Op>, b: bv8)
    requires OneBit(b)
    ensures InMask(After(START, ops).p.activity, b) <==> On(ops, b)
    decreases |ops|
  {
    if ops == [] {
      assert START.p.activity & b == 0;
    } else {
      MaskIsWhatIsOn(ops[..|ops| - 1], b);
      MaskAfter(After(START, ops[..|ops| - 1]), ops[|ops| - 1], b);
    }
  }

  lemma {:induction false} MaskAfter(s: System, op: Op, b: bv8)
    requires OneBit(b)
    ensures InMask(Do(s, op).p.activity, b) <==>
              if op.SetModeOn? && InMask(op.mode, b) then true
              else if op.SetModeOff? && InMask(op.mode, b) then false
              else InMask(s.p.activity, b)
  {
    if op.SetModeOn? {
      OrBit(s.p.activity, op.mode, b);
    } else if op.SetModeOff? {
      AndNotBit(s.p.activity, op.mode, b);
    } else {
      assert Do(s, op).p.activity == s.p.activity;
    }
  }

  lemma {:induction false} OrBit(x: bv8, a: bv8, b: bv8)
    ensures InMask(x | a, b) <==> InMask(x, b) || InMask(a, b)
  {
    assert (x | a) & b == (x & b) | (a & b);
  }

  lemma {:induction false} AndNotBit(x: bv8, a: bv8, b: bv8)
    requires OneBit(b)
    ensures InMask(x & !a, b) <==> InMask(x, b) && !InMask(a, b)
  {
    OneBitIsAllOrNothing(a, b);
    assert x & !a & b == (x & b) & !(a & b);
  }

  lemma {:induction false} OneBitIsAllOrNothing(a: bv8, b: bv8)
    requires OneBit(b)
    ensures a & b == 0 || a & b == b
  {
  }
}
