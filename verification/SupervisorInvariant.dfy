/** The supervisor's invariant, kept by every tick and every commit. */
module SupervisorInvariant {
  import opened Wrappers
  import opened Timing
  import opened ChargeTypes
  import opened ChargeStates
  import opened Debouncing
  import opened HoldBudgets
  import opened SupervisorSpec

  /** The holds and the stepped time between them, as the flap budget sees a history. */
  function HoldEvents(t: seq<Obs>): seq<HoldEvent> {
    if t == [] then [] else HoldEvents(t[..|t| - 1]) + HoldEventOf(t[|t| - 1])
  }

  function HoldEventOf(o: Obs): seq<HoldEvent> {
    match o
    case Moved(_, _, to) => if Holding(to) then [Recorded] else []
    case Aged(dt) => [Quiet(dt)]
    case Clocked(_, _, _) => []
  }

  datatype Clock = TailClock | PlateauClock | CycleClock

  /** What a clock has read since the machine last moved. */
  function Readings(t: seq<Obs>, c: Clock): seq<Reading> {
    if t == [] then [] else ReadOn(Readings(t[..|t| - 1], c), t[|t| - 1], c)
  }

  function ReadOn(h: seq<Reading>, o: Obs, c: Clock): seq<Reading> {
    match o
    case Moved(_, _, _) => []
    case Aged(_) => h
    case Clocked(belowTail, atPlateau, dt) =>
      match c
      case TailClock => h + [Reading(belowTail, dt)]
      case PlateauClock => h + [Reading(atPlateau, dt)]
      case CycleClock => h + [Reading(true, dt)]
  }

  /** The buffer holds the newest entries of the log. */
  ghost predicate Newest(ts: seq<ChargeTransition>, log: seq<ChargeTransition>) {
    |ts| <= |log| && |ts| <= TRANSITION_BUFFER && ts == log[|log| - |ts|..]
  }

  /** Time handed to the phase machine over a whole history. */
  function ClockedTime(t: seq<Obs>): nat {
    if t == [] then 0
    else ClockedTime(t[..|t| - 1]) + (if t[|t| - 1].Clocked? then t[|t| - 1].dt else 0)
  }

  /** The history explains the state, the hold counters and the log buffer, and
      every taper out of absorb was paid for on the tail clock. */
  ghost predicate Explains(t: seq<Obs>, state: ChargeState, holds: HoldCount, ts: seq<ChargeTransition>) {
    && IsPath(t)
    && state == End(t)
    && holds == Fold(HoldEvents(t))
    && Newest(ts, Log(t))
    && Count(t, TaperDown) * EXIT_DEBOUNCE + LeakyFold(Readings(t, TailClock)) <= ClockedTime(t)
  }

  ghost predicate Base(s: Sup) {
    WellFormed(s.cfg) && Explains(s.trace, s.state, s.holds, s.transitions)
  }

  /** The phase clocks equal what their readings add up to, short of firing. */
  ghost predicate ClocksRight(t: seq<Obs>, state: ChargeState, exit: nat, absorb: nat, chargeTotal: nat) {
    && exit == LeakyFold(Readings(t, TailClock)) < EXIT_DEBOUNCE
    && (state.Absorb? ==>
          && absorb == LeakyFold(Readings(t, PlateauClock)) < MAX_ABSORB
          && chargeTotal == HardFold(Readings(t, CycleClock)) < MAX_CHARGE)
  }

  ghost predicate Timed(s: Sup) {
    !Terminal(s.state) ==> ClocksRight(s.trace, s.state, s.exit, s.absorb, s.chargeTotal)
  }

  /** A fault is carried exactly in the stopped states, and by a parked one
      only if it is of the parking class. */
  predicate FaultFits(s: Sup) {
    && (s.fault.Some? <==> Stopped(s.state))
    && (Stopped(s.state) && !Terminal(s.state) ==> Response(s.fault.value).Park?)
  }

  /** While sourcing, neither fail-closed window has run out. */
  predicate Windows(s: Sup) {
    Sourcing(s.state) ==>
      s.modbusErr < MODBUS_UNHEALTHY_TIMEOUT && s.batteryMissing < BATTERY_MISSING_TIMEOUT
  }

  ghost predicate Inv(s: Sup) {
    Base(s) && Timed(s) && FaultFits(s) && Windows(s)
  }

  /** The ticket an action carries opens the commit it was made for. */
  predicate ActionFits(s: Sup, a: Action) {
    match a
    case NoAction => true
    case EnableOutput(_) => BringingUp(s.state) && s.modbusErr == 0 && s.batteryMissing == 0
    case UpdateVoltage(ticket) =>
      && RetargetTo(s.state) == Some(ticket.phase)
      && ticket.targetV == TargetVoltage(s.cfg.profile, ticket.phase)
      && (ticket.cycleOutput <==> ticket.phase.FloatPhase?)
    case DisableOutput(r) => s.state.Tripping? && s.fault == Some(r)
  }

  /** Log entries that are no longer in the buffer. */
  function Gone(t: seq<Obs>, ts: seq<ChargeTransition>): int {
    |Log(t)| - |ts|
  }

  /** What a stretch of execution may do to the history and the log buffer: at
      most `moves` new entries, none of them lost while there is room, and at
      most `dt` on the phase clocks. */
  ghost predicate Extends(t: seq<Obs>, ts: seq<ChargeTransition>, t': seq<Obs>, ts': seq<ChargeTransition>,
                          moves: nat, dt: nat)
  {
    && t <= t'
    && ClockedTime(t') <= ClockedTime(t) + dt
    && |ts'| <= |ts| + moves
    && (|ts| + moves <= TRANSITION_BUFFER ==> Gone(t', ts') == Gone(t, ts))
  }

  ghost predicate Progress(s: Sup, s': Sup, moves: nat, dt: nat) {
    s'.cfg == s.cfg && Extends(s.trace, s.transitions, s'.trace, s'.transitions, moves, dt)
  }

  // ------------------------------------------------------- one step at a time

  lemma ExtendReadings(t: seq<Obs>, o: Obs)
    ensures HoldEvents(t + [o]) == HoldEvents(t) + HoldEventOf(o)
    ensures forall c :: Readings(t + [o], c) == ReadOn(Readings(t, c), o, c)
    ensures ClockedTime(t + [o]) == ClockedTime(t) + (if o.Clocked? then o.dt else 0)
  {
    assert (t + [o])[..|t|] == t;
  }

  lemma ExtendFold(es: seq<HoldEvent>, e: HoldEvent)
    ensures Fold(es + [e]) == Advance(Fold(es), e)
  {
    assert (es + [e])[..|es|] == es;
  }

  lemma ExtendHard(h: seq<Reading>, r: Reading)
    ensures HardFold(h + [r]) == HardStep(HardFold(h), r)
    ensures LeakyFold(h + [r]) == LeakyStep(LeakyFold(h), r)
  {
    assert (h + [r])[..|h|] == h;
  }

  lemma PushKeeps(ts: seq<ChargeTransition>, log: seq<ChargeTransition>, entry: Option<ChargeTransition>)
    requires Newest(ts, log)
    ensures Push(ts, entry).Done?
    ensures Newest(Push(ts, entry).value, log + (if entry.Some? then [entry.value] else []))
    ensures |Push(ts, entry).value| <= |ts| + 1
    ensures |ts| < TRANSITION_BUFFER ==> |Push(ts, entry).value| == |ts| + (if entry.Some? then 1 else 0)
  {
    if entry.Some? {
      var log' := log + [entry.value];
      var ts' := Push(ts, entry).value;
      assert log'[|log'| - |ts'|..] == ts';
    } else {
      assert log + [] == log;
    }
  }

  /** A move sets the phase clocks back to nothing, and a taper has been paid for. */
  lemma MovePays(t: seq<Obs>, s: ChargeState, e: ChargeEvent, to: ChargeState)
    requires Count(t, TaperDown) * EXIT_DEBOUNCE + LeakyFold(Readings(t, TailClock)) <= ClockedTime(t)
    requires e.TaperFell? ==> LeakyFold(Readings(t, TailClock)) >= EXIT_DEBOUNCE
    ensures var t' := t + [Moved(s, e, to)];
            && Count(t', TaperDown) * EXIT_DEBOUNCE + LeakyFold(Readings(t', TailClock)) <= ClockedTime(t')
            && ClockedTime(t') == ClockedTime(t)
            && ClocksRight(t', to, 0, 0, 0)
  {
    hide Log, Count, ClockedTime, Readings, IsPath, End;
    Extend(t, Moved(s, e, to));
    ExtendReadings(t, Moved(s, e, to));
  }

  /** A move into a hold is one more on the record. */
  lemma MoveRecords(t: seq<Obs>, s: ChargeState, h: HoldCount, e: ChargeEvent, to: ChargeState)
    requires h == Fold(HoldEvents(t))
    ensures var t' := t + [Moved(s, e, to)];
            && HoldEvents(t') == HoldEvents(t) + (if Holding(to) then [Recorded] else [])
            && (if Holding(to) then Record(h) else h) == Fold(HoldEvents(t'))
  {
    hide Fold, HoldEvents;
    ExtendReadings(t, Moved(s, e, to));
    ExtendFold(HoldEvents(t), Recorded);
    assert HoldEvents(t) + [] == HoldEvents(t);
  }

  lemma ExplainsMove(t: seq<Obs>, s: ChargeState, h: HoldCount, ts: seq<ChargeTransition>, e: ChargeEvent, to: ChargeState)
    requires Explains(t, s, h, ts) && Next(s, e) == Some(to)
    requires e.TaperFell? ==> LeakyFold(Readings(t, TailClock)) >= EXIT_DEBOUNCE
    ensures Push(ts, LoggedAs(s, to)).Done?
    ensures Explains(t + [Moved(s, e, to)], to, if Holding(to) then Record(h) else h, Push(ts, LoggedAs(s, to)).value)
    ensures !Terminal(to) ==> ClocksRight(t + [Moved(s, e, to)], to, 0, 0, 0)
    ensures Extends(t, ts, t + [Moved(s, e, to)], Push(ts, LoggedAs(s, to)).value, 1, 0)
    ensures HoldEvents(t + [Moved(s, e, to)]) == HoldEvents(t) + (if Holding(to) then [Recorded] else [])
  {
    hide Next, LoggedAs, Log, Count, ClockedTime, Fold, HoldEvents, Readings, IsPath, End, Push, Newest, Record,
         LeakyFold, HardFold, ClocksRight, Holding, Is;
    Extend(t, Moved(s, e, to));
    MovePays(t, s, e, to);
    MoveRecords(t, s, h, e, to);
    PushKeeps(ts, Log(t), LoggedAs(s, to));
  }

  lemma StepKeeps(s: Sup, e: ChargeEvent)
    requires Base(s) && Next(s.state, e).Some?
    requires e.TaperFell? ==> LeakyFold(Readings(s.trace, TailClock)) >= EXIT_DEBOUNCE
    ensures Step(s, e).Done?
    ensures var s' := Step(s, e).value;
            && Base(s') && Timed(s') && Progress(s, s', 1, 0)
            && HoldEvents(s'.trace) == HoldEvents(s.trace) + (if Holding(Next(s.state, e).value) then [Recorded] else [])
            && s'.trace == s.trace + [Moved(s.state, e, Next(s.state, e).value)]
            && s' == s.(state := Next(s.state, e).value, transitions := s'.transitions, absorb := s'.absorb,
                        chargeTotal := s'.chargeTotal, exit := s'.exit, ov := s'.ov,
                        holds := if Holding(Next(s.state, e).value) then Record(s.holds) else s.holds,
                        trace := s'.trace)
  {
    hide Next, LoggedAs, Explains, ClocksRight, Push, Extends, HoldEvents;
    ExplainsMove(s.trace, s.state, s.holds, s.transitions, e, Next(s.state, e).value);
  }

  lemma OnFaultKeeps(s: Sup, r: FaultReason)
    requires Base(s) && !Terminal(s.state)
    requires Response(r).Park? ==> Sourcing(s.state) && Windows(s)
    ensures OnFault(s, r).Done?
    ensures var (s', a) := OnFault(s, r).value;
            && Inv(s') && ActionFits(s', a)
            && Progress(s, s', 1, 0)
            && s'.fault == Some(r) && s'.inhibit.None? && SameTimers(s, s')
            && (!Terminal(s'.state) ==> SetpointPhase(s'.state) == SetpointPhase(s.state))
            && (if Response(r).Park? && !ParkedUp(s.state) then ParkedUp(s'.state) else s'.state.Tripping?)
  {
    hide Explains, ClocksRight, Step, Extends, HoldEvents;
    var s1 := s.(fault := Some(r), inhibit := None);
    StepKeeps(s1, if Response(r).Park? && !ParkedUp(s.state) then ParkEvent else Fault);
  }

  lemma ReconcileKeeps(s: Sup, p: PollResult)
    requires Inv(s)
    ensures Reconcile(s, p).Done?
    ensures var (s', decided) := Reconcile(s, p).value;
            && Base(s') && Timed(s') && FaultFits(s') && Progress(s, s', 1, 0)
            && (decided.Some? ==>
                  && Terminal(s'.state) && ActionFits(s', decided.value) && !decided.value.EnableOutput?
                  && (s'.fault == s.fault || s'.fault != Some(SettingsDrift)))
            && (Terminal(s.state) ==>
                  && s'.fault == s.fault
                  && decided.Some?
                  && s'.inhibit == s.inhibit
                  && (decided.value == NoAction || decided.value == DisableOutput(s.fault.value)))
            && (s'.state.Latched? ==> s.state.Latched? && p.output != Some(On))
            && (decided.None? ==>
                  && !Terminal(s'.state)
                  && s'.fault == s.fault
                  && s'.modbusErr == s.modbusErr && s'.batteryMissing == s.batteryMissing
                  && SetpointPhase(s'.state) == SetpointPhase(s.state)
                  && (HoldEvents(s'.trace) == HoldEvents(s.trace) ||
                      HoldEvents(s'.trace) == HoldEvents(s.trace) + [Recorded])
                  && (p.output.Some? ==> (Sourcing(s'.state) <==> p.output.value.On?))
                  && (Windows(s') || (Holding(s.state) && p.output == Some(On))))
  {
    hide Explains, ClocksRight, Step, OnFault, HoldEvents;
    if s.state.Latched? && p.output == Some(On) {
      StepKeeps(s, SelfEnabled);
    } else if !Terminal(s.state) {
      match p.output
      case Some(Off(cause)) =>
        if Sourcing(s.state) {
          if SelfClearing(cause) && Next(s.state, SelfDisabled).Some? {
            StepKeeps(s, SelfDisabled);
          } else {
            OnFaultKeeps(s, OutputUnexpectedlyOff(cause));
          }
        }
      case Some(On) =>
        if Holding(s.state) {
          StepKeeps(s, SelfEnabled);
        } else if s.state.Boot? {
          OnFaultKeeps(s, OutputOnInPending);
        }
      case None =>
    }
  }

  predicate BlamesDrift(v: Verdict) {
    v == Latch(SettingsDrift) || v == Inhibit(WaitSettingsDrift)
  }

  /** The readback arrived and is not what the state expects. */
  predicate ReadsWrong(s: Sup, p: PollResult) {
    && p.setpoints.Some? && SetpointPhase(s.state).Some?
    && Drifted(s, TargetVoltage(s.cfg.profile, SetpointPhase(s.state).value), p.setpoints.value)
  }

  /** What the gauntlet may and may not touch. */
  ghost predicate OnlyChecked(s: Sup, s': Sup, dt: nat) {
    && s'.trace == s.trace + [Aged(dt)]
    && s' == s.(holds := s'.holds, trace := s'.trace, modbusErr := s'.modbusErr,
                batteryMissing := s'.batteryMissing, ov := s'.ov, overcurrent := s'.overcurrent,
                packTempMissing := s'.packTempMissing)
  }

  lemma AgedKeeps(s: Sup, s': Sup, dt: nat)
    requires Base(s) && Timed(s) && OnlyChecked(s, s', dt) && s'.holds == Age(s.holds, dt)
    ensures Base(s') && Timed(s') && Progress(s, s', 0, 0)
    ensures HoldEvents(s'.trace) == HoldEvents(s.trace) + [Quiet(dt)]
  {
    hide Log, Count, ClockedTime, Fold, HoldEvents, Readings, IsPath, End, Newest, LeakyFold, HardFold;
    Extend(s.trace, Aged(dt));
    ExtendReadings(s.trace, Aged(dt));
    ExtendFold(HoldEvents(s.trace), Quiet(dt));
    assert Log(s.trace) + [] == Log(s.trace);
  }

  /** The gauntlet's counters, and the holds on record, are as they were. */
  ghost predicate SameTimers(s: Sup, s': Sup) {
    && s'.holds == s.holds && s'.modbusErr == s.modbusErr && s'.batteryMissing == s.batteryMissing
    && HoldEvents(s'.trace) == HoldEvents(s.trace)
  }

  /** A tick that leaves the machine running put on record at most one hold, and
      then the time it was charged. */
  ghost predicate HoldsHeard(s: Sup, s': Sup, dt: nat) {
    || HoldEvents(s'.trace) == HoldEvents(s.trace) + [Quiet(dt)]
    || HoldEvents(s'.trace) == HoldEvents(s.trace) + [Recorded] + [Quiet(dt)]
  }

  /** What each of the gauntlet's timers and the flap budget did on a tick. */
  predicate TimersRan(s: Sup, s': Sup, p: PollResult, dt: nat, latched: bool) {
    && (p.setpoints.None? && !OverBudget(s'.holds) ==> s'.modbusErr == s.modbusErr + dt)
    && (Sourcing(s'.state) && !latched && FiniteSample(p.battery).None? ==> s'.batteryMissing == s.batteryMissing + dt)
  }

  /** The verdict is one the state may act on. */
  predicate VerdictFits(s: Sup, v: Verdict) {
    match v
    case Latch(r) =>
      && (Sourcing(s.state) || r == ProtectionFlapping)
      && (Response(r).Park? ==> Sourcing(s.state) && Windows(s))
    case Inhibit(_) => Windows(s)
    case Clear(_) => Windows(s) && s.batteryMissing == 0
  }

  lemma GauntletBusKeeps(s: Sup, p: PollResult, dt: nat)
    requires !Terminal(s.state)
    ensures GauntletBus(s, p, dt).Done?
    ensures var (s', v) := GauntletBus(s, p, dt).value;
            && OnlyChecked(s, s', dt) && s'.holds == Age(s.holds, dt)
            && VerdictFits(s', v)
            && (v.Clear? ==> FiniteSample(p.battery) == Some(v.sample) && (p.setpoints.Some? ==> s'.modbusErr == 0))
            && (OverBudget(s'.holds) <==> v == Latch(ProtectionFlapping))
            && (p.setpoints.None? && !OverBudget(s'.holds) ==> s'.modbusErr == s.modbusErr + dt)
            && (Sourcing(s.state) && !v.Latch? && FiniteSample(p.battery).None? ==> s'.batteryMissing == s.batteryMissing + dt)
            && (v.Latch? && Response(v.fault).Park? ==> FiniteSample(p.battery).Some?)
            && (Sourcing(s.state) && v.Inhibit? ==> v.why == WaitNoBatterySample && FiniteSample(p.battery).None?)
            && (BlamesDrift(v) ==> ReadsWrong(s, p))
  {
  }

  lemma GauntletPackKeeps(s: Sup, p: PollResult, b: Sample, dt: nat)
    requires !Terminal(s.state) && VerdictFits(s, Clear(b))
    ensures GauntletPack(s, p, b, dt).Done?
    ensures var (s', v) := GauntletPack(s, p, b, dt).value;
            && s' == s.(ov := s'.ov, overcurrent := s'.overcurrent, packTempMissing := s'.packTempMissing)
            && VerdictFits(s', v)
            && (v.Clear? ==> v.sample == b)
            && (Sourcing(s.state) ==> !v.Inhibit?)
            && v != Latch(ProtectionFlapping) && !BlamesDrift(v)
  {
  }

  lemma GauntletKeeps(s: Sup, p: PollResult, dt: nat)
    requires Base(s) && Timed(s) && !Terminal(s.state)
    ensures Gauntlet(s, p, dt).Done?
    ensures var (s', v) := Gauntlet(s, p, dt).value;
            && Base(s') && Timed(s') && Progress(s, s', 0, 0) && OnlyChecked(s, s', dt) && s'.holds == Age(s.holds, dt)
            && HoldEvents(s'.trace) == HoldEvents(s.trace) + [Quiet(dt)]
            && VerdictFits(s', v)
            && (v.Clear? && BringingUp(s.state) ==> s'.modbusErr == 0)
            && (v.Clear? || (v.Latch? && Response(v.fault).Park?) ==> FiniteSample(p.battery).Some?)
            && (OverBudget(s'.holds) <==> v == Latch(ProtectionFlapping))
            && TimersRan(s, s', p, dt, v.Latch? && Response(v.fault).Disable?)
            && (Sourcing(s.state) && v.Inhibit? ==> v.why == WaitNoBatterySample && FiniteSample(p.battery).None?)
            && (BlamesDrift(v) ==> ReadsWrong(s, p))
  {
    hide GauntletBus, GauntletPack, HoldEvents, Explains, ClocksRight, Extends, ReadsWrong, FiniteSample;
    GauntletBusKeeps(s, p, dt);
    var (s1, v1) := GauntletBus(s, p, dt).value;
    if v1.Clear? { GauntletPackKeeps(s1, p, v1.sample, dt); }
    AgedKeeps(s, Gauntlet(s, p, dt).value.0, dt);
  }

  lemma ExplainsClock(t: seq<Obs>, s: ChargeState, h: HoldCount, ts: seq<ChargeTransition>,
                      belowTail: bool, atPlateau: bool, dt: nat)
    requires Explains(t, s, h, ts)
    ensures var t' := t + [Clocked(belowTail, atPlateau, dt)];
            && Explains(t', s, h, ts)
            && Extends(t, ts, t', ts, 0, dt)
            && HoldEvents(t') == HoldEvents(t)
            && LeakyFold(Readings(t', TailClock)) == LeakyStep(LeakyFold(Readings(t, TailClock)), Reading(belowTail, dt))
            && LeakyFold(Readings(t', PlateauClock)) == LeakyStep(LeakyFold(Readings(t, PlateauClock)), Reading(atPlateau, dt))
            && HardFold(Readings(t', CycleClock)) == HardStep(HardFold(Readings(t, CycleClock)), Reading(true, dt))
  {
    hide Log, Count, ClockedTime, Fold, HoldEvents, Readings, IsPath, End, Newest, LeakyFold, HardFold;
    var o := Clocked(belowTail, atPlateau, dt);
    Extend(t, o);
    ExtendReadings(t, o);
    assert Log(t) + [] == Log(t);
    assert HoldEvents(t) + [] == HoldEvents(t);
    ExtendHard(Readings(t, TailClock), Reading(belowTail, dt));
    ExtendHard(Readings(t, PlateauClock), Reading(atPlateau, dt));
    ExtendHard(Readings(t, CycleClock), Reading(true, dt));
  }

  lemma AbsorbCapsKeep(s: Sup, atCv: bool, dt: nat)
    requires Base(s) && s.state.Absorb? && FaultFits(s) && Windows(s)
    requires s.exit == LeakyFold(Readings(s.trace, TailClock)) < EXIT_DEBOUNCE
    requires s.absorb < MAX_ABSORB
    requires LeakyStep(s.absorb, Reading(atCv, dt)) == LeakyFold(Readings(s.trace, PlateauClock))
    requires HardStep(s.chargeTotal, Reading(true, dt)) == HardFold(Readings(s.trace, CycleClock))
    ensures AbsorbCaps(s, atCv, dt).Done?
    ensures var (s', a) := AbsorbCaps(s, atCv, dt).value;
            Inv(s') && ActionFits(s', a) && Progress(s, s', 1, 0) && Sourcing(s'.state) && !a.EnableOutput? && !a.DisableOutput?
            && SameTimers(s, s') && (s.inhibit.None? ==> s'.inhibit.None?)
            && (s.fault.Some? ==> s'.fault == s.fault)
            && SetpointPhase(s'.state) == SetpointPhase(s.state)
            && (s'.fault == s.fault || s'.fault != Some(SettingsDrift))
  {
    hide Explains, Log, HoldEvents, ClockedTime, OnFault, LeakyFold, HardFold, Readings;
    var s1 := s.(absorb := LeakyStep(s.absorb, Reading(atCv, dt)));
    if s1.absorb >= MAX_ABSORB {
      OnFaultKeeps(s1, AbsorbTimeout);
    } else {
      var s2 := s1.(chargeTotal := HardStep(s1.chargeTotal, Reading(true, dt)));
      if s2.chargeTotal >= MAX_CHARGE { OnFaultKeeps(s2, ChargeTimeout); }
    }
  }

  lemma RegulateKeeps(s: Sup, b: Sample, dt: nat)
    requires Inv(s) && Sourcing(s.state)
    ensures Regulate(s, b, dt).Done?
    ensures var (s', a) := Regulate(s, b, dt).value;
            Inv(s') && ActionFits(s', a) && Progress(s, s', 1, dt) && Sourcing(s'.state) && !a.EnableOutput? && !a.DisableOutput?
            && SameTimers(s, s') && (s.inhibit.None? ==> s'.inhibit.None?)
            && (s.fault.Some? ==> s'.fault == s.fault)
            && SetpointPhase(s'.state) == SetpointPhase(s.state)
            && (s'.fault == s.fault || s'.fault != Some(SettingsDrift))
  {
    hide Explains, Log, HoldEvents, ClockedTime, Step, AbsorbCaps, LeakyFold, HardFold, Readings;
    if RetargetTo(s.state).None? {
      var below := s.state.Absorb? && ChargingA(b) < s.cfg.profile.exitAbsorbA;
      var atCv := b.voltage >= s.cfg.profile.absorbV - ABSORB_CV_BAND_V;
      ExplainsClock(s.trace, s.state, s.holds, s.transitions, below, atCv, dt);
      var s1 := s.(exit := LeakyStep(s.exit, Reading(below, dt)), trace := s.trace + [Clocked(below, atCv, dt)]);
      if s.state.Float? && ChargingA(b) > s.cfg.profile.enterAbsorbA {
        StepKeeps(s1, TaperRose);
      } else if s.state.Absorb? && s1.exit >= EXIT_DEBOUNCE {
        StepKeeps(s1, TaperFell);
      } else if s.state.Absorb? {
        AbsorbCapsKeep(s1, atCv, dt);
      }
    }
  }


  lemma JudgeKeeps(s: Sup, p: PollResult, dt: nat)
    requires Base(s) && Timed(s) && FaultFits(s) && !Terminal(s.state)
    ensures Judge(s, p, dt).Done?
    ensures var (s', a) := Judge(s, p, dt).value;
            && Inv(s') && ActionFits(s', a) && Progress(s, s', 1, dt)
            && (Terminal(s'.state) || (Sourcing(s'.state) <==> Sourcing(s.state)))
            && (Terminal(s'.state) && !Sourcing(s.state) ==> s'.fault == Some(ProtectionFlapping))
            && (OverBudget(Age(s.holds, dt)) <==> Terminal(s'.state) && s'.fault == Some(ProtectionFlapping))
            && (!Terminal(s'.state) ==>
                  && !OverBudget(s'.holds)
                  && TimersRan(s, s', p, dt, false)
                  && (s.fault.Some? ==> s'.fault == s.fault)
                  && HoldEvents(s'.trace) == HoldEvents(s.trace) + [Quiet(dt)]
                  && SetpointPhase(s'.state) == SetpointPhase(s.state))
            && (ReadsWrong(s, p) || s'.fault == s.fault || s'.fault != Some(SettingsDrift))
            && !s'.state.Latched?
            && (Sourcing(s'.state) ==>
                  s'.inhibit == if FiniteSample(p.battery).None? then Some(WaitNoBatterySample) else None)
            && (a.EnableOutput? ==> FiniteSample(p.battery).Some?)
  {
    hide Gauntlet, OnFault, Regulate, Explains, ClocksRight, ClockedTime, Log, HoldEvents;
    GauntletKeeps(s, p, dt);
    var (s1, v) := Gauntlet(s, p, dt).value;
    match v
    case Latch(r) => OnFaultKeeps(s1, r);
    case Inhibit(_) =>
    case Clear(b) => if !BringingUp(s1.state) { RegulateKeeps(s1.(inhibit := None), b, dt); }
  }

  /** What every tick keeps and what every caller of `Tick` may rely on. */
  lemma TickKeeps(s: Sup, p: PollResult, dt: nat)
    requires Inv(s)
    ensures Tick(s, p, dt).Done?
    ensures var (s', a) := Tick(s, p, dt).value;
            && Inv(s') && ActionFits(s', a) && Progress(s, s', 2, dt)
            && (Terminal(s.state) ==>
                  && Terminal(s'.state) && s'.fault == s.fault
                  && (a == NoAction || a == DisableOutput(s.fault.value)))
            && (!Terminal(s'.state) ==>
                  && !OverBudget(s'.holds)
                  && TimersRan(s, s', p, dt, false)
                  && (s.fault.Some? ==> s'.fault == s.fault)
                  && HoldsHeard(s, s', dt)
                  && SetpointPhase(s'.state) == SetpointPhase(s.state)
                  && (p.output.Some? ==> (Sourcing(s'.state) <==> p.output.value.On?)))
            && (Sourcing(s'.state) ==>
                  s'.inhibit == if FiniteSample(p.battery).None? then Some(WaitNoBatterySample) else None)
            && (a.EnableOutput? ==> FiniteSample(p.battery).Some?)
            && (ReadsWrong(s, p) || s'.fault == s.fault || s'.fault != Some(SettingsDrift))
            && (s'.state.Latched? ==> s.state.Latched? && p.output != Some(On))
  {
    hide Reconcile, Judge, Base, Timed, ClockedTime, Log, HoldEvents;
    ReconcileKeeps(s, p);
    var (s1, decided) := Reconcile(s, p).value;
    if decided.None? { JudgeKeeps(s1, p, dt); }
  }

  lemma CommitKeeps(s: Sup, a: Action)
    requires Inv(s) && ActionFits(s, a)
    ensures Commit(s, a).Done?
    ensures var s' := Commit(s, a).value;
            && Inv(s') && Progress(s, s', 1, 0)
            && s'.fault == s.fault && SameTimers(s, s')
            && (Sourcing(s'.state) && !Sourcing(s.state) ==> a.EnableOutput? && s'.modbusErr == 0 && s'.batteryMissing == 0)
            && (Terminal(s'.state) <==> Terminal(s.state))
            && s'.inhibit == s.inhibit
            && (!a.UpdateVoltage? && !Terminal(s.state) ==> SetpointPhase(s'.state) == SetpointPhase(s.state))
            && (a.UpdateVoltage? ==> SetpointPhase(s'.state) == Some(a.ticket.phase))
            && (a.DisableOutput? ==> s'.state.Latched?)
  {
    hide Explains, ClocksRight, Step, HoldEvents;
    match a
    case NoAction =>
    case EnableOutput(resume) => StepKeeps(s, if resume then EnabledBelowFull else Enabled);
    case UpdateVoltage(_) => StepKeeps(s, VoltageWritten);
    case DisableOutput(_) => StepKeeps(s, Disabled);
  }

  lemma CycleKeeps(s: Sup, c: Cycle)
    requires Inv(s)
    ensures CycleStep(s, c).Done?
    ensures Inv(CycleStep(s, c).value)
    ensures var s' := CycleStep(s, c).value;
            s'.cfg == s.cfg && s.trace <= s'.trace && ClockedTime(s'.trace) <= ClockedTime(s.trace) + c.elapsed
  {
    hide Tick, Commit, ClocksRight, ClockedTime, IsPath, End, Log, Fold, HoldEvents, Readings, LeakyFold, Count;
    TickKeeps(s, c.poll, c.elapsed);
    var (s1, a) := Tick(s, c.poll, c.elapsed).value;
    CommitKeeps(s1, a);
    var log := Log(CycleStep(s, c).value.trace);
    assert log[|log|..] == [];
  }

  /** Taking out the oldest entry leaves the newest. */
  lemma PoppedKeeps(s: Sup)
    requires Inv(s) && s.transitions != []
    ensures Inv(s.(transitions := s.transitions[1..]))
  {
    hide Log, IsPath, End, Count, Fold, HoldEvents, Readings, LeakyFold, HardFold, ClockedTime;
    var log := Log(s.trace);
    assert s.transitions[1..] == log[|log| - |s.transitions| + 1..];
  }

  lemma NewKeeps(cfg: Config)
    requires WellFormed(cfg)
    ensures Inv(New(cfg))
  {
    assert Log([]) == [];
  }

  /** The supervisor never panics: whatever the polls and the elapsed times,
      every move finds its cell, every `expect` its value and every commit its
      ticket, as long as a ticket is committed before the next tick or dropped. */
  lemma {:induction false} NeverPanics(cfg: Config, cs: seq<Cycle>)
    requires WellFormed(cfg)
    ensures Run(New(cfg), cs).Done?
    ensures Inv(Run(New(cfg), cs).value)
  {
    if cs == [] {
      NewKeeps(cfg);
    } else {
      NeverPanics(cfg, cs[..|cs| - 1]);
      CycleKeeps(Run(New(cfg), cs[..|cs| - 1]).value, cs[|cs| - 1]);
    }
  }
}
