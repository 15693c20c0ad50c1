/** The charge supervisor as a function from one state to the next
    (`charge_supervisor.rs`). A panic in the source is the value `Panic`. */
module SupervisorSpec {
  import opened Wrappers
  import opened Timing
  import opened ChargeTypes
  import opened ChargeStates
  import opened Debouncing
  import opened HoldBudgets

  /** The supervisor's fields. `trace` is a history variable: every move, every
      tick that reached the safety checks, every tick of the phase clocks. */
  datatype Sup = Sup(
    cfg: Config,
    state: ChargeState,
    ov: nat, overcurrent: nat,
    holds: HoldCount,
    packTempMissing: nat,
    absorb: nat, chargeTotal: nat, exit: nat,
    batteryMissing: nat, modbusErr: nat,
    fault: Option<FaultReason>,
    inhibit: Option<InhibitReason>,
    transitions: seq<ChargeTransition>,
    trace: seq<Obs>)

  function New(cfg: Config): Sup {
    Sup(cfg, Boot, 0, 0, NO_HOLDS, 0, 0, 0, 0, 0, 0, None, None, [], [])
  }

  /** The transition buffer: oldest out when full, then a push that must fit. */
  function Push(ts: seq<ChargeTransition>, entry: Option<ChargeTransition>): Outcome<seq<ChargeTransition>> {
    match entry
    case None => Done(ts)
    case Some(x) =>
      var room := if |ts| == TRANSITION_BUFFER then ts[1..] else ts;
      if |room| < TRANSITION_BUFFER then Done(room + [x]) else Panic
  }

  /** The only writer of `state`. */
  function Step(s: Sup, e: ChargeEvent): Outcome<Sup> {
    match Next(s.state, e)
    case None => Panic
    case Some(to) =>
      var ts :- Push(s.transitions, LoggedAs(s.state, to));
      var dwell := !Terminal(to);
      Done(s.(
        state := to,
        transitions := ts,
        absorb := if dwell then 0 else s.absorb,
        chargeTotal := if dwell then 0 else s.chargeTotal,
        exit := if dwell then 0 else s.exit,
        ov := if Holding(to) then 0 else s.ov,
        holds := if Holding(to) then Record(s.holds) else s.holds,
        trace := s.trace + [Moved(s.state, e, to)]))
  }

  function ExpectedVoltage(s: Sup): Outcome<real> {
    match SetpointPhase(s.state)
    case None => Panic
    case Some(phase) => Done(TargetVoltage(s.cfg.profile, phase))
  }

  function UpdateVoltageFor(s: Sup, phase: Phase): Outcome<Action> {
    var live :- ExpectedVoltage(s);
    var target := TargetVoltage(s.cfg.profile, phase);
    Done(UpdateVoltage(VoltageTicket(phase, target, target < live)))
  }

  function DisableForLatchedFault(s: Sup): Outcome<Action> {
    match s.fault
    case None => Panic
    case Some(r) => Done(DisableOutput(r))
  }

  function OnFault(s: Sup, r: FaultReason): Outcome<(Sup, Action)> {
    var s1 := s.(fault := Some(r), inhibit := None);
    if Response(r).Park? && !ParkedUp(s.state) then
      var s2 :- Step(s1, ParkEvent);
      match RetargetTo(s2.state)
      case None => Done((s2, NoAction))
      case Some(phase) => var a :- UpdateVoltageFor(s2, phase); Done((s2, a))
    else
      var s2 :- Step(s1, Fault);
      var a :- DisableForLatchedFault(s2);
      Done((s2, a))
  }

  /** Agree with what OUTPUT_EN reports. An action means the tick is decided. */
  function Reconcile(s: Sup, p: PollResult): Outcome<(Sup, Option<Action>)> {
    if s.state.Tripping? then
      var a :- DisableForLatchedFault(s);
      Done((s, Some(a)))
    else if s.state.Latched? then
      if p.output == Some(On) then
        var s1 :- Step(s, SelfEnabled);
        var a :- DisableForLatchedFault(s1);
        Done((s1, Some(a)))
      else
        Done((s, Some(NoAction)))
    else
      match p.output
      case Some(Off(cause)) =>
        if !Sourcing(s.state) then Done((s, None))
        else if SelfClearing(cause) && Next(s.state, SelfDisabled).Some? then
          var s1 :- Step(s, SelfDisabled);
          Done((s1, None))
        else
          var (s1, a) :- OnFault(s, OutputUnexpectedlyOff(cause));
          Done((s1, Some(a)))
      case Some(On) =>
        if !BringingUp(s.state) then Done((s, None))
        else if Holding(s.state) then
          var s1 :- Step(s, SelfEnabled);
          Done((s1, None))
        else
          var (s1, a) :- OnFault(s, OutputOnInPending);
          Done((s1, Some(a)))
      case None => Done((s, None))
  }

  function FaultOrInhibit(s: Sup, r: FaultReason): Outcome<Verdict> {
    if Sourcing(s.state) then Done(Latch(r))
    else match Inhibited(r)
      case None => Panic
      case Some(why) => Done(Inhibit(why))
  }

  /** The readback is off by the drift tolerance or more. */
  predicate Drifted(s: Sup, wantV: real, sp: Setpoints) {
    !Agrees(wantV, sp.vSet) || !Agrees(s.cfg.iSetA, sp.iSet)
  }

  /** The ordered safety gauntlet, first half: flapping, drift, the Modbus link,
      and the battery sample. Without a verdict it hands on the sample. */
  function GauntletBus(s: Sup, p: PollResult, dt: nat): Outcome<(Sup, Verdict)> {
    var s1 := s.(holds := Age(s.holds, dt), trace := s.trace + [Aged(dt)]);
    if OverBudget(s1.holds) then Done((s1, Latch(ProtectionFlapping)))
    else
      var drifted :- match p.setpoints
        case None => Done(false)
        case Some(sp) => (var want :- ExpectedVoltage(s1); Done(Drifted(s1, want, sp)));
      if drifted then
        var v :- FaultOrInhibit(s1, SettingsDrift);
        Done((s1, v))
      else
        var s2 := s1.(modbusErr := HardStep(s1.modbusErr, Reading(p.setpoints.None?, dt)));
        if p.setpoints.None? && s2.modbusErr >= MODBUS_UNHEALTHY_TIMEOUT then
          var v :- FaultOrInhibit(s2, ModbusUnhealthy);
          Done((s2, v))
        else
          var battery := FiniteSample(p.battery);
          var s3 := s2.(batteryMissing := HardStep(s2.batteryMissing, Reading(battery.None?, dt)));
          if battery.None? && s3.batteryMissing >= BATTERY_MISSING_TIMEOUT then
            var v :- FaultOrInhibit(s3, BatterySensorStale);
            Done((s3, v))
          else
            match battery
            case None => Done((s3, Inhibit(WaitNoBatterySample)))
            case Some(b) => Done((s3, Clear(b)))
  }

  /** The gauntlet's checks on the battery itself: voltage, current, temperature. */
  function GauntletPack(s: Sup, p: PollResult, b: Sample, dt: nat): Outcome<(Sup, Verdict)> {
    var over := b.voltage > s.cfg.profile.absorbV + OV_MARGIN_V;
    var s1 := s.(ov := HardStep(s.ov, Reading(over, dt)));
    if Sourcing(s.state) && over && s1.ov >= OV_DURATION then Done((s1, Latch(Overvoltage)))
    else if !Sourcing(s.state) && over then Done((s1, Inhibit(WaitOvervoltage)))
    else
      var rush := ChargingA(b) > s.cfg.profile.regulationA * OVERCURRENT_TOL;
      var s2 := s1.(overcurrent := HardStep(s1.overcurrent, Reading(rush, dt)));
      if rush && s2.overcurrent >= OVERCURRENT_DURATION && Sourcing(s.state) then
        Done((s2, Latch(ChargeOvercurrent)))
      else if s.cfg.packTemp.Absent? then Done((s2, Clear(b)))
      else
        var s3 := s2.(packTempMissing := HardStep(s2.packTempMissing, Reading(p.packTempC.None?, dt)));
        if p.packTempC.None? && s3.packTempMissing >= PACK_TEMP_STALE_TIMEOUT then
          var v :- FaultOrInhibit(s3, PackTempStale);
          Done((s3, v))
        else if p.packTempC.Some? && p.packTempC.value < CHARGE_TEMP_MIN_C then
          var v :- FaultOrInhibit(s3, PackTooCold);
          Done((s3, v))
        else if p.packTempC.Some? && p.packTempC.value > CHARGE_TEMP_MAX_C then
          var v :- FaultOrInhibit(s3, PackTooHot);
          Done((s3, v))
        else Done((s3, Clear(b)))
  }

  /** The bring-up-only gates. */
  function GauntletGate(state: ChargeState, p: PollResult, b: Sample): Verdict {
    if !BringingUp(state) then Clear(b)
    else if p.setpoints.None? then Inhibit(WaitModbusUnhealthy)
    else match p.output
      case Some(Off(cause)) => if SelfClearing(cause) then Inhibit(WaitBuckProtection(cause)) else Clear(b)
      case _ => Clear(b)
  }

  function Gauntlet(s: Sup, p: PollResult, dt: nat): Outcome<(Sup, Verdict)> {
    var (s1, v1) :- GauntletBus(s, p, dt);
    if !v1.Clear? then Done((s1, v1))
    else
      var (s2, v2) :- GauntletPack(s1, p, v1.sample, dt);
      if !v2.Clear? then Done((s2, v2)) else Done((s2, GauntletGate(s2.state, p, v2.sample)))
  }

  /** `step_leaky` with its debug assertion. */
  function LeakyChecked(elapsed: nat, r: Reading, timeout: nat): Outcome<nat> {
    var e := LeakyStep(elapsed, r);
    if e <= timeout + r.dt then Done(e) else Panic
  }

  /** The two caps on an absorb cycle: net time at the plateau, total time. */
  function AbsorbCaps(s: Sup, atCv: bool, dt: nat): Outcome<(Sup, Action)> {
    var absorb :- LeakyChecked(s.absorb, Reading(atCv, dt), MAX_ABSORB);
    var s1 := s.(absorb := absorb);
    if absorb >= MAX_ABSORB then OnFault(s1, AbsorbTimeout)
    else
      var s2 := s1.(chargeTotal := HardStep(s1.chargeTotal, Reading(true, dt)));
      if s2.chargeTotal >= MAX_CHARGE then OnFault(s2, ChargeTimeout) else Done((s2, NoAction))
  }

  /** The sourcing arm: an outstanding write, or the phase machine and its caps. */
  function Regulate(s: Sup, b: Sample, dt: nat): Outcome<(Sup, Action)> {
    match RetargetTo(s.state)
    case Some(phase) => var a :- UpdateVoltageFor(s, phase); Done((s, a))
    case None =>
      var below := s.state.Absorb? && ChargingA(b) < s.cfg.profile.exitAbsorbA;
      var atCv := b.voltage >= s.cfg.profile.absorbV - ABSORB_CV_BAND_V;
      var exit :- LeakyChecked(s.exit, Reading(below, dt), EXIT_DEBOUNCE);
      var s1 := s.(exit := exit, trace := s.trace + [Clocked(below, atCv, dt)]);
      if s.state.Float? && ChargingA(b) > s.cfg.profile.enterAbsorbA then
        var s2 :- Step(s1, TaperRose);
        var a :- UpdateVoltageFor(s2, AbsorbPhase);
        Done((s2, a))
      else if !s.state.Absorb? then Done((s1, NoAction))
      else if exit >= EXIT_DEBOUNCE then
        var s2 :- Step(s1, TaperFell);
        var a :- UpdateVoltageFor(s2, FloatPhase);
        Done((s2, a))
      else AbsorbCaps(s1, atCv, dt)
  }

  /** What a tick does once the device and the machine agree. */
  function Judge(s: Sup, p: PollResult, dt: nat): Outcome<(Sup, Action)> {
    var (s1, v) :- Gauntlet(s, p, dt);
    match v
    case Latch(r) => OnFault(s1, r)
    case Inhibit(why) => Done((s1.(inhibit := Some(why)), NoAction))
    case Clear(b) =>
      var s2 := s1.(inhibit := None);
      if BringingUp(s2.state) then Done((s2, EnableOutput(!RestedFull(s2.cfg.profile, b))))
      else Regulate(s2, b, dt)
  }

  function Tick(s: Sup, p: PollResult, dt: nat): Outcome<(Sup, Action)> {
    var (s1, decided) :- Reconcile(s, p);
    match decided
    case Some(a) => Done((s1, a))
    case None => Judge(s1, p, dt)
  }

  /** Committing the ticket an action carries, with the source's assertions. */
  function Commit(s: Sup, a: Action): Outcome<Sup> {
    match a
    case NoAction => Done(s)
    case EnableOutput(resume) => Step(s, if resume then EnabledBelowFull else Enabled)
    case UpdateVoltage(ticket) =>
      if RetargetTo(s.state) == Some(ticket.phase) then Step(s, VoltageWritten) else Panic
    case DisableOutput(r) => if s.fault == Some(r) then Step(s, Disabled) else Panic
  }

  /** One cycle of the caller: a tick, then the ticket committed if its write
      landed and dropped if not, then the transition buffer drained or not. */
  datatype Cycle = Cycle(poll: PollResult, elapsed: nat, landed: bool, drained: bool)

  function Acknowledge(s: Sup, a: Action, landed: bool): Outcome<Sup> {
    if landed then Commit(s, a) else Done(s)
  }

  function CycleStep(s: Sup, c: Cycle): Outcome<Sup> {
    var (s1, a) :- Tick(s, c.poll, c.elapsed);
    var s2 :- Acknowledge(s1, a, c.landed);
    Done(if c.drained then s2.(transitions := []) else s2)
  }

  function Run(s: Sup, cs: seq<Cycle>): Outcome<Sup> {
    if cs == [] then Done(s)
    else
      var before :- Run(s, cs[..|cs| - 1]);
      CycleStep(before, cs[|cs| - 1])
  }
}
