/** What the safety gauntlet and the phase machine decide, said without their
    code: a precedence table of conditions, and exact conditions over histories. */
module SupervisorChecks {
  import opened Wrappers
  import opened Timing
  import opened ChargeTypes
  import opened ChargeStates
  import opened Debouncing
  import opened HoldBudgets
  import opened SupervisorSpec
  import opened SupervisorInvariant
  import opened SupervisorRuns

  // --------------------------------------------- the gauntlet's order of rule

  predicate TooHigh(s: Sup, b: Option<Sample>) {
    b.Some? && b.value.voltage > s.cfg.profile.absorbV + OV_MARGIN_V
  }

  predicate Rushes(s: Sup, b: Option<Sample>) {
    b.Some? && ChargingA(b.value) > s.cfg.profile.regulationA * OVERCURRENT_TOL
  }

  predicate Cold(s: Sup, p: PollResult) {
    s.cfg.packTemp.Fitted? && p.packTempC.Some? && p.packTempC.value < CHARGE_TEMP_MIN_C
  }

  predicate Hot(s: Sup, p: PollResult) {
    s.cfg.packTemp.Fitted? && p.packTempC.Some? && p.packTempC.value > CHARGE_TEMP_MAX_C
  }

  predicate Unfelt(s: Sup, p: PollResult, dt: nat) {
    s.cfg.packTemp.Fitted? && p.packTempC.None? && s.packTempMissing + dt >= PACK_TEMP_STALE_TIMEOUT
  }

  predicate Deaf(s: Sup, p: PollResult, dt: nat) {
    p.setpoints.None? && s.modbusErr + dt >= MODBUS_UNHEALTHY_TIMEOUT
  }

  predicate Blind(s: Sup, p: PollResult, dt: nat) {
    FiniteSample(p.battery).None? && s.batteryMissing + dt >= BATTERY_MISSING_TIMEOUT
  }

  /** What stops a buck that is sourcing: the first of these that holds. */
  ghost function SourcingRuling(s: Sup, p: PollResult, dt: nat): Option<Verdict> {
    var b := FiniteSample(p.battery);
    if Flapping(HoldEvents(s.trace) + [Quiet(dt)]) then Some(Latch(ProtectionFlapping))
    else if ReadsWrong(s, p) then Some(Latch(SettingsDrift))
    else if Deaf(s, p, dt) then Some(Latch(ModbusUnhealthy))
    else if Blind(s, p, dt) then Some(Latch(BatterySensorStale))
    else if b.None? then Some(Inhibit(WaitNoBatterySample))
    else if TooHigh(s, b) && s.ov + dt >= OV_DURATION then Some(Latch(Overvoltage))
    else if Rushes(s, b) && s.overcurrent + dt >= OVERCURRENT_DURATION then Some(Latch(ChargeOvercurrent))
    else if Unfelt(s, p, dt) then Some(Latch(PackTempStale))
    else if Cold(s, p) then Some(Latch(PackTooCold))
    else if Hot(s, p) then Some(Latch(PackTooHot))
    else None
  }

  /** What keeps an idle buck waiting: the first of these that holds. Nothing
      but flapping latches, and there is no grace for a high battery. */
  ghost function BringUpRuling(s: Sup, p: PollResult, dt: nat): Option<Verdict> {
    var b := FiniteSample(p.battery);
    if Flapping(HoldEvents(s.trace) + [Quiet(dt)]) then Some(Latch(ProtectionFlapping))
    else if ReadsWrong(s, p) then Some(Inhibit(WaitSettingsDrift))
    else if Deaf(s, p, dt) then Some(Inhibit(WaitModbusUnhealthy))
    else if Blind(s, p, dt) then Some(Inhibit(WaitBatterySensorStale))
    else if b.None? then Some(Inhibit(WaitNoBatterySample))
    else if TooHigh(s, b) then Some(Inhibit(WaitOvervoltage))
    else if Unfelt(s, p, dt) then Some(Inhibit(WaitPackTempStale))
    else if Cold(s, p) then Some(Inhibit(WaitPackTooCold))
    else if Hot(s, p) then Some(Inhibit(WaitPackTooHot))
    else if p.setpoints.None? then Some(Inhibit(WaitModbusUnhealthy))
    else match p.output
      case Some(Off(cause)) => if cause.Lvp? || cause.Otp? then Some(Inhibit(WaitBuckProtection(cause))) else None
      case _ => None
  }

  ghost function Ruling(s: Sup, p: PollResult, dt: nat): Option<Verdict> {
    if Sourcing(s.state) then SourcingRuling(s, p, dt) else BringUpRuling(s, p, dt)
  }

  lemma BusRules(s: Sup, p: PollResult, dt: nat)
    requires !Terminal(s.state)
    requires OverBudget(Age(s.holds, dt)) <==> Flapping(HoldEvents(s.trace) + [Quiet(dt)])
    ensures GauntletBus(s, p, dt).Done?
    ensures var (s', v) := GauntletBus(s, p, dt).value;
            && OnlyChecked(s, s', dt)
            && s'.ov == s.ov && s'.overcurrent == s.overcurrent && s'.packTempMissing == s.packTempMissing
            && if v.Clear? then
                 && Some(v.sample) == FiniteSample(p.battery)
                 && !Flapping(HoldEvents(s.trace) + [Quiet(dt)]) && !ReadsWrong(s, p) && !Deaf(s, p, dt)
               else
                 && (Sourcing(s.state) ==> SourcingRuling(s, p, dt) == Some(v))
                 && (!Sourcing(s.state) ==> BringUpRuling(s, p, dt) == Some(v))
  {
    hide Flapping, HoldEvents;
  }

  /** The verdict is the first ruling that holds, and the sample cleared is this
      tick's when none does. */
  lemma GauntletRules(s: Sup, p: PollResult, dt: nat)
    requires Base(s) && !Terminal(s.state)
    ensures Gauntlet(s, p, dt).Done?
    ensures var v := Gauntlet(s, p, dt).value.1;
            match Ruling(s, p, dt)
            case Some(r) => v == r
            case None => FiniteSample(p.battery).Some? && v == Clear(FiniteSample(p.battery).value)
  {
    hide Flapping, HoldEvents, Explains, GauntletBus;
    FlapBudgetCounts(s, dt);
    BusRules(s, p, dt);
  }

  /** What a tick does about the ruling on the machine that reconciliation leaves,
      moved or not: a fault of the parking class parks a buck that is not parked
      yet, any other trips it and owes the disable; a wait asks for nothing and
      moves nothing further. */
  lemma TickFollowsRuling(s: Sup, p: PollResult, dt: nat)
    requires Inv(s) && Reconcile(s, p).Done? && Reconcile(s, p).value.1.None?
    requires Ruling(Reconcile(s, p).value.0, p, dt).Some?
    ensures Tick(s, p, dt).Done?
    ensures var (r, (s', a)) := (Reconcile(s, p).value.0, Tick(s, p, dt).value);
            match Ruling(r, p, dt).value
            case Inhibit(why) => s'.state == r.state && s'.fault == s.fault && s'.inhibit == Some(why) && a == NoAction
            case Clear(_) => false
            case Latch(f) =>
              && s'.fault == Some(f) && s'.inhibit.None?
              && if Response(f).Park? && !ParkedUp(r.state) then
                   ParkedUp(s'.state) && (a == NoAction || (a.UpdateVoltage? && a.ticket.phase.FloatPhase?))
                 else s'.state.Tripping? && a == DisableOutput(f)
  {
    hide Ruling, Reconcile, Judge, Base, Timed;
    ReconcileKeeps(s, p);
    JudgeFollowsRuling(Reconcile(s, p).value.0, p, dt);
  }

  lemma JudgeFollowsRuling(s: Sup, p: PollResult, dt: nat)
    requires Base(s) && Timed(s) && FaultFits(s) && !Terminal(s.state) && Ruling(s, p, dt).Some?
    ensures Judge(s, p, dt).Done?
    ensures var (s', a) := Judge(s, p, dt).value;
            match Ruling(s, p, dt).value
            case Inhibit(why) => s'.state == s.state && s'.fault == s.fault && s'.inhibit == Some(why) && a == NoAction
            case Clear(_) => false
            case Latch(f) =>
              && s'.fault == Some(f) && s'.inhibit.None?
              && if Response(f).Park? && !ParkedUp(s.state) then
                   ParkedUp(s'.state) && (a == NoAction || (a.UpdateVoltage? && a.ticket.phase.FloatPhase?))
                 else s'.state.Tripping? && a == DisableOutput(f)
  {
    hide SourcingRuling, BringUpRuling, Gauntlet, OnFault, Explains, ClocksRight, Extends, HoldEvents, ReadsWrong;
    GauntletKeeps(s, p, dt);
    GauntletRules(s, p, dt);
    RulingNeverClears(s, p, dt);
    var (s1, v) := Gauntlet(s, p, dt).value;
    if v.Latch? {
      OnFaultKeeps(s1, v.fault);
      OnFaultActs(s1, v.fault);
    }
  }

  lemma RulingNeverClears(s: Sup, p: PollResult, dt: nat)
    ensures Ruling(s, p, dt).Some? ==> !Ruling(s, p, dt).value.Clear?
  {
    hide Flapping, HoldEvents;
  }

  lemma OnFaultActs(s: Sup, r: FaultReason)
    requires OnFault(s, r).Done?
    ensures var (s', a) := OnFault(s, r).value;
            if Response(r).Park? && !ParkedUp(s.state) then
              a == NoAction || (a.UpdateVoltage? && a.ticket.phase == RetargetTo(s'.state).value)
            else a == DisableOutput(r)
  {
    hide Push, Next;
  }

  // ----------------------------------------------- the phase machine, exactly

  /** Some window that ends now nets at least the limit. */
  ghost predicate SomeWindow(h: seq<Reading>, limit: nat) {
    exists k :: 0 <= k <= |h| && Net(h[k..]) >= limit
  }

  lemma WindowFires(h: seq<Reading>, r: Reading, limit: nat)
    requires 0 < limit
    ensures LeakyStep(LeakyFold(h), r) >= limit <==> SomeWindow(h + [r], limit)
  {
    hide LeakyStep;
    ExtendHard(h, r);
    LeakyFiresExactly(h + [r], limit);
  }

  /** Some window of the tail clock's readings, this one included, is long enough. */
  ghost predicate TaperDone(s: Sup, b: Sample, dt: nat) {
    SomeWindow(Readings(s.trace, TailClock) + [Reading(ChargingA(b) < s.cfg.profile.exitAbsorbA, dt)], EXIT_DEBOUNCE)
  }

  /** The fault that ends this absorb, if one does. */
  ghost function AbsorbFault(s: Sup, b: Sample, dt: nat): Option<FaultReason> {
    var p := s.cfg.profile;
    if TaperDone(s, b, dt) then None
    else if SomeWindow(Readings(s.trace, PlateauClock) + [Reading(b.voltage >= p.absorbV - ABSORB_CV_BAND_V, dt)], MAX_ABSORB)
    then Some(AbsorbTimeout)
    else if HardFold(Readings(s.trace, CycleClock)) + dt >= MAX_CHARGE then Some(ChargeTimeout)
    else None
  }

  /** What regulating comes to: the state, and the target asked for if any. Absorb
      ends for the first of three reasons that its history gives, the last two
      with a fault; float steps up on current alone; an owed write is asked for
      again; a parked buck is left alone. */
  ghost function Regulated(s: Sup, b: Sample, dt: nat): (ChargeState, Option<Phase>) {
    match s.state
    case Absorb =>
      if TaperDone(s, b, dt) then (ToFloat, Some(FloatPhase))
      else if AbsorbFault(s, b, dt).Some? then (ToParked, Some(FloatPhase))
      else (Absorb, None)
    case Float => if ChargingA(b) > s.cfg.profile.enterAbsorbA then (ToAbsorb, Some(AbsorbPhase)) else (Float, None)
    case other => (other, RetargetTo(other))
  }

  /** The outcome of regulating: the state, the fault on show, and the write asked
      for, which cycles the output when and only when it goes down to float. */
  ghost predicate IsRegulated(s: Sup, b: Sample, dt: nat, s': Sup, a: Action) {
    var (state, phase) := Regulated(s, b, dt);
    && s'.state == state
    && s'.fault == (if s.state.Absorb? && AbsorbFault(s, b, dt).Some? then AbsorbFault(s, b, dt) else s.fault)
    && a == match phase
            case None => NoAction
            case Some(ph) => UpdateVoltage(VoltageTicket(ph, TargetVoltage(s.cfg.profile, ph), ph.FloatPhase?))
  }

  lemma AbsorbRegulates(s: Sup, b: Sample, dt: nat)
    requires Inv(s) && s.state.Absorb?
    ensures Regulate(s, b, dt).Done?
    ensures var (s', a) := Regulate(s, b, dt).value; IsRegulated(s, b, dt, s', a)
  {
    hide Explains, Readings, LeakyFold, HardFold, SomeWindow, Push, HoldEvents, Extends;
    var p := s.cfg.profile;
    RegulateKeeps(s, b, dt);
    WindowFires(Readings(s.trace, TailClock), Reading(ChargingA(b) < p.exitAbsorbA, dt), EXIT_DEBOUNCE);
    WindowFires(Readings(s.trace, PlateauClock), Reading(b.voltage >= p.absorbV - ABSORB_CV_BAND_V, dt), MAX_ABSORB);
  }

  /** The phase machine, exactly, from every sourcing state. */
  lemma RegulatesExactly(s: Sup, b: Sample, dt: nat)
    requires Inv(s) && Sourcing(s.state)
    ensures Regulate(s, b, dt).Done?
    ensures var (s', a) := Regulate(s, b, dt).value; IsRegulated(s, b, dt, s', a)
  {
    hide Explains, Readings, LeakyFold, HardFold, SomeWindow, TaperDone, AbsorbFault, AbsorbCaps, Push, HoldEvents, Extends;
    if s.state.Absorb? { AbsorbRegulates(s, b, dt); } else { RegulateKeeps(s, b, dt); }
  }

  // ------------------------------------------------------ a buck that drops out

  /** A judged machine that is idle stays in its state unless it is flapping. */
  lemma IdleStaysPut(s: Sup, p: PollResult, dt: nat)
    requires Base(s) && Timed(s) && FaultFits(s) && BringingUp(s.state)
    ensures Judge(s, p, dt).Done?
    ensures var (s', a) := Judge(s, p, dt).value;
            if Flapping(HoldEvents(s.trace) + [Quiet(dt)]) then
              s'.state.Tripping? && s'.fault == Some(ProtectionFlapping) && a == DisableOutput(ProtectionFlapping)
            else s'.state == s.state && s'.fault == s.fault
  {
    hide Gauntlet, OnFault, Explains, ClocksRight, Extends, HoldEvents, Flapping, ReadsWrong, TimersRan, Progress;
    JudgeKeeps(s, p, dt);
    GauntletKeeps(s, p, dt);
    FlapBudgetCounts(s, dt);
    var (s1, v) := Gauntlet(s, p, dt).value;
    if v.Latch? {
      OnFaultKeeps(s1, v.fault);
      OnFaultActs(s1, v.fault);
    }
  }

  /** A sourcing buck found off. A cause that clears itself is waited out, at the
      target the buck still holds, unless a park's own step-down was under way or
      this hold is the one too many; anything else trips, naming the cause. */
  lemma DropOutExactly(s: Sup, p: PollResult, dt: nat, cause: Protection)
    requires Inv(s) && Sourcing(s.state) && p.output == Some(Off(cause))
    ensures Tick(s, p, dt).Done?
    ensures var (s', a) := Tick(s, p, dt).value;
            var waits := (cause.Lvp? || cause.Otp?) && !s.state.ToParked?;
            var flaps := Flapping(HoldEvents(s.trace) + [Recorded] + [Quiet(dt)]);
            if waits && !flaps then
              && Holding(s'.state) && SetpointPhase(s'.state) == SetpointPhase(s.state)
              && s'.fault == s.fault && a == NoAction
            else
              && s'.state.Tripping?
              && s'.fault == Some(if waits then ProtectionFlapping else OutputUnexpectedlyOff(cause))
              && a == DisableOutput(s'.fault.value)
  {
    hide Judge, OnFault, Explains, ClocksRight, Extends, HoldEvents, Flapping, ReadsWrong, TimersRan, Step;
    TickKeeps(s, p, dt);
    TickEnablesExactly(s, p, dt);
    ReconcileKeeps(s, p);
    if SelfClearing(cause) && !s.state.ToParked? {
      StepKeeps(s, SelfDisabled);
      IdleStaysPut(Reconcile(s, p).value.0, p, dt);
    } else {
      OnFaultKeeps(s, OutputUnexpectedlyOff(cause));
      OnFaultActs(s, OutputUnexpectedlyOff(cause));
    }
  }

  // --------------------------------------------------------- the fault on show

  /** The fault that the reported output is by itself. */
  function DeviceFault(s: Sup, p: PollResult): Option<FaultReason> {
    match p.output
    case Some(Off(cause)) =>
      if Sourcing(s.state) && (!(cause.Lvp? || cause.Otp?) || s.state.ToParked?)
      then Some(OutputUnexpectedlyOff(cause)) else None
    case Some(On) => if s.state.Boot? then Some(OutputOnInPending) else None
    case None => None
  }

  /** The fault a tick raises on a machine that has not latched. */
  ghost function RaisedFault(s: Sup, p: PollResult, dt: nat): Option<FaultReason>
    requires Reconcile(s, p).Done?
  {
    if DeviceFault(s, p).Some? then DeviceFault(s, p)
    else
      var r := Reconcile(s, p).value.0;
      match Ruling(r, p, dt)
      case Some(Latch(f)) => Some(f)
      case Some(_) => None
      case None =>
        if r.state.Absorb? && FiniteSample(p.battery).Some? then AbsorbFault(r, FiniteSample(p.battery).value, dt) else None
  }

  lemma ReconcileDecidesExactly(s: Sup, p: PollResult)
    requires Inv(s) && !Terminal(s.state)
    ensures Reconcile(s, p).Done?
    ensures var (s', decided) := Reconcile(s, p).value;
            && (decided.Some? <==> DeviceFault(s, p).Some?)
            && (decided.Some? ==> s'.fault == DeviceFault(s, p) && s'.inhibit.None?)
  {
    hide Step, Explains, ClocksRight, OnFault;
    ReconcileKeeps(s, p);
    match p.output
    case Some(Off(cause)) =>
      if Sourcing(s.state) && (!SelfClearing(cause) || s.state.ToParked?) {
        OnFaultKeeps(s, OutputUnexpectedlyOff(cause));
      }
    case Some(On) => if s.state.Boot? { OnFaultKeeps(s, OutputOnInPending); }
    case None =>
  }

  /** The gauntlet only adds the time it was charged to the history. */
  lemma ChecksLeaveClocks(s: Sup, s': Sup, dt: nat)
    requires OnlyChecked(s, s', dt)
    ensures forall c :: Readings(s'.trace, c) == Readings(s.trace, c)
  {
    ExtendReadings(s.trace, Aged(dt));
  }

  lemma ClearedFault(s: Sup, p: PollResult, dt: nat)
    requires Base(s) && Timed(s) && FaultFits(s) && !Terminal(s.state) && Ruling(s, p, dt).None?
    ensures Judge(s, p, dt).Done? && FiniteSample(p.battery).Some? && Judge(s, p, dt).value.0.inhibit.None?
    ensures var f := Judge(s, p, dt).value.0.fault;
            f == if s.state.Absorb? && AbsorbFault(s, FiniteSample(p.battery).value, dt).Some?
                 then AbsorbFault(s, FiniteSample(p.battery).value, dt) else s.fault
  {
    hide Ruling, Gauntlet, Regulate, Explains, ClocksRight, Extends, HoldEvents, ReadsWrong, TimersRan,
         SomeWindow, Readings, HardFold, ChargingA;
    GauntletKeeps(s, p, dt);
    GauntletRules(s, p, dt);
    var (s1, v) := Gauntlet(s, p, dt).value;
    ChecksLeaveClocks(s, s1, dt);
    var s2 := s1.(inhibit := None);
    if !BringingUp(s.state) {
      RegulateKeeps(s2, v.sample, dt);
      RegulatesExactly(s2, v.sample, dt);
    }
  }

  /** The fault after any cycle: a latched machine's own, otherwise the one this
      tick raised, otherwise the one before. */
  lemma FaultExactly(s: Sup, c: Cycle)
    requires Inv(s)
    ensures CycleStep(s, c).Done? && Reconcile(s, c.poll).Done?
    ensures CycleStep(s, c).value.fault ==
              if !Terminal(s.state) && RaisedFault(s, c.poll, c.elapsed).Some?
              then RaisedFault(s, c.poll, c.elapsed) else s.fault
  {
    hide Reconcile, Judge, Commit, Base, Timed, Progress, TimersRan, DeviceFault, Ruling, AbsorbFault, FiniteSample, ReadsWrong, HoldsHeard;
    TickKeeps(s, c.poll, c.elapsed);
    var (s1, a) := Tick(s, c.poll, c.elapsed).value;
    CommitKeeps(s1, a);
    ReconcileKeeps(s, c.poll);
    if !Terminal(s.state) {
      ReconcileDecidesExactly(s, c.poll);
      var (r, decided) := Reconcile(s, c.poll).value;
      if decided.None? {
        if Ruling(r, c.poll, c.elapsed).Some? {
          JudgeFollowsRuling(r, c.poll, c.elapsed);
        } else {
          ClearedFault(r, c.poll, c.elapsed);
        }
      }
    }
  }

  /** What the supervisor reports waiting on after any cycle: this tick's waiting
      verdict, and nothing on a tick that cleared, latched or parked; a latched
      machine goes on reporting what it did. */
  lemma InhibitExactly(s: Sup, c: Cycle)
    requires Inv(s)
    ensures CycleStep(s, c).Done? && Reconcile(s, c.poll).Done?
    ensures CycleStep(s, c).value.inhibit ==
              if Terminal(s.state) then s.inhibit
              else if DeviceFault(s, c.poll).Some? then None
              else match Ruling(Reconcile(s, c.poll).value.0, c.poll, c.elapsed)
                case Some(Inhibit(why)) => Some(why)
                case _ => None
  {
    hide Reconcile, Judge, Commit, Base, Timed, Progress, TimersRan, DeviceFault, Ruling, AbsorbFault, FiniteSample, ReadsWrong, HoldsHeard;
    TickKeeps(s, c.poll, c.elapsed);
    var (s1, a) := Tick(s, c.poll, c.elapsed).value;
    CommitKeeps(s1, a);
    ReconcileKeeps(s, c.poll);
    if !Terminal(s.state) {
      ReconcileDecidesExactly(s, c.poll);
      var (r, decided) := Reconcile(s, c.poll).value;
      if decided.None? {
        if Ruling(r, c.poll, c.elapsed).Some? {
          JudgeFollowsRuling(r, c.poll, c.elapsed);
        } else {
          ClearedFault(r, c.poll, c.elapsed);
        }
      }
    }
  }

  /** Nothing but the reported output is ever blamed on the output. */
  lemma RulingsBlameOthers(s: Sup, p: PollResult, dt: nat)
    requires Reconcile(s, p).Done? && DeviceFault(s, p).None?
    ensures var f := RaisedFault(s, p, dt); f.None? || !f.value.OutputUnexpectedlyOff?
  {
    hide Flapping, HoldEvents, Reconcile, SomeWindow, Readings, HardFold;
  }

  /** On a live sourcing buck whose holds are no flap, a wrong readback is the fault. */
  lemma DriftIsRaisedExactly(s: Sup, p: PollResult, dt: nat)
    requires Sourcing(s.state) && p.output == Some(On)
    requires !Flapping(HoldEvents(s.trace) + [Quiet(dt)])
    ensures Reconcile(s, p).Done? && DeviceFault(s, p).None?
    ensures ReadsWrong(s, p) ==> RaisedFault(s, p, dt) == Some(SettingsDrift)
  {
    hide Flapping, HoldEvents, ReadsWrong, SomeWindow, Readings;
  }

  lemma DeviceFaultIsRaised(s: Sup, p: PollResult, dt: nat)
    requires Reconcile(s, p).Done? && DeviceFault(s, p).Some?
    ensures RaisedFault(s, p, dt) == DeviceFault(s, p)
  {
  }

  /** This cycle replaces a fault on show: the machine had not latched, and either
      its parked output was found off for good, or the gauntlet's ruling is another
      fault. A park's own fault, raised again, latches but is not replaced. */
  ghost predicate Replaces(s: Sup, c: Cycle) {
    && !Terminal(s.state) && Reconcile(s, c.poll).Done?
    && (DeviceFault(s, c.poll).Some? ||
        (Ruling(Reconcile(s, c.poll).value.0, c.poll, c.elapsed).Some? &&
         var v := Ruling(Reconcile(s, c.poll).value.0, c.poll, c.elapsed).value;
         v.Latch? && Some(v.fault) != s.fault))
  }

  lemma FaultIsReplacedExactly(s: Sup, c: Cycle)
    requires Inv(s) && s.fault.Some?
    ensures CycleStep(s, c).Done?
    ensures CycleStep(s, c).value.fault != s.fault <==> Replaces(s, c)
  {
    hide CycleStep, Reconcile, Base, Timed, Ruling, AbsorbFault, FiniteSample;
    FaultExactly(s, c);
    ReconcileKeeps(s, c.poll);
    if !Terminal(s.state) {
      ReconcileDecidesExactly(s, c.poll);
    }
  }

  /** Over a whole run a fault on show ends up replaced exactly when one of its
      cycles replaces it; the machine has then latched, so it is replaced once. */
  lemma {:induction false} FaultIsReplacedOnce(s: Sup, cs: seq<Cycle>)
    requires Inv(s) && s.fault.Some?
    ensures Run(s, cs).Done?
    ensures var s' := Run(s, cs).value;
            && s'.fault.Some?
            && (s'.fault != s.fault ==> Terminal(s'.state))
            && (s'.fault != s.fault <==>
                  exists k :: 0 <= k < |cs| && Run(s, cs[..k]).Done? && Replaces(Run(s, cs[..k]).value, cs[k]))
  {
    hide CycleStep, Inv, Replaces;
    if cs != [] {
      var init, c := cs[..|cs| - 1], cs[|cs| - 1];
      FaultIsReplacedOnce(s, init);
      RunKeeps(s, init);
      var before := Run(s, init).value;
      ShownFaultCycle(before, c);
      ShownFaultLasts(s, init);
      FaultIsReplacedExactly(before, c);
      LatchedIsNotReplaced(before, c);
      forall k | 0 <= k < |init| ensures init[k] == cs[k] && init[..k] == cs[..k] {}
      if k :| 0 <= k < |init| && Run(s, init[..k]).Done? && Replaces(Run(s, init[..k]).value, init[k]) {
        assert Replaces(Run(s, cs[..k]).value, cs[k]);
      }
    }
  }

  lemma LatchedIsNotReplaced(s: Sup, c: Cycle)
    ensures Terminal(s.state) ==> !Replaces(s, c)
  {
  }

  // ----------------------------------------------------------- a disable that is owed

  /** A machine that has latched asks for its disable on every tick until it is
      confirmed, and again whenever the output is reported on; otherwise for nothing. */
  lemma DisableIsOwedExactly(s: Sup, p: PollResult, dt: nat)
    requires Inv(s) && Terminal(s.state)
    ensures Tick(s, p, dt).Done? && s.fault.Some?
    ensures var (s', a) := Tick(s, p, dt).value;
            if s.state.Tripping? || p.output == Some(On) then
              s'.state.Tripping? && a == DisableOutput(s.fault.value)
            else s'.state.Latched? && a == NoAction
  {
    hide Judge, Base, Timed, Step;
    TickKeeps(s, p, dt);
    if s.state.Latched? && p.output == Some(On) { ReconcileResurfaces(s, p); }
  }

  lemma ReconcileResurfaces(s: Sup, p: PollResult)
    requires Inv(s) && s.state.Latched? && p.output == Some(On)
    ensures Reconcile(s, p).Done?
    ensures var (s', decided) := Reconcile(s, p).value;
            s'.state.Tripping? && s.fault.Some? && decided == Some(DisableOutput(s.fault.value))
  {
    hide Base, Timed, Push;
    ReconcileKeeps(s, p);
  }

  // ---------------------------------------------------- a buck that comes back by itself

  /** A hold whose buck reports itself on is recovery: the machine is settled at the
      target the buck held, parked if it was, before this tick's checks judge it; in
      `Boot` the same report is the fault. Elsewhere a report of on moves nothing. */
  lemma ComesBackExactly(s: Sup, p: PollResult)
    requires Inv(s) && !Terminal(s.state) && p.output == Some(On)
    ensures Reconcile(s, p).Done?
    ensures var (r, decided) := Reconcile(s, p).value;
            if s.state.Boot? then
              r.state.Tripping? && r.fault == Some(OutputOnInPending) && decided == Some(DisableOutput(OutputOnInPending))
            else if Holding(s.state) then
              decided.None? && Settled(r.state, SetpointPhase(s.state), s.state.HoldParked?)
            else decided.None? && r == s
  {
    hide Base, Timed, Push;
    ReconcileKeeps(s, p);
    TableIsCoherent(s.state, SelfEnabled);
  }

  // ------------------------------------------------------- where an enable lands

  /** A committed enable ends in the phase the device holds: parked out of a parked
      hold, absorb if it holds the absorb target, and otherwise float, with the
      step up to absorb owed exactly if the ticket says so. */
  lemma EnableLandsExactly(s: Sup, resume: bool)
    requires Inv(s) && BringingUp(s.state) && s.modbusErr == 0 && s.batteryMissing == 0
    ensures Commit(s, EnableOutput(resume)).Done?
    ensures var state := Commit(s, EnableOutput(resume)).value.state;
            match s.state
            case HoldParked => state == Parked
            case HoldAbsorb => state == Absorb
            case _ => if resume then state == ToAbsorb else state == Float
  {
    hide Base, Timed, Push;
    CommitKeeps(s, EnableOutput(resume));
  }

  lemma OwedStepUpTick(s: Sup, p: PollResult, dt: nat)
    requires Inv(s) && s.state.ToAbsorb? && (p.output.None? || p.output.value.On?)
    ensures Tick(s, p, dt).Done?
    ensures var (s', a) := Tick(s, p, dt).value;
            match Ruling(s, p, dt)
            case None => s'.state.ToAbsorb? && a == UpdateVoltage(VoltageTicket(AbsorbPhase, s.cfg.profile.absorbV, false))
            case Some(Inhibit(_)) => s'.state.ToAbsorb? && a == NoAction
            case Some(_) => Stopped(s'.state)
  {
    hide Judge, Explains, ClocksRight, HoldEvents, Ruling, Regulated;
    assert Reconcile(s, p) == Done((s, None));
    if Ruling(s, p, dt).Some? {
      JudgeFollowsRuling(s, p, dt);
    } else {
      ClearedStepUp(s, p, dt);
    }
  }

  lemma ClearedStepUp(s: Sup, p: PollResult, dt: nat)
    requires Inv(s) && s.state.ToAbsorb? && Ruling(s, p, dt).None?
    ensures Judge(s, p, dt).Done?
    ensures var (s', a) := Judge(s, p, dt).value;
            s'.state.ToAbsorb? && a == UpdateVoltage(VoltageTicket(AbsorbPhase, s.cfg.profile.absorbV, false))
  {
    hide Ruling, Gauntlet, Regulate, Explains, ClocksRight, HoldEvents;
    GauntletKeeps(s, p, dt);
    GauntletRules(s, p, dt);
    var (s1, v) := Gauntlet(s, p, dt).value;
    RegulatesExactly(s1.(inhibit := None), v.sample, dt);
  }

  /** A step up owed is asked for on every tick that clears, until it is written:
      over any run in which the output is not reported off, the machine still owes
      it, or has stopped charging, or has had a ticket for it land. */
  lemma {:induction false} StepUpStaysOwed(s: Sup, cs: seq<Cycle>)
    requires Inv(s) && s.state.ToAbsorb?
    requires forall i :: 0 <= i < |cs| ==> cs[i].poll.output.None? || cs[i].poll.output.value.On?
    ensures Run(s, cs).Done? && Inv(Run(s, cs).value) && Run(s, cs).value.cfg == s.cfg
    ensures var s' := Run(s, cs).value;
            || s'.state.ToAbsorb? || Stopped(s'.state)
            || exists i :: 0 <= i < |cs| && Run(s, cs[..i]).Done? && WritesStepUp(Run(s, cs[..i]).value, cs[i])
  {
    hide CycleStep, Inv, WritesStepUp, Stopped;
    RunKeeps(s, cs);
    if cs != [] {
      var init, c := cs[..|cs| - 1], cs[|cs| - 1];
      StepUpStaysOwed(s, init);
      RunKeeps(s, init);
      var before := Run(s, init).value;
      forall i | 0 <= i < |init| ensures init[i] == cs[i] && init[..i] == cs[..i] {}
      if i :| 0 <= i < |init| && Run(s, init[..i]).Done? && WritesStepUp(Run(s, init[..i]).value, init[i]) {
        assert WritesStepUp(Run(s, cs[..i]).value, cs[i]);
      } else if before.state.ToAbsorb? {
        OwedStepUpCycle(before, c);
      } else {
        StoppedOn(before, c);
      }
    }
  }

  /** This cycle asks for the step up and its write lands. */
  predicate WritesStepUp(s: Sup, c: Cycle) {
    && c.landed && Tick(s, c.poll, c.elapsed).Done?
    && var a := Tick(s, c.poll, c.elapsed).value.1;
       a.UpdateVoltage? && a.ticket.phase.AbsorbPhase?
  }

  lemma OwedStepUpCycle(s: Sup, c: Cycle)
    requires Inv(s) && s.state.ToAbsorb? && (c.poll.output.None? || c.poll.output.value.On?)
    ensures CycleStep(s, c).Done?
    ensures CycleStep(s, c).value.state.ToAbsorb? || Stopped(CycleStep(s, c).value.state) || WritesStepUp(s, c)
  {
    hide Tick, Ruling, Base, Timed;
    OwedStepUpTick(s, c.poll, c.elapsed);
    TickKeeps(s, c.poll, c.elapsed);
    var (s1, a) := Tick(s, c.poll, c.elapsed).value;
    if Stopped(s1.state) { StoppedCommit(s1, a); }
  }

  lemma StoppedCommit(s: Sup, a: Action)
    requires Inv(s) && ActionFits(s, a) && Stopped(s.state)
    ensures Commit(s, a).Done? && Stopped(Commit(s, a).value.state)
  {
    hide Commit, Timed, Windows;
    CommitKeeps(s, a);
    PathStops(s, Commit(s, a).value);
  }

  lemma StoppedOn(s: Sup, c: Cycle)
    requires Inv(s)
    ensures CycleStep(s, c).Done? && (Stopped(s.state) ==> Stopped(CycleStep(s, c).value.state))
  {
    hide CycleStep, Timed, Windows;
    CycleKeeps(s, c);
    if Stopped(s.state) { PathStops(s, CycleStep(s, c).value); }
  }
}
