/** The counters behind the checks, as statements about the polls: each is the time
    charged by the ticks that got as far as its check since that was last all
    right, so a fault comes neither late nor early. */
module SupervisorTimers {
  import opened Wrappers
  import opened Timing
  import opened ChargeTypes
  import opened ChargeStates
  import opened Debouncing
  import opened HoldBudgets
  import opened SupervisorSpec
  import opened SupervisorInvariant
  import opened SupervisorRuns
  import opened SupervisorChecks

  /** The checks that wait for something to go on being wrong. */
  datatype Check = LinkCheck | SampleCheck | VoltageCheck | CurrentCheck | TempCheck

  function CounterOf(s: Sup, k: Check): nat {
    match k
    case LinkCheck => s.modbusErr
    case SampleCheck => s.batteryMissing
    case VoltageCheck => s.ov
    case CurrentCheck => s.overcurrent
    case TempCheck => s.packTempMissing
  }

  function WindowOf(k: Check): nat {
    match k
    case LinkCheck => 5 * SECOND
    case SampleCheck => 10 * SECOND
    case VoltageCheck => 3 * SECOND
    case CurrentCheck => 5 * SECOND
    case TempCheck => 10 * SECOND
  }

  function FaultOf(k: Check): FaultReason {
    match k
    case LinkCheck => ModbusUnhealthy
    case SampleCheck => BatterySensorStale
    case VoltageCheck => Overvoltage
    case CurrentCheck => ChargeOvercurrent
    case TempCheck => PackTempStale
  }

  /** What a check finds wrong. */
  predicate Bad(cfg: Config, p: PollResult, k: Check) {
    match k
    case LinkCheck => p.setpoints.None?
    case SampleCheck => FiniteSample(p.battery).None?
    case VoltageCheck =>
      var b := FiniteSample(p.battery);
      b.Some? && b.value.voltage > cfg.profile.absorbV + 0.2
    case CurrentCheck =>
      var b := FiniteSample(p.battery);
      b.Some? && 0.0 - b.value.current > cfg.profile.regulationA * 1.25
    case TempCheck => p.packTempC.None?
  }

  /** A tick gets as far as a check: no earlier one has a verdict. */
  ghost predicate Gets(s: Sup, p: PollResult, dt: nat, k: Check) {
    var b := FiniteSample(p.battery);
    && !Flapping(HoldEvents(s.trace) + [Quiet(dt)]) && !ReadsWrong(s, p)
    && (k.LinkCheck? || !Deaf(s, p, dt))
    && (k.LinkCheck? || k.SampleCheck? || b.Some?)
    && (k.CurrentCheck? || k.TempCheck? ==> !(TooHigh(s, b) && (Sourcing(s.state) ==> s.ov + dt >= OV_DURATION)))
    && (k.TempCheck? ==>
          && s.cfg.packTemp.Fitted?
          && !(Sourcing(s.state) && Rushes(s, b) && s.overcurrent + dt >= OVERCURRENT_DURATION))
  }

  /** Nothing was decided before the gauntlet, and the tick gets as far as the check. */
  ghost predicate Reaches(s: Sup, p: PollResult, dt: nat, k: Check)
    requires Reconcile(s, p).Done?
  {
    Reconcile(s, p).value.1.None? && Gets(Reconcile(s, p).value.0, p, dt, k)
  }

  /** This poll sends the machine into a hold. */
  predicate EntersHold(s: Sup, p: PollResult) {
    Reconcile(s, p).Done? && !Holding(s.state) && Holding(Reconcile(s, p).value.0.state)
  }

  /** Time charged by the ticks that got as far as the check since the last of them
      that found nothing wrong; for the voltage, since the last hold began too. */
  ghost function BadFor(s: Sup, cs: seq<Cycle>, k: Check): nat {
    if cs == [] then 0
    else
      var init, c := cs[..|cs| - 1], cs[|cs| - 1];
      match Run(s, init)
      case Panic => 0
      case Done(before) =>
        var sofar := if k.VoltageCheck? && EntersHold(before, c.poll) then 0 else BadFor(s, init, k);
        if Reconcile(before, c.poll).Panic? || !Reaches(before, c.poll, c.elapsed, k) then sofar
        else if Bad(before.cfg, c.poll, k) then sofar + c.elapsed
        else 0
  }

  // ------------------------------------------------------- what moves a counter

  predicate SameCounters(s: Sup, s': Sup) {
    forall k :: CounterOf(s', k) == CounterOf(s, k)
  }

  lemma StepCounts(s: Sup, e: ChargeEvent)
    ensures Step(s, e).Done? ==>
              SameCounters(if Holding(Step(s, e).value.state) then s.(ov := 0) else s, Step(s, e).value)
    ensures Step(s, e).Done? ==> (Holding(Step(s, e).value.state) <==> e.SelfDisabled?)
  {
    hide Push;
  }

  lemma OnFaultCounts(s: Sup, r: FaultReason)
    ensures OnFault(s, r).Done? ==> SameCounters(s, OnFault(s, r).value.0) && !Holding(OnFault(s, r).value.0.state)
  {
    hide Step;
    var s1 := s.(fault := Some(r), inhibit := None);
    StepCounts(s1, ParkEvent);
    StepCounts(s1, Fault);
  }

  lemma ReconcileCounts(s: Sup, p: PollResult)
    ensures Reconcile(s, p).Done? ==>
              SameCounters(if EntersHold(s, p) then s.(ov := 0) else s, Reconcile(s, p).value.0)
  {
    hide Step, OnFault;
    StepCounts(s, SelfEnabled);
    StepCounts(s, SelfDisabled);
    OnFaultCounts(s, OutputOnInPending);
    if p.output.Some? && p.output.value.Off? { OnFaultCounts(s, OutputUnexpectedlyOff(p.output.value.cause)); }
  }

  lemma RegulateCounts(s: Sup, b: Sample, dt: nat)
    ensures Regulate(s, b, dt).Done? ==> SameCounters(s, Regulate(s, b, dt).value.0)
  {
    hide Step, OnFault, LeakyStep, TargetVoltage, ChargingA, UpdateVoltageFor;
    var below := s.state.Absorb? && ChargingA(b) < s.cfg.profile.exitAbsorbA;
    var atCv := b.voltage >= s.cfg.profile.absorbV - ABSORB_CV_BAND_V;
    var s1 := s.(exit := LeakyStep(s.exit, Reading(below, dt)), trace := s.trace + [Clocked(below, atCv, dt)]);
    StepCounts(s1, TaperRose);
    StepCounts(s1, TaperFell);
    var s2 := s1.(absorb := LeakyStep(s.absorb, Reading(atCv, dt)));
    OnFaultCounts(s2, AbsorbTimeout);
    OnFaultCounts(s2.(chargeTotal := s.chargeTotal + dt), ChargeTimeout);
  }

  lemma CommitCounts(s: Sup, a: Action)
    ensures Commit(s, a).Done? ==> SameCounters(s, Commit(s, a).value)
  {
    hide Step;
    StepCounts(s, VoltageWritten);
    StepCounts(s, Disabled);
    StepCounts(s, Enabled);
    StepCounts(s, EnabledBelowFull);
  }

  lemma BusCounts(s: Sup, p: PollResult, dt: nat)
    requires !Terminal(s.state)
    requires OverBudget(Age(s.holds, dt)) <==> Flapping(HoldEvents(s.trace) + [Quiet(dt)])
    ensures GauntletBus(s, p, dt).Done?
    ensures var (g, v) := GauntletBus(s, p, dt).value;
            && g.cfg == s.cfg && g.state == s.state
            && g.ov == s.ov && g.overcurrent == s.overcurrent && g.packTempMissing == s.packTempMissing
            && (forall k: Check :: k.LinkCheck? || k.SampleCheck? ==>
                  CounterOf(g, k) ==
                    if Gets(s, p, dt, k) then HardStep(CounterOf(s, k), Reading(Bad(s.cfg, p, k), dt)) else CounterOf(s, k))
            && (v.Clear? <==> Gets(s, p, dt, VoltageCheck))
            && (v.Clear? ==> Some(v.sample) == FiniteSample(p.battery))
  {
    hide Flapping, HoldEvents, FiniteSample;
  }

  /** The checks on the pack, given that the bus checks cleared. */
  lemma PackCounts(s: Sup, p: PollResult, b: Sample, dt: nat)
    requires !Terminal(s.state) && FiniteSample(p.battery) == Some(b)
    ensures GauntletPack(s, p, b, dt).Done?
    ensures var g := GauntletPack(s, p, b, dt).value.0;
            var due := TooHigh(s, Some(b)) && (Sourcing(s.state) ==> s.ov + dt >= OV_DURATION);
            var rush := Sourcing(s.state) && Rushes(s, Some(b)) && s.overcurrent + dt >= OVERCURRENT_DURATION;
            && g.modbusErr == s.modbusErr && g.batteryMissing == s.batteryMissing
            && g.ov == HardStep(s.ov, Reading(Bad(s.cfg, p, VoltageCheck), dt))
            && g.overcurrent == (if due then s.overcurrent else HardStep(s.overcurrent, Reading(Bad(s.cfg, p, CurrentCheck), dt)))
            && g.packTempMissing ==
                 (if due || rush || s.cfg.packTemp.Absent? then s.packTempMissing
                  else HardStep(s.packTempMissing, Reading(Bad(s.cfg, p, TempCheck), dt)))
  {
    hide FiniteSample;
  }

  lemma GauntletCounts(s: Sup, p: PollResult, dt: nat)
    requires Base(s) && !Terminal(s.state)
    ensures Gauntlet(s, p, dt).Done?
    ensures var g := Gauntlet(s, p, dt).value.0;
            forall k :: CounterOf(g, k) ==
              if Gets(s, p, dt, k) then HardStep(CounterOf(s, k), Reading(Bad(s.cfg, p, k), dt)) else CounterOf(s, k)
  {
    hide Flapping, HoldEvents, Explains, GauntletBus, GauntletPack, FiniteSample, ReadsWrong;
    FlapBudgetCounts(s, dt);
    BusCounts(s, p, dt);
    var (s1, v) := GauntletBus(s, p, dt).value;
    if v.Clear? { PackCounts(s1, p, v.sample, dt); }
  }

  lemma JudgeCounts(s: Sup, p: PollResult, dt: nat)
    requires Base(s) && Timed(s) && FaultFits(s) && !Terminal(s.state)
    ensures Judge(s, p, dt).Done? && Gauntlet(s, p, dt).Done?
    ensures SameCounters(Gauntlet(s, p, dt).value.0, Judge(s, p, dt).value.0)
  {
    hide Gauntlet, OnFault, Regulate, Base, Timed, Progress, TimersRan, ReadsWrong;
    JudgeKeeps(s, p, dt);
    GauntletKeeps(s, p, dt);
    var (g, v) := Gauntlet(s, p, dt).value;
    match v
    case Latch(f) => OnFaultCounts(g, f);
    case Inhibit(_) =>
    case Clear(b) => RegulateCounts(g.(inhibit := None), b, dt);
  }

  lemma CycleCounts(s: Sup, c: Cycle, k: Check)
    requires Inv(s)
    ensures CycleStep(s, c).Done? && Reconcile(s, c.poll).Done?
    ensures var sofar := if k.VoltageCheck? && EntersHold(s, c.poll) then 0 else CounterOf(s, k);
            CounterOf(CycleStep(s, c).value, k) ==
              if Reaches(s, c.poll, c.elapsed, k) then HardStep(sofar, Reading(Bad(s.cfg, c.poll, k), c.elapsed)) else sofar
  {
    hide Reconcile, Commit, Gauntlet, Judge, Base, Timed, Progress, TimersRan, ReadsWrong, HoldsHeard, Gets, Bad;
    TickKeeps(s, c.poll, c.elapsed);
    var (s1, a) := Tick(s, c.poll, c.elapsed).value;
    CommitKeeps(s1, a);
    CommitCounts(s1, a);
    ReconcileKeeps(s, c.poll);
    ReconcileCounts(s, c.poll);
    AgreedKeeps(s, c.poll);
    var (r, decided) := Reconcile(s, c.poll).value;
    if decided.None? {
      JudgeCounts(r, c.poll, c.elapsed);
      GauntletCounts(r, c.poll, c.elapsed);
      assert CounterOf(s1, k) == CounterOf(Gauntlet(r, c.poll, c.elapsed).value.0, k);
    }
    assert CounterOf(CycleStep(s, c).value, k) == CounterOf(s1, k);
    assert CounterOf(r, k) == if k.VoltageCheck? && EntersHold(s, c.poll) then 0 else CounterOf(s, k);
  }

  /** After any run every counter is the time its history says, exactly. */
  lemma {:induction false} CountersAreTimes(cfg: Config, cs: seq<Cycle>, k: Check)
    requires WellFormed(cfg)
    ensures Run(New(cfg), cs).Done?
    ensures CounterOf(Run(New(cfg), cs).value, k) == BadFor(New(cfg), cs, k)
  {
    hide CycleStep, Inv, Reaches, Reconcile, Bad;
    if cs != [] {
      CountersAreTimes(cfg, cs[..|cs| - 1], k);
      NeverPanics(cfg, cs[..|cs| - 1]);
      CycleCounts(Run(New(cfg), cs[..|cs| - 1]).value, cs[|cs| - 1], k);
    }
  }

  // ----------------------------------------------------- what the counters decide

  lemma RulesWhenDue(s: Sup, p: PollResult, dt: nat, k: Check)
    requires Sourcing(s.state)
    ensures SourcingRuling(s, p, dt) == Some(Latch(FaultOf(k))) <==>
              Gets(s, p, dt, k) && Bad(s.cfg, p, k) && CounterOf(s, k) + dt >= WindowOf(k)
  {
    hide Flapping, HoldEvents, FiniteSample, ReadsWrong;
  }

  /** Neither late nor early: after any run, the next tick that finds the machine
      sourcing rules a debounced fault exactly when it gets as far as that check,
      finds it wrong, and the time it has been wrong, this tick included, has
      reached the window. */
  lemma LatchesExactlyWhenDue(cfg: Config, cs: seq<Cycle>, c: Cycle, k: Check)
    requires WellFormed(cfg)
    ensures Run(New(cfg), cs).Done? && Reconcile(Run(New(cfg), cs).value, c.poll).Done?
    ensures var s := Run(New(cfg), cs).value;
            var (r, decided) := Reconcile(s, c.poll).value;
            decided.None? && Sourcing(r.state) ==>
              (Ruling(r, c.poll, c.elapsed) == Some(Latch(FaultOf(k))) <==>
                 Gets(r, c.poll, c.elapsed, k) && Bad(cfg, c.poll, k) && BadFor(New(cfg), cs + [c], k) >= WindowOf(k))
  {
    hide CycleStep, Inv, Reconcile, Gets, Bad, SourcingRuling;
    NeverPanics(cfg, cs);
    NewKeeps(cfg);
    RunKeeps(New(cfg), cs);
    CountersAreTimes(cfg, cs, k);
    var s := Run(New(cfg), cs).value;
    CycleCounts(s, c, k);
    BadForExtends(cfg, cs, c, k);
    ReconcileCounts(s, c.poll);
    AgreedKeeps(s, c.poll);
    var (r, decided) := Reconcile(s, c.poll).value;
    if decided.None? && Sourcing(r.state) { RulesWhenDue(r, c.poll, c.elapsed, k); }
  }

  lemma AgreedKeeps(s: Sup, p: PollResult)
    requires Inv(s)
    ensures Reconcile(s, p).Done? && Reconcile(s, p).value.0.cfg == s.cfg
  {
    hide Reconcile, Base, Timed;
    ReconcileKeeps(s, p);
  }

  lemma BadForExtends(cfg: Config, cs: seq<Cycle>, c: Cycle, k: Check)
    requires Run(New(cfg), cs).Done? && Reconcile(Run(New(cfg), cs).value, c.poll).Done?
    ensures var s := Run(New(cfg), cs).value;
            var sofar := if k.VoltageCheck? && EntersHold(s, c.poll) then 0 else BadFor(New(cfg), cs, k);
            BadFor(New(cfg), cs + [c], k) ==
              if Reaches(s, c.poll, c.elapsed, k) then HardStep(sofar, Reading(Bad(s.cfg, c.poll, k), c.elapsed)) else sofar
  {
    hide Reaches, Bad, Reconcile, EntersHold;
    assert (cs + [c])[..|cs|] == cs;
  }

  // ------------------------------------------------------------ asking for the output

  /** After any run the next tick asks for the output exactly when nothing on it
      speaks against that: the state, the holds, the report, the readback, the
      sample, and a temperature in its window or not left unread too long. The
      ticket then owes a step up to absorb unless the pack rests, by its current,
      at a charge within the margin of that of the float target. */
  lemma EnablesExactly(cfg: Config, cs: seq<Cycle>, p: PollResult, dt: nat)
    requires WellFormed(cfg)
    ensures Run(New(cfg), cs).Done?
    ensures var s := Run(New(cfg), cs).value;
            var unread := BadFor(New(cfg), cs, TempCheck);
            && Tick(s, p, dt).Done?
            && (Tick(s, p, dt).value.1.EnableOutput? <==> MayEnable(s, p, dt, unread))
            && (MayEnable(s, p, dt, unread) ==>
                  var b := FiniteSample(p.battery).value;
                  var exit := cfg.profile.exitAbsorbA;
                  Tick(s, p, dt).value.1.resumeAbsorb <==>
                    !(0.0 - exit < b.current < exit) ||
                    cfg.profile.soc(b.voltage) < cfg.profile.soc(cfg.profile.floatV) - 5.0)
  {
    hide Tick, Run, Inv, MayEnable;
    NeverPanics(cfg, cs);
    NewKeeps(cfg);
    RunKeeps(New(cfg), cs);
    CountersAreTimes(cfg, cs, TempCheck);
    TickEnablesExactly(Run(New(cfg), cs).value, p, dt);
    MayEnableHasSample(Run(New(cfg), cs).value, p, dt, BadFor(New(cfg), cs, TempCheck));
  }

  lemma MayEnableHasSample(s: Sup, p: PollResult, dt: nat, unread: nat)
    ensures MayEnable(s, p, dt, unread) ==> FiniteSample(p.battery).Some?
  {
    hide Flapping, HoldEvents;
  }
}
