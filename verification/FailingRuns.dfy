/** Runs that show a documented promise failing. Every turn of them is one poll
    interval long, as the loop makes them. */
module FailingRuns {
  import opened Wrappers
  import opened Timing
  import opened ChargeTypes
  import opened ChargeStates
  import opened SupervisorSpec
  import opened SupervisorLimits
  import opened Bucks
  import opened ClosedLoop
  import S = SensorStore
  import L = SensorLoss

  /** A pack of four lithium iron phosphate cells at 10 A, on a board with 2 A of load. */
  function Pack(): Config {
    Config(Profile(14.2, 13.5, 10.0, 2.0, 1.0, (v: real) => v), 12.0, Absent)
  }

  function Battery(v: real, i: real): Option<BatterySample> {
    Some(BatterySample(Finite(v), Finite(i)))
  }

  function Turn(battery: Option<BatterySample>, vSet: real, output: BuckOutput): Cycle {
    Cycle(PollResult(battery, Some(Setpoints(vSet, 12.0)), Some(output), None), POLL_INTERVAL, true, true)
  }

  lemma RunStarts(s: Sup)
    ensures Run(s, []) == Done(s)
  {
  }

  lemma RunExtends(s: Sup, cs: seq<Cycle>, c: Cycle)
    requires Run(s, cs).Done?
    ensures Run(s, cs + [c]) == CycleStep(Run(s, cs).value, c)
  {
    assert (cs + [c])[..|cs|] == cs;
  }

  // --------------------------------------------------- a fault that is replaced

  const ENABLE := Turn(Battery(13.3, 0.0), 13.5, Off(Normal))
  const SURGE := Turn(Battery(13.3, 0.0 - 20.0), 13.5, On)
  const RUSH := Turn(Battery(13.3, 0.0 - 20.0), 14.2, On)
  const DROP := Turn(Battery(13.3, 0.0), 13.5, Off(Ocp))

  /** Energised; a surge steps float up to absorb and stays on for `n` turns more. */
  function RushRun(n: nat): seq<Cycle> {
    if n == 0 then [ENABLE, SURGE] else RushRun(n - 1) + [RUSH]
  }

  /** In absorb, and for `k` turns now drawing too much. */
  ghost predicate Rushing(s: Sup, k: nat) {
    && s.cfg == Pack() && s.state.Absorb? && s.fault.None? && s.holds.holds == 0 && s.transitions == []
    && s.exit == 0 && s.absorb == 0 && s.chargeTotal < k * POLL_INTERVAL && s.overcurrent == k * POLL_INTERVAL
  }

  lemma Enabling()
    ensures CycleStep(New(Pack()), ENABLE).Done?
    ensures var s := CycleStep(New(Pack()), ENABLE).value;
            && s.cfg == Pack() && s.state.Float? && s.fault.None? && s.holds.holds == 0 && s.transitions == []
            && s.exit == 0 && s.overcurrent == 0
  {
    var s := New(Pack());
    assert Reconcile(s, ENABLE.poll) == Done((s, None));
    assert Gauntlet(s, ENABLE.poll, POLL_INTERVAL).value.1 == Clear(Sample(13.3, 0.0));
    assert Tick(s, ENABLE.poll, POLL_INTERVAL).value.1 == EnableOutput(false);
  }

  lemma SurgeTick(s: Sup)
    requires s.cfg == Pack() && s.state.Float? && s.fault.None? && s.holds.holds == 0 && s.transitions == []
    requires s.exit == 0 && s.overcurrent == 0
    ensures Tick(s, SURGE.poll, POLL_INTERVAL).Done?
    ensures var (s', a) := Tick(s, SURGE.poll, POLL_INTERVAL).value;
            && a == UpdateVoltage(VoltageTicket(AbsorbPhase, 14.2, false))
            && s'.cfg == Pack() && s'.state.ToAbsorb? && s'.fault.None? && s'.holds.holds == 0 && s'.transitions == []
            && s'.overcurrent == POLL_INTERVAL
  {
    hide OnFault, AbsorbCaps;
    assert Reconcile(s, SURGE.poll) == Done((s, None));
    assert Gauntlet(s, SURGE.poll, POLL_INTERVAL).value.1 == Clear(Sample(13.3, 0.0 - 20.0));
  }

  lemma Surging(s: Sup)
    requires s.cfg == Pack() && s.state.Float? && s.fault.None? && s.holds.holds == 0 && s.transitions == []
    requires s.exit == 0 && s.overcurrent == 0
    ensures CycleStep(s, SURGE).Done? && Rushing(CycleStep(s, SURGE).value, 1)
  {
    hide Tick;
    SurgeTick(s);
  }

  lemma RushingOn(s: Sup, k: nat)
    requires Rushing(s, k) && k < 4
    ensures CycleStep(s, RUSH).Done? && Rushing(CycleStep(s, RUSH).value, k + 1)
  {
    assert Reconcile(s, RUSH.poll) == Done((s, None));
    assert Gauntlet(s, RUSH.poll, POLL_INTERVAL).value.1 == Clear(Sample(13.3, 0.0 - 20.0));
    assert Tick(s, RUSH.poll, POLL_INTERVAL).value.1.NoAction?;
  }

  lemma ParkTick(s: Sup)
    requires Rushing(s, 4)
    ensures Tick(s, RUSH.poll, POLL_INTERVAL).Done?
    ensures var (s', a) := Tick(s, RUSH.poll, POLL_INTERVAL).value;
            && a == UpdateVoltage(VoltageTicket(FloatPhase, 13.5, true))
            && s'.state.ToParked? && s'.fault == Some(ChargeOvercurrent) && |s'.transitions| <= 1
  {
    hide Regulate;
    assert Reconcile(s, RUSH.poll) == Done((s, None));
    assert Gauntlet(s, RUSH.poll, POLL_INTERVAL).value.1 == Latch(ChargeOvercurrent);
  }

  lemma Parking(s: Sup)
    requires Rushing(s, 4)
    ensures CycleStep(s, RUSH).Done?
    ensures var s' := CycleStep(s, RUSH).value;
            s'.state.Parked? && s'.fault == Some(ChargeOvercurrent) && s'.transitions == []
  {
    hide Tick;
    ParkTick(s);
  }

  lemma Dropping(s: Sup)
    requires s.state.Parked? && s.transitions == []
    ensures CycleStep(s, DROP).Done? && CycleStep(s, DROP).value.fault == Some(OutputUnexpectedlyOff(Ocp))
  {
  }

  lemma {:induction false} RushRunsOn(n: nat)
    requires n < 4
    ensures Run(New(Pack()), RushRun(n)).Done? && Rushing(Run(New(Pack()), RushRun(n)).value, n + 1)
  {
    hide CycleStep, Rushing, Run;
    var s0 := New(Pack());
    if n == 0 {
      Enabling();
      Surging(CycleStep(s0, ENABLE).value);
      RunStarts(s0);
      RunExtends(s0, [], ENABLE);
      assert [] + [ENABLE] == [ENABLE] && [ENABLE] + [SURGE] == [ENABLE, SURGE];
      RunExtends(s0, [ENABLE], SURGE);
    } else {
      RushRunsOn(n - 1);
      RunExtends(s0, RushRun(n - 1), RUSH);
      RushingOn(Run(s0, RushRun(n - 1)).value, n);
    }
  }

  /** Energised, parked on too much current, and then found off: the fault on show
      is no longer the one that parked the buck. */
  lemma ParkedFaultIsReplaced()
    ensures WellFormed(Pack())
    ensures var parked := Run(New(Pack()), RushRun(4));
            parked.Done? && parked.value.state.Parked? && parked.value.fault == Some(ChargeOvercurrent)
    ensures var tripped := Run(New(Pack()), RushRun(4) + [DROP]);
            tripped.Done? && tripped.value.fault == Some(OutputUnexpectedlyOff(Ocp))
  {
    hide CycleStep, Rushing, Run;
    var s0 := New(Pack());
    RushRunsOn(3);
    var s := Run(s0, RushRun(3)).value;
    RunExtends(s0, RushRun(3), RUSH);
    Parking(s);
    RunExtends(s0, RushRun(4), DROP);
    Dropping(CycleStep(s, RUSH).value);
  }

  // ------------------------------------------------ an absorb beyond its cap

  const WAKE := Turn(Battery(13.3, 5.0), 13.5, Off(Normal))
  const RISE := Turn(Battery(13.3, 0.0 - 5.0), 13.5, On)
  const BLIND := Turn(None, 14.2, On)
  const LOOK := Turn(Battery(13.5, 0.0 - 5.0), 14.2, On)

  /** In absorb; in every ten turns one with a sample. */
  function SparseRun(n: nat): seq<Cycle> {
    if n == 0 then [WAKE, RISE] else SparseRun(n - 1) + [if n % 10 == 0 then LOOK else BLIND]
  }

  /** In absorb, the last `blind` turns without a sample and `seen` of all with one. */
  ghost predicate Absorbing(s: Sup, blind: nat, seen: nat) {
    && s.cfg == Pack() && s.state.Absorb? && s.transitions == [] && s.fault.None? && s.holds.holds == 0
    && s.batteryMissing == blind * POLL_INTERVAL && s.chargeTotal == seen * POLL_INTERVAL
    && s.exit == 0 && s.absorb == 0
  }

  /** Switched on, with a step up to absorb owed. */
  ghost predicate Woken(s: Sup) {
    s.cfg == Pack() && s.state.ToAbsorb? && s.transitions == [] && s.fault.None? && s.holds.holds == 0
  }

  lemma Waking()
    ensures CycleStep(New(Pack()), WAKE).Done? && Woken(CycleStep(New(Pack()), WAKE).value)
    ensures Tick(New(Pack()), WAKE.poll, POLL_INTERVAL).Done?
    ensures Tick(New(Pack()), WAKE.poll, POLL_INTERVAL).value.1 == EnableOutput(true)
  {
    var s := New(Pack());
    assert Reconcile(s, WAKE.poll) == Done((s, None));
    assert Gauntlet(s, WAKE.poll, POLL_INTERVAL).value.1 == Clear(Sample(13.3, 5.0));
    assert Tick(s, WAKE.poll, POLL_INTERVAL).value.1 == EnableOutput(true);
  }

  lemma Rising(s: Sup)
    requires Woken(s)
    ensures Tick(s, RISE.poll, POLL_INTERVAL).Done?
    ensures var (s', a) := Tick(s, RISE.poll, POLL_INTERVAL).value;
            !s'.state.Absorb? && a == UpdateVoltage(VoltageTicket(AbsorbPhase, 14.2, false))
    ensures CycleStep(s, RISE).Done? && Absorbing(CycleStep(s, RISE).value, 0, 0)
  {
    assert Reconcile(s, RISE.poll) == Done((s, None));
    assert Gauntlet(s, RISE.poll, POLL_INTERVAL).value.1 == Clear(Sample(13.3, 0.0 - 5.0));
    assert Tick(s, RISE.poll, POLL_INTERVAL).value.1 == UpdateVoltage(VoltageTicket(AbsorbPhase, 14.2, false));
  }

  lemma Blinded(s: Sup, blind: nat, seen: nat)
    requires Absorbing(s, blind, seen) && blind < 9
    ensures CycleStep(s, BLIND).Done? && Tick(s, BLIND.poll, POLL_INTERVAL).Done?
    ensures Absorbing(CycleStep(s, BLIND).value, blind + 1, seen) && Tick(s, BLIND.poll, POLL_INTERVAL).value.0.state.Absorb?
  {
    assert Reconcile(s, BLIND.poll) == Done((s, None));
    assert Gauntlet(s, BLIND.poll, POLL_INTERVAL).value.1 == Inhibit(WaitNoBatterySample);
  }

  lemma Looking(s: Sup, blind: nat, seen: nat)
    requires Absorbing(s, blind, seen) && (seen + 1) * POLL_INTERVAL < MAX_CHARGE
    ensures CycleStep(s, LOOK).Done? && Tick(s, LOOK.poll, POLL_INTERVAL).Done?
    ensures Absorbing(CycleStep(s, LOOK).value, 0, seen + 1) && Tick(s, LOOK.poll, POLL_INTERVAL).value.0.state.Absorb?
  {
    assert Reconcile(s, LOOK.poll) == Done((s, None));
    assert Gauntlet(s, LOOK.poll, POLL_INTERVAL).value.1 == Clear(Sample(13.5, 0.0 - 5.0));
    assert Tick(s, LOOK.poll, POLL_INTERVAL).value.1.NoAction?;
  }

  lemma AbsorbTimeExtends(cfg: Config, cs: seq<Cycle>, c: Cycle)
    requires Run(New(cfg), cs).Done? && Tick(Run(New(cfg), cs).value, c.poll, c.elapsed).Done?
    ensures AbsorbTime(New(cfg), cs + [c], false) ==
              if Tick(Run(New(cfg), cs).value, c.poll, c.elapsed).value.0.state.Absorb?
              then AbsorbTime(New(cfg), cs, false) + c.elapsed else 0
  {
    assert (cs + [c])[..|cs|] == cs;
  }

  lemma {:induction false} SparseTurns(n: nat)
    ensures forall i :: 0 <= i < |SparseRun(n)| ==> SparseRun(n)[i].elapsed == POLL_INTERVAL
  {
    if n > 0 { SparseTurns(n - 1); }
  }

  lemma {:induction false} SparseRunsOn(n: nat)
    requires n < 288_000
    ensures Run(New(Pack()), SparseRun(n)).Done?
    ensures Absorbing(Run(New(Pack()), SparseRun(n)).value, n % 10, n / 10)
    ensures AbsorbTime(New(Pack()), SparseRun(n), false) == n * POLL_INTERVAL
  {
    hide CycleStep, Tick, Absorbing, Woken, Run, AbsorbTime;
    var s0 := New(Pack());
    if n == 0 {
      Waking();
      Rising(CycleStep(s0, WAKE).value);
      RunStarts(s0);
      RunExtends(s0, [], WAKE);
      assert [] + [WAKE] == [WAKE] && [WAKE] + [RISE] == [WAKE, RISE];
      RunExtends(s0, [WAKE], RISE);
      AbsorbTimeExtends(Pack(), [WAKE], RISE);
    } else {
      var cs := SparseRun(n - 1);
      SparseRunsOn(n - 1);
      var s := Run(s0, cs).value;
      if n % 10 == 0 {
        Looking(s, 9, n / 10 - 1);
        RunExtends(s0, cs, LOOK);
        AbsorbTimeExtends(Pack(), cs, LOOK);
      } else {
        Blinded(s, n % 10 - 1, n / 10);
        RunExtends(s0, cs, BLIND);
        AbsorbTimeExtends(Pack(), cs, BLIND);
      }
    }
  }

  /** The total cap does not bound the time a pack spends in absorb: with a sample
      in every tenth turn only, an absorb lasts up to ten times as long. */
  lemma AbsorbOutlastsItsCap(n: nat)
    requires n * POLL_INTERVAL < 10 * MAX_CHARGE
    ensures WellFormed(Pack()) && Run(New(Pack()), SparseRun(n)).Done?
    ensures Run(New(Pack()), SparseRun(n)).value.state.Absorb?
    ensures AbsorbTime(New(Pack()), SparseRun(n), false) == n * POLL_INTERVAL
    ensures forall i :: 0 <= i < |SparseRun(n)| ==> SparseRun(n)[i].elapsed == POLL_INTERVAL
  {
    hide Run, AbsorbTime, SparseRun;
    SparseRunsOn(n);
    SparseTurns(n);
  }

  // ------------------------------------------- a dark buck nobody hears about

  const CALM := Outside(None, None)
  const GOOD := Transaction(None, Lands)
  const LOST := Transaction(None, LostBefore)
  const ALL_GOOD := Transactions(GOOD, GOOD, GOOD, GOOD)
  const TRIPS := SafetyLimits(15.0, 13.0, 20.0)
  const BOOT_ATTEMPT := Attempt(Some(true), GOOD, GOOD, GOOD, GOOD, GOOD, GOOD, true, true)

  /** What booting hands over, whatever the registers held before. */
  function Booted(r: Registers): Registers {
    BootWithRetries(r, Setup(13.5, 12.0, TRIPS), [BOOT_ATTEMPT], GOOD).regs
  }

  lemma Booting(r: Registers)
    ensures BootWithRetries(r, Setup(13.5, 12.0, TRIPS), [BOOT_ATTEMPT], GOOD).ok
    ensures Booted(r) == Registers(13.5, 12.0, false, Normal, TRIPS, false)
  {
    BootUnfolds(r, Setup(13.5, 12.0, TRIPS), BOOT_ATTEMPT, [], GOOD);
    assert [BOOT_ATTEMPT] + [] == [BOOT_ATTEMPT];
  }

  function LoopTurn(heard: bool, battery: Option<BatterySample>, xs: Transactions): LoopCycle {
    LoopCycle(CALM, heard, battery, POLL_INTERVAL, CALM, xs)
  }

  const WAKING := LoopTurn(true, Battery(13.3, 5.0), ALL_GOOD)
  const RISING := LoopTurn(true, Battery(13.3, 0.0 - 5.0), ALL_GOOD)
  const TAPERING := LoopTurn(true, Battery(14.0, 0.0), ALL_GOOD)
  const FALLING := LoopTurn(true, Battery(14.0, 0.0), Transactions(GOOD, GOOD, LOST, LOST))
  const UNHEARD := LoopTurn(false, Battery(13.3, 0.0), ALL_GOOD)

  const TAPERED := Turn(Battery(14.0, 0.0), 14.2, On).poll

  /** Up to absorb, and then `n` turns under the tail current. */
  function TaperRun(n: nat): seq<LoopCycle> {
    if n == 0 then [WAKING, RISING] else TaperRun(n - 1) + [TAPERING]
  }

  /** In absorb, for `k` turns now under the tail current, on a live buck. */
  ghost predicate Tapering(w: World, k: nat) {
    && TaperingSup(w.sup, k)
    && w.regs == Registers(14.2, 12.0, true, Normal, TRIPS, false)
  }

  ghost predicate TaperingSup(s: Sup, k: nat) {
    && s.cfg == Pack() && s.state.Absorb? && s.transitions == [] && s.fault.None? && s.holds.holds == 0
    && s.exit == k * POLL_INTERVAL && s.absorb == 0 && s.chargeTotal == k * POLL_INTERVAL
  }

  lemma Woke(w: World)
    requires w == World(New(Pack()), Registers(13.5, 12.0, false, Normal, TRIPS, false))
    ensures LoopStep(w, WAKING).Done?
    ensures var w' := LoopStep(w, WAKING).value;
            Woken(w'.sup) && w'.regs == Registers(13.5, 12.0, true, Normal, TRIPS, false)
  {
    hide Tick;
    assert Heard(w, WAKING) == WAKE.poll;
    Waking();
  }

  lemma Rose(w: World)
    requires Woken(w.sup) && w.regs == Registers(13.5, 12.0, true, Normal, TRIPS, false)
    ensures LoopStep(w, RISING).Done? && Tapering(LoopStep(w, RISING).value, 0)
  {
    hide Tick, Woken;
    assert Heard(w, RISING) == RISE.poll;
    Rising(w.sup);
  }

  lemma TaperTick(s: Sup, k: nat)
    requires TaperingSup(s, k) && k < 60
    ensures Tick(s, TAPERED, POLL_INTERVAL).Done?
    ensures var (s', a) := Tick(s, TAPERED, POLL_INTERVAL).value;
            if k < 59 then a == NoAction && TaperingSup(s', k + 1)
            else
              && a == UpdateVoltage(VoltageTicket(FloatPhase, 13.5, true))
              && s'.cfg == Pack() && s'.state.ToFloat? && s'.fault.None? && s'.transitions == []
              && s'.holds.holds == 0 && s'.modbusErr == 0 && s'.exit == 0
  {
    assert Reconcile(s, TAPERED) == Done((s, None));
    assert Gauntlet(s, TAPERED, POLL_INTERVAL).value.1 == Clear(Sample(14.0, 0.0));
  }

  lemma Tapers(w: World, k: nat)
    requires Tapering(w, k) && k < 59
    ensures LoopStep(w, TAPERING).Done? && Tapering(LoopStep(w, TAPERING).value, k + 1)
  {
    hide Tick;
    assert Heard(w, TAPERING) == TAPERED;
    TaperTick(w.sup, k);
  }

  /** In float with the output off. */
  ghost predicate Dark(w: World) {
    && !w.regs.outputOn && w.regs.cause.Normal?
    && w.sup.cfg == Pack() && w.sup.state.Float? && w.sup.fault.None? && w.sup.transitions == []
    && w.sup.holds.holds == 0 && w.sup.modbusErr == 0 && w.sup.exit == 0
  }

  lemma Falls(w: World)
    requires Tapering(w, 59)
    ensures Asked(w, FALLING).Done? && ReEnableFails(w, FALLING)
    ensures LoopStep(w, FALLING).Done? && Dark(LoopStep(w, FALLING).value)
  {
    hide Tick;
    assert Heard(w, FALLING) == TAPERED;
    TaperTick(w.sup, 59);
  }

  lemma StaysDark(w: World)
    requires Dark(w)
    ensures LoopStep(w, UNHEARD).Done?
    ensures var w' := LoopStep(w, UNHEARD).value;
            w'.sup.state.Float? && w'.sup.fault.None? && w'.regs == w.regs
  {
    var p := Heard(w, UNHEARD);
    assert Reconcile(w.sup, p) == Done((w.sup, None));
    assert Gauntlet(w.sup, p, POLL_INTERVAL).value.1 == Clear(Sample(13.3, 0.0));
    assert Asked(w, UNHEARD).value.1.NoAction?;
  }

  lemma LoopStarts(w: World)
    ensures Loop(w, []) == Done(w)
  {
  }

  lemma LoopExtends(w: World, cs: seq<LoopCycle>, c: LoopCycle)
    requires Loop(w, cs).Done?
    ensures Loop(w, cs + [c]) == LoopStep(Loop(w, cs).value, c)
  {
    assert (cs + [c])[..|cs|] == cs;
  }

  lemma {:induction false} TaperRunsOn(r: Registers, n: nat)
    requires n < 60
    ensures Loop(World(New(Pack()), Booted(r)), TaperRun(n)).Done?
    ensures Tapering(Loop(World(New(Pack()), Booted(r)), TaperRun(n)).value, n)
  {
    hide LoopStep, Tapering, Woken, Loop, Booted;
    Booting(r);
    var w0 := World(New(Pack()), Booted(r));
    if n == 0 {
      LoopStarts(w0);
      LoopExtends(w0, [], WAKING);
      assert [] + [WAKING] == [WAKING] && [WAKING] + [RISING] == [WAKING, RISING];
      Woke(w0);
      LoopExtends(w0, [WAKING], RISING);
      Rose(LoopStep(w0, WAKING).value);
    } else {
      TaperRunsOn(r, n - 1);
      LoopExtends(w0, TaperRun(n - 1), TAPERING);
      Tapers(Loop(w0, TaperRun(n - 1)).value, n - 1);
    }
  }

  /** Booted from any registers, up to absorb and a minute of taper: the step-down
      is committed with the output left off, and the next cycle, unheard, leaves
      the buck dark with the machine in float and no fault on show. */
  lemma DarkBuckGoesUnnoticed(r: Registers)
    ensures BootWithRetries(r, Setup(13.5, 12.0, TRIPS), [BOOT_ATTEMPT], GOOD).ok
    ensures var w := Loop(World(New(Pack()), Booted(r)), TaperRun(59));
            w.Done? && Asked(w.value, FALLING).Done? && ReEnableFails(w.value, FALLING)
    ensures var w := Loop(World(New(Pack()), Booted(r)), TaperRun(59) + [FALLING] + [UNHEARD]);
            w.Done? && w.value.sup.state.Float? && w.value.sup.fault.None? && !w.value.regs.outputOn
  {
    hide LoopStep, Asked, ReEnableFails, Tapering, Loop, BootWithRetries;
    Booting(r);
    var w0 := World(New(Pack()), Booted(r));
    TaperRunsOn(r, 59);
    var w1 := Loop(w0, TaperRun(59)).value;
    Falls(w1);
    LoopExtends(w0, TaperRun(59), FALLING);
    LoopExtends(w0, TaperRun(59) + [FALLING], UNHEARD);
    StaysDark(LoopStep(w1, FALLING).value);
  }

  // ----------------------------------------------- a dead sensor and a slow main loop

  const PUBLISH := L.Publish(0, S.RawBattery(Finite(13.3), Finite(0.0), Finite(0.0)))
  const SWITCH_ON := L.Poll(POLL_INTERVAL, Some(Setpoints(13.5, 12.0)), Some(Off(Normal)), None, true, true)
  const LIVE := L.Poll(POLL_INTERVAL, Some(Setpoints(13.5, 12.0)), Some(On), None, true, true)
  const AGE := L.Age(0, None)

  /** One last reading, nine polls while the main loop is held up, its one turn, and
      `n` polls more. */
  function SlowRun(n: nat): seq<L.Event> {
    if n == 0 then [PUBLISH, SWITCH_ON]
    else if n == 9 then SlowRun(n - 1) + [AGE]
    else SlowRun(n - 1) + [LIVE]
  }

  function Last(): S.Battery {
    S.Battery(13.3, 0.0, 0.0)
  }

  /** In float on the last reading, `blind` turns after it stopped being offered. */
  ghost predicate Losing(sys: L.System, stale: nat, sinceAge: nat, blind: nat) {
    && |sys.store.history.cuts| == |sys.store.history.samples| + 1
    && sys.store.latestBattery == Some(Last()) && sys.store.batteryStale == Some(stale)
    && sys.sinceAge == sinceAge && sys.sincePoll == 0
    && LosingSup(sys.sup, blind)
  }

  ghost predicate LosingSup(s: Sup, blind: nat) {
    && s.cfg == Pack() && s.state.Float? && s.fault.None? && s.holds.holds == 0 && s.transitions == []
    && s.exit == 0 && s.batteryMissing == blind * POLL_INTERVAL
  }

  lemma SwitchesOn()
    ensures CycleStep(New(Pack()), ENABLE).Done? && LosingSup(CycleStep(New(Pack()), ENABLE).value, 0)
  {
    var s := New(Pack());
    assert Reconcile(s, ENABLE.poll) == Done((s, None));
    assert Gauntlet(s, ENABLE.poll, POLL_INTERVAL).value.1 == Clear(Sample(13.3, 0.0));
    assert Tick(s, ENABLE.poll, POLL_INTERVAL).value.1 == EnableOutput(false);
  }

  lemma SeesOn(s: Sup)
    requires LosingSup(s, 0)
    ensures var c := Turn(Battery(13.3, 0.0), 13.5, On);
            CycleStep(s, c).Done? && LosingSup(CycleStep(s, c).value, 0)
  {
    var p := Turn(Battery(13.3, 0.0), 13.5, On).poll;
    assert Reconcile(s, p) == Done((s, None));
    assert Gauntlet(s, p, POLL_INTERVAL).value.1 == Clear(Sample(13.3, 0.0));
    assert Tick(s, p, POLL_INTERVAL).value.1.NoAction?;
  }

  lemma MissesOn(s: Sup, blind: nat)
    requires LosingSup(s, blind) && blind < 9
    ensures var c := Turn(None, 13.5, On);
            CycleStep(s, c).Done? && LosingSup(CycleStep(s, c).value, blind + 1)
  {
    var p := Turn(None, 13.5, On).poll;
    assert Reconcile(s, p) == Done((s, None));
    assert Gauntlet(s, p, POLL_INTERVAL).value.1 == Inhibit(WaitNoBatterySample);
  }

  lemma SystemExtends(es: seq<L.Event>, e: L.Event)
    requires L.After(Pack(), es).Done?
    ensures L.After(Pack(), es + [e]) == L.Advance(L.After(Pack(), es).value, e)
    ensures !L.Accepted(e) && L.After(Pack(), es + [e]).Done? && Sourcing(L.After(Pack(), es + [e]).value.sup.state) ==>
              L.SinceLost(Pack(), es + [e]) == L.SinceLost(Pack(), es) + e.wait
  {
    hide L.Advance;
    assert (es + [e])[..|es|] == es;
  }

  /** The last reading is stored, and nothing has happened yet. */
  ghost predicate Stored(sys: L.System) {
    && |sys.store.history.cuts| == |sys.store.history.samples| + 1
    && sys.store.latestBattery == Some(Last()) && sys.store.batteryStale == Some(0)
    && sys.sinceAge == 0 && sys.sincePoll == 0 && sys.sup == New(Pack())
  }

  lemma SystemStarts()
    ensures L.After(Pack(), [PUBLISH]).Done? && Stored(L.After(Pack(), [PUBLISH]).value)
    ensures L.SinceLost(Pack(), [PUBLISH]) == 0
  {
    hide CycleStep, S.Apply, New;
    assert [PUBLISH][..0] == [];
    var sys := L.System(S.EMPTY_STORE, New(Pack()), 0, 0);
    S.EventOnReadings(S.EMPTY_STORE, S.UpdateBattery(PUBLISH.raw));
    assert L.After(Pack(), []) == Done(sys);
    assert L.After(Pack(), [PUBLISH]) == L.Advance(sys, PUBLISH);
  }

  lemma SwitchingOn(sys: L.System)
    requires Stored(sys)
    ensures L.Advance(sys, SWITCH_ON).Done? && Losing(L.Advance(sys, SWITCH_ON).value, 0, POLL_INTERVAL, 0)
  {
    hide CycleStep, LosingSup;
    SwitchesOn();
    assert L.Turned(sys, SWITCH_ON) == ENABLE;
  }

  lemma SlowStarts()
    ensures L.After(Pack(), SlowRun(0)).Done? && Losing(L.After(Pack(), SlowRun(0)).value, 0, POLL_INTERVAL, 0)
    ensures L.SinceLost(Pack(), SlowRun(0)) == POLL_INTERVAL
  {
    hide CycleStep, Losing, Stored, L.After, L.Advance, L.SinceLost;
    SystemStarts();
    var sys := L.After(Pack(), [PUBLISH]).value;
    SwitchingOn(sys);
    assert [PUBLISH] + [SWITCH_ON] == [PUBLISH, SWITCH_ON];
    SystemExtends([PUBLISH], SWITCH_ON);
    LosingSources(L.Advance(sys, SWITCH_ON).value);
  }

  lemma LiveGoesOn(sys: L.System, stale: nat, sinceAge: nat, blind: nat)
    requires Losing(sys, stale, sinceAge, blind)
    requires if stale <= STALE_WINDOW then blind == 0 else blind < 9
    ensures L.Advance(sys, LIVE).Done?
    ensures Losing(L.Advance(sys, LIVE).value, stale, sinceAge + POLL_INTERVAL, if stale <= STALE_WINDOW then 0 else blind + 1)
  {
    hide CycleStep, LosingSup;
    if stale <= STALE_WINDOW {
      assert L.Turned(sys, LIVE) == Turn(Battery(13.3, 0.0), 13.5, On);
      SeesOn(sys.sup);
    } else {
      assert L.Turned(sys, LIVE) == Turn(None, 13.5, On);
      MissesOn(sys.sup, blind);
    }
  }

  lemma {:induction false} SlowRunsOn(n: nat)
    requires n <= 18
    ensures L.After(Pack(), SlowRun(n)).Done?
    ensures var sys := L.After(Pack(), SlowRun(n)).value;
            if n < 9 then Losing(sys, 0, (n + 1) * POLL_INTERVAL, 0)
            else Losing(sys, 9 * POLL_INTERVAL, (n - 9) * POLL_INTERVAL, n - 9)
    ensures L.SinceLost(Pack(), SlowRun(n)) == (if n < 9 then n + 1 else n) * POLL_INTERVAL
  {
    hide CycleStep, Losing, L.After, L.Advance, L.SinceLost;
    if n == 0 {
      SlowStarts();
    } else {
      SlowRunsOn(n - 1);
      var sys := L.After(Pack(), SlowRun(n - 1)).value;
      var e := if n == 9 then AGE else LIVE;
      SystemExtends(SlowRun(n - 1), e);
      if n == 9 {
        Ages(sys);
      } else if n < 9 {
        LiveGoesOn(sys, 0, n * POLL_INTERVAL, 0);
      } else {
        LiveGoesOn(sys, 9 * POLL_INTERVAL, (n - 10) * POLL_INTERVAL, n - 10);
      }
      LosingSources(L.Advance(sys, e).value);
    }
  }

  lemma Ages(sys: L.System)
    requires Losing(sys, 0, 9 * POLL_INTERVAL, 0)
    ensures L.Advance(sys, AGE).Done? && Losing(L.Advance(sys, AGE).value, 9 * POLL_INTERVAL, 0, 0)
  {
    hide LosingSup;
  }

  lemma LosingSources(sys: L.System)
    ensures (exists stale, sinceAge, blind :: Losing(sys, stale, sinceAge, blind)) ==> Sourcing(sys.sup.state)
  {
  }

  /** Main-loop turns of at most nine seconds and polls of one: eighteen seconds
      after the last reading the buck is still being sourced. */
  lemma DeadSensorOutlastsItsBudget()
    ensures L.After(Pack(), SlowRun(18)).Done? && Sourcing(L.After(Pack(), SlowRun(18)).value.sup.state)
    ensures L.SinceLost(Pack(), SlowRun(18)) == 18 * SECOND > STALE_WINDOW + BATTERY_MISSING_TIMEOUT + SECOND
  {
    hide L.After, L.SinceLost, SlowRun;
    SlowRunsOn(18);
  }
}
