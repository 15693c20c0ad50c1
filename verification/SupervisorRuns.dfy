/** What holds over every run of the supervisor: any polls, any elapsed times,
    any of the writes lost, the log buffer drained or not. */
module SupervisorRuns {
  import opened Wrappers
  import opened Timing
  import opened ChargeTypes
  import opened ChargeStates
  import opened Debouncing
  import opened HoldBudgets
  import opened SupervisorSpec
  import opened SupervisorInvariant

  lemma {:induction false} RunKeeps(s: Sup, cs: seq<Cycle>)
    requires Inv(s)
    ensures Run(s, cs).Done?
    ensures var s' := Run(s, cs).value; Inv(s') && s'.cfg == s.cfg && s.trace <= s'.trace
  {
    if cs != [] {
      hide CycleStep, Inv;
      RunKeeps(s, cs[..|cs| - 1]);
      CycleKeeps(Run(s, cs[..|cs| - 1]).value, cs[|cs| - 1]);
    }
  }

  // ------------------------------------------------------ charging, once over

  /** The actions a run asked for, in order. */
  function Actions(s: Sup, cs: seq<Cycle>): seq<Action> {
    if cs == [] then []
    else match Run(s, cs[..|cs| - 1])
      case Panic => []
      case Done(before) =>
        match Tick(before, cs[|cs| - 1].poll, cs[|cs| - 1].elapsed)
        case Panic => []
        case Done((_, a)) => Actions(s, cs[..|cs| - 1]) + [a]
  }

  /** Nothing more to do with charging: the only V_SET write still asked for is
      the step down to the float target. */
  predicate NoMoreCharging(a: Action) {
    a.UpdateVoltage? ==> a.ticket.phase.FloatPhase? && a.ticket.cycleOutput
  }

  lemma PathStops(s: Sup, s': Sup)
    requires Inv(s) && Inv(s') && s.trace <= s'.trace && Stopped(s.state)
    ensures Stopped(s'.state) && s'.fault.Some? && (Terminal(s.state) ==> Terminal(s'.state))
    ensures Count(s'.trace, StepUp) == Count(s.trace, StepUp)
    ensures Count(s'.trace, AnyWrite) <= Count(s.trace, AnyWrite) + (if s.state.ToParked? then 1 else 0)
  {
    hide Timed, Windows;
    assert s'.trace[..|s.trace|] == s.trace;
    StoppedIsForever(s'.trace, |s.trace|);
  }

  lemma StoppedTick(s: Sup, p: PollResult, dt: nat)
    requires Inv(s) && Stopped(s.state)
    ensures Tick(s, p, dt).Done? && NoMoreCharging(Tick(s, p, dt).value.1)
  {
    hide Tick, Base, Timed;
    TickKeeps(s, p, dt);
    PathStops(s, Tick(s, p, dt).value.0);
  }

  /** Fault confinement: from a stopped state, whatever comes, charging stays
      stopped and the fault stays on show; V_SET is never written up again and
      at most once, to float, at all; every action asked for is one of a
      charger that has given up. */
  lemma {:induction false} StoppedForGood(s: Sup, cs: seq<Cycle>)
    requires Inv(s) && Stopped(s.state)
    ensures Run(s, cs).Done?
    ensures var s' := Run(s, cs).value;
            && Stopped(s'.state) && s'.fault.Some?
            && Count(s'.trace, StepUp) == Count(s.trace, StepUp)
            && Count(s'.trace, AnyWrite) <= Count(s.trace, AnyWrite) + (if s.state.ToParked? then 1 else 0)
    ensures |Actions(s, cs)| == |cs|
    ensures forall a :: a in Actions(s, cs) ==> NoMoreCharging(a)
  {
    hide Tick, CycleStep, Inv, Count, NoMoreCharging;
    RunKeeps(s, cs);
    PathStops(s, Run(s, cs).value);
    if cs != [] {
      var init, c := cs[..|cs| - 1], cs[|cs| - 1];
      StoppedForGood(s, init);
      RunKeeps(s, init);
      StoppedTick(Run(s, init).value, c.poll, c.elapsed);
    }
  }

  lemma LatchedCycle(s: Sup, c: Cycle)
    requires Inv(s) && Terminal(s.state)
    ensures Tick(s, c.poll, c.elapsed).Done? && CycleStep(s, c).Done?
    ensures var a := Tick(s, c.poll, c.elapsed).value.1; a == NoAction || a == DisableOutput(s.fault.value)
    ensures var s' := CycleStep(s, c).value; Terminal(s'.state) && s'.fault == s.fault
  {
    hide Tick, Commit, Base, Timed, Progress, TimersRan;
    TickKeeps(s, c.poll, c.elapsed);
    var (s1, a) := Tick(s, c.poll, c.elapsed).value;
    CommitKeeps(s1, a);
  }

  /** Once a disable is owed, every later tick of every run asks for nothing or
      for that same disable, and the fault it names never changes. */
  lemma {:induction false} LatchedForGood(s: Sup, cs: seq<Cycle>)
    requires Inv(s) && Terminal(s.state)
    ensures Run(s, cs).Done?
    ensures var s' := Run(s, cs).value; Terminal(s'.state) && s'.fault == s.fault
    ensures |Actions(s, cs)| == |cs|
    ensures forall a :: a in Actions(s, cs) ==> a == NoAction || a == DisableOutput(s.fault.value)
  {
    if cs != [] {
      hide Tick, CycleStep, Inv;
      var init := cs[..|cs| - 1];
      LatchedForGood(s, init);
      RunKeeps(s, init);
      LatchedCycle(Run(s, init).value, cs[|cs| - 1]);
    }
  }

  /** A fault on show lasts for as long as the park it belongs to. */
  lemma {:induction false} ShownFaultLasts(s: Sup, cs: seq<Cycle>)
    requires Inv(s) && s.fault.Some?
    ensures Run(s, cs).Done?
    ensures var s' := Run(s, cs).value;
            s'.fault == s.fault || (!Terminal(s.state) && Terminal(s'.state))
  {
    if Terminal(s.state) {
      LatchedForGood(s, cs);
    } else if cs != [] {
      hide CycleStep, Inv;
      var init := cs[..|cs| - 1];
      ShownFaultLasts(s, init);
      RunKeeps(s, init);
      ShownFaultCycle(Run(s, init).value, cs[|cs| - 1]);
    }
  }

  lemma ShownFaultCycle(s: Sup, c: Cycle)
    requires Inv(s)
    ensures CycleStep(s, c).Done?
    ensures var s' := CycleStep(s, c).value;
            s.fault.None? || s'.fault == s.fault || (!Terminal(s.state) && Terminal(s'.state))
    ensures s.fault.Some? ==> CycleStep(s, c).value.fault.Some?
    ensures Terminal(s.state) ==> Terminal(CycleStep(s, c).value.state) && CycleStep(s, c).value.fault == s.fault
  {
    hide Tick, Commit, Base, Timed, Progress, TimersRan;
    TickKeeps(s, c.poll, c.elapsed);
    var (s1, a) := Tick(s, c.poll, c.elapsed).value;
    CommitKeeps(s1, a);
  }

  // ---------------------------------------------------------------- the log

  /** After any run the log so far is a word of the six-class automaton, it
      ends in the class of the current state, and the buffer holds its tail. */
  lemma LogIsAWord(cfg: Config, cs: seq<Cycle>)
    requires WellFormed(cfg)
    ensures Run(New(cfg), cs).Done?
    ensures var s := Run(New(cfg), cs).value;
            && Accepts(Log(s.trace)) == Some(ClassOf(s.state))
            && Newest(s.transitions, Log(s.trace))
  {
    NeverPanics(cfg, cs);
    LogIsFaithful(Run(New(cfg), cs).value.trace);
  }

  /** What the caller has taken out of the buffer. */
  function TakenOut(s: Sup, cs: seq<Cycle>): seq<ChargeTransition> {
    if cs == [] then []
    else
      var init, c := cs[..|cs| - 1], cs[|cs| - 1];
      TakenOut(s, init) +
      match Run(s, init)
      case Panic => []
      case Done(before) =>
        match CycleStep(before, c.(drained := false))
        case Panic => []
        case Done(after) => if c.drained then after.transitions else []
  }

  /** A longer history has a longer log. */
  lemma {:induction false} LogGrows(t: seq<Obs>, t': seq<Obs>)
    requires t <= t'
    ensures Log(t) <= Log(t')
  {
    if |t| < |t'| {
      LogGrows(t, t'[..|t'| - 1]);
    } else {
      assert t == t';
    }
  }

  /** One cycle that starts with an empty buffer leaves in it exactly what the
      cycle logged. */
  lemma CycleFitsBuffer(s: Sup, c: Cycle)
    requires Inv(s) && s.transitions == []
    ensures CycleStep(s, c.(drained := false)).Done?
    ensures var s' := CycleStep(s, c.(drained := false)).value;
            Log(s'.trace) == Log(s.trace) + s'.transitions
  {
    hide Tick, Commit, Log, Timed, IsPath, Fold, HoldEvents, Count, ClockedTime, LeakyFold, Readings, End;
    TickKeeps(s, c.poll, c.elapsed);
    var (s1, a) := Tick(s, c.poll, c.elapsed).value;
    CommitKeeps(s1, a);
    var s' := CycleStep(s, c.(drained := false)).value;
    LogGrows(s.trace, s'.trace);
    assert Newest(s'.transitions, Log(s'.trace));
  }

  /** Draining once per cycle, as the firmware's loop does, loses nothing: what
      was taken out is the whole log of the run. */
  lemma {:induction false} DrainLosesNothing(cfg: Config, cs: seq<Cycle>)
    requires WellFormed(cfg)
    requires forall i :: 0 <= i < |cs| ==> cs[i].drained
    ensures Run(New(cfg), cs).Done?
    ensures TakenOut(New(cfg), cs) == Log(Run(New(cfg), cs).value.trace)
    ensures Run(New(cfg), cs).value.transitions == []
  {
    if cs != [] {
      hide Tick, Commit, Log, Inv;
      var init, c := cs[..|cs| - 1], cs[|cs| - 1];
      DrainLosesNothing(cfg, init);
      NeverPanics(cfg, init);
      CycleFitsBuffer(Run(New(cfg), init).value, c);
    }
  }

  // ----------------------------------------------------------- time windows

  function Total(cs: seq<Cycle>): nat {
    if cs == [] then 0 else Total(cs[..|cs| - 1]) + cs[|cs| - 1].elapsed
  }

  lemma {:induction false} ClockedWithinTotal(s: Sup, cs: seq<Cycle>)
    requires Inv(s)
    ensures Run(s, cs).Done?
    ensures ClockedTime(Run(s, cs).value.trace) <= ClockedTime(s.trace) + Total(cs)
  {
    RunKeeps(s, cs);
    if cs != [] {
      hide CycleStep, Inv, ClockedTime;
      RunKeeps(s, cs[..|cs| - 1]);
      ClockedWithinTotal(s, cs[..|cs| - 1]);
      CycleKeeps(Run(s, cs[..|cs| - 1]).value, cs[|cs| - 1]);
    }
  }

  /** The output is cycled no faster than the tail clock allows: every step down
      out of absorb costs a whole debounce of the time handed in, and the
      step-downs written exceed those earned by at most one, the park's. */
  lemma OutputCyclingIsBounded(cfg: Config, cs: seq<Cycle>)
    requires WellFormed(cfg)
    ensures Run(New(cfg), cs).Done?
    ensures var t := Run(New(cfg), cs).value.trace;
            && Count(t, TaperDown) * EXIT_DEBOUNCE <= Total(cs)
            && Count(t, StepDown) <= Count(t, TaperDown) + 1
  {
    NewKeeps(cfg);
    NeverPanics(cfg, cs);
    ClockedWithinTotal(New(cfg), cs);
    MovesAreBounded(Run(New(cfg), cs).value.trace);
  }

  /** Time handed in since the last poll that read the setpoints, or since boot. */
  function SinceRead(cs: seq<Cycle>): nat {
    if cs == [] || cs[|cs| - 1].poll.setpoints.Some? then 0
    else SinceRead(cs[..|cs| - 1]) + cs[|cs| - 1].elapsed
  }

  /** Time handed in since the last usable battery sample, or since the output
      was last not being sourced. */
  function SinceSample(s: Sup, cs: seq<Cycle>): nat {
    if cs == [] || FiniteSample(cs[|cs| - 1].poll.battery).Some? then 0
    else match Run(s, cs)
      case Panic => 0
      case Done(after) =>
        if Sourcing(after.state) then SinceSample(s, cs[..|cs| - 1]) + cs[|cs| - 1].elapsed else 0
  }

  /** What one cycle does to the two fail-closed timers. */
  lemma CycleTimers(s: Sup, c: Cycle)
    requires Inv(s)
    ensures CycleStep(s, c).Done?
    ensures var s' := CycleStep(s, c).value;
            && (!Terminal(s'.state) ==> !Terminal(s.state) && !OverBudget(s'.holds))
            && (!Terminal(s'.state) && c.poll.setpoints.None? ==> s'.modbusErr == s.modbusErr + c.elapsed)
            && (Sourcing(s'.state) && FiniteSample(c.poll.battery).None? ==>
                  s'.batteryMissing == s.batteryMissing + c.elapsed)
  {
    hide Tick, Commit, Base, Timed;
    TickKeeps(s, c.poll, c.elapsed);
    var (s1, a) := Tick(s, c.poll, c.elapsed).value;
    CommitKeeps(s1, a);
  }

  lemma {:induction false} TimersCoverSilence(cfg: Config, cs: seq<Cycle>)
    requires WellFormed(cfg)
    ensures Run(New(cfg), cs).Done?
    ensures var s := Run(New(cfg), cs).value;
            && (!Terminal(s.state) ==> SinceRead(cs) <= s.modbusErr)
            && (Sourcing(s.state) ==> SinceSample(New(cfg), cs) <= s.batteryMissing)
  {
    if cs != [] {
      hide CycleStep, Inv, OverBudget;
      var init, c := cs[..|cs| - 1], cs[|cs| - 1];
      TimersCoverSilence(cfg, init);
      NeverPanics(cfg, init);
      var before := Run(New(cfg), init).value;
      CycleTimers(before, c);
      SilenceNeedsSourcing(cfg, init);
      assert Run(New(cfg), cs) == CycleStep(before, c);
    }
  }

  lemma SilenceNeedsSourcing(cfg: Config, cs: seq<Cycle>)
    requires WellFormed(cfg)
    ensures Run(New(cfg), cs).Done? && (SinceSample(New(cfg), cs) > 0 ==> Sourcing(Run(New(cfg), cs).value.state))
  {
    NeverPanics(cfg, cs);
  }

  /** Fail closed: after any run, a buck still being sourced has had its
      setpoints read within one window, and a usable battery sample within the
      other counted from when this stretch of sourcing began. */
  lemma FailsClosed(cfg: Config, cs: seq<Cycle>)
    requires WellFormed(cfg)
    ensures Run(New(cfg), cs).Done?
    ensures Sourcing(Run(New(cfg), cs).value.state) ==>
              && SinceRead(cs) < MODBUS_UNHEALTHY_TIMEOUT
              && SinceSample(New(cfg), cs) < BATTERY_MISSING_TIMEOUT
  {
    NeverPanics(cfg, cs);
    TimersCoverSilence(cfg, cs);
  }

  /** In absorb, over every window of this stretch that ends now: net time on
      the plateau, net time under the tail current and total time are each short
      of the cap that ends the stretch. */
  lemma AbsorbIsCapped(s: Sup, k: nat)
    requires Inv(s) && s.state.Absorb?
    requires k <= |Readings(s.trace, PlateauClock)|
    ensures |Readings(s.trace, TailClock)| == |Readings(s.trace, PlateauClock)|
    ensures Net(Readings(s.trace, PlateauClock)[k..]) < MAX_ABSORB
    ensures Net(Readings(s.trace, TailClock)[k..]) < EXIT_DEBOUNCE
    ensures HardFold(Readings(s.trace, CycleClock)) < MAX_CHARGE
  {
    ReadingsAlign(s.trace);
    LeakyIsBestWindow(Readings(s.trace, PlateauClock));
    LeakyIsBestWindow(Readings(s.trace, TailClock));
  }

  lemma {:induction false} ReadingsAlign(t: seq<Obs>)
    ensures |Readings(t, TailClock)| == |Readings(t, PlateauClock)| == |Readings(t, CycleClock)|
  {
    if t != [] { ReadingsAlign(t[..|t| - 1]); }
  }

  // ------------------------------------------------------------ single ticks

  /** After any tick that read OUTPUT_EN, the machine is latching or sources
      exactly when the buck does. */
  lemma Reconciled(s: Sup, p: PollResult, dt: nat)
    requires Inv(s) && p.output.Some?
    ensures Tick(s, p, dt).Done?
    ensures var s' := Tick(s, p, dt).value.0;
            Terminal(s'.state) || (Sourcing(s'.state) <==> p.output.value.On?)
  {
    TickKeeps(s, p, dt);
  }

  /** With the output off once machine and device agree, flapping is the one
      thing a tick can latch for, and it always does. */
  lemma IdleLatchIsFlapping(s: Sup, p: PollResult, dt: nat)
    requires Inv(s)
    requires Reconcile(s, p).Done? && Reconcile(s, p).value.1.None? && BringingUp(Reconcile(s, p).value.0.state)
    ensures Tick(s, p, dt).Done?
    ensures var s' := Tick(s, p, dt).value.0;
            && (Terminal(s'.state) <==> Flapping(HoldEvents(Reconcile(s, p).value.0.trace) + [Quiet(dt)]))
            && (Terminal(s'.state) ==> s'.fault == Some(ProtectionFlapping))
  {
    hide Reconcile, Judge, Explains, Timed;
    ReconcileKeeps(s, p);
    var r := Reconcile(s, p).value.0;
    JudgeKeeps(r, p, dt);
    FlapBudgetCounts(r, dt);
  }

  /** Between cycles a machine that has not latched is never flapping: it trips
      on the very tick the history first becomes a flap. */
  lemma {:induction false} FlappingAlwaysTrips(cfg: Config, cs: seq<Cycle>)
    requires WellFormed(cfg)
    ensures Run(New(cfg), cs).Done?
    ensures var s := Run(New(cfg), cs).value;
            Flapping(HoldEvents(s.trace)) ==> Terminal(s.state)
  {
    hide CycleStep, Timed, IsPath, Count, Log;
    NeverPanics(cfg, cs);
    OverBudgetIsFlapping(HoldEvents(Run(New(cfg), cs).value.trace));
    if cs != [] {
      NeverPanics(cfg, cs[..|cs| - 1]);
      CycleTimers(Run(New(cfg), cs[..|cs| - 1]).value, cs[|cs| - 1]);
    }
  }

  /** What one cycle that leaves the machine running puts on the hold record. */
  lemma CycleHolds(s: Sup, c: Cycle)
    requires Inv(s)
    ensures CycleStep(s, c).Done?
    ensures var s' := CycleStep(s, c).value;
            !Terminal(s'.state) ==>
              && HoldsHeard(s, s', c.elapsed)
              && !Flapping(HoldEvents(s'.trace))
  {
    hide Tick, Commit, Log, HoldEvents, IsPath, End, Count, ClockedTime, Timed, Flapping, Fold, TimersRan;
    TickKeeps(s, c.poll, c.elapsed);
    var (s1, a) := Tick(s, c.poll, c.elapsed).value;
    CommitKeeps(s1, a);
    CycleKeeps(s, c);
    OverBudgetIsFlapping(HoldEvents(CycleStep(s, c).value.trace));
  }

  lemma QuietIsTolerated(es: seq<HoldEvent>, dt: nat)
    requires Tolerated(es) && !Flapping(es + [Quiet(dt)])
    ensures Tolerated(es + [Quiet(dt)]) && QuietTime(es + [Quiet(dt)]) == QuietTime(es) + dt
  {
    hide Flapping, Gaps;
    assert (es + [Quiet(dt)])[..|es|] == es;
  }

  lemma RecordIsTolerated(es: seq<HoldEvent>)
    requires Tolerated(es) && (es == [] || es[|es| - 1].Quiet?)
    ensures Tolerated(es + [Recorded]) && QuietTime(es + [Recorded]) == QuietTime(es)
  {
    hide Flapping, Gaps;
    assert (es + [Recorded])[..|es|] == es;
  }

  lemma ToleratedGrows(es: seq<HoldEvent>, dt: nat, after: seq<HoldEvent>)
    requires Tolerated(es) && (es == [] || es[|es| - 1].Quiet?)
    requires after == es + [Quiet(dt)] || after == es + [Recorded] + [Quiet(dt)]
    requires !Flapping(after)
    ensures Tolerated(after) && after[|after| - 1].Quiet? && QuietTime(after) == QuietTime(es) + dt
  {
    hide Flapping, Tolerated, QuietTime;
    if after == es + [Quiet(dt)] {
      QuietIsTolerated(es, dt);
    } else {
      RecordIsTolerated(es);
      QuietIsTolerated(es + [Recorded], dt);
    }
  }

  lemma {:induction false} HoldsAreTolerated(cfg: Config, cs: seq<Cycle>)
    requires WellFormed(cfg)
    ensures Run(New(cfg), cs).Done?
    ensures var s := Run(New(cfg), cs).value;
            var es := HoldEvents(s.trace);
            !Terminal(s.state) ==>
              Tolerated(es) && (es == [] || es[|es| - 1].Quiet?) && QuietTime(es) <= Total(cs)
  {
    if cs != [] {
      hide CycleStep, Inv, HoldEvents, Tolerated, QuietTime, Flapping;
      var init, c := cs[..|cs| - 1], cs[|cs| - 1];
      NeverPanics(cfg, init);
      HoldsAreTolerated(cfg, init);
      var before := Run(New(cfg), init).value;
      CycleTimers(before, c);
      CycleHolds(before, c);
      var s := CycleStep(before, c).value;
      if !Terminal(s.state) {
        ToleratedGrows(HoldEvents(before.trace), c.elapsed, HoldEvents(s.trace));
      }
    }
  }

  /** Waiting protections out cannot cycle the output without end: in every run
      of a machine still running, every five holds cost a whole flap window of
      the time handed in. */
  lemma ProtectionCyclingIsBounded(cfg: Config, cs: seq<Cycle>)
    requires WellFormed(cfg)
    ensures Run(New(cfg), cs).Done?
    ensures var s := Run(New(cfg), cs).value;
            !Terminal(s.state) ==>
              |Gaps(HoldEvents(s.trace))| / (MAX_HOLDS + 1) * FLAP_WINDOW <= Total(cs)
  {
    hide Inv, Tolerated, HoldEvents, Gaps, QuietTime, Run;
    HoldsAreTolerated(cfg, cs);
    var s := Run(New(cfg), cs).value;
    if !Terminal(s.state) { ToleratedHoldsTakeTime(HoldEvents(s.trace)); }
  }

  /** Everything that has to be true, on this very tick, of a machine that asks
      for the output; a fitted temperature sensor had so far gone unread for
      `unread`. */
  ghost predicate MayEnable(s: Sup, p: PollResult, dt: nat, unread: nat) {
    && BringingUp(s.state)
    && !Flapping(HoldEvents(s.trace) + [Quiet(dt)])
    && (match p.output
        case None => true
        case Some(On) => false
        case Some(Off(cause)) => !(cause.Lvp? || cause.Otp?))
    && (match p.setpoints
        case None => false
        case Some(sp) =>
          && Agrees(TargetVoltage(s.cfg.profile, SetpointPhase(s.state).value), sp.vSet)
          && Agrees(s.cfg.iSetA, sp.iSet))
    && (match FiniteSample(p.battery)
        case None => false
        case Some(b) => b.voltage <= s.cfg.profile.absorbV + 0.2)
    && (s.cfg.packTemp.Fitted? ==>
          match p.packTempC
          case None => unread + dt < PACK_TEMP_STALE_TIMEOUT
          case Some(t) => 0.0 <= t <= 45.0)
  }

  /** In a bring-up state that agrees with the device, the gauntlet clears
      exactly when nothing on this tick speaks against the output. */
  lemma GauntletClearsExactly(s: Sup, p: PollResult, dt: nat)
    requires BringingUp(s.state) && p.output != Some(On)
    requires OverBudget(Age(s.holds, dt)) <==> Flapping(HoldEvents(s.trace) + [Quiet(dt)])
    ensures Gauntlet(s, p, dt).Done?
    ensures Gauntlet(s, p, dt).value.1.Clear? <==> MayEnable(s, p, dt, s.packTempMissing)
    ensures Gauntlet(s, p, dt).value.1.Clear? ==>
              Some(Gauntlet(s, p, dt).value.1.sample) == FiniteSample(p.battery)
    ensures var s' := Gauntlet(s, p, dt).value.0; s'.state == s.state && s'.cfg == s.cfg
  {
    hide Flapping, HoldEvents;
    GauntletBusKeeps(s, p, dt);
    var (s1, v) := GauntletBus(s, p, dt).value;
    if v.Clear? { GauntletPackKeeps(s1, p, v.sample, dt); }
  }

  /** No other state, and no bring-up state whose buck reports itself on, ever
      asks for the output. */
  lemma OthersNeverEnable(s: Sup, p: PollResult, dt: nat)
    requires Inv(s) && (!BringingUp(s.state) || p.output == Some(On))
    ensures Tick(s, p, dt).Done? && !Tick(s, p, dt).value.1.EnableOutput?
  {
    hide Gauntlet, OnFault, Step, Regulate, Flapping, HoldEvents, Explains, ClocksRight, Extends, TimersRan, ReadsWrong;
    TickKeeps(s, p, dt);
    ReconcileKeeps(s, p);
    var (s1, decided) := Reconcile(s, p).value;
    if decided.None? {
      GauntletKeeps(s1, p, dt);
      FlapBudgetCounts(s1, dt);
      if BringingUp(s1.state) { GauntletClearsExactly(s1, p, dt); }
      var (s2, v) := Gauntlet(s1, p, dt).value;
      if v.Latch? { OnFaultKeeps(s2, v.fault); }
      if v.Clear? && !BringingUp(s2.state) { RegulateKeeps(s2.(inhibit := None), v.sample, dt); }
    }
  }

  lemma FlapBudgetCounts(s: Sup, dt: nat)
    requires Base(s)
    ensures OverBudget(Age(s.holds, dt)) <==> Flapping(HoldEvents(s.trace) + [Quiet(dt)])
  {
    ExtendFold(HoldEvents(s.trace), Quiet(dt));
    OverBudgetIsFlapping(HoldEvents(s.trace) + [Quiet(dt)]);
  }

  /** In bring-up the answer is the gauntlet's. */
  lemma BringUpFollowsGauntlet(s: Sup, p: PollResult, dt: nat)
    requires Inv(s) && BringingUp(s.state) && p.output != Some(On)
    ensures Tick(s, p, dt).Done? && Gauntlet(s, p, dt).Done?
    ensures var (_, v) := Gauntlet(s, p, dt).value;
            if v.Clear? then Tick(s, p, dt).value.1 == EnableOutput(!RestedFull(s.cfg.profile, v.sample))
            else !Tick(s, p, dt).value.1.EnableOutput?
  {
    hide Gauntlet, OnFault, Regulate, RestedFull, Explains, ClocksRight;
    GauntletKeeps(s, p, dt);
    var (s1, v) := Gauntlet(s, p, dt).value;
    if v.Latch? { OnFaultKeeps(s1, v.fault); }
  }

  /** The output is asked for exactly when all of that is true, and the ticket
      then says whether a step up to absorb is owed. */
  lemma TickEnablesExactly(s: Sup, p: PollResult, dt: nat)
    requires Inv(s)
    ensures Tick(s, p, dt).Done?
    ensures Tick(s, p, dt).value.1.EnableOutput? <==> MayEnable(s, p, dt, s.packTempMissing)
    ensures MayEnable(s, p, dt, s.packTempMissing) ==>
              Tick(s, p, dt).value.1 ==
                EnableOutput(!RestedFull(s.cfg.profile, FiniteSample(p.battery).value))
  {
    if BringingUp(s.state) && p.output != Some(On) {
      hide Tick, Judge, Gauntlet, Flapping, HoldEvents, Base, Timed;
      FlapBudgetCounts(s, dt);
      GauntletClearsExactly(s, p, dt);
      BringUpFollowsGauntlet(s, p, dt);
    } else {
      OthersNeverEnable(s, p, dt);
    }
  }

  /** What the supervisor reports waiting on while it is sourcing: the sample
      missing this tick and nothing else. */
  lemma InhibitWhileSourcing(s: Sup, p: PollResult, dt: nat)
    requires Inv(s)
    ensures Tick(s, p, dt).Done?
    ensures var s' := Tick(s, p, dt).value.0;
            Sourcing(s'.state) ==>
              s'.inhibit == if FiniteSample(p.battery).None? then Some(WaitNoBatterySample) else None
  {
    TickKeeps(s, p, dt);
  }
}
