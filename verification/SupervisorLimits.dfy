/** How long what is wrong may go on, over every run: the battery too high, the
    current too great, the temperature unread, the absorb stretch too long. */
module SupervisorLimits {
  import opened Wrappers
  import opened Timing
  import opened ChargeTypes
  import opened ChargeStates
  import opened Debouncing
  import opened HoldBudgets
  import opened SupervisorSpec
  import opened SupervisorInvariant
  import opened SupervisorRuns
  import opened SupervisorChecks

  // ------------------------------------------- how long a wrong may go uncut

  /** The conditions of a sourced battery that are cut only after a while. */
  datatype Wrong = HighWrong | RushWrong | UnfeltWrong

  predicate IsWrong(s: Sup, p: PollResult, b: Sample, w: Wrong) {
    match w
    case HighWrong => TooHigh(s, Some(b))
    case RushWrong => Rushes(s, Some(b))
    case UnfeltWrong => s.cfg.packTemp.Fitted? && p.packTempC.None?
  }

  function TimerOf(s: Sup, w: Wrong): nat {
    match w
    case HighWrong => s.ov
    case RushWrong => s.overcurrent
    case UnfeltWrong => s.packTempMissing
  }

  function LimitOf(w: Wrong): nat {
    match w
    case HighWrong => OV_DURATION
    case RushWrong => OVERCURRENT_DURATION
    case UnfeltWrong => PACK_TEMP_STALE_TIMEOUT
  }

  /** This tick parked the machine on too much current. */
  predicate ParksOnRush(before: Sup, after: Sup) {
    before.fault.None? && after.fault == Some(ChargeOvercurrent)
  }

  /** A tick gets as far as the check: it had a usable sample, and no earlier
      check parked the machine. */
  predicate Reaches(before: Sup, after: Sup, p: PollResult, w: Wrong) {
    FiniteSample(p.battery).Some? && !(w.UnfeltWrong? && ParksOnRush(before, after))
  }

  /** Time handed in, while sourcing and on ticks that got as far as the check,
      since the last of them that was not wrong. */
  function WrongFor(s: Sup, cs: seq<Cycle>, w: Wrong): nat {
    if cs == [] then 0
    else
      var init, c := cs[..|cs| - 1], cs[|cs| - 1];
      match Run(s, init)
      case Panic => 0
      case Done(before) =>
        match Tick(before, c.poll, c.elapsed)
        case Panic => 0
        case Done((after, _)) =>
          if !Sourcing(after.state) then 0
          else if !Reaches(before, after, c.poll, w) then WrongFor(s, init, w)
          else if IsWrong(before, c.poll, FiniteSample(c.poll.battery).value, w) then WrongFor(s, init, w) + c.elapsed
          else 0
  }

  /** The length of the tick that parked on too much current, while no usable
      sample has come since; otherwise nothing. */
  function ParkTick(s: Sup, cs: seq<Cycle>): nat {
    if cs == [] then 0
    else
      var init, c := cs[..|cs| - 1], cs[|cs| - 1];
      match Run(s, init)
      case Panic => 0
      case Done(before) =>
        match Tick(before, c.poll, c.elapsed)
        case Panic => 0
        case Done((after, _)) =>
          if ParksOnRush(before, after) then c.elapsed
          else if FiniteSample(c.poll.battery).None? then ParkTick(s, init)
          else 0
  }

  predicate SameChecks(s: Sup, s': Sup) {
    s'.ov == s.ov && s'.overcurrent == s.overcurrent && s'.packTempMissing == s.packTempMissing
  }

  /** No move that leaves the buck sourcing touches the sample timers. */
  lemma MovesKeepChecks(s: Sup, e: ChargeEvent)
    ensures Step(s, e).Done? && Sourcing(Step(s, e).value.state) ==> SameChecks(s, Step(s, e).value)
  {
    hide Push, Next;
  }

  lemma OnFaultKeepsChecks(s: Sup, r: FaultReason)
    ensures OnFault(s, r).Done? && Sourcing(OnFault(s, r).value.0.state) ==>
              SameChecks(s, OnFault(s, r).value.0) && OnFault(s, r).value.0.fault == Some(r)
  {
    hide Push, Next;
  }

  lemma AbsorbCapsKeepChecks(s: Sup, atCv: bool, dt: nat)
    ensures AbsorbCaps(s, atCv, dt).Done? && Sourcing(AbsorbCaps(s, atCv, dt).value.0.state) ==>
              SameChecks(s, AbsorbCaps(s, atCv, dt).value.0)
  {
    hide OnFault, LeakyStep;
    var absorb := LeakyStep(s.absorb, Reading(atCv, dt));
    var s1 := s.(absorb := absorb);
    OnFaultKeepsChecks(s1, AbsorbTimeout);
    OnFaultKeepsChecks(s1.(chargeTotal := s.chargeTotal + dt), ChargeTimeout);
  }

  lemma RegulateKeepsChecks(s: Sup, b: Sample, dt: nat)
    ensures Regulate(s, b, dt).Done? && Sourcing(Regulate(s, b, dt).value.0.state) ==>
              SameChecks(s, Regulate(s, b, dt).value.0)
  {
    hide Step, AbsorbCaps, LeakyStep, TargetVoltage, ChargingA, UpdateVoltageFor;
    var below := s.state.Absorb? && ChargingA(b) < s.cfg.profile.exitAbsorbA;
    var atCv := b.voltage >= s.cfg.profile.absorbV - ABSORB_CV_BAND_V;
    var s1 := s.(exit := LeakyStep(s.exit, Reading(below, dt)), trace := s.trace + [Clocked(below, atCv, dt)]);
    MovesKeepChecks(s1, TaperRose);
    MovesKeepChecks(s1, TaperFell);
    AbsorbCapsKeepChecks(s1, atCv, dt);
  }

  lemma ReconcileKeepsChecks(s: Sup, p: PollResult)
    ensures Reconcile(s, p).Done? && Sourcing(Reconcile(s, p).value.0.state) ==>
              SameChecks(s, Reconcile(s, p).value.0)
  {
    hide OnFault, Push, Next;
    if p.output.Some? && p.output.value.Off? { OnFaultKeepsChecks(s, OutputUnexpectedlyOff(p.output.value.cause)); }
    OnFaultKeepsChecks(s, OutputOnInPending);
  }

  lemma CommitKeepsChecks(s: Sup, a: Action)
    ensures Commit(s, a).Done? && Sourcing(Commit(s, a).value.state) ==> SameChecks(s, Commit(s, a).value)
  {
    hide Push, Next;
  }

  /** What a tick that leaves the machine sourcing did to a timer; `parks` if it
      parked on too much current. */
  predicate SampleTimed(s: Sup, s': Sup, p: PollResult, dt: nat, w: Wrong, parks: bool) {
    match FiniteSample(p.battery)
    case None => TimerOf(s', w) == TimerOf(s, w)
    case Some(b) =>
      if w.UnfeltWrong? && (parks || s.cfg.packTemp.Absent?) then TimerOf(s', w) == TimerOf(s, w)
      else
        && TimerOf(s', w) == HardStep(TimerOf(s, w), Reading(IsWrong(s, p, b, w), dt))
        && (IsWrong(s, p, b, w) ==> TimerOf(s', w) < LimitOf(w) || (w.RushWrong? && parks))
  }

  lemma BusLeavesSampleTimers(s: Sup, p: PollResult, dt: nat)
    requires !Terminal(s.state)
    ensures GauntletBus(s, p, dt).Done?
    ensures var (s', v) := GauntletBus(s, p, dt).value;
            && SameChecks(s, s') && s'.cfg == s.cfg && s'.state == s.state
            && (v.Clear? ==> Some(v.sample) == FiniteSample(p.battery))
            && (v.Inhibit? && Sourcing(s.state) ==> FiniteSample(p.battery).None?)
            && (v.Latch? ==> Response(v.fault).Disable?)
  {
    hide OverBudget, Age, Drifted, FiniteSample;
  }

  lemma PackTimes(s: Sup, p: PollResult, b: Sample, dt: nat, w: Wrong)
    requires Sourcing(s.state) && FiniteSample(p.battery) == Some(b)
    ensures GauntletPack(s, p, b, dt).Done?
    ensures var (s', v) := GauntletPack(s, p, b, dt).value;
            && s'.state == s.state
            && !v.Inhibit?
            && ((v.Latch? ==> Response(v.fault).Park?) ==>
                  SampleTimed(s, s', p, dt, w, v == Latch(ChargeOvercurrent)))
  {
    hide FiniteSample;
  }

  lemma GauntletTimes(s: Sup, p: PollResult, dt: nat, w: Wrong)
    requires Sourcing(s.state)
    ensures Gauntlet(s, p, dt).Done?
    ensures var (s', v) := Gauntlet(s, p, dt).value;
            (v.Latch? ==> Response(v.fault).Park?) ==>
              && SampleTimed(s, s', p, dt, w, v == Latch(ChargeOvercurrent))
              && (v.Latch? ==> v == Latch(ChargeOvercurrent))
  {
    hide GauntletBus, GauntletPack, FiniteSample;
    BusLeavesSampleTimers(s, p, dt);
    var (s1, v) := GauntletBus(s, p, dt).value;
    if v.Clear? {
      PackTimes(s1, p, v.sample, dt, w);
      PackParksOnRushOnly(s1, p, v.sample, dt);
    }
  }

  lemma PackParksOnRushOnly(s: Sup, p: PollResult, b: Sample, dt: nat)
    requires Sourcing(s.state)
    ensures GauntletPack(s, p, b, dt).Done?
    ensures var v := GauntletPack(s, p, b, dt).value.1;
            v.Latch? && Response(v.fault).Park? ==> v == Latch(ChargeOvercurrent)
  {
  }

  lemma JudgeTimes(s: Sup, p: PollResult, dt: nat, w: Wrong)
    requires Base(s) && Timed(s) && FaultFits(s) && !Terminal(s.state)
    ensures Judge(s, p, dt).Done?
    ensures var s' := Judge(s, p, dt).value.0;
            Sourcing(s'.state) ==> Sourcing(s.state) && SampleTimed(s, s', p, dt, w, ParksOnRush(s, s'))
  {
    hide Gauntlet, OnFault, Regulate, Explains, ClocksRight, Extends, HoldEvents, ReadsWrong, TimersRan, FiniteSample, IsWrong, Progress;
    JudgeKeeps(s, p, dt);
    GauntletKeeps(s, p, dt);
    var (s1, v) := Gauntlet(s, p, dt).value;
    if Sourcing(s.state) {
      GauntletTimes(s, p, dt, w);
      match v
      case Latch(r) => { OnFaultKeeps(s1, r); OnFaultKeepsChecks(s1, r); }
      case Inhibit(_) =>
      case Clear(b) => {
        RegulateKeepsChecks(s1.(inhibit := None), b, dt);
        RegulateNeverBlamesRush(s1.(inhibit := None), b, dt);
      }
    }
  }

  lemma RegulateNeverBlamesRush(s: Sup, b: Sample, dt: nat)
    requires Regulate(s, b, dt).Done?
    ensures var f := Regulate(s, b, dt).value.0.fault; f == s.fault || f != Some(ChargeOvercurrent)
  {
    hide Push, Next, LeakyStep, UpdateVoltageFor;
  }

  lemma TickTimes(s: Sup, p: PollResult, dt: nat, w: Wrong)
    requires Inv(s)
    ensures Tick(s, p, dt).Done?
    ensures var s' := Tick(s, p, dt).value.0;
            Sourcing(s'.state) ==> SampleTimed(s, s', p, dt, w, ParksOnRush(s, s'))
  {
    hide Reconcile, Judge, Explains, ClocksRight, Extends, HoldEvents, ReadsWrong, TimersRan, FiniteSample, IsWrong;
    TickKeeps(s, p, dt);
    ReconcileKeeps(s, p);
    ReconcileKeepsChecks(s, p);
    var (s1, decided) := Reconcile(s, p).value;
    if decided.None? && Sourcing(Tick(s, p, dt).value.0.state) {
      JudgeTimes(s1, p, dt, w);
      SameWrong(s, s1, w);
    }
  }

  lemma SameWrong(s: Sup, s': Sup, w: Wrong)
    requires s'.cfg == s.cfg
    ensures forall p, b :: IsWrong(s', p, b, w) == IsWrong(s, p, b, w)
  {
  }

  /** The ticket a sourcing machine hands out leaves it sourcing, and its timers be. */
  lemma AcknowledgedTimes(s: Sup, a: Action, landed: bool)
    requires Inv(s) && ActionFits(s, a) && Sourcing(s.state)
    ensures Acknowledge(s, a, landed).Done?
    ensures var s' := Acknowledge(s, a, landed).value;
            Sourcing(s'.state) && SameChecks(s, s') && (Stopped(s.state) ==> Stopped(s'.state))
  {
    hide Commit, Explains, ClocksRight, Extends, HoldEvents;
    CommitKeeps(s, a);
    CommitKeepsChecks(s, a);
    CommitSources(s, a);
  }

  lemma CommitSources(s: Sup, a: Action)
    requires ActionFits(s, a) && Sourcing(s.state) && Commit(s, a).Done?
    ensures var s' := Commit(s, a).value;
            Sourcing(s'.state) && (Stopped(s.state) ==> Stopped(s'.state))
  {
    hide Push;
  }

  lemma CycleTimes(s: Sup, c: Cycle, w: Wrong)
    requires Inv(s)
    ensures Tick(s, c.poll, c.elapsed).Done? && CycleStep(s, c).Done?
    ensures var (s1, s') := (Tick(s, c.poll, c.elapsed).value.0, CycleStep(s, c).value);
            Sourcing(s1.state) ==> SampleTimed(s, s', c.poll, c.elapsed, w, ParksOnRush(s, s1))
    ensures var (s1, s') := (Tick(s, c.poll, c.elapsed).value.0, CycleStep(s, c).value);
            && s'.fault == s1.fault && (s.fault.Some? ==> s'.fault.Some?)
  {
    hide Tick, Inv, FiniteSample, IsWrong, Progress, TimersRan, HoldsHeard, ReadsWrong;
    TickKeeps(s, c.poll, c.elapsed);
    TickTimes(s, c.poll, c.elapsed, w);
    CycleKeeps(s, c);
    ShownFaultCycle(s, c);
    var (s1, a) := Tick(s, c.poll, c.elapsed).value;
    CommitKeepsFault(s1, a);
    if Sourcing(s1.state) { AcknowledgedTimes(s1, a, c.landed); }
  }

  lemma CommitKeepsFault(s: Sup, a: Action)
    ensures Commit(s, a).Done? ==> Commit(s, a).value.fault == s.fault
  {
    hide Push, Next;
  }

  /** A high battery, too much current or an unread temperature never goes on
      being sourced for its whole grace: after any run, parked or not, the time
      it has been wrong is short of the limit. The one exception is the tick that
      itself parks on too much current, which may overshoot by its own length
      until the next usable sample trips or clears it. */
  lemma {:induction false} WrongIsCut(cfg: Config, cs: seq<Cycle>, w: Wrong)
    requires WellFormed(cfg)
    ensures Run(New(cfg), cs).Done?
    ensures var s := Run(New(cfg), cs).value;
            && WrongFor(New(cfg), cs, w) <= TimerOf(s, w)
            && WrongFor(New(cfg), cs, w) < LimitOf(w) + (if w.RushWrong? then ParkTick(New(cfg), cs) else 0)
            && (ParkTick(New(cfg), cs) > 0 ==> s.fault.Some?)
  {
    if cs != [] {
      hide Tick, CycleStep, Inv, IsWrong, FiniteSample;
      var init, c := cs[..|cs| - 1], cs[|cs| - 1];
      WrongIsCut(cfg, init, w);
      NeverPanics(cfg, init);
      CycleTimes(Run(New(cfg), init).value, c, w);
    }
  }

  // --------------------------------------------------- the length of an absorb

  /** Time handed in since this stretch of absorb began; or of that, only the time
      of ticks without a usable sample. */
  function AbsorbTime(s: Sup, cs: seq<Cycle>, blindOnly: bool): nat {
    if cs == [] then 0
    else
      var init, c := cs[..|cs| - 1], cs[|cs| - 1];
      match Run(s, init)
      case Panic => 0
      case Done(before) =>
        match Tick(before, c.poll, c.elapsed)
        case Panic => 0
        case Done((after, _)) =>
          if !after.state.Absorb? then 0
          else AbsorbTime(s, init, blindOnly) +
               (if blindOnly && FiniteSample(c.poll.battery).Some? then 0 else c.elapsed)
  }

  lemma AbsorbTicksOn(s: Sup, b: Sample, dt: nat)
    requires Inv(s) && Sourcing(s.state)
    ensures Regulate(s, b, dt).Done?
    ensures var s' := Regulate(s, b, dt).value.0;
            s'.state.Absorb? ==> s.state.Absorb? && s'.chargeTotal == s.chargeTotal + dt
  {
    hide Explains, ClocksRight, Extends, HoldEvents, Push;
    RegulateKeeps(s, b, dt);
  }

  lemma JudgeTicksOn(s: Sup, p: PollResult, dt: nat)
    requires Base(s) && Timed(s) && FaultFits(s) && !Terminal(s.state)
    ensures Judge(s, p, dt).Done?
    ensures var s' := Judge(s, p, dt).value.0;
            s'.state.Absorb? ==>
              s.state.Absorb? && s'.chargeTotal == s.chargeTotal + (if FiniteSample(p.battery).Some? then dt else 0)
  {
    hide Gauntlet, OnFault, Regulate, Explains, ClocksRight, Extends, HoldEvents, ReadsWrong, TimersRan;
    GauntletKeeps(s, p, dt);
    var (s1, v) := Gauntlet(s, p, dt).value;
    match v
    case Latch(r) => OnFaultKeeps(s1, r);
    case Inhibit(_) =>
    case Clear(b) => if !BringingUp(s1.state) { AbsorbTicksOn(s1.(inhibit := None), b, dt); }
  }

  /** The total-time clock is charged for a tick in absorb exactly when the tick
      had a usable sample, and starts at nothing when a hold ends in absorb. */
  lemma ChargeClockSkipsBlindTicks(s: Sup, p: PollResult, dt: nat)
    requires Inv(s)
    ensures Tick(s, p, dt).Done?
    ensures var s' := Tick(s, p, dt).value.0;
            s'.state.Absorb? ==>
              && (s.state.Absorb? || s.state.HoldAbsorb?)
              && s'.chargeTotal ==
                   (if s.state.Absorb? then s.chargeTotal else 0) + (if FiniteSample(p.battery).Some? then dt else 0)
  {
    hide Judge, OnFault, Explains, ClocksRight, Extends, HoldEvents, ReadsWrong, TimersRan, Push;
    TickKeeps(s, p, dt);
    ReconcileKeeps(s, p);
    var (s1, decided) := Reconcile(s, p).value;
    if decided.None? { JudgeTicksOn(s1, p, dt); }
  }

  /** A commit leaves an absorb running as it is, or starts one at nothing. */
  lemma CommitTicksOn(s: Sup, a: Action)
    requires ActionFits(s, a) && Commit(s, a).Done?
    ensures var s' := Commit(s, a).value;
            && (s.state.Absorb? ==> s' == s)
            && (s'.state.Absorb? && !s.state.Absorb? ==> s'.chargeTotal == 0)
  {
    hide Push;
  }

  lemma CycleTicksOn(s: Sup, c: Cycle)
    requires Inv(s)
    ensures Tick(s, c.poll, c.elapsed).Done? && CycleStep(s, c).Done?
    ensures var (s1, s') := (Tick(s, c.poll, c.elapsed).value.0, CycleStep(s, c).value);
            if s1.state.Absorb? then
              && s'.state.Absorb? && (s.state.Absorb? || s.state.HoldAbsorb?)
              && s'.chargeTotal ==
                   (if s.state.Absorb? then s.chargeTotal else 0) +
                   (if FiniteSample(c.poll.battery).Some? then c.elapsed else 0)
            else s'.state.Absorb? ==> s'.chargeTotal == 0
  {
    hide Tick, Commit, Inv, FiniteSample, Progress, TimersRan, HoldsHeard, ReadsWrong, ActionFits;
    TickKeeps(s, c.poll, c.elapsed);
    ChargeClockSkipsBlindTicks(s, c.poll, c.elapsed);
    var (s1, a) := Tick(s, c.poll, c.elapsed).value;
    CommitKeeps(s1, a);
    CommitTicksOn(s1, a);
  }

  lemma {:induction false} AbsorbTimeAddsUp(cfg: Config, cs: seq<Cycle>)
    requires WellFormed(cfg)
    ensures Run(New(cfg), cs).Done?
    ensures var s := Run(New(cfg), cs).value;
            if s.state.Absorb? then AbsorbTime(New(cfg), cs, false) == s.chargeTotal + AbsorbTime(New(cfg), cs, true)
            else AbsorbTime(New(cfg), cs, false) == AbsorbTime(New(cfg), cs, true) == 0
  {
    if cs != [] {
      hide Tick, CycleStep, Inv, FiniteSample;
      var init, c := cs[..|cs| - 1], cs[|cs| - 1];
      AbsorbTimeAddsUp(cfg, init);
      NeverPanics(cfg, init);
      CycleTicksOn(Run(New(cfg), init).value, c);
    }
  }

  /** How far the total cap bounds an absorb: the time since it began is what the
      clock was charged plus what passed without a usable sample, so it is short
      of the cap plus the blind time. */
  lemma AbsorbOutlastsByBlindTime(cfg: Config, cs: seq<Cycle>)
    requires WellFormed(cfg)
    ensures Run(New(cfg), cs).Done?
    ensures var s := Run(New(cfg), cs).value;
            s.state.Absorb? ==>
              && AbsorbTime(New(cfg), cs, false)
                   == HardFold(Readings(s.trace, CycleClock)) + AbsorbTime(New(cfg), cs, true)
              && AbsorbTime(New(cfg), cs, false) < MAX_CHARGE + AbsorbTime(New(cfg), cs, true)
  {
    hide Base, Run, AbsorbTime, Readings, HardFold, LeakyFold;
    NeverPanics(cfg, cs);
    AbsorbTimeAddsUp(cfg, cs);
  }

  /** Ticks of this stretch of absorb that had a usable sample. */
  function SampledTicks(s: Sup, cs: seq<Cycle>): nat {
    if cs == [] then 0
    else
      var init, c := cs[..|cs| - 1], cs[|cs| - 1];
      match Run(s, init)
      case Panic => 0
      case Done(before) =>
        match Tick(before, c.poll, c.elapsed)
        case Panic => 0
        case Done((after, _)) =>
          if !after.state.Absorb? then 0
          else SampledTicks(s, init) + (if FiniteSample(c.poll.battery).Some? then 1 else 0)
  }

  /** Every sampled tick cost the total clock at least `d`, and no more than one
      whole window passed blind between two of them. */
  predicate Paid(n: nat, d: nat, charged: nat, blind: nat, missing: nat) {
    n * d <= charged && blind <= n * BATTERY_MISSING_TIMEOUT + missing
  }

  lemma PaidAtFirst(d: nat, charged: nat, missing: nat)
    ensures Paid(0, d, charged, 0, missing)
  {
  }

  lemma PaidSampled(n: nat, d: nat, charged: nat, blind: nat, missing: nat, dt: nat, missing': nat)
    requires Paid(n, d, charged, blind, missing) && dt >= d && missing < BATTERY_MISSING_TIMEOUT
    ensures Paid(n + 1, d, charged + dt, blind, missing')
  {
    assert (n + 1) * d == n * d + d;
  }

  lemma PaidBlind(n: nat, d: nat, charged: nat, blind: nat, missing: nat, dt: nat)
    requires Paid(n, d, charged, blind, missing)
    ensures Paid(n, d, charged, blind + dt, missing + dt)
  {
  }

  lemma PaidCycle(s: Sup, c: Cycle, n: nat, d: nat, blind: nat)
    requires Inv(s)
    requires if s.state.Absorb? then Paid(n, d, s.chargeTotal, blind, s.batteryMissing) else n == 0 && blind == 0
    requires !s.state.Boot? ==> c.elapsed >= d
    ensures Tick(s, c.poll, c.elapsed).Done? && CycleStep(s, c).Done?
    ensures var (s1, s') := (Tick(s, c.poll, c.elapsed).value.0, CycleStep(s, c).value);
            var sampled := FiniteSample(c.poll.battery).Some?;
            && (s1.state.Absorb? ==>
                  s'.state.Absorb? &&
                  Paid(n + (if sampled then 1 else 0), d, s'.chargeTotal, blind + (if sampled then 0 else c.elapsed), s'.batteryMissing))
            && (!s1.state.Absorb? ==> Paid(0, d, s'.chargeTotal, 0, s'.batteryMissing))
  {
    hide Tick, CycleStep, Inv, FiniteSample, Paid;
    CycleTicksOn(s, c);
    CycleTimers(s, c);
    SourcingHasSample(s);
    var s1 := Tick(s, c.poll, c.elapsed).value.0;
    var s' := CycleStep(s, c).value;
    if !s1.state.Absorb? {
      PaidAtFirst(d, s'.chargeTotal, s'.batteryMissing);
    } else if FiniteSample(c.poll.battery).Some? {
      if s.state.Absorb? {
        PaidSampled(n, d, s.chargeTotal, blind, s.batteryMissing, c.elapsed, s'.batteryMissing);
      } else {
        PaidAtFirst(d, 0, 0);
        PaidSampled(0, d, 0, 0, 0, c.elapsed, s'.batteryMissing);
      }
    } else {
      if !s.state.Absorb? { PaidAtFirst(d, 0, s.batteryMissing); }
      PaidBlind(n, d, if s.state.Absorb? then s.chargeTotal else 0, blind, s.batteryMissing, c.elapsed);
    }
  }

  lemma {:induction false} BlindTimeIsPaidFor(cfg: Config, cs: seq<Cycle>, d: nat)
    requires WellFormed(cfg) && forall i :: 0 < i < |cs| ==> cs[i].elapsed >= d
    ensures Run(New(cfg), cs).Done?
    ensures var s := Run(New(cfg), cs).value;
            var n, blind := SampledTicks(New(cfg), cs), AbsorbTime(New(cfg), cs, true);
            if s.state.Absorb? then Paid(n, d, s.chargeTotal, blind, s.batteryMissing) else n == 0 && blind == 0
  {
    hide Tick, CycleStep, Inv, FiniteSample, Paid;
    if cs != [] {
      var init, c := cs[..|cs| - 1], cs[|cs| - 1];
      BlindTimeIsPaidFor(cfg, init, d);
      AbsorbTimeAddsUp(cfg, cs);
      NeverPanics(cfg, init);
      var s := Run(New(cfg), init).value;
      assert init == [] ==> s.state.Boot?;
      PaidCycle(s, c, SampledTicks(New(cfg), init), d, AbsorbTime(New(cfg), init, true));
      CycleTicksOn(s, c);
    }
  }

  lemma SourcingHasSample(s: Sup)
    requires Inv(s)
    ensures Sourcing(s.state) ==> s.batteryMissing < BATTERY_MISSING_TIMEOUT
  {
  }

  lemma Scales(a: nat, b: nat, d: nat)
    requires a <= b
    ensures a * d <= b * d
  {
  }

  lemma CountsFit(n: nat, d: nat, total: nat, cap: nat)
    requires d > 0 && n * d <= total < cap
    ensures n <= cap / d
  {
    assert (cap / d + 1) * d > cap;
    if n > cap / d {
      Scales(cap / d + 1, n, d);
      assert false;
    }
  }

  /** With a shortest tick an absorb is bounded. The loop's is its poll interval;
      only its very first tick may be shorter, and that one is never in absorb. */
  lemma AbsorbIsBounded(cfg: Config, cs: seq<Cycle>, d: nat)
    requires WellFormed(cfg) && d > 0 && forall i :: 0 < i < |cs| ==> cs[i].elapsed >= d
    ensures Run(New(cfg), cs).Done?
    ensures Run(New(cfg), cs).value.state.Absorb? ==>
              AbsorbTime(New(cfg), cs, false) < MAX_CHARGE + (MAX_CHARGE / d + 1) * BATTERY_MISSING_TIMEOUT
  {
    hide Base, Run, AbsorbTime, SampledTicks, Readings, HardFold, LeakyFold;
    NeverPanics(cfg, cs);
    AbsorbTimeAddsUp(cfg, cs);
    BlindTimeIsPaidFor(cfg, cs, d);
    var s := Run(New(cfg), cs).value;
    if s.state.Absorb? {
      var n := SampledTicks(New(cfg), cs);
      CountsFit(n, d, s.chargeTotal, MAX_CHARGE);
      Scales(n + 1, MAX_CHARGE / d + 1, BATTERY_MISSING_TIMEOUT);
    }
  }

  // ------------------------------------------------------ the phase clocks, always

  predicate Short(s: Sup) {
    s.exit < EXIT_DEBOUNCE && s.absorb < MAX_ABSORB && s.chargeTotal < MAX_CHARGE
  }

  lemma StepStaysShort(s: Sup, e: ChargeEvent)
    ensures Step(s, e).Done? && (Short(s) || !Terminal(Step(s, e).value.state)) ==> Short(Step(s, e).value)
  {
    hide Push, Next;
  }

  lemma OnFaultStaysShort(s: Sup, r: FaultReason)
    requires Short(s) || (Response(r).Park? && s.state.Absorb?)
    ensures OnFault(s, r).Done? ==> Short(OnFault(s, r).value.0)
  {
    hide Step;
    var s1 := s.(fault := Some(r), inhibit := None);
    StepStaysShort(s1, ParkEvent);
    StepStaysShort(s1, Fault);
    ParkIsNotTerminal(s1);
  }

  lemma ParkIsNotTerminal(s: Sup)
    ensures Step(s, ParkEvent).Done? ==> !Terminal(Step(s, ParkEvent).value.state)
  {
    hide Push;
  }

  lemma ReconcileStaysShort(s: Sup, p: PollResult)
    requires Short(s)
    ensures Reconcile(s, p).Done? ==> Short(Reconcile(s, p).value.0)
  {
    hide Step, OnFault;
    StepStaysShort(s, SelfEnabled);
    StepStaysShort(s, SelfDisabled);
    OnFaultStaysShort(s, OutputOnInPending);
    if p.output.Some? && p.output.value.Off? { OnFaultStaysShort(s, OutputUnexpectedlyOff(p.output.value.cause)); }
  }

  lemma TaperIsNotTerminal(s: Sup, e: ChargeEvent)
    requires e.TaperRose? || e.TaperFell?
    ensures Step(s, e).Done? ==> !Terminal(Step(s, e).value.state)
  {
    hide Push;
  }

  lemma RegulateStaysShort(s: Sup, b: Sample, dt: nat)
    requires Short(s) && Sourcing(s.state)
    ensures Regulate(s, b, dt).Done? ==> Short(Regulate(s, b, dt).value.0)
  {
    hide Step, OnFault, TargetVoltage, ChargingA, UpdateVoltageFor;
    var below := s.state.Absorb? && ChargingA(b) < s.cfg.profile.exitAbsorbA;
    var atCv := b.voltage >= s.cfg.profile.absorbV - ABSORB_CV_BAND_V;
    var s1 := s.(exit := LeakyStep(s.exit, Reading(below, dt)), trace := s.trace + [Clocked(below, atCv, dt)]);
    StepStaysShort(s1, TaperRose);
    StepStaysShort(s1, TaperFell);
    TaperIsNotTerminal(s1, TaperRose);
    TaperIsNotTerminal(s1, TaperFell);
    if s.state.Absorb? {
      var s2 := s1.(absorb := LeakyStep(s.absorb, Reading(atCv, dt)));
      OnFaultStaysShort(s2, AbsorbTimeout);
      OnFaultStaysShort(s2.(chargeTotal := s.chargeTotal + dt), ChargeTimeout);
    }
  }

  lemma CommitStaysShort(s: Sup, a: Action)
    requires Short(s)
    ensures Commit(s, a).Done? ==> Short(Commit(s, a).value)
  {
    hide Step;
    StepStaysShort(s, VoltageWritten);
    StepStaysShort(s, Disabled);
    StepStaysShort(s, Enabled);
    StepStaysShort(s, EnabledBelowFull);
  }

  lemma JudgeStaysShort(s: Sup, p: PollResult, dt: nat)
    requires Base(s) && Timed(s) && FaultFits(s) && !Terminal(s.state) && Short(s)
    ensures Judge(s, p, dt).Done? && Short(Judge(s, p, dt).value.0)
  {
    hide Gauntlet, OnFault, Regulate, Base, Timed, Progress, TimersRan, ReadsWrong;
    JudgeKeeps(s, p, dt);
    GauntletKeeps(s, p, dt);
    var (g, v) := Gauntlet(s, p, dt).value;
    match v
    case Latch(f) => OnFaultStaysShort(g, f);
    case Inhibit(_) =>
    case Clear(b) => if !BringingUp(g.state) { RegulateStaysShort(g.(inhibit := None), b, dt); }
  }

  lemma CycleStaysShort(s: Sup, c: Cycle)
    requires Inv(s) && Short(s)
    ensures CycleStep(s, c).Done? && Short(CycleStep(s, c).value)
  {
    hide Reconcile, Commit, Judge, Base, Timed, Progress, TimersRan, ReadsWrong, HoldsHeard;
    TickKeeps(s, c.poll, c.elapsed);
    ReconcileKeeps(s, c.poll);
    ReconcileStaysShort(s, c.poll);
    var (r, decided) := Reconcile(s, c.poll).value;
    if decided.None? { JudgeStaysShort(r, c.poll, c.elapsed); }
    var (s1, a) := Tick(s, c.poll, c.elapsed).value;
    CommitKeeps(s1, a);
    CommitStaysShort(s1, a);
  }

  /** Between ticks all three phase clocks stand below their windows, in every state
      of every run, latched ones included. */
  lemma {:induction false} ClocksStayShort(cfg: Config, cs: seq<Cycle>)
    requires WellFormed(cfg)
    ensures Run(New(cfg), cs).Done? && Short(Run(New(cfg), cs).value)
  {
    if cs != [] {
      hide CycleStep, Inv, Short;
      ClocksStayShort(cfg, cs[..|cs| - 1]);
      NeverPanics(cfg, cs[..|cs| - 1]);
      CycleStaysShort(Run(New(cfg), cs[..|cs| - 1]).value, cs[|cs| - 1]);
    }
  }
}
