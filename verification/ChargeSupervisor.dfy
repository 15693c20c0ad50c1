/** The charge supervisor as the program keeps it: an object updated in place
    (`charge_supervisor.rs`). Every method is tied to the state function it
    computes, and every public one keeps the invariant. */
module ChargeSupervisors {
  import opened Wrappers
  import opened Timing
  import opened ChargeTypes
  import opened ChargeStates
  import opened Debouncing
  import opened HoldBudgets
  import opened SupervisorSpec
  import opened SupervisorInvariant

  class ChargeSupervisor {
    const cfg: Config
    var state: ChargeState
    const ov: Debounce
    const overcurrent: Debounce
    const holds: HoldBudget
    const packTempMissing: Debounce
    const absorb: Debounce
    const chargeTotal: Debounce
    const exit: Debounce
    const batteryMissing: Debounce
    const modbusErr: Debounce
    var fault: Option<FaultReason>
    var inhibit: Option<InhibitReason>
    var transitions: seq<ChargeTransition>
    ghost var trace: seq<Obs>

    ghost function Repr(): set<object> {
      {this, ov, overcurrent, holds, packTempMissing, absorb, chargeTotal, exit, batteryMissing, modbusErr}
    }

    /** The parts are distinct objects: nothing steps two windows at once. */
    ghost predicate Separate() {
      && ov != overcurrent && ov != packTempMissing && ov != absorb && ov != chargeTotal && ov != exit
      && ov != batteryMissing && ov != modbusErr
      && overcurrent != packTempMissing && overcurrent != absorb && overcurrent != chargeTotal
      && overcurrent != exit && overcurrent != batteryMissing && overcurrent != modbusErr
      && packTempMissing != absorb && packTempMissing != chargeTotal && packTempMissing != exit
      && packTempMissing != batteryMissing && packTempMissing != modbusErr
      && absorb != chargeTotal && absorb != exit && absorb != batteryMissing && absorb != modbusErr
      && chargeTotal != exit && chargeTotal != batteryMissing && chargeTotal != modbusErr
      && exit != batteryMissing && exit != modbusErr
      && batteryMissing != modbusErr
    }

    ghost function View(): Sup
      reads Repr()
    {
      Sup(cfg, state, ov.elapsed, overcurrent.elapsed, holds.Count(), packTempMissing.elapsed,
          absorb.elapsed, chargeTotal.elapsed, exit.elapsed, batteryMissing.elapsed, modbusErr.elapsed,
          fault, inhibit, transitions, trace)
    }

    ghost predicate Sound()
      reads Repr()
    {
      Separate() && holds.Valid()
    }

    ghost predicate Valid()
      reads Repr()
    {
      Sound() && Inv(View())
    }

    lemma InitiallyValid()
      requires Sound() && WellFormed(cfg) && View() == New(cfg)
      ensures Valid()
    {
      NewKeeps(cfg);
    }

    constructor (cfg: Config)
      requires WellFormed(cfg)
      ensures Valid() && View() == New(cfg)
      ensures fresh(Repr())
    {
      hide Inv, Fold, Valid;
      this.cfg := cfg;
      state := Boot;
      ov := new Debounce();
      overcurrent := new Debounce();
      holds := new HoldBudget();
      packTempMissing := new Debounce();
      absorb := new Debounce();
      chargeTotal := new Debounce();
      exit := new Debounce();
      batteryMissing := new Debounce();
      modbusErr := new Debounce();
      fault, inhibit := None, None;
      transitions := [];
      trace := [];
      new;
      InitiallyValid();
    }

    // ----------------------------------------------------------- the machine

    method StepOn(event: ChargeEvent)
      requires Sound() && Step(View(), event).Done?
      modifies Repr()
      ensures Sound() && Step(old(View()), event) == Done(View())
    {
      var to := Next(state, event).value;
      var entry := LoggedAs(state, to);
      if entry.Some? {
        if |transitions| == TRANSITION_BUFFER {
          transitions := transitions[1..];
        }
        transitions := transitions + [entry.value];
      }
      if !Terminal(to) {
        absorb.Reset();
        chargeTotal.Reset();
        exit.Reset();
      }
      if Holding(to) {
        ov.Reset();
        holds.RecordHold();
      }
      trace := trace + [Moved(state, event, to)];
      state := to;
    }

    method BuildUpdateVoltage(next: Phase) returns (a: Action)
      requires UpdateVoltageFor(View(), next).Done?
      ensures UpdateVoltageFor(View(), next) == Done(a)
    {
      var live := TargetVoltage(cfg.profile, SetpointPhase(state).value);
      var target := TargetVoltage(cfg.profile, next);
      a := UpdateVoltage(VoltageTicket(next, target, target < live));
    }

    method HandleFault(reason: FaultReason) returns (a: Action)
      requires Sound() && OnFault(View(), reason).Done?
      modifies Repr()
      ensures Sound() && OnFault(old(View()), reason) == Done((View(), a))
    {
      fault := Some(reason);
      inhibit := None;
      if Response(reason).Park? && !ParkedUp(state) {
        StepOn(ParkEvent);
        var retarget := RetargetTo(state);
        if retarget.Some? {
          a := BuildUpdateVoltage(retarget.value);
        } else {
          a := NoAction;
        }
        return;
      }
      StepOn(Fault);
      a := DisableOutput(fault.value);
    }

    method AgreeWithDevice(p: PollResult) returns (decided: Option<Action>)
      requires Sound() && Reconcile(View(), p).Done?
      modifies Repr()
      ensures Sound() && Reconcile(old(View()), p) == Done((View(), decided))
    {
      decided := None;
      if state.Tripping? {
        decided := Some(DisableOutput(fault.value));
      } else if state.Latched? && p.output == Some(On) {
        StepOn(SelfEnabled);
        decided := Some(DisableOutput(fault.value));
      } else if state.Latched? {
        decided := Some(NoAction);
      } else if p.output.Some? && p.output.value.Off? && Sourcing(state) {
        var cause := p.output.value.cause;
        if SelfClearing(cause) && Next(state, SelfDisabled).Some? {
          StepOn(SelfDisabled);
        } else {
          var a := HandleFault(OutputUnexpectedlyOff(cause));
          decided := Some(a);
        }
      } else if p.output == Some(On) && BringingUp(state) {
        if Holding(state) {
          StepOn(SelfEnabled);
        } else {
          var a := HandleFault(OutputOnInPending);
          decided := Some(a);
        }
      }
    }

    method LatchOrInhibit(reason: FaultReason) returns (v: Verdict)
      requires FaultOrInhibit(View(), reason).Done?
      ensures FaultOrInhibit(View(), reason) == Done(v)
    {
      if Sourcing(state) {
        v := Latch(reason);
      } else {
        v := Inhibit(Inhibited(reason).value);
      }
    }

    /** Checks 1 to 4 of the gauntlet. */
    method CheckBus(p: PollResult, dt: nat) returns (v: Verdict)
      requires Sound() && GauntletBus(View(), p, dt).Done?
      modifies holds, modbusErr, batteryMissing, this`trace
      ensures Sound() && GauntletBus(old(View()), p, dt) == Done((View(), v))
    {
      trace := trace + [Aged(dt)];
      var flapping := holds.Step(dt);
      if flapping {
        return Latch(ProtectionFlapping);
      }
      if p.setpoints.Some? {
        var want := TargetVoltage(cfg.profile, SetpointPhase(state).value);
        if !Agrees(want, p.setpoints.value.vSet) || !Agrees(cfg.iSetA, p.setpoints.value.iSet) {
          v := LatchOrInhibit(SettingsDrift);
          return;
        }
      }
      var deaf := modbusErr.Step(p.setpoints.None?, dt, MODBUS_UNHEALTHY_TIMEOUT);
      if deaf {
        v := LatchOrInhibit(ModbusUnhealthy);
        return;
      }
      var battery := FiniteSample(p.battery);
      var blind := batteryMissing.Step(battery.None?, dt, BATTERY_MISSING_TIMEOUT);
      if blind {
        v := LatchOrInhibit(BatterySensorStale);
        return;
      }
      if battery.None? {
        return Inhibit(WaitNoBatterySample);
      }
      v := Clear(battery.value);
    }

    /** Checks 5 to 7. */
    method CheckPack(p: PollResult, b: Sample, dt: nat) returns (v: Verdict)
      requires Sound() && GauntletPack(View(), p, b, dt).Done?
      modifies ov, overcurrent, packTempMissing
      ensures Sound() && GauntletPack(old(View()), p, b, dt) == Done((View(), v))
    {
      var over := b.voltage > cfg.profile.absorbV + OV_MARGIN_V;
      var held := ov.Step(over, dt, OV_DURATION);
      if Sourcing(state) {
        if held {
          return Latch(Overvoltage);
        }
      } else if over {
        return Inhibit(WaitOvervoltage);
      }
      var rush := ChargingA(b) > cfg.profile.regulationA * OVERCURRENT_TOL;
      var rushing := overcurrent.Step(rush, dt, OVERCURRENT_DURATION);
      if rushing && Sourcing(state) {
        return Latch(ChargeOvercurrent);
      }
      if cfg.packTemp.Fitted? {
        var unread := packTempMissing.Step(p.packTempC.None?, dt, PACK_TEMP_STALE_TIMEOUT);
        if unread {
          v := LatchOrInhibit(PackTempStale);
          return;
        }
        if p.packTempC.Some? {
          if p.packTempC.value < CHARGE_TEMP_MIN_C {
            v := LatchOrInhibit(PackTooCold);
            return;
          }
          if p.packTempC.value > CHARGE_TEMP_MAX_C {
            v := LatchOrInhibit(PackTooHot);
            return;
          }
        }
      }
      v := Clear(b);
    }

    method RunGauntlet(p: PollResult, dt: nat) returns (v: Verdict)
      requires Sound() && Gauntlet(View(), p, dt).Done?
      modifies Repr()
      ensures Sound() && Gauntlet(old(View()), p, dt) == Done((View(), v))
    {
      v := CheckBus(p, dt);
      if v.Clear? {
        v := CheckPack(p, v.sample, dt);
        if v.Clear? {
          v := GauntletGate(state, p, v.sample);
        }
      }
    }

    method ApplyAbsorbCaps(atCv: bool, dt: nat) returns (a: Action)
      requires Sound() && AbsorbCaps(View(), atCv, dt).Done?
      modifies Repr()
      ensures Sound() && AbsorbCaps(old(View()), atCv, dt) == Done((View(), a))
    {
      var stuck := absorb.StepLeaky(atCv, dt, MAX_ABSORB);
      if stuck {
        a := HandleFault(AbsorbTimeout);
        return;
      }
      var overrun := chargeTotal.Step(true, dt, MAX_CHARGE);
      if overrun {
        a := HandleFault(ChargeTimeout);
        return;
      }
      a := NoAction;
    }

    method RunPhases(b: Sample, dt: nat) returns (a: Action)
      requires Sound() && Regulate(View(), b, dt).Done?
      modifies Repr()
      ensures Sound() && Regulate(old(View()), b, dt) == Done((View(), a))
    {
      var retarget := RetargetTo(state);
      if retarget.Some? {
        a := BuildUpdateVoltage(retarget.value);
        return;
      }
      var below := state.Absorb? && ChargingA(b) < cfg.profile.exitAbsorbA;
      var atCv := b.voltage >= cfg.profile.absorbV - ABSORB_CV_BAND_V;
      var exitDone := exit.StepLeaky(below, dt, EXIT_DEBOUNCE);
      trace := trace + [Clocked(below, atCv, dt)];
      if state.Float? && ChargingA(b) > cfg.profile.enterAbsorbA {
        StepOn(TaperRose);
        a := BuildUpdateVoltage(AbsorbPhase);
      } else if state.Absorb? && exitDone {
        StepOn(TaperFell);
        a := BuildUpdateVoltage(FloatPhase);
      } else if state.Absorb? {
        a := ApplyAbsorbCaps(atCv, dt);
      } else {
        a := NoAction;
      }
    }

    method JudgeTick(p: PollResult, dt: nat) returns (a: Action)
      requires Sound() && Judge(View(), p, dt).Done?
      modifies Repr()
      ensures Sound() && Judge(old(View()), p, dt) == Done((View(), a))
    {
      hide Gauntlet, OnFault, Regulate;
      var v := RunGauntlet(p, dt);
      match v
      case Latch(reason) =>
        a := HandleFault(reason);
      case Inhibit(why) =>
        inhibit := Some(why);
        a := NoAction;
      case Clear(b) =>
        inhibit := None;
        if BringingUp(state) {
          a := EnableOutput(!RestedFull(cfg.profile, b));
        } else {
          a := RunPhases(b, dt);
        }
    }

    // ------------------------------------------------- what the caller calls

    /** One poll cycle. The answer fits the state left behind, so committing it
        before the next tick cannot fail. */
    method TickOnce(p: PollResult, dt: nat) returns (a: Action)
      requires Valid()
      modifies Repr()
      ensures Valid() && ActionFits(View(), a)
      ensures Tick(old(View()), p, dt) == Done((View(), a))
    {
      hide Reconcile, Judge, Inv, ActionFits;
      TickKeeps(View(), p, dt);
      var decided := AgreeWithDevice(p);
      if decided.Some? {
        a := decided.value;
      } else {
        a := JudgeTick(p, dt);
      }
    }

    /** Commit a ticket whose write landed. The source's two assertions and the
        table's own refusal are the precondition. */
    method CommitTicket(a: Action)
      requires Valid() && ActionFits(View(), a)
      modifies Repr()
      ensures Valid() && Commit(old(View()), a) == Done(View())
    {
      hide Inv, Step;
      CommitKeeps(View(), a);
      match a
      case NoAction =>
      case EnableOutput(resume) => StepOn(if resume then EnabledBelowFull else Enabled);
      case UpdateVoltage(ticket) => StepOn(VoltageWritten);
      case DisableOutput(reason) => StepOn(Disabled);
    }

    /** Pop the oldest transition not yet drained. */
    method PopTransition() returns (t: Option<ChargeTransition>)
      requires Valid()
      modifies this`transitions
      ensures Valid()
      ensures t.None? <==> old(transitions) == []
      ensures t.Some? ==> old(transitions) == [t.value] + transitions
      ensures t.None? ==> transitions == []
      ensures View() == old(View()).(transitions := transitions)
    {
      hide Inv;
      if transitions == [] {
        return None;
      }
      PoppedKeeps(View());
      t := Some(transitions[0]);
      transitions := transitions[1..];
    }

    /** The phase the buck is regulating to: some exactly while sourcing. */
    method RegulatingPhase() returns (r: Option<Phase>)
      requires Valid()
      ensures r.Some? <==> Sourcing(state)
      ensures r.Some? ==> SetpointPhase(state) == r
    {
      r := if Sourcing(state) then SetpointPhase(state) else None;
    }
  }
}
