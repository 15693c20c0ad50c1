/** What the charge supervisor is told, what it answers, and the battery and board
    figures it is built with. Voltages and currents are reals. */
module ChargeTypes {
  import opened Wrappers

  const OV_MARGIN_V := 0.2
  const ABSORB_CV_BAND_V := 0.1
  const OVERCURRENT_TOL := 1.25
  const SETPOINT_DRIFT_TOL := 0.02
  const CHARGE_TEMP_MIN_C := 0.0
  const CHARGE_TEMP_MAX_C := 45.0
  const FULL_SOC_MARGIN := 5.0

  datatype Phase = FloatPhase | AbsorbPhase

  /** The PROTECT register's causes. */
  datatype Protection =
    | Normal | Ovp | Ocp | Opp | Lvp | Oah | Ohp | Otp | Oep | Owh | Icp

  predicate SelfClearing(c: Protection) {
    c.Lvp? || c.Otp?
  }

  datatype FaultReason =
    | BatterySensorStale
    | ModbusUnhealthy
    | Overvoltage
    | AbsorbTimeout
    | ChargeTimeout
    | ProtectionFlapping
    | PackTooCold
    | PackTooHot
    | PackTempStale
    | ChargeOvercurrent
    | SettingsDrift
    | OutputUnexpectedlyOff(cause: Protection)
    | OutputOnInPending

  datatype InhibitReason =
    | WaitSettingsDrift
    | WaitModbusUnhealthy
    | WaitBatterySensorStale
    | WaitNoBatterySample
    | WaitOvervoltage
    | WaitPackTooCold
    | WaitPackTooHot
    | WaitPackTempStale
    | WaitBuckProtection(cause: Protection)

  datatype FaultResponse = Disable | Park

  function Response(r: FaultReason): FaultResponse {
    match r
    case AbsorbTimeout | ChargeTimeout | ChargeOvercurrent => Park
    case _ => Disable
  }

  /** The waiting form of a fault, for the conditions that can be seen with the
      output already off. */
  function Inhibited(r: FaultReason): Option<InhibitReason> {
    match r
    case SettingsDrift => Some(WaitSettingsDrift)
    case ModbusUnhealthy => Some(WaitModbusUnhealthy)
    case BatterySensorStale => Some(WaitBatterySensorStale)
    case Overvoltage => Some(WaitOvervoltage)
    case PackTooCold => Some(WaitPackTooCold)
    case PackTooHot => Some(WaitPackTooHot)
    case PackTempStale => Some(WaitPackTempStale)
    case _ => None
  }

  datatype BatterySample = BatterySample(voltage: F32, current: F32)

  /** A battery sample both of whose fields are numbers. Current is negative
      while charging. */
  datatype Sample = Sample(voltage: real, current: real)

  function ChargingA(b: Sample): real {
    0.0 - b.current
  }

  function FiniteSample(b: Option<BatterySample>): Option<Sample> {
    match b
    case Some(BatterySample(Finite(v), Finite(i))) => Some(Sample(v, i))
    case _ => None
  }

  datatype Setpoints = Setpoints(vSet: real, iSet: real)

  datatype BuckOutput = On | Off(cause: Protection)

  datatype PollResult = PollResult(
    battery: Option<BatterySample>,
    setpoints: Option<Setpoints>,
    output: Option<BuckOutput>,
    packTempC: Option<real>)

  datatype PackTemp = Absent | Fitted

  datatype Profile = Profile(
    absorbV: real, floatV: real, regulationA: real, enterAbsorbA: real, exitAbsorbA: real,
    soc: real -> real)

  datatype Config = Config(profile: Profile, iSetA: real, packTemp: PackTemp)

  /** The two assertions in the supervisor's constructor. */
  predicate WellFormed(cfg: Config) {
    cfg.profile.absorbV > cfg.profile.floatV && cfg.iSetA >= cfg.profile.regulationA
  }

  datatype VoltageTicket = VoltageTicket(phase: Phase, targetV: real, cycleOutput: bool)

  datatype Action =
    | NoAction
    | EnableOutput(resumeAbsorb: bool)
    | UpdateVoltage(ticket: VoltageTicket)
    | DisableOutput(reason: FaultReason)

  datatype Verdict = Latch(fault: FaultReason) | Inhibit(why: InhibitReason) | Clear(sample: Sample)

  datatype ChargeTransition = Energised | ProtectHold | ProtectCleared | LatchedOff | ParkedOn

  function Abs(x: real): real {
    if x < 0.0 then 0.0 - x else x
  }

  /** Within what one register quantum of slack allows of a commanded value. */
  predicate Agrees(commanded: real, reported: real) {
    Abs(reported - commanded) < SETPOINT_DRIFT_TOL
  }

  function TargetVoltage(p: Profile, phase: Phase): real {
    if phase.FloatPhase? then p.floatV else p.absorbV
  }

  /** Bring-up owes no step up to absorb: a rested reading at or above the
      float target's own resting charge, less the margin. */
  predicate RestedFull(p: Profile, b: Sample) {
    Abs(b.current) < p.exitAbsorbA && p.soc(b.voltage) >= p.soc(p.floatV) - FULL_SOC_MARGIN
  }
}
