/** The supervisor's state machine (`charge_state.rs`): the transition table,
    the functions of a state, and what every path through the table obeys. */
module ChargeStates {
  import opened Wrappers
  import opened ChargeTypes

  datatype ChargeState =
    | Boot | HoldFloat | HoldAbsorb | HoldParked
    | Float | Absorb | ToAbsorb | ToFloat | ToParked | Parked
    | Tripping | Latched

  datatype ChargeEvent =
    | Fault | ParkEvent | SelfDisabled | SelfEnabled | Enabled | EnabledBelowFull
    | TaperRose | TaperFell | VoltageWritten | Disabled

  /** The transition table, a row a state; `None` is a pair that cannot arise. */
  function Next(s: ChargeState, e: ChargeEvent): Option<ChargeState> {
    match s
    case Boot => (
      match e
      case Fault => Some(Tripping)
      case Enabled => Some(Float)
      case EnabledBelowFull => Some(ToAbsorb)
      case _ => None)
    case HoldFloat => (
      match e
      case Fault => Some(Tripping)
      case SelfEnabled | Enabled => Some(Float)
      case EnabledBelowFull => Some(ToAbsorb)
      case _ => None)
    case HoldAbsorb => (
      match e
      case Fault => Some(Tripping)
      case SelfEnabled | Enabled | EnabledBelowFull => Some(Absorb)
      case _ => None)
    case HoldParked => (
      match e
      case Fault => Some(Tripping)
      case SelfEnabled | Enabled | EnabledBelowFull => Some(Parked)
      case _ => None)
    case Float => (
      match e
      case Fault => Some(Tripping)
      case ParkEvent => Some(Parked)
      case SelfDisabled => Some(HoldFloat)
      case TaperRose => Some(ToAbsorb)
      case _ => None)
    case Absorb => (
      match e
      case Fault => Some(Tripping)
      case ParkEvent => Some(ToParked)
      case SelfDisabled => Some(HoldAbsorb)
      case TaperFell => Some(ToFloat)
      case _ => None)
    case ToAbsorb => (
      match e
      case Fault => Some(Tripping)
      case ParkEvent => Some(Parked)
      case SelfDisabled => Some(HoldFloat)
      case VoltageWritten => Some(Absorb)
      case _ => None)
    case ToFloat => (
      match e
      case Fault => Some(Tripping)
      case ParkEvent => Some(ToParked)
      case SelfDisabled => Some(HoldAbsorb)
      case VoltageWritten => Some(Float)
      case _ => None)
    case ToParked => (
      match e
      case Fault => Some(Tripping)
      case VoltageWritten => Some(Parked)
      case _ => None)
    case Parked => (
      match e
      case Fault => Some(Tripping)
      case SelfDisabled => Some(HoldParked)
      case _ => None)
    case Tripping => if e.Disabled? then Some(Latched) else None
    case Latched => if e.SelfEnabled? then Some(Tripping) else None
  }

  predicate Sourcing(s: ChargeState) {
    s.Float? || s.Absorb? || s.ToAbsorb? || s.ToFloat? || s.ToParked? || s.Parked?
  }

  predicate BringingUp(s: ChargeState) {
    s.Boot? || s.HoldFloat? || s.HoldAbsorb? || s.HoldParked?
  }

  predicate ParkedUp(s: ChargeState) {
    s.ToParked? || s.Parked?
  }

  predicate Holding(s: ChargeState) {
    s.HoldFloat? || s.HoldAbsorb? || s.HoldParked?
  }

  predicate Terminal(s: ChargeState) {
    s.Tripping? || s.Latched?
  }

  /** Charging is over: parked, holding out of a park, or latched off. */
  predicate Stopped(s: ChargeState) {
    ParkedUp(s) || s.HoldParked? || Terminal(s)
  }

  /** The target the device's V_SET holds; `None` once a fault has latched. */
  function SetpointPhase(s: ChargeState): Option<Phase> {
    match s
    case Boot | HoldFloat | HoldParked | Float | ToAbsorb | Parked => Some(FloatPhase)
    case HoldAbsorb | Absorb | ToFloat | ToParked => Some(AbsorbPhase)
    case Tripping | Latched => None
  }

  /** The target an outstanding V_SET write is moving to. */
  function RetargetTo(s: ChargeState): Option<Phase> {
    match s
    case ToAbsorb => Some(AbsorbPhase)
    case ToFloat | ToParked => Some(FloatPhase)
    case _ => None
  }

  /** What a move means to the event log. */
  function LoggedAs(from: ChargeState, to: ChargeState): Option<ChargeTransition> {
    if from.Boot? && Sourcing(to) then Some(Energised)
    else if Holding(from) && Sourcing(to) then Some(ProtectCleared)
    else if Sourcing(from) && Holding(to) then Some(ProtectHold)
    else if to.Tripping? then Some(LatchedOff)
    else if !ParkedUp(from) && ParkedUp(to) then Some(ParkedOn)
    else None
  }

  // --------------------------------------------- what the table says, by meaning

  /** The three groups a tick dispatches on are all there is and do not overlap; a
      setpoint is held outside the latch; an outstanding write moves away from it. */
  lemma GroupsPartition(s: ChargeState)
    ensures Terminal(s) || Sourcing(s) || BringingUp(s)
    ensures !(Terminal(s) && Sourcing(s)) && !(Terminal(s) && BringingUp(s)) && !(Sourcing(s) && BringingUp(s))
    ensures Holding(s) <==> BringingUp(s) && !s.Boot?
    ensures SetpointPhase(s).None? <==> Terminal(s)
    ensures RetargetTo(s).Some? ==> Sourcing(s) && RetargetTo(s) != SetpointPhase(s)
    ensures ParkedUp(s) ==> Sourcing(s)
  {
  }

  /** Sourcing with nothing outstanding, at this target, parked or not. */
  predicate Settled(s: ChargeState, phase: Option<Phase>, parked: bool) {
    Sourcing(s) && RetargetTo(s).None? && SetpointPhase(s) == phase && (ParkedUp(s) <==> parked)
  }

  /** Every cell, by what its event means: where it may happen, and where it leads.
      V_SET moves with a committed write and with nothing else; a park is never
      left for charging, through a hold or not. */
  lemma TableIsCoherent(from: ChargeState, e: ChargeEvent)
    ensures var to := Next(from, e);
            var parked := ParkedUp(from) || from.HoldParked?;
            match e
            case Fault => (to.Some? <==> !Terminal(from)) && (to.Some? ==> to.value.Tripping?)
            case ParkEvent =>
              && (to.Some? <==> Sourcing(from) && !ParkedUp(from))
              && (to.Some? ==>
                    && ParkedUp(to.value) && SetpointPhase(to.value) == SetpointPhase(from)
                    && (to.value.ToParked? <==> SetpointPhase(from) == Some(AbsorbPhase)))
            case SelfDisabled =>
              && (to.Some? <==> Sourcing(from) && !from.ToParked?)
              && (to.Some? ==>
                    && Holding(to.value) && SetpointPhase(to.value) == SetpointPhase(from)
                    && (to.value.HoldParked? <==> ParkedUp(from)))
            case SelfEnabled =>
              && (to.Some? <==> Holding(from) || from.Latched?)
              && (to.Some? ==>
                    if from.Latched? then to.value.Tripping? else Settled(to.value, SetpointPhase(from), parked))
            case Enabled =>
              (to.Some? <==> BringingUp(from)) && (to.Some? ==> Settled(to.value, SetpointPhase(from), parked))
            case EnabledBelowFull =>
              && (to.Some? <==> BringingUp(from))
              && (to.Some? ==>
                    if parked || SetpointPhase(from) == Some(AbsorbPhase) then Settled(to.value, SetpointPhase(from), parked)
                    else to.value.ToAbsorb?)
            case TaperRose => (to.Some? <==> from.Float?) && (to.Some? ==> to.value.ToAbsorb?)
            case TaperFell => (to.Some? <==> from.Absorb?) && (to.Some? ==> to.value.ToFloat?)
            case VoltageWritten =>
              (to.Some? <==> RetargetTo(from).Some?) && (to.Some? ==> Settled(to.value, RetargetTo(from), parked))
            case Disabled => (to.Some? <==> from.Tripping?) && (to.Some? ==> to.value.Latched?)
  {
  }

  /** What each move means to the event log. Every disable is an episode of its own,
      a park is one, and neither a retarget nor an acknowledgement is any. */
  lemma LogsWhatItMeans(from: ChargeState, e: ChargeEvent)
    ensures Next(from, e).Some? ==>
              LoggedAs(from, Next(from, e).value) ==
                match e
                case Fault => Some(LatchedOff)
                case ParkEvent => Some(ParkedOn)
                case SelfDisabled => Some(ProtectHold)
                case SelfEnabled => if from.Latched? then Some(LatchedOff) else Some(ProtectCleared)
                case Enabled | EnabledBelowFull => if from.Boot? then Some(Energised) else Some(ProtectCleared)
                case TaperRose | TaperFell | VoltageWritten | Disabled => None
  {
  }

  /** A self-cleared protection costs nothing but the write that was outstanding:
      out of the hold and back the machine is settled at the target the buck held. */
  lemma HoldComesBack(from: ChargeState)
    requires Next(from, SelfDisabled).Some?
    ensures var hold := Next(from, SelfDisabled).value;
            && Next(hold, SelfEnabled).Some?
            && Settled(Next(hold, SelfEnabled).value, SetpointPhase(from), ParkedUp(from))
            && (RetargetTo(from).None? ==> Next(hold, SelfEnabled).value == from)
  {
    TableIsCoherent(from, SelfDisabled);
    TableIsCoherent(Next(from, SelfDisabled).value, SelfEnabled);
  }

  // ---------------------------------------------------------------- history

  /** One observation of a run: a move through the table, one tick's worth of
      time reaching the safety checks, or one tick of the phase machine's
      clocks. History only; the program does not store it. */
  datatype Obs =
    | Moved(from: ChargeState, event: ChargeEvent, to: ChargeState)
    | Aged(dt: nat)
    | Clocked(belowTail: bool, atPlateau: bool, dt: nat)

  /** Where a history that starts in `Boot` has arrived. */
  function End(t: seq<Obs>): ChargeState {
    if t == [] then Boot
    else if t[|t| - 1].Moved? then t[|t| - 1].to
    else End(t[..|t| - 1])
  }

  /** Every move in the history is a cell of the table. */
  ghost predicate IsPath(t: seq<Obs>) {
    t == [] ||
    (&& IsPath(t[..|t| - 1])
     && var o := t[|t| - 1];
        o.Moved? ==> o.from == End(t[..|t| - 1]) && Next(o.from, o.event) == Some(o.to))
  }

  function LogEntry(o: Obs): seq<ChargeTransition> {
    if o.Moved? && LoggedAs(o.from, o.to).Some? then [LoggedAs(o.from, o.to).value] else []
  }

  /** Everything the run logged, oldest first. */
  function Log(t: seq<Obs>): seq<ChargeTransition> {
    if t == [] then [] else Log(t[..|t| - 1]) + LogEntry(t[|t| - 1])
  }

  datatype Kind = TaperDown | StepDown | StepUp | FaultMove | ParkMove | AnyWrite

  predicate Is(o: Obs, k: Kind) {
    o.Moved? &&
    match k
    case TaperDown => o.event.TaperFell?
    case StepDown => o.event.VoltageWritten? && !o.to.Absorb?
    case StepUp => o.event.VoltageWritten? && o.to.Absorb?
    case FaultMove => o.event.Fault?
    case ParkMove => o.event.ParkEvent?
    case AnyWrite => o.event.VoltageWritten?
  }

  function Count(t: seq<Obs>, k: Kind): nat {
    if t == [] then 0 else Count(t[..|t| - 1], k) + (if Is(t[|t| - 1], k) then 1 else 0)
  }

  lemma Extend(t: seq<Obs>, o: Obs)
    ensures (t + [o])[..|t + [o]| - 1] == t
    ensures End(t + [o]) == if o.Moved? then o.to else End(t)
    ensures Log(t + [o]) == Log(t) + LogEntry(o)
    ensures forall k :: Count(t + [o], k) == Count(t, k) + (if Is(o, k) then 1 else 0)
    ensures IsPath(t) && (o.Moved? ==> o.from == End(t) && Next(o.from, o.event) == Some(o.to)) ==> IsPath(t + [o])
  {
    assert (t + [o])[..|t|] == t;
  }

  // ------------------------------------------- what every path obeys: the log

  datatype LogClass = AtBoot | AtSourcing | AtHeld | AtParked | AtParkedHeld | AtLatched

  function ClassOf(s: ChargeState): LogClass {
    match s
    case Boot => AtBoot
    case Float | Absorb | ToAbsorb | ToFloat => AtSourcing
    case HoldFloat | HoldAbsorb => AtHeld
    case ToParked | Parked => AtParked
    case HoldParked => AtParkedHeld
    case Tripping | Latched => AtLatched
  }

  /** The six-class automaton a transition log is a word of. */
  function Reads(c: LogClass, entry: ChargeTransition): Option<LogClass> {
    match entry
    case LatchedOff => Some(AtLatched)
    case Energised => if c.AtBoot? then Some(AtSourcing) else None
    case ProtectHold =>
      if c.AtSourcing? then Some(AtHeld) else if c.AtParked? then Some(AtParkedHeld) else None
    case ProtectCleared =>
      if c.AtHeld? then Some(AtSourcing) else if c.AtParkedHeld? then Some(AtParked) else None
    case ParkedOn => if c.AtSourcing? then Some(AtParked) else None
  }

  function Accepts(log: seq<ChargeTransition>): Option<LogClass> {
    if log == [] then Some(AtBoot)
    else match Accepts(log[..|log| - 1])
      case None => None
      case Some(c) => Reads(c, log[|log| - 1])
  }

  /** One cell of the table against one edge of the automaton. */
  lemma MoveReads(from: ChargeState, e: ChargeEvent, to: ChargeState)
    requires Next(from, e) == Some(to)
    ensures match LoggedAs(from, to)
            case Some(entry) => Reads(ClassOf(from), entry) == Some(ClassOf(to))
            case None => ClassOf(from) == ClassOf(to)
  {
  }

  /** The log of any path is a word of the automaton, and reading it ends in
      the class of the state the machine is in. */
  lemma {:induction false} LogIsFaithful(t: seq<Obs>)
    requires IsPath(t)
    ensures Accepts(Log(t)) == Some(ClassOf(End(t)))
  {
    if t != [] {
      var g, o := t[..|t| - 1], t[|t| - 1];
      LogIsFaithful(g);
      if o.Moved? {
        MoveReads(o.from, o.event, o.to);
        if LoggedAs(o.from, o.to).Some? {
          assert Log(t) == Log(g) + [LoggedAs(o.from, o.to).value];
          assert Log(t)[..|Log(t)| - 1] == Log(g);
        } else {
          assert Log(t) == Log(g);
        }
      } else {
        assert Log(t) == Log(g);
      }
    }
  }

  // ------------------------------- what every path obeys: faults and the moves

  /** Once charging has stopped, no path leaves the stopped states, writes the
      absorb target, or parks again, and at most the one outstanding step-down
      is still written. */
  lemma {:induction false} StoppedIsForever(t: seq<Obs>, k: nat)
    requires IsPath(t) && k <= |t| && Stopped(End(t[..k]))
    ensures IsPath(t[..k]) && Stopped(End(t))
    ensures Count(t, StepUp) == Count(t[..k], StepUp)
    ensures Count(t, ParkMove) == Count(t[..k], ParkMove)
    ensures Count(t, TaperDown) == Count(t[..k], TaperDown)
    ensures Count(t, AnyWrite) + (if End(t).ToParked? then 1 else 0)
            <= Count(t[..k], AnyWrite) + (if End(t[..k]).ToParked? then 1 else 0)
    ensures Terminal(End(t[..k])) ==> Terminal(End(t)) && Count(t, FaultMove) == Count(t[..k], FaultMove)
  {
    if k == |t| {
      assert t[..k] == t;
    } else {
      var g := t[..|t| - 1];
      assert g[..k] == t[..k];
      StoppedIsForever(g, k);
    }
  }

  /** A run parks at most once and trips on a fault at most once, and every
      committed step-down but the park's own answers a taper. */
  lemma {:induction false} MovesAreBounded(t: seq<Obs>)
    requires IsPath(t)
    ensures Count(t, FaultMove) <= (if Terminal(End(t)) then 1 else 0)
    ensures Count(t, ParkMove) <= (if Stopped(End(t)) then 1 else 0)
    ensures Count(t, StepDown) + (if End(t).ToFloat? then 1 else 0)
            <= Count(t, TaperDown) + (if Stopped(End(t)) && !End(t).ToParked? then 1 else 0)
  {
    if t != [] { MovesAreBounded(t[..|t| - 1]); }
  }
}
