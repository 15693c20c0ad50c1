/** The firmware's loop (`src/xy.rs`): read the buck, tick the supervisor, carry
    out what it asks, commit what landed; against a buck that may switch itself
    on or off between transactions and a bus that may lose any of them. */
module ClosedLoop {
  import opened Wrappers
  import opened ChargeTypes
  import opened ChargeStates
  import opened HoldBudgets
  import opened SupervisorSpec
  import opened SupervisorInvariant
  import opened SupervisorRuns
  import opened SupervisorChecks
  import opened ChargeSupervisors
  import opened Bucks

  datatype World = World(sup: Sup, regs: Registers)

  datatype LoopCycle = LoopCycle(
    before: Outside, heard: bool, battery: Option<BatterySample>, elapsed: nat,
    between: Outside, xs: Transactions)

  /** One bulk read, or none: setpoints and output come and go together. This
      board has no pack temperature sensor. */
  function PollOf(r: Registers, heard: bool, battery: Option<BatterySample>): PollResult {
    PollResult(
      battery,
      if heard then Some(Setpoints(r.vSet, r.iSet)) else None,
      if heard then Some(if r.outputOn then On else Off(r.cause)) else None,
      None)
  }

  datatype Acted = Acted(regs: Registers, landed: bool, seen: seq<Registers>, errors: seq<XyError>)

  /** `apply_action`, up to the commit. */
  function Act(r: Registers, a: Action, xs: Transactions): Acted {
    match a
    case NoAction => Acted(r, false, [], [])
    case EnableOutput(_) =>
      Acted(Perform(r, Output(true), xs.on), Acked(xs.on), Seen(r, Output(true), xs.on), Report(xs.on, SetOutputError))
    case DisableOutput(_) =>
      Acted(Perform(r, Output(false), xs.off), Acked(xs.off), Seen(r, Output(false), xs.off), Report(xs.off, SetOutputError))
    case UpdateVoltage(t) => var v := ApplyVoltage(r, t, xs); Acted(v.regs, v.committed, v.seen, v.errors)
  }

  function Heard(w: World, c: LoopCycle): PollResult {
    PollOf(Meddle(w.regs, c.before), c.heard, c.battery)
  }

  function Asked(w: World, c: LoopCycle): Outcome<(Sup, Action)> {
    Tick(w.sup, Heard(w, c), c.elapsed)
  }

  function Acting(w: World, c: LoopCycle): Outcome<Acted> {
    var (_, a) :- Asked(w, c);
    Done(Act(Meddle(Meddle(w.regs, c.before), c.between), a, c.xs))
  }

  function LoopStep(w: World, c: LoopCycle): Outcome<World> {
    var (s, a) :- Asked(w, c);
    var acted :- Acting(w, c);
    var s1 :- Acknowledge(s, a, acted.landed);
    Done(World(s1.(transitions := []), acted.regs))
  }

  function Loop(w: World, cs: seq<LoopCycle>): Outcome<World> {
    if cs == [] then Done(w)
    else
      var before :- Loop(w, cs[..|cs| - 1]);
      LoopStep(before, cs[|cs| - 1])
  }

  /** The supervisor's side of a loop. */
  function Project(w: World, cs: seq<LoopCycle>): seq<Cycle> {
    if cs == [] then []
    else
      var init, c := cs[..|cs| - 1], cs[|cs| - 1];
      match Loop(w, init)
      case Panic => []
      case Done(before) =>
        match Acting(before, c)
        case Panic => []
        case Done(acted) => Project(w, init) + [Cycle(Heard(before, c), c.elapsed, acted.landed, true)]
  }

  lemma LoopStepKeeps(w: World, c: LoopCycle)
    requires Inv(w.sup)
    ensures LoopStep(w, c).Done? && Acting(w, c).Done? && Asked(w, c).Done?
    ensures LoopStep(w, c).value.sup
              == CycleStep(w.sup, Cycle(Heard(w, c), c.elapsed, Acting(w, c).value.landed, true)).value
    ensures Inv(LoopStep(w, c).value.sup) && LoopStep(w, c).value.sup.cfg == w.sup.cfg
  {
    hide Inv, Tick, Commit, Act, ActionFits, Progress;
    var (p, dt) := (Heard(w, c), c.elapsed);
    TickKeeps(w.sup, p, dt);
    var (s, a) := Tick(w.sup, p, dt).value;
    CommitKeeps(s, a);
    CycleKeeps(w.sup, Cycle(p, dt, Acting(w, c).value.landed, true));
  }

  /** The loop never panics, and what the supervisor goes through in it is one
      of the supervisor's own runs, so every statement about those applies. */
  lemma {:induction false} LoopIsARun(cfg: Config, r: Registers, cs: seq<LoopCycle>)
    requires WellFormed(cfg)
    ensures Loop(World(New(cfg), r), cs).Done?
    ensures |Project(World(New(cfg), r), cs)| == |cs|
    ensures Run(New(cfg), Project(World(New(cfg), r), cs)) == Done(Loop(World(New(cfg), r), cs).value.sup)
    ensures Inv(Loop(World(New(cfg), r), cs).value.sup)
  {
    var w := World(New(cfg), r);
    if cs == [] {
      NewKeeps(cfg);
    } else {
      hide LoopStep, CycleStep, Inv;
      var init, c := cs[..|cs| - 1], cs[|cs| - 1];
      LoopIsARun(cfg, r, init);
      var before := Loop(w, init).value;
      LoopStepKeeps(before, c);
      assert Project(w, cs)[..|cs| - 1] == Project(w, init);
    }
  }

  lemma LoopKeeps(cfg: Config, r: Registers, cs: seq<LoopCycle>)
    requires WellFormed(cfg)
    ensures Loop(World(New(cfg), r), cs).Done?
    ensures var s := Loop(World(New(cfg), r), cs).value.sup; Inv(s) && s.cfg == cfg
  {
    hide Inv, Loop, Run, Project;
    LoopIsARun(cfg, r, cs);
    NewKeeps(cfg);
    RunKeeps(New(cfg), Project(World(New(cfg), r), cs));
  }

  // --------------------------------------------------------- V_SET, while live

  /** Nobody but the firmware puts V_SET above the absorb target. */
  predicate PanelAtMost(c: LoopCycle, v: real) {
    (c.before.panel.Some? ==> c.before.panel.value.vSet <= v) && (c.between.panel.Some? ==> c.between.panel.value.vSet <= v)
  }

  /** The disable before a step down is not acknowledged without being done. */
  predicate TrueDisable(c: LoopCycle) {
    !c.xs.off.fate.Ignored?
  }

  /** One cycle lowers V_SET on a live output exactly when a step up finds the
      register above the absorb target, or a disable was falsely acknowledged. */
  lemma LowersLiveExactly(w: World, c: LoopCycle)
    requires Inv(w.sup)
    ensures Acting(w, c).Done? && Asked(w, c).Done?
    ensures var r := Meddle(Meddle(w.regs, c.before), c.between);
            var a := Asked(w, c).value.1;
            !NeverLoweredLive(Acting(w, c).value.seen) <==>
              && a.UpdateVoltage? && r.outputOn && a.ticket.targetV < r.vSet
              && Arrives(c.xs.volts) && c.xs.volts.selfOff.None?
              && (a.ticket.phase.AbsorbPhase? || (c.xs.off.fate.Ignored? && c.xs.off.selfOff.None?))
  {
    hide Tick, Inv, ApplyVoltage, Seen;
    TicketTargets(w.sup, Heard(w, c), c.elapsed);
    var r := Meddle(Meddle(w.regs, c.before), c.between);
    match Asked(w, c).value.1
    case UpdateVoltage(t) =>
      if t.cycleOutput { StepDownIsSafeExactly(r, t, c.xs); } else { LiveWriteIsSafeExactly(r, t, c.xs); }
    case EnableOutput(_) => OneWriteExactly(r, Output(true), c.xs.on);
    case DisableOutput(_) => OneWriteExactly(r, Output(false), c.xs.off);
    case NoAction =>
  }

  /** Carrying out an action moves V_SET exactly when it makes a V_SET write and
      that arrives, and lands an update exactly when it is acknowledged. */
  lemma ActOnVSet(r: Registers, a: Action, xs: Transactions)
    ensures var acted := Act(r, a, xs);
            var writes := a.UpdateVoltage? && WritesVSet(a.ticket, xs);
            && acted.regs.iSet == r.iSet
            && acted.regs.vSet == (if writes && Arrives(xs.volts) then a.ticket.targetV else r.vSet)
            && (a.UpdateVoltage? ==> (acted.landed <==> writes && Acked(xs.volts)))
  {
    hide ApplyVoltage, Perform;
    match a
    case NoAction =>
    case EnableOutput(_) => PerformOn(r, Output(true), xs.on);
    case DisableOutput(_) => PerformOn(r, Output(false), xs.off);
    case UpdateVoltage(t) => ApplyOnSetpoints(r, t, xs);
  }

  lemma TicketTargets(s: Sup, p: PollResult, dt: nat)
    requires Inv(s)
    ensures Tick(s, p, dt).Done?
    ensures Tick(s, p, dt).value.1.UpdateVoltage? ==>
              var t := Tick(s, p, dt).value.1.ticket;
              && t.targetV == TargetVoltage(s.cfg.profile, t.phase)
              && t.targetV <= s.cfg.profile.absorbV
              && (t.cycleOutput <==> t.phase.FloatPhase?)
  {
    hide Tick, Explains, Timed, TimersRan, Extends, ReadsWrong;
    TickKeeps(s, p, dt);
  }

  lemma CycleBoundsVSet(w: World, c: LoopCycle)
    requires Inv(w.sup) && w.regs.vSet <= w.sup.cfg.profile.absorbV
    requires PanelAtMost(c, w.sup.cfg.profile.absorbV) && TrueDisable(c)
    ensures LoopStep(w, c).Done? && Acting(w, c).Done?
    ensures LoopStep(w, c).value.regs.vSet <= w.sup.cfg.profile.absorbV
    ensures NeverLoweredLive(Acting(w, c).value.seen)
  {
    hide Tick, Commit, Inv, Act, NeverLoweredLive;
    LoopStepKeeps(w, c);
    LowersLiveExactly(w, c);
    TicketTargets(w.sup, Heard(w, c), c.elapsed);
    ActOnVSet(Meddle(Meddle(w.regs, c.before), c.between), Asked(w, c).value.1, c.xs);
  }

  /** The safety of the step down, over every run of the loop: whatever is lost,
      retried, switched off or switched on, no cycle ever lowers V_SET while the
      output is on. */
  lemma {:induction false} VSetIsNeverLoweredLive(cfg: Config, r: Registers, cs: seq<LoopCycle>, c: LoopCycle)
    requires WellFormed(cfg) && r.vSet <= cfg.profile.absorbV
    requires forall i :: 0 <= i < |cs| ==> PanelAtMost(cs[i], cfg.profile.absorbV) && TrueDisable(cs[i])
    requires PanelAtMost(c, cfg.profile.absorbV) && TrueDisable(c)
    ensures Loop(World(New(cfg), r), cs).Done?
    ensures var w := Loop(World(New(cfg), r), cs).value;
            && w.regs.vSet <= cfg.profile.absorbV
            && Acting(w, c).Done?
            && NeverLoweredLive(Acting(w, c).value.seen)
  {
    hide LoopStep, Acting, Inv, NeverLoweredLive, PanelAtMost, TrueDisable;
    LoopKeeps(cfg, r, cs);
    if cs != [] {
      var init := cs[..|cs| - 1];
      VSetIsNeverLoweredLive(cfg, r, init, cs[|cs| - 1]);
      LoopKeeps(cfg, r, init);
      CycleBoundsVSet(Loop(World(New(cfg), r), init).value, cs[|cs| - 1]);
    }
    CycleBoundsVSet(Loop(World(New(cfg), r), cs).value, c);
  }

  // ------------------------------------------- tickets and acknowledgements

  /** A ticket is committed exactly when its write was made and acknowledged: the
      machine sources after an enable, is latched after a disable, and believes the
      new target after an update, if and only if; otherwise it stays where the tick
      left it and asks again. */
  lemma TicketsCommitExactly(w: World, c: LoopCycle)
    requires Inv(w.sup)
    ensures Asked(w, c).Done? && LoopStep(w, c).Done?
    ensures var (s, a) := Asked(w, c).value;
            var s' := LoopStep(w, c).value.sup;
            match a
            case NoAction => s' == s.(transitions := [])
            case EnableOutput(_) =>
              (Sourcing(s'.state) <==> Acked(c.xs.on)) && (!Acked(c.xs.on) ==> s' == s.(transitions := []))
            case DisableOutput(_) =>
              (s'.state.Latched? <==> Acked(c.xs.off)) && (!Acked(c.xs.off) ==> s' == s.(transitions := []))
            case UpdateVoltage(ticket) =>
              var written := Acked(c.xs.volts) && (ticket.phase.FloatPhase? ==> Acked(c.xs.off));
              && (SetpointPhase(s'.state) == Some(ticket.phase) <==> written)
              && (!written ==> s' == s.(transitions := []))
  {
    hide Tick, Base, Timed, Progress, TimersRan, HoldsHeard, ReadsWrong, FiniteSample, ApplyVoltage;
    LoopStepKeeps(w, c);
    TickKeeps(w.sup, Heard(w, c), c.elapsed);
    var (s, a) := Asked(w, c).value;
    CommitKeeps(s, a);
    if a.EnableOutput? { EnableLandsExactly(s, a.resumeAbsorb); }
    ActOnVSet(Meddle(Meddle(w.regs, c.before), c.between), a, c.xs);
  }

  /** The event log hears of an action exactly if a write of it failed, as an error
      of that write's kind; what an update reports is told of its own sequence. */
  lemma FailuresAreReported(r: Registers, a: Action, xs: Transactions)
    ensures var acted := Act(r, a, xs);
            match a
            case NoAction => acted.errors == []
            case EnableOutput(_) => acted.errors == Reported([Call(Output(true), acted.landed)])
            case DisableOutput(_) => acted.errors == Reported([Call(Output(false), acted.landed)])
            case UpdateVoltage(t) => acted.errors == ApplyVoltage(r, t, xs).errors && (acted.errors == [] ==> acted.landed)
  {
    hide Perform, Seen;
    if a.EnableOutput? { ReportedOne(Call(Output(true), Acked(xs.on)), []); }
    if a.DisableOutput? { ReportedOne(Call(Output(false), Acked(xs.off)), []); }
    assert [Call(Output(true), Acked(xs.on))] + [] == [Call(Output(true), Acked(xs.on))];
    assert [Call(Output(false), Acked(xs.off))] + [] == [Call(Output(false), Acked(xs.off))];
  }

  /** Nobody but the firmware switches the output, and no write is done unheard or
      falsely acknowledged. */
  predicate Undisturbed(c: LoopCycle) {
    && c.before.output.None? && c.between.output.None?
    && Plain(c.xs.off) && Plain(c.xs.volts) && Plain(c.xs.on) && Plain(c.xs.onAgain)
  }

  predicate Plain(x: Transaction) {
    x.selfOff.None? && (x.fate.Lands? || x.fate.LostBefore?)
  }

  /** A step-down switched the output off and every attempt to switch it back on
      was lost: two after a written target, one after an unwritten. */
  predicate LeftOff(w: World, c: LoopCycle)
    requires Asked(w, c).Done?
  {
    var a := Asked(w, c).value.1;
    && a.UpdateVoltage? && a.ticket.cycleOutput && Acked(c.xs.off) && !Acked(c.xs.on)
    && (Acked(c.xs.volts) ==> !Acked(c.xs.onAgain))
  }

  /** The machine sources exactly when the output is on, unless it is tripping. */
  predicate InTune(w: World) {
    w.sup.state.Tripping? || (Sourcing(w.sup.state) <==> w.regs.outputOn)
  }

  /** The output after an action is carried out on an undisturbed buck. */
  lemma ActOnOutput(r: Registers, a: Action, xs: Transactions)
    requires Plain(xs.off) && Plain(xs.volts) && Plain(xs.on) && Plain(xs.onAgain)
    ensures var on := Act(r, a, xs).regs.outputOn;
            match a
            case NoAction => on == r.outputOn
            case EnableOutput(_) => on <==> r.outputOn || Acked(xs.on)
            case DisableOutput(_) => on <==> r.outputOn && !Acked(xs.off)
            case UpdateVoltage(t) =>
              if !t.cycleOutput || !Acked(xs.off) then on == r.outputOn
              else on <==> Acked(xs.on) || (Acked(xs.volts) && Acked(xs.onAgain))
  {
    hide Seen, Report;
  }

  lemma TickUnheard(s: Sup, p: PollResult, dt: nat)
    requires Inv(s) && p.output.None? && !Terminal(s.state)
    ensures Tick(s, p, dt).Done?
    ensures var s' := Tick(s, p, dt).value.0; s'.state.Tripping? || (Sourcing(s'.state) <==> Sourcing(s.state))
  {
    hide Judge, Base, Timed;
    assert Reconcile(s, p) == Done((s, None));
    JudgeKeeps(s, p, dt);
  }

  /** A tick of a machine in tune with its buck leaves it so, before it acts. */
  lemma TickStaysInTune(w: World, c: LoopCycle)
    requires Inv(w.sup) && InTune(w) && Undisturbed(c)
    ensures Asked(w, c).Done?
    ensures var s := Asked(w, c).value.0; s.state.Tripping? || (Sourcing(s.state) <==> w.regs.outputOn)
    ensures Asked(w, c).value.0.state.Latched? ==> !w.regs.outputOn
  {
    hide Tick, Base, Timed, Progress, TimersRan, HoldsHeard, ReadsWrong, FiniteSample;
    var p := Heard(w, c);
    TickKeeps(w.sup, p, c.elapsed);
    if p.output.None? && !Terminal(w.sup.state) { TickUnheard(w.sup, p, c.elapsed); }
    TerminalStays(w.sup, p, c.elapsed);
  }

  lemma TerminalStays(s: Sup, p: PollResult, dt: nat)
    requires Inv(s)
    ensures Tick(s, p, dt).Done?
    ensures s.state.Latched? && p.output != Some(On) ==> Tick(s, p, dt).value.0.state.Latched?
    ensures s.state.Tripping? ==> Tick(s, p, dt).value.0.state.Tripping?
  {
    hide Judge, Base, Timed, Step;
    TickKeeps(s, p, dt);
  }

  /** One undisturbed cycle keeps machine and output in tune exactly unless it is a
      step-down left off. */
  lemma CycleStaysInTune(w: World, c: LoopCycle)
    requires Inv(w.sup) && InTune(w) && Undisturbed(c)
    ensures Asked(w, c).Done? && LoopStep(w, c).Done?
    ensures InTune(LoopStep(w, c).value) <==> !LeftOff(w, c)
  {
    hide Tick, Base, Timed, Progress, TimersRan, HoldsHeard, ReadsWrong, FiniteSample, Act;
    LoopStepKeeps(w, c);
    TickKeeps(w.sup, Heard(w, c), c.elapsed);
    TickStaysInTune(w, c);
    TicketsCommitExactly(w, c);
    var (s, a) := Asked(w, c).value;
    ActOnOutput(Meddle(Meddle(w.regs, c.before), c.between), a, c.xs);
    if a.UpdateVoltage? { UpdatesWhileSourcing(s, a, Acting(w, c).value.landed); }
  }

  lemma UpdatesWhileSourcing(s: Sup, a: Action, landed: bool)
    requires Inv(s) && ActionFits(s, a) && a.UpdateVoltage?
    ensures Acknowledge(s, a, landed).Done?
    ensures Sourcing(s.state) && Sourcing(Acknowledge(s, a, landed).value.state)
  {
    hide Base, Timed, Push;
    CommitKeeps(s, a);
  }

  /** Every cycle of the run is undisturbed, and none a step-down left off. */
  predicate KeptOn(w: World, cs: seq<LoopCycle>) {
    cs == [] ||
    (&& KeptOn(w, cs[..|cs| - 1])
     && Undisturbed(cs[|cs| - 1])
     && match Loop(w, cs[..|cs| - 1])
        case Panic => false
        case Done(before) => Asked(before, cs[|cs| - 1]).Done? && !LeftOff(before, cs[|cs| - 1]))
  }

  /** Machine and output stay in tune over every such run, however many writes are
      lost. */
  lemma {:induction false} SourcesExactlyWhileOn(cfg: Config, r: Registers, cs: seq<LoopCycle>)
    requires WellFormed(cfg) && !r.outputOn && KeptOn(World(New(cfg), r), cs)
    ensures Loop(World(New(cfg), r), cs).Done?
    ensures var w := Loop(World(New(cfg), r), cs).value;
            w.sup.state.Tripping? || (Sourcing(w.sup.state) <==> w.regs.outputOn)
  {
    hide LoopStep, Inv, Undisturbed, LeftOff, Asked;
    LoopKeeps(cfg, r, cs);
    if cs != [] {
      var init, c := cs[..|cs| - 1], cs[|cs| - 1];
      SourcesExactlyWhileOn(cfg, r, init);
      LoopKeeps(cfg, r, init);
      CycleStaysInTune(Loop(World(New(cfg), r), init).value, c);
    }
  }

  // ------------------------------------------------------ belief and register

  /** Only the firmware writes setpoints, and the bus tells the truth about
      them: an unacknowledged write was not carried out. */
  predicate Honest(c: LoopCycle) {
    && c.before.panel.None? && c.between.panel.None?
    && (c.xs.volts.fate.Lands? || c.xs.volts.fate.LostBefore?)
  }

  /** The register holds what the state says it holds. */
  predicate Believes(w: World) {
    && w.regs.iSet == w.sup.cfg.iSetA
    && (SetpointPhase(w.sup.state).Some? ==>
          w.regs.vSet == TargetVoltage(w.sup.cfg.profile, SetpointPhase(w.sup.state).value))
  }

  /** The bus misreports a V_SET write that was made. */
  predicate Misreported(a: Action, xs: Transactions) {
    a.UpdateVoltage? && WritesVSet(a.ticket, xs) && (xs.volts.fate.LostAfter? || xs.volts.fate.Ignored?)
  }

  /** A believing world is never read wrong. */
  lemma BelievedReadsRight(w: World, c: LoopCycle)
    requires Believes(w) && c.before.panel.None?
    ensures !ReadsWrong(w.sup, Heard(w, c))
  {
  }

  /** What belief needs of one tick and its commit. */
  lemma PhaseFollowsTicket(s: Sup, p: PollResult, dt: nat, landed: bool)
    requires Inv(s)
    ensures Tick(s, p, dt).Done?
    ensures var (s1, a) := Tick(s, p, dt).value;
            && Acknowledge(s1, a, landed).Done?
            && var s2 := Acknowledge(s1, a, landed).value;
               && s2.cfg == s.cfg && WellFormed(s.cfg)
               && (a.UpdateVoltage? ==>
                     && !Terminal(s2.state)
                     && a.ticket.targetV == TargetVoltage(s.cfg.profile, a.ticket.phase)
                     && SetpointPhase(s.state).Some? && SetpointPhase(s.state).value != a.ticket.phase)
               && (SetpointPhase(s2.state).None? ||
                   SetpointPhase(s2.state) == if a.UpdateVoltage? && landed then Some(a.ticket.phase) else SetpointPhase(s.state))
               && (ReadsWrong(s, p) || s2.fault == s.fault || s2.fault != Some(SettingsDrift))
  {
    hide Tick, Commit, Explains, Timed, TimersRan, FiniteSample, Extends, ReadsWrong;
    TickKeeps(s, p, dt);
    var (s1, a) := Tick(s, p, dt).value;
    CommitKeeps(s1, a);
  }

  /** With nobody at the panel, a cycle breaks belief exactly when the bus
      misreports its V_SET write; and a believing world raises no drift fault. */
  lemma BeliefBreaksExactly(w: World, c: LoopCycle)
    requires Inv(w.sup) && Believes(w) && c.before.panel.None? && c.between.panel.None?
    ensures LoopStep(w, c).Done? && Asked(w, c).Done?
    ensures Believes(LoopStep(w, c).value) <==> !Misreported(Asked(w, c).value.1, c.xs)
    ensures var f := LoopStep(w, c).value.sup.fault; f == w.sup.fault || f != Some(SettingsDrift)
  {
    hide Tick, Act, Inv, Acknowledge, ReadsWrong;
    LoopStepKeeps(w, c);
    BelievedReadsRight(w, c);
    var (s, a) := Asked(w, c).value;
    PhaseFollowsTicket(w.sup, Heard(w, c), c.elapsed, Acting(w, c).value.landed);
    ActOnVSet(Meddle(Meddle(w.regs, c.before), c.between), a, c.xs);
  }

  /** Belief matches the register through every lost and retried write: in every
      reachable state that holds a setpoint the buck's V_SET is that state's
      target, so no run ever raises a drift fault. */
  lemma {:induction false} BeliefMatchesRegister(cfg: Config, r: Registers, cs: seq<LoopCycle>)
    requires WellFormed(cfg) && r.vSet == cfg.profile.floatV && r.iSet == cfg.iSetA
    requires forall i :: 0 <= i < |cs| ==> Honest(cs[i])
    ensures Loop(World(New(cfg), r), cs).Done?
    ensures var w := Loop(World(New(cfg), r), cs).value;
            && w.sup.cfg == cfg && Believes(w)
            && w.sup.fault != Some(SettingsDrift)
  {
    hide LoopStep, Inv, Honest, Believes, Asked, Misreported;
    LoopKeeps(cfg, r, cs);
    if cs == [] {
      assert Believes(World(New(cfg), r)) by { NewBelieves(cfg, r); }
    } else {
      var init, c := cs[..|cs| - 1], cs[|cs| - 1];
      BeliefMatchesRegister(cfg, r, init);
      LoopKeeps(cfg, r, init);
      HonestKeepsBelief(Loop(World(New(cfg), r), init).value, c);
    }
  }

  lemma NewBelieves(cfg: Config, r: Registers)
    requires r.vSet == cfg.profile.floatV && r.iSet == cfg.iSetA
    ensures Believes(World(New(cfg), r))
  {
  }

  lemma HonestKeepsBelief(w: World, c: LoopCycle)
    requires Inv(w.sup) && Believes(w) && Honest(c)
    ensures LoopStep(w, c).Done? && Believes(LoopStep(w, c).value)
    ensures var f := LoopStep(w, c).value.sup.fault; f == w.sup.fault || f != Some(SettingsDrift)
  {
    hide Inv, LoopStep, Asked, Believes;
    BeliefBreaksExactly(w, c);
  }

  /** The register holds what the state says it holds, to within what the drift
      check lets pass. */
  predicate BelievesNearly(w: World) {
    && Agrees(w.sup.cfg.iSetA, w.regs.iSet)
    && (SetpointPhase(w.sup.state).Some? ==>
          Agrees(TargetVoltage(w.sup.cfg.profile, SetpointPhase(w.sup.state).value), w.regs.vSet))
  }

  lemma NearlyReadsRight(w: World, c: LoopCycle)
    requires BelievesNearly(w) && c.before.panel.None?
    ensures !ReadsWrong(w.sup, Heard(w, c))
  {
  }

  lemma HonestKeepsNearly(w: World, c: LoopCycle)
    requires Inv(w.sup) && BelievesNearly(w) && Honest(c)
    ensures LoopStep(w, c).Done? && BelievesNearly(LoopStep(w, c).value)
    ensures var f := LoopStep(w, c).value.sup.fault; f == w.sup.fault || f != Some(SettingsDrift)
  {
    hide Tick, Act, Inv, Acknowledge, ReadsWrong;
    LoopStepKeeps(w, c);
    NearlyReadsRight(w, c);
    var (s, a) := Asked(w, c).value;
    PhaseFollowsTicket(w.sup, Heard(w, c), c.elapsed, Acting(w, c).value.landed);
    ActOnVSet(Meddle(Meddle(w.regs, c.before), c.between), a, c.xs);
  }

  /** A device that starts out read back well enough stays in agreement through
      every lost and retried write. */
  lemma {:induction false} AgreementIsKept(cfg: Config, r: Registers, cs: seq<LoopCycle>)
    requires WellFormed(cfg) && Agrees(cfg.profile.floatV, r.vSet) && Agrees(cfg.iSetA, r.iSet)
    requires forall i :: 0 <= i < |cs| ==> Honest(cs[i])
    ensures Loop(World(New(cfg), r), cs).Done?
    ensures var w := Loop(World(New(cfg), r), cs).value; BelievesNearly(w) && w.sup.fault != Some(SettingsDrift)
  {
    LoopKeeps(cfg, r, cs);
    if cs != [] {
      hide LoopStep, Inv, Honest, BelievesNearly, Agrees;
      var init, c := cs[..|cs| - 1], cs[|cs| - 1];
      AgreementIsKept(cfg, r, init);
      LoopKeeps(cfg, r, init);
      HonestKeepsNearly(Loop(World(New(cfg), r), init).value, c);
    }
  }

  /** From power-on: whatever the registers held, whatever became of the boot
      writes, falsely acknowledged ones included, a hand-over starts the loop in
      agreement, and an honest bus keeps it so and raises no drift fault. */
  lemma BeliefFromPowerOn(cfg: Config, trips: SafetyLimits, r: Registers, attempts: seq<Attempt>,
                          farewell: Transaction, cs: seq<LoopCycle>)
    requires WellFormed(cfg)
    requires BootWithRetries(r, Setup(cfg.profile.floatV, cfg.iSetA, trips), attempts, farewell).ok
    requires forall i :: 0 <= i < |cs| ==> Honest(cs[i])
    ensures var booted := BootWithRetries(r, Setup(cfg.profile.floatV, cfg.iSetA, trips), attempts, farewell).regs;
            && !booted.outputOn
            && Loop(World(New(cfg), booted), cs).Done?
            && var w := Loop(World(New(cfg), booted), cs).value;
               BelievesNearly(w) && w.sup.fault != Some(SettingsDrift)
  {
    hide Loop, BelievesNearly, Agrees, BootWithRetries;
    var b := Setup(cfg.profile.floatV, cfg.iSetA, trips);
    BootHandsOverVerified(r, b, attempts, farewell);
    AgreementIsKept(cfg, BootWithRetries(r, b, attempts, farewell).regs, cs);
  }

  /** If no boot write was falsely acknowledged either, the agreement is exact. */
  lemma ExactFromPowerOn(cfg: Config, trips: SafetyLimits, r: Registers, attempts: seq<Attempt>,
                         farewell: Transaction, cs: seq<LoopCycle>)
    requires WellFormed(cfg)
    requires forall i :: 0 <= i < |attempts| ==> Truthful(attempts[i])
    requires BootWithRetries(r, Setup(cfg.profile.floatV, cfg.iSetA, trips), attempts, farewell).ok
    requires forall i :: 0 <= i < |cs| ==> Honest(cs[i])
    ensures var booted := BootWithRetries(r, Setup(cfg.profile.floatV, cfg.iSetA, trips), attempts, farewell).regs;
            && Loop(World(New(cfg), booted), cs).Done?
            && Believes(Loop(World(New(cfg), booted), cs).value)
  {
    hide Loop, Believes, BootWithRetries;
    var b := Setup(cfg.profile.floatV, cfg.iSetA, trips);
    BootHandsOverExact(r, b, attempts, farewell);
    BeliefMatchesRegister(cfg, BootWithRetries(r, b, attempts, farewell).regs, cs);
  }

  /** The safety of V_SET from power-on: neither booting nor any cycle after the
      hand-over lowers it on a live output. A V_SET write falsely acknowledged in
      booting may leave it a hair above float, which matters only if the targets
      are closer together than the read-back can tell. */
  lemma VSetIsSafeFromPowerOn(cfg: Config, trips: SafetyLimits, r: Registers, attempts: seq<Attempt>,
                              farewell: Transaction, cs: seq<LoopCycle>, c: LoopCycle)
    requires WellFormed(cfg)
    requires forall i :: 0 <= i < |attempts| ==> !attempts[i].off.fate.Ignored?
    requires (forall i :: 0 <= i < |attempts| ==> !attempts[i].volts.fate.Ignored?) ||
             cfg.profile.floatV + SETPOINT_DRIFT_TOL <= cfg.profile.absorbV
    requires forall i :: 0 <= i < |cs| ==> PanelAtMost(cs[i], cfg.profile.absorbV) && TrueDisable(cs[i])
    requires PanelAtMost(c, cfg.profile.absorbV) && TrueDisable(c)
    ensures var booted := BootWithRetries(r, Setup(cfg.profile.floatV, cfg.iSetA, trips), attempts, farewell);
            && NeverLoweredLive(booted.seen)
            && (booted.ok ==>
                  && Loop(World(New(cfg), booted.regs), cs).Done?
                  && Acting(Loop(World(New(cfg), booted.regs), cs).value, c).Done?
                  && NeverLoweredLive(Acting(Loop(World(New(cfg), booted.regs), cs).value, c).value.seen))
  {
    hide Loop, Acting, BootWithRetries, NeverLoweredLive, PanelAtMost, TrueDisable;
    var b := Setup(cfg.profile.floatV, cfg.iSetA, trips);
    BootNeverLowersLive(r, b, attempts, farewell);
    var booted := BootWithRetries(r, b, attempts, farewell);
    if booted.ok {
      BootHandsOverVerified(r, b, attempts, farewell);
      BootHandsOverExact(r, b, attempts, farewell);
      VSetIsNeverLoweredLive(cfg, booted.regs, cs, c);
    }
  }

  // ------------------------------------------------- a write done but not heard of

  /** This cycle's V_SET write is done without being acknowledged. */
  predicate WriteGoesUnheard(w: World, c: LoopCycle)
    requires Asked(w, c).Done?
  {
    var a := Asked(w, c).value.1;
    a.UpdateVoltage? && WritesVSet(a.ticket, c.xs) && c.xs.volts.fate.LostAfter?
  }

  lemma UnheardWriteLeaves(w: World, c: LoopCycle)
    requires Inv(w.sup) && Believes(w) && c.before.panel.None? && c.between.panel.None?
    requires Asked(w, c).Done? && WriteGoesUnheard(w, c)
    ensures LoopStep(w, c).Done?
    ensures var w1 := LoopStep(w, c).value;
            && Inv(w1.sup) && w1.sup.cfg == w.sup.cfg && Sourcing(w1.sup.state)
            && w1.sup.fault != Some(SettingsDrift)
            && w1.regs.iSet == w.sup.cfg.iSetA
            && RetargetTo(w1.sup.state).Some? && SetpointPhase(w1.sup.state).Some?
            && RetargetTo(w1.sup.state) != SetpointPhase(w1.sup.state)
            && w1.regs.vSet == TargetVoltage(w.sup.cfg.profile, RetargetTo(w1.sup.state).value)
  {
    hide Tick, Act, Base, Timed, Windows, Progress, TimersRan, ReadsWrong, HoldsHeard;
    LoopStepKeeps(w, c);
    TickKeeps(w.sup, Heard(w, c), c.elapsed);
    ActOnVSet(Meddle(Meddle(w.regs, c.before), c.between), Asked(w, c).value.1, c.xs);
  }

  /** A write done without being acknowledged is retried, but the next cycle that
      hears the buck on, and is no flap, latches a drift fault all the same,
      exactly when the two targets are far enough apart to tell. */
  lemma UnheardWriteDriftsExactly(w: World, c: LoopCycle, next: LoopCycle)
    requires Inv(w.sup) && Believes(w) && c.before.panel.None? && c.between.panel.None?
    requires Asked(w, c).Done? && WriteGoesUnheard(w, c)
    requires next.heard && next.before.panel.None?
    ensures LoopStep(w, c).Done? && LoopStep(LoopStep(w, c).value, next).Done?
    ensures var w1 := LoopStep(w, c).value;
            var p := w.sup.cfg.profile;
            Meddle(w1.regs, next.before).outputOn && !Flapping(HoldEvents(w1.sup.trace) + [Quiet(next.elapsed)]) ==>
              (LoopStep(w1, next).value.sup.fault == Some(SettingsDrift) <==> !Agrees(p.absorbV, p.floatV))
  {
    hide Asked, Acting, WriteGoesUnheard, LoopStep, Reconcile, RaisedFault, CycleStep, Inv, Flapping, HoldEvents, Believes;
    UnheardWriteLeaves(w, c);
    var w1 := LoopStep(w, c).value;
    LoopStepKeeps(w1, next);
    if Meddle(w1.regs, next.before).outputOn && !Flapping(HoldEvents(w1.sup.trace) + [Quiet(next.elapsed)]) {
      var heard := Heard(w1, next);
      FaultExactly(w1.sup, Cycle(heard, next.elapsed, Acting(w1, next).value.landed, true));
      DriftIsRaisedExactly(w1.sup, heard, next.elapsed);
      NoDriftWithoutReading(w1, next);
      assert ReadsWrong(w1.sup, heard) <==> !Agrees(w.sup.cfg.profile.absorbV, w.sup.cfg.profile.floatV);
    }
  }

  lemma NoDriftWithoutReading(w: World, c: LoopCycle)
    requires Inv(w.sup) && w.sup.fault != Some(SettingsDrift)
    ensures LoopStep(w, c).Done?
    ensures !ReadsWrong(w.sup, Heard(w, c)) ==> LoopStep(w, c).value.sup.fault != Some(SettingsDrift)
  {
    hide Tick, Act, Inv, Acknowledge, ReadsWrong;
    LoopStepKeeps(w, c);
    PhaseFollowsTicket(w.sup, Heard(w, c), c.elapsed, Acting(w, c).value.landed);
  }

  // ----------------------------------------------------------- a latch is dark

  /** A machine that ends a heard cycle latched has a dark buck, unless the buck
      came back on after it was heard: a latch that resurfaces is disabled again
      in the cycle that hears of it. */
  lemma LatchedMeansDark(w: World, c: LoopCycle)
    requires Inv(w.sup) && c.heard && TrueDisable(c) && c.between.output != Some(On)
    ensures LoopStep(w, c).Done?
    ensures LoopStep(w, c).value.sup.state.Latched? ==> !LoopStep(w, c).value.regs.outputOn
  {
    hide Tick, Base, Timed, Step, Progress;
    LoopStepKeeps(w, c);
    var p := Heard(w, c);
    TickKeeps(w.sup, p, c.elapsed);
    var (s, a) := Asked(w, c).value;
    CommitKeeps(s, a);
  }

  // ------------------------------------------------------ a failed re-enable

  /** A cycle whose step-down was committed although both attempts to switch the
      output back on went unacknowledged. */
  predicate ReEnableFails(w: World, c: LoopCycle)
    requires Asked(w, c).Done?
  {
    var a := Asked(w, c).value.1;
    && a.UpdateVoltage? && a.ticket.cycleOutput
    && var v := ApplyVoltage(Meddle(Meddle(w.regs, c.before), c.between), a.ticket, c.xs);
       v.committed && v.errors != []
  }

  lemma ReEnableFailsHow(w: World, c: LoopCycle)
    requires Inv(w.sup) && Asked(w, c).Done? && ReEnableFails(w, c)
    ensures var a := Asked(w, c).value.1;
            !Acked(c.xs.on) && !Acked(c.xs.onAgain) && Acting(w, c).Done? && Acting(w, c).value.landed
    ensures LoopStep(w, c).Done?
    ensures var s := LoopStep(w, c).value.sup;
            && Inv(s) && (s.state.Float? || s.state.Parked?)
            && (s.fault.None? || Response(s.fault.value).Park?)
  {
    hide Tick, Base, Timed, Step, Progress, TimersRan, HoldsHeard, Perform, Seen;
    LoopStepKeeps(w, c);
    TickKeeps(w.sup, Heard(w, c), c.elapsed);
    var (s, a) := Asked(w, c).value;
    CommitKeeps(s, a);
    CommitLandsAt(s, a);
  }

  lemma CommitLandsAt(s: Sup, a: Action)
    requires a.UpdateVoltage? && Commit(s, a).Done?
    ensures Some(Commit(s, a).value.state) == Next(s.state, VoltageWritten)
  {
    hide Push, Next;
  }

  /** A committed step-down whose re-enable failed latches the buck's absence in
      the next cycle exactly when that cycle hears the buck, the buck is off, and
      its cause does not clear itself. An unheard cycle leaves it dark without a
      fault; a re-enable done but not acknowledged leaves it on. */
  lemma FailedReEnableLatchesExactly(w: World, c: LoopCycle, next: LoopCycle)
    requires Inv(w.sup) && Asked(w, c).Done? && ReEnableFails(w, c)
    ensures LoopStep(w, c).Done? && LoopStep(LoopStep(w, c).value, next).Done?
    ensures var w1 := LoopStep(w, c).value;
            var r := Meddle(w1.regs, next.before);
            var f := LoopStep(w1, next).value.sup.fault;
            && ((f.Some? && f.value.OutputUnexpectedlyOff?) <==>
                  (next.heard && !r.outputOn && !(r.cause.Lvp? || r.cause.Otp?)))
            && (next.heard && !r.outputOn && !(r.cause.Lvp? || r.cause.Otp?) ==> f == Some(OutputUnexpectedlyOff(r.cause)))
  {
    hide Asked, Acting, ReEnableFails, LoopStep, Reconcile, RaisedFault, CycleStep, Inv;
    ReEnableFailsHow(w, c);
    var w1 := LoopStep(w, c).value;
    LoopStepKeeps(w1, next);
    var c1 := Cycle(Heard(w1, next), next.elapsed, Acting(w1, next).value.landed, true);
    FaultExactly(w1.sup, c1);
    if DeviceFault(w1.sup, c1.poll).None? {
      RulingsBlameOthers(w1.sup, c1.poll, c1.elapsed);
    } else {
      DeviceFaultIsRaised(w1.sup, c1.poll, c1.elapsed);
    }
  }

  // ---------------------------------------------------------------- the loop

  /** `apply_action`: make the writes an action calls for, and commit its ticket
      only if they landed. */
  method ApplyAction(xy: Buck, supervisor: ChargeSupervisor, a: Action, xs: Transactions)
    returns (errors: seq<XyError>)
    requires supervisor.Valid() && ActionFits(supervisor.View(), a) && xy !in supervisor.Repr()
    modifies xy, supervisor.Repr()
    ensures supervisor.Valid()
    ensures xy.regs == Act(old(xy.regs), a, xs).regs
    ensures xy.seen == old(xy.seen) + Act(old(xy.regs), a, xs).seen
    ensures errors == Act(old(xy.regs), a, xs).errors
    ensures Acknowledge(old(supervisor.View()), a, Act(old(xy.regs), a, xs).landed) == Done(supervisor.View())
  {
    hide Inv, Commit, ApplyVoltage, Perform;
    errors := [];
    var landed := false;
    match a {
      case NoAction =>
      case EnableOutput(_) =>
        landed := xy.Send(Output(true), xs.on);
        if !landed { errors := [SetOutputError]; }
      case UpdateVoltage(ticket) =>
        ghost var calls;
        landed, errors, calls := xy.ApplyUpdateVoltage(ticket, xs);
      case DisableOutput(_) =>
        landed := xy.Send(Output(false), xs.off);
        if !landed { errors := [SetOutputError]; }
    }
    if landed {
      supervisor.CommitTicket(a);
    }
  }

  /** The drain at the end of a turn: everything buffered, oldest first. */
  method DrainLog(supervisor: ChargeSupervisor) returns (recorded: seq<ChargeTransition>)
    requires supervisor.Valid()
    modifies supervisor`transitions
    ensures supervisor.Valid()
    ensures recorded == old(supervisor.transitions)
    ensures supervisor.View() == old(supervisor.View()).(transitions := [])
  {
    hide Inv;
    recorded := [];
    var t := supervisor.PopTransition();
    while t.Some?
      invariant supervisor.Valid()
      invariant supervisor.View() == old(supervisor.View()).(transitions := supervisor.transitions)
      invariant t.None? ==> supervisor.transitions == []
      invariant old(supervisor.transitions) == recorded + (if t.Some? then [t.value] else []) + supervisor.transitions
      decreases |supervisor.transitions|, t.Some?
    {
      recorded := recorded + [t.value];
      t := supervisor.PopTransition();
    }
  }

  /** One turn of `run`: poll, tick, apply, drain the transition log. */
  method RunCycle(xy: Buck, supervisor: ChargeSupervisor, c: LoopCycle)
    returns (errors: seq<XyError>, recorded: seq<ChargeTransition>)
    requires supervisor.Valid() && xy !in supervisor.Repr()
    requires supervisor.transitions == []
    modifies xy, supervisor.Repr()
    ensures supervisor.Valid() && supervisor.transitions == []
    ensures LoopStep(old(World(supervisor.View(), xy.regs)), c) == Done(World(supervisor.View(), xy.regs))
    ensures Log(supervisor.trace) == old(Log(supervisor.trace)) + recorded
    ensures Acting(old(World(supervisor.View(), xy.regs)), c).Done?
    ensures errors == Acting(old(World(supervisor.View(), xy.regs)), c).value.errors
  {
    hide Inv, Tick, Act, ActionFits, Acknowledge, Log;
    ghost var w := World(supervisor.View(), xy.regs);
    LoopStepKeeps(w, c);
    xy.Suffer(c.before);
    var p := PollOf(xy.regs, c.heard, c.battery);
    var a := supervisor.TickOnce(p, c.elapsed);
    xy.Suffer(c.between);
    errors := ApplyAction(xy, supervisor, a, c.xs);
    CycleFitsBuffer(w.sup, Cycle(p, c.elapsed, Acting(w, c).value.landed, true));
    recorded := DrainLog(supervisor);
  }
}
