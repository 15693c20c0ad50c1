/** The network supervisor (`net/net_supervisor.rs`) and the radio, servers and
    mDNS responder it drives from the main loop (`src/main.rs`). */
module Net {
  import opened Wrappers
  import opened Timing

  const CAPTIVE_AFTER_DISCONNECT: nat := 2 * 60 * 60 * SECOND
  const CAPTIVE_TRYING_TIMEOUT: nat := 20 * SECOND

  datatype Credentials = Credentials(ssid: string, password: string)

  datatype LinkState = Up | Down(since: nat)

  datatype NetPhase =
    | CaptiveIdle
    | CaptiveTrying(creds: Credentials, since: nat)
    | CaptiveFallbackRetrying(creds: Credentials)
    | StaConnecting(creds: Credentials, sessionStart: nat)
    | StaServing(creds: Credentials, link: LinkState)

  datatype NetPoll = NetPoll(now: nat, associated: bool, submitted: Option<Credentials>, resetRequested: bool)

  datatype NetAction =
    | Nothing
    | RefreshScan
    | ApplyCreds(creds: Credentials)
    | PromoteToSta(creds: Credentials)
    | StartMdns
    | MarkSubmissionFailed
    | FallbackToCaptive(creds: Credentials)
    | ForceCaptive

  predicate InSta(p: NetPhase) {
    p.StaConnecting? || p.StaServing?
  }

  predicate PollsAssociation(p: NetPhase) {
    !p.CaptiveIdle?
  }

  /** `Duration::saturating_sub`. */
  function Since(now: nat, then_: nat): nat {
    if now >= then_ then now - then_ else 0
  }

  datatype Step = Step(phase: NetPhase, action: NetAction)

  function Promote(creds: Credentials): Step {
    Step(StaServing(creds, Up), PromoteToSta(creds))
  }

  function TryCreds(creds: Credentials, now: nat): Step {
    Step(CaptiveTrying(creds, now), ApplyCreds(creds))
  }

  function FallBack(creds: Credentials): Step {
    Step(CaptiveFallbackRetrying(creds), FallbackToCaptive(creds))
  }

  function NextStep(phase: NetPhase, p: NetPoll): Step {
    if p.resetRequested && InSta(phase) then Step(CaptiveIdle, ForceCaptive)
    else
      match phase
      case CaptiveIdle =>
        if p.submitted.Some? then TryCreds(p.submitted.value, p.now) else Step(phase, RefreshScan)
      case CaptiveTrying(creds, since) =>
        if p.associated then Promote(creds)
        else if p.submitted.Some? then TryCreds(p.submitted.value, p.now)
        else if Since(p.now, since) >= CAPTIVE_TRYING_TIMEOUT then Step(CaptiveIdle, MarkSubmissionFailed)
        else Step(phase, Nothing)
      case CaptiveFallbackRetrying(creds) =>
        if p.associated then Promote(creds)
        else if p.submitted.Some? then TryCreds(p.submitted.value, p.now)
        else Step(phase, RefreshScan)
      case StaConnecting(creds, sessionStart) =>
        if p.associated then Step(StaServing(creds, Up), StartMdns)
        else if Since(p.now, sessionStart) >= CAPTIVE_AFTER_DISCONNECT then FallBack(creds)
        else Step(phase, Nothing)
      case StaServing(creds, link) =>
        var link' := if p.associated then Up else if link.Up? then Down(p.now) else link;
        if link'.Down? && Since(p.now, link'.since) >= CAPTIVE_AFTER_DISCONNECT then FallBack(creds)
        else Step(StaServing(creds, link'), Nothing)
  }

  function BootPhase(boot: Option<Credentials>, now: nat): NetPhase {
    match boot
    case Some(creds) => StaConnecting(creds, now)
    case None => CaptiveIdle
  }

  // -------------------------------------------------------------- resources

  /** The two shapes the firmware's resources come in, and what is on the radio. */
  datatype Resources =
    | Mixed(radio: Option<Credentials>)
    | Sta(radioSta: Credentials, mdns: bool)

  /** Resources, the stored credentials, and how often an action met resources
      it could not be carried out on. */
  datatype Held = Held(res: Resources, nvs: Option<Credentials>, outOfStep: nat)

  function BootResources(phase: NetPhase): Resources {
    if phase.StaConnecting? then Sta(phase.creds, false) else Mixed(None)
  }

  function Warn(h: Held): Held {
    h.(outOfStep := h.outOfStep + 1)
  }

  /** `apply_net_action`. Taking the mDNS responder while it is held panics. */
  function Carry(h: Held, a: NetAction): Outcome<Held> {
    match a
    case Nothing | RefreshScan => Done(h)
    case ApplyCreds(creds) => Done(if h.res.Mixed? then h.(res := Mixed(Some(creds))) else Warn(h))
    case MarkSubmissionFailed => Done(if h.res.Mixed? then h.(res := Mixed(None)) else Warn(h))
    case StartMdns =>
      if !h.res.Sta? then Done(Warn(h))
      else if h.res.mdns then Panic
      else Done(h.(res := h.res.(mdns := true)))
    case PromoteToSta(creds) =>
      Done(if h.res.Mixed? then h.(res := Sta(creds, true), nvs := Some(creds)) else Warn(h))
    case FallbackToCaptive(creds) => Done(if h.res.Sta? then h.(res := Mixed(Some(creds))) else Warn(h))
    case ForceCaptive => Done(if h.res.Sta? then h.(res := Mixed(None)) else Warn(h))
  }

  datatype NetWorld = NetWorld(phase: NetPhase, held: Held)

  /** One turn of the main loop. The reset request comes from a dashboard
      handler that clears the stored credentials before raising it. */
  function Turn(w: NetWorld, p: NetPoll): Outcome<NetWorld> {
    var held := if p.resetRequested then w.held.(nvs := None) else w.held;
    var s := NextStep(w.phase, p);
    var held' :- Carry(held, s.action);
    Done(NetWorld(s.phase, held'))
  }

  function BootWorld(nvs: Option<Credentials>, now: nat): NetWorld {
    var phase := BootPhase(nvs, now);
    NetWorld(phase, Held(BootResources(phase), nvs, 0))
  }

  function NetRun(nvs: Option<Credentials>, boot: nat, ps: seq<NetPoll>): Outcome<NetWorld> {
    if ps == [] then Done(BootWorld(nvs, boot))
    else
      var before :- NetRun(nvs, boot, ps[..|ps| - 1]);
      Turn(before, ps[|ps| - 1])
  }

  // -------------------------------------------------------- never out of step

  /** The phase alone says which resources are up and what is on the radio. */
  predicate InStep(w: NetWorld) {
    match w.phase
    case CaptiveIdle => w.held.res == Mixed(None)
    case CaptiveTrying(creds, _) => w.held.res == Mixed(Some(creds))
    case CaptiveFallbackRetrying(creds) => w.held.res == Mixed(Some(creds))
    case StaConnecting(creds, _) => w.held.res == Sta(creds, false)
    case StaServing(creds, _) => w.held.res == Sta(creds, true)
  }

  lemma TurnKeepsStep(w: NetWorld, p: NetPoll)
    requires InStep(w)
    ensures Turn(w, p).Done?
    ensures var w' := Turn(w, p).value;
            && InStep(w') && w'.held.outOfStep == w.held.outOfStep
            && (w'.held.nvs != w.held.nvs ==>
                  (p.resetRequested && w'.held.nvs.None?) ||
                  (p.associated && w.held.res == Mixed(w'.held.nvs) && w'.phase == StaServing(w'.held.nvs.value, Up)))
  {
  }

  /** The two halves never fall out of step, in any run: resources follow the
      phase, no warning branch is reached, mDNS is never taken twice, and the
      stored credentials only ever change to a pair that associated. */
  lemma {:induction false} NeverOutOfStep(nvs: Option<Credentials>, boot: nat, ps: seq<NetPoll>)
    ensures NetRun(nvs, boot, ps).Done?
    ensures InStep(NetRun(nvs, boot, ps).value) && NetRun(nvs, boot, ps).value.held.outOfStep == 0
  {
    if ps != [] {
      NeverOutOfStep(nvs, boot, ps[..|ps| - 1]);
      TurnKeepsStep(NetRun(nvs, boot, ps[..|ps| - 1]).value, ps[|ps| - 1]);
    }
  }

  /** Every reset in the run came from the dashboard. */
  ghost predicate ResetsFromDashboard(nvs: Option<Credentials>, boot: nat, ps: seq<NetPoll>) {
    forall k :: 0 <= k < |ps| && ps[k].resetRequested ==>
      NetRun(nvs, boot, ps[..k]).Done? && InSta(NetRun(nvs, boot, ps[..k]).value.phase)
  }

  /** On a network, or fallen back from one, the credentials in use are the ones a
      reboot would load. */
  lemma {:induction false} StoredAreTheOnesInUse(nvs: Option<Credentials>, boot: nat, ps: seq<NetPoll>)
    requires ResetsFromDashboard(nvs, boot, ps)
    ensures NetRun(nvs, boot, ps).Done?
    ensures var w := NetRun(nvs, boot, ps).value;
            InSta(w.phase) || w.phase.CaptiveFallbackRetrying? ==> w.held.nvs == Some(w.phase.creds)
  {
    NeverOutOfStep(nvs, boot, ps);
    if ps != [] {
      var init, p := ps[..|ps| - 1], ps[|ps| - 1];
      assert forall k :: 0 <= k < |init| ==> init[k] == ps[k] && init[..k] == ps[..k];
      assert ResetsFromDashboard(nvs, boot, init);
      StoredAreTheOnesInUse(nvs, boot, init);
      NeverOutOfStep(nvs, boot, init);
    }
  }

  // ---------------------------------------------------------------- timing

  /** The link has been missing in every poll since `k`, and was up just before. */
  ghost predicate FirstMiss(ps: seq<NetPoll>, k: nat) {
    && 0 < k < |ps| && ps[k - 1].associated
    && forall j :: k <= j < |ps| ==> !ps[j].associated
  }

  /** Poll `k` submitted these credentials, and nothing since has associated or
      submitted others. */
  ghost predicate Attempting(ps: seq<NetPoll>, k: nat, creds: Credentials) {
    && k < |ps| && ps[k].submitted == Some(creds)
    && forall j :: k < j < |ps| ==> !ps[j].associated && ps[j].submitted.None?
  }

  /** The timers in a phase are about the polls: serving with the link down means
      down since the first poll that missed it, and trying means nothing has
      associated or been submitted since the poll that started the attempt. */
  lemma {:induction false} TimersAreHistory(nvs: Option<Credentials>, boot: nat, ps: seq<NetPoll>) returns (k: nat)
    ensures NetRun(nvs, boot, ps).Done?
    ensures match NetRun(nvs, boot, ps).value.phase
            case StaServing(_, Up) => ps != [] && ps[|ps| - 1].associated
            case StaServing(_, Down(since)) => FirstMiss(ps, k) && since == ps[k].now
            case CaptiveTrying(creds, since) => Attempting(ps, k, creds) && since == ps[k].now
            case StaConnecting(creds, start) =>
              start == boot && nvs == Some(creds) && forall j :: 0 <= j < |ps| ==> !ps[j].associated
            case _ => true
  {
    NeverOutOfStep(nvs, boot, ps);
    k := 0;
    if ps != [] {
      var init, p := ps[..|ps| - 1], ps[|ps| - 1];
      hide InStep, Carry;
      k := TimersAreHistory(nvs, boot, init);
      var before := NetRun(nvs, boot, init).value.phase;
      var after := NetRun(nvs, boot, ps).value.phase;
      if after.CaptiveTrying? && p.submitted.Some? {
        k := |ps| - 1;
      } else if after.StaServing? && after.link.Down? && before.StaServing? && before.link.Up? {
        k := |ps| - 1;
      }
    }
  }

  /** Serving falls back to the captive portal exactly when no reset came and the
      link, missing now, has been missing since a first miss a whole grace ago. */
  lemma FallsBackExactly(nvs: Option<Credentials>, boot: nat, ps: seq<NetPoll>, p: NetPoll)
    ensures NetRun(nvs, boot, ps).Done?
    ensures var phase := NetRun(nvs, boot, ps).value.phase;
            phase.StaServing? && !p.resetRequested ==>
              (NextStep(phase, p).action.FallbackToCaptive? <==>
                 exists k: nat :: FirstMiss(ps + [p], k) && p.now >= (ps + [p])[k].now + CAPTIVE_AFTER_DISCONNECT)
  {
    var k := TimersAreHistory(nvs, boot, ps);
    var phase := NetRun(nvs, boot, ps).value.phase;
    if phase.StaServing? {
      var all := ps + [p];
      if !p.associated {
        var first := if phase.link.Up? then |ps| else k;
        assert FirstMiss(all, first);
        forall k' | FirstMiss(all, k') ensures k' == first {
          FirstMissIsLast(all, k', first);
          FirstMissIsLast(all, first, k');
        }
      } else {
        assert all[|ps|] == p;
      }
    }
  }

  /** Still connecting since boot, it falls back exactly when no reset came, no poll
      of the session ever associated, and a whole grace has passed since boot. */
  lemma ConnectingFallsBackExactly(nvs: Option<Credentials>, boot: nat, ps: seq<NetPoll>, p: NetPoll)
    ensures NetRun(nvs, boot, ps).Done?
    ensures var phase := NetRun(nvs, boot, ps).value.phase;
            phase.StaConnecting? && !p.resetRequested ==>
              && nvs == Some(phase.creds)
              && (NextStep(phase, p).action.FallbackToCaptive? <==>
                    (forall j :: 0 <= j < |ps + [p]| ==> !(ps + [p])[j].associated) &&
                    p.now >= boot + CAPTIVE_AFTER_DISCONNECT)
  {
    var k := TimersAreHistory(nvs, boot, ps);
    assert (ps + [p])[|ps|] == p;
  }

  lemma FirstMissIsLast(ps: seq<NetPoll>, j: nat, k: nat)
    requires FirstMiss(ps, j) && FirstMiss(ps, k)
    ensures k <= j
  {
    assert ps[k - 1].associated;
  }

  /** An attempt is given up exactly when a poll brings neither an association
      nor other credentials and the whole budget has passed since the poll that
      submitted it. */
  lemma AttemptFailsExactly(nvs: Option<Credentials>, boot: nat, ps: seq<NetPoll>, p: NetPoll) returns (k: nat)
    ensures NetRun(nvs, boot, ps).Done?
    ensures var phase := NetRun(nvs, boot, ps).value.phase;
            phase.CaptiveTrying? ==>
              && Attempting(ps, k, phase.creds)
              && (NextStep(phase, p).action.MarkSubmissionFailed? <==>
                    !p.associated && p.submitted.None? && p.now >= ps[k].now + CAPTIVE_TRYING_TIMEOUT)
  {
    k := TimersAreHistory(nvs, boot, ps);
  }

  // ---------------------------------------------------------- what is answered

  /** A poll that associates in one of these phases ends a session of the portal. */
  predicate Trying(phase: NetPhase) {
    phase.CaptiveTrying? || phase.CaptiveFallbackRetrying?
  }

  /** Every answer that changes what is up, exactly when it is given, with the pair
      it is given for and the phase it goes with. */
  lemma AnswersExactly(phase: NetPhase, p: NetPoll)
    ensures var (next, a) := (NextStep(phase, p).phase, NextStep(phase, p).action);
            && (a.PromoteToSta? <==> Trying(phase) && p.associated)
            && (a.PromoteToSta? ==> a.creds == phase.creds && next == StaServing(phase.creds, Up))
            && (a.ApplyCreds? <==> p.submitted.Some? && (phase.CaptiveIdle? || (Trying(phase) && !p.associated)))
            && (a.ApplyCreds? ==> a.creds == p.submitted.value && next == CaptiveTrying(p.submitted.value, p.now))
            && (a.ForceCaptive? <==> p.resetRequested && (phase.StaConnecting? || phase.StaServing?))
            && (a.ForceCaptive? ==> next == CaptiveIdle)
            && (a.StartMdns? <==> phase.StaConnecting? && p.associated && !p.resetRequested)
            && (a.StartMdns? ==> next == StaServing(phase.creds, Up))
            && (a.FallbackToCaptive? ==> a.creds == phase.creds && next == CaptiveFallbackRetrying(phase.creds))
            && (a.MarkSubmissionFailed? ==> next == CaptiveIdle)
            && (a.RefreshScan? <==>
                  p.submitted.None? && (phase.CaptiveIdle? || (phase.CaptiveFallbackRetrying? && !p.associated)))
            && (a.RefreshScan? ==> next == phase)
            && (a.Nothing? ==>
                  if phase.StaServing? then next.StaServing? && next.creds == phase.creds else next == phase)
  {
  }

  /** The portal is left for the network on the very poll that associates, whatever
      came before: the pair that was on the radio is then the one in use and the
      one stored, with the dashboard and mDNS up. */
  lemma PortalIsLeftAtOnce(nvs: Option<Credentials>, boot: nat, ps: seq<NetPoll>, p: NetPoll)
    ensures NetRun(nvs, boot, ps).Done? && NetRun(nvs, boot, ps + [p]).Done?
    ensures var (w, w') := (NetRun(nvs, boot, ps).value, NetRun(nvs, boot, ps + [p]).value);
            && (!InSta(w.phase) ==> (InSta(w'.phase) <==> !w.phase.CaptiveIdle? && p.associated))
            && (!InSta(w.phase) && InSta(w'.phase) ==>
                  && w.held.res == Mixed(Some(w'.phase.creds))
                  && w'.phase == StaServing(w'.phase.creds, Up)
                  && w'.held.res == Sta(w'.phase.creds, true)
                  && w'.held.nvs == Some(w'.phase.creds))
  {
    NeverOutOfStep(nvs, boot, ps);
    NeverOutOfStep(nvs, boot, ps + [p]);
    assert (ps + [p])[..|ps|] == ps;
  }

  /** A reset on a network forgets: the poll that brings it ends with a bare portal,
      nothing on the radio and nothing stored, so a reboot comes up the same. */
  lemma ResetForgets(nvs: Option<Credentials>, boot: nat, ps: seq<NetPoll>, p: NetPoll, again: nat)
    requires p.resetRequested
    ensures NetRun(nvs, boot, ps).Done? && NetRun(nvs, boot, ps + [p]).Done?
    ensures var (w, w') := (NetRun(nvs, boot, ps).value, NetRun(nvs, boot, ps + [p]).value);
            InSta(w.phase) ==>
              && w'.phase.CaptiveIdle? && w'.held.res == Mixed(None) && w'.held.nvs.None?
              && BootWorld(w'.held.nvs, again) == NetWorld(CaptiveIdle, Held(Mixed(None), None, 0))
  {
    NeverOutOfStep(nvs, boot, ps);
    NeverOutOfStep(nvs, boot, ps + [p]);
    assert (ps + [p])[..|ps|] == ps;
  }

  // -------------------------------------------------------------- the objects

  class NetSupervisor {
    var phase: NetPhase

    constructor (boot: Option<Credentials>, now: nat)
      ensures phase == BootPhase(boot, now)
    {
      phase := match boot case Some(creds) => StaConnecting(creds, now) case None => CaptiveIdle;
    }

    method Tick(p: NetPoll) returns (a: NetAction)
      modifies this
      ensures Step(phase, a) == NextStep(old(phase), p)
    {
      var step := NextStep(phase, p);
      phase := step.phase;
      a := step.action;
    }
  }

  /** What the main loop owns: the supervisor and the resources it drives. */
  class Firmware {
    const supervisor: NetSupervisor
    var held: Held

    ghost function View(): NetWorld
      reads this, supervisor
    {
      NetWorld(supervisor.phase, held)
    }

    constructor (nvs: Option<Credentials>, now: nat)
      ensures View() == BootWorld(nvs, now) && InStep(View())
      ensures fresh(supervisor)
    {
      supervisor := new NetSupervisor(nvs, now);
      new;
      var res := if supervisor.phase.StaConnecting? then Sta(supervisor.phase.creds, false) else Mixed(None);
      held := Held(res, nvs, 0);
    }

    method ApplyNetAction(a: NetAction)
      requires Carry(held, a).Done?
      modifies this
      ensures Carry(old(held), a) == Done(held)
    {
      match a
      case Nothing | RefreshScan =>
      case ApplyCreds(creds) =>
        if held.res.Mixed? { held := held.(res := Mixed(Some(creds))); } else { held := Warn(held); }
      case MarkSubmissionFailed =>
        if held.res.Mixed? { held := held.(res := Mixed(None)); } else { held := Warn(held); }
      case StartMdns =>
        if held.res.Sta? { held := held.(res := held.res.(mdns := true)); } else { held := Warn(held); }
      case PromoteToSta(creds) =>
        if held.res.Mixed? {
          held := held.(nvs := Some(creds));
          held := held.(res := Sta(creds, true));
        } else {
          held := Warn(held);
        }
      case FallbackToCaptive(creds) =>
        if held.res.Sta? { held := held.(res := Mixed(Some(creds))); } else { held := Warn(held); }
      case ForceCaptive =>
        if held.res.Sta? { held := held.(res := Mixed(None)); } else { held := Warn(held); }
    }

    /** One turn: an association attempt only where the phase makes one, a
        submission only where the portal is up to have received one. */
    method Iterate(now: nat, connects: bool, mailbox: Option<Credentials>, reset: bool)
      requires InStep(View())
      modifies this, supervisor
      ensures var p := NetPoll(now, PollsAssociation(old(supervisor.phase)) && connects,
                               if old(held.res.Mixed?) then mailbox else None, reset);
              Turn(old(View()), p) == Done(View())
      ensures InStep(View()) && held.outOfStep == old(held.outOfStep)
    {
      var associated := PollsAssociation(supervisor.phase) && connects;
      var submitted := if held.res.Mixed? then mailbox else None;
      var p := NetPoll(now, associated, submitted, reset);
      TurnKeepsStep(View(), p);
      if reset {
        held := held.(nvs := None);
      }
      var action := supervisor.Tick(p);
      ApplyNetAction(action);
    }
  }
}
