/** The battery monitor, the main loop and the charger's loop together: how long a
    dead sensor can go on being charged on. Each loop charges its own measured
    turns, so the two clocks are not the same. */
module SensorLoss {
  import opened Wrappers
  import opened Timing
  import opened ChargeTypes
  import opened ChargeStates
  import opened SupervisorSpec
  import opened SupervisorInvariant
  import opened SupervisorRuns
  import S = SensorStore

  /** What happens next, and how long after the last thing: the monitor publishes,
      the main loop ages the store, or the charger's loop makes a turn. */
  datatype Event =
    | Publish(wait: nat, raw: S.RawBattery)
    | Age(wait: nat, now: Option<nat>)
    | Poll(wait: nat, setpoints: Option<Setpoints>, output: Option<BuckOutput>, packTempC: Option<real>,
           landed: bool, drained: bool)

  /** The store, the supervisor, and the time since each loop last measured a turn. */
  datatype System = System(store: S.Store, sup: Sup, sinceAge: nat, sincePoll: nat)

  function Snapshot(store: S.Store): Option<BatterySample> {
    match S.Fresh(store.latestBattery, store.batteryStale)
    case None => None
    case Some(b) => Some(BatterySample(Finite(b.voltage), Finite(b.current)))
  }

  function Turned(sys: System, e: Event): Cycle
    requires e.Poll?
  {
    Cycle(PollResult(Snapshot(sys.store), e.setpoints, e.output, e.packTempC), sys.sincePoll + e.wait, e.landed, e.drained)
  }

  function Advance(sys: System, e: Event): Outcome<System>
    requires |sys.store.history.cuts| == |sys.store.history.samples| + 1
    ensures Advance(sys, e).Done? ==>
              var store := Advance(sys, e).value.store; |store.history.cuts| == |store.history.samples| + 1
  {
    var sinceAge, sincePoll := sys.sinceAge + e.wait, sys.sincePoll + e.wait;
    match e
    case Publish(_, raw) => Done(System(S.Apply(sys.store, S.UpdateBattery(raw)), sys.sup, sinceAge, sincePoll))
    case Age(_, now) => Done(System(S.Apply(sys.store, S.Tick(now, sinceAge)), sys.sup, 0, sincePoll))
    case Poll(_, _, _, _, _, _) =>
      var sup :- CycleStep(sys.sup, Turned(sys, e));
      Done(System(sys.store, sup, sinceAge, 0))
  }

  function After(cfg: Config, es: seq<Event>): (r: Outcome<System>)
    ensures r.Done? ==> |r.value.store.history.cuts| == |r.value.store.history.samples| + 1
  {
    if es == [] then Done(System(S.EMPTY_STORE, New(cfg), 0, 0))
    else
      var before :- After(cfg, es[..|es| - 1]);
      Advance(before, es[|es| - 1])
  }

  predicate Accepted(e: Event) {
    e.Publish? && S.AcceptBattery(e.raw).Some?
  }

  /** Time since the last usable reading was published. */
  function SincePublished(es: seq<Event>): nat {
    if es == [] || Accepted(es[|es| - 1]) then 0 else SincePublished(es[..|es| - 1]) + es[|es| - 1].wait
  }

  /** Time since then, or since the output was last not being sourced. */
  function SinceLost(cfg: Config, es: seq<Event>): nat {
    if es == [] || Accepted(es[|es| - 1]) then 0
    else match After(cfg, es)
      case Panic => 0
      case Done(sys) =>
        if Sourcing(sys.sup.state) then SinceLost(cfg, es[..|es| - 1]) + es[|es| - 1].wait else 0
  }

  /** No turn of the main loop, nor of the charger's, has taken longer. */
  ghost predicate TurnsWithin(cfg: Config, es: seq<Event>, mainTurn: nat, pollTurn: nat) {
    forall k :: 0 <= k < |es| ==>
      After(cfg, es[..k]).Done? ==>
        && After(cfg, es[..k]).value.sinceAge + es[k].wait <= mainTurn
        && After(cfg, es[..k]).value.sincePoll + es[k].wait <= pollTurn
  }

  /** A stored reading is at least as stale as its age, less the turn under way; and
      while sourcing, the time it has been lost is on the supervisor's window and
      the store's, but for a turn of each loop. */
  ghost predicate Tracks(sys: System, published: nat, lost: nat, mainTurn: nat) {
    && (sys.store.batteryStale.Some? ==> published <= sys.store.batteryStale.value + sys.sinceAge)
    && lost <= published
    && (!Sourcing(sys.sup.state) ==> lost == 0)
    && (Sourcing(sys.sup.state) ==> lost <= sys.sup.batteryMissing + sys.sincePoll + STALE_WINDOW + mainTurn)
  }

  /** What an event does to the age of the stored reading. */
  lemma StoreAges(sys: System, e: Event)
    requires |sys.store.history.cuts| == |sys.store.history.samples| + 1
    requires Inv(sys.sup)
    ensures Advance(sys, e).Done?
    ensures var stale := Advance(sys, e).value.store.batteryStale;
            if Accepted(e) then stale == Some(0)
            else if e.Age? then stale == S.Older(sys.store.batteryStale, sys.sinceAge + e.wait)
            else stale == sys.store.batteryStale
  {
    hide CycleStep, Inv;
    match e
    case Publish(_, raw) => S.EventOnReadings(sys.store, S.UpdateBattery(raw));
    case Age(wait, now) => S.EventOnReadings(sys.store, S.Tick(now, sys.sinceAge + wait));
    case Poll(_, _, _, _, _, _) => CycleKeeps(sys.sup, Turned(sys, e));
  }

  /** What a turn of the charger's loop does to its own window. */
  lemma SupervisorAges(sys: System, e: Event)
    requires |sys.store.history.cuts| == |sys.store.history.samples| + 1
    requires Inv(sys.sup) && e.Poll?
    ensures Advance(sys, e).Done?
    ensures var sup := Advance(sys, e).value.sup;
            && Inv(sup)
            && (Sourcing(sup.state) ==>
                  if Snapshot(sys.store).None? then sup.batteryMissing == sys.sup.batteryMissing + sys.sincePoll + e.wait
                  else sys.store.batteryStale.Some? && sys.store.batteryStale.value <= STALE_WINDOW)
  {
    hide CycleStep, Inv;
    CycleKeeps(sys.sup, Turned(sys, e));
    CycleTimers(sys.sup, Turned(sys, e));
  }

  lemma TracksOn(sys: System, e: Event, published: nat, lost: nat, mainTurn: nat)
    requires |sys.store.history.cuts| == |sys.store.history.samples| + 1
    requires Inv(sys.sup) && Tracks(sys, published, lost, mainTurn) && sys.sinceAge + e.wait <= mainTurn
    ensures Advance(sys, e).Done? && Inv(Advance(sys, e).value.sup)
    ensures var sys' := Advance(sys, e).value;
            Tracks(sys', if Accepted(e) then 0 else published + e.wait,
                   if Accepted(e) || !Sourcing(sys'.sup.state) then 0 else lost + e.wait, mainTurn)
  {
    hide CycleStep, Inv, Snapshot, S.Apply;
    StoreAges(sys, e);
    if e.Poll? { SupervisorAges(sys, e); }
  }

  lemma {:induction false} LossIsTracked(cfg: Config, es: seq<Event>, mainTurn: nat, pollTurn: nat)
    requires WellFormed(cfg) && TurnsWithin(cfg, es, mainTurn, pollTurn)
    ensures After(cfg, es).Done? && Inv(After(cfg, es).value.sup)
    ensures Tracks(After(cfg, es).value, SincePublished(es), SinceLost(cfg, es), mainTurn)
    ensures After(cfg, es).value.sincePoll <= pollTurn
  {
    hide Advance, Inv, Tracks;
    if es == [] {
      NewKeeps(cfg);
      assert Tracks(After(cfg, es).value, 0, 0, mainTurn) by { StartTracks(cfg, mainTurn); }
    } else {
      var init, e := es[..|es| - 1], es[|es| - 1];
      assert forall k :: 0 <= k < |init| ==> init[k] == es[k] && init[..k] == es[..k];
      assert TurnsWithin(cfg, init, mainTurn, pollTurn);
      LossIsTracked(cfg, init, mainTurn, pollTurn);
      var sys := After(cfg, init).value;
      TracksOn(sys, e, SincePublished(init), SinceLost(cfg, init), mainTurn);
      SincePollOn(sys, e);
    }
  }

  lemma StartTracks(cfg: Config, mainTurn: nat)
    ensures Tracks(System(S.EMPTY_STORE, New(cfg), 0, 0), 0, 0, mainTurn)
  {
  }

  lemma SincePollOn(sys: System, e: Event)
    requires |sys.store.history.cuts| == |sys.store.history.samples| + 1
    ensures Advance(sys, e).Done? ==> Advance(sys, e).value.sincePoll <= sys.sincePoll + e.wait
  {
    hide CycleStep;
  }

  /** The end-to-end budget of a dead sensor, over every interleaving: while the buck
      is being sourced, less has passed since the last usable reading, or since
      sourcing began, than the two windows and one turn of each loop. */
  lemma SensorLossIsBounded(cfg: Config, es: seq<Event>, mainTurn: nat, pollTurn: nat)
    requires WellFormed(cfg) && TurnsWithin(cfg, es, mainTurn, pollTurn)
    ensures After(cfg, es).Done?
    ensures Sourcing(After(cfg, es).value.sup.state) ==>
              SinceLost(cfg, es) < STALE_WINDOW + BATTERY_MISSING_TIMEOUT + mainTurn + pollTurn
  {
    hide After, SincePublished, SinceLost, Base, Timed;
    LossIsTracked(cfg, es, mainTurn, pollTurn);
  }
}
