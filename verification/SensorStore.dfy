/** The sensor reading store (`data/mod.rs`): the latest reading of each
    producer, how stale it is, and the history its ticks feed. */
module SensorStore {
  import opened Wrappers
  import opened Timing
  import opened Histories

  const POWER_ONLINE_VOLTAGE_THRESHOLD := 2.0

  /** What the battery monitor published, and what is left of it once every
      field is known to be a number. */
  datatype RawBattery = RawBattery(voltage: F32, current: F32, power: F32)
  datatype Battery = Battery(voltage: real, current: real, power: real)

  datatype RawPs = RawPs(voltage: F32, current: F32, power: F32, vSet: F32, iSet: F32)
  datatype Ps = Ps(voltage: real, current: real, power: real, vSet: real, iSet: real)

  function AcceptBattery(r: RawBattery): Option<Battery> {
    match r
    case RawBattery(Finite(v), Finite(i), Finite(p)) => Some(Battery(v, i, p))
    case _ => None
  }

  function AcceptPs(r: RawPs): Option<Ps> {
    match r
    case RawPs(Finite(v), Finite(i), Finite(p), Finite(sv), Finite(si)) => Some(Ps(v, i, p, sv, si))
    case _ => None
  }

  /** `None` is the initial `Duration::MAX`: staler than any window, for good. */
  type Staleness = Option<nat>

  function Older(s: Staleness, dt: nat): Staleness {
    match s
    case None => None
    case Some(d) => Some(d + dt)
  }

  function Fresh<T>(latest: Option<T>, stale: Staleness): Option<T> {
    if stale.None? || stale.value > STALE_WINDOW then None else latest
  }

  datatype Store = Store(
    latestBattery: Option<Battery>, latestPs: Option<Ps>,
    batteryStale: Staleness, psStale: Staleness,
    history: Hist)

  datatype Event = UpdateBattery(b: RawBattery) | UpdatePs(p: RawPs) | Tick(now: Option<nat>, elapsed: nat)

  function LastStamp(h: Hist): Option<nat> {
    if h.samples == [] then None else Some(h.samples[|h.samples| - 1].timeS)
  }

  /** The raw sample a tick stamps: whichever readings are fresh, zeros for the rest. */
  function RawAt(battery: Option<Battery>, ps: Option<Ps>, timeS: nat): Sample {
    Sample(
      timeS,
      if battery.Some? then battery.value.voltage else 0.0,
      if battery.Some? then battery.value.current else 0.0,
      if ps.Some? then ps.value.current else 0.0,
      if ps.Some? && ps.value.voltage > POWER_ONLINE_VOLTAGE_THRESHOLD then 1.0 else 0.0)
  }

  function Apply(s: Store, e: Event): Store
    requires |s.history.cuts| == |s.history.samples| + 1
    ensures |Apply(s, e).history.cuts| == |Apply(s, e).history.samples| + 1
  {
    match e
    case UpdateBattery(raw) => (
      match AcceptBattery(raw)
      case None => s
      case Some(b) => s.(latestBattery := Some(b), batteryStale := Some(0)))
    case UpdatePs(raw) => (
      match AcceptPs(raw)
      case None => s
      case Some(p) => s.(latestPs := Some(p), psStale := Some(0)))
    case Tick(now, elapsed) =>
      var s1 := s.(batteryStale := Older(s.batteryStale, elapsed), psStale := Older(s.psStale, elapsed));
      if now.None? || (LastStamp(s.history).Some? && now.value <= LastStamp(s.history).value) then s1
      else
        var raw := RawAt(Fresh(s1.latestBattery, s1.batteryStale), Fresh(s1.latestPs, s1.psStale), now.value);
        s1.(history := Commit(s1.history, raw))
  }

  const EMPTY_STORE := Store(None, None, None, None, NEW)

  function After(es: seq<Event>): (s: Store)
    ensures |s.history.cuts| == |s.history.samples| + 1
  {
    if es == [] then EMPTY_STORE else Apply(After(es[..|es| - 1]), es[|es| - 1])
  }

  // ------------------------------------------------------------- chronology

  /** For every interleaving of updates and ticks and any wall clock, absent,
      repeating or stepping back: the stored stamps are strictly increasing and
      every stored entry stands for its span of what was committed. */
  lemma {:induction false} HistoryIsChronological(es: seq<Event>)
    ensures Chronological(After(es).history.samples) && Inv(After(es).history)
  {
    if es == [] {
      NewIsSound();
    } else {
      hide Inv, Chronological, Commit;
      HistoryIsChronological(es[..|es| - 1]);
      ApplyKeepsHistory(After(es[..|es| - 1]), es[|es| - 1]);
    }
  }

  lemma ApplyKeepsHistory(s: Store, e: Event)
    requires Inv(s.history) && Chronological(s.history.samples)
    ensures Inv(Apply(s, e).history) && Chronological(Apply(s, e).history.samples)
  {
    if e.Tick? && e.now.Some? && !(LastStamp(s.history).Some? && e.now.value <= LastStamp(s.history).value) {
      var s1 := s.(batteryStale := Older(s.batteryStale, e.elapsed), psStale := Older(s.psStale, e.elapsed));
      var raw := RawAt(Fresh(s1.latestBattery, s1.batteryStale), Fresh(s1.latestPs, s1.psStale), e.now.value);
      CommitKeeps(s.history, raw);
      CommitIsChronological(s.history, raw);
      hide Inv, Chronological, Commit;
    }
  }

  // -------------------------------------------------------------- staleness

  function Elapsed(es: seq<Event>): nat {
    if es == [] then 0
    else Elapsed(es[..|es| - 1]) + (if es[|es| - 1].Tick? then es[|es| - 1].elapsed else 0)
  }

  /** An event publishes this reading: every field of it a number. */
  predicate BatteryAt(e: Event, b: Battery) {
    e.UpdateBattery? && e.b == RawBattery(Finite(b.voltage), Finite(b.current), Finite(b.power))
  }

  predicate PsAt(e: Event, p: Ps) {
    e.UpdatePs? && e.p == RawPs(Finite(p.voltage), Finite(p.current), Finite(p.power), Finite(p.vSet), Finite(p.iSet))
  }

  /** Event `k` is the last usable battery reading, and it was `b`. */
  ghost predicate LastBattery(es: seq<Event>, k: nat, b: Battery) {
    && k < |es| && BatteryAt(es[k], b)
    && forall j, b' :: k < j < |es| ==> !BatteryAt(es[j], b')
  }

  ghost predicate LastPs(es: seq<Event>, k: nat, p: Ps) {
    && k < |es| && PsAt(es[k], p)
    && forall j, p' :: k < j < |es| ==> !PsAt(es[j], p')
  }

  lemma ElapsedExtends(es: seq<Event>, e: Event)
    ensures Elapsed(es + [e]) == Elapsed(es) + (if e.Tick? then e.elapsed else 0)
  {
    assert (es + [e])[..|es|] == es;
  }

  /** What one event does to a stored reading and its age. */
  lemma EventOnReadings(s: Store, e: Event)
    requires |s.history.cuts| == |s.history.samples| + 1
    ensures var s' := Apply(s, e);
            && (if e.UpdateBattery? && AcceptBattery(e.b).Some?
                then s'.latestBattery == AcceptBattery(e.b) && s'.batteryStale == Some(0)
                else s'.latestBattery == s.latestBattery &&
                     s'.batteryStale == if e.Tick? then Older(s.batteryStale, e.elapsed) else s.batteryStale)
            && (if e.UpdatePs? && AcceptPs(e.p).Some?
                then s'.latestPs == AcceptPs(e.p) && s'.psStale == Some(0)
                else s'.latestPs == s.latestPs &&
                     s'.psStale == if e.Tick? then Older(s.psStale, e.elapsed) else s.psStale)
  {
    hide Commit, RawAt;
  }

  /** The stored battery reading and its age, said of the whole history. */
  ghost predicate BatteryExplained(es: seq<Event>, k: nat, latest: Option<Battery>, stale: Staleness) {
    match latest
    case None => stale.None? && forall j, b :: 0 <= j < |es| ==> !BatteryAt(es[j], b)
    case Some(b) => LastBattery(es, k, b) && stale == Some(Elapsed(es[k + 1..]))
  }

  ghost predicate PsExplained(es: seq<Event>, k: nat, latest: Option<Ps>, stale: Staleness) {
    match latest
    case None => stale.None? && forall j, p :: 0 <= j < |es| ==> !PsAt(es[j], p)
    case Some(p) => LastPs(es, k, p) && stale == Some(Elapsed(es[k + 1..]))
  }

  lemma ElapsedAfter(es: seq<Event>, k: nat, e: Event)
    requires k < |es|
    ensures (es + [e])[k + 1..] == es[k + 1..] + [e]
    ensures Elapsed((es + [e])[k + 1..]) == Elapsed(es[k + 1..]) + (if e.Tick? then e.elapsed else 0)
  {
    assert (es + [e])[k + 1..] == es[k + 1..] + [e];
    ElapsedExtends(es[k + 1..], e);
  }

  lemma BatteryStays(es: seq<Event>, k: nat, latest: Option<Battery>, stale: Staleness, e: Event)
    requires BatteryExplained(es, k, latest, stale)
    requires e.UpdateBattery? ==> AcceptBattery(e.b).None?
    ensures BatteryExplained(es + [e], k, latest, if e.Tick? then Older(stale, e.elapsed) else stale)
  {
    hide Elapsed;
    if latest.Some? { ElapsedAfter(es, k, e); }
  }

  lemma BatteryArrives(es: seq<Event>, e: Event, x: Battery)
    requires BatteryAt(e, x)
    ensures BatteryExplained(es + [e], |es|, Some(x), Some(0))
  {
    assert (es + [e])[|es| + 1..] == [];
  }

  lemma {:induction false} BatteryIsLatest(es: seq<Event>) returns (k: nat)
    ensures BatteryExplained(es, k, After(es).latestBattery, After(es).batteryStale)
  {
    k := 0;
    if es != [] {
      var init, e := es[..|es| - 1], es[|es| - 1];
      hide Apply, BatteryExplained;
      k := BatteryIsLatest(init);
      EventOnReadings(After(init), e);
      assert es == init + [e];
      if e.UpdateBattery? && AcceptBattery(e.b).Some? {
        k := |init|;
        BatteryArrives(init, e, AcceptBattery(e.b).value);
      } else {
        BatteryStays(init, k, After(init).latestBattery, After(init).batteryStale, e);
      }
    } else {
      assert BatteryExplained([], k, None, None);
    }
  }

  lemma PsStays(es: seq<Event>, k: nat, latest: Option<Ps>, stale: Staleness, e: Event)
    requires PsExplained(es, k, latest, stale)
    requires e.UpdatePs? ==> AcceptPs(e.p).None?
    ensures PsExplained(es + [e], k, latest, if e.Tick? then Older(stale, e.elapsed) else stale)
  {
    hide Elapsed;
    if latest.Some? { ElapsedAfter(es, k, e); }
  }

  lemma PsArrives(es: seq<Event>, e: Event, x: Ps)
    requires PsAt(e, x)
    ensures PsExplained(es + [e], |es|, Some(x), Some(0))
  {
    assert (es + [e])[|es| + 1..] == [];
  }

  lemma {:induction false} PsIsLatest(es: seq<Event>) returns (k: nat)
    ensures PsExplained(es, k, After(es).latestPs, After(es).psStale)
  {
    k := 0;
    if es != [] {
      var init, e := es[..|es| - 1], es[|es| - 1];
      hide Apply, PsExplained;
      k := PsIsLatest(init);
      EventOnReadings(After(init), e);
      assert es == init + [e];
      if e.UpdatePs? && AcceptPs(e.p).Some? {
        k := |init|;
        PsArrives(init, e, AcceptPs(e.p).value);
      } else {
        PsStays(init, k, After(init).latestPs, After(init).psStale, e);
      }
    } else {
      assert PsExplained([], k, None, None);
    }
  }

  /** A battery reading is on offer exactly when a usable one was published, no
      later one replaced it, and no more than the window has been ticked since. */
  lemma BatteryReadingExactly(es: seq<Event>, b: Battery)
    ensures Fresh(After(es).latestBattery, After(es).batteryStale) == Some(b) <==>
              exists k :: LastBattery(es, k, b) && Elapsed(es[k + 1..]) <= STALE_WINDOW
  {
    var k := BatteryIsLatest(es);
    if k' :| LastBattery(es, k', b) && Elapsed(es[k' + 1..]) <= STALE_WINDOW {
      assert After(es).latestBattery.Some?;
      assert k == k';
    }
  }

  lemma PsReadingExactly(es: seq<Event>, p: Ps)
    ensures Fresh(After(es).latestPs, After(es).psStale) == Some(p) <==>
              exists k :: LastPs(es, k, p) && Elapsed(es[k + 1..]) <= STALE_WINDOW
  {
    var k := PsIsLatest(es);
    if k' :| LastPs(es, k', p) && Elapsed(es[k' + 1..]) <= STALE_WINDOW {
      assert After(es).latestPs.Some?;
      assert k == k';
    }
  }

  // -------------------------------------------------------- what a tick commits

  /** The battery reading on offer now, if there is one. */
  ghost predicate BatteryOffered(es: seq<Event>, b: Battery) {
    exists k :: LastBattery(es, k, b) && Elapsed(es[k + 1..]) <= STALE_WINDOW
  }

  ghost predicate PsOffered(es: seq<Event>, p: Ps) {
    exists k :: LastPs(es, k, p) && Elapsed(es[k + 1..]) <= STALE_WINDOW
  }

  /** The last event is a tick whose clock is past the last stored stamp. */
  predicate Commits(es: seq<Event>) {
    && es != [] && es[|es| - 1].Tick? && es[|es| - 1].now.Some?
    && var stored := After(es[..|es| - 1]).history.samples;
       stored != [] ==> es[|es| - 1].now.value > stored[|stored| - 1].timeS
  }

  /** A raw sample is what the readings on offer say, zero where there is none. */
  ghost predicate SampleOf(es: seq<Event>, x: Sample)
    requires Commits(es)
  {
    && x.timeS == es[|es| - 1].now.value
    && (forall b :: BatteryOffered(es, b) ==> x.voltage == b.voltage && x.batteryCurrent == b.current)
    && ((forall b :: !BatteryOffered(es, b)) ==> x.voltage == 0.0 && x.batteryCurrent == 0.0)
    && (forall p :: PsOffered(es, p) ==> x.psCurrent == p.current && x.powerOnline == if p.voltage > 2.0 then 1.0 else 0.0)
    && ((forall p :: !PsOffered(es, p)) ==> x.psCurrent == 0.0 && x.powerOnline == 0.0)
  }

  /** One sample for each committing tick, in order, and nothing else. */
  ghost predicate FedBy(es: seq<Event>, fed: seq<Sample>) {
    if es == [] then fed == []
    else if Commits(es) then fed != [] && SampleOf(es, fed[|fed| - 1]) && FedBy(es[..|es| - 1], fed[..|fed| - 1])
    else FedBy(es[..|es| - 1], fed)
  }

  lemma TickSamples(es: seq<Event>)
    requires Commits(es)
    ensures var s := After(es);
            SampleOf(es, RawAt(Fresh(s.latestBattery, s.batteryStale), Fresh(s.latestPs, s.psStale), es[|es| - 1].now.value))
  {
    hide After, LastBattery, LastPs, Elapsed;
    forall b ensures BatteryOffered(es, b) <==> Fresh(After(es).latestBattery, After(es).batteryStale) == Some(b) {
      BatteryReadingExactly(es, b);
    }
    forall p ensures PsOffered(es, p) <==> Fresh(After(es).latestPs, After(es).psStale) == Some(p) {
      PsReadingExactly(es, p);
    }
  }

  /** What one event feeds the history. */
  lemma EventFeeds(es: seq<Event>)
    requires es != []
    ensures var (s, s', e) := (After(es[..|es| - 1]), After(es), es[|es| - 1]);
            s'.history.fed ==
              if Commits(es)
              then s.history.fed + [RawAt(Fresh(s'.latestBattery, s'.batteryStale), Fresh(s'.latestPs, s'.psStale), e.now.value)]
              else s.history.fed
  {
    hide RawAt, Fresh, Apply;
    ApplyFeeds(After(es[..|es| - 1]), es[|es| - 1]);
  }

  lemma ApplyFeeds(s: Store, e: Event)
    requires |s.history.cuts| == |s.history.samples| + 1
    ensures var (s', h) := (Apply(s, e), s.history);
            s'.history.fed ==
              if e.Tick? && e.now.Some? && (h.samples == [] || e.now.value > h.samples[|h.samples| - 1].timeS)
              then h.fed + [RawAt(Fresh(s'.latestBattery, s'.batteryStale), Fresh(s'.latestPs, s'.psStale), e.now.value)]
              else h.fed
  {
    hide RawAt, Fresh, Commit;
    CommitFeeds(s.history);
  }

  lemma CommitFeeds(h: Hist)
    requires |h.cuts| == |h.samples| + 1
    ensures forall raw :: Commit(h, raw).fed == h.fed + [raw]
  {
    hide Average, Compacted;
  }

  /** Over every interleaving the history is fed exactly one sample for each tick
      whose clock is past the last stored stamp, stamped with it, made of the last
      usable readings published at most a window before. */
  lemma {:induction false} FedExactly(es: seq<Event>)
    ensures FedBy(es, After(es).history.fed)
  {
    hide Commits, SampleOf, RawAt, Fresh, Apply;
    if es != [] {
      FedExactly(es[..|es| - 1]);
      EventFeeds(es);
      if Commits(es) {
        TickSamples(es);
        var fed := After(es).history.fed;
        assert fed[..|fed| - 1] == After(es[..|es| - 1]).history.fed;
      }
    }
  }

  // -------------------------------------------------------------- the object

  lemma AfterExtends(es: seq<Event>, e: Event)
    ensures After(es + [e]) == Apply(After(es), e)
  {
    assert (es + [e])[..|es|] == es;
  }

  class SensorData {
    var latestBattery: Option<Battery>
    var latestPs: Option<Ps>
    var batteryStale: Staleness
    var psStale: Staleness
    const history: History
    ghost var events: seq<Event>

    ghost function View(): Store
      requires history.len <= history.buf.Length
      reads this, history, history.buf
    {
      Store(latestBattery, latestPs, batteryStale, psStale, history.View())
    }

    /** The fields are what the whole history of updates and ticks makes of them. */
    ghost predicate Valid()
      reads this, history, history.buf
    {
      history.Valid() && View() == After(events)
    }

    constructor ()
      ensures Valid() && events == [] && fresh(history) && fresh(history.buf)
    {
      latestBattery, latestPs := None, None;
      batteryStale, psStale := None, None;
      history := new History();
      events := [];
    }

    method PublishBattery(raw: RawBattery)
      requires Valid()
      modifies this
      ensures Valid() && events == old(events) + [UpdateBattery(raw)]
      ensures View() == Apply(old(View()), UpdateBattery(raw))
    {
      hide Inv, Commit, After;
      AfterExtends(events, UpdateBattery(raw));
      events := events + [UpdateBattery(raw)];
      var b := AcceptBattery(raw);
      if b.None? {
        return;
      }
      latestBattery, batteryStale := b, Some(0);
    }

    method PublishPs(raw: RawPs)
      requires Valid()
      modifies this
      ensures Valid() && events == old(events) + [UpdatePs(raw)]
      ensures View() == Apply(old(View()), UpdatePs(raw))
    {
      hide Inv, Commit, After;
      AfterExtends(events, UpdatePs(raw));
      events := events + [UpdatePs(raw)];
      var p := AcceptPs(raw);
      if p.None? {
        return;
      }
      latestPs, psStale := p, Some(0);
    }

    /** The last usable reading ever published, if no more than the window has
        been ticked since; otherwise nothing. */
    method BatteryReading() returns (b: Option<Battery>)
      requires Valid()
      ensures forall x :: b == Some(x) <==>
                exists k :: LastBattery(events, k, x) && Elapsed(events[k + 1..]) <= STALE_WINDOW
    {
      hide After, Elapsed;
      b := if batteryStale.None? || batteryStale.value > STALE_WINDOW then None else latestBattery;
      forall x ensures b == Some(x) <==>
                 exists k :: LastBattery(events, k, x) && Elapsed(events[k + 1..]) <= STALE_WINDOW {
        BatteryReadingExactly(events, x);
      }
    }

    method PsReading() returns (p: Option<Ps>)
      requires Valid()
      ensures forall x :: p == Some(x) <==>
                exists k :: LastPs(events, k, x) && Elapsed(events[k + 1..]) <= STALE_WINDOW
    {
      hide After, Elapsed;
      p := if psStale.None? || psStale.value > STALE_WINDOW then None else latestPs;
      forall x ensures p == Some(x) <==>
                 exists k :: LastPs(events, k, x) && Elapsed(events[k + 1..]) <= STALE_WINDOW {
        PsReadingExactly(events, x);
      }
    }

    method TickOnce(now: Option<nat>, elapsed: nat)
      requires Valid()
      modifies this, history, history.buf
      ensures Valid() && events == old(events) + [Tick(now, elapsed)]
      ensures View() == Apply(old(View()), Tick(now, elapsed))
    {
      hide Inv, Commit, Chronological, After, RawAt, Fresh;
      AfterExtends(events, Tick(now, elapsed));
      events := events + [Tick(now, elapsed)];
      batteryStale, psStale := Older(batteryStale, elapsed), Older(psStale, elapsed);
      if now.None? {
        return;
      }
      var last := history.LastTime();
      if last.Some? && now.value <= last.value {
        return;
      }
      history.CommitSample(RawAt(Fresh(latestBattery, batteryStale), Fresh(latestPs, psStale), now.value));
    }
  }
}
