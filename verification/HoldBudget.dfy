/** The rate limit on self-clearing protections (`hold_budget.rs`). */
module HoldBudgets {
  import opened Timing

  datatype HoldEvent = Recorded | Quiet(dt: nat)

  datatype HoldCount = HoldCount(holds: nat, sinceLast: nat)

  const NO_HOLDS := HoldCount(0, 0)

  /** `u8::saturating_add(1)`. */
  function SaturatingIncrement(n: nat): nat {
    if n >= U8_MAX then U8_MAX else n + 1
  }

  function Record(h: HoldCount): HoldCount {
    HoldCount(SaturatingIncrement(h.holds), 0)
  }

  function Age(h: HoldCount, dt: nat): HoldCount {
    HoldCount(if h.sinceLast + dt > FLAP_WINDOW then 0 else h.holds, h.sinceLast + dt)
  }

  predicate OverBudget(h: HoldCount) {
    h.holds > MAX_HOLDS
  }

  function Advance(h: HoldCount, e: HoldEvent): HoldCount {
    match e
    case Recorded => Record(h)
    case Quiet(dt) => Age(h, dt)
  }

  function Fold(es: seq<HoldEvent>): HoldCount {
    if es == [] then NO_HOLDS else Advance(Fold(es[..|es| - 1]), es[|es| - 1])
  }

  /** For every recorded hold, in order, the time charged between it and the
      next hold, or between it and now for the last one. */
  function Gaps(es: seq<HoldEvent>): seq<nat> {
    if es == [] then []
    else
      var before := Gaps(es[..|es| - 1]);
      match es[|es| - 1]
      case Recorded => before + [0]
      case Quiet(dt) =>
        if before == [] then [] else before[..|before| - 1] + [before[|before| - 1] + dt]
  }

  /** The last five holds exist, and neither a gap between two neighbours nor the
      gap from the last one to now exceeds five minutes. */
  ghost predicate Flapping(es: seq<HoldEvent>) {
    var gs := Gaps(es);
    && 5 <= |gs|
    && forall i :: |gs| - 5 <= i < |gs| ==> gs[i] <= 5 * 60 * SECOND
  }

  /** How many holds at the end of the list are chained by short gaps. */
  function ChainLength(gs: seq<nat>): (n: nat)
    ensures n <= |gs|
    ensures forall i :: |gs| - n <= i < |gs| ==> gs[i] <= FLAP_WINDOW
    ensures n < |gs| ==> gs[|gs| - n - 1] > FLAP_WINDOW
  {
    if gs == [] || gs[|gs| - 1] > FLAP_WINDOW then 0 else 1 + ChainLength(gs[..|gs| - 1])
  }

  /** The fold's two counters, said in terms of the gaps. */
  ghost predicate Counts(h: HoldCount, gs: seq<nat>) {
    && h.holds == (if ChainLength(gs) <= U8_MAX then ChainLength(gs) else U8_MAX)
    && (gs != [] ==> h.sinceLast == gs[|gs| - 1])
  }

  lemma RecordCounts(h: HoldCount, gs: seq<nat>)
    requires Counts(h, gs)
    ensures Counts(Record(h), gs + [0])
  {
    assert (gs + [0])[..|gs|] == gs;
    assert ChainLength(gs + [0]) == 1 + ChainLength(gs);
  }

  lemma AgeCounts(h: HoldCount, gs: seq<nat>, dt: nat)
    requires Counts(h, gs) && gs != []
    ensures Counts(Age(h, dt), gs[..|gs| - 1] + [gs[|gs| - 1] + dt])
  {
    var older := gs[..|gs| - 1];
    var aged := older + [gs[|gs| - 1] + dt];
    assert aged[..|aged| - 1] == older && aged[|aged| - 1] == gs[|gs| - 1] + dt;
    hide Gaps, Fold;
    if gs[|gs| - 1] + dt <= FLAP_WINDOW {
      assert ChainLength(aged) == 1 + ChainLength(older) == ChainLength(gs);
    } else {
      assert ChainLength(aged) == 0;
    }
  }

  lemma {:induction false} FoldCountsTheChain(es: seq<HoldEvent>)
    ensures Counts(Fold(es), Gaps(es))
  {
    if es != [] {
      var before := es[..|es| - 1];
      FoldCountsTheChain(before);
      match es[|es| - 1]
      case Recorded => RecordCounts(Fold(before), Gaps(before));
      case Quiet(dt) => if Gaps(before) != [] { AgeCounts(Fold(before), Gaps(before), dt); }
    }
  }

  /** The two counters answer the question about the whole history. */
  lemma OverBudgetIsFlapping(es: seq<HoldEvent>)
    ensures OverBudget(Fold(es)) <==> Flapping(es)
  {
    FoldCountsTheChain(es);
  }

  // --------------------------------------------- how many holds time allows

  function QuietTime(es: seq<HoldEvent>): nat {
    if es == [] then 0
    else QuietTime(es[..|es| - 1]) + (if es[|es| - 1].Quiet? then es[|es| - 1].dt else 0)
  }

  function Sum(gs: seq<nat>): nat {
    if gs == [] then 0 else Sum(gs[..|gs| - 1]) + gs[|gs| - 1]
  }

  /** The budget was asked after every hold, and never found a flap. */
  ghost predicate Tolerated(es: seq<HoldEvent>) {
    es == [] ||
    (&& Tolerated(es[..|es| - 1])
     && match es[|es| - 1]
        case Recorded => |es| == 1 || es[|es| - 2].Quiet?
        case Quiet(_) => !Flapping(es))
  }

  ghost predicate LongGapWithin(gs: seq<nat>, i: nat)
    requires i + MAX_HOLDS < |gs|
  {
    exists j :: i <= j <= i + MAX_HOLDS && gs[j] > FLAP_WINDOW
  }

  /** Any `MAX_HOLDS + 1` neighbours among the first `n` gaps include a long one. */
  ghost predicate Spaced(gs: seq<nat>, n: nat)
    requires n <= |gs|
  {
    forall i :: 0 <= i && i + MAX_HOLDS < n ==> LongGapWithin(gs, i)
  }

  /** The gaps that have been judged: all but that of a hold just recorded. */
  ghost function Judged(es: seq<HoldEvent>): (n: nat)
    ensures n <= |Gaps(es)|
  {
    if es != [] && es[|es| - 1].Recorded? then |Gaps(es)| - 1 else |Gaps(es)|
  }

  lemma RecordSpaces(gs: seq<nat>)
    requires Spaced(gs, |gs|)
    ensures Spaced(gs + [0], |gs|) && Sum(gs + [0]) == Sum(gs)
  {
    assert (gs + [0])[..|gs|] == gs;
    forall i | 0 <= i && i + MAX_HOLDS < |gs| ensures LongGapWithin(gs + [0], i) {
      assert LongGapWithin(gs, i);
      var j :| i <= j <= i + MAX_HOLDS && gs[j] > FLAP_WINDOW;
      assert (gs + [0])[j] > FLAP_WINDOW;
    }
  }

  lemma AgeSpaces(gs: seq<nat>, dt: nat, aged: seq<nat>)
    requires gs != [] && Spaced(gs, |gs| - 1)
    requires aged == gs[..|gs| - 1] + [gs[|gs| - 1] + dt]
    requires MAX_HOLDS < |aged| ==> LongGapWithin(aged, |aged| - MAX_HOLDS - 1)
    ensures Spaced(aged, |aged|) && Sum(aged) == Sum(gs) + dt
  {
    assert aged[..|aged| - 1] == gs[..|gs| - 1];
    forall i | 0 <= i && i + MAX_HOLDS < |aged| ensures LongGapWithin(aged, i) {
      if i + MAX_HOLDS < |aged| - 1 {
        assert LongGapWithin(gs, i);
        var j :| i <= j <= i + MAX_HOLDS && gs[j] > FLAP_WINDOW;
        assert aged[j] > FLAP_WINDOW;
      }
    }
  }

  lemma {:induction false} ToleratedIsSpaced(es: seq<HoldEvent>)
    requires Tolerated(es)
    ensures Spaced(Gaps(es), Judged(es))
    ensures Sum(Gaps(es)) <= QuietTime(es)
  {
    if es != [] {
      hide Spaced, Sum, LongGapWithin;
      var init := es[..|es| - 1];
      ToleratedIsSpaced(init);
      match es[|es| - 1]
      case Recorded =>
        if init == [] { assert Spaced([], 0) && Sum([]) == 0 by { NothingSpaced(); } }
        RecordSpaces(Gaps(init));
      case Quiet(dt) =>
        if Gaps(init) != [] {
          FewerSpaced(Gaps(init), Judged(init));
          NotFlappingHasLongGap(es);
          AgeSpaces(Gaps(init), dt, Gaps(es));
        }
    } else {
      NothingSpaced();
    }
  }

  lemma NothingSpaced()
    ensures Spaced([], 0) && Sum([]) == 0
  {
  }

  lemma FewerSpaced(gs: seq<nat>, n: nat)
    requires gs != [] && |gs| - 1 <= n <= |gs| && Spaced(gs, n)
    ensures Spaced(gs, |gs| - 1)
  {
  }

  lemma NotFlappingHasLongGap(es: seq<HoldEvent>)
    requires !Flapping(es)
    ensures MAX_HOLDS < |Gaps(es)| ==> LongGapWithin(Gaps(es), |Gaps(es)| - MAX_HOLDS - 1)
  {
  }

  lemma {:induction false} SumSplits(gs: seq<nat>, k: nat)
    requires k <= |gs|
    ensures Sum(gs) == Sum(gs[..k]) + Sum(gs[k..])
  {
    if k == |gs| {
      assert gs[..k] == gs;
    } else {
      SumSplits(gs[..|gs| - 1], k);
      assert gs[..|gs| - 1][..k] == gs[..k];
      assert gs[k..][..|gs[k..]| - 1] == gs[..|gs| - 1][k..];
    }
  }

  lemma {:induction false} SumHolds(gs: seq<nat>, j: nat)
    requires j < |gs|
    ensures Sum(gs) >= gs[j]
  {
    if j < |gs| - 1 { SumHolds(gs[..|gs| - 1], j); }
  }

  /** Every `MAX_HOLDS + 1` spaced gaps take up at least one whole window. */
  lemma {:induction false} SpacedTakesTime(gs: seq<nat>)
    requires Spaced(gs, |gs|)
    ensures |gs| / (MAX_HOLDS + 1) * FLAP_WINDOW <= Sum(gs)
  {
    if |gs| > MAX_HOLDS {
      hide Sum, LongGapWithin;
      var k := |gs| - MAX_HOLDS - 1;
      var early, late := gs[..k], gs[k..];
      forall i | 0 <= i && i + MAX_HOLDS < |early| ensures LongGapWithin(early, i) {
        LongGapEarlier(gs, k, i);
      }
      SpacedTakesTime(early);
      LongGapTakesTime(gs, k);
      SumSplits(gs, k);
      assert |gs| / (MAX_HOLDS + 1) == |early| / (MAX_HOLDS + 1) + 1;
    }
  }

  lemma LongGapEarlier(gs: seq<nat>, k: nat, i: nat)
    requires i + MAX_HOLDS < k <= |gs| && LongGapWithin(gs, i)
    ensures LongGapWithin(gs[..k], i)
  {
    var j :| i <= j <= i + MAX_HOLDS && gs[j] > FLAP_WINDOW;
    assert gs[..k][j] > FLAP_WINDOW;
  }

  lemma LongGapTakesTime(gs: seq<nat>, k: nat)
    requires k + MAX_HOLDS < |gs| && LongGapWithin(gs, k)
    ensures Sum(gs[k..]) > FLAP_WINDOW
  {
    hide Sum;
    var j :| k <= j <= k + MAX_HOLDS && gs[j] > FLAP_WINDOW;
    SumHolds(gs[k..], j - k);
  }

  /** A history that was never a flap has room for only so many holds. */
  lemma ToleratedHoldsTakeTime(es: seq<HoldEvent>)
    requires Tolerated(es) && (es == [] || es[|es| - 1].Quiet?)
    ensures |Gaps(es)| / (MAX_HOLDS + 1) * FLAP_WINDOW <= QuietTime(es)
  {
    ToleratedIsSpaced(es);
    SpacedTakesTime(Gaps(es));
  }

  class HoldBudget {
    var holds: nat
    var sinceLast: nat
    ghost var events: seq<HoldEvent>

    ghost predicate Valid()
      reads this
    {
      HoldCount(holds, sinceLast) == Fold(events)
    }

    ghost function Count(): HoldCount
      reads this
    {
      HoldCount(holds, sinceLast)
    }

    constructor ()
      ensures Valid() && events == [] && Count() == NO_HOLDS
    {
      holds, sinceLast := 0, 0;
      events := [];
    }

    /** Count a hold the machine has just entered. */
    method RecordHold()
      requires Valid()
      modifies this
      ensures Valid() && events == old(events) + [Recorded]
      ensures Count() == Record(old(Count()))
    {
      holds := if holds >= U8_MAX then U8_MAX else holds + 1;
      sinceLast := 0;
      events := events + [Recorded];
      assert events[..|events| - 1] == old(events);
    }

    /** Advance the quiet timer; answers whether the whole history of holds is
        a flap, which is what the counters stand for. */
    method Step(dt: nat) returns (over: bool)
      requires Valid()
      modifies this
      ensures Valid() && events == old(events) + [Quiet(dt)]
      ensures Count() == Age(old(Count()), dt)
      ensures over <==> Flapping(events)
      ensures over <==> OverBudget(Count())
    {
      sinceLast := sinceLast + dt;
      if sinceLast > FLAP_WINDOW {
        holds := 0;
      }
      over := holds > MAX_HOLDS;
      events := events + [Quiet(dt)];
      assert events[..|events| - 1] == old(events);
      OverBudgetIsFlapping(events);
    }
  }
}
