/** Which raw samples every row of the history covers, and which rows are the exact
    mean of what they cover. */
module HistoryRows {
  import opened Timing
  import opened Histories

  // ------------------------------------------------------ where the rows begin

  /** Where row `k` begins at interval `i`, while no row has been dropped. */
  function CutAt(i: nat, k: nat): int
    requires IsRung(i)
  {
    if i == 1 then k
    else if k >= 103 then Rung(i) + i * (k - 103)
    else CutAt(i / 2, 2 * k)
  }

  /** Rows dropped after `n` raw samples. */
  function Dropped(n: nat): nat {
    if n < Rung(64) || 103 + (n - Rung(64)) / 64 <= HISTORY_CAPACITY then 0
    else 103 + (n - Rung(64)) / 64 - HISTORY_CAPACITY
  }

  ghost predicate CutsAre(h: Hist, n: nat) {
    && IsRung(h.interval) && |h.cuts| == |h.samples| + 1
    && forall k :: 0 <= k <= |h.samples| ==> h.cuts[k] == CutAt(h.interval, k + Dropped(n))
  }

  /** The last cut of a buffer that has just stored a row is where the stream ends. */
  lemma NewestCut(n: nat)
    requires PendingAt(n) == 0
    ensures IsRung(IntervalAt(n)) && LengthAt(n) + Dropped(n) >= 0
    ensures CutAt(IntervalAt(n), LengthAt(n) + Dropped(n)) == n
  {
    var i := IntervalAt(n);
    if i > 1 {
      var x := n - Rung(i);
      Whole(x, i);
      assert LengthAt(n) + Dropped(n) == 103 + x / i by { LengthAndDropped(n); }
    }
  }

  lemma Whole(x: int, i: nat)
    requires i > 0 && x % i == 0
    ensures i * (x / i) == x
  {
  }

  lemma LengthAndDropped(n: nat)
    ensures IntervalAt(n) > 1 ==> LengthAt(n) + Dropped(n) == 103 + (n - Rung(IntervalAt(n))) / IntervalAt(n)
  {
    if Rung(2) <= n < Rung(64) { CountersOnRung(n, IntervalAt(n)); LengthFits(n - Rung(IntervalAt(n)), IntervalAt(n)); }
  }

  lemma LengthFits(x: int, i: nat)
    requires i == 2 || i == 4 || i == 8 || i == 16 || i == 32
    requires 0 <= x < 102 * i
    ensures 103 + x / i <= HISTORY_CAPACITY
  {
    if i == 2 {
    } else if i == 4 {
    } else if i == 8 {
    } else if i == 16 {
    } else {
    }
  }

  /** A row is dropped exactly by a commit that stores one at the cap. */
  lemma DropsOne(n: nat)
    ensures Dropped(n + 1) ==
              if IntervalAt(n) == MAX_INTERVAL && LengthAt(n) == HISTORY_CAPACITY && PendingAt(n) + 1 == MAX_INTERVAL
              then Dropped(n) + 1 else Dropped(n)
  {
    if n >= Rung(64) { OneMore(n - Rung(64), 64); }
  }

  lemma CutsStep(h: Hist, raw: Sample)
    requires Inv(h) && CutsAre(h, |h.fed|) && Occupied(h, |h.fed|)
    ensures CutsAre(Commit(h, raw), |h.fed| + 1)
  {
    hide Inv, CutAt, Dropped, IntervalAt, LengthAt, PendingAt, Compacted, Average;
    var n := |h.fed|;
    var r := Commit(h, raw);
    CommitKeeps(h, raw);
    InvShape(h);
    InvShape(r);
    DropsOne(n);
    OccupancySteps(h, raw, n);
    if r.accCount == 0 {
      NewestCut(n + 1);
      StoredCuts(h, raw);
      if |h.samples| == HISTORY_CAPACITY && h.interval < MAX_INTERVAL {
        NoneDroppedYet(n);
        forall k | 0 <= k < |r.samples| ensures r.cuts[k] == CutAt(r.interval, k) { CutHalves(h.interval, k); }
      }
    } else {
      PendingCuts(h, raw);
    }
  }

  lemma PendingCuts(h: Hist, raw: Sample)
    requires |h.cuts| == |h.samples| + 1 && Commit(h, raw).accCount != 0
    ensures var r := Commit(h, raw);
            r.cuts == h.cuts && r.samples == h.samples && r.interval == h.interval && h.accCount + 1 < h.interval
  {
  }

  lemma NoneDroppedYet(n: nat)
    ensures IntervalAt(n) < MAX_INTERVAL ==> Dropped(n) == 0
  {
  }

  /** Compaction keeps every other cut. */
  lemma CutHalves(i: nat, k: nat)
    requires IsRung(i) && i < MAX_INTERVAL && k < 103
    ensures CutAt(2 * i, k) == CutAt(i, 2 * k)
  {
  }

  lemma InvShape(h: Hist)
    requires Inv(h)
    ensures IsRung(h.interval) && |h.cuts| == |h.samples| + 1 && |h.samples| <= HISTORY_CAPACITY
    ensures h.accCount < h.interval
  {
  }

  /** How a commit that stores a row moves the cuts. */
  lemma StoredCuts(h: Hist, raw: Sample)
    requires IsRung(h.interval) && |h.cuts| == |h.samples| + 1 && |h.samples| <= HISTORY_CAPACITY && h.accCount < h.interval
    requires Commit(h, raw).accCount == 0
    ensures var r := Commit(h, raw);
            && |r.cuts| == |r.samples| + 1
            && r.cuts[|r.samples|] == |h.fed| + 1
            && (if |h.samples| < HISTORY_CAPACITY then
                  r.interval == h.interval && |r.samples| == |h.samples| + 1
                  && forall k :: 0 <= k < |r.samples| ==> r.cuts[k] == h.cuts[k]
                else if h.interval < MAX_INTERVAL then
                  r.interval == 2 * h.interval && |r.samples| == 103
                  && forall k :: 0 <= k < |r.samples| ==> r.cuts[k] == h.cuts[2 * k]
                else
                  r.interval == h.interval && |r.samples| == HISTORY_CAPACITY && h.accCount + 1 == MAX_INTERVAL
                  && forall k :: 0 <= k < |r.samples| ==> r.cuts[k] == h.cuts[k + 1])
  {
    hide Compacted, Average;
  }

  /** Exactly which raw samples every row covers, whatever the samples are. */
  lemma {:induction false} CutsExactly(raws: seq<Sample>)
    ensures CutsAre(Feed(raws), |raws|)
  {
    if raws != [] {
      hide Commit, Inv, CutsAre, Occupied;
      var init := raws[..|raws| - 1];
      CutsExactly(init);
      EntriesStandForSpans(init);
      OccupancyIsExact(init);
      CutsStep(Feed(init), raws[|raws| - 1]);
    }
  }

  // ------------------------------------------------- what a row's newest sample weighs

  /** The row that a compaction made room for covers half of the new interval. */
  lemma RowAfterCompaction(i: nat)
    requires IsRung(i) && i > 1
    ensures CutAt(i, 103) == Rung(i) && Rung(i) - CutAt(i, 102) == i / 2
  {
    assert CutAt(i, 102) == CutAt(i / 2, 204);
    if i > 2 { assert CutAt(i / 2, 204) == Rung(i / 2) + i / 2 * 101; }
  }

  /** Every row covers at least half its interval, and only row 102, before any
      has been dropped, covers exactly half. */
  lemma {:induction false} HalfRows(i: nat, k: nat)
    requires IsRung(i)
    ensures var l := CutAt(i, k + 1) - CutAt(i, k);
            2 * l >= i && (2 * l == i <==> i > 1 && k == 102)
  {
    if i > 1 && k >= 103 {
      assert i * (k + 1 - 103) == i * (k - 103) + i;
    } else if i > 1 && k == 102 {
      RowAfterCompaction(i);
    } else if i > 1 {
      hide Rung;
      HalfRows(i / 2, 2 * k);
      HalfRows(i / 2, 2 * k + 1);
      assert CutAt(i, k) == CutAt(i / 2, 2 * k) && CutAt(i, k + 1) == CutAt(i / 2, 2 * k + 2);
    }
  }

  /** A stream of zeros with a single one, at `m`. */
  ghost predicate IsMarked(raws: seq<Sample>, m: nat) {
    forall j :: 0 <= j < |raws| ==> raws[j].voltage == if j == m then 1.0 else 0.0
  }

  lemma {:induction false} MarkedSum(s: seq<Sample>, at: int)
    requires forall j :: 0 <= j < |s| ==> s[j].voltage == if j == at then 1.0 else 0.0
    ensures Sum(s, Voltage) == if 0 <= at < |s| then 1.0 else 0.0
  {
    if s != [] { MarkedSum(s[..|s| - 1], at); }
  }

  lemma MarkedSlice(raws: seq<Sample>, from: nat, to: nat, m: nat)
    requires IsMarked(raws, m) && from <= m < to <= |raws|
    ensures Sum(raws[from..to], Voltage) == 1.0
  {
    MarkedSum(raws[from..to], m - from);
  }

  /** A row that does not cover the one holds nothing of it; a row whose newest
      sample is the one holds an interval's share of it, twice that in a row that
      covers half an interval. */
  ghost predicate Weighs(x: real, from: int, to: int, interval: nat, m: nat) {
    && (m < from || to <= m ==> x == 0.0)
    && (m + 1 == to ==> x * interval as real == if 2 * (to - from) == interval then 2.0 else 1.0)
  }

  ghost predicate RowsWeigh(h: Hist, m: nat) {
    && |h.cuts| == |h.samples| + 1
    && forall k :: 0 <= k < |h.samples| ==> Weighs(h.samples[k].voltage, h.cuts[k], h.cuts[k + 1], h.interval, m)
  }

  lemma MergedWeighs(x: real, y: real, from: int, mid: int, to: int, interval: nat, m: nat)
    requires Weighs(x, from, mid, interval, m) && Weighs(y, mid, to, interval, m) && from <= mid <= to
    requires 2 * (to - mid) != interval && to - from != interval
    ensures Weighs((x + y) / 2.0, from, to, 2 * interval, m)
  {
    if m + 1 == to {
      assert x == 0.0;
      assert (x + y) / 2.0 * (2 * interval) as real == y * interval as real;
    }
  }

  lemma MergedVoltage(a: Sample, b: Sample)
    ensures Merge(a, b).voltage == (a.voltage + b.voltage) / 2.0
  {
  }

  lemma AverageWeighs(h: Hist, raw: Sample, m: nat, interval: nat)
    requires Inv(h) && IsMarked(h.fed + [raw], m)
    requires interval == h.accCount + 1 || interval == 2 * (h.accCount + 1)
    ensures var n := |h.fed|;
            Weighs(Average(Add(h.acc, raw), h.accCount + 1, raw.timeS).voltage, n - h.accCount, n + 1, interval, m)
  {
    hide Add, StandsFor;
    var n := |h.fed|;
    AccumulateKeeps(h, raw);
    PendingSum(h, raw);
    MarkedSum((h.fed + [raw])[n - h.accCount..], m - (n - h.accCount));
    ShareWeighs(Add(h.acc, raw).voltage, h.accCount + 1, n - h.accCount, interval, m);
  }

  lemma PendingSum(h: Hist, raw: Sample)
    requires Inv(h)
    ensures h.accCount <= |h.fed|
    ensures Add(h.acc, raw).voltage == Sum((h.fed + [raw])[|h.fed| - h.accCount..], Voltage)
  {
    hide Sum, StandsFor;
    AccumExtends(h.acc, Pending(h), raw);
    assert Pending(h) + [raw] == (h.fed + [raw])[|h.fed| - h.accCount..];
  }

  lemma ShareWeighs(sum: real, c: nat, from: nat, interval: nat, m: nat)
    requires c > 0 && (interval == c || interval == 2 * c)
    requires sum == if from <= m < from + c then 1.0 else 0.0
    ensures Weighs(sum / c as real, from, from + c, interval, m)
  {
    var x := sum / c as real;
    Divides(sum, c);
    assert x * c as real == sum;
    if interval == 2 * c {
      assert interval as real == 2.0 * c as real;
      assert x * interval as real == 2.0 * (x * c as real);
    }
    if sum == 0.0 { assert x == 0.0; }
  }

  /** What a commit that stores a row does to the rows. */
  lemma StoredRows(h: Hist, raw: Sample)
    requires |h.cuts| == |h.samples| + 1 && |h.samples| <= HISTORY_CAPACITY && Commit(h, raw).accCount == 0
    ensures var r := Commit(h, raw);
            && |r.samples| > 0
            && r.samples[|r.samples| - 1] == Average(Add(h.acc, raw), h.accCount + 1, raw.timeS)
            && (if |h.samples| < HISTORY_CAPACITY then
                  |r.samples| == |h.samples| + 1 && forall k :: 0 <= k < |h.samples| ==> r.samples[k] == h.samples[k]
                else if h.interval < MAX_INTERVAL then
                  |r.samples| == 103 &&
                  forall k :: 0 <= k < 102 ==> r.samples[k] == Merge(h.samples[2 * k], h.samples[2 * k + 1])
                else
                  |r.samples| == HISTORY_CAPACITY && forall k :: 0 <= k < |r.samples| - 1 ==> r.samples[k] == h.samples[k + 1])
  {
    hide Average, Merge;
  }

  lemma WeighsStep(h: Hist, raw: Sample, m: nat)
    requires Inv(h) && CutsAre(h, |h.fed|) && Occupied(h, |h.fed|)
    requires RowsWeigh(h, m) && IsMarked(h.fed + [raw], m)
    ensures RowsWeigh(Commit(h, raw), m)
  {
    hide Inv, CutAt, Dropped, Average, Merge, Weighs, IntervalAt, LengthAt, PendingAt, IsMarked, Commit;
    var r := Commit(h, raw);
    InvShape(h);
    CommitKeeps(h, raw);
    InvShape(r);
    if r.accCount != 0 {
      PendingCuts(h, raw);
    } else {
      StoredRows(h, raw);
      StoredCuts(h, raw);
      StoredAll(h, raw);
      EndsWithPending(h);
      AverageWeighs(h, raw, m, r.interval);
      if |h.samples| == HISTORY_CAPACITY && h.interval < MAX_INTERVAL {
        NoneDroppedYet(|h.fed|);
        CutsStep(h, raw);
        forall k | 0 <= k < 102 ensures Weighs(r.samples[k].voltage, r.cuts[k], r.cuts[k + 1], r.interval, m) {
          CompactedWeighs(h, r, k, m);
        }
      }
    }
  }

  /** A row is stored when a whole interval has come in. */
  lemma StoredAll(h: Hist, raw: Sample)
    requires |h.cuts| == |h.samples| + 1 && h.accCount < h.interval && Commit(h, raw).accCount == 0
    ensures h.accCount + 1 == h.interval
  {
  }

  lemma EndsWithPending(h: Hist)
    requires Inv(h)
    ensures |h.cuts| == |h.samples| + 1 && h.cuts[|h.samples|] + h.accCount == |h.fed|
    ensures forall j, k :: 0 <= j <= k <= |h.samples| ==> h.cuts[j] <= h.cuts[k]
  {
  }

  lemma CompactedWeighs(h: Hist, r: Hist, k: nat, m: nat)
    requires IsRung(h.interval) && h.interval < MAX_INTERVAL && |h.samples| == HISTORY_CAPACITY && k < 102
    requires |h.cuts| == |h.samples| + 1 && |r.cuts| == |r.samples| + 1 && |r.samples| == 103
    requires h.cuts[2 * k] == CutAt(h.interval, 2 * k) && h.cuts[2 * k + 1] == CutAt(h.interval, 2 * k + 1)
    requires h.cuts[2 * k + 2] == CutAt(h.interval, 2 * k + 2)
    requires h.cuts[2 * k] <= h.cuts[2 * k + 1] <= h.cuts[2 * k + 2]
    requires r.cuts[k] == h.cuts[2 * k] && r.cuts[k + 1] == h.cuts[2 * k + 2] && r.interval == 2 * h.interval
    requires r.samples[k] == Merge(h.samples[2 * k], h.samples[2 * k + 1])
    requires RowsWeigh(h, m)
    ensures Weighs(r.samples[k].voltage, r.cuts[k], r.cuts[k + 1], r.interval, m)
  {
    hide CutAt, Merge, Weighs;
    MergedVoltage(h.samples[2 * k], h.samples[2 * k + 1]);
    HalfRows(h.interval, 2 * k + 1);
    HalfRows(2 * h.interval, k);
    CutHalves(h.interval, k);
    CutHalves(h.interval, k + 1);
    assert Weighs(h.samples[2 * k].voltage, h.cuts[2 * k], h.cuts[2 * k + 1], h.interval, m);
    assert Weighs(h.samples[2 * k + 1].voltage, h.cuts[2 * k + 1], h.cuts[2 * k + 2], h.interval, m);
    MergedWeighs(h.samples[2 * k].voltage, h.samples[2 * k + 1].voltage,
                 h.cuts[2 * k], h.cuts[2 * k + 1], h.cuts[2 * k + 2], h.interval, m);
  }

  lemma {:induction false} RowsWeighTheMark(raws: seq<Sample>, m: nat)
    requires IsMarked(raws, m)
    ensures RowsWeigh(Feed(raws), m)
  {
    if raws != [] {
      hide Commit, Inv, CutsAre, Occupied, RowsWeigh;
      var init, raw := raws[..|raws| - 1], raws[|raws| - 1];
      assert init + [raw] == raws;
      RowsWeighTheMark(init, m);
      CutsExactly(init);
      EntriesStandForSpans(init);
      OccupancyIsExact(init);
      WeighsStep(Feed(init), raw, m);
    }
  }

  // --------------------------------------------------- which rows are exact means

  /** Row `k` of this stream's history is there, and is the exact mean of the raw
      samples it covers. */
  ghost predicate RowIsMean(raws: seq<Sample>, k: nat) {
    var h := Feed(raws);
    Partitions(h) && k < |h.samples| && IsMean(h.samples[k], Span(h, k))
  }

  function MarkedStream(n: nat, m: nat): (raws: seq<Sample>)
    ensures |raws| == n && IsMarked(raws, m)
  {
    seq(n, j requires 0 <= j < n => Sample(j, if j == m then 1.0 else 0.0, 0.0, 0.0, 0.0))
  }

  /** How many raw samples row `k` covers after `n` of them. */
  function RowLength(n: nat, k: nat): int {
    IntervalIsRung(n);
    CutAt(IntervalAt(n), k + 1 + Dropped(n)) - CutAt(IntervalAt(n), k + Dropped(n))
  }

  lemma IntervalIsRung(n: nat)
    ensures IsRung(IntervalAt(n))
  {
  }

  lemma RowLengthIsSpan(raws: seq<Sample>, k: nat)
    requires k < LengthAt(|raws|)
    ensures Partitions(Feed(raws)) && k < |Feed(raws).samples|
    ensures |Span(Feed(raws), k)| == RowLength(|raws|, k) > 0
    ensures StandsFor(Feed(raws).samples[k], Span(Feed(raws), k), IntervalAt(|raws|))
  {
    hide CutAt, Dropped, IntervalAt, LengthAt, PendingAt, StandsFor, Inv, Partitions, Feed;
    CutsExactly(raws);
    EntriesStandForSpans(raws);
    OccupancyIsExact(raws);
    var h := Feed(raws);
    assert h.cuts[k + 1] == CutAt(h.interval, k + 1 + Dropped(|raws|));
    SpanIsPositive(h, k);
  }

  lemma SpanIsPositive(h: Hist, k: nat)
    requires Inv(h) && k < |h.samples|
    ensures Partitions(h) && |h.cuts| == |h.samples| + 1
    ensures |Span(h, k)| == h.cuts[k + 1] - h.cuts[k] > 0
    ensures StandsFor(h.samples[k], Span(h, k), h.interval)
  {
    assert StandsFor(h.samples[k], Span(h, k), h.interval);
  }

  /** Row `k` is the exact mean of what it covers for every stream of `n` samples if
      and only if it covers a whole interval or exactly half of one. For any other
      row the stream whose one is that row's newest sample shows the difference. */
  lemma RowsAreMeansExactly(n: nat, k: nat)
    requires k < LengthAt(n)
    ensures (RowLength(n, k) == IntervalAt(n) || 2 * RowLength(n, k) == IntervalAt(n)) <==>
              forall raws :: |raws| == n ==> RowIsMean(raws, k)
  {
    hide RowLength, IntervalAt, LengthAt, Feed, IsMean, CutAt;
    if RowLength(n, k) == IntervalAt(n) || 2 * RowLength(n, k) == IntervalAt(n) {
      forall raws | |raws| == n ensures RowIsMean(raws, k) { RowLengthIsSpan(raws, k); }
    } else {
      RowIsNotMean(n, k);
    }
  }

  function NewestOf(n: nat, k: nat): int {
    IntervalIsRung(n);
    CutAt(IntervalAt(n), k + 1 + Dropped(n)) - 1
  }

  lemma NewestIsInRow(raws: seq<Sample>, k: nat)
    requires k < LengthAt(|raws|)
    ensures var h := Feed(raws);
            && Partitions(h) && k < |h.samples| && h.fed == raws && h.interval == IntervalAt(|raws|)
            && h.cuts[k] <= NewestOf(|raws|, k) && h.cuts[k + 1] == NewestOf(|raws|, k) + 1 <= |raws|
            && Span(h, k) == raws[h.cuts[k]..h.cuts[k + 1]] && |Span(h, k)| == RowLength(|raws|, k)
  {
    hide CutAt, Dropped, IntervalAt, LengthAt, PendingAt, StandsFor, Feed, Inv;
    CutsExactly(raws);
    RowLengthIsSpan(raws, k);
    OccupancyIsExact(raws);
    EntriesStandForSpans(raws);
  }

  lemma RowIsNotMean(n: nat, k: nat)
    requires k < LengthAt(n) && RowLength(n, k) != IntervalAt(n) && 2 * RowLength(n, k) != IntervalAt(n)
    ensures NewestOf(n, k) >= 0
    ensures var h := Feed(MarkedStream(n, NewestOf(n, k)));
            && Partitions(h) && k < |h.samples|
            && h.samples[k].voltage * IntervalAt(n) as real == 1.0
            && Sum(Span(h, k), Voltage) == 1.0
    ensures !RowIsMean(MarkedStream(n, NewestOf(n, k)), k)
  {
    hide CutAt, Dropped, IntervalAt, LengthAt, Feed, Partitions, RowLength, NewestOf, MarkedStream, Sum;
    NewestIsInRow(MarkedStream(n, 0), k);
    var m := NewestOf(n, k);
    var raws := MarkedStream(n, m);
    var h := Feed(raws);
    NewestIsInRow(raws, k);
    RowsWeighTheMark(raws, m);
    assert Weighs(h.samples[k].voltage, h.cuts[k], h.cuts[k + 1], h.interval, m);
    var span := Span(h, k);
    MarkedSlice(raws, h.cuts[k], h.cuts[k + 1], m);
    if IsMean(h.samples[k], span) {
      assert IsMeanOf(Get(h.samples[k], Voltage), span, Voltage);
      Cancel(h.samples[k].voltage, |span|, h.interval);
    }
  }

  lemma Cancel(x: real, a: nat, b: nat)
    requires x * a as real == 1.0 && x * b as real == 1.0
    ensures a == b
  {
    assert x * (a as real - b as real) == 0.0;
  }

  /** Such rows exist: after 409 samples row 51 covers three, from 204 on. Of a one
      in the third it holds a quarter, where the mean is a third. */
  lemma RowFiftyOneIsNotAMean()
    ensures 51 < LengthAt(409) && IntervalAt(409) == 4 && RowLength(409, 51) == 3 && NewestOf(409, 51) == 206
    ensures var h := Feed(MarkedStream(409, 206));
            && Partitions(h) && 51 < |h.samples|
            && h.cuts[51] == 204 && h.cuts[52] == 207
            && h.samples[51].voltage == 0.25 && Sum(Span(h, 51), Voltage) == 1.0
    ensures !RowIsMean(MarkedStream(409, 206), 51)
  {
    assert CutAt(4, 51) == CutAt(2, 102) == CutAt(1, 204) == 204;
    assert CutAt(4, 52) == CutAt(2, 104) == 207;
    hide Feed;
    RowIsNotMean(409, 51);
    CutsExactly(MarkedStream(409, 206));
    OccupancyIsExact(MarkedStream(409, 206));
  }

  // ------------------------------------------------------------ how far back it reaches

  lemma Halved(h: nat, k: nat)
    ensures h * (2 * k) == 2 * h * k
  {
  }

  lemma Split(i: nat, k: nat)
    requires k >= 103
    ensures i * k == i * 103 + i * (k - 103) && i * (k - 103) >= 0
  {
  }

  lemma {:induction false} CutIsWithin(i: nat, k: nat)
    requires IsRung(i)
    ensures 0 <= CutAt(i, k) <= i * k
  {
    hide Rung;
    if i > 1 && k < 103 {
      CutIsWithin(i / 2, 2 * k);
      Halved(i / 2, k);
    } else if i > 1 {
      RungIsEarly(i);
      Split(i, k);
    }
  }

  lemma RungIsEarly(i: nat)
    requires IsRung(i) && i > 1
    ensures 0 <= Rung(i) <= i * 103
  {
  }

  /** Once a row has been dropped, the rows still cover two hundred whole intervals. */
  lemma DroppedReachesBack(n: nat)
    requires Dropped(n) > 0
    ensures CutAt(64, Dropped(n)) <= n - 200 * 64
  {
    var d := Dropped(n);
    assert (n - Rung(64)) / 64 == d + 101;
    assert n >= Rung(64) + 64 * (d + 101);
    CutIsWithin(64, d);
  }

  /** At one sample a second the rows always reach back over a whole `MAX_ABSORB`:
      once that many samples have come in, the first row begins no later. */
  lemma ReachesBackOverAnAbsorb(raws: seq<Sample>)
    requires |raws| >= MAX_ABSORB / SECOND
    ensures var h := Feed(raws); |h.cuts| > 0 && h.cuts[0] <= |raws| - MAX_ABSORB / SECOND
  {
    var n := |raws|;
    CutsExactly(raws);
    OccupancyIsExact(raws);
    hide Feed, CutAt;
    if Dropped(n) > 0 {
      DroppedReachesBack(n);
    } else {
      CutIsWithin(IntervalAt(n), 0);
    }
  }
}
