/** The adaptive-resolution history (`data/history/mod.rs`): averaged samples in
    a fixed buffer whose interval doubles until it slides. */
module Histories {
  import opened Wrappers

  const HISTORY_CAPACITY: nat := 204
  const MAX_INTERVAL: nat := 64

  datatype Sample = Sample(timeS: nat, voltage: real, batteryCurrent: real, psCurrent: real, powerOnline: real)

  datatype Field = Voltage | BatteryCurrent | PsCurrent | PowerOnline

  function Get(s: Sample, f: Field): real {
    match f
    case Voltage => s.voltage
    case BatteryCurrent => s.batteryCurrent
    case PsCurrent => s.psCurrent
    case PowerOnline => s.powerOnline
  }

  datatype Accum = Accum(voltage: real, batteryCurrent: real, psCurrent: real, powerOnline: real)

  const EMPTY := Accum(0.0, 0.0, 0.0, 0.0)

  function Add(a: Accum, s: Sample): Accum {
    Accum(a.voltage + s.voltage, a.batteryCurrent + s.batteryCurrent, a.psCurrent + s.psCurrent, a.powerOnline + s.powerOnline)
  }

  /** The mean of the `n` samples added so far. */
  function Average(a: Accum, n: nat, timeS: nat): Sample
    requires n > 0
  {
    var d := n as real;
    Sample(timeS, a.voltage / d, a.batteryCurrent / d, a.psCurrent / d, a.powerOnline / d)
  }

  function Merge(a: Sample, b: Sample): Sample {
    Average(Add(Add(EMPTY, a), b), 2, b.timeS)
  }

  function MergedAt(s: seq<Sample>, i: nat): Sample
    requires i < |s| / 2
  {
    Merge(s[2 * i], s[2 * i + 1])
  }

  /** Adjacent pairs averaged, each stamped like its later half. */
  function Compacted(s: seq<Sample>): (r: seq<Sample>)
    ensures |r| == |s| / 2
  {
    seq(|s| / 2, i requires 0 <= i < |s| / 2 => MergedAt(s, i))
  }

  lemma MergedFrom(s: seq<Sample>, i: nat, a: Sample, b: Sample)
    requires i < |s| / 2 && s[2 * i] == a && s[2 * i + 1] == b
    ensures MergedAt(s, i) == Merge(a, b)
  {
  }

  /** The buffer and its counters, with two history variables: every raw sample
      fed in, and where in that stream the stored entries begin and end. Entry
      `k` stands for the raw samples from `cuts[k]` up to `cuts[k + 1]`. */
  datatype Hist = Hist(
    samples: seq<Sample>, interval: nat, acc: Accum, accCount: nat,
    fed: seq<Sample>, cuts: seq<nat>)

  const NEW := Hist([], 1, EMPTY, 0, [], [0])

  function MakeRoom(h: Hist): Hist
    requires |h.cuts| == |h.samples| + 1
  {
    if |h.samples| < HISTORY_CAPACITY then h
    else if h.interval < MAX_INTERVAL then
      h.(samples := Compacted(h.samples), interval := h.interval * 2,
         cuts := seq(|h.samples| / 2 + 1, i requires 0 <= i <= |h.samples| / 2 => h.cuts[2 * i]))
    else h.(samples := h.samples[1..], cuts := h.cuts[1..])
  }

  function Accumulate(h: Hist, raw: Sample): Hist {
    h.(acc := Add(h.acc, raw), accCount := h.accCount + 1, fed := h.fed + [raw])
  }

  function Store(h: Hist, row: Sample): Hist {
    h.(acc := EMPTY, accCount := 0, samples := h.samples + [row], cuts := h.cuts + [|h.fed|])
  }

  /** Accumulate; when a whole interval has come in, make room and store its mean. */
  function Commit(h: Hist, raw: Sample): Hist
    requires |h.cuts| == |h.samples| + 1
    ensures |Commit(h, raw).cuts| == |Commit(h, raw).samples| + 1
  {
    var full := Accumulate(h, raw);
    if full.accCount < h.interval then full
    else Store(MakeRoom(full), Average(full.acc, full.accCount, raw.timeS))
  }

  function Feed(raws: seq<Sample>): (h: Hist)
    ensures |h.cuts| == |h.samples| + 1
  {
    if raws == [] then NEW else Commit(Feed(raws[..|raws| - 1]), raws[|raws| - 1])
  }

  // -------------------------------------------------- what an entry stands for

  function Sum(s: seq<Sample>, f: Field): real {
    if s == [] then 0.0 else Sum(s[..|s| - 1], f) + Get(s[|s| - 1], f)
  }

  /** Some sample of the span is at or below `x`; some sample at or above it. */
  ghost predicate Brackets(span: seq<Sample>, f: Field, x: real) {
    && (exists i :: 0 <= i < |span| && Get(span[i], f) <= x)
    && (exists i :: 0 <= i < |span| && x <= Get(span[i], f))
  }

  ghost predicate IsMeanOf(x: real, span: seq<Sample>, f: Field) {
    x * |span| as real == Sum(span, f)
  }

  /** Every field of the entry lies between the least and the greatest value
      that field takes in the span. */
  ghost predicate Between(e: Sample, span: seq<Sample>) {
    forall f: Field :: Brackets(span, f, Get(e, f))
  }

  ghost predicate IsMean(e: Sample, span: seq<Sample>) {
    forall f: Field :: IsMeanOf(Get(e, f), span, f)
  }

  /** One stored entry against the span of raw samples it stands for. */
  ghost predicate StandsFor(e: Sample, span: seq<Sample>, interval: nat) {
    && interval <= 2 * |span| && 0 < |span| <= interval
    && e.timeS == span[|span| - 1].timeS
    && Between(e, span)
    && (|span| == interval || 2 * |span| == interval ==> IsMean(e, span))
  }

  ghost predicate AccumIs(a: Accum, s: seq<Sample>) {
    && a.voltage == Sum(s, Voltage)
    && a.batteryCurrent == Sum(s, BatteryCurrent)
    && a.psCurrent == Sum(s, PsCurrent)
    && a.powerOnline == Sum(s, PowerOnline)
  }

  predicate IsRung(i: nat) {
    i == 1 || i == 2 || i == 4 || i == 8 || i == 16 || i == 32 || i == 64
  }

  /** The spans follow one another without gap or overlap up to the samples still
      accumulating, and start with the first sample ever fed until sliding begins. */
  ghost predicate Partitions(h: Hist) {
    && |h.cuts| == |h.samples| + 1
    && (forall k :: 0 <= k <= |h.samples| ==> h.cuts[k] <= |h.fed|)
    && (forall j, k :: 0 <= j <= k <= |h.samples| ==> h.cuts[j] <= h.cuts[k])
    && h.cuts[|h.samples|] + h.accCount == |h.fed|
    && (h.cuts[0] == 0 || h.interval == MAX_INTERVAL)
  }

  /** The raw samples entry `k` stands for. */
  ghost function Span(h: Hist, k: nat): seq<Sample>
    requires Partitions(h) && k < |h.samples|
  {
    h.fed[h.cuts[k]..h.cuts[k + 1]]
  }

  ghost function Pending(h: Hist): seq<Sample>
    requires Partitions(h)
  {
    h.fed[h.cuts[|h.samples|]..]
  }

  /** The invariant, but for a row that may just have come due. */
  ghost predicate Sound(h: Hist) {
    && Partitions(h)
    && |h.samples| <= HISTORY_CAPACITY
    && IsRung(h.interval)
    && AccumIs(h.acc, Pending(h))
    && (forall k :: 0 <= k < |h.samples| ==> StandsFor(h.samples[k], Span(h, k), h.interval))
  }

  ghost predicate Inv(h: Hist) {
    Sound(h) && h.accCount < h.interval
  }

  lemma SumExtends(s: seq<Sample>, x: Sample, f: Field)
    ensures Sum(s + [x], f) == Sum(s, f) + Get(x, f)
  {
    assert (s + [x])[..|s|] == s;
  }

  lemma {:induction false} SumJoins(a: seq<Sample>, b: seq<Sample>, f: Field)
    ensures Sum(a + b, f) == Sum(a, f) + Sum(b, f)
  {
    if b == [] {
      assert a + b == a;
    } else {
      SumJoins(a, b[..|b| - 1], f);
      assert (a + b)[..|a + b| - 1] == a + b[..|b| - 1];
    }
  }

  /** If every value is above `m`, so is the sum over `m` times as many. */
  lemma {:induction false} SumAbove(s: seq<Sample>, f: Field, m: real)
    requires s != [] && forall i :: 0 <= i < |s| ==> Get(s[i], f) > m
    ensures Sum(s, f) > |s| as real * m
  {
    var t := s[..|s| - 1];
    assert |s| as real * m == |t| as real * m + m;
    if t != [] { SumAbove(t, f, m); }
  }

  lemma {:induction false} SumBelow(s: seq<Sample>, f: Field, m: real)
    requires s != [] && forall i :: 0 <= i < |s| ==> Get(s[i], f) < m
    ensures Sum(s, f) < |s| as real * m
  {
    var t := s[..|s| - 1];
    assert |s| as real * m == |t| as real * m + m;
    if t != [] { SumBelow(t, f, m); }
  }

  lemma MeanIsBetween(x: real, span: seq<Sample>, f: Field)
    requires span != [] && IsMeanOf(x, span, f)
    ensures Brackets(span, f, x)
  {
    if forall i :: 0 <= i < |span| ==> Get(span[i], f) > x { SumAbove(span, f, x); }
    if forall i :: 0 <= i < |span| ==> Get(span[i], f) < x { SumBelow(span, f, x); }
  }

  /** A fresh entry is the mean of the samples it was accumulated from. */
  lemma AverageStandsFor(a: Accum, span: seq<Sample>, timeS: nat, interval: nat)
    requires span != [] && AccumIs(a, span) && timeS == span[|span| - 1].timeS
    requires interval == |span| || interval == 2 * |span|
    ensures StandsFor(Average(a, |span|, timeS), span, interval)
  {
    hide Sum, Brackets;
    var e := Average(a, |span|, timeS);
    forall f: Field ensures IsMeanOf(Get(e, f), span, f) && Brackets(span, f, Get(e, f)) {
      Divides(Sum(span, f), |span|);
      MeanIsBetween(Get(e, f), span, f);
    }
  }

  lemma Divides(x: real, n: nat)
    requires n > 0
    ensures x / n as real * n as real == x
  {
  }

  lemma BracketsJoin(sa: seq<Sample>, sb: seq<Sample>, f: Field, x: real, y: real)
    requires Brackets(sa, f, x) && Brackets(sb, f, y)
    ensures Brackets(sa + sb, f, (x + y) / 2.0)
  {
    var span := sa + sb;
    var la :| 0 <= la < |sa| && Get(sa[la], f) <= x;
    var lb :| 0 <= lb < |sb| && Get(sb[lb], f) <= y;
    var ua :| 0 <= ua < |sa| && x <= Get(sa[ua], f);
    var ub :| 0 <= ub < |sb| && y <= Get(sb[ub], f);
    assert span[la] == sa[la] && span[ua] == sa[ua];
    assert span[|sa| + lb] == sb[lb] && span[|sa| + ub] == sb[ub];
    assert Get(span[if x <= y then la else |sa| + lb], f) <= (x + y) / 2.0;
    assert (x + y) / 2.0 <= Get(span[if x <= y then |sa| + ub else ua], f);
  }

  /** Averaging two means gives the mean of the joined spans exactly when the
      spans are equally long or the means agree. */
  lemma MergeIsMeanExactly(sa: seq<Sample>, sb: seq<Sample>, f: Field, x: real, y: real)
    requires IsMeanOf(x, sa, f) && IsMeanOf(y, sb, f)
    ensures IsMeanOf((x + y) / 2.0, sa + sb, f) <==> |sa| == |sb| || x == y
  {
    SumJoins(sa, sb, f);
    hide Sum;
    var m, n := |sa| as real, |sb| as real;
    assert |sa + sb| as real == m + n;
    assert m == n <==> |sa| == |sb|;
    HalfSum(x, y, m, n);
  }

  lemma HalfSum(x: real, y: real, m: real, n: real)
    ensures (x + y) / 2.0 * (m + n) == x * m + y * n <==> m == n || x == y
  {
    assert 2.0 * ((x + y) / 2.0 * (m + n)) - 2.0 * (x * m + y * n) == (x - y) * (n - m);
  }

  /** The merge of two neighbours stands for their joined span; it is still the
      mean when both halves are full, or both half full. */
  lemma MergeStandsFor(a: Sample, b: Sample, sa: seq<Sample>, sb: seq<Sample>, interval: nat)
    requires StandsFor(a, sa, interval) && StandsFor(b, sb, interval)
    ensures StandsFor(Merge(a, b), sa + sb, 2 * interval)
  {
    hide Sum, Brackets, IsMeanOf;
    var e, span := Merge(a, b), sa + sb;
    forall f: Field
      ensures Brackets(span, f, Get(e, f))
      ensures |span| == 2 * interval || |span| == interval ==> IsMeanOf(Get(e, f), span, f)
    {
      assert Get(e, f) == (Get(a, f) + Get(b, f)) / 2.0;
      BracketsJoin(sa, sb, f, Get(a, f), Get(b, f));
      if |span| == 2 * interval || |span| == interval { MergeIsMeanExactly(sa, sb, f, Get(a, f), Get(b, f)); }
    }
  }

  // ------------------------------------------------------- the invariant kept

  /** Keeping every other cut joins neighbouring spans in pairs. */
  lemma CompactionPartitions(h: Hist, r: Hist)
    requires Partitions(h) && |h.samples| == HISTORY_CAPACITY && h.interval < MAX_INTERVAL && r == MakeRoom(h)
    ensures Partitions(r) && |r.samples| == HISTORY_CAPACITY / 2 && r.interval == 2 * h.interval
    ensures Pending(r) == Pending(h)
    ensures forall k :: 0 <= k < |r.samples| ==> Span(r, k) == Span(h, 2 * k) + Span(h, 2 * k + 1)
  {
    hide Merge;
    assert r.fed == h.fed && r.accCount == h.accCount;
    assert forall k :: 0 <= k <= |r.samples| ==> r.cuts[k] == h.cuts[2 * k];
    assert Partitions(r);
    forall k | 0 <= k < |r.samples| ensures Span(r, k) == Span(h, 2 * k) + Span(h, 2 * k + 1) {
      assert r.cuts[k] == h.cuts[2 * k] && r.cuts[k + 1] == h.cuts[2 * k + 2];
    }
  }

  lemma CompactionKeeps(h: Hist)
    requires Sound(h) && |h.samples| == HISTORY_CAPACITY && h.interval < MAX_INTERVAL
    ensures Sound(MakeRoom(h)) && Pending(MakeRoom(h)) == Pending(h)
  {
    var r := MakeRoom(h);
    hide StandsFor, Merge, AccumIs, Span, Pending, Partitions;
    CompactionPartitions(h, r);
    forall k | 0 <= k < |r.samples| ensures StandsFor(r.samples[k], Span(r, k), r.interval) {
      CompactedStands(h, r, k);
    }
  }

  lemma CompactedStands(h: Hist, r: Hist, k: nat)
    requires Sound(h) && |h.samples| == HISTORY_CAPACITY && h.interval < MAX_INTERVAL && r == MakeRoom(h)
    requires k < |r.samples| && Partitions(r)
    requires Span(r, k) == Span(h, 2 * k) + Span(h, 2 * k + 1)
    ensures StandsFor(r.samples[k], Span(r, k), r.interval)
  {
    hide StandsFor, Merge, AccumIs, Span, Pending, Partitions;
    MergeStandsFor(h.samples[2 * k], h.samples[2 * k + 1], Span(h, 2 * k), Span(h, 2 * k + 1), h.interval);
  }

  lemma SlideKeeps(h: Hist)
    requires Sound(h) && |h.samples| == HISTORY_CAPACITY && h.interval == MAX_INTERVAL
    ensures Sound(MakeRoom(h)) && Pending(MakeRoom(h)) == Pending(h)
  {
    hide StandsFor, Sum;
    var r := MakeRoom(h);
    forall k | 0 <= k < |r.samples| ensures StandsFor(r.samples[k], Span(r, k), r.interval) {
      assert Span(r, k) == Span(h, k + 1);
    }
  }

  lemma AccumExtends(a: Accum, s: seq<Sample>, x: Sample)
    requires AccumIs(a, s)
    ensures AccumIs(Add(a, x), s + [x])
  {
    SumExtends(s, x, Voltage);
    SumExtends(s, x, BatteryCurrent);
    SumExtends(s, x, PsCurrent);
    SumExtends(s, x, PowerOnline);
  }

  /** One more raw sample does not disturb the spans already stored. */
  lemma AccumulateKeeps(h: Hist, raw: Sample)
    requires Sound(h)
    ensures Sound(Accumulate(h, raw)) && Pending(Accumulate(h, raw)) == Pending(h) + [raw]
  {
    hide StandsFor, Sum;
    var r := Accumulate(h, raw);
    AccumExtends(h.acc, Pending(h), raw);
    assert Pending(r) == Pending(h) + [raw];
    forall k | 0 <= k < |r.samples| ensures StandsFor(r.samples[k], Span(r, k), r.interval) {
      assert Span(r, k) == Span(h, k);
    }
  }

  lemma StoreKeeps(h: Hist, row: Sample)
    requires Sound(h) && |h.samples| < HISTORY_CAPACITY && StandsFor(row, Pending(h), h.interval)
    ensures Inv(Store(h, row))
  {
    hide StandsFor;
    var r := Store(h, row);
    assert Pending(r) == [];
    forall k | 0 <= k < |r.samples| ensures StandsFor(r.samples[k], Span(r, k), r.interval) {
      if k < |h.samples| {
        assert Span(r, k) == Span(h, k);
      } else {
        assert Span(r, k) == Pending(h);
      }
    }
  }

  /** Every commit keeps the spans, and finds room for the row it stores. */
  lemma CommitKeeps(h: Hist, raw: Sample)
    requires Inv(h)
    ensures Inv(Commit(h, raw)) && Commit(h, raw).fed == h.fed + [raw]
    ensures var full := Accumulate(h, raw); |MakeRoom(full).samples| < HISTORY_CAPACITY
  {
    hide StandsFor, AccumIs, Average, Compacted;
    AccumulateKeeps(h, raw);
    var full := Accumulate(h, raw);
    if full.accCount == h.interval {
      if |h.samples| == HISTORY_CAPACITY {
        if h.interval < MAX_INTERVAL { CompactionKeeps(full); } else { SlideKeeps(full); }
      }
      var r := MakeRoom(full);
      AverageStandsFor(r.acc, Pending(r), raw.timeS, r.interval);
      StoreKeeps(r, Average(full.acc, full.accCount, raw.timeS));
    }
  }

  lemma NewIsSound()
    ensures Inv(NEW)
  {
  }

  /** The span theorem, for every stream of raw samples: stored entries and the
      pending accumulator partition the stream (a suffix of it once sliding has
      begun); each entry's span is at least half its interval and at most all of
      it, stamped by its last sample, bracketed by it in every field, and its
      exact mean whenever the span is full or exactly half. */
  lemma {:induction false} EntriesStandForSpans(raws: seq<Sample>)
    ensures Feed(raws).fed == raws && Inv(Feed(raws))
  {
    hide Inv, Commit;
    if raws == [] {
      NewIsSound();
    } else {
      EntriesStandForSpans(raws[..|raws| - 1]);
      CommitKeeps(Feed(raws[..|raws| - 1]), raws[|raws| - 1]);
    }
  }

  // --------------------------------------------------- how full, how coarse

  /** Raw samples fed when the interval becomes `i`. */
  function Rung(i: nat): int {
    205 + 102 * (i - 2)
  }

  function IntervalAt(n: nat): nat {
    if n < Rung(2) then 1
    else if n < Rung(4) then 2
    else if n < Rung(8) then 4
    else if n < Rung(16) then 8
    else if n < Rung(32) then 16
    else if n < Rung(64) then 32
    else 64
  }

  /** Stored entries after `n` raw samples. */
  function LengthAt(n: nat): int {
    var i := IntervalAt(n);
    if i == 1 then n
    else Capped(103 + (n - Rung(i)) / i)
  }

  /** Raw samples accumulating towards the next entry. */
  function PendingAt(n: nat): int {
    var i := IntervalAt(n);
    if i == 1 then 0 else (n - Rung(i)) % i
  }

  ghost predicate Occupied(h: Hist, n: nat) {
    h.interval == IntervalAt(n) && |h.samples| == LengthAt(n) && h.accCount == PendingAt(n)
  }

  /** Dividing one more by a divisor: the quotient moves exactly when the
      remainder comes round. */
  lemma OneMore(x: nat, i: nat)
    requires IsRung(i)
    ensures if x % i + 1 < i then (x + 1) / i == x / i && (x + 1) % i == x % i + 1
            else (x + 1) / i == x / i + 1 && (x + 1) % i == 0
  {
    if i == 1 {
    } else if i == 2 {
    } else if i == 4 {
    } else if i == 8 {
    } else if i == 16 {
    } else if i == 32 {
    } else {
      assert i == 64;
    }
  }

  datatype Counters = Counters(interval: nat, length: int, pending: int)

  /** What one commit does to the counters, whatever the sample. */
  function Tally(c: Counters): Counters {
    if c.pending + 1 < c.interval then c.(pending := c.pending + 1)
    else if c.length < HISTORY_CAPACITY then c.(length := c.length + 1, pending := 0)
    else if c.interval < MAX_INTERVAL then Counters(2 * c.interval, HISTORY_CAPACITY / 2 + 1, 0)
    else c.(pending := 0)
  }

  function CountersAt(n: nat): Counters {
    Counters(IntervalAt(n), LengthAt(n), PendingAt(n))
  }

  lemma CommitTallies(h: Hist, raw: Sample)
    requires |h.cuts| == |h.samples| + 1 && |h.samples| <= HISTORY_CAPACITY
    ensures var h' := Commit(h, raw);
            Counters(h'.interval, |h'.samples|, h'.accCount)
              == Tally(Counters(h.interval, |h.samples|, h.accCount))
  {
  }

  /** On one rung: `x` samples after its start, until the next one doubles it. */
  lemma RungTallies(x: nat, i: nat)
    requires i == 2 || i == 4 || i == 8 || i == 16 || i == 32
    requires x < 102 * i
    ensures Tally(Counters(i, 103 + x / i, x % i))
            == if x + 1 < 102 * i then Counters(i, 103 + (x + 1) / i, (x + 1) % i) else Counters(2 * i, 103, 0)
  {
    OneMore(x, i);
    if i == 2 {
    } else if i == 4 {
    } else if i == 8 {
    } else if i == 16 {
    } else {
    }
  }

  function Capped(l: int): int {
    if l < HISTORY_CAPACITY then l else HISTORY_CAPACITY
  }

  lemma TopRungTallies(x: nat)
    ensures Tally(Counters(64, Capped(103 + x / 64), x % 64))
            == Counters(64, Capped(103 + (x + 1) / 64), (x + 1) % 64)
  {
    OneMore(x, 64);
  }

  /** The closed form on one rung below the top. */
  lemma CountersOnRung(n: nat, i: nat)
    requires i == 2 || i == 4 || i == 8 || i == 16 || i == 32
    requires Rung(i) <= n < Rung(2 * i)
    ensures CountersAt(n) == Counters(i, 103 + (n - Rung(i)) / i, (n - Rung(i)) % i)
  {
    if i == 2 {
    } else if i == 4 {
    } else if i == 8 {
    } else if i == 16 {
    } else {
    }
  }

  lemma CountersOnTop(n: nat)
    requires Rung(64) <= n
    ensures CountersAt(n) == Counters(64, Capped(103 + (n - Rung(64)) / 64), (n - Rung(64)) % 64)
  {
  }

  lemma LadderOnRung(n: nat, i: nat)
    requires i == 2 || i == 4 || i == 8 || i == 16 || i == 32
    requires Rung(i) <= n < Rung(2 * i)
    ensures CountersAt(n + 1) == Tally(CountersAt(n))
  {
    hide CountersAt, Tally;
    CountersOnRung(n, i);
    RungTallies(n - Rung(i), i);
    if n + 1 < Rung(2 * i) {
      CountersOnRung(n + 1, i);
    } else if i == 32 {
      CountersOnTop(n + 1);
    } else {
      CountersOnRung(n + 1, 2 * i);
    }
  }

  lemma LadderTallies(n: nat)
    ensures CountersAt(n + 1) == Tally(CountersAt(n))
  {
    if n < Rung(2) {
    } else if n < Rung(64) {
      LadderOnRung(n, IntervalAt(n));
    } else {
      CountersOnTop(n);
      CountersOnTop(n + 1);
      TopRungTallies(n - Rung(64));
    }
  }

  lemma OccupancySteps(h: Hist, raw: Sample, n: nat)
    requires |h.cuts| == |h.samples| + 1 && |h.samples| <= HISTORY_CAPACITY && Occupied(h, n)
    ensures Occupied(Commit(h, raw), n + 1)
  {
    hide IntervalAt, LengthAt, PendingAt, Commit, Tally;
    LadderTallies(n);
    CommitTallies(h, raw);
  }

  lemma EntriesFit(raws: seq<Sample>)
    ensures |Feed(raws).samples| <= HISTORY_CAPACITY
  {
    EntriesStandForSpans(raws);
  }

  /** Exact occupancy: interval, length and pending count depend on nothing but
      how many samples were fed, and these are they. */
  lemma {:induction false} OccupancyIsExact(raws: seq<Sample>)
    ensures Occupied(Feed(raws), |raws|)
  {
    if raws != [] {
      hide Inv;
      OccupancyIsExact(raws[..|raws| - 1]);
      EntriesFit(raws[..|raws| - 1]);
      OccupancySteps(Feed(raws[..|raws| - 1]), raws[|raws| - 1], |raws| - 1);
    }
  }

  // ------------------------------------------------------------ chronology

  ghost predicate Chronological(s: seq<Sample>) {
    forall i, j :: 0 <= i < j < |s| ==> s[i].timeS < s[j].timeS
  }

  lemma CompactedIsChronological(s: seq<Sample>)
    requires Chronological(s)
    ensures Chronological(Compacted(s))
    ensures |s| % 2 == 0 && s != [] ==> Compacted(s)[|s| / 2 - 1].timeS == s[|s| - 1].timeS
  {
    assert forall k :: 0 <= k < |s| / 2 ==> Compacted(s)[k].timeS == s[2 * k + 1].timeS;
  }

  /** Making room keeps the order and the newest stored stamp. */
  lemma MakeRoomIsChronological(h: Hist)
    requires |h.cuts| == |h.samples| + 1 && |h.samples| <= HISTORY_CAPACITY && Chronological(h.samples)
    ensures var r := MakeRoom(h).samples;
            && Chronological(r)
            && (r != [] && h.samples != [] ==> r[|r| - 1].timeS == h.samples[|h.samples| - 1].timeS)
            && (r != [] ==> h.samples != [])
  {
    hide Compacted;
    CompactedIsChronological(h.samples);
  }

  /** A sample stamped after the last stored one keeps the stored stamps strictly
      increasing, through accumulation, compaction and sliding alike. */
  lemma CommitIsChronological(h: Hist, raw: Sample)
    requires |h.cuts| == |h.samples| + 1 && |h.samples| <= HISTORY_CAPACITY && Chronological(h.samples)
    requires h.samples != [] ==> h.samples[|h.samples| - 1].timeS < raw.timeS
    ensures Chronological(Commit(h, raw).samples)
  {
    MakeRoomIsChronological(Accumulate(h, raw));
    hide MakeRoom;
  }

  // -------------------------------------------------------------- the object

  class History {
    const buf: array<Sample>
    var len: nat
    var interval: nat
    var acc: Accum
    var accCount: nat
    ghost var fed: seq<Sample>
    ghost var cuts: seq<nat>

    ghost function View(): Hist
      requires len <= buf.Length
      reads this, buf
    {
      Hist(buf[..len], interval, acc, accCount, fed, cuts)
    }

    ghost predicate Valid()
      reads this, buf
    {
      && buf.Length == HISTORY_CAPACITY && len <= buf.Length && |cuts| == len + 1
      && Inv(View())
    }

    constructor ()
      ensures Valid() && View() == NEW && fresh(buf)
    {
      buf := new Sample[HISTORY_CAPACITY](_ => Sample(0, 0.0, 0.0, 0.0, 0.0));
      len := 0;
      interval := 1;
      acc, accCount := EMPTY, 0;
      fed, cuts := [], [0];
    }

    /** Halve the buffer in place: each pair is read at or after the slot its
        average is written to. */
    method Compact()
      requires buf.Length == HISTORY_CAPACITY == len
      modifies this`len, this`interval, buf
      ensures len == HISTORY_CAPACITY / 2 && interval == 2 * old(interval)
      ensures buf[..len] == Compacted(old(buf[..HISTORY_CAPACITY]))
    {
      hide Merge, MergedAt;
      ghost var was := buf[..HISTORY_CAPACITY];
      var half := len / 2;
      for i := 0 to half
        invariant len == HISTORY_CAPACITY && interval == old(interval)
        invariant forall k :: 0 <= k < i ==> buf[k] == MergedAt(was, k)
        invariant forall k :: i <= k < len ==> buf[k] == was[k]
      {
        MergedFrom(was, i, buf[2 * i], buf[2 * i + 1]);
        buf[i] := Merge(buf[2 * i], buf[2 * i + 1]);
      }
      len := half;
      interval := interval * 2;
    }

    /** Make room for a row in a full buffer: coarsen, or at the cap slide. */
    method MakeSpace()
      requires buf.Length == HISTORY_CAPACITY && len <= HISTORY_CAPACITY && |cuts| == len + 1
      modifies this`len, this`interval, this`cuts, buf
      ensures len <= HISTORY_CAPACITY && View() == MakeRoom(old(View()))
      ensures len < HISTORY_CAPACITY && |cuts| == len + 1
    {
      hide Compacted;
      ghost var h := View();
      if len == HISTORY_CAPACITY {
        assert buf[..HISTORY_CAPACITY] == h.samples;
        if interval < MAX_INTERVAL {
          Compact();
          cuts := MakeRoom(h).cuts;
        } else {
          forall j | 0 <= j < len - 1 { buf[j] := buf[j + 1]; }
          len := len - 1;
          cuts := cuts[1..];
          assert buf[..len] == h.samples[1..];
        }
      }
    }

    /** Push a row, and start accumulating the next. */
    method StoreRow(row: Sample)
      requires buf.Length == HISTORY_CAPACITY && len < HISTORY_CAPACITY
      modifies this`len, this`acc, this`accCount, this`cuts, buf
      ensures len <= HISTORY_CAPACITY && View() == Store(old(View()), row)
    {
      ghost var r := View();
      acc := EMPTY;
      accCount := 0;
      buf[len] := row;
      len := len + 1;
      cuts := cuts + [|fed|];
      assert buf[..len] == r.samples + [row];
    }

    /** Feed one raw sample in. */
    method CommitSample(raw: Sample)
      requires Valid()
      modifies this, buf
      ensures Valid() && View() == Commit(old(View()), raw)
    {
      hide Inv, MakeRoom, Add, Average;
      CommitKeeps(View(), raw);
      acc := Add(acc, raw);
      accCount := accCount + 1;
      fed := fed + [raw];
      if accCount < interval {
        return;
      }
      var averaged := Average(acc, accCount, raw.timeS);
      MakeSpace();
      StoreRow(averaged);
    }

    method LastTime() returns (t: Option<nat>)
      requires Valid()
      ensures t == if View().samples == [] then None else Some(View().samples[|View().samples| - 1].timeS)
    {
      t := if len == 0 then None else Some(buf[len - 1].timeS);
    }
  }
}
