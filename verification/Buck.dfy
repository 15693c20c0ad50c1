/** The programmable buck as the firmware sees it: a few registers behind a bus
    that can lose writes, the V_SET sequence of `voltage_writer.rs`, and the
    boot sequence of `src/xy.rs`. */
module Bucks {
  import opened Wrappers
  import opened ChargeTypes

  datatype SafetyLimits = SafetyLimits(ovpV: real, ocpA: real, lvpV: real)

  datatype Registers = Registers(
    vSet: real, iSet: real, outputOn: bool, cause: Protection,
    limits: SafetyLimits, powerOnOutput: bool)

  datatype Write =
    | Volts(v: real)
    | Output(on: bool)
    | ClearProtection
    | PowerOnDefault(on: bool)
    | Limits(limits: SafetyLimits)
    | Amps(i: real)

  /** What becomes of a write: carried out and acknowledged; carried out but not
      acknowledged; never received; or acknowledged without being carried out. */
  datatype Fate = Lands | LostAfter | LostBefore | Ignored

  /** One bus transaction: the buck may switch itself off just before it. */
  datatype Transaction = Transaction(selfOff: Option<Protection>, fate: Fate)

  predicate Acked(x: Transaction) {
    x.fate.Lands? || x.fate.Ignored?
  }

  predicate Arrives(x: Transaction) {
    x.fate.Lands? || x.fate.LostAfter?
  }

  function Settled(r: Registers, x: Transaction): Registers {
    match x.selfOff
    case None => r
    case Some(cause) => r.(outputOn := false, cause := cause)
  }

  function Store(r: Registers, w: Write): Registers {
    match w
    case Volts(v) => r.(vSet := v)
    case Output(on) => r.(outputOn := on, cause := if on then Normal else r.cause)
    case ClearProtection => r.(cause := Normal)
    case PowerOnDefault(on) => r.(powerOnOutput := on)
    case Limits(l) => r.(limits := l)
    case Amps(i) => r.(iSet := i)
  }

  function Perform(r: Registers, w: Write, x: Transaction): Registers {
    if Arrives(x) then Store(Settled(r, x), w) else Settled(r, x)
  }

  /** One transaction, register by register. */
  lemma PerformOn(r: Registers, w: Write, x: Transaction)
    ensures var r' := Perform(r, w, x);
            && r'.vSet == (if w.Volts? && Arrives(x) then w.v else r.vSet)
            && r'.iSet == (if w.Amps? && Arrives(x) then w.i else r.iSet)
            && r'.outputOn == (if w.Output? && Arrives(x) then w.on else r.outputOn && x.selfOff.None?)
            && r'.cause == (if Arrives(x) && (w == Output(true) || w.ClearProtection?) then Normal
                            else if x.selfOff.Some? then x.selfOff.value else r.cause)
  {
  }

  /** The registers before and after the write takes effect. */
  function Seen(r: Registers, w: Write, x: Transaction): seq<Registers> {
    [Settled(r, x), Perform(r, w, x)]
  }

  /** What happens to the buck behind the firmware's back: its output and cause
      change, or somebody dials in setpoints. */
  datatype Outside = Outside(output: Option<BuckOutput>, panel: Option<Setpoints>)

  function Meddle(r: Registers, o: Outside): Registers {
    var r1 := match o.output
      case None => r
      case Some(On) => r.(outputOn := true, cause := Normal)
      case Some(Off(cause)) => r.(outputOn := false, cause := cause);
    if o.panel.Some? then r1.(vSet := o.panel.value.vSet, iSet := o.panel.value.iSet) else r1
  }

  /** Nowhere along the way does V_SET drop while the output is on. */
  ghost predicate NeverLoweredLive(seen: seq<Registers>) {
    forall i :: 0 <= i < |seen| - 1 && seen[i + 1].vSet < seen[i].vSet ==> !seen[i].outputOn
  }

  /** Joining two stretches adds exactly the step between them. */
  lemma NeverLoweredJoins(a: seq<Registers>, b: seq<Registers>)
    ensures NeverLoweredLive(a + b) <==>
              && NeverLoweredLive(a) && NeverLoweredLive(b)
              && (a != [] && b != [] && b[0].vSet < a[|a| - 1].vSet ==> !a[|a| - 1].outputOn)
  {
    var ab := a + b;
    if NeverLoweredLive(ab) {
      forall i | 0 <= i < |a| - 1 && a[i + 1].vSet < a[i].vSet ensures !a[i].outputOn {
        assert ab[i + 1].vSet < ab[i].vSet;
      }
      forall i | 0 <= i < |b| - 1 && b[i + 1].vSet < b[i].vSet ensures !b[i].outputOn {
        assert ab[|a| + i + 1].vSet < ab[|a| + i].vSet;
      }
      if a != [] && b != [] { assert ab[|a| - 1] == a[|a| - 1] && ab[|a| - 1 + 1] == b[0]; }
    }
  }

  /** One write lowers V_SET live exactly when it is a voltage write below the
      register that arrives at a buck that is on. */
  lemma OneWriteExactly(r: Registers, w: Write, x: Transaction)
    ensures !NeverLoweredLive(Seen(r, w, x)) <==>
              w.Volts? && w.v < r.vSet && Arrives(x) && x.selfOff.None? && r.outputOn
  {
    var seen := Seen(r, w, x);
    assert seen[0 + 1].vSet < seen[0].vSet && seen[0].outputOn ==> !NeverLoweredLive(seen);
  }

  datatype XyError = SetVoltageError | SetOutputError

  datatype Call = Call(write: Write, ok: bool)

  /** The transactions an `UpdateVoltage` may need, in the order it makes them. */
  datatype Transactions = Transactions(off: Transaction, volts: Transaction, on: Transaction, onAgain: Transaction)

  datatype Applied = Applied(
    regs: Registers, committed: bool, calls: seq<Call>, errors: seq<XyError>, seen: seq<Registers>)

  function Report(x: Transaction, e: XyError): seq<XyError> {
    if Acked(x) then [] else [e]
  }

  /** `apply_update_voltage`: live for a step up; off, write, on for a step down. */
  function ApplyVoltage(r: Registers, t: VoltageTicket, xs: Transactions): Applied {
    if !t.cycleOutput then
      Applied(Perform(r, Volts(t.targetV), xs.volts), Acked(xs.volts),
              [Call(Volts(t.targetV), Acked(xs.volts))], Report(xs.volts, SetVoltageError),
              Seen(r, Volts(t.targetV), xs.volts))
    else
      var r1 := Perform(r, Output(false), xs.off);
      var seen1 := Seen(r, Output(false), xs.off);
      if !Acked(xs.off) then
        Applied(r1, false, [Call(Output(false), false)], [SetOutputError], seen1)
      else
        var r2 := Perform(r1, Volts(t.targetV), xs.volts);
        var seen2 := seen1 + Seen(r1, Volts(t.targetV), xs.volts);
        var r3 := Perform(r2, Output(true), xs.on);
        var seen3 := seen2 + Seen(r2, Output(true), xs.on);
        var calls := [Call(Output(false), true), Call(Volts(t.targetV), Acked(xs.volts)),
                      Call(Output(true), Acked(xs.on))];
        if !Acked(xs.volts) then
          Applied(r3, false, calls, [SetVoltageError] + Report(xs.on, SetOutputError), seen3)
        else if Acked(xs.on) then
          Applied(r3, true, calls, [], seen3)
        else
          Applied(Perform(r3, Output(true), xs.onAgain), true,
                  calls + [Call(Output(true), Acked(xs.onAgain))],
                  Report(xs.onAgain, SetOutputError),
                  seen3 + Seen(r3, Output(true), xs.onAgain))
  }

  /** A step down lowers V_SET live exactly when its disable was acknowledged
      without being carried out, the buck stayed on, and the write arrived. */
  lemma StepDownIsSafeExactly(r: Registers, t: VoltageTicket, xs: Transactions)
    requires t.cycleOutput
    ensures !NeverLoweredLive(ApplyVoltage(r, t, xs).seen) <==>
              && xs.off.fate.Ignored? && xs.off.selfOff.None?
              && Arrives(xs.volts) && xs.volts.selfOff.None?
              && r.outputOn && t.targetV < r.vSet
  {
    hide NeverLoweredLive;
    var r1 := Perform(r, Output(false), xs.off);
    var r2 := Perform(r1, Volts(t.targetV), xs.volts);
    var r3 := Perform(r2, Output(true), xs.on);
    var s1 := Seen(r, Output(false), xs.off);
    var s2 := Seen(r1, Volts(t.targetV), xs.volts);
    var s3 := Seen(r2, Output(true), xs.on);
    var s4 := Seen(r3, Output(true), xs.onAgain);
    OneWriteExactly(r, Output(false), xs.off);
    OneWriteExactly(r1, Volts(t.targetV), xs.volts);
    OneWriteExactly(r2, Output(true), xs.on);
    OneWriteExactly(r3, Output(true), xs.onAgain);
    NeverLoweredJoins(s1, s2);
    NeverLoweredJoins(s1 + s2, s3);
    NeverLoweredJoins(s1 + s2 + s3, s4);
  }

  /** A write without cycling lowers V_SET live exactly when it arrives at a
      buck that is on and holds a higher setpoint. */
  lemma LiveWriteIsSafeExactly(r: Registers, t: VoltageTicket, xs: Transactions)
    requires !t.cycleOutput
    ensures !NeverLoweredLive(ApplyVoltage(r, t, xs).seen) <==>
              Arrives(xs.volts) && xs.volts.selfOff.None? && r.outputOn && t.targetV < r.vSet
  {
    OneWriteExactly(r, Volts(t.targetV), xs.volts);
  }

  /** The V_SET write is made at once for a step up, after an acknowledged
      disable for a step down. */
  predicate WritesVSet(t: VoltageTicket, xs: Transactions) {
    t.cycleOutput ==> Acked(xs.off)
  }

  /** The setpoints after the sequence, and its outcome. */
  lemma ApplyOnSetpoints(r: Registers, t: VoltageTicket, xs: Transactions)
    ensures var a := ApplyVoltage(r, t, xs);
            && a.regs.iSet == r.iSet
            && a.regs.vSet == (if WritesVSet(t, xs) && Arrives(xs.volts) then t.targetV else r.vSet)
            && (a.committed <==> WritesVSet(t, xs) && Acked(xs.volts))
            && (a.committed && t.cycleOutput && xs.on.fate.Lands? ==> a.regs.outputOn)
  {
    hide Seen, Report, Perform;
    var r0 := if t.cycleOutput then Perform(r, Output(false), xs.off) else r;
    var r1 := Perform(r0, Volts(t.targetV), xs.volts);
    var r2 := Perform(r1, Output(true), xs.on);
    PerformOn(r, Output(false), xs.off);
    PerformOn(r0, Volts(t.targetV), xs.volts);
    PerformOn(r1, Output(true), xs.on);
    PerformOn(r2, Output(true), xs.onAgain);
  }

  /** The outcome is about V_SET alone: committed exactly when the voltage write
      was made and acknowledged. A truthful acknowledgement means the register
      holds the target; a retry leaves the register as it was, unless a lost
      write had been carried out. */
  lemma CommittedMeansWritten(r: Registers, t: VoltageTicket, xs: Transactions)
    ensures var a := ApplyVoltage(r, t, xs);
            && (a.committed <==> Call(Volts(t.targetV), true) in a.calls)
            && (a.committed && xs.volts.fate.Lands? ==> a.regs.vSet == t.targetV)
            && (!a.committed ==> a.regs.vSet == r.vSet || (a.regs.vSet == t.targetV && xs.volts.fate.LostAfter?))
            && (a.committed && t.cycleOutput && xs.on.fate.Lands? ==> a.regs.outputOn)
            && a.regs.iSet == r.iSet
  {
    hide Seen, Report, Perform;
    var a := ApplyVoltage(r, t, xs);
    ApplyOnSetpoints(r, t, xs);
    if t.cycleOutput && Acked(xs.off) {
      assert a.calls[1] == Call(Volts(t.targetV), Acked(xs.volts));
    } else if !t.cycleOutput {
      assert a.calls[0] == Call(Volts(t.targetV), Acked(xs.volts));
    }
  }

  function Failures(calls: seq<Call>): nat {
    if calls == [] then 0 else Failures(calls[..|calls| - 1]) + (if calls[|calls| - 1].ok then 0 else 1)
  }

  function KindOf(w: Write): XyError {
    if w.Volts? then SetVoltageError else SetOutputError
  }

  /** One error for each failed call, of its kind and in order. */
  function Reported(calls: seq<Call>): seq<XyError> {
    if calls == [] then []
    else (if calls[0].ok then [] else [KindOf(calls[0].write)]) + Reported(calls[1..])
  }

  lemma ReportedOne(c: Call, rest: seq<Call>)
    ensures Reported([c] + rest) == (if c.ok then [] else [KindOf(c.write)]) + Reported(rest)
  {
    assert ([c] + rest)[1..] == rest;
  }

  /** The sequence reports every failed write, by its kind and in order, but for the
      first attempt to re-enable after a landed step down: that one is retried in
      silence. So errors and failures are as many exactly unless it failed. */
  lemma ReportsAllButTheFirstReEnable(r: Registers, t: VoltageTicket, xs: Transactions)
    ensures var a := ApplyVoltage(r, t, xs);
            var silent := t.cycleOutput && Acked(xs.off) && Acked(xs.volts) && !Acked(xs.on);
            && (if silent then |a.calls| == 4 && a.errors == Reported(a.calls[..2] + a.calls[3..])
                else a.errors == Reported(a.calls))
            && (|a.errors| == Failures(a.calls) <==> !silent)
  {
    hide Perform, Seen;
    var c1, c2, c3 := Call(Output(false), Acked(xs.off)), Call(Volts(t.targetV), Acked(xs.volts)),
                      Call(Output(true), Acked(xs.on));
    var c4 := Call(Output(true), Acked(xs.onAgain));
    ReportedOne(c1, []);
    ReportedOne(c2, []);
    ReportedOne(c1, [c2, c3]);
    ReportedOne(c2, [c3]);
    ReportedOne(c3, []);
    ReportedOne(c1, [c2, c4]);
    ReportedOne(c2, [c4]);
    ReportedOne(c4, []);
    assert [c1] + [] == [c1] && [c2] + [] == [c2] && [c3] + [] == [c3] && [c4] + [] == [c4];
    assert [c1] + [c2, c3] == [c1, c2, c3] && [c2] + [c3] == [c2, c3];
    assert [c1] + [c2, c4] == [c1, c2, c4] && [c2] + [c4] == [c2, c4];
    assert [c1, c2, c3] + [c4] == [c1, c2, c3, c4];
    assert [c1, c2, c3, c4][..2] + [c1, c2, c3, c4][3..] == [c1, c2, c4];
    FailuresOf(c1, c2, c3, c4);
    FailuresOf(c2, c1, c3, c4);
  }

  /** No false acknowledgement, and the buck never switches itself off. */
  predicate Steady(x: Transaction) {
    x.selfOff.None? && !x.fate.Ignored?
  }

  /** A single failed write drops the load exactly when it is the acknowledgement of
      a disable that was done: the sequence then gives up with the output off. */
  lemma OneGlitchDropsLoadExactly(r: Registers, t: VoltageTicket, xs: Transactions)
    requires r.outputOn && Steady(xs.off) && Steady(xs.volts) && Steady(xs.on) && Steady(xs.onAgain)
    requires Failures(ApplyVoltage(r, t, xs).calls) <= 1
    ensures ApplyVoltage(r, t, xs).regs.outputOn <==> !(t.cycleOutput && xs.off.fate.LostAfter?)
  {
    hide Seen, Report;
    var c1, c2, c3 := Call(Output(false), Acked(xs.off)), Call(Volts(t.targetV), Acked(xs.volts)),
                      Call(Output(true), Acked(xs.on));
    var c4 := Call(Output(true), Acked(xs.onAgain));
    FailuresOf(c1, c2, c3, c4);
  }

  lemma FailuresOf(c1: Call, c2: Call, c3: Call, c4: Call)
    ensures var (f1, f2, f3, f4) := (if c1.ok then 0 else 1, if c2.ok then 0 else 1, if c3.ok then 0 else 1, if c4.ok then 0 else 1);
            && Failures([c1]) == f1
            && Failures([c1, c2, c3]) == f1 + f2 + f3
            && Failures([c1, c2, c3] + [c4]) == f1 + f2 + f3 + f4
  {
    assert [c1, c2, c3, c4][..3] == [c1, c2, c3] && [c1, c2, c3][..2] == [c1, c2] && [c1, c2][..1] == [c1];
    assert [c1][..0] == [];
    assert Failures([c1]) == Failures([]) + (if c1.ok then 0 else 1);
    assert Failures([c1, c2]) == Failures([c1]) + (if c2.ok then 0 else 1);
    assert Failures([c1, c2, c3]) == Failures([c1, c2]) + (if c3.ok then 0 else 1);
    assert Failures([c1, c2, c3, c4]) == Failures([c1, c2, c3]) + (if c4.ok then 0 else 1);
    assert [c1, c2, c3] + [c4] == [c1, c2, c3, c4];
  }

  // ------------------------------------------------------------------ booting

  /** What the boot sequence programs: pack targets and the board's trips. */
  datatype Setup = Setup(floatV: real, iSetA: real, limits: SafetyLimits)

  const BOOT_RETRY_COUNT: nat := 10

  /** Registers, whether all is well so far, and every register state passed through. */
  datatype Sent = Sent(regs: Registers, ok: bool, seen: seq<Registers>)

  /** One more write, unless an earlier one already went unacknowledged. */
  function Then(s: Sent, w: Write, x: Transaction): Sent {
    if !s.ok then s else Sent(Perform(s.regs, w, x), Acked(x), s.seen + Seen(s.regs, w, x))
  }

  /** One attempt: whether the model register could be read and suits the
      driver's scales, the writes, and whether each read-back arrived. */
  datatype Attempt = Attempt(
    scalesMatch: Option<bool>,
    off: Transaction, clear: Transaction, ini: Transaction, trips: Transaction, volts: Transaction, amps: Transaction,
    statusRead: bool, limitsRead: bool)

  /** Everything read back close enough to what was written, and the output off. */
  predicate Verified(b: Setup, r: Registers) {
    && Agrees(b.floatV, r.vSet)
    && Agrees(b.iSetA, r.iSet)
    && Agrees(b.limits.ovpV, r.limits.ovpV)
    && Agrees(b.limits.ocpA, r.limits.ocpA)
    && Agrees(b.limits.lvpV, r.limits.lvpV)
    && !r.outputOn
  }

  function BootWrites(r: Registers, b: Setup, a: Attempt): Sent {
    var s1 := Then(Sent(r, true, []), Output(false), a.off);
    var s2 := Then(s1, ClearProtection, a.clear);
    var s3 := Then(s2, PowerOnDefault(false), a.ini);
    var s4 := Then(s3, Limits(b.limits), a.trips);
    var s5 := Then(s4, Volts(b.floatV), a.volts);
    Then(s5, Amps(b.iSetA), a.amps)
  }

  /** `boot_sequence`: refuse a device with other scales, program it, read it back. */
  function BootSequence(r: Registers, b: Setup, a: Attempt): Sent {
    if a.scalesMatch != Some(true) then Sent(r, false, [])
    else
      var s := BootWrites(r, b, a);
      s.(ok := s.ok && a.statusRead && a.limitsRead && Verified(b, s.regs))
  }

  /** What was seen before, and then the rest. */
  function Prepend(seen: seq<Registers>, s: Sent): Sent {
    s.(seen := seen + s.seen)
  }

  lemma PrependNothing(s: Sent)
    ensures Prepend([], s) == s
  {
    assert [] + s.seen == s.seen;
  }

  lemma PrependJoins(a: seq<Registers>, b: seq<Registers>, s: Sent)
    ensures Prepend(a, Prepend(b, s)) == Prepend(a + b, s)
  {
    assert a + (b + s.seen) == a + b + s.seen;
  }

  lemma PrependIs(a: seq<Registers>, s: Sent)
    ensures Prepend(a, s) == Sent(s.regs, s.ok, a + s.seen)
  {
  }

  /** The first attempt that succeeds hands over; with none left the firmware
      switches the output off as best it can and reboots. */
  function BootWithRetries(r: Registers, b: Setup, attempts: seq<Attempt>, farewell: Transaction): Sent
    decreases |attempts|
  {
    if attempts == [] then Sent(Perform(r, Output(false), farewell), false, Seen(r, Output(false), farewell))
    else
      var first := BootSequence(r, b, attempts[0]);
      if first.ok then first
      else Prepend(first.seen, BootWithRetries(first.regs, b, attempts[1..], farewell))
  }

  lemma BootUnfolds(r: Registers, b: Setup, a: Attempt, rest: seq<Attempt>, farewell: Transaction)
    ensures var first := BootSequence(r, b, a);
            BootWithRetries(r, b, [a] + rest, farewell)
              == if first.ok then first else Prepend(first.seen, BootWithRetries(first.regs, b, rest, farewell))
  {
    hide BootSequence;
    assert ([a] + rest)[1..] == rest;
  }

  lemma BootGivesUp(r: Registers, b: Setup, farewell: Transaction)
    ensures BootWithRetries(r, b, [], farewell)
              == Sent(Perform(r, Output(false), farewell), false, Seen(r, Output(false), farewell))
  {
  }

  predicate Truthful(a: Attempt) {
    && !a.off.fate.Ignored? && !a.clear.fate.Ignored? && !a.ini.fate.Ignored?
    && !a.trips.fate.Ignored? && !a.volts.fate.Ignored? && !a.amps.fate.Ignored?
  }

  /** What has been seen so far is safe and ends where the registers are. */
  ghost predicate SafeSoFar(r: Registers, s: Sent) {
    && NeverLoweredLive(s.seen)
    && (if s.seen == [] then s.regs == r else s.seen[|s.seen| - 1] == s.regs && s.seen[0].vSet == r.vSet)
  }

  lemma ThenIsSafe(r: Registers, s: Sent, w: Write, x: Transaction)
    requires SafeSoFar(r, s)
    requires s.ok && w.Volts? ==> !s.regs.outputOn
    ensures SafeSoFar(r, Then(s, w, x))
  {
    if s.ok {
      OneWriteExactly(s.regs, w, x);
      NeverLoweredJoins(s.seen, Seen(s.regs, w, x));
    }
  }

  lemma EmptyIsSafe(r: Registers)
    ensures SafeSoFar(r, Sent(r, true, [])) && SafeSoFar(r, Sent(r, false, []))
  {
  }

  lemma VerdictIsNoWrite(r: Registers, s: Sent, ok: bool)
    requires SafeSoFar(r, s)
    ensures SafeSoFar(r, s.(ok := ok))
  {
  }

  /** A boot attempt whose disable is not falsely acknowledged never lowers V_SET
      live, whatever becomes of its other writes. */
  lemma BootIsSafe(r: Registers, b: Setup, a: Attempt)
    requires !a.off.fate.Ignored?
    ensures SafeSoFar(r, BootSequence(r, b, a))
  {
    hide SafeSoFar;
    var s0 := Sent(r, true, []);
    assert SafeSoFar(r, s0) by { EmptyIsSafe(r); }
    var s1 := Then(s0, Output(false), a.off);
    var s2 := Then(s1, ClearProtection, a.clear);
    var s3 := Then(s2, PowerOnDefault(false), a.ini);
    var s4 := Then(s3, Limits(b.limits), a.trips);
    var s5 := Then(s4, Volts(b.floatV), a.volts);
    ThenIsSafe(r, s0, Output(false), a.off);
    ThenIsSafe(r, s1, ClearProtection, a.clear);
    ThenIsSafe(r, s2, PowerOnDefault(false), a.ini);
    ThenIsSafe(r, s3, Limits(b.limits), a.trips);
    ThenIsSafe(r, s4, Volts(b.floatV), a.volts);
    ThenIsSafe(r, s5, Amps(b.iSetA), a.amps);
    VerdictIsNoWrite(r, BootWrites(r, b, a), BootSequence(r, b, a).ok);
    EmptyIsSafe(r);
  }

  /** Booting, however often it is retried and whatever is lost, never lowers
      V_SET live, as long as no disable is acknowledged without being done. */
  lemma {:induction false} BootNeverLowersLive(r: Registers, b: Setup, attempts: seq<Attempt>, farewell: Transaction)
    requires forall i :: 0 <= i < |attempts| ==> !attempts[i].off.fate.Ignored?
    ensures SafeSoFar(r, BootWithRetries(r, b, attempts, farewell))
    decreases |attempts|
  {
    if attempts != [] {
      BootIsSafe(r, b, attempts[0]);
      var first := BootSequence(r, b, attempts[0]);
      if !first.ok {
        BootNeverLowersLive(first.regs, b, attempts[1..], farewell);
        NeverLoweredJoins(first.seen, BootWithRetries(first.regs, b, attempts[1..], farewell).seen);
      }
    }
  }

  /** What is handed over: V_SET as commanded if no V_SET write was falsely
      acknowledged, and every register as commanded if no write was, with no stale
      protection cause if the buck tripped in no attempt. */
  lemma {:induction false} BootHandsOverExact(r: Registers, b: Setup, attempts: seq<Attempt>, farewell: Transaction)
    requires BootWithRetries(r, b, attempts, farewell).ok
    ensures var s := BootWithRetries(r, b, attempts, farewell).regs;
            && ((forall i :: 0 <= i < |attempts| ==> !attempts[i].volts.fate.Ignored?) ==> s.vSet == b.floatV)
            && ((forall i :: 0 <= i < |attempts| ==> Truthful(attempts[i])) ==>
                  && s.vSet == b.floatV && s.iSet == b.iSetA && s.limits == b.limits && !s.outputOn && !s.powerOnOutput
                  && ((forall i :: 0 <= i < |attempts| ==> NeverTrips(attempts[i])) ==> s.cause.Normal?))
    decreases |attempts|
  {
    if attempts != [] {
      var first := BootSequence(r, b, attempts[0]);
      BootIsExact(r, b, attempts[0]);
      if !first.ok {
        hide BootSequence, Truthful, NeverTrips;
        BootHandsOverExact(first.regs, b, attempts[1..], farewell);
      }
    }
  }

  lemma BootIsExact(r: Registers, b: Setup, a: Attempt)
    ensures BootSequence(r, b, a).ok ==>
              var s := BootSequence(r, b, a).regs;
              && (!a.volts.fate.Ignored? ==> s.vSet == b.floatV)
              && (Truthful(a) ==>
                    && s.vSet == b.floatV && s.iSet == b.iSetA && s.limits == b.limits && !s.outputOn && !s.powerOnOutput
                    && (NeverTrips(a) ==> s.cause.Normal?))
  {
  }

  /** The buck does not switch itself off in the middle of an attempt. */
  predicate NeverTrips(a: Attempt) {
    && a.off.selfOff.None? && a.clear.selfOff.None? && a.ini.selfOff.None?
    && a.trips.selfOff.None? && a.volts.selfOff.None? && a.amps.selfOff.None?
  }

  /** An attempt gets its power-on default into the buck: the scales suit, the two
      writes before it are acknowledged, and it is carried out. */
  predicate SetsPowerOnOff(a: Attempt) {
    a.scalesMatch == Some(true) && Acked(a.off) && Acked(a.clear) && Arrives(a.ini)
  }

  lemma AttemptPowerOn(r: Registers, b: Setup, a: Attempt)
    ensures BootSequence(r, b, a).regs.powerOnOutput <==> r.powerOnOutput && !SetsPowerOnOff(a)
  {
    hide Then;
    var s0 := Sent(r, true, []);
    var s1 := Then(s0, Output(false), a.off);
    var s2 := Then(s1, ClearProtection, a.clear);
    var s3 := Then(s2, PowerOnDefault(false), a.ini);
    var s4 := Then(s3, Limits(b.limits), a.trips);
    var s5 := Then(s4, Volts(b.floatV), a.volts);
    ThenPowerOn(s0, Output(false), a.off);
    ThenPowerOn(s1, ClearProtection, a.clear);
    ThenPowerOn(s2, PowerOnDefault(false), a.ini);
    ThenPowerOn(s3, Limits(b.limits), a.trips);
    ThenPowerOn(s4, Volts(b.floatV), a.volts);
    ThenPowerOn(s5, Amps(b.iSetA), a.amps);
  }

  lemma ThenPowerOn(s: Sent, w: Write, x: Transaction)
    ensures var s' := Then(s, w, x);
            && s'.ok == (s.ok && Acked(x))
            && s'.regs.powerOnOutput == if s.ok && w.PowerOnDefault? && Arrives(x) then w.on else s.regs.powerOnOutput
  {
  }

  /** When the firmware gives up and reboots, the buck comes back disabled after a
      power cycle exactly if it was set so before, or some attempt set it. */
  lemma {:induction false} RebootComesBackDisabledExactly(r: Registers, b: Setup, attempts: seq<Attempt>, farewell: Transaction)
    requires !BootWithRetries(r, b, attempts, farewell).ok
    ensures !BootWithRetries(r, b, attempts, farewell).regs.powerOnOutput <==>
              !r.powerOnOutput || exists i :: 0 <= i < |attempts| && SetsPowerOnOff(attempts[i])
    decreases |attempts|
  {
    if attempts != [] {
      hide BootSequence, SetsPowerOnOff;
      var rest := attempts[1..];
      var first := BootSequence(r, b, attempts[0]);
      AttemptPowerOn(r, b, attempts[0]);
      RebootComesBackDisabledExactly(first.regs, b, rest, farewell);
      assert forall i :: 0 <= i < |rest| ==> rest[i] == attempts[i + 1];
      if i :| 0 <= i < |attempts| && SetsPowerOnOff(attempts[i]) && i > 0 {
        assert SetsPowerOnOff(rest[i - 1]);
      }
    }
  }

  /** A bus that loses every disable leaves the buck exactly as booting found it,
      output and power-on default on if they were. */
  lemma {:induction false} LostDisablesChangeNothing(r: Registers, b: Setup, attempts: seq<Attempt>, farewell: Transaction)
    requires farewell == Transaction(None, LostBefore)
    requires forall i :: 0 <= i < |attempts| ==> attempts[i].off == Transaction(None, LostBefore)
    ensures !BootWithRetries(r, b, attempts, farewell).ok && BootWithRetries(r, b, attempts, farewell).regs == r
    decreases |attempts|
  {
    if attempts != [] { LostDisablesChangeNothing(r, b, attempts[1..], farewell); }
  }

  predicate AllAcked(a: Attempt) {
    Acked(a.off) && Acked(a.clear) && Acked(a.ini) && Acked(a.trips) && Acked(a.volts) && Acked(a.amps)
  }

  /** An attempt hands over exactly when the scales suit, all six writes are
      acknowledged, both reads arrive, and the five registers read back within two
      hundredths of what was commanded with the output off. */
  lemma AttemptHandsOverExactly(r: Registers, b: Setup, a: Attempt)
    ensures var s := BootSequence(r, b, a);
            s.ok <==>
              && a.scalesMatch == Some(true) && AllAcked(a) && a.statusRead && a.limitsRead
              && -0.02 < s.regs.vSet - b.floatV < 0.02
              && -0.02 < s.regs.iSet - b.iSetA < 0.02
              && -0.02 < s.regs.limits.ovpV - b.limits.ovpV < 0.02
              && -0.02 < s.regs.limits.ocpA - b.limits.ocpA < 0.02
              && -0.02 < s.regs.limits.lvpV - b.limits.lvpV < 0.02
              && !s.regs.outputOn
  {
    hide Perform, Seen;
  }

  /** Booting hands over exactly when one of the attempts would, and then it is the
      first that does: none after it is made. */
  lemma {:induction false} BootHandsOverExactly(r: Registers, b: Setup, attempts: seq<Attempt>, farewell: Transaction)
    ensures BootWithRetries(r, b, attempts, farewell).ok <==>
              exists k :: 0 <= k < |attempts| && HandsOver(RegsBefore(r, b, attempts[..k]), b, attempts[k])
    decreases |attempts|
  {
    if attempts != [] {
      hide BootSequence;
      var first := BootSequence(r, b, attempts[0]);
      var rest := attempts[1..];
      BootHandsOverExactly(first.regs, b, rest, farewell);
      assert attempts[..0] == [];
      forall k | 0 <= k < |rest|
        ensures rest[k] == attempts[k + 1] && RegsBefore(r, b, attempts[..k + 1]) == RegsBefore(first.regs, b, rest[..k])
      {
        assert attempts[..k + 1][1..] == rest[..k];
      }
      if first.ok {
        assert HandsOver(RegsBefore(r, b, attempts[..0]), b, attempts[0]);
      } else {
        if k :| 0 <= k < |attempts| && HandsOver(RegsBefore(r, b, attempts[..k]), b, attempts[k]) {
          assert k > 0 && HandsOver(RegsBefore(first.regs, b, rest[..k - 1]), b, rest[k - 1]);
        }
        if j :| 0 <= j < |rest| && HandsOver(RegsBefore(first.regs, b, rest[..j]), b, rest[j]) {
          assert HandsOver(RegsBefore(r, b, attempts[..j + 1]), b, attempts[j + 1]);
        }
      }
    }
  }

  predicate HandsOver(r: Registers, b: Setup, a: Attempt) {
    BootSequence(r, b, a).ok
  }

  /** The registers after these attempts. */
  function RegsBefore(r: Registers, b: Setup, attempts: seq<Attempt>): Registers
    decreases |attempts|
  {
    if attempts == [] then r else RegsBefore(BootSequence(r, b, attempts[0]).regs, b, attempts[1..])
  }

  /** Even a device that acknowledges what it did not do is not handed over
      unless it reads back right and off. */
  lemma {:induction false} BootHandsOverVerified(r: Registers, b: Setup, attempts: seq<Attempt>, farewell: Transaction)
    ensures BootWithRetries(r, b, attempts, farewell).ok ==>
              && Verified(b, BootWithRetries(r, b, attempts, farewell).regs)
              && exists i :: 0 <= i < |attempts| && attempts[i].scalesMatch == Some(true)
    decreases |attempts|
  {
    if attempts != [] {
      var first := BootSequence(r, b, attempts[0]);
      if first.ok {
        assert attempts[0].scalesMatch == Some(true);
      } else {
        BootHandsOverVerified(first.regs, b, attempts[1..], farewell);
        if BootWithRetries(r, b, attempts, farewell).ok {
          var i :| 0 <= i < |attempts[1..]| && attempts[1..][i].scalesMatch == Some(true);
          assert attempts[i + 1].scalesMatch == Some(true);
        }
      }
    }
  }

  // ------------------------------------------------------------- the device

  class Buck {
    var regs: Registers
    ghost var seen: seq<Registers>

    method Send(w: Write, x: Transaction) returns (ok: bool)
      modifies this
      ensures regs == Perform(old(regs), w, x)
      ensures seen == old(seen) + Seen(old(regs), w, x)
      ensures ok <==> Acked(x)
    {
      ghost var before := regs;
      if x.selfOff.Some? {
        regs := regs.(outputOn := false, cause := x.selfOff.value);
      }
      if Arrives(x) {
        match w
        case Volts(v) => regs := regs.(vSet := v);
        case Output(on) => regs := regs.(outputOn := on, cause := if on then Normal else regs.cause);
        case ClearProtection => regs := regs.(cause := Normal);
        case PowerOnDefault(on) => regs := regs.(powerOnOutput := on);
        case Limits(l) => regs := regs.(limits := l);
        case Amps(i) => regs := regs.(iSet := i);
      }
      seen := seen + Seen(before, w, x);
      ok := Acked(x);
    }

    /** Something happens to the buck that the firmware did not do. */
    method Suffer(o: Outside)
      modifies this`regs
      ensures regs == Meddle(old(regs), o)
    {
      regs := Meddle(regs, o);
    }

    /** The sequence behind `Action::UpdateVoltage`. */
    method ApplyUpdateVoltage(t: VoltageTicket, xs: Transactions)
      returns (committed: bool, errors: seq<XyError>, ghost calls: seq<Call>)
      modifies this
      ensures old(seen) <= seen
      ensures ApplyVoltage(old(regs), t, xs) == Applied(regs, committed, calls, errors, seen[|old(seen)|..])
    {
      errors, calls := [], [];
      if !t.cycleOutput {
        committed := Send(Volts(t.targetV), xs.volts);
        calls := [Call(Volts(t.targetV), committed)];
        if !committed {
          errors := [SetVoltageError];
        }
        return;
      }
      committed := false;
      var ok := Send(Output(false), xs.off);
      calls := [Call(Output(false), ok)];
      if !ok {
        errors := [SetOutputError];
        return;
      }
      ok := Send(Volts(t.targetV), xs.volts);
      calls := calls + [Call(Volts(t.targetV), ok)];
      if !ok {
        errors := [SetVoltageError];
        ok := Send(Output(true), xs.on);
        calls := calls + [Call(Output(true), ok)];
        if !ok {
          errors := errors + [SetOutputError];
        }
        return;
      }
      ok := Send(Output(true), xs.on);
      calls := calls + [Call(Output(true), ok)];
      if !ok {
        ok := Send(Output(true), xs.onAgain);
        calls := calls + [Call(Output(true), ok)];
        if !ok {
          errors := [SetOutputError];
        }
      }
      committed := true;
    }

    /** One more boot write, following on from `before`. */
    method SendNext(w: Write, x: Transaction, ghost start: seq<Registers>, ghost before: Sent)
      returns (ok: bool, ghost after: Sent)
      requires before.ok && before.regs == regs && seen == start + before.seen
      modifies this
      ensures after == Then(before, w, x)
      ensures after.ok == ok && after.regs == regs && seen == start + after.seen
    {
      ok := Send(w, x);
      after := Then(before, w, x);
    }

    method Boot(b: Setup, a: Attempt) returns (ok: bool)
      modifies this
      ensures seen == old(seen) + BootSequence(old(regs), b, a).seen
      ensures regs == BootSequence(old(regs), b, a).regs && ok == BootSequence(old(regs), b, a).ok
    {
      hide Perform, Seen;
      if a.scalesMatch != Some(true) {
        return false;
      }
      ghost var s := Sent(regs, true, []);
      ok, s := SendNext(Output(false), a.off, old(seen), s);
      if !ok { return; }
      ok, s := SendNext(ClearProtection, a.clear, old(seen), s);
      if !ok { return; }
      ok, s := SendNext(PowerOnDefault(false), a.ini, old(seen), s);
      if !ok { return; }
      ok, s := SendNext(Limits(b.limits), a.trips, old(seen), s);
      if !ok { return; }
      ok, s := SendNext(Volts(b.floatV), a.volts, old(seen), s);
      if !ok { return; }
      ok, s := SendNext(Amps(b.iSetA), a.amps, old(seen), s);
      if !ok { return; }
      ok := a.statusRead && a.limitsRead && Verified(b, regs);
    }

    /** `boot_with_retries`; false is the reboot. */
    method BootOrReboot(b: Setup, attempts: seq<Attempt>, farewell: Transaction) returns (ok: bool)
      requires |attempts| == BOOT_RETRY_COUNT
      modifies this
      ensures var all := BootWithRetries(old(regs), b, attempts, farewell);
              seen == old(seen) + all.seen && regs == all.regs && ok == all.ok
    {
      hide BootSequence, BootWithRetries, Perform, Seen, Prepend;
      ghost var all := BootWithRetries(regs, b, attempts, farewell);
      ghost var done: seq<Registers> := [];
      var i := 0;
      assert attempts[0..] == attempts;
      PrependNothing(all);
      while i < BOOT_RETRY_COUNT
        invariant i <= BOOT_RETRY_COUNT
        invariant seen == old(seen) + done
        invariant all == Prepend(done, BootWithRetries(regs, b, attempts[i..], farewell))
      {
        ghost var first := BootSequence(regs, b, attempts[i]);
        assert attempts[i..] == [attempts[i]] + attempts[i + 1..];
        BootUnfolds(regs, b, attempts[i], attempts[i + 1..], farewell);
        PrependJoins(done, first.seen, BootWithRetries(first.regs, b, attempts[i + 1..], farewell));
        PrependIs(done, first);
        ok := Boot(b, attempts[i]);
        if ok { return; }
        done := done + first.seen;
        i := i + 1;
      }
      assert attempts[i..] == [];
      BootGivesUp(regs, b, farewell);
      PrependIs(done, BootWithRetries(regs, b, [], farewell));
      ok := Send(Output(false), farewell);
      ok := false;
    }
  }
}
