/** Time-based debouncing (`debounce.rs`): an O(1) accumulator standing in for
    a statement about a whole history of readings. */
module Debouncing {

  /** One call: whether the condition held, and the time charged. */
  datatype Reading = Reading(cond: bool, dt: nat)

  function HardStep(elapsed: nat, r: Reading): nat {
    if r.cond then elapsed + r.dt else 0
  }

  function LeakyStep(elapsed: nat, r: Reading): nat {
    if r.cond then elapsed + r.dt else if r.dt <= elapsed then elapsed - r.dt else 0
  }

  function HardFold(h: seq<Reading>): nat {
    if h == [] then 0 else HardStep(HardFold(h[..|h| - 1]), h[|h| - 1])
  }

  function LeakyFold(h: seq<Reading>): nat {
    if h == [] then 0 else LeakyStep(LeakyFold(h[..|h| - 1]), h[|h| - 1])
  }

  function Signed(r: Reading): int {
    if r.cond then r.dt else 0 - r.dt
  }

  /** Time true minus time false over a window. */
  function Net(h: seq<Reading>): int {
    if h == [] then 0 else Net(h[..|h| - 1]) + Signed(h[|h| - 1])
  }

  ghost predicate AllTrue(h: seq<Reading>) {
    forall i :: 0 <= i < |h| ==> h[i].cond
  }

  /** Dropping the newest reading commutes with choosing where a window starts. */
  lemma NetSplitsLast(h: seq<Reading>, k: nat)
    requires k < |h|
    ensures Net(h[k..]) == Net(h[..|h| - 1][k..]) + Signed(h[|h| - 1])
  {
    assert h[k..][..|h[k..]| - 1] == h[..|h| - 1][k..];
  }

  /** The leaky accumulator is the largest net time over all windows that end
      now; the empty window supplies the floor at zero. */
  lemma {:induction false} LeakyIsBestWindow(h: seq<Reading>)
    ensures forall k :: 0 <= k <= |h| ==> Net(h[k..]) <= LeakyFold(h)
    ensures exists k :: 0 <= k <= |h| && Net(h[k..]) == LeakyFold(h)
  {
    if h == [] {
      assert Net(h[0..]) == 0;
    } else {
      var g := h[..|h| - 1];
      LeakyIsBestWindow(g);
      assert Net(h[|h|..]) == 0;
      forall k | 0 <= k <= |h| ensures Net(h[k..]) <= LeakyFold(h) {
        if k < |h| { NetSplitsLast(h, k); assert Net(g[k..]) <= LeakyFold(g); }
      }
      var k :| 0 <= k <= |g| && Net(g[k..]) == LeakyFold(g);
      NetSplitsLast(h, k);
    }
  }

  /** A leaky gate stands at or past its timeout exactly when some window
      ending now has at least that much net time. */
  lemma LeakyFiresExactly(h: seq<Reading>, timeout: nat)
    requires 0 < timeout
    ensures LeakyFold(h) >= timeout <==> exists k :: 0 <= k <= |h| && Net(h[k..]) >= timeout
  {
    LeakyIsBestWindow(h);
  }

  /** The hard accumulator is the time spent in the unbroken run of true
      readings that ends now. */
  lemma {:induction false} HardIsTrailingRun(h: seq<Reading>)
    ensures exists k :: 0 <= k <= |h| && AllTrue(h[k..]) && (k > 0 ==> !h[k - 1].cond) && HardFold(h) == Net(h[k..])
  {
    if h == [] {
      assert AllTrue(h[0..]) && Net(h[0..]) == 0;
    } else {
      var g := h[..|h| - 1];
      HardIsTrailingRun(g);
      if h[|h| - 1].cond {
        var k :| 0 <= k <= |g| && AllTrue(g[k..]) && (k > 0 ==> !g[k - 1].cond) && HardFold(g) == Net(g[k..]);
        NetSplitsLast(h, k);
        assert forall i :: 0 <= i < |h[k..]| - 1 ==> h[k..][i] == g[k..][i];
        assert AllTrue(h[k..]) && (k > 0 ==> !h[k - 1].cond);
      } else {
        assert AllTrue(h[|h|..]) && Net(h[|h|..]) == 0;
      }
    }
  }

  /** The accumulator itself. */
  class Debounce {
    var elapsed: nat

    constructor ()
      ensures elapsed == 0
    {
      elapsed := 0;
    }

    method Step(cond: bool, dt: nat, timeout: nat) returns (fired: bool)
      modifies this
      ensures elapsed == HardStep(old(elapsed), Reading(cond, dt))
      ensures fired <==> cond && elapsed >= timeout
    {
      if cond {
        elapsed := elapsed + dt;
        fired := elapsed >= timeout;
      } else {
        elapsed := 0;
        fired := false;
      }
    }

    method Reset()
      modifies this
      ensures elapsed == 0
    {
      elapsed := 0;
    }

    /** The source's debug assertion is the precondition: the accumulator may
        overshoot its window by no more than the tick that crossed the line. */
    method StepLeaky(cond: bool, dt: nat, timeout: nat) returns (fired: bool)
      requires LeakyStep(elapsed, Reading(cond, dt)) <= timeout + dt
      modifies this
      ensures elapsed == LeakyStep(old(elapsed), Reading(cond, dt))
      ensures fired <==> elapsed >= timeout
    {
      if cond {
        elapsed := elapsed + dt;
      } else {
        elapsed := if dt <= elapsed then elapsed - dt else 0;
      }
      assert elapsed <= timeout + dt;
      fired := elapsed >= timeout;
    }
  }
}
