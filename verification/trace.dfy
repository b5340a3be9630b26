/**
  The states visited by a search that applies a step function once per
  draw, shared by the searches that record one state per iteration.
 */
module Traces {
  /** The start, then the state after each draw. */
  function Trace<S, D>(next: (S, D) -> S, start: S, ds: seq<D>): (trace: seq<S>)
    ensures |trace| == |ds| + 1 && trace[0] == start
    decreases |ds|
  {
    if ds == [] then [start]
    else
      var prev := Trace(next, start, ds[..|ds| - 1]);
      prev + [next(prev[|ds| - 1], ds[|ds| - 1])]
  }

  /** The trace of a prefix of the draws is the prefix of the trace. */
  lemma {:induction false} TracePrefix<S, D>(next: (S, D) -> S, start: S, ds: seq<D>, m: nat)
    requires m <= |ds|
    ensures Trace(next, start, ds[..m]) == Trace(next, start, ds)[..m + 1]
    decreases |ds|
  {
    var n := |ds|;
    if m == n {
      assert ds[..m] == ds;
    } else {
      var full, prev := Trace(next, start, ds), Trace(next, start, ds[..n - 1]);
      assert full[..m + 1] == prev[..m + 1];
      TracePrefix(next, start, ds[..n - 1], m);
      assert ds[..n - 1][..m] == ds[..m];
    }
  }

  /** Entry k + 1 of a trace is one step, with draw k, from entry k. */
  lemma TraceAt<S, D>(next: (S, D) -> S, start: S, ds: seq<D>, k: nat)
    requires k < |ds|
    ensures var trace := Trace(next, start, ds);
      trace[k + 1] == next(trace[k], ds[k])
  {
    TracePrefix(next, start, ds, k + 1);
    TracePrefix(next, start, ds, k);
    assert ds[..k + 1][..k] == ds[..k];
  }
}
