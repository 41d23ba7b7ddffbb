/** Per-sample timestamps of one flush: `n` evenly spaced instants on the
    half-open interval `[start, start + span)`, as
    `linspace(start, start + span, n + 1)[:-1]` gives them, in exact arithmetic. */
module Timestamps {

  /** Length of one block in nanoseconds: `read_samples / sampling_rate * 1e9`. */
  function BlockDurationNs(readSamples: nat, samplingRate: nat): (d: real)
    requires samplingRate > 0
    ensures d >= 0.0
    ensures readSamples > 0 ==> d > 0.0
  {
    (readSamples as real) * 1000000000.0 / (samplingRate as real)
  }

  /** `linspace(start, start + span, n + 1)` without its last point. For `n == 0`
      the linspace has only its start point, which is dropped. */
  function Linspace(start: real, span: real, n: nat): (r: seq<real>)
    ensures |r| == n && (n > 0 ==> r[0] == start)
  {
    seq(n, i requires 0 <= i < n => start + (i as real) * (span / (n as real)))
  }

  /** Every instant of `ts` lies in `[start, start + span)`. */
  predicate WithinInterval(ts: seq<real>, start: real, span: real)
  {
    forall i :: 0 <= i < |ts| ==> start <= ts[i] < start + span
  }

  /** `i * (span / n) < span` when `i < n` and the span is positive. */
  lemma StepBelowSpan(span: real, n: nat, i: nat)
    requires span > 0.0 && i < n
    ensures 0.0 <= (i as real) * (span / (n as real)) < span
  {
    var step := span / (n as real);
    assert step > 0.0;
    assert (n as real) * step == span;
    assert (i as real) * step < (n as real) * step;
  }

  /** The timestamps: exactly `n` of them, the first at `start`, consecutive
      ones `span / n` apart, all inside `[start, start + span)`. */
  lemma LinspaceEvenlySpaced(start: real, span: real, n: nat)
    requires span > 0.0
    ensures |Linspace(start, span, n)| == n
    ensures n > 0 ==> Linspace(start, span, n)[0] == start
    ensures forall i :: 0 <= i < n - 1 ==>
      Linspace(start, span, n)[i + 1] - Linspace(start, span, n)[i] == span / (n as real)
    ensures WithinInterval(Linspace(start, span, n), start, span)
  {
    var ts := Linspace(start, span, n);
    forall i | 0 <= i < n - 1
      ensures ts[i + 1] - ts[i] == span / (n as real)
    {
      var step := span / (n as real);
      assert ts[i + 1] == start + ((i + 1) as real) * step;
      assert ((i + 1) as real) * step == (i as real) * step + step;
    }
    forall i | 0 <= i < n
      ensures start <= ts[i] < start + span
    {
      StepBelowSpan(span, n, i);
    }
  }
}
