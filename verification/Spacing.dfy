/** How many events that keep a minimum distance fit into a stretch of time.
    Used for rate-limit windows and for the seen-query cache, which both re-open
    only after more than 60 seconds. */
module Spacing {

  /** The least integer not below x. */
  function Ceiling(x: real): (n: int)
    ensures x <= n as real < x + 1.0
  {
    -((-x).Floor)
  }

  /** Points in time, the latest one outermost. */
  datatype Times = Never | At(earlier: Times, t: real) {
    function Count(): nat {
      if Never? then 0 else earlier.Count() + 1
    }

    function First(): real
      requires At?
    {
      if earlier.Never? then t else earlier.First()
    }

    /** Each time lies more than gap after the one before it. */
    ghost predicate SpacedBy(gap: real) {
      At? && earlier.At? ==> earlier.SpacedBy(gap) && t - earlier.t > gap
    }

    ghost predicate Within(a: real, b: real) {
      At? ==> earlier.Within(a, b) && a <= t <= b
    }
  }

  lemma {:induction false} SpreadOfSpaced(ts: Times, gap: real)
    requires ts.At? && ts.SpacedBy(gap) && gap > 0.0
    ensures ts.t - ts.First() >= (ts.Count() - 1) as real * gap
    ensures ts.Count() > 1 ==> ts.t - ts.First() > (ts.Count() - 1) as real * gap
  {
    if ts.earlier.At? {
      SpreadOfSpaced(ts.earlier, gap);
      assert (ts.Count() - 1) as real * gap == (ts.earlier.Count() - 1) as real * gap + gap;
    } else {
      assert (ts.Count() - 1) as real * gap == 0.0;
    }
  }

  lemma {:induction false} FirstIsWithin(ts: Times, a: real, b: real)
    requires ts.At? && ts.Within(a, b)
    ensures a <= ts.First() <= b
  {
    if ts.earlier.At? { FirstIsWithin(ts.earlier, a, b); }
  }

  /** Events more than `gap` apart inside a closed interval of positive length. */
  lemma SpacedCount(ts: Times, gap: real, a: real, b: real)
    requires ts.SpacedBy(gap) && ts.Within(a, b) && gap > 0.0 && a < b
    ensures ts.Count() <= Ceiling((b - a) / gap)
  {
    var k := (ts.Count() - 1) as real;
    if ts.At? {
      SpreadOfSpaced(ts, gap);
      FirstIsWithin(ts, a, b);
      if ts.Count() == 1 { assert k * gap == 0.0; }
      QuotientExceeds(k, b - a, gap);
    } else {
      QuotientExceeds(0.0, b - a, gap);
    }
  }

  lemma QuotientExceeds(k: real, d: real, gap: real)
    requires gap > 0.0 && k * gap < d
    ensures k < d / gap
  {
    assert (d / gap) * gap == d;
    assert (k - d / gap) * gap < 0.0;
  }
}
