/**
 The metrics collector's histogram and summary. A histogram keeps one count per bucket and
 one more for values above every bucket; rendering turns the counts into running totals.
 */
module Metrics {
  import opened Prelude

  datatype Histogram = Histogram(buckets: seq<nat>, counts: seq<nat>, sum: nat, count: nat)

  // ── Recording ──────────────────────────────────────────────────────

  /** The first bucket a value fits in, or the overflow slot after the last one. */
  function Slot(buckets: seq<nat>, value: nat): (i: nat)
    ensures i <= |buckets|
  {
    if buckets == [] || value <= buckets[0] then 0 else 1 + Slot(buckets[1..], value)
  }

  function Zeros(n: nat): seq<nat> {
    seq(n, _ => 0)
  }

  /** The counts, grown with zeros until index `i` exists. */
  function Grown(counts: seq<nat>, buckets: seq<nat>, i: nat): (r: seq<nat>)
    ensures i < |r|
  {
    var c := if counts == [] then Zeros(|buckets| + 1) else counts;
    if |c| <= i then c + Zeros(i + 1 - |c|) else c
  }

  function Record(h: Histogram, value: nat): Histogram {
    var i := Slot(h.buckets, value);
    var c := Grown(h.counts, h.buckets, i);
    Histogram(h.buckets, c[i := c[i] + 1], h.sum + value, h.count + 1)
  }

  function RecordAll(h: Histogram, values: seq<nat>): Histogram
    decreases |values|
  {
    if values == [] then h else Record(RecordAll(h, values[..|values| - 1]), values[|values| - 1])
  }

  // ── Rendering ──────────────────────────────────────────────────────

  function CountAt(h: Histogram, i: nat): nat {
    if i < |h.counts| then h.counts[i] else 0
  }

  /** The total printed on the line of bucket `i - 1`, after `i` buckets. */
  function Cumulative(h: Histogram, i: nat): nat {
    if i == 0 then 0 else Cumulative(h, i - 1) + CountAt(h, i - 1)
  }

  /** The total printed on the `+Inf` line. */
  function Infinity(h: Histogram): nat {
    Cumulative(h, |h.buckets|) + (if h.counts == [] then 0 else h.counts[|h.counts| - 1])
  }

  // ── What the lines mean ────────────────────────────────────────────

  /** How many of the values are at most `bound`. */
  function AtMost(values: seq<nat>, bound: nat): nat {
    if values == [] then 0
    else AtMost(values[..|values| - 1], bound) + (if values[|values| - 1] <= bound then 1 else 0)
  }

  /** How many of the values fall into one of the first `i` buckets. */
  function InFirst(buckets: seq<nat>, values: seq<nat>, i: nat): nat {
    if values == [] then 0
    else InFirst(buckets, values[..|values| - 1], i) + (if Slot(buckets, values[|values| - 1]) < i then 1 else 0)
  }

  predicate Registered(h: Histogram) {
    |h.counts| == |h.buckets| + 1
  }

  predicate Ascending(buckets: seq<nat>) {
    forall i, j :: 0 <= i < j < |buckets| ==> buckets[i] <= buckets[j]
  }

  function Fresh(buckets: seq<nat>): Histogram {
    Histogram(buckets, Zeros(|buckets| + 1), 0, 0)
  }

  lemma {:induction false} SlotIsFirstFit(buckets: seq<nat>, value: nat)
    ensures var i := Slot(buckets, value);
      (forall j :: 0 <= j < i ==> buckets[j] < value) && (i < |buckets| ==> value <= buckets[i])
  {
    if buckets != [] && value > buckets[0] {
      SlotIsFirstFit(buckets[1..], value);
      forall j | 0 <= j < Slot(buckets, value) ensures buckets[j] < value {
        if j > 0 { assert buckets[j] == buckets[1..][j - 1]; }
      }
    }
  }

  /** In ascending buckets a value falls in one of the first `i` exactly when the `i`-th bound holds it. */
  lemma {:induction false} SlotByBound(buckets: seq<nat>, value: nat, i: nat)
    requires Ascending(buckets) && i < |buckets|
    ensures Slot(buckets, value) <= i <==> value <= buckets[i]
  {
    SlotIsFirstFit(buckets, value);
  }

  lemma {:induction false} InFirstIsAtMost(buckets: seq<nat>, values: seq<nat>, i: nat)
    requires Ascending(buckets) && i < |buckets|
    ensures InFirst(buckets, values, i + 1) == AtMost(values, buckets[i])
    decreases |values|
  {
    if values == [] {
    } else {
      InFirstIsAtMost(buckets, values[..|values| - 1], i);
      SlotByBound(buckets, values[|values| - 1], i);
    }
  }

  lemma {:induction false} RecordKeepsShape(h: Histogram, value: nat)
    requires Registered(h)
    ensures var d, s := Record(h, value), Slot(h.buckets, value);
      Registered(d) && d.buckets == h.buckets && d.counts == h.counts[s := h.counts[s] + 1]
  {
  }

  lemma {:induction false} CumulativeAfterRecord(h: Histogram, value: nat, i: nat)
    requires Registered(h) && i <= |h.buckets| + 1
    ensures Cumulative(Record(h, value), i) == Cumulative(h, i) + if Slot(h.buckets, value) < i then 1 else 0
    decreases i
  {
    RecordKeepsShape(h, value);
    if i == 0 {
    } else {
      CumulativeAfterRecord(h, value, i - 1);
    }
  }

  lemma {:induction false} CumulativeFresh(buckets: seq<nat>, i: nat)
    requires i <= |buckets| + 1
    ensures Cumulative(Fresh(buckets), i) == 0
    decreases i
  {
    if i == 0 {
    } else {
      CumulativeFresh(buckets, i - 1);
    }
  }

  lemma {:induction false} CumulativeIsInFirst(buckets: seq<nat>, values: seq<nat>, i: nat)
    requires i <= |buckets| + 1
    ensures var h := RecordAll(Fresh(buckets), values);
      Registered(h) && h.buckets == buckets && Cumulative(h, i) == InFirst(buckets, values, i) && h.count == |values|
    decreases |values|
  {
    if values == [] {
      CumulativeFresh(buckets, i);
    } else {
      var h := RecordAll(Fresh(buckets), values[..|values| - 1]);
      CumulativeIsInFirst(buckets, values[..|values| - 1], i);
      RecordKeepsShape(h, values[|values| - 1]);
      CumulativeAfterRecord(h, values[|values| - 1], i);
    }
  }

  lemma {:induction false} EverythingIsInSomeSlot(buckets: seq<nat>, values: seq<nat>)
    ensures InFirst(buckets, values, |buckets| + 1) == |values|
    decreases |values|
  {
    if values == [] {
    } else {
      EverythingIsInSomeSlot(buckets, values[..|values| - 1]);
    }
  }

  /** Whatever the buckets, the `+Inf` line counts every recorded value. */
  lemma {:induction false} InfinityIsCount(buckets: seq<nat>, values: seq<nat>)
    ensures var h := RecordAll(Fresh(buckets), values); Infinity(h) == h.count == |values|
  {
    CumulativeIsInFirst(buckets, values, |buckets| + 1);
    EverythingIsInSomeSlot(buckets, values);
  }

  /** The lines never decrease. */
  lemma {:induction false} LinesNeverDecrease(h: Histogram, i: nat, j: nat)
    requires i <= j <= |h.buckets|
    ensures Cumulative(h, i) <= Cumulative(h, j) <= Infinity(h)
    decreases |h.buckets| - i
  {
    if i < j {
      LinesNeverDecrease(h, i + 1, j);
    } else if j < |h.buckets| {
      LinesNeverDecrease(h, i + 1, j + 1);
    }
  }

  /**
   The line of each bucket is the number of recorded values up to its bound, for whatever is
   recorded, exactly when the buckets were registered in ascending order.
   */
  lemma LinesCountExactly(buckets: seq<nat>)
    ensures Ascending(buckets) <==>
      forall values: seq<nat>, i: nat :: i < |buckets| ==>
        Cumulative(RecordAll(Fresh(buckets), values), i + 1) == AtMost(values, buckets[i])
  {
    if Ascending(buckets) {
      forall values: seq<nat>, i: nat | i < |buckets|
        ensures Cumulative(RecordAll(Fresh(buckets), values), i + 1) == AtMost(values, buckets[i])
      {
        CumulativeIsInFirst(buckets, values, i + 1);
        InFirstIsAtMost(buckets, values, i);
      }
    } else {
      var i, j :| 0 <= i < j < |buckets| && buckets[i] > buckets[j];
      var values := [buckets[i]];
      SlotIsFirstFit(buckets, buckets[i]);
      CumulativeIsInFirst(buckets, values, j + 1);
      assert values[..0] == [];
      assert AtMost(values, buckets[j]) == 0 && InFirst(buckets, values, j + 1) == 1;
      assert Cumulative(RecordAll(Fresh(buckets), values), j + 1) != AtMost(values, buckets[j]);
    }
  }

  function Total(values: seq<nat>): nat {
    if values == [] then 0 else values[0] + Total(values[1..])
  }

  lemma {:induction false} TotalSnoc(values: seq<nat>, value: nat)
    ensures Total(values + [value]) == Total(values) + value
  {
    if values == [] {
      assert [] + [value] == [value] && [value][1..] == [];
    } else {
      TotalSnoc(values[1..], value);
      assert (values + [value])[1..] == values[1..] + [value];
    }
  }

  /** The sum printed is that of the values recorded, and the buckets stay as registered. */
  lemma {:induction false} SumIsTotal(buckets: seq<nat>, values: seq<nat>)
    ensures var h := RecordAll(Fresh(buckets), values); h.sum == Total(values) && h.buckets == buckets
    decreases |values|
  {
    if values == [] {
    } else {
      var front, last := values[..|values| - 1], values[|values| - 1];
      SumIsTotal(buckets, front);
      TotalSnoc(front, last);
      assert values == front + [last];
    }
  }

  // ── Summary ────────────────────────────────────────────────────────

  datatype Summary = Summary(values: seq<real>, maxSize: nat, count: nat, sum: real)

  /** A full ring overwrites the slot the running count points at. */
  function SummaryRecord(s: Summary, value: real): Summary
    requires |s.values| <= s.maxSize
  {
    var kept :=
      if |s.values| < s.maxSize then s.values + [value]
      else if s.values != [] then s.values[s.count % s.maxSize := value]
      else s.values;
    Summary(kept, s.maxSize, s.count + 1, s.sum + value)
  }

  function SummaryAll(maxSize: nat, values: seq<real>): (s: Summary)
    ensures |s.values| <= s.maxSize == maxSize
    decreases |values|
  {
    if values == [] then Summary([], maxSize, 0, 0.0)
    else SummaryRecord(SummaryAll(maxSize, values[..|values| - 1]), values[|values| - 1])
  }

  lemma ModDiffers(j: nat, n: nat, m: nat)
    requires 0 < n - j < m
    ensures j % m != n % m
  {
    var q := n / m - j / m;
    assert n - j == m * q + (n % m - j % m);
    assert q >= 1 ==> m * q >= m;
    assert q <= 0 ==> m * q <= 0;
  }

  /** The ring holds exactly the newest `maxSize` samples, the `j`-th of all at slot `j % maxSize`. */
  ghost predicate HoldsNewest(s: Summary, values: seq<real>) {
    && |s.values| == Min(|values|, s.maxSize) && s.count == |values|
    && forall j :: Max(0, |values| - s.maxSize) <= j < |values| ==> RingSlot(s, j) && s.values[j % s.maxSize] == values[j]
  }

  ghost predicate RingSlot(s: Summary, j: int) {
    s.maxSize > 0 && 0 <= j % s.maxSize < |s.values|
  }

  lemma SmallMod(j: nat, m: nat)
    requires j < m
    ensures j % m == j
  {
  }

  lemma RingGrows(s: Summary, values: seq<real>, value: real)
    requires HoldsNewest(s, values) && |values| < s.maxSize
    ensures HoldsNewest(SummaryRecord(s, value), values + [value])
  {
    var d, m := SummaryRecord(s, value), s.maxSize;
    assert d.values == s.values + [value];
    forall j | 0 <= j <= |values| ensures RingSlot(d, j) && d.values[j % m] == (values + [value])[j] {
      SmallMod(j, m);
      if j < |values| { assert RingSlot(s, j) && s.values[j % m] == values[j]; }
    }
  }

  lemma RingTurns(s: Summary, values: seq<real>, value: real)
    requires HoldsNewest(s, values) && |values| >= s.maxSize > 0
    ensures HoldsNewest(SummaryRecord(s, value), values + [value])
  {
    var n, m, d := |values|, s.maxSize, SummaryRecord(s, value);
    assert d.values == s.values[n % m := value];
    forall j | n + 1 - m <= j <= n ensures RingSlot(d, j) && d.values[j % m] == (values + [value])[j] {
      if j < n {
        assert RingSlot(s, j);
        ModDiffers(j, n, m);
      }
    }
  }

  lemma {:induction false} SummaryKeepsNewest(maxSize: nat, values: seq<real>)
    ensures HoldsNewest(SummaryAll(maxSize, values), values)
    decreases |values|
  {
    if values == [] {
    } else {
      var n := |values| - 1;
      SummaryKeepsNewest(maxSize, values[..n]);
      if n < maxSize {
        RingGrows(SummaryAll(maxSize, values[..n]), values[..n], values[n]);
      } else if maxSize > 0 {
        RingTurns(SummaryAll(maxSize, values[..n]), values[..n], values[n]);
      }
      assert values[..n] + [values[n]] == values;
    }
  }

  function RealTotal(values: seq<real>): real {
    if values == [] then 0.0 else values[0] + RealTotal(values[1..])
  }

  lemma {:induction false} RealTotalSnoc(values: seq<real>, value: real)
    ensures RealTotal(values + [value]) == RealTotal(values) + value
  {
    if values == [] {
      assert [] + [value] == [value] && [value][1..] == [];
    } else {
      RealTotalSnoc(values[1..], value);
      assert (values + [value])[1..] == values[1..] + [value];
    }
  }

  /** The sum covers every sample, overwritten or not. */
  lemma {:induction false} SummarySumsAll(maxSize: nat, values: seq<real>)
    ensures SummaryAll(maxSize, values).sum == RealTotal(values)
    decreases |values|
  {
    if values == [] {
    } else {
      var front, last := values[..|values| - 1], values[|values| - 1];
      SummarySumsAll(maxSize, front);
      RealTotalSnoc(front, last);
      assert values == front + [last];
    }
  }

  // ── The collector ──────────────────────────────────────────────────

  class MetricsCollector {
    var histograms: map<string, Histogram>
    var summaries: map<string, Summary>

    constructor ()
      ensures histograms == map[] && summaries == map[]
    {
      histograms, summaries := map[], map[];
    }

    /** What `register_agent_metrics` does for one histogram: nothing if the name is taken. */
    method RegisterHistogram(name: string, buckets: seq<nat>)
      modifies this`histograms
      ensures histograms == if name in old(histograms) then old(histograms) else old(histograms)[name := Fresh(buckets)]
    {
      if name !in histograms { histograms := histograms[name := Fresh(buckets)]; }
    }

    method HistogramRecord(name: string, value: nat)
      modifies this`histograms
      ensures histograms == old(histograms)[name :=
        Record(if name in old(histograms) then old(histograms)[name] else Histogram([], [0], 0, 0), value)]
    {
      var h := if name in histograms then histograms[name] else Histogram([], [0], 0, 0);
      var counts := if h.counts == [] then Zeros(|h.buckets| + 1) else h.counts;
      var idx := 0;
      while idx < |h.buckets| && value > h.buckets[idx]
        invariant idx <= |h.buckets|
        invariant Slot(h.buckets, value) == idx + Slot(h.buckets[idx..], value)
      {
        idx := idx + 1;
      }
      if |counts| <= idx { counts := counts + Zeros(idx + 1 - |counts|); }
      counts := counts[idx := counts[idx] + 1];
      histograms := histograms[name := Histogram(h.buckets, counts, h.sum + value, h.count + 1)];
    }

    /** The numbers on a histogram's lines: one per bucket, then `+Inf`. */
    method RenderHistogram(name: string) returns (lines: seq<nat>, infinity: nat)
      requires name in histograms
      ensures var h := histograms[name];
        && |lines| == |h.buckets|
        && (forall i :: 0 <= i < |lines| ==> lines[i] == Cumulative(h, i + 1))
        && infinity == Infinity(h)
    {
      var h := histograms[name];
      var cumulative := 0;
      lines := [];
      for idx := 0 to |h.buckets|
        invariant cumulative == Cumulative(h, idx) && |lines| == idx
        invariant forall i :: 0 <= i < idx ==> lines[i] == Cumulative(h, i + 1)
      {
        cumulative := cumulative + CountAt(h, idx);
        lines := lines + [cumulative];
      }
      infinity := cumulative + (if h.counts == [] then 0 else h.counts[|h.counts| - 1]);
    }

    method RecordSummary(name: string, value: real)
      requires forall n :: n in summaries ==> |summaries[n].values| <= summaries[n].maxSize
      modifies this`summaries
      ensures forall n :: n in summaries ==> |summaries[n].values| <= summaries[n].maxSize
      ensures summaries == old(summaries)[name :=
        SummaryRecord(if name in old(summaries) then old(summaries)[name] else Summary([], 1000, 0, 0.0), value)]
    {
      var s := if name in summaries then summaries[name] else Summary([], 1000, 0, 0.0);
      s := s.(count := s.count + 1, sum := s.sum + value);
      if |s.values| < s.maxSize {
        s := s.(values := s.values + [value]);
      } else if s.values != [] {
        s := s.(values := s.values[(s.count - 1) % s.maxSize := value]);
      }
      summaries := summaries[name := s];
    }
  }
}
