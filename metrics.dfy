/**
 * The in-process metrics collector: counters that keep every increment as a
 * point, histograms over eleven fixed latency buckets, gauges that hold the
 * latest value, and the Prometheus text export.
 *
 * Each of the collector's three `Map`s is an `OrderedMap`: the entries and
 * the order in which their names were first inserted, which is the order a
 * JavaScript `Map` iterates in.
 */
module Metrics {
  import opened JsText
  import opened SeqUtils

  // ---------------------------------------------------------------- ordered maps

  /** A JavaScript `Map` keyed by metric name. */
  datatype OrderedMap<V> = OrderedMap(entries: map<string, V>, keys: seq<string>)

  /** Every key is listed exactly once in insertion order. */
  predicate Coherent<V>(m: OrderedMap<V>) {
    Distinct(m.keys)
    && (forall k :: k in m.keys ==> k in m.entries)
    && (forall k :: k in m.entries ==> k in m.keys)
  }

  function Empty<V>(): (r: OrderedMap<V>)
    ensures Coherent(r) && r.entries == map[]
  {
    OrderedMap(map[], [])
  }

  /** `map.set(k, v)`: a new key goes last, an existing key keeps its place. */
  function Put<V>(m: OrderedMap<V>, k: string, v: V): OrderedMap<V> {
    OrderedMap(m.entries[k := v], if k in m.entries then m.keys else m.keys + [k])
  }

  /** `Array.from(map.values())`. */
  function Values<V>(m: OrderedMap<V>): (r: seq<V>)
    requires Coherent(m)
    ensures |r| == |m.keys|
  {
    seq(|m.keys|, i requires 0 <= i < |m.keys| => m.entries[m.keys[i]])
  }

  /** Setting a name keeps the map coherent, stores the value and leaves every other name alone. */
  lemma PutStores<V>(m: OrderedMap<V>, k: string, v: V)
    requires Coherent(m)
    ensures Coherent(Put(m, k, v))
    ensures Put(m, k, v).entries.Keys == m.entries.Keys + {k}
    ensures Put(m, k, v).entries[k] == v
    ensures forall j :: j in m.entries && j != k ==> Put(m, k, v).entries[j] == m.entries[j]
  {
  }

  /** A new name is iterated after all the older ones. */
  lemma PutNewAppends<V>(m: OrderedMap<V>, k: string, v: V)
    requires Coherent(m) && k !in m.entries
    ensures Coherent(Put(m, k, v))
    ensures Values(Put(m, k, v)) == Values(m) + [v]
  {
    PutStores(m, k, v);
  }

  /** Setting a name that is present replaces its value where it stands in the iteration order. */
  lemma PutExistingInPlace<V>(m: OrderedMap<V>, k: string, v: V)
    requires Coherent(m) && k in m.entries
    ensures Coherent(Put(m, k, v))
    ensures |Values(Put(m, k, v))| == |Values(m)|
    ensures forall i :: 0 <= i < |m.keys| ==>
      Values(Put(m, k, v))[i] == if m.keys[i] == k then v else Values(m)[i]
  {
    PutStores(m, k, v);
  }

  // ---------------------------------------------------------------- metric records

  /** `MetricPoint`; `None` labels stand for `undefined`. */
  datatype MetricPoint = MetricPoint(timestamp: int, value: int, labels: Option<map<string, string>>)

  datatype CounterMetric = CounterMetric(name: string, description: string, unit: string, points: seq<MetricPoint>)

  /** A bucket's upper bound: a number or `Infinity`. */
  datatype Bound = Finite(n: int) | Infinity

  datatype HistogramBucket = HistogramBucket(upperBound: Bound, count: int)

  datatype HistogramMetric = HistogramMetric(
    name: string, description: string, unit: string,
    buckets: seq<HistogramBucket>, sum: int, count: int)

  datatype GaugeMetric = GaugeMetric(
    name: string, description: string, unit: string,
    value: int, timestamp: int, labels: Option<map<string, string>>)

  /** The result of `getStats()`. */
  datatype Stats = Stats(countersCount: int, histogramsCount: int, gaugesCount: int, totalDataPoints: int)

  /** The default buckets, in milliseconds. */
  const DefaultBounds: seq<Bound> := [
    Finite(10), Finite(25), Finite(50), Finite(100), Finite(250), Finite(500),
    Finite(1000), Finite(2500), Finite(5000), Finite(10000), Infinity]

  function NewCounter(name: string): CounterMetric {
    CounterMetric(name, "Counter: " + name, "count", [])
  }

  function NewHistogram(name: string): HistogramMetric {
    HistogramMetric(name, "Histogram: " + name, "ms",
      seq(|DefaultBounds|, i requires 0 <= i < |DefaultBounds| => HistogramBucket(DefaultBounds[i], 0)), 0, 0)
  }

  function NewGauge(name: string, value: int, labels: Option<map<string, string>>, now: int): GaugeMetric {
    GaugeMetric(name, "Gauge: " + name, "value", value, now, labels)
  }

  function CounterOrNew(m: OrderedMap<CounterMetric>, name: string): CounterMetric {
    if name in m.entries then m.entries[name] else NewCounter(name)
  }

  function HistogramOrNew(m: OrderedMap<HistogramMetric>, name: string): HistogramMetric {
    if name in m.entries then m.entries[name] else NewHistogram(name)
  }

  function CounterName(c: CounterMetric): string { c.name }
  function HistogramName(h: HistogramMetric): string { h.name }
  function GaugeName(g: GaugeMetric): string { g.name }

  /** Every entry of `m` is stored under its own name. */
  predicate KeyedByName<V>(m: OrderedMap<V>, nameOf: V -> string) {
    forall n :: n in m.entries ==> nameOf(m.entries[n]) == n
  }

  lemma PutKeyed<V>(m: OrderedMap<V>, nameOf: V -> string, k: string, v: V)
    requires KeyedByName(m, nameOf) && nameOf(v) == k
    ensures KeyedByName(Put(m, k, v), nameOf)
  {
  }

  // ---------------------------------------------------------------- counters

  function WithPoint(c: CounterMetric, p: MetricPoint): CounterMetric {
    c.(points := c.points + [p])
  }

  /** The number of points of the counters named in `names`, in that order. */
  function PointsOver(e: map<string, CounterMetric>, names: seq<string>): nat {
    if names == [] then 0
    else
      var last := names[|names| - 1];
      PointsOver(e, names[..|names| - 1]) + (if last in e then |e[last].points| else 0)
  }

  /** `totalDataPoints`: the points of every counter. */
  function TotalPoints(m: OrderedMap<CounterMetric>): nat {
    PointsOver(m.entries, m.keys)
  }

  lemma {:induction false} PointsOverOther(e: map<string, CounterMetric>, names: seq<string>, k: string, c: CounterMetric)
    requires k !in names
    ensures PointsOver(e[k := c], names) == PointsOver(e, names)
  {
    if names != [] {
      PointsOverOther(e, names[..|names| - 1], k, c);
    }
  }

  lemma {:induction false} PointsOverReplace(e: map<string, CounterMetric>, names: seq<string>, k: string, c: CounterMetric)
    requires Distinct(names) && k in names && k in e
    ensures PointsOver(e[k := c], names) == PointsOver(e, names) - |e[k].points| + |c.points|
  {
    var init := names[..|names| - 1];
    if names[|names| - 1] == k {
      assert k !in init by {
        forall i | 0 <= i < |init| ensures init[i] != k {
          assert names[i] != names[|names| - 1];
        }
      }
      PointsOverOther(e, init, k, c);
    } else {
      assert k in init by {
        var i :| 0 <= i < |names| && names[i] == k;
        assert i < |names| - 1 && init[i] == k;
      }
      PointsOverReplace(e, init, k, c);
    }
  }

  /** `incrementCounter` adds exactly one data point to the collector, whether or not the counter existed. */
  lemma IncrementAddsOnePoint(m: OrderedMap<CounterMetric>, name: string, p: MetricPoint)
    requires Coherent(m)
    ensures TotalPoints(Put(m, name, WithPoint(CounterOrNew(m, name), p))) == TotalPoints(m) + 1
  {
    var c := WithPoint(CounterOrNew(m, name), p);
    if name in m.entries {
      PointsOverReplace(m.entries, m.keys, name, c);
    } else {
      PointsOverOther(m.entries, m.keys, name, c);
      assert (m.keys + [name])[..|m.keys|] == m.keys;
    }
  }

  // ---------------------------------------------------------------- histograms

  /** Whether `value <= upperBound`. */
  predicate AtMost(value: int, b: Bound) {
    match b
    case Finite(n) => value <= n
    case Infinity => true
  }

  /** `a` lies at or below `b`. */
  predicate BoundLe(a: Bound, b: Bound) {
    match (a, b)
    case (_, Infinity) => true
    case (Infinity, Finite(_)) => false
    case (Finite(x), Finite(y)) => x <= y
  }

  /** How many of the observations fall at or below `b`. */
  function CountAtMost(obs: seq<int>, b: Bound): nat {
    if obs == [] then 0
    else CountAtMost(obs[..|obs| - 1], b) + (if AtMost(obs[|obs| - 1], b) then 1 else 0)
  }

  function Sum(obs: seq<int>): int {
    if obs == [] then 0 else Sum(obs[..|obs| - 1]) + obs[|obs| - 1]
  }

  /** A larger bound counts at least as many observations. */
  lemma {:induction false} CountAtMostMonotone(obs: seq<int>, a: Bound, b: Bound)
    requires BoundLe(a, b)
    ensures CountAtMost(obs, a) <= CountAtMost(obs, b)
  {
    if obs != [] {
      CountAtMostMonotone(obs[..|obs| - 1], a, b);
    }
  }

  /** The infinite bound counts every observation. */
  lemma {:induction false} CountAtMostInfinity(obs: seq<int>)
    ensures CountAtMost(obs, Infinity) == |obs|
  {
    if obs != [] {
      CountAtMostInfinity(obs[..|obs| - 1]);
    }
  }

  /** The histogram holds the default buckets and exactly the counts, sum and count of `obs`. */
  predicate Summarises(h: HistogramMetric, obs: seq<int>) {
    |h.buckets| == |DefaultBounds|
    && (forall i :: 0 <= i < |h.buckets| ==>
          h.buckets[i] == HistogramBucket(DefaultBounds[i], CountAtMost(obs, DefaultBounds[i])))
    && h.sum == Sum(obs)
    && h.count == |obs|
  }

  /** The bucket loop: every bucket whose bound is at least the value counts it once more. */
  function Observe(buckets: seq<HistogramBucket>, value: int): (r: seq<HistogramBucket>)
    ensures |r| == |buckets|
  {
    seq(|buckets|, i requires 0 <= i < |buckets| =>
      if AtMost(value, buckets[i].upperBound) then buckets[i].(count := buckets[i].count + 1) else buckets[i])
  }

  /** One `recordHistogram` on an existing histogram. */
  function Recorded(h: HistogramMetric, value: int): HistogramMetric {
    h.(buckets := Observe(h.buckets, value), sum := h.sum + value, count := h.count + 1)
  }

  /** A fresh histogram summarises no observations. */
  lemma NewHistogramEmpty(name: string)
    ensures Summarises(NewHistogram(name), [])
  {
  }

  /** Recording a value adds it to the summarised observations. */
  lemma RecordKeepsSummary(h: HistogramMetric, obs: seq<int>, value: int)
    requires Summarises(h, obs)
    ensures Summarises(Recorded(h, value), obs + [value])
  {
    assert (obs + [value])[..|obs|] == obs;
  }

  /**
   * What a summary promises: bucket counts never decrease along the bounds,
   * the `+Inf` bucket holds `count`, and a finite bucket never exceeds it.
   */
  lemma SummaryShape(h: HistogramMetric, obs: seq<int>)
    requires Summarises(h, obs)
    ensures forall i :: 0 <= i < |h.buckets| - 1 ==> h.buckets[i].count <= h.buckets[i + 1].count
    ensures h.buckets[|h.buckets| - 1].upperBound == Infinity
    ensures h.buckets[|h.buckets| - 1].count == h.count
  {
    forall i | 0 <= i < |h.buckets| - 1
      ensures h.buckets[i].count <= h.buckets[i + 1].count
    {
      CountAtMostMonotone(obs, DefaultBounds[i], DefaultBounds[i + 1]);
    }
    CountAtMostInfinity(obs);
  }

  /** The loop over `histogram.buckets` that bumps each bucket in place. */
  method ObserveBuckets(buckets: seq<HistogramBucket>, value: int) returns (r: seq<HistogramBucket>)
    ensures r == Observe(buckets, value)
  {
    r := buckets;
    var i := 0;
    while i < |r|
      invariant 0 <= i <= |r| == |buckets|
      invariant forall k :: 0 <= k < i ==> r[k] == Observe(buckets, value)[k]
      invariant forall k :: i <= k < |r| ==> r[k] == buckets[k]
    {
      if AtMost(value, r[i].upperBound) {
        r := r[i := r[i].(count := r[i].count + 1)];
      }
      i := i + 1;
    }
  }

  /** The body of `recordHistogram` once the histogram exists: the bucket loop, then `sum` and `count`. */
  method RecordValue(h: HistogramMetric, value: int) returns (r: HistogramMetric)
    ensures r == Recorded(h, value)
  {
    var buckets := ObserveBuckets(h.buckets, value);
    r := h.(buckets := buckets, sum := h.sum + value, count := h.count + 1);
  }

  // ---------------------------------------------------------------- Prometheus export

  /** `points.reduce((sum, point) => sum + point.value, 0)`. */
  function PointTotal(ps: seq<MetricPoint>): int {
    if ps == [] then 0 else PointTotal(ps[..|ps| - 1]) + ps[|ps| - 1].value
  }

  /** The `le` label: `+Inf` for the infinite bound. */
  function BoundText(b: Bound): string {
    match b
    case Infinity => "+Inf"
    case Finite(n) => IntToString(n)
  }

  function BucketLine(name: string, b: HistogramBucket): string {
    name + "_bucket{le=\"" + BoundText(b.upperBound) + "\"} " + IntToString(b.count)
  }

  function BucketLines(name: string, bs: seq<HistogramBucket>): (r: seq<string>)
    ensures |r| == |bs|
  {
    seq(|bs|, i requires 0 <= i < |bs| => BucketLine(name, bs[i]))
  }

  function CounterBlock(c: CounterMetric): seq<string> {
    ["# HELP " + c.name + " " + c.description,
     "# TYPE " + c.name + " counter",
     c.name + "_total " + IntToString(PointTotal(c.points))]
  }

  function HistogramHead(h: HistogramMetric): seq<string> {
    ["# HELP " + h.name + " " + h.description, "# TYPE " + h.name + " histogram"]
  }

  function HistogramTail(h: HistogramMetric): seq<string> {
    [h.name + "_sum " + IntToString(h.sum), h.name + "_count " + IntToString(h.count)]
  }

  function HistogramBlock(h: HistogramMetric): seq<string> {
    HistogramHead(h) + BucketLines(h.name, h.buckets) + HistogramTail(h)
  }

  function GaugeBlock(g: GaugeMetric): seq<string> {
    ["# HELP " + g.name + " " + g.description,
     "# TYPE " + g.name + " gauge",
     g.name + " " + IntToString(g.value)]
  }

  /** The lines of every metric of one kind, in iteration order. */
  function Blocks<M>(ms: seq<M>, block: M -> seq<string>): seq<string> {
    if ms == [] then [] else Blocks(ms[..|ms| - 1], block) + block(ms[|ms| - 1])
  }

  /** All the lines of `exportPrometheus`, before they are joined with newlines. */
  function PrometheusLines(cs: seq<CounterMetric>, hs: seq<HistogramMetric>, gs: seq<GaugeMetric>): seq<string> {
    Blocks(cs, CounterBlock) + Blocks(hs, HistogramBlock) + Blocks(gs, GaugeBlock)
  }

  lemma {:induction false} BlocksConcat<M>(a: seq<M>, b: seq<M>, block: M -> seq<string>)
    ensures Blocks(a + b, block) == Blocks(a, block) + Blocks(b, block)
  {
    if b != [] {
      var init := b[..|b| - 1];
      assert (a + b)[..|a + b| - 1] == a + init;
      BlocksConcat(a, init, block);
    } else {
      assert a + b == a;
    }
  }

  lemma {:induction false} BlocksLength<M>(ms: seq<M>, block: M -> seq<string>, n: nat)
    requires forall m :: |block(m)| == n
    ensures |Blocks(ms, block)| == n * |ms|
  {
    if ms != [] {
      var init := ms[..|ms| - 1];
      BlocksLength(init, block, n);
      assert n * |ms| == n * |init| + n;
    }
  }

  /** When every block has `n` lines, metric `i` owns lines `n*i` to `n*i + n`. */
  lemma BlocksAt<M>(ms: seq<M>, block: M -> seq<string>, n: nat, i: nat)
    requires forall m :: |block(m)| == n
    requires i < |ms|
    ensures |Blocks(ms, block)| == n * |ms|
    ensures Blocks(ms, block)[n * i .. n * i + n] == block(ms[i])
  {
    BlocksLength(ms, block, n);
    var before, rest := ms[..i], ms[i + 1..];
    assert ms == before + [ms[i]] + rest;
    BlocksLength(before, block, n);
    BlocksConcat(before + [ms[i]], rest, block);
    BlocksConcat(before, [ms[i]], block);
    assert [ms[i]][..0] == [];
    assert Blocks([ms[i]], block) == block(ms[i]);
  }

  /** A counter's third line reports the sum of all its point values. */
  lemma CounterTotalLine(cs: seq<CounterMetric>, i: nat)
    requires i < |cs|
    ensures |Blocks(cs, CounterBlock)| == 3 * |cs|
    ensures Blocks(cs, CounterBlock)[3 * i + 2] == cs[i].name + "_total " + IntToString(PointTotal(cs[i].points))
  {
    BlocksAt(cs, CounterBlock, 3, i);
    assert Blocks(cs, CounterBlock)[3 * i + 2] == Blocks(cs, CounterBlock)[3 * i .. 3 * i + 3][2];
  }

  /** For a histogram that summarises its observations, the last bucket line is `le="+Inf"` with the observation count. */
  lemma InfinityLine(h: HistogramMetric, obs: seq<int>)
    requires Summarises(h, obs)
    ensures |HistogramBlock(h)| == 15
    ensures HistogramBlock(h)[12] == h.name + "_bucket{le=\"+Inf\"} " + IntToString(|obs|)
  {
    SummaryShape(h, obs);
    assert HistogramBlock(h)[12] == BucketLines(h.name, h.buckets)[10];
  }

  /** The first loop of `exportPrometheus`. */
  method ExportCounters(cs: seq<CounterMetric>) returns (lines: seq<string>)
    ensures lines == Blocks(cs, CounterBlock)
  {
    lines := [];
    var i := 0;
    while i < |cs|
      invariant 0 <= i <= |cs|
      invariant lines == Blocks(cs[..i], CounterBlock)
    {
      var c := cs[i];
      var total := PointTotal(c.points);
      lines := lines + ["# HELP " + c.name + " " + c.description];
      lines := lines + ["# TYPE " + c.name + " counter"];
      lines := lines + [c.name + "_total " + IntToString(total)];
      assert cs[..i + 1][..i] == cs[..i];
      i := i + 1;
    }
    assert cs[..i] == cs;
  }

  /** The lines of one histogram, with the inner loop over its buckets. */
  method ExportHistogram(h: HistogramMetric) returns (lines: seq<string>)
    ensures lines == HistogramBlock(h)
  {
    lines := ["# HELP " + h.name + " " + h.description];
    lines := lines + ["# TYPE " + h.name + " histogram"];
    var j := 0;
    while j < |h.buckets|
      invariant 0 <= j <= |h.buckets|
      invariant lines == HistogramHead(h) + BucketLines(h.name, h.buckets[..j])
    {
      assert BucketLines(h.name, h.buckets[..j + 1]) == BucketLines(h.name, h.buckets[..j]) + [BucketLine(h.name, h.buckets[j])];
      lines := lines + [BucketLine(h.name, h.buckets[j])];
      j := j + 1;
    }
    assert h.buckets[..j] == h.buckets;
    lines := lines + [h.name + "_sum " + IntToString(h.sum)];
    lines := lines + [h.name + "_count " + IntToString(h.count)];
  }

  /** The second loop of `exportPrometheus`. */
  method ExportHistograms(hs: seq<HistogramMetric>) returns (lines: seq<string>)
    ensures lines == Blocks(hs, HistogramBlock)
  {
    lines := [];
    var i := 0;
    while i < |hs|
      invariant 0 <= i <= |hs|
      invariant lines == Blocks(hs[..i], HistogramBlock)
    {
      var block := ExportHistogram(hs[i]);
      lines := lines + block;
      assert hs[..i + 1][..i] == hs[..i];
      i := i + 1;
    }
    assert hs[..i] == hs;
  }

  /** The third loop of `exportPrometheus`. */
  method ExportGauges(gs: seq<GaugeMetric>) returns (lines: seq<string>)
    ensures lines == Blocks(gs, GaugeBlock)
  {
    lines := [];
    var i := 0;
    while i < |gs|
      invariant 0 <= i <= |gs|
      invariant lines == Blocks(gs[..i], GaugeBlock)
    {
      var g := gs[i];
      lines := lines + ["# HELP " + g.name + " " + g.description];
      lines := lines + ["# TYPE " + g.name + " gauge"];
      lines := lines + [g.name + " " + IntToString(g.value)];
      assert gs[..i + 1][..i] == gs[..i];
      i := i + 1;
    }
    assert gs[..i] == gs;
  }

  /** Each histogram summarises the values recorded under its name. */
  ghost predicate Summarised(hs: OrderedMap<HistogramMetric>, observed: map<string, seq<int>>) {
    observed.Keys == hs.entries.Keys
    && forall n :: n in hs.entries ==> Summarises(hs.entries[n], observed[n])
  }

  /** The values recorded so far under `name`. */
  ghost function ObservedOf(observed: map<string, seq<int>>, name: string): seq<int> {
    if name in observed then observed[name] else []
  }

  /** `recordHistogram` keeps every histogram an exact summary of what it has recorded. */
  lemma RecordKeepsSummaries(hs: OrderedMap<HistogramMetric>, observed: map<string, seq<int>>, name: string, value: int)
    requires Summarised(hs, observed)
    ensures Summarised(Put(hs, name, Recorded(HistogramOrNew(hs, name), value)),
                       observed[name := ObservedOf(observed, name) + [value]])
  {
    if name !in hs.entries {
      NewHistogramEmpty(name);
    }
    RecordKeepsSummary(HistogramOrNew(hs, name), ObservedOf(observed, name), value);
  }

  /** The histogram map after `recordHistogram` is still coherent, keyed by name and summarising. */
  lemma RecordKeepsHistograms(hs: OrderedMap<HistogramMetric>, observed: map<string, seq<int>>, name: string, value: int)
    requires Coherent(hs) && KeyedByName(hs, HistogramName) && Summarised(hs, observed)
    ensures var after := Put(hs, name, Recorded(HistogramOrNew(hs, name), value));
      Coherent(after) && KeyedByName(after, HistogramName)
      && Summarised(after, observed[name := ObservedOf(observed, name) + [value]])
  {
    var h := Recorded(HistogramOrNew(hs, name), value);
    RecordKeepsSummaries(hs, observed, name, value);
    PutStores(hs, name, h);
    PutKeyed(hs, HistogramName, name, h);
  }

  // ---------------------------------------------------------------- the collector

  class MetricsCollector {
    var counters: OrderedMap<CounterMetric>
    var histograms: OrderedMap<HistogramMetric>
    var gauges: OrderedMap<GaugeMetric>
    /** Every value each histogram has recorded, in order. */
    ghost var observed: map<string, seq<int>>

    ghost predicate Valid()
      reads this
    {
      Coherent(counters) && Coherent(histograms) && Coherent(gauges)
      && KeyedByName(counters, CounterName)
      && KeyedByName(histograms, HistogramName)
      && KeyedByName(gauges, GaugeName)
      && Summarised(histograms, observed)
    }

    constructor ()
      ensures Valid()
      ensures counters.entries == map[] && histograms.entries == map[] && gauges.entries == map[]
    {
      counters := Empty();
      histograms := Empty();
      gauges := Empty();
      observed := map[];
    }

    /** `incrementCounter(name, value, labels)` at time `now`: creates the counter if needed, then appends one point. */
    method IncrementCounter(name: string, value: int, labels: Option<map<string, string>>, now: int)
      requires Valid()
      modifies this
      ensures Valid()
      ensures counters == Put(old(counters), name, WithPoint(CounterOrNew(old(counters), name), MetricPoint(now, value, labels)))
      ensures histograms == old(histograms) && gauges == old(gauges) && observed == old(observed)
    {
      var counter := CounterOrNew(counters, name);
      counter := WithPoint(counter, MetricPoint(now, value, labels));
      PutStores(counters, name, counter);
      PutKeyed(counters, CounterName, name, counter);
      counters := Put(counters, name, counter);
    }

    /** `recordHistogram(name, value)`: creates the histogram on first use, then counts the value. */
    method RecordHistogram(name: string, value: int)
      requires Valid()
      modifies this
      ensures Valid()
      ensures histograms == Put(old(histograms), name, Recorded(HistogramOrNew(old(histograms), name), value))
      ensures observed == old(observed)[name := ObservedOf(old(observed), name) + [value]]
      ensures counters == old(counters) && gauges == old(gauges)
    {
      var recorded := RecordValue(HistogramOrNew(histograms, name), value);
      RecordKeepsHistograms(histograms, observed, name, value);
      histograms := Put(histograms, name, recorded);
      observed := observed[name := ObservedOf(observed, name) + [value]];
    }

    /** `setGauge(name, value, labels)` at time `now`: replaces any gauge of that name. */
    method SetGauge(name: string, value: int, labels: Option<map<string, string>>, now: int)
      requires Valid()
      modifies this
      ensures Valid()
      ensures gauges == Put(old(gauges), name, NewGauge(name, value, labels, now))
      ensures counters == old(counters) && histograms == old(histograms) && observed == old(observed)
    {
      var gauge := NewGauge(name, value, labels, now);
      PutStores(gauges, name, gauge);
      PutKeyed(gauges, GaugeName, name, gauge);
      gauges := Put(gauges, name, gauge);
    }

    /** `exportPrometheus()`: counters, then histograms, then gauges, joined by newlines. */
    method ExportPrometheus() returns (text: string)
      requires Valid()
      ensures text == Join(PrometheusLines(Values(counters), Values(histograms), Values(gauges)), "\n")
    {
      var counterLines := ExportCounters(Values(counters));
      var histogramLines := ExportHistograms(Values(histograms));
      var gaugeLines := ExportGauges(Values(gauges));
      text := Join(counterLines + histogramLines + gaugeLines, "\n");
    }

    /** `getStats()`: the size of each map and the number of counter points. */
    method GetStats() returns (s: Stats)
      requires Valid()
      ensures s == Stats(|counters.entries|, |histograms.entries|, |gauges.entries|, TotalPoints(counters))
    {
      var cs := Values(counters);
      var totalPoints := 0;
      var i := 0;
      while i < |cs|
        invariant 0 <= i <= |cs|
        invariant totalPoints == PointsOver(counters.entries, counters.keys[..i])
      {
        assert counters.keys[..i + 1][..i] == counters.keys[..i];
        totalPoints := totalPoints + |cs[i].points|;
        i := i + 1;
      }
      assert counters.keys[..i] == counters.keys;
      s := Stats(|counters.entries|, |histograms.entries|, |gauges.entries|, totalPoints);
    }

    /** `reset()`: all three maps emptied. */
    method Reset()
      requires Valid()
      modifies this
      ensures Valid()
      ensures counters.entries == map[] && histograms.entries == map[] && gauges.entries == map[]
    {
      counters := Empty();
      histograms := Empty();
      gauges := Empty();
      observed := map[];
    }
  }
}
