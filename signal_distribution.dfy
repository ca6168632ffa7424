/** The signal pie chart (src/components/charts/SignalDistribution.tsx): a tally of the orders
    per signal, filled by walking the orders, and one slice per tallied signal. */
module SignalDistribution {
  import opened Types
  import opened Seqs

  /** The tally object: its keys in insertion order (the order `Object.entries` lists
      non-numeric keys in) and the counter stored under each key. */
  datatype Tally = Tally(keys: seq<Signal>, counts: map<Signal, nat>)

  /** What the tally holds after walking `data`: the signals that occur, in order of first
      occurrence, each with the number of orders that carry it. */
  predicate Tallies(t: Tally, data: seq<OrderWithMetrics>)
  {
    && t.keys == Distinct(Map(data, SignalOf))
    && (forall s :: s in t.counts <==> s in t.keys)
    && (forall s :: s in t.counts ==> t.counts[s] == CountKey(data, SignalOf, s))
  }

  /** `acc[order.signal] = (acc[order.signal] || 0) + 1` for one order. */
  function Count(t: Tally, s: Signal): (t': Tally)
  {
    if s in t.counts then Tally(t.keys, t.counts[s := t.counts[s] + 1])
    else Tally(t.keys + [s], t.counts[s := 1])
  }

  lemma CountKeySnoc(data: seq<OrderWithMetrics>, o: OrderWithMetrics, s: Signal)
    ensures CountKey(data + [o], SignalOf, s) == CountKey(data, SignalOf, s) + (if s == o.signal then 1 else 0)
  {
    CountKeyAppend(data, [o], SignalOf, s);
    assert [o][1..] == [];
  }

  /** An order whose signal has no counter yet is the first to carry it. */
  lemma NewSignalUncounted(t: Tally, data: seq<OrderWithMetrics>, x: Signal)
    requires Tallies(t, data) && x !in t.counts
    ensures CountKey(data, SignalOf, x) == 0
  {
    var sigs := Map(data, SignalOf);
    forall i | 0 <= i < |data| ensures SignalOf(data[i]) != x {
      assert sigs[i] in Distinct(sigs);
    }
    CountKeyAbsent(data, SignalOf, x);
  }

  /** One counter after counting `o`. */
  lemma CounterStep(counts: map<Signal, nat>, data: seq<OrderWithMetrics>, o: OrderWithMetrics, s: Signal)
    requires forall s :: s in counts ==> counts[s] == CountKey(data, SignalOf, s)
    requires o.signal !in counts ==> CountKey(data, SignalOf, o.signal) == 0
    requires s in counts || s == o.signal
    ensures var c := if o.signal in counts then counts[o.signal := counts[o.signal] + 1] else counts[o.signal := 1];
      s in c && c[s] == CountKey(data + [o], SignalOf, s)
  {
    CountKeySnoc(data, o, s);
  }

  lemma CountStep(t: Tally, data: seq<OrderWithMetrics>, o: OrderWithMetrics)
    requires Tallies(t, data)
    ensures Tallies(Count(t, o.signal), data + [o])
  {
    var x := o.signal;
    if x !in t.counts {
      NewSignalUncounted(t, data, x);
    }
    var t' := Count(t, x);
    CountKeysStep(t, data, o);
    CountDomainStep(t, x);
    forall s | s in t'.counts ensures t'.counts[s] == CountKey(data + [o], SignalOf, s) {
      CounterStep(t.counts, data, o, s);
    }
  }

  lemma CountKeysStep(t: Tally, data: seq<OrderWithMetrics>, o: OrderWithMetrics)
    requires Tallies(t, data)
    ensures Count(t, o.signal).keys == Distinct(Map(data + [o], SignalOf))
  {
    DistinctMapSnoc(data, o, SignalOf);
  }

  lemma CountDomainStep(t: Tally, x: Signal)
    requires forall s :: s in t.counts <==> s in t.keys
    ensures var t' := Count(t, x); forall s :: s in t'.counts <==> s in t'.keys
  {
  }

  /** `data.reduce(...)`: the tally of the signals. */
  method TallySignals(data: seq<OrderWithMetrics>) returns (t: Tally)
    ensures Tallies(t, data)
  {
    t := Tally([], map[]);
    for i := 0 to |data|
      invariant Tallies(t, data[..i])
    {
      assert data[..i + 1] == data[..i] + [data[i]];
      CountStep(t, data[..i], data[i]);
      t := Count(t, data[i].signal);
    }
    assert data[..|data|] == data;
  }

  /** One slice of the pie: the signal, its count and its share as rendered text. */
  datatype Slice = Slice(name: Signal, value: nat, percentage: string)

  /** The share of `count` among `total` orders, rendered with one decimal by `fixed1`;
      `'0.0'` when there are no orders. */
  function Percentage(count: nat, total: nat, fixed1: real -> string): string
  {
    if total > 0 then fixed1(count as real / total as real * 100.0) else "0.0"
  }

  /** The slices a tally of `data` yields, by the specification of the tally. */
  function Slices(data: seq<OrderWithMetrics>, fixed1: real -> string): (r: seq<Slice>)
    ensures |r| == |Distinct(Map(data, SignalOf))|
  {
    var keys := Distinct(Map(data, SignalOf));
    Map(keys, (s: Signal) => Slice(s, CountKey(data, SignalOf, s), Percentage(CountKey(data, SignalOf, s), |data|, fixed1)))
  }

  /** `chartData`: the entries of the tally mapped to slices. */
  method SignalChart(data: seq<OrderWithMetrics>, fixed1: real -> string) returns (r: seq<Slice>)
    ensures r == Slices(data, fixed1)
  {
    var t := TallySignals(data);
    r := seq(|t.keys|, i requires 0 <= i < |t.keys| && t.keys[i] in t.counts =>
      Slice(t.keys[i], t.counts[t.keys[i]], Percentage(t.counts[t.keys[i]], |data|, fixed1)));
  }

  function SliceTotal(r: seq<Slice>): nat
  {
    if r == [] then 0 else r[0].value + SliceTotal(r[1..])
  }

  lemma {:induction false} SliceTotalIsCount(data: seq<OrderWithMetrics>, keys: seq<Signal>, fixed1: real -> string)
    ensures SliceTotal(Map(keys, (s: Signal) => Slice(s, CountKey(data, SignalOf, s), Percentage(CountKey(data, SignalOf, s), |data|, fixed1))))
         == CountPerKey(keys, data, SignalOf)
  {
    var mk := (s: Signal) => Slice(s, CountKey(data, SignalOf, s), Percentage(CountKey(data, SignalOf, s), |data|, fixed1));
    if keys != [] {
      assert Map(keys, mk)[1..] == Map(keys[1..], mk);
      SliceTotalIsCount(data, keys[1..], fixed1);
    }
  }

  /** Every order's signal has a slice. */
  lemma SlicesCoverOrders(data: seq<OrderWithMetrics>, fixed1: real -> string)
    ensures var r := Slices(data, fixed1);
      forall i :: 0 <= i < |data| ==> exists k :: 0 <= k < |r| && r[k].name == data[i].signal
  {
    var sigs := Map(data, SignalOf);
    var keys := Distinct(sigs);
    var r := Slices(data, fixed1);
    forall i | 0 <= i < |data| ensures exists k :: 0 <= k < |r| && r[k].name == data[i].signal {
      assert sigs[i] in keys;
      var k :| 0 <= k < |keys| && keys[k] == sigs[i];
      assert r[k].name == data[i].signal;
    }
  }

  /** Each slice counts the orders that carry its signal, and only signals that occur have a
      slice, so no count is zero. */
  lemma SlicesCount(data: seq<OrderWithMetrics>, fixed1: real -> string)
    ensures var r := Slices(data, fixed1);
      forall k :: 0 <= k < |r| ==> r[k].value == CountKey(data, SignalOf, r[k].name) >= 1
  {
    var sigs := Map(data, SignalOf);
    var keys := Distinct(sigs);
    var r := Slices(data, fixed1);
    forall k | 0 <= k < |r| ensures r[k].value == CountKey(data, SignalOf, r[k].name) >= 1 {
      assert r[k].name == keys[k];
      var j :| 0 <= j < |sigs| && sigs[j] == keys[k];
      CountKeyPresent(data, SignalOf, j);
    }
  }

  /** Signals get one slice each, in order of their first occurrence among the orders. */
  lemma SlicesInFirstOccurrenceOrder(data: seq<OrderWithMetrics>, fixed1: real -> string)
    ensures var r := Slices(data, fixed1);
      && (forall j, k :: 0 <= j < k < |r| ==> r[j].name != r[k].name)
      && (forall j, k :: 0 <= j < k < |r| ==>
            r[j].name in Map(data, SignalOf) && r[k].name in Map(data, SignalOf) &&
            FirstIndex(Map(data, SignalOf), r[j].name) < FirstIndex(Map(data, SignalOf), r[k].name))
  {
    var sigs := Map(data, SignalOf);
    var r := Slices(data, fixed1);
    assert forall k :: 0 <= k < |r| ==> r[k].name == Distinct(sigs)[k];
    DistinctFirstOccurrenceOrder(sigs);
  }

  /** Every order is in exactly one slice: the counts add up to the number of orders. */
  lemma SlicesTotal(data: seq<OrderWithMetrics>, fixed1: real -> string)
    ensures SliceTotal(Slices(data, fixed1)) == |data|
  {
    var sigs := Map(data, SignalOf);
    var keys := Distinct(sigs);
    SliceTotalIsCount(data, keys, fixed1);
    forall x | x in data ensures SignalOf(x) in keys {
      var i :| 0 <= i < |data| && data[i] == x;
      assert sigs[i] == SignalOf(x);
    }
    PartitionCount(keys, data, SignalOf);
  }

  /** The unrounded shares `value / total * 100` of the slices `r`, added up. */
  function ShareTotal(r: seq<Slice>, total: nat): real
    requires total > 0
  {
    if r == [] then 0.0 else r[0].value as real / total as real * 100.0 + ShareTotal(r[1..], total)
  }

  lemma {:induction false} ShareTotalScales(r: seq<Slice>, total: nat)
    requires total > 0
    ensures ShareTotal(r, total) * total as real == SliceTotal(r) as real * 100.0
  {
    if r != [] {
      ShareTotalScales(r[1..], total);
      UnitShare(r[0].value, total);
    }
  }

  lemma UnitShare(v: nat, total: nat)
    requires total > 0
    ensures v as real / total as real * 100.0 * total as real == v as real * 100.0
  {
    assert v as real / total as real * total as real == v as real;
  }

  /** The chart's shares: without orders there is no slice, so the `'0.0'` fallback is never
      shown; with orders each label renders its slice's share, and the shares add up to 100. */
  lemma SlicesShares(data: seq<OrderWithMetrics>, fixed1: real -> string)
    ensures |data| == 0 ==> Slices(data, fixed1) == []
    ensures |data| > 0 ==> ShareTotal(Slices(data, fixed1), |data|) == 100.0
    ensures |data| > 0 ==> var r := Slices(data, fixed1);
      forall k :: 0 <= k < |r| ==> r[k].percentage == fixed1(r[k].value as real / |data| as real * 100.0)
  {
    if |data| > 0 {
      SharesAddUp(data, fixed1);
      SliceLabels(data, fixed1);
    } else {
      NoOrdersNoSlices(data, fixed1);
    }
  }

  lemma NoOrdersNoSlices(data: seq<OrderWithMetrics>, fixed1: real -> string)
    requires |data| == 0
    ensures Slices(data, fixed1) == []
  {
    assert Map(data, SignalOf) == [];
  }

  lemma SliceLabels(data: seq<OrderWithMetrics>, fixed1: real -> string)
    requires |data| > 0
    ensures var r := Slices(data, fixed1);
      forall k :: 0 <= k < |r| ==> r[k].percentage == fixed1(r[k].value as real / |data| as real * 100.0)
  {
  }

  lemma SharesAddUp(data: seq<OrderWithMetrics>, fixed1: real -> string)
    requires |data| > 0
    ensures ShareTotal(Slices(data, fixed1), |data|) == 100.0
  {
    SlicesTotal(data, fixed1);
    WholeShares(Slices(data, fixed1), |data|);
  }

  /** Slices that count every one of `total` orders have shares adding up to 100. */
  lemma WholeShares(r: seq<Slice>, total: nat)
    requires total > 0 && SliceTotal(r) == total
    ensures ShareTotal(r, total) == 100.0
  {
    ShareTotalScales(r, total);
    CancelTotal(ShareTotal(r, total), total as real);
  }

  lemma CancelTotal(x: real, n: real)
    requires n > 0.0 && x * n == n * 100.0
    ensures x == 100.0
  {
    assert (x - 100.0) * n == 0.0;
  }
}
