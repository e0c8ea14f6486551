/**
 * The (key, measure) pairs that each bucketing loop of processor.py and
 * preprocessor.py files, in the order it files them. Fed to `Multimap.Fold`
 * they give the dictionary the loop returns; the lemmas here say what the
 * buckets then hold in the measures' own terms.
 */
module Grouping {
  import opened Multimap
  import opened Parser

  /** Item i filed under `labels[i]`, for every item of `xs`. */
  function Labelled<K, T>(xs: seq<T>, labels: seq<K>): (e: seq<(K, T)>)
    requires |labels| >= |xs|
    ensures |e| == |xs|
    ensures forall i :: 0 <= i < |xs| ==> e[i] == (labels[i], xs[i])
  {
    if xs == [] then []
    else
      var n := |xs| - 1;
      Labelled(xs[..n], labels) + [(labels[n], xs[n])]
  }

  /** The data rate of each measure, in order. */
  function DataRates(ms: seq<Mesure>): (rates: seq<string>)
    ensures |rates| == |ms|
  {
    seq(|ms|, i requires 0 <= i < |ms| => ms[i].dataRate)
  }

  /** The receptions of `gs` made by gateway `id`, in their original order. */
  function OnlyId(gs: seq<Gateway>, id: string): (r: seq<Gateway>)
    ensures forall g :: g in r ==> g.id == id && g in gs
    ensures |r| == CountId(gs, id)
  {
    if gs == [] then []
    else
      var n := |gs| - 1;
      OnlyId(gs[..n], id) + (if gs[n].id == id then [gs[n]] else [])
  }

  /** Every reception by `id` is kept as often as it occurs, and no other is kept. */
  lemma {:induction false} OnlyIdMultiset(gs: seq<Gateway>, id: string)
    ensures forall g :: multiset(OnlyId(gs, id))[g] == if g.id == id then multiset(gs)[g] else 0
    decreases |gs|
  {
    if gs != [] {
      var n := |gs| - 1;
      OnlyIdMultiset(gs[..n], id);
      assert gs == gs[..n] + [gs[n]];
    }
  }

  /** Filtering distributes over concatenation, so the kept receptions keep their relative order. */
  lemma {:induction false} OnlyIdConcat(a: seq<Gateway>, b: seq<Gateway>, id: string)
    ensures OnlyId(a + b, id) == OnlyId(a, id) + OnlyId(b, id)
    decreases |b|
  {
    if b == [] {
      assert a + b == a;
    } else {
      var n := |b| - 1;
      var last := if b[n].id == id then [b[n]] else [];
      assert (a + b)[..|a + b| - 1] == a + b[..n] && (a + b)[|a + b| - 1] == b[n];
      assert OnlyId(a + b, id) == OnlyId(a + b[..n], id) + last;
      OnlyIdConcat(a, b[..n], id);
      assert OnlyId(b, id) == OnlyId(b[..n], id) + last;
    }
  }

  /** How many receptions of `gs` gateway `id` made. */
  function CountId(gs: seq<Gateway>, id: string): nat
  {
    if gs == [] then 0
    else
      var n := |gs| - 1;
      CountId(gs[..n], id) + (if gs[n].id == id then 1 else 0)
  }

  /**
   * The copy of `m` filed under gateway `id`: the same measure, keeping only
   * the receptions made by `id`.
   */
  function CopyForGateway(m: Mesure, id: string): (c: Mesure)
    ensures c == m.(gateways := c.gateways)
    ensures c.gateways == OnlyId(m.gateways, id)
    ensures forall g :: g in c.gateways ==> g.id == id && g in m.gateways
    ensures |c.gateways| == CountId(m.gateways, id)
  {
    m.(gateways := OnlyId(m.gateways, id))
  }

  /** The pairs filed by the inner loop over the receptions `gs` of measure `m`. */
  function ReceptionEntries(m: Mesure, gs: seq<Gateway>): (e: seq<(string, Mesure)>)
    ensures |e| == |gs|
    ensures forall j :: 0 <= j < |gs| ==> e[j] == (gs[j].id, CopyForGateway(m, gs[j].id))
  {
    if gs == [] then []
    else
      var n := |gs| - 1;
      ReceptionEntries(m, gs[..n]) + [(gs[n].id, CopyForGateway(m, gs[n].id))]
  }

  /** Every reception of every measure, measure by measure. */
  function AllReceptions(ms: seq<Mesure>): seq<Gateway>
  {
    if ms == [] then [] else AllReceptions(ms[..|ms| - 1]) + ms[|ms| - 1].gateways
  }

  /** Visiting one more measure visits its receptions after the earlier ones. */
  lemma AllReceptionsStep(ms: seq<Mesure>, i: nat)
    requires i < |ms|
    ensures AllReceptions(ms[..i + 1]) == AllReceptions(ms[..i]) + ms[i].gateways
  {
    assert ms[..i + 1][..i] == ms[..i];
  }

  /**
   * The pairs filed by the nested loop of `filter_mesures_by_gateway`: one per
   * reception, keyed by the id of the gateway that made it.
   */
  function GatewayEntries(ms: seq<Mesure>): seq<(string, Mesure)>
  {
    if ms == [] then []
    else
      var n := |ms| - 1;
      GatewayEntries(ms[..n]) + ReceptionEntries(ms[n], ms[n].gateways)
  }

  /** The pairs line up with the receptions: pair t is keyed by the id of reception t. */
  lemma {:induction false} GatewayEntriesAlign(ms: seq<Mesure>)
    ensures |GatewayEntries(ms)| == |AllReceptions(ms)|
    ensures forall t :: 0 <= t < |GatewayEntries(ms)| ==> GatewayEntries(ms)[t].0 == AllReceptions(ms)[t].id
  {
    if ms != [] {
      var n := |ms| - 1;
      GatewayEntriesAlign(ms[..n]);
      var init: seq<(string, Mesure)> := GatewayEntries(ms[..n]);
      var last: seq<(string, Mesure)> := ReceptionEntries(ms[n], ms[n].gateways);
      var rs: seq<Gateway> := AllReceptions(ms[..n]);
      var gs: seq<Gateway> := ms[n].gateways;
      assert AllReceptions(ms) == rs + gs;
      forall t | 0 <= t < |init| + |last|
        ensures (init + last)[t].0 == (rs + gs)[t].id
      {
        if t < |init| {
          assert (init + last)[t] == init[t];
        } else {
          assert (init + last)[t] == last[t - |init|];
        }
      }
    }
  }

  function Repeat<T>(x: T, n: nat): (r: seq<T>)
    ensures |r| == n && forall y :: y in r ==> y == x
  {
    if n == 0 then [] else Repeat(x, n - 1) + [x]
  }

  /**
   * What bucket `id` should hold, measure by measure: a measure with k
   * receptions by `id` contributes k copies of itself restricted to `id`,
   * and a measure without one contributes nothing.
   */
  function CopiesFor(ms: seq<Mesure>, id: string): seq<Mesure>
  {
    if ms == [] then []
    else
      var n := |ms| - 1;
      CopiesFor(ms[..n], id) + Repeat(CopyForGateway(ms[n], id), CountId(ms[n].gateways, id))
  }

  /** In a labelled sequence, bucket `k` holds exactly the items whose label is `k`. */
  lemma LabelledBucket<K, T>(xs: seq<T>, labels: seq<K>, k: K, x: T)
    requires |labels| >= |xs|
    ensures x in Select(Labelled(xs, labels), k) <==> exists i :: 0 <= i < |xs| && labels[i] == k && xs[i] == x
  {
    var e := Labelled(xs, labels);
    SelectMembers(e, k, x);
    if (k, x) in e {
      var i :| 0 <= i < |e| && e[i] == (k, x);
      assert labels[i] == k && xs[i] == x;
    }
    if exists i :: 0 <= i < |xs| && labels[i] == k && xs[i] == x {
      var i :| 0 <= i < |xs| && labels[i] == k && xs[i] == x;
      assert e[i] == (k, x);
    }
  }

  /** The inner loop over one measure's receptions files, under `id`, one restricted copy per reception by `id`. */
  lemma {:induction false} ReceptionBucket(m: Mesure, gs: seq<Gateway>, id: string)
    ensures Select(ReceptionEntries(m, gs), id) == Repeat(CopyForGateway(m, id), CountId(gs, id))
  {
    if gs != [] {
      var n := |gs| - 1;
      ReceptionBucket(m, gs[..n], id);
      assert gs[..n] + [gs[n]] == gs;
      var e := ReceptionEntries(m, gs);
      assert e[..|e| - 1] == ReceptionEntries(m, gs[..n]);
    }
  }

  /** Bucket `id` of `filter_mesures_by_gateway` holds exactly `CopiesFor(ms, id)`. */
  lemma {:induction false} GatewayBucket(ms: seq<Mesure>, id: string)
    ensures Select(GatewayEntries(ms), id) == CopiesFor(ms, id)
  {
    if ms != [] {
      var n := |ms| - 1;
      GatewayBucket(ms[..n], id);
      SelectConcat(GatewayEntries(ms[..n]), ReceptionEntries(ms[n], ms[n].gateways), id);
      ReceptionBucket(ms[n], ms[n].gateways, id);
    }
  }

  /** Every entry of bucket `id` is the restriction to `id` of some input measure. */
  lemma {:induction false} CopiesAreRestrictions(ms: seq<Mesure>, id: string, c: Mesure)
    requires c in CopiesFor(ms, id)
    ensures exists i :: 0 <= i < |ms| && c == CopyForGateway(ms[i], id)
  {
    var n := |ms| - 1;
    var init := CopiesFor(ms[..n], id);
    if c in init {
      CopiesAreRestrictions(ms[..n], id, c);
      var i :| 0 <= i < n && c == CopyForGateway(ms[..n][i], id);
      assert ms[..n][i] == ms[i];
    } else {
      assert c == CopyForGateway(ms[n], id);
    }
  }

  /** The keys filed by `filter_mesures_by_gateway` are the ids of all receptions. */
  lemma GatewayKeys(ms: seq<Mesure>)
    ensures KeysOf(GatewayEntries(ms)) == ReceptionIds(ms)
  {
    var e, rs := GatewayEntries(ms), AllReceptions(ms);
    GatewayEntriesAlign(ms);
    forall id | id in KeysOf(e) ensures id in ReceptionIds(ms) {
      var t :| 0 <= t < |e| && e[t].0 == id;
      assert rs[t] in rs;
    }
    forall id | id in ReceptionIds(ms) ensures id in KeysOf(e) {
      var g :| g in rs && g.id == id;
      var t :| 0 <= t < |rs| && rs[t] == g;
      assert e[t].0 == id;
    }
  }
  /** The data rates of the measures. */
  function RatesOf(mesures: seq<Mesure>): set<string>
  {
    set m | m in mesures :: m.dataRate
  }

  /** The gateway ids of all receptions of the measures. */
  function ReceptionIds(mesures: seq<Mesure>): set<string>
  {
    set g | g in AllReceptions(mesures) :: g.id
  }

  /** The first `n` labels, as a set. */
  function LabelsUsed(labels: seq<int>, n: nat): set<int>
    requires n <= |labels|
  {
    set i | 0 <= i < n :: labels[i]
  }

  /**
   * The keys are the data rates present, a bucket holds only input measures
   * of its own data rate, and every measure is in its own rate's bucket.
   */
  ghost predicate RateBuckets(byRate: map<string, seq<Mesure>>, mesures: seq<Mesure>)
  {
    && byRate.Keys == RatesOf(mesures)
    && HoldTheirRate(byRate, mesures)
    && InOwnRateBucket(byRate, mesures)
  }

  /** Every measure is in the bucket of its own data rate. */
  ghost predicate InOwnRateBucket(byRate: map<string, seq<Mesure>>, mesures: seq<Mesure>)
  {
    forall m :: m in mesures ==> m.dataRate in byRate && m in byRate[m.dataRate]
  }

  /** Every bucket holds only input measures of its own data rate. */
  ghost predicate HoldTheirRate(byRate: map<string, seq<Mesure>>, mesures: seq<Mesure>)
  {
    forall rate, m :: rate in byRate && m in byRate[rate] ==> m in mesures && m.dataRate == rate
  }

  /** What the keys and buckets of a grouping by data rate hold. */
  lemma RateGrouping(mesures: seq<Mesure>, byRate: map<string, seq<Mesure>>)
    requires IsGrouping(byRate, Labelled(mesures, DataRates(mesures)))
    ensures RateBuckets(byRate, mesures)
  {
    RateBucketsHoldTheirRate(mesures, byRate);
    RateKeys(mesures, byRate);
    RateBucketsCoverAll(mesures, byRate);
  }

  lemma RateBucketsCoverAll(mesures: seq<Mesure>, byRate: map<string, seq<Mesure>>)
    requires byRate.Keys == KeysOf(Labelled(mesures, DataRates(mesures)))
    requires forall rate :: rate in byRate ==> byRate[rate] == Select(Labelled(mesures, DataRates(mesures)), rate)
    ensures InOwnRateBucket(byRate, mesures)
  {
    var rates := DataRates(mesures);
    var e := Labelled(mesures, rates);
    forall m | m in mesures ensures m.dataRate in byRate && m in byRate[m.dataRate] {
      var i :| 0 <= i < |mesures| && mesures[i] == m;
      assert e[i].0 == m.dataRate;
      LabelledBucket(mesures, rates, m.dataRate, m);
    }
  }

  lemma RateBucketsHoldTheirRate(mesures: seq<Mesure>, byRate: map<string, seq<Mesure>>)
    requires forall rate :: rate in byRate ==> byRate[rate] == Select(Labelled(mesures, DataRates(mesures)), rate)
    ensures HoldTheirRate(byRate, mesures)
  {
    var rates := DataRates(mesures);
    forall rate, m | rate in byRate && m in byRate[rate] ensures m in mesures && m.dataRate == rate {
      LabelledBucket(mesures, rates, rate, m);
      var i :| 0 <= i < |mesures| && rates[i] == rate && mesures[i] == m;
    }
  }

  lemma RateKeys(mesures: seq<Mesure>, byRate: map<string, seq<Mesure>>)
    requires byRate.Keys == KeysOf(Labelled(mesures, DataRates(mesures)))
    ensures byRate.Keys == RatesOf(mesures)
  {
    var e := Labelled(mesures, DataRates(mesures));
    forall rate | rate in byRate ensures rate in RatesOf(mesures) {
      var i :| 0 <= i < |e| && e[i].0 == rate;
      assert mesures[i] in mesures;
    }
    forall rate | rate in RatesOf(mesures) ensures rate in byRate {
      var m :| m in mesures && m.dataRate == rate;
      var i :| 0 <= i < |mesures| && mesures[i] == m;
      assert e[i].0 == rate;
    }
  }

  /** Adding item i to the labelled prefix adds its pair at the end. */
  lemma LabelledStep<K, T>(xs: seq<T>, labels: seq<K>, i: nat)
    requires i < |xs| <= |labels|
    ensures Labelled(xs[..i + 1], labels) == Labelled(xs[..i], labels) + [(labels[i], xs[i])]
  {
    assert xs[..i + 1][..i] == xs[..i];
  }

  /**
   * The keys are the labels of the measures, and measure i is in the bucket
   * of its own label.
   */
  ghost predicate ClusterBuckets(data: map<int, seq<Mesure>>, mesures: seq<Mesure>, labels: seq<int>)
    requires |labels| >= |mesures|
  {
    && data.Keys == LabelsUsed(labels, |mesures|)
    && forall i :: 0 <= i < |mesures| ==> labels[i] in data && mesures[i] in data[labels[i]]
  }

  lemma ClusterGrouping(mesures: seq<Mesure>, labels: seq<int>, data: map<int, seq<Mesure>>)
    requires |labels| >= |mesures|
    requires IsGrouping(data, Labelled(mesures, labels))
    ensures ClusterBuckets(data, mesures, labels)
  {
    var e := Labelled(mesures, labels);
    assert KeysOf(e) == LabelsUsed(labels, |mesures|) by {
      forall k | k in KeysOf(e) ensures k in LabelsUsed(labels, |mesures|) {
        var i :| 0 <= i < |e| && e[i].0 == k;
      }
      forall k | k in LabelsUsed(labels, |mesures|) ensures k in KeysOf(e) {
        var i :| 0 <= i < |mesures| && labels[i] == k;
        assert e[i].0 == k;
      }
    }
    forall i | 0 <= i < |mesures| ensures labels[i] in data && mesures[i] in data[labels[i]] {
      assert e[i].0 == labels[i];
      LabelledBucket(mesures, labels, labels[i], mesures[i]);
    }
  }

  /**
   * The keys are the ids of all receptions; bucket `id` holds, measure by
   * measure, one copy restricted to `id` per reception by `id`; and there are
   * as many copies in all as there are receptions.
   */
  ghost predicate GatewayBuckets(byGateway: map<string, seq<Mesure>>, mesures: seq<Mesure>)
  {
    && byGateway.Keys == ReceptionIds(mesures)
    && (forall id :: id in byGateway ==> byGateway[id] == CopiesFor(mesures, id))
    && TotalSize(byGateway) == |AllReceptions(mesures)|
  }

  lemma GatewayGrouping(mesures: seq<Mesure>, byGateway: map<string, seq<Mesure>>)
    requires IsGrouping(byGateway, GatewayEntries(mesures))
    ensures GatewayBuckets(byGateway, mesures)
  {
    GatewayKeys(mesures);
    GatewayEntriesAlign(mesures);
    forall id | id in byGateway ensures byGateway[id] == CopiesFor(mesures, id) {
      GatewayBucket(mesures, id);
    }
  }

  /** One more reception of measure `m` files one more pair. */
  lemma ReceptionEntriesStep(prefix: seq<(string, Mesure)>, m: Mesure, j: nat)
    requires j < |m.gateways|
    ensures prefix + ReceptionEntries(m, m.gateways[..j + 1])
         == (prefix + ReceptionEntries(m, m.gateways[..j])) + [(m.gateways[j].id, CopyForGateway(m, m.gateways[j].id))]
  {
    assert m.gateways[..j + 1][..j] == m.gateways[..j];
  }

  /** One more measure files the pairs of all its receptions. */
  lemma GatewayEntriesStep(ms: seq<Mesure>, i: nat)
    requires i < |ms|
    ensures GatewayEntries(ms[..i + 1]) == GatewayEntries(ms[..i]) + ReceptionEntries(ms[i], ms[i].gateways[..|ms[i].gateways|])
  {
    assert ms[..i + 1][..i] == ms[..i];
    assert ms[i].gateways[..|ms[i].gateways|] == ms[i].gateways;
  }
}
