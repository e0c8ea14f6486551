/**
 * Grouping and aggregation of measures (processor.py): bucketing by cluster
 * label, by data rate and by gateway, the registry of located gateways, and
 * the averaged summary of a group.
 *
 * The bucketing functions are loops over dictionaries of lists; each is
 * proved to return the `Multimap.Fold` of the pairs it files, and hence the
 * `Multimap.IsGrouping` of those pairs.
 */
module Processor {
  import opened Wrappers
  import opened Multimap
  import opened Stats
  import opened Grouping
  import Parser

  type Mesure = Parser.Mesure

  /** A located gateway of the registry (class `Gateway` of processor.py). */
  datatype Gateway = Gateway(id: string, latitude: real, longitude: real)

  /** The summary of a group of measures (class `AveragedMesure`). */
  datatype AveragedMesure = AveragedMesure(
    latitude: real,
    longitude: real,
    temperature: real,
    humidity: real,
    maxGatewayRssi: real,
    maxGatewaySnr: real)

  /** The exceptions `AveragedMesure` can raise. */
  datatype AveragingError =
    | StatisticsError   // `mean` of no data
    | IndexError        // a measure without any reception

  /** `f` applied to every element of `xs`, in order. */
  function Map<A, B>(xs: seq<A>, f: A -> B): (r: seq<B>)
    ensures |r| == |xs|
    ensures forall i :: 0 <= i < |xs| ==> r[i] == f(xs[i])
  {
    if xs == [] then [] else [f(xs[0])] + Map(xs[1..], f)
  }

  lemma MapConcat<A, B>(xs: seq<A>, ys: seq<A>, f: A -> B)
    ensures Map(xs + ys, f) == Map(xs, f) + Map(ys, f)
  {
  }

  /** Taking out element k of `ys` takes its image out of the mapped multiset. */
  lemma MapRemove<A, B>(ys: seq<A>, k: nat, f: A -> B)
    requires k < |ys|
    ensures multiset(Map(ys, f)) == multiset(Map(ys[..k] + ys[k + 1..], f)) + multiset{f(ys[k])}
  {
    var before, after := ys[..k], ys[k + 1..];
    assert ys == before + ([ys[k]] + after);
    MapConcat(before, [ys[k]] + after, f);
    MapConcat([ys[k]], after, f);
    MapConcat(before, after, f);
  }

  /** Mapping a permutation gives a permutation. */
  lemma {:induction false} MapPermutation<A, B>(xs: seq<A>, ys: seq<A>, f: A -> B)
    requires multiset(xs) == multiset(ys)
    ensures multiset(Map(xs, f)) == multiset(Map(ys, f))
    decreases |xs|
  {
    if xs == [] {
      assert |ys| == |multiset(ys)| == 0;
    } else {
      var x := xs[0];
      var k := Occurrence(ys, x, xs);
      var rest := ys[..k] + ys[k + 1..];
      PermutationTail(xs, ys, k);
      MapPermutation(xs[1..], rest, f);
      MapRemove(ys, k, f);
      MapCons(xs, f);
    }
  }

  /** Mapping a non-empty sequence maps its head, then its tail. */
  lemma MapCons<A, B>(xs: seq<A>, f: A -> B)
    requires xs != []
    ensures multiset(Map(xs, f)) == multiset{f(xs[0])} + multiset(Map(xs[1..], f))
  {
    assert Map(xs, f) == [f(xs[0])] + Map(xs[1..], f);
  }

  /** The head of `xs` occurs somewhere in any permutation `ys` of it. */
  lemma Occurrence<A>(ys: seq<A>, x: A, xs: seq<A>) returns (k: nat)
    requires multiset(xs) == multiset(ys) && xs != [] && x == xs[0]
    ensures k < |ys| && ys[k] == x
  {
    assert x in multiset(ys);
    k :| k < |ys| && ys[k] == x;
  }

  /** Taking the first element out of `xs` and a copy of it out of `ys` leaves permutations. */
  lemma PermutationTail<A>(xs: seq<A>, ys: seq<A>, k: nat)
    requires multiset(xs) == multiset(ys)
    requires xs != [] && k < |ys| && ys[k] == xs[0]
    ensures multiset(xs[1..]) == multiset(ys[..k] + ys[k + 1..])
  {
    var x := xs[0];
    assert ys == ys[..k] + [x] + ys[k + 1..];
    assert xs == [x] + xs[1..];
    assert multiset(xs[1..]) == multiset(xs) - multiset{x};
    assert multiset(ys[..k] + ys[k + 1..]) == multiset(ys) - multiset{x};
  }

  function LatitudeOf(m: Mesure): real { m.latitude }
  function LongitudeOf(m: Mesure): real { m.longitude }
  function TemperatureOf(m: Mesure): real { m.temperature }
  function HumidityOf(m: Mesure): real { m.humidity as real }

  /**
   * The rssi of the measure's first reception. It is only read for
   * measures that have one (see `AllReceived`); the 0.0 for a measure
   * without any reception is never used.
   */
  function PrimaryRssi(m: Mesure): real
  {
    if m.gateways == [] then 0.0 else m.gateways[0].rssi as real
  }

  /** The snr of the measure's first reception, under the same convention. */
  function PrimarySnr(m: Mesure): real
  {
    if m.gateways == [] then 0.0 else m.gateways[0].snr
  }

  predicate AllReceived(ms: seq<Mesure>)
  {
    forall i :: 0 <= i < |ms| ==> ms[i].gateways != []
  }

  /**
   * `AveragedMesure(mesures)`: mean position, median temperature and
   * humidity, and the mean rssi and snr of each measure's first reception,
   * not rounded. No data raises `StatisticsError` (from the first `mean`);
   * otherwise a measure without any reception raises `IndexError`. Each
   * field lies between the least and the greatest of the values it
   * summarises.
   */
  function NewAveragedMesure(mesures: seq<Mesure>): (r: Result<AveragedMesure, AveragingError>)
    ensures mesures == [] ==> r == Failure(StatisticsError)
    ensures mesures != [] ==> (r.Success? <==> AllReceived(mesures))
    ensures mesures != [] && !AllReceived(mesures) ==> r == Failure(IndexError)
    ensures r.Success? ==> IsSummaryOf(r.value, mesures)
    ensures r.Success? ==> WithinRange(r.value, mesures)
  {
    if mesures == [] then Failure(StatisticsError)
    else if !AllReceived(mesures) then Failure(IndexError)
    else
      Success(AveragedMesure(
        latitude := Mean(Map(mesures, LatitudeOf)),
        longitude := Mean(Map(mesures, LongitudeOf)),
        temperature := Median(Map(mesures, TemperatureOf)),
        humidity := Median(Map(mesures, HumidityOf)),
        maxGatewayRssi := Mean(Map(mesures, PrimaryRssi)),
        maxGatewaySnr := Mean(Map(mesures, PrimarySnr))))
  }

  /**
   * Which statistic each field is: the mean of the latitudes and of the
   * longitudes, the median of the temperatures and of the humidities, and
   * the mean of the first receptions' rssi and snr, all exact.
   */
  ghost predicate IsSummaryOf(a: AveragedMesure, ms: seq<Mesure>)
    requires ms != []
  {
    && a.latitude == Mean(Map(ms, LatitudeOf))
    && a.longitude == Mean(Map(ms, LongitudeOf))
    && a.temperature == Median(Map(ms, TemperatureOf))
    && a.humidity == Median(Map(ms, HumidityOf))
    && a.maxGatewayRssi == Mean(Map(ms, PrimaryRssi))
    && a.maxGatewaySnr == Mean(Map(ms, PrimarySnr))
  }

  /** Every field of `a` lies between the least and the greatest value it summarises. */
  ghost predicate WithinRange(a: AveragedMesure, ms: seq<Mesure>)
    requires ms != []
  {
    && Min(Map(ms, LatitudeOf)) <= a.latitude <= Max(Map(ms, LatitudeOf))
    && Min(Map(ms, LongitudeOf)) <= a.longitude <= Max(Map(ms, LongitudeOf))
    && Min(Map(ms, TemperatureOf)) <= a.temperature <= Max(Map(ms, TemperatureOf))
    && Min(Map(ms, HumidityOf)) <= a.humidity <= Max(Map(ms, HumidityOf))
    && Min(Map(ms, PrimaryRssi)) <= a.maxGatewayRssi <= Max(Map(ms, PrimaryRssi))
    && Min(Map(ms, PrimarySnr)) <= a.maxGatewaySnr <= Max(Map(ms, PrimarySnr))
  }

  /** The summary, and the error raised, do not depend on the order of the measures. */
  lemma AveragedOrderIndependent(ms: seq<Mesure>, ms': seq<Mesure>)
    requires multiset(ms) == multiset(ms')
    ensures NewAveragedMesure(ms) == NewAveragedMesure(ms')
  {
    assert |ms| == |multiset(ms)| == |multiset(ms')| == |ms'|;
    assert AllReceived(ms) <==> AllReceived(ms') by {
      if AllReceived(ms) {
        forall i | 0 <= i < |ms'| ensures ms'[i].gateways != [] { assert ms'[i] in multiset(ms); }
      }
      if AllReceived(ms') {
        forall i | 0 <= i < |ms| ensures ms[i].gateways != [] { assert ms[i] in multiset(ms'); }
      }
    }
    if ms != [] && AllReceived(ms) {
      SummaryPermutation(ms, ms', LatitudeOf);
      SummaryPermutation(ms, ms', LongitudeOf);
      SummaryPermutation(ms, ms', TemperatureOf);
      SummaryPermutation(ms, ms', HumidityOf);
      SummaryPermutation(ms, ms', PrimaryRssi);
      SummaryPermutation(ms, ms', PrimarySnr);
    }
  }

  lemma SummaryPermutation(ms: seq<Mesure>, ms': seq<Mesure>, f: Mesure -> real)
    requires ms != [] && multiset(ms) == multiset(ms')
    ensures ms' != [] && Mean(Map(ms, f)) == Mean(Map(ms', f)) && Median(Map(ms, f)) == Median(Map(ms', f))
  {
    MapPermutation(ms, ms', f);
    MeanPermutation(Map(ms, f), Map(ms', f));
    MedianPermutation(Map(ms, f), Map(ms', f));
  }

  /** `m'` differs from `m` at most in the receptions after the first. */
  ghost predicate SameUpToLaterReceptions(m: Mesure, m': Mesure)
  {
    && m.(gateways := []) == m'.(gateways := [])
    && (m.gateways == [] <==> m'.gateways == [])
    && (m.gateways != [] ==> m.gateways[0] == m'.gateways[0])
  }

  /** Only the first reception of each measure is read: the others never change the summary. */
  lemma AveragedReadsFirstReceptionOnly(ms: seq<Mesure>, ms': seq<Mesure>)
    requires |ms| == |ms'|
    requires forall i :: 0 <= i < |ms| ==> SameUpToLaterReceptions(ms[i], ms'[i])
    ensures NewAveragedMesure(ms) == NewAveragedMesure(ms')
  {
    assert forall i :: 0 <= i < |ms| ==> ms[i].(gateways := []) == ms'[i].(gateways := []);
    assert AllReceived(ms) <==> AllReceived(ms');
    assert Map(ms, LatitudeOf) == Map(ms', LatitudeOf);
    assert Map(ms, LongitudeOf) == Map(ms', LongitudeOf);
    assert Map(ms, TemperatureOf) == Map(ms', TemperatureOf);
    assert Map(ms, HumidityOf) == Map(ms', HumidityOf);
    if AllReceived(ms) {
      assert Map(ms, PrimaryRssi) == Map(ms', PrimaryRssi);
      assert Map(ms, PrimarySnr) == Map(ms', PrimarySnr);
    }
  }

  /** Two first receptions at -107 and -112 dBm give a mean rssi of -109.5: nothing is rounded. */
  lemma AveragedRssiIsNotRounded(m1: Mesure, m2: Mesure)
    requires m1.gateways != [] && m1.gateways[0].rssi == -107
    requires m2.gateways != [] && m2.gateways[0].rssi == -112
    ensures NewAveragedMesure([m1, m2]).Success?
    ensures NewAveragedMesure([m1, m2]).value.maxGatewayRssi == -109.5
  {
    var ms := [m1, m2];
    assert AllReceived(ms);
    assert Map(ms, PrimaryRssi) == [-107.0, -112.0];
    assert Sum([-107.0, -112.0]) == -219.0;
  }

  /** The summary of a single measure is that measure's own values and its first reception's. */
  lemma AveragedOfOneMesure(m: Mesure)
    requires m.gateways != []
    ensures NewAveragedMesure([m]) == Success(AveragedMesure(
      m.latitude, m.longitude, m.temperature, m.humidity as real, m.gateways[0].rssi as real, m.gateways[0].snr))
  {
    assert AllReceived([m]);
    var r := NewAveragedMesure([m]);
    assert Map([m], LatitudeOf) == [m.latitude];
    assert Map([m], LongitudeOf) == [m.longitude];
    assert Map([m], TemperatureOf) == [m.temperature];
    assert Map([m], HumidityOf) == [m.humidity as real];
    assert Map([m], PrimaryRssi) == [m.gateways[0].rssi as real];
    assert Map([m], PrimarySnr) == [m.gateways[0].snr];
    MeanOfOne(m.latitude);
    MeanOfOne(m.longitude);
    MeanOfOne(m.gateways[0].rssi as real);
    MeanOfOne(m.gateways[0].snr);
  }

  /**
   * `filter_mesures_by_sf`: the measures grouped by data rate. The keys are
   * exactly the data rates present, and bucket `rate` holds, in input order,
   * every measure of that data rate and nothing else.
   */
  method FilterMesuresBySf(mesures: seq<Mesure>) returns (mesuresBySf: map<string, seq<Mesure>>)
    ensures IsGrouping(mesuresBySf, Labelled(mesures, DataRates(mesures)))
    ensures RateBuckets(mesuresBySf, mesures)
  {
    ghost var rates := DataRates(mesures);
    mesuresBySf := map[];
    for i := 0 to |mesures|
      invariant mesuresBySf == Fold(Labelled(mesures[..i], rates))
    {
      var m := mesures[i];
      LabelledStep(mesures, rates, i);
      if m.dataRate in mesuresBySf {
        mesuresBySf := mesuresBySf[m.dataRate := mesuresBySf[m.dataRate] + [m]];
      } else {
        mesuresBySf := mesuresBySf[m.dataRate := [m]];
      }
    }
    assert mesures[..|mesures|] == mesures;
    FoldIsGrouping(Labelled(mesures, rates));
    RateGrouping(mesures, mesuresBySf);
  }

  /** Python truthiness of an optional float: present and non-zero. */
  predicate Truthy(c: Option<real>): (b: bool)
    ensures b <==> c != None && c != Some(0.0)
  {
    c.Some? && c.value != 0.0
  }

  /** A reception that reports where its gateway is. */
  predicate Located(g: Parser.Gateway): (b: bool)
    ensures b ==> g.latitude.Some? && g.longitude.Some?
    ensures b <==> g.latitude !in {None, Some(0.0)} && g.longitude !in {None, Some(0.0)}
  {
    Truthy(g.latitude) && Truthy(g.longitude)
  }

  /** The registry entry made from a located reception. */
  function Registered(g: Parser.Gateway): (gw: Gateway)
    requires Located(g)
    ensures gw.id == g.id && Some(gw.latitude) == g.latitude && Some(gw.longitude) == g.longitude
  {
    Gateway(id := g.id, latitude := g.latitude.value, longitude := g.longitude.value)
  }

  /** One step of `get_gateways`: register `g` if its id is new and it is located. */
  function Register(registry: map<string, Gateway>, g: Parser.Gateway): (r: map<string, Gateway>)
    ensures registry.Keys <= r.Keys <= registry.Keys + {g.id}
    ensures forall id :: id in registry ==> r[id] == registry[id]
    ensures g.id in r <==> g.id in registry || Located(g)
    ensures g.id !in registry && Located(g) ==> r[g.id] == Registered(g)
  {
    if g.id !in registry && Located(g) then registry[g.id := Registered(g)] else registry
  }

  /** The registry obtained by visiting the receptions `rs` in order. */
  function Registry(rs: seq<Parser.Gateway>): (r: map<string, Gateway>)
    ensures forall id :: id in r ==> r[id].id == id
  {
    if rs == [] then map[] else Register(Registry(rs[..|rs| - 1]), rs[|rs| - 1])
  }

  /** Reception j is the first reception of `rs` by gateway `id` that is located. */
  ghost predicate FirstLocatedAt(rs: seq<Parser.Gateway>, id: string, j: int)
  {
    && 0 <= j < |rs| && rs[j].id == id && Located(rs[j])
    && forall j' :: 0 <= j' < j ==> !(rs[j'].id == id && Located(rs[j']))
  }

  /** An id is registered exactly when one of its receptions is located. */
  lemma {:induction false} RegistryKeys(rs: seq<Parser.Gateway>)
    ensures forall id :: id in Registry(rs) <==> exists j :: 0 <= j < |rs| && rs[j].id == id && Located(rs[j])
  {
    if rs != [] {
      var n := |rs| - 1;
      var init := rs[..n];
      RegistryKeys(init);
      forall id ensures id in Registry(rs) <==> exists j :: 0 <= j < |rs| && rs[j].id == id && Located(rs[j]) {
        if exists j :: 0 <= j < |init| && init[j].id == id && Located(init[j]) {
          var j :| 0 <= j < |init| && init[j].id == id && Located(init[j]);
          assert rs[j] == init[j];
        }
        if exists j :: 0 <= j < |rs| && rs[j].id == id && Located(rs[j]) {
          var j :| 0 <= j < |rs| && rs[j].id == id && Located(rs[j]);
          if j < n { assert init[j] == rs[j]; }
        }
      }
    }
  }

  /** First located wins: the entry of an id is made from its first located reception. */
  lemma {:induction false} RegistryFirstWins(rs: seq<Parser.Gateway>, id: string)
    requires id in Registry(rs)
    ensures exists j :: FirstLocatedAt(rs, id, j) && Registry(rs)[id] == Registered(rs[j])
  {
    var n := |rs| - 1;
    var init := rs[..n];
    var reg := Registry(init);
    if id in reg {
      RegistryFirstWins(init, id);
      var j :| FirstLocatedAt(init, id, j) && reg[id] == Registered(init[j]);
      assert FirstLocatedAt(rs, id, j);
    } else {
      RegistryKeys(init);
      assert FirstLocatedAt(rs, id, n) by {
        forall j' | 0 <= j' < n ensures !(rs[j'].id == id && Located(rs[j'])) {
          assert rs[j'] == init[j'];
        }
      }
    }
  }

  /**
   * `registry` keeps the first located reception of each id of `rs`: an id
   * is present exactly when one of its receptions is located, and its entry
   * is made from the first of those.
   */
  ghost predicate FirstLocatedWins(registry: map<string, Gateway>, rs: seq<Parser.Gateway>)
  {
    && (forall id :: id in registry <==> exists j :: 0 <= j < |rs| && rs[j].id == id && Located(rs[j]))
    && (forall id :: id in registry ==> exists j :: FirstLocatedAt(rs, id, j) && registry[id] == Registered(rs[j]))
  }

  lemma RegistryIsFirstLocated(rs: seq<Parser.Gateway>)
    ensures FirstLocatedWins(Registry(rs), rs)
  {
    RegistryKeys(rs);
    forall id | id in Registry(rs) ensures exists j :: FirstLocatedAt(rs, id, j) && Registry(rs)[id] == Registered(rs[j]) {
      RegistryFirstWins(rs, id);
    }
  }

  /** Later receptions never overwrite or remove an entry. */
  lemma {:induction false} RegistryGrowsOnly(a: seq<Parser.Gateway>, b: seq<Parser.Gateway>)
    ensures forall id :: id in Registry(a) ==> id in Registry(a + b) && Registry(a + b)[id] == Registry(a)[id]
  {
    if b == [] {
      assert a + b == a;
    } else {
      var n := |b| - 1;
      RegistryGrowsOnly(a, b[..n]);
      assert (a + b)[..|a + b| - 1] == a + b[..n];
    }
  }

  /**
   * `get_gateways`: the registry of located gateways, visiting every
   * reception of every measure in order and keeping the first located
   * reception of each gateway id.
   */
  method GetGateways(mesures: seq<Mesure>) returns (gateways: map<string, Gateway>)
    ensures gateways == Registry(AllReceptions(mesures))
    ensures FirstLocatedWins(gateways, AllReceptions(mesures))
  {
    gateways := map[];
    for i := 0 to |mesures|
      invariant gateways == Registry(AllReceptions(mesures[..i]))
    {
      var mesure := mesures[i];
      ghost var visited := AllReceptions(mesures[..i]);
      assert visited + mesure.gateways[..0] == visited;
      for j := 0 to |mesure.gateways|
        invariant gateways == Registry(visited + mesure.gateways[..j])
      {
        var mesureGw := mesure.gateways[j];
        RegistryStep(visited, mesure.gateways, j);
        if mesureGw.id !in gateways {
          if Truthy(mesureGw.latitude) && Truthy(mesureGw.longitude) {
            gateways := gateways[mesureGw.id := Gateway(
              id := mesureGw.id,
              latitude := mesureGw.latitude.value,
              longitude := mesureGw.longitude.value)];
          }
        }
      }
      assert mesure.gateways[..|mesure.gateways|] == mesure.gateways;
      AllReceptionsStep(mesures, i);
    }
    assert mesures[..|mesures|] == mesures;
    RegistryIsFirstLocated(AllReceptions(mesures));
  }

  lemma RegistryStep(visited: seq<Parser.Gateway>, gs: seq<Parser.Gateway>, j: nat)
    requires j < |gs|
    ensures Registry(visited + gs[..j + 1]) == Register(Registry(visited + gs[..j]), gs[j])
  {
    assert visited + gs[..j + 1] == (visited + gs[..j]) + [gs[j]];
  }

  /**
   * `filter_mesures_by_gateway`: for every reception of every measure, a
   * copy of the measure keeping only the receptions by that reception's
   * gateway, filed under the gateway's id. The input measures are values and
   * are left as they were.
   */
  method FilterMesuresByGateway(mesures: seq<Mesure>) returns (mesuresByGateway: map<string, seq<Mesure>>)
    ensures IsGrouping(mesuresByGateway, GatewayEntries(mesures))
    ensures GatewayBuckets(mesuresByGateway, mesures)
  {
    mesuresByGateway := map[];
    for i := 0 to |mesures|
      invariant mesuresByGateway == Fold(GatewayEntries(mesures[..i]))
    {
      var mesure := mesures[i];
      GatewayEntriesStep(mesures, i);
      assert GatewayEntries(mesures[..i]) + ReceptionEntries(mesure, mesure.gateways[..0]) == GatewayEntries(mesures[..i]);
      for j := 0 to |mesure.gateways|
        invariant mesuresByGateway == Fold(GatewayEntries(mesures[..i]) + ReceptionEntries(mesure, mesure.gateways[..j]))
      {
        var mesureGw := mesure.gateways[j];
        var mesureCopy := mesure.(gateways := OnlyId(mesure.gateways, mesureGw.id));
        ReceptionEntriesStep(GatewayEntries(mesures[..i]), mesure, j);
        FoldStep(GatewayEntries(mesures[..i]) + ReceptionEntries(mesure, mesure.gateways[..j]), mesureGw.id, mesureCopy);
        if mesureGw.id in mesuresByGateway {
          mesuresByGateway := mesuresByGateway[mesureGw.id := mesuresByGateway[mesureGw.id] + [mesureCopy]];
        } else {
          mesuresByGateway := mesuresByGateway[mesureGw.id := [mesureCopy]];
        }
      }
    }
    assert mesures[..|mesures|] == mesures;
    FoldIsGrouping(GatewayEntries(mesures));
    GatewayGrouping(mesures, mesuresByGateway);
  }

  /** `get_coordinates_matrix`: one `[latitude, longitude]` row per measure, in order. */
  function GetCoordinatesMatrix(mesures: seq<Mesure>): (rows: seq<seq<real>>)
    ensures |rows| == |mesures|
    ensures forall i :: 0 <= i < |mesures| ==> rows[i] == [mesures[i].latitude, mesures[i].longitude]
  {
    if mesures == [] then []
    else [[mesures[0].latitude, mesures[0].longitude]] + GetCoordinatesMatrix(mesures[1..])
  }

  /**
   * `group_data`: measure i filed under `clusterAssignements[i]`, the noise
   * label -1 like any other. The keys are exactly the labels of the measures,
   * and each bucket holds its measures in input order.
   */
  method GroupData(mesures: seq<Mesure>, clusterAssignements: seq<int>) returns (data: map<int, seq<Mesure>>)
    requires |clusterAssignements| >= |mesures|
    ensures IsGrouping(data, Labelled(mesures, clusterAssignements))
    ensures ClusterBuckets(data, mesures, clusterAssignements)
  {
    data := map[];
    for i := 0 to |mesures|
      invariant data == Fold(Labelled(mesures[..i], clusterAssignements))
    {
      var clusterId := clusterAssignements[i];
      LabelledStep(mesures, clusterAssignements, i);
      if clusterId in data {
        data := data[clusterId := data[clusterId] + [mesures[i]]];
      } else {
        data := data[clusterId := [mesures[i]]];
      }
    }
    assert mesures[..|mesures|] == mesures;
    FoldIsGrouping(Labelled(mesures, clusterAssignements));
    ClusterGrouping(mesures, clusterAssignements, data);
  }

  /**
   * `get_clusters`, given the cluster label of each measure: the `group_data`
   * bucketing of the measures under those labels.
   */
  function GetClusters(mesures: seq<Mesure>, clusterIds: seq<int>): (data: map<int, seq<Mesure>>)
    requires |clusterIds| == |mesures|
    ensures IsGrouping(data, Labelled(mesures, clusterIds))
    ensures ClusterBuckets(data, mesures, clusterIds)
  {
    FoldIsGrouping(Labelled(mesures, clusterIds));
    ClusterGrouping(mesures, clusterIds, Fold(Labelled(mesures, clusterIds)));
    Fold(Labelled(mesures, clusterIds))
  }
}
