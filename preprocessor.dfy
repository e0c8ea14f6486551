/**
 * The earlier copy of the grouping functions (preprocessor.py). Its
 * functions have the same bodies as their namesakes in processor.py and
 * are proved against the same specifications.
 */
module Preprocessor {
  import opened Multimap
  import opened Grouping
  import Parser

  type Mesure = Parser.Mesure

  /**
   * `filter_mesures_by_sf`: the measures grouped by data rate. The keys are
   * exactly the data rates present, and bucket `rate` holds, in input order,
   * every measure of that data rate and nothing else.
   */
  method FilterMesuresBySf(mesures: seq<Mesure>) returns (mesuresBySf: map<string, seq<Mesure>>)
    ensures IsGrouping(mesuresBySf, Labelled(mesures, DataRates(mesures)))
    ensures RateBuckets(mesuresBySf, mesures)
  {
    ghost var rates := DataRates(mesures);
    mesuresBySf := map[];
    for i := 0 to |mesures|
      invariant mesuresBySf == Fold(Labelled(mesures[..i], rates))
    {
      var m := mesures[i];
      LabelledStep(mesures, rates, i);
      if m.dataRate in mesuresBySf {
        mesuresBySf := mesuresBySf[m.dataRate := mesuresBySf[m.dataRate] + [m]];
      } else {
        mesuresBySf := mesuresBySf[m.dataRate := [m]];
      }
    }
    assert mesures[..|mesures|] == mesures;
    FoldIsGrouping(Labelled(mesures, rates));
    RateGrouping(mesures, mesuresBySf);
  }

  /**
   * `filter_mesures_by_gateway`: for every reception of every measure, a
   * copy of the measure keeping only the receptions by that reception's
   * gateway, filed under the gateway's id. The input measures are values and
   * are left as they were.
   */
  method FilterMesuresByGateway(mesures: seq<Mesure>) returns (mesuresByGateway: map<string, seq<Mesure>>)
    ensures IsGrouping(mesuresByGateway, GatewayEntries(mesures))
    ensures GatewayBuckets(mesuresByGateway, mesures)
  {
    mesuresByGateway := map[];
    for i := 0 to |mesures|
      invariant mesuresByGateway == Fold(GatewayEntries(mesures[..i]))
    {
      var mesure := mesures[i];
      GatewayEntriesStep(mesures, i);
      assert GatewayEntries(mesures[..i]) + ReceptionEntries(mesure, mesure.gateways[..0]) == GatewayEntries(mesures[..i]);
      for j := 0 to |mesure.gateways|
        invariant mesuresByGateway == Fold(GatewayEntries(mesures[..i]) + ReceptionEntries(mesure, mesure.gateways[..j]))
      {
        var mesureGw := mesure.gateways[j];
        var mesureCopy := mesure.(gateways := OnlyId(mesure.gateways, mesureGw.id));
        ReceptionEntriesStep(GatewayEntries(mesures[..i]), mesure, j);
        FoldStep(GatewayEntries(mesures[..i]) + ReceptionEntries(mesure, mesure.gateways[..j]), mesureGw.id, mesureCopy);
        if mesureGw.id in mesuresByGateway {
          mesuresByGateway := mesuresByGateway[mesureGw.id := mesuresByGateway[mesureGw.id] + [mesureCopy]];
        } else {
          mesuresByGateway := mesuresByGateway[mesureGw.id := [mesureCopy]];
        }
      }
    }
    assert mesures[..|mesures|] == mesures;
    FoldIsGrouping(GatewayEntries(mesures));
    GatewayGrouping(mesures, mesuresByGateway);
  }

  /** `get_coordinates_matrix`: one `[latitude, longitude]` row per measure, in order. */
  function GetCoordinatesMatrix(mesures: seq<Mesure>): (rows: seq<seq<real>>)
    ensures |rows| == |mesures|
    ensures forall i :: 0 <= i < |mesures| ==> rows[i] == [mesures[i].latitude, mesures[i].longitude]
  {
    if mesures == [] then []
    else [[mesures[0].latitude, mesures[0].longitude]] + GetCoordinatesMatrix(mesures[1..])
  }

  /**
   * `group_data`: measure i filed under `clusterAssignements[i]`, the noise
   * label -1 like any other. The keys are exactly the labels of the measures,
   * and each bucket holds its measures in input order.
   */
  method GroupData(mesures: seq<Mesure>, clusterAssignements: seq<int>) returns (data: map<int, seq<Mesure>>)
    requires |clusterAssignements| >= |mesures|
    ensures IsGrouping(data, Labelled(mesures, clusterAssignements))
    ensures ClusterBuckets(data, mesures, clusterAssignements)
  {
    data := map[];
    for i := 0 to |mesures|
      invariant data == Fold(Labelled(mesures[..i], clusterAssignements))
    {
      var clusterId := clusterAssignements[i];
      LabelledStep(mesures, clusterAssignements, i);
      if clusterId in data {
        data := data[clusterId := data[clusterId] + [mesures[i]]];
      } else {
        data := data[clusterId := [mesures[i]]];
      }
    }
    assert mesures[..|mesures|] == mesures;
    FoldIsGrouping(Labelled(mesures, clusterAssignements));
    ClusterGrouping(mesures, clusterAssignements, data);
  }

  /**
   * `get_clusters`, given the cluster label of each measure: the `group_data`
   * bucketing of the measures under those labels.
   */
  function GetClusters(mesures: seq<Mesure>, clusterIds: seq<int>): (data: map<int, seq<Mesure>>)
    requires |clusterIds| == |mesures|
    ensures IsGrouping(data, Labelled(mesures, clusterIds))
    ensures ClusterBuckets(data, mesures, clusterIds)
  {
    FoldIsGrouping(Labelled(mesures, clusterIds));
    ClusterGrouping(mesures, clusterIds, Fold(Labelled(mesures, clusterIds)));
    Fold(Labelled(mesures, clusterIds))
  }
}
