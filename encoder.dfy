/**
 * Map points and their GeoJSON features (encoder.py). The base point and the
 * signal-strength point differ only in their pin colour, so the two classes
 * are one datatype with a variant each, and the colour dispatches on it.
 */
module Encoder {

  /** A GeoJSON point; its position is the pair (longitude, latitude). */
  datatype Point = Point(coordinates: (real, real))

  /** A GeoJSON feature: a geometry and string-valued properties. */
  datatype Feature = Feature(geometry: Point, properties: map<string, string>)

  datatype DataPoint =
    | DataPoint(latitude: real, longitude: real)
    | RSSIDataPoint(latitude: real, longitude: real, rssi: real)

  const MarkerColor: string := "marker-color"

  /** The base point a signal-strength point is built on (its `super().__init__` call). */
  function Base(p: DataPoint): (b: DataPoint)
    ensures b.DataPoint?
    ensures b.latitude == p.latitude && b.longitude == p.longitude
  {
    DataPoint(p.latitude, p.longitude)
  }

  /** `get_geojson_point`: the position with longitude first and latitude second. */
  function GetGeojsonPoint(p: DataPoint): (pt: Point)
    ensures pt.coordinates.0 == p.longitude && pt.coordinates.1 == p.latitude
  {
    Point((p.longitude, p.latitude))
  }

  /** Reads a GeoJSON position back as (latitude, longitude). */
  function LatLongOf(pt: Point): (real, real)
  {
    (pt.coordinates.1, pt.coordinates.0)
  }

  /** `get_pin_color`: white for a base point, red for a signal-strength point whatever its rssi. */
  function GetPinColor(p: DataPoint): (color: string)
    ensures p.DataPoint? ==> color == "#FFF"
    ensures p.RSSIDataPoint? ==> color == "#FF0000"
  {
    match p
    case DataPoint(_, _) => "#FFF"
    case RSSIDataPoint(_, _, _) => "#FF0000"
  }

  /** `get_geojson_feature`: the point's geometry with its pin colour as the only property. */
  function GetGeojsonFeature(p: DataPoint): (f: Feature)
    ensures f.geometry == GetGeojsonPoint(p)
    ensures f.properties.Keys == {MarkerColor} && f.properties[MarkerColor] == GetPinColor(p)
  {
    Feature(geometry := GetGeojsonPoint(p), properties := map[MarkerColor := GetPinColor(p)])
  }

  /** Reading a feature's geometry back gives the point's own latitude and longitude. */
  lemma FeatureRoundTrip(p: DataPoint)
    ensures LatLongOf(GetGeojsonFeature(p).geometry) == (p.latitude, p.longitude)
  {
  }

  /**
   * A signal-strength point is placed exactly where its base point is, keeps
   * its rssi, and only its colour differs from the base point's.
   */
  lemma RssiPointExtendsBase(latitude: real, longitude: real, rssi: real)
    ensures RSSIDataPoint(latitude, longitude, rssi).rssi == rssi
    ensures Base(RSSIDataPoint(latitude, longitude, rssi)) == DataPoint(latitude, longitude)
    ensures GetGeojsonFeature(RSSIDataPoint(latitude, longitude, rssi)).geometry
         == GetGeojsonFeature(DataPoint(latitude, longitude)).geometry
    ensures GetPinColor(RSSIDataPoint(latitude, longitude, rssi)) != GetPinColor(DataPoint(latitude, longitude))
  {
  }

  /** The feature of a signal-strength point does not depend on its rssi. */
  lemma FeatureIgnoresRssi(latitude: real, longitude: real, rssi: real, rssi': real)
    ensures GetGeojsonFeature(RSSIDataPoint(latitude, longitude, rssi))
         == GetGeojsonFeature(RSSIDataPoint(latitude, longitude, rssi'))
  {
  }
}
