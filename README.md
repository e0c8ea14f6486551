# Coverage grouping of LoRa measures — a Dafny model

This project models the grouping and aggregation layer of a small LoRa
coverage-mapping tool. The tool reads one "mesure" (a reading from a sensor)
per log line. Each mesure lists the gateways that received it. The tool then
groups the mesures into buckets and draws them as map points:

- `parser.py` cuts the JSON part out of a log line and turns a decoded
  document into `Mesure` and `Gateway` (reception) records.
- `processor.py` and `preprocessor.py` bucket mesures by cluster label, by
  data rate (spreading factor) and by gateway. `processor.py` also builds a
  registry of located gateways and summarises a group as an `AveragedMesure`.
- `encoder.py` turns a point into a GeoJSON feature with a coloured pin.

`preprocessor.py` repeats six of `processor.py`'s functions almost line for
line. One of them, `get_cluster_assignments`, is left out (see below). The
`Preprocessor` module repeats the models of the other five, so that each
source file has its own, with the same contracts.

Every bucketing function in the source is a loop that grows a dictionary of
lists: it creates a key's list holding the first mesure filed under that key,
then appends each later one. `Multimap` describes such a loop by the
sequence of (key, mesure) pairs it files. `Multimap.Fold` is the dictionary
the loop builds from those pairs. `Multimap.IsGrouping` describes that
dictionary independently:

- its keys are exactly the keys that occur;
- each bucket holds its mesures in input order;
- no bucket is empty;
- the bucket lengths add up to the number of pairs.

`Multimap.FoldIsGrouping` proves that the two agree. The bucketing loops
(`GroupData`, `FilterMesuresBySf`, `FilterMesuresByGateway`) are Dafny methods
with the same loops. Their invariants tie the dictionary to `Fold` of the
pairs filed so far. `Grouping` then spells out what the buckets hold, in
terms of the mesures themselves.

The gateway registry loop (`GetGateways`) is not a bucketing loop: it keeps
only the first located reception of each gateway. Its invariants tie the
dictionary to `Processor.Registry` of the receptions visited so far, a fold
of `Processor.Register` steps. `Processor.RegistryIsFirstLocated` then says
which entry each gateway gets.

Numbers are exact: floats become `real`, and `statistics.mean` and
`statistics.median` become `Stats.Mean` and `Stats.Median` over reals.

Some behaviour of the source worth knowing when reading the contracts:

- `AveragedMesure` takes the mean of latitude and longitude
  (processor.py:24-25).
- It takes the median of temperature and humidity (processor.py:26-27).
- The mean rssi and snr of the first receptions are kept as they are, without
  rounding (processor.py:28-29).
- The temperature of a parsed mesure is read from the payload's latitude
  field (parser.py:44). `Parser.TemperatureIsLatitude` states this.
- A gateway reception must carry `latitude` and `longitude` keys
  (parser.py:31-32), though their values may be null.
- `group_data` drops no bucket (processor.py:86-96). A cluster label of -1 is
  a key like any other.
- The pin colour depends only on the kind of point (encoder.py:12-13,
  27-28). An `RSSIDataPoint` is always red, whatever its rssi.

## Model

| member | source | states |
|---|---|---|
| `Parser.SplitOnSpace` | parser.py:51 | `str.split(" ")` always gives at least one piece (the empty string gives `[""]`); its pieces are pinned down by `SplitPieces` and `SplitJoin` |
| `Parser.SplitPieces` | parser.py:51 | `line.split(" ")` gives one more piece than the line has spaces, and no piece holds a space |
| `Parser.SplitJoin` | parser.py:51 | joining the pieces of `split(" ")` with single spaces gives back the line |
| `Parser.GetDataFromLine` | parser.py:50-52 | raises `IndexError` exactly when the line has no space; otherwise the result holds no space |
| `Parser.DataFromLineIsSecondField` | parser.py:50-52 | for any line `head + " " + data + tail` (head and data without spaces, tail empty or starting with a space) the result is `data` |
| `Parser.DataFromLineDoubleSpace` | parser.py:51-52 | two consecutive spaces after the first token give the empty string |
| `Parser.ParseGatewayFromJson` | parser.py:28-35 | `gtw_id`, `latitude`, `longitude`, `rssi`, `snr` are copied unchanged into `id`, `latitude`, `longitude`, `rssi`, `snr` |
| `Parser.ParseGateways` | parser.py:46 | the parsed gateway list has the length and order of `metadata.gateways`, element i parsed from record i |
| `Parser.ParseMesureFromJson` | parser.py:38-47 | data and coding rate from `metadata`; latitude, longitude, humidity from `payload_fields`; temperature from the payload's latitude; gateways element-wise |
| `Parser.TemperatureIsLatitude` | parser.py:42-44 | every parsed mesure has temperature equal to its latitude |
| `Encoder.Base` | encoder.py:23-24 | an `RSSIDataPoint` is built on a base point with the same latitude and longitude |
| `Encoder.GetGeojsonPoint` | encoder.py:9-10 | the point's position is (longitude, latitude), swapped against the stored fields |
| `Encoder.GetPinColor` | encoder.py:12-28 | a base point's pin is `#FFF`; an `RSSIDataPoint`'s is `#FF0000` |
| `Encoder.GetGeojsonFeature` | encoder.py:15-19 | the geometry is `get_geojson_point()`; the properties are exactly `{'marker-color': get_pin_color()}`, dispatched on the variant |
| `Encoder.FeatureRoundTrip` | encoder.py:9-19 | reading the model's feature position back gives the point's own latitude and longitude (the library's coordinate rounding is not modelled, see below) |
| `Encoder.RssiPointExtendsBase` | encoder.py:22-28 | an `RSSIDataPoint` keeps its rssi and has the same base fields and geometry as a base point, but a different colour |
| `Encoder.FeatureIgnoresRssi` | encoder.py:27-28 | the feature of an `RSSIDataPoint` does not depend on its rssi |
| `Stats.Mean` | processor.py:24-25 | `mean` of non-empty data lies between its least and greatest value |
| `Stats.MeanBetween` | processor.py:24-25 | any bounds on every value are bounds on their `mean` |
| `Stats.Median` | processor.py:26-27 | `median` of non-empty data lies between its least and greatest value, and for an odd count is one of the values |
| `Stats.Sort` | processor.py:26-27 | `sorted`, as used by `median`, is ordered and a permutation of its input |
| `Stats.MeanPermutation` | processor.py:24-25 | `mean` does not depend on the order of the data |
| `Stats.MedianPermutation` | processor.py:26-27 | `median` does not depend on the order of the data |
| `Stats.SortedUnique` | processor.py:26-27 | two sorted arrangements of the same values are equal, which is why `median` ignores order |
| `Multimap.FoldIsGrouping` | processor.py:86-96 | the create-or-append loop builds the grouping of the pairs it files: exact key set, buckets in input order, no empty bucket, total count preserved |
| `Multimap.TotalSizeAppend` | processor.py:91-94 | each create-or-append step adds exactly one mesure to the dictionary |
| `Multimap.GroupingUnique` | preprocessor.py:59-67 | a grouping of given pairs is unique, so `get_clusters` and `group_data` on the same labels return the same dictionary |
| `Grouping.LabelledBucket` | processor.py:88-94 | bucket `k` holds exactly the mesures whose label is `k` |
| `Grouping.ClusterGrouping` | processor.py:86-96 | the keys are exactly the labels of the first `len(mesures)` assignments, and mesure i is in the bucket of label i |
| `Grouping.RateGrouping` | processor.py:35-42 | the keys are exactly the data rates present, a bucket holds only input mesures of its own data rate, and every mesure is in its own rate's bucket |
| `Grouping.RateBucketsCoverAll` | processor.py:37-41 | every mesure is filed in the bucket of its own data rate |
| `Grouping.OnlyId` | processor.py:64 | the comprehension keeps only receptions of the measure that were made by the given id; the result's length is the number of such receptions |
| `Grouping.OnlyIdMultiset` | processor.py:64 | each reception by the id is kept exactly as often as it occurs, and no reception by another id is kept |
| `Grouping.OnlyIdConcat` | processor.py:64 | filtering a concatenation is the concatenation of the filtered parts, so kept receptions stay in their original relative order |
| `Grouping.CopyForGateway` | processor.py:63-64 | the copy equals the original except for its reception list, which is exactly the original's receptions filtered to the key's gateway (`OnlyId`), all drawn from the original |
| `Grouping.ReceptionBucket` | processor.py:62-69 | a mesure with k receptions by gateway g adds exactly k copies to bucket g |
| `Grouping.GatewayBucket` | processor.py:61-69 | bucket g holds, mesure by mesure in input order, one restricted copy per reception by g; a mesure without receptions adds nothing |
| `Grouping.CopiesAreRestrictions` | processor.py:63-64 | every entry of bucket g is some input mesure restricted to g |
| `Grouping.GatewayEntriesAlign` | processor.py:61-62 | the nested loop files one pair per reception, keyed by that reception's gateway id |
| `Grouping.GatewayKeys` | processor.py:66-69 | the keys are exactly the gateway ids of all receptions |
| `Grouping.GatewayGrouping` | processor.py:59-71 | keys, bucket contents, and total number of entries equal to the total number of receptions |
| `Processor.NewAveragedMesure` | processor.py:22-29 | raises `StatisticsError` on no data and `IndexError` if a mesure has no reception, and succeeds otherwise; on success the latitude and longitude are the exact `Mean`s, the temperature and humidity the `Median`s, and the rssi and snr the exact `Mean`s of the first receptions (`IsSummaryOf`), each within the range of its inputs |
| `Processor.AveragedOrderIndependent` | processor.py:22-29 | the summary, and any error raised, do not change when the mesures are permuted |
| `Processor.AveragedReadsFirstReceptionOnly` | processor.py:28-29 | receptions after the first never change the summary: rssi and snr come from `gateways[0]` only |
| `Processor.AveragedOfOneMesure` | processor.py:22-29 | one mesure summarises to its own position, temperature, humidity and first reception's rssi and snr |
| `Processor.AveragedRssiIsNotRounded` | processor.py:28 | first receptions at -107 and -112 give a mean rssi of exactly -109.5, so the mean is not rounded |
| `Processor.MapPermutation` | processor.py:24-29 | the generator of field values of permuted mesures is a permutation of the original |
| `Processor.FilterMesuresBySf` | processor.py:35-42 | returns the grouping of the mesures by `data_rate`: every mesure once, in the bucket of its own rate, in input order; keys exactly the rates present |
| `Processor.Truthy` | processor.py:50 | an optional coordinate passes the truthiness test exactly when it is neither null nor 0.0 |
| `Processor.Located` | processor.py:50 | a reception counts as located exactly when neither coordinate is null or 0.0; both coordinates are then present |
| `Processor.Register` | processor.py:49-55 | one inner-loop step: existing entries are kept unchanged, at most the reception's id is added, and it is added exactly when it is new and the reception is located, with that reception's coordinates |
| `Processor.Registry` | processor.py:46-56 | the registry built from the receptions in order; every entry is keyed by its own gateway id |
| `Processor.Registered` | processor.py:51-55 | a registry entry carries the reception's id and coordinates |
| `Processor.RegistryKeys` | processor.py:45-56 | an id is registered exactly when one of its receptions has truthy latitude and longitude, so 0.0 and null count as absent |
| `Processor.RegistryFirstWins` | processor.py:47-55 | an id's entry comes from its first located reception in mesure-then-reception order |
| `Processor.RegistryIsFirstLocated` | processor.py:45-56 | the registry keeps exactly the first located reception of each id |
| `Processor.RegistryGrowsOnly` | processor.py:49 | later receptions never overwrite or remove an entry |
| `Processor.GetGateways` | processor.py:45-56 | the loop builds the registry of all receptions in order, with the first-located-wins property |
| `Processor.FilterMesuresByGateway` | processor.py:59-71 | returns the grouping of one restricted copy per reception, keyed by gateway id, with keys, buckets and total count as in `GatewayGrouping` |
| `Processor.GetCoordinatesMatrix` | processor.py:74-75 | one `[latitude, longitude]` row per mesure, same length and order |
| `Processor.GroupData` | processor.py:86-96 | mesure i goes to bucket `cluster_assignements[i]`; keys exactly the labels used, -1 included; buckets in input order, none empty, total count preserved |
| `Processor.GetClusters` | processor.py:99-107 | given the labels, the `group_data` grouping of the mesures |
| `Preprocessor.FilterMesuresBySf` | preprocessor.py:8-15 | the same grouping by `data_rate` as in processor.py |
| `Preprocessor.FilterMesuresByGateway` | preprocessor.py:18-30 | the same grouping by gateway as in processor.py: restricted copies, one per reception |
| `Preprocessor.GetCoordinatesMatrix` | preprocessor.py:33-34 | one `[latitude, longitude]` row per mesure, same length and order |
| `Preprocessor.GroupData` | preprocessor.py:46-56 | the same partition by cluster label as in processor.py |
| `Preprocessor.GetClusters` | preprocessor.py:59-67 | given the labels, the `group_data` grouping of the mesures |

## Left out

- `get_cluster_assignments` (processor.py:78-83, preprocessor.py:37-43) is left out. It calls sklearn's DBSCAN with a haversine metric on float radians. `GetClusters` therefore takes the cluster labels as a parameter, one per mesure.
- `GetClusters` does not build the coordinates matrix, because only DBSCAN reads it. DBSCAN's rejection of an empty input is also not modelled.
- `parse_line_to_json` and `json.loads` (parser.py:55-57) are left out. The decoded document is given as typed records. A missing key (`KeyError`) or a value of an unexpected JSON type is therefore not representable.
- The `__main__` blocks (parser.py:60-65, encoder.py:31-35) are left out: file reading and printing.
- The `geojson` library is left out. `Point` and `Feature` are plain datatypes, and `FeatureCollection` only appears in `encoder.py`'s `__main__`.
- Encoder.GetGeojsonPoint and Encoder.FeatureRoundTrip do not model the `geojson` library's default rounding of every coordinate given to `Point(...)` to 6 decimal places (`precision=6`). The exact round trip therefore holds for the model's `Point` only; in the source, a latitude of 45.78371234 is read back as 45.783712.
- `__str__` and `__repr__` (processor.py:15-19, 31-32) are left out: float formatting.
- Stats.Mean and Stats.Median compute exactly over `real`. They make no claim of bit-exact agreement with IEEE floats or with `statistics`' conversion back to `int` or `float`.
- Processor.GroupData and Preprocessor.GroupData require at least as many labels as mesures. With fewer, Python raises `IndexError` part-way through the loop; that call is excluded, not modelled.
- Python dictionaries remember the order in which keys were first inserted, and Dafny maps do not. The model keeps the order of mesures within each bucket, but not the order of the keys.
- `copy(mesure)` makes a shallow copy that shares every field except `gateways` with the original. The model uses immutable values, so it does not represent this sharing. The originals are unchanged by construction.
