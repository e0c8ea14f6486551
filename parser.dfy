/**
 * The reading model and its extraction from one log line (parser.py).
 *
 * A log line carries a metadata prefix, then a JSON document after the first
 * space. The JSON decoding itself is not modelled: the decoded document is
 * given as the record datatypes below, holding the fields the parser reads.
 */
module Parser {
  import opened Wrappers

  /** One gateway's reception of a measure (class `Gateway` of parser.py). */
  datatype Gateway = Gateway(
    id: string,
    rssi: int,
    snr: real,
    latitude: Option<real>,   // None: the record holds JSON null
    longitude: Option<real>)

  /** One reading of the sensor (class `Mesure` of parser.py). */
  datatype Mesure = Mesure(
    dataRate: string,
    codingRate: string,
    latitude: real,
    longitude: real,
    temperature: real,
    humidity: int,
    gateways: seq<Gateway>)

  /** A decoded entry of `metadata.gateways`. */
  datatype GatewayRecord = GatewayRecord(
    gtw_id: string,
    rssi: int,
    snr: real,
    latitude: Option<real>,
    longitude: Option<real>)

  /** The decoded `metadata` object. */
  datatype MetadataRecord = MetadataRecord(
    data_rate: string,
    coding_rate: string,
    gateways: seq<GatewayRecord>)

  /** The decoded `payload_fields` object, as far as the parser reads it. */
  datatype PayloadRecord = PayloadRecord(
    latitude: real,
    longitude: real,
    humidity: int)

  /** A decoded JSON document of one log line. */
  datatype MesureRecord = MesureRecord(
    metadata: MetadataRecord,
    payload_fields: PayloadRecord)

  /** Python's `IndexError`, raised when a list is read past its end. */
  datatype ParseError = IndexError

  /**
   * Python's `str.split(" ")`: the pieces between single space characters.
   * A string with n spaces gives n + 1 pieces, none holding a space.
   */
  function SplitOnSpace(s: string): (parts: seq<string>)
    ensures parts != []
  {
    if s == [] then [""]
    else
      var rest := SplitOnSpace(s[1..]);
      if s[0] == ' ' then [""] + rest else [[s[0]] + rest[0]] + rest[1..]
  }

  lemma {:induction false} SplitPieces(s: string)
    ensures |SplitOnSpace(s)| == multiset(s)[' '] + 1
    ensures forall i :: 0 <= i < |SplitOnSpace(s)| ==> ' ' !in SplitOnSpace(s)[i]
  {
    if s != [] {
      SplitPieces(s[1..]);
      assert s == [s[0]] + s[1..];
      var rest := SplitOnSpace(s[1..]);
      if s[0] != ' ' {
        var parts := [[s[0]] + rest[0]] + rest[1..];
        forall i | 0 <= i < |parts| ensures ' ' !in parts[i] {
          if i > 0 { assert parts[i] == rest[i]; }
        }
      }
    }
  }

  /** Python's `" ".join(parts)`. */
  function JoinWithSpace(parts: seq<string>): string
    requires parts != []
  {
    if |parts| == 1 then parts[0] else parts[0] + " " + JoinWithSpace(parts[1..])
  }

  /** Splitting loses nothing: joining the pieces with spaces gives back the line. */
  lemma {:induction false} SplitJoin(s: string)
    ensures JoinWithSpace(SplitOnSpace(s)) == s
  {
    if s != [] {
      var rest := SplitOnSpace(s[1..]);
      SplitJoin(s[1..]);
      if s[0] == ' ' {
        assert ([""] + rest)[1..] == rest;
      } else {
        var parts := [[s[0]] + rest[0]] + rest[1..];
        if |rest| == 1 {
          assert JoinWithSpace(parts) == [s[0]] + rest[0];
        } else {
          assert parts[1..] == rest[1..];
          assert JoinWithSpace(rest) == rest[0] + " " + JoinWithSpace(rest[1..]);
        }
        assert s == [s[0]] + s[1..];
      }
    }
  }

  /** A first piece free of spaces is split off whole. */
  lemma {:induction false} SplitAfterHead(head: string, rest: string)
    requires ' ' !in head
    ensures SplitOnSpace(head + " " + rest) == [head] + SplitOnSpace(rest)
  {
    if head != [] {
      SplitAfterHead(head[1..], rest);
      assert (head + " " + rest)[1..] == head[1..] + " " + rest;
      assert [head[0]] + head[1..] == head;
    } else {
      assert (head + " " + rest)[1..] == rest;
    }
  }

  /** A piece free of spaces followed by nothing, or by a space, is the first piece. */
  lemma {:induction false} SplitFirstPiece(data: string, tail: string)
    requires ' ' !in data
    requires tail == [] || tail[0] == ' '
    ensures SplitOnSpace(data + tail)[0] == data
  {
    if data == [] {
      assert data + tail == tail;
    } else {
      SplitFirstPiece(data[1..], tail);
      assert (data + tail)[1..] == data[1..] + tail;
      assert [data[0]] + data[1..] == data;
    }
  }

  /**
   * `get_data_from_line`: element 1 of `line.split(" ")`. It raises
   * `IndexError` exactly when the line holds no space; otherwise the field it
   * returns holds no space.
   */
  function GetDataFromLine(line: string): (r: Result<string, ParseError>)
    ensures r.Failure? <==> ' ' !in line
    ensures r.Failure? ==> r.error == IndexError
    ensures r.Success? ==> ' ' !in r.value
  {
    var arr := SplitOnSpace(line);
    SplitPieces(line);
    assert ' ' in line <==> multiset(line)[' '] > 0;
    if |arr| > 1 then Success(arr[1]) else Failure(IndexError)
  }

  /**
   * The field returned is the text between the first space and the next
   * space (or the end of the line).
   */
  lemma DataFromLineIsSecondField(head: string, data: string, tail: string)
    requires ' ' !in head && ' ' !in data
    requires tail == [] || tail[0] == ' '
    ensures GetDataFromLine(head + " " + data + tail) == Success(data)
  {
    assert head + " " + data + tail == head + " " + (data + tail);
    SplitAfterHead(head, data + tail);
    SplitFirstPiece(data, tail);
  }

  /** Two consecutive spaces after the first token yield the empty field. */
  lemma DataFromLineDoubleSpace(head: string, rest: string)
    requires ' ' !in head
    ensures GetDataFromLine(head + "  " + rest) == Success("")
  {
    assert head + "  " + rest == head + " " + "" + (" " + rest);
    DataFromLineIsSecondField(head, "", " " + rest);
  }

  /** `parse_gateway_from_json`: copies each field of the record, `gtw_id` into `id`. */
  function ParseGatewayFromJson(g: GatewayRecord): (r: Gateway)
    ensures r.id == g.gtw_id && r.rssi == g.rssi && r.snr == g.snr
    ensures r.latitude == g.latitude && r.longitude == g.longitude
  {
    Gateway(id := g.gtw_id, latitude := g.latitude, longitude := g.longitude, rssi := g.rssi, snr := g.snr)
  }

  /** The list comprehension of `parse_mesure_from_json`: one parsed gateway per record, in order. */
  function ParseGateways(gs: seq<GatewayRecord>): (r: seq<Gateway>)
    ensures |r| == |gs|
    ensures forall i :: 0 <= i < |gs| ==> r[i] == ParseGatewayFromJson(gs[i])
  {
    if gs == [] then [] else [ParseGatewayFromJson(gs[0])] + ParseGateways(gs[1..])
  }

  /**
   * `parse_mesure_from_json`: data and coding rate and the gateways come from
   * `metadata`; latitude, longitude and humidity from `payload_fields`; and
   * the temperature is read from the payload's latitude.
   */
  function ParseMesureFromJson(rec: MesureRecord): (m: Mesure)
    ensures m.dataRate == rec.metadata.data_rate && m.codingRate == rec.metadata.coding_rate
    ensures m.latitude == rec.payload_fields.latitude && m.longitude == rec.payload_fields.longitude
    ensures m.temperature == rec.payload_fields.latitude
    ensures m.humidity == rec.payload_fields.humidity
    ensures |m.gateways| == |rec.metadata.gateways|
    ensures forall i :: 0 <= i < |m.gateways| ==> m.gateways[i] == ParseGatewayFromJson(rec.metadata.gateways[i])
  {
    Mesure(
      dataRate := rec.metadata.data_rate,
      codingRate := rec.metadata.coding_rate,
      latitude := rec.payload_fields.latitude,
      longitude := rec.payload_fields.longitude,
      temperature := rec.payload_fields.latitude,
      humidity := rec.payload_fields.humidity,
      gateways := ParseGateways(rec.metadata.gateways))
  }

  /** Every parsed measure reports its own latitude as its temperature. */
  lemma TemperatureIsLatitude(rec: MesureRecord)
    ensures ParseMesureFromJson(rec).temperature == ParseMesureFromJson(rec).latitude
  {
  }
}
