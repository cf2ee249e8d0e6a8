/**
 * The geolocation route: the client coordinates to draw on the map. With
 * `?rfv=true` only the clients whose code appears in the RFV table are kept;
 * in either mode a row is kept only when both coordinates parse to numbers
 * within the valid latitude and longitude ranges, and the answer carries
 * only the id, the client code and the two numbers.
 */
module Geoloc {
  import opened Wrappers
  import opened Text
  import opened Seqs
  import opened Numbers
  import opened Db

  /** A coordinate as the database sends it: a JSON number or a string. */
  datatype Cell = NumberCell(number: real) | TextCell(text: string)

  /** `parseFloat(cell)`: a finite number converts to its text and reads back as itself. */
  function ParseCell(c: Cell): JsNumber {
    match c
    case NumberCell(v) => Finite(v)
    case TextCell(s) => ParseFloat(s)
  }

  /** A row of `db_cliente_geoloc`; a client code that is null or not a string is None. */
  datatype GeolocRow = GeolocRow(id: int, idCliente: Option<string>, lat: Cell, lon: Cell)

  /** A point of the answer: `{ id, id_cliente, lat: parseFloat(lat), lon: parseFloat(lon) }`. */
  datatype GeoPoint = GeoPoint(id: int, idCliente: Option<string>, lat: real, lon: real)

  /** `n >= x` for a JavaScript number and a finite bound. */
  predicate AtLeast(n: JsNumber, x: real) {
    match n
    case NaN => false
    case PosInf => true
    case NegInf => false
    case Finite(v) => v >= x
  }

  /** `n <= x` for a JavaScript number and a finite bound. */
  predicate AtMost(n: JsNumber, x: real) {
    match n
    case NaN => false
    case PosInf => false
    case NegInf => true
    case Finite(v) => v <= x
  }

  /** The test on parsed coordinates: not NaN, latitude in [-90, 90], longitude in [-180, 180]. */
  predicate ValidPair(lat: JsNumber, lon: JsNumber) {
    !lat.NaN? && !lon.NaN? && AtLeast(lat, -90.0) && AtMost(lat, 90.0) && AtLeast(lon, -180.0) && AtMost(lon, 180.0)
  }

  /** The coordinate filter of both modes. */
  predicate ValidCoords(row: GeolocRow) {
    ValidPair(ParseCell(row.lat), ParseCell(row.lon))
  }

  /** The test accepts exactly the finite coordinates within the two ranges: infinities are rejected by the range checks. */
  lemma ValidPairMeaning(lat: JsNumber, lon: JsNumber)
    ensures ValidPair(lat, lon) <==>
      lat.Finite? && lon.Finite? && -90.0 <= lat.value <= 90.0 && -180.0 <= lon.value <= 180.0
  {
  }

  /** The point of a row whose coordinates passed the test. */
  function ToPoint(row: GeolocRow): (p: GeoPoint)
    requires ValidCoords(row)
    ensures p.id == row.id && p.idCliente == row.idCliente
    ensures ParseCell(row.lat) == Finite(p.lat) && ParseCell(row.lon) == Finite(p.lon)
    ensures -90.0 <= p.lat <= 90.0 && -180.0 <= p.lon <= 180.0
  {
    GeoPoint(row.id, row.idCliente, ParseCell(row.lat).value, ParseCell(row.lon).value)
  }

  function ToPoints(rows: seq<GeolocRow>): (r: seq<GeoPoint>)
    requires forall i :: 0 <= i < |rows| ==> ValidCoords(rows[i])
    ensures |r| == |rows| && forall i :: 0 <= i < |rows| ==> r[i] == ToPoint(rows[i])
  {
    seq(|rows|, i requires 0 <= i < |rows| => ToPoint(rows[i]))
  }

  /** `rows.filter(valid coordinates).map(to point)`. */
  function ValidPoints(rows: seq<GeolocRow>): seq<GeoPoint> {
    var kept := Filter(rows, ValidCoords);
    ToPoints(kept)
  }

  /** `new Set(codes.filter(c => Boolean(c) && typeof c === 'string'))`. */
  function CodeSet(codes: seq<Option<string>>): (s: set<string>)
    ensures forall c :: c in s <==> c != "" && Some(c) in codes
  {
    var s := set i | 0 <= i < |codes| && Truthy(codes[i]) :: codes[i].value;
    assert forall c :: Some(c) in codes && c != "" ==> c in s by {
      forall c | Some(c) in codes && c != ""
        ensures c in s
      {
        var i :| 0 <= i < |codes| && codes[i] == Some(c);
        assert Truthy(codes[i]);
      }
    }
    s
  }

  /** `codigos.has(item.id_cliente)`: only a string code can match. */
  function InCodes(codes: set<string>): GeolocRow -> bool {
    (row: GeolocRow) => row.idCliente.Some? && row.idCliente.value in codes
  }

  /** The route is in RFV mode only for the exact text `'true'`. */
  predicate RfvMode(rfv: Option<string>) {
    rfv == Some("true")
  }

  /**
   * `GET /geoloc`. In RFV mode the RFV codes are fetched first: an error is
   * 500, no codes is empty data, and otherwise the geolocation rows are
   * restricted to those codes before the coordinate filter.
   */
  function Locate(rfv: Option<string>, codes: Fetch<Option<string>>, geoloc: Fetch<GeolocRow>): (r: Response<seq<GeoPoint>>)
    ensures RfvMode(rfv) && codes.Failed? ==> r == Error(500, codes.message)
    ensures RfvMode(rfv) && codes == Rows([]) ==> r == Ok([])
    ensures !RfvMode(rfv) && geoloc.Rows? ==> r == Ok(ValidPoints(geoloc.rows))
    ensures geoloc.Failed? && !(RfvMode(rfv) && (codes.Failed? || codes == Rows([]))) ==> r == Error(500, geoloc.message)
    ensures r.Ok? ==> forall i :: 0 <= i < |r.data| ==>
      -90.0 <= r.data[i].lat <= 90.0 && -180.0 <= r.data[i].lon <= 180.0
  {
    if RfvMode(rfv) then
      match codes
      case Failed(m) => Error(500, m)
      case Rows(cs) =>
        if cs == [] then Ok([])
        else
          match geoloc
          case Failed(m) => Error(500, m)
          case Rows(rows) =>
            Ok(ValidPoints(Filter(rows, InCodes(CodeSet(cs)))))
    else
      match geoloc
      case Failed(m) => Error(500, m)
      case Rows(rows) => Ok(ValidPoints(rows))
  }

  /** Both of the RFV-mode tests together. */
  function Kept(codes: set<string>): GeolocRow -> bool {
    (row: GeolocRow) => InCodes(codes)(row) && ValidCoords(row)
  }

  /** RFV mode answers the points of exactly the rows with a listed code and valid coordinates, in input order. */
  lemma RfvModeKeepsListedRows(codes: seq<Option<string>>, rows: seq<GeolocRow>)
    requires codes != []
    ensures forall i :: 0 <= i < |Filter(rows, Kept(CodeSet(codes)))| ==> ValidCoords(Filter(rows, Kept(CodeSet(codes)))[i])
    ensures Locate(Some("true"), Rows(codes), Rows(rows)) == Ok(ToPoints(Filter(rows, Kept(CodeSet(codes)))))
  {
    var s := CodeSet(codes);
    FilterFusion(rows, InCodes(s), ValidCoords, Kept(s));
  }

  /** Every point on the RFV-mode map belongs to a client whose code the RFV table lists. */
  lemma RfvModeSound(codes: seq<Option<string>>, rows: seq<GeolocRow>)
    requires codes != []
    ensures Locate(Some("true"), Rows(codes), Rows(rows)).Ok?
    ensures var ps := Locate(Some("true"), Rows(codes), Rows(rows)).data;
      forall i :: 0 <= i < |ps| ==> ps[i].idCliente.Some? && Some(ps[i].idCliente.value) in codes && ps[i].idCliente.value != ""
  {
    var kept := Filter(rows, Kept(CodeSet(codes)));
    RfvModeKeepsListedRows(codes, rows);
    assert forall i :: 0 <= i < |kept| ==> InCodes(CodeSet(codes))(kept[i]);
  }

  /** Every row with a listed code and valid coordinates is on the RFV-mode map. */
  lemma RfvModeComplete(codes: seq<Option<string>>, rows: seq<GeolocRow>, j: nat)
    requires codes != [] && j < |rows|
    requires rows[j].idCliente.Some? && rows[j].idCliente.value != "" && Some(rows[j].idCliente.value) in codes
    requires ValidCoords(rows[j])
    ensures Locate(Some("true"), Rows(codes), Rows(rows)).Ok?
    ensures ToPoint(rows[j]) in Locate(Some("true"), Rows(codes), Rows(rows)).data
  {
    var kept := Filter(rows, Kept(CodeSet(codes)));
    RfvModeKeepsListedRows(codes, rows);
    FilterKeepsPassing(rows, Kept(CodeSet(codes)));
    var i :| 0 <= i < |kept| && kept[i] == rows[j];
    assert ToPoints(kept)[i] == ToPoint(rows[j]);
  }

  /** `p` is the point of some input row with valid coordinates. */
  ghost predicate FromValidRow(rows: seq<GeolocRow>, p: GeoPoint) {
    exists k :: 0 <= k < |rows| && ValidCoords(rows[k]) && p == ToPoint(rows[k])
  }

  /** Every point of `ValidPoints` is the point of a valid input row. */
  lemma ValidPointsSound(rows: seq<GeolocRow>)
    ensures forall i :: 0 <= i < |ValidPoints(rows)| ==> FromValidRow(rows, ValidPoints(rows)[i])
  {
    var kept := Filter(rows, ValidCoords);
    var ps := ToPoints(kept);
    forall i | 0 <= i < |ps|
      ensures FromValidRow(rows, ps[i])
    {
      FilterMember(rows, ValidCoords, kept[i]);
      var k :| 0 <= k < |rows| && rows[k] == kept[i];
      assert ps[i] == ToPoint(rows[k]);
    }
    assert ValidPoints(rows) == ps;
  }

  /** Outside RFV mode every row with valid coordinates is on the map, and nothing else. */
  lemma PlainModeKeepsValidRows(rfv: Option<string>, rows: seq<GeolocRow>, j: nat)
    requires !RfvMode(rfv) && j < |rows|
    ensures Locate(rfv, Rows([]), Rows(rows)).Ok?
    ensures ValidCoords(rows[j]) ==> ToPoint(rows[j]) in Locate(rfv, Rows([]), Rows(rows)).data
    ensures |Locate(rfv, Rows([]), Rows(rows)).data| <= |rows|
    ensures var ps := Locate(rfv, Rows([]), Rows(rows)).data;
      forall i :: 0 <= i < |ps| ==> FromValidRow(rows, ps[i])
  {
    var kept := Filter(rows, ValidCoords);
    assert Locate(rfv, Rows([]), Rows(rows)).data == ValidPoints(rows) == ToPoints(kept);
    FilterKeepsPassing(rows, ValidCoords);
    if ValidCoords(rows[j]) {
      var i :| 0 <= i < |kept| && kept[i] == rows[j];
      assert ToPoints(kept)[i] == ToPoint(rows[j]);
    }
    ValidPointsSound(rows);
  }
}
