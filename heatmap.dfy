/**
 * The customer map page: the heat points and the initial centre computed
 * from the served coordinates, and, in RFV mode, the click handler that
 * finds the clients within 500 m of the click, looks up their RFV records
 * and shows them in a tooltip, collapsed into one summary record when there
 * are more than five. The great-circle distance and the lookup request are
 * given as functions.
 */
module Heatmap {
  import opened Wrappers
  import opened Text
  import opened Seqs
  import opened Numbers
  import opened Sorting
  import opened Geoloc

  /** The RFV record of a client as the tooltip receives it; `fatTotal` may be null. */
  datatype RfvData = RfvData(
    codigo: string,
    nomeEmpresa: string,
    vendedor: Option<string>,
    fatTotal: Option<real>,
    ticketMedio: real,
    recencia: real,
    frequencia: real,
    valor: real,
    status: Option<string>,
    classificacao: Option<string>,
    descricao: Option<string>)

  /** The screen position of the click. */
  datatype Position = Position(x: real, y: real)

  /** The tooltip state: the clients shown and where. */
  datatype Tooltip = Tooltip(clients: seq<RfvData>, position: Position)

  /** `MAX_CLIENTS_TO_SHOW`. */
  const MaxClientsToShow: nat := 5

  /** `RADIUS_KM`. */
  const RadiusKm: real := 0.5

  /** The served points within the radius of the click, in the served order. */
  function Nearby(points: seq<GeoPoint>, lat: real, lng: real, distance: (real, real, real, real) -> real): seq<GeoPoint> {
    Filter(points, (p: GeoPoint) => distance(lat, lng, p.lat, p.lon) <= RadiusKm)
  }

  /** `nearbyClients.map(c => c.id_cliente).filter(Boolean)`. */
  function Codes(points: seq<GeoPoint>): (codes: seq<string>)
    ensures |codes| <= |points|
  {
    if points == [] then []
    else
      var last := points[|points| - 1];
      Codes(points[..|points| - 1]) + (if Truthy(last.idCliente) then [last.idCliente.value] else [])
  }

  /** The codes are exactly the non-empty client codes of the points. */
  lemma {:induction false} CodesMembership(points: seq<GeoPoint>, c: string)
    ensures c in Codes(points) <==> c != "" && exists i :: 0 <= i < |points| && points[i].idCliente == Some(c)
  {
    if points != [] {
      var init := points[..|points| - 1];
      CodesMembership(init, c);
      if exists i :: 0 <= i < |points| && points[i].idCliente == Some(c) {
        var i :| 0 <= i < |points| && points[i].idCliente == Some(c);
        if i < |init| {
          assert init[i] == points[i];
        }
      }
      if exists i :: 0 <= i < |init| && init[i].idCliente == Some(c) {
        var i :| 0 <= i < |init| && init[i].idCliente == Some(c);
        assert points[i] == init[i];
      }
    }
  }

  /** `rfvData.reduce((sum, c) => sum + (c.fat_total || 0), 0)`. */
  function FatTotal(clients: seq<RfvData>): real {
    if clients == [] then 0.0
    else FatTotal(clients[..|clients| - 1]) + clients[|clients| - 1].fatTotal.GetOr(0.0)
  }

  /** The total counts a null amount as 0, so it is never negative when no amount is. */
  lemma {:induction false} FatTotalNonNegative(clients: seq<RfvData>)
    requires forall i :: 0 <= i < |clients| ==> clients[i].fatTotal.GetOr(0.0) >= 0.0
    ensures FatTotal(clients) >= 0.0
  {
    if clients != [] {
      FatTotalNonNegative(clients[..|clients| - 1]);
    }
  }

  /**
   * The one record that stands for a crowd of clients: no code, a name that
   * gives the head count, the crowd's total amount, and every other figure
   * zero or null.
   */
  function Summary(clients: seq<RfvData>): (r: RfvData)
    ensures r.codigo == "" && r.nomeEmpresa == IntToString(|clients|) + " clientes nesta área"
    ensures r.fatTotal == Some(FatTotal(clients))
    ensures r.ticketMedio == 0.0 && r.recencia == 0.0 && r.frequencia == 0.0 && r.valor == 0.0
    ensures r.vendedor.None? && r.status.None? && r.classificacao.None? && r.descricao.None?
  {
    RfvData("", IntToString(|clients|) + " clientes nesta área", None, Some(FatTotal(clients)),
            0.0, 0.0, 0.0, 0.0, None, None, None)
  }

  /** What the tooltip receives for the lookup's records: more than five collapse into the summary. */
  function Collapse(clients: seq<RfvData>): (shown: seq<RfvData>)
    ensures |clients| > MaxClientsToShow ==> shown == [Summary(clients)]
    ensures |clients| <= MaxClientsToShow ==> shown == clients
    ensures |shown| <= MaxClientsToShow
  {
    if |clients| > MaxClientsToShow then [Summary(clients)] else clients
  }

  /**
   * The map click in RFV mode. `lookup` stands for `getRFVByCodigos`: None
   * when it reports an error, returns no data, or throws.
   */
  function Click(points: seq<GeoPoint>, lat: real, lng: real, position: Position,
                 distance: (real, real, real, real) -> real, lookup: seq<string> -> Option<seq<RfvData>>): (r: Option<Tooltip>)
    ensures r.Some? ==> r.value.position == position && |r.value.clients| <= MaxClientsToShow
  {
    var nearby := Nearby(points, lat, lng, distance);
    if |nearby| == 0 then None
    else
      var codes := Codes(nearby);
      if |codes| == 0 then None
      else
        match lookup(codes)
        case None => None
        case Some(rfvData) => Some(Tooltip(Collapse(rfvData), position))
  }

  /**
   * The tooltip is cleared exactly when no point is near, none of the near
   * points has a client code, or the lookup fails; otherwise it holds the
   * lookup's records for the codes of the near clients.
   */
  lemma ClickOutcome(points: seq<GeoPoint>, lat: real, lng: real, position: Position,
                     distance: (real, real, real, real) -> real, lookup: seq<string> -> Option<seq<RfvData>>)
    ensures var nearby := Nearby(points, lat, lng, distance);
      var r := Click(points, lat, lng, position, distance, lookup);
      (r.None? <==> ((forall i :: 0 <= i < |points| ==> distance(lat, lng, points[i].lat, points[i].lon) > RadiusKm) ||
                     Codes(nearby) == [] || lookup(Codes(nearby)).None?)) &&
      (r.Some? ==> r.value.clients == Collapse(lookup(Codes(nearby)).value))
  {
    var p := (p: GeoPoint) => distance(lat, lng, p.lat, p.lon) <= RadiusKm;
    var nearby := Nearby(points, lat, lng, distance);
    if forall i :: 0 <= i < |points| ==> distance(lat, lng, points[i].lat, points[i].lon) > RadiusKm {
      NoneKept(points, p);
    } else {
      var i :| 0 <= i < |points| && distance(lat, lng, points[i].lat, points[i].lon) <= RadiusKm;
      FilterMember(points, p, points[i]);
    }
  }

  /** Every code looked up belongs to a client within the radius of the click. */
  lemma LookedUpCodesAreNear(points: seq<GeoPoint>, lat: real, lng: real, distance: (real, real, real, real) -> real, c: string)
    requires c in Codes(Nearby(points, lat, lng, distance))
    ensures c != ""
    ensures exists p :: p in points && p.idCliente == Some(c) && distance(lat, lng, p.lat, p.lon) <= RadiusKm
  {
    var nearby := Nearby(points, lat, lng, distance);
    CodesMembership(nearby, c);
    var i :| 0 <= i < |nearby| && nearby[i].idCliente == Some(c);
    FilterMember(points, (p: GeoPoint) => distance(lat, lng, p.lat, p.lon) <= RadiusKm, nearby[i]);
  }

  /** The tooltip's test for the summary: a single record whose codigo is empty. */
  predicate IsSummary(clients: seq<RfvData>) {
    |clients| == 1 && clients[0].codigo == ""
  }

  /**
   * The tooltip shows the summary for every collapsed crowd; with five or
   * fewer records it shows them one by one, unless the only record has an
   * empty codigo.
   */
  lemma SummaryDetection(clients: seq<RfvData>)
    ensures IsSummary(Collapse(clients)) <==> |clients| > MaxClientsToShow || IsSummary(clients)
    ensures |clients| > MaxClientsToShow ==>
      Collapse(clients)[0].nomeEmpresa == IntToString(|clients|) + " clientes nesta área"
  {
  }

  /** `getMapCenter`: the mean of the served coordinates, or the centre of Brazil when there are none. */
  function MapCenter(points: seq<GeoPoint>): (real, real) {
    if |points| == 0 then (-14.235, -51.9253)
    else (Sum(Lats(points)) / |points| as real, Sum(Lons(points)) / |points| as real)
  }

  function Lats(points: seq<GeoPoint>): (lats: seq<real>)
    ensures |lats| == |points| && forall i :: 0 <= i < |points| ==> lats[i] == points[i].lat
  {
    seq(|points|, i requires 0 <= i < |points| => points[i].lat)
  }

  function Lons(points: seq<GeoPoint>): (lons: seq<real>)
    ensures |lons| == |points| && forall i :: 0 <= i < |points| ==> lons[i] == points[i].lon
  {
    seq(|points|, i requires 0 <= i < |points| => points[i].lon)
  }

  /** The coordinates the server serves: latitude in [-90, 90], longitude in [-180, 180]. */
  predicate OnMap(lat: real, lon: real) {
    -90.0 <= lat <= 90.0 && -180.0 <= lon <= 180.0
  }

  /** The centre lies within the box of the points, so it is on the map whenever the points are. */
  lemma CenterWithinPoints(points: seq<GeoPoint>, latLo: real, latHi: real, lonLo: real, lonHi: real)
    requires |points| > 0
    requires forall i :: 0 <= i < |points| ==> latLo <= points[i].lat <= latHi && lonLo <= points[i].lon <= lonHi
    ensures latLo <= MapCenter(points).0 <= latHi && lonLo <= MapCenter(points).1 <= lonHi
  {
    MeanWithin(Lats(points), latLo, latHi);
    MeanWithin(Lons(points), lonLo, lonHi);
  }

  lemma CenterOnMap(points: seq<GeoPoint>)
    requires forall i :: 0 <= i < |points| ==> OnMap(points[i].lat, points[i].lon)
    ensures OnMap(MapCenter(points).0, MapCenter(points).1)
  {
    if |points| > 0 {
      CenterWithinPoints(points, -90.0, 90.0, -180.0, 180.0);
    }
  }

  /** `heatmapData`: one `[lat, lon, 2.0]` point per served row, in the served order. */
  function HeatPoints(points: seq<GeoPoint>): (heat: seq<(real, real, real)>)
    ensures |heat| == |points|
    ensures forall i :: 0 <= i < |points| ==> heat[i] == (points[i].lat, points[i].lon, 2.0)
  {
    seq(|points|, i requires 0 <= i < |points| => (points[i].lat, points[i].lon, 2.0))
  }
}
