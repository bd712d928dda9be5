/**
 * POST /api/suggest-crops of server/server.js: the coordinate checks, the
 * region and season classification, the table lookup, and the route as a
 * whole behind authenticateToken.
 */
module SuggestCrops {
  import opened Wrappers
  import opened CropData
  import opened BearerAuth

  /** The answers of the route handler. */
  datatype SuggestReply =
    | MissingCoordinates                                   // 400
    | Undetermined                                         // 404: region or season is Unknown
    | LookupFailed                                         // 500: the table read would throw
    | Suggestions(region: string, season: Season, crops: seq<string>)  // 200
  {
    function Status(): int {
      match this
      case MissingCoordinates => 400
      case Undetermined => 404
      case LookupFailed => 500
      case Suggestions(_, _, _) => 200
    }
  }

  /** JavaScript truthiness of a JSON number field: absent, null and 0 are falsy. */
  function Falsy(x: Option<real>): (falsy: bool)
    ensures !falsy <==> exists v :: x == Some(v) && v != 0.0
  {
    x.None? || x.value == 0.0
  }

  /**
   * The handler after authentication, for the month the server clock reads.
   * Missing or zero coordinates give 400, an unknown region or season 404,
   * otherwise the region's crop list for the season.
   */
  function Suggest(lat: Option<real>, lon: Option<real>, month: int): (r: SuggestReply)
    ensures r.MissingCoordinates? <==> Falsy(lat) || Falsy(lon)
    ensures r.Undetermined? <==>
      !Falsy(lat) && !Falsy(lon) && GetRegion(lat.value, lon.value) == UnknownRegion
    ensures !r.LookupFailed?
    ensures r.Suggestions? ==>
      && r.region == GetRegion(lat.value, lon.value) && r.region != UnknownRegion
      && r.season == GetSeason(month)
      && Lookup(r.region, r.season) == Some(r.crops) && |r.crops| > 0
  {
    if Falsy(lat) || Falsy(lon) then MissingCoordinates
    else
      var season := GetSeason(month);
      var region := GetRegion(lat.value, lon.value);
      if region == UnknownRegion || season == Unknown then Undetermined
      else
        LookupTotal(lat.value, lon.value, season);
        match Lookup(region, season)
        case Some(crops) => Suggestions(region, season, crops)
        case None => LookupFailed
  }

  /** The whole route: the answer and its HTTP status. */
  datatype RouteReply = Denied(auth: AuthOutcome) | Handled(reply: SuggestReply) {
    function Status(): int {
      match this
      case Denied(auth) => auth.Status()
      case Handled(reply) => reply.Status()
    }
  }

  /** authenticateToken first; the handler runs only when it lets the request through. */
  function SuggestRoute(header: Option<string>, decode: string -> Option<Token>, nowMs: int,
                        lat: Option<real>, lon: Option<real>, month: int): (r: RouteReply)
    ensures r.Status() == 401 <==> BearerToken(header).None?
    ensures r.Handled? <==> Authenticate(header, decode, nowMs).Proceed?
    ensures r.Handled? ==> r.reply == Suggest(lat, lon, month)
    ensures r.Status() in {200, 400, 401, 403, 404}
  {
    var auth := Authenticate(header, decode, nowMs);
    if auth.Proceed? then Handled(Suggest(lat, lon, month)) else Denied(auth)
  }

  // ---------------------------------------------------------------- properties

  /** A coordinate of exactly 0 counts as missing, whatever the other one is. */
  lemma ZeroCoordinateRejected(lat: Option<real>, lon: Option<real>, month: int)
    requires lat == Some(0.0) || lon == Some(0.0)
    ensures Suggest(lat, lon, month).Status() == 400
  {
  }

  /** (26, 80) in July: the Indo-Gangetic Plain's Kharif list. */
  lemma IndoGangeticInJuly()
    ensures Suggest(Some(26.0), Some(80.0), 7)
      == Suggestions("Indo-Gangetic Plain", Kharif, ["Rice (Paddy)", "Maize", "Sugarcane", "Soybean", "Cotton"])
  {
  }

  /** A non-zero point outside both boxes, such as (22, 80), is answered 404. */
  lemma OutsideBoxesNotFound(lon: real, month: int)
    requires lon != 0.0
    ensures Suggest(Some(22.0), Some(lon), month).Status() == 404
  {
  }
}
