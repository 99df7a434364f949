/** The bridge from the application to its embedded map page: the payload
    `_js_update` hands to the page, the choice of coordinates after an
    analysis, and the `_map_ready` flag that gates every update. The page
    itself is not modelled; a payload handed to it is recorded in `sent`. */
module MapBridge {
  import opened Wrappers
  import opened PyText
  import opened Centroids
  import opened Analysis

  /** The placeholder shown for an empty field. */
  const Dash := "—"

  /** The dictionary `_js_update` serialises for the page. */
  datatype Payload = Payload(
    number: string,
    region: string,
    carrier: string,
    desc: string,
    lat: real,
    lon: real,
    tz: string,
    typ: string)

  /** `v or "—"`. */
  function OrDash(v: Option<string>): (r: string)
    ensures r != []
  {
    OptOr(v, Dash)
  }

  /** A field shows the placeholder exactly when the value is missing, empty
      or the placeholder itself; otherwise it shows the value. */
  lemma OrDashShowsValue(v: Option<string>)
    ensures OrDash(v) == Dash <==> v.None? || v.value == [] || v.value == Dash
    ensures OrDash(v) != Dash ==> v == Some(OrDash(v))
  {
  }

  /** The payload of `_js_update`: every text field replaced by "—" when it is
      missing or empty, the coordinates passed through. */
  function MakePayload(
    number: Option<string>, region: Option<string>, carrier: Option<string>,
    desc: Option<string>, lat: real, lon: real, tz: Option<string>, typ: Option<string>): (p: Payload)
    ensures p.lat == lat && p.lon == lon
    ensures p.number != [] && p.region != [] && p.carrier != [] && p.desc != []
      && p.tz != [] && p.typ != []
  {
    Payload(OrDash(number), OrDash(region), OrDash(carrier), OrDash(desc),
            lat, lon, OrDash(tz), OrDash(typ))
  }

  /** The location `get_user_location` stores (country, region and city as
      the geolocation service names them). */
  datatype UserLocation = UserLocation(lat: real, lon: real, country: string, region: string, city: string)

  /** The coordinates the map is centred on after an analysis: the centroid
      if the record has one, else the user's location. `None` stands for the
      `TypeError` Python raises when it has neither. */
  function MapCoordinates(centroid: Option<Coord>, user: Option<UserLocation>): (c: Option<Coord>)
    ensures centroid.Some? ==> c == centroid
    ensures centroid.None? && user.Some? ==> c == Some(Coord(user.value.lat, user.value.lon))
    ensures c.None? <==> centroid.None? && user.None?
  {
    if centroid.Some? then centroid
    else if user.Some? then Some(Coord(user.value.lat, user.value.lon))
    else None
  }

  /** The time-zone field of an analysis: the zones joined by ", ", or
      "No disponible" when there are none. */
  function TimeZoneText(zones: seq<string>): (r: string)
    ensures zones == [] ==> r == NoTimeZones
    ensures |zones| == 1 ==> r == zones[0]
    ensures r == [] <==> zones == [[]]
  {
    if zones == [] then NoTimeZones else Join(", ", zones)
  }

  const NoTimeZones := "No disponible"

  /** The payload sent for an analysed number placed at `at`. */
  function AnalysisPayload(info: PhoneInfo, at: Coord): (p: Payload)
    ensures p.lat == at.lat && p.lon == at.lon
    ensures info.e164.Some? && info.e164.value != [] ==> p.number == info.e164.value
    ensures (info.e164.None? || info.e164.value == []) && info.raw != [] ==> p.number == info.raw
    ensures info.timeZones == [] ==> p.tz == NoTimeZones
    ensures info.timeZones == [[]] ==> p.tz == Dash
  {
    MakePayload(Some(OptOr(info.e164, info.raw)), Some(info.region), Some(info.carrier),
                Some(info.description), at.lat, at.lon, Some(TimeZoneText(info.timeZones)),
                Some(info.numberType))
  }

  /** The payload sent when the page has loaded and the user's location is
      known. */
  function WelcomePayload(u: UserLocation): (p: Payload)
    ensures p.lat == u.lat && p.lon == u.lon
    ensures p.carrier == Dash && p.tz == Dash
    ensures u.country != [] ==> p.region == u.country
    ensures u.country == [] ==> p.region == Dash
    ensures p.desc == "Tu ubicación: " + u.city + ", " + u.region
  {
    MakePayload(Some("Sistema Iniciado"), Some(u.country), Some(Dash),
                Some("Tu ubicación: " + u.city + ", " + u.region), u.lat, u.lon,
                Some(Dash), Some("Ubicación Detectada"))
  }

  /** Every analysed record carries its centroid, and a tuple is never false in
      Python, so the map is centred on the region's centroid and the user's
      location is never used. */
  lemma AnalysisUsesCentroid(raw: string, parse: string -> ParseOutcome, user: Option<UserLocation>)
    requires Strip(raw) != [] && parse(Strip(raw)).Parsed?
    ensures var info := Analyze(raw, parse).value;
      MapCoordinates(info.centroid, user) == Some(CentroidFor(info.region))
  {
  }

  /** The payload for an analysed number: its E.164 form when valid, else the
      stripped input; the region, carrier and description the record holds,
      never replaced by the placeholder because none of them is empty; and the
      region's centroid. */
  lemma AnalysisPayloadFields(raw: string, parse: string -> ParseOutcome)
    requires Strip(raw) != [] && parse(Strip(raw)).Parsed?
    ensures var info := Analyze(raw, parse).value;
      var p := AnalysisPayload(info, CentroidFor(info.region));
      && (!info.valid ==> p.number == Strip(raw))
      && (info.valid && info.e164.value != [] ==> p.number == info.e164.value)
      && p.region == info.region && p.carrier == info.carrier
      && p.desc == info.description && p.typ == info.numberType
      && Coord(p.lat, p.lon) == CentroidFor(info.region)
      && (info.timeZones == [] ==> p.tz == NoTimeZones)
      && (info.timeZones != [] && Join(", ", info.timeZones) != [] ==> p.tz == Join(", ", info.timeZones))
      && (info.timeZones == [[]] ==> p.tz == Dash)
  {
  }

  /** The application's map state. */
  class MapView {
    /** `_map_ready`: whether the page has reported that it loaded. */
    var mapReady: bool
    /** `user_location`, as the geolocation call left it. */
    var userLocation: Option<UserLocation>
    /** Every payload handed to the page, oldest first. */
    var sent: seq<Payload>

    /** `__init__`: the map is not ready and nothing has been sent; the user's
        location is what `get_user_location` produced, given as `located`
        (`None` when that call left it unset). */
    constructor (located: Option<UserLocation>)
      ensures !mapReady && userLocation == located && sent == []
    {
      mapReady := false;
      userLocation := located;
      sent := [];
    }

    /** `_js_update`: hand the payload to the page, or do nothing while the
        page is not ready. */
    method JsUpdate(
      number: Option<string>, region: Option<string>, carrier: Option<string>,
      desc: Option<string>, lat: real, lon: real, tz: Option<string>, typ: Option<string>)
      modifies this`sent
      ensures sent == if mapReady
                      then old(sent) + [MakePayload(number, region, carrier, desc, lat, lon, tz, typ)]
                      else old(sent)
    {
      if !mapReady {
        return;
      }
      var payload := MakePayload(number, region, carrier, desc, lat, lon, tz, typ);
      sent := sent + [payload];
    }

    /** `_on_map_loaded(ok)`: record whether the page loaded and, if it did and
        the user's location is known, centre the map on it. */
    method OnMapLoaded(ok: bool)
      modifies this`mapReady, this`sent
      ensures mapReady == ok
      ensures sent == if ok && userLocation.Some?
                      then old(sent) + [WelcomePayload(userLocation.value)]
                      else old(sent)
    {
      mapReady := ok;
      if ok && userLocation.Some? {
        var u := userLocation.value;
        JsUpdate(Some("Sistema Iniciado"), Some(u.country), Some(Dash),
                 Some("Tu ubicación: " + u.city + ", " + u.region), u.lat, u.lon,
                 Some(Dash), Some("Ubicación Detectada"));
      }
    }

    /** The map update at the end of `on_analyze`. `failed` is the `TypeError`
        raised when the record has no centroid and the user's location is
        unknown; then nothing is sent. */
    method ShowAnalysis(info: PhoneInfo) returns (failed: bool)
      modifies this`sent
      ensures failed <==> info.centroid.None? && userLocation.None?
      ensures sent == if !failed && mapReady
                      then old(sent) + [AnalysisPayload(info, MapCoordinates(info.centroid, userLocation).value)]
                      else old(sent)
    {
      var at := MapCoordinates(info.centroid, userLocation);
      if at.None? {
        return true;
      }
      failed := false;
      JsUpdate(Some(OptOr(info.e164, info.raw)), Some(info.region), Some(info.carrier),
               Some(info.description), at.value.lat, at.value.lon,
               Some(TimeZoneText(info.timeZones)), Some(info.numberType));
    }

    /** `on_analyze`, as far as the map is concerned: an input the analysis
        refuses yields the error text for the terminal and leaves the map
        alone; an analysed number is shown at its region's centroid. */
    method OnAnalyze(raw: string, parse: string -> ParseOutcome) returns (error: Option<string>)
      modifies this`sent
      ensures error.Some? <==> Analyze(raw, parse).Failure?
      ensures error.Some? ==> error.value == ErrorMessage(Analyze(raw, parse).error) && sent == old(sent)
      ensures error.None? ==>
                var info := Analyze(raw, parse).value;
                sent == if mapReady
                        then old(sent) + [AnalysisPayload(info, CentroidFor(info.region))]
                        else old(sent)
    {
      var result := Analyze(raw, parse);
      if result.Failure? {
        return Some(ErrorMessage(result.error));
      }
      error := None;
      var failed := ShowAnalysis(result.value);
    }
  }
}
