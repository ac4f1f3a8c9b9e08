/** The decisions the analyzer makes around its data providers: which WAQI reply
    it accepts and in which order it asks, how it reads a NASA FIRMS fire list,
    and the estimates it uses where no provider is asked (NDVI by latitude, green
    space, noise and healthcare access). Every network reply and every random
    draw is a parameter. */
module Providers {
  import opened Wrappers
  import Text

  // ---------------------------------------------------------------------------
  // WAQI air quality

  /** A JSON value, as far as the WAQI checks tell values apart. */
  datatype JsonValue = JNumber(n: real) | JBool(b: bool) | JString(s: string) | JNull | JCompound

  /** One pollutant entry of the `iaqi` object: an object whose `v` member may be
      missing, or something that is not an object. */
  datatype PollutantEntry = EntryObject(v: Option<real>) | EntryNotObject

  /** The `iaqi` member of the `data` object. */
  datatype Iaqi = IaqiAbsent | IaqiObject(entries: map<string, PollutantEntry>) | IaqiNotObject

  /** The `data` member of a WAQI reply. */
  datatype WaqiData = DataObject(aqi: Option<JsonValue>, iaqi: Iaqi) | DataNotObject

  /** The decoded body of a WAQI reply; `NotJsonObject` covers a body that does
      not decode, or decodes to something other than an object. */
  datatype WaqiBody = NotJsonObject | JsonObject(status: Option<JsonValue>, data: Option<WaqiData>)

  /** What one WAQI request produced. */
  datatype WaqiReply = WaqiUnreachable | WaqiHttp(code: int, body: WaqiBody)

  /** An accepted air quality reading. */
  datatype AirData = AirData(aqi: real, pm25: Option<real>, pm10: Option<real>, no2: Option<real>,
                             o3: Option<real>, co: Option<real>, source: string)

  const ByNameSource: string := "WAQI API"
  const ByCoordsSource: string := "WAQI API (coords)"

  /** `isinstance(aqi, (int, float)) and aqi > 0` on `data.get('aqi', 0)`: a
      missing value reads as 0; a boolean is an `int` (`True` is 1). */
  function PositiveAqi(aqi: Option<JsonValue>): (r: Option<real>)
    ensures r.Some? ==> r.value > 0.0
    ensures r.Some? <==> aqi.Some? && ((aqi.value.JNumber? && aqi.value.n > 0.0) || aqi.value == JBool(true))
    ensures aqi.Some? && aqi.value.JNumber? && aqi.value.n > 0.0 ==> r == Some(aqi.value.n)
    ensures aqi == Some(JBool(true)) ==> r == Some(1.0)
  {
    match aqi
    case Some(JNumber(n)) => if n > 0.0 then Some(n) else None
    case Some(JBool(b)) => if b then Some(1.0) else None
    case _ => None
  }

  /** `iaqi.get(key, {}).get('v', None)` evaluates without raising. */
  predicate PollutantReadable(iaqi: Iaqi, key: string) {
    match iaqi
    case IaqiAbsent => true
    case IaqiObject(entries) => key !in entries || entries[key].EntryObject?
    case IaqiNotObject => false
  }

  /** The value `iaqi.get(key, {}).get('v', None)`. */
  function Pollutant(iaqi: Iaqi, key: string): Option<real>
    requires PollutantReadable(iaqi, key)
  {
    match iaqi
    case IaqiAbsent => None
    case IaqiObject(entries) => if key in entries then entries[key].v else None
  }

  /** The five lookups of `pm25`, `pm10`, `no2`, `o3` and `co` all evaluate. */
  predicate AllPollutantsReadable(iaqi: Iaqi) {
    && PollutantReadable(iaqi, "pm25") && PollutantReadable(iaqi, "pm10") && PollutantReadable(iaqi, "no2")
    && PollutantReadable(iaqi, "o3") && PollutantReadable(iaqi, "co")
  }

  /** One WAQI attempt: the reply is used only for HTTP 200 with `status` equal
      to `'ok'`, a `data` object and a positive numeric `aqi`; any lookup that
      would raise (missing `status`, a `data` or `iaqi` that is not an object)
      makes the attempt fail like a network error. */
  function AcceptWaqi(reply: WaqiReply, source: string): (r: Option<AirData>)
    ensures r.Some? ==> r.value.aqi > 0.0 && r.value.source == source
    ensures r.Some? ==> reply.WaqiHttp? && reply.code == 200 && reply.body.JsonObject?
                        && reply.body.status == Some(JString("ok"))
                        && reply.body.data.Some? && reply.body.data.value.DataObject?
                        && PositiveAqi(reply.body.data.value.aqi) == Some(r.value.aqi)
                        && AllPollutantsReadable(reply.body.data.value.iaqi)
    ensures r.Some? ==> var iaqi := reply.body.data.value.iaqi;
                        && r.value.pm25 == Pollutant(iaqi, "pm25") && r.value.pm10 == Pollutant(iaqi, "pm10")
                        && r.value.no2 == Pollutant(iaqi, "no2") && r.value.o3 == Pollutant(iaqi, "o3")
                        && r.value.co == Pollutant(iaqi, "co")
    ensures reply.WaqiHttp? && reply.code == 200 && reply.body.JsonObject?
            && reply.body.status == Some(JString("ok")) && reply.body.data.Some?
            && reply.body.data.value.DataObject?
            && PositiveAqi(reply.body.data.value.aqi).Some?
            && AllPollutantsReadable(reply.body.data.value.iaqi)
            ==> r.Some?
  {
    if reply.WaqiHttp? && reply.code == 200 && reply.body.JsonObject?
       && reply.body.status == Some(JString("ok")) && reply.body.data.Some?
    then
      match reply.body.data.value
      case DataNotObject => None
      case DataObject(aqi, iaqi) =>
        match PositiveAqi(aqi)
        case None => None
        case Some(value) =>
          if AllPollutantsReadable(iaqi) then
            Some(AirData(value, Pollutant(iaqi, "pm25"), Pollutant(iaqi, "pm10"), Pollutant(iaqi, "no2"),
                         Pollutant(iaqi, "o3"), Pollutant(iaqi, "co"), source))
          else None
    else None
  }

  /** `get_real_air_quality_data`: the by-name reply first, the by-coordinates
      reply only when the first is rejected, `None` when both are. */
  function AirQualityData(byName: WaqiReply, byCoords: WaqiReply): (r: Option<AirData>)
    ensures r.None? <==> AcceptWaqi(byName, ByNameSource).None? && AcceptWaqi(byCoords, ByCoordsSource).None?
    ensures AcceptWaqi(byName, ByNameSource).Some? ==> r == AcceptWaqi(byName, ByNameSource)
    ensures AcceptWaqi(byName, ByNameSource).None? ==> r == AcceptWaqi(byCoords, ByCoordsSource)
    ensures r.Some? ==> r.value.aqi > 0.0
    ensures r.Some? ==> r.value.source == ByNameSource || r.value.source == ByCoordsSource
  {
    match AcceptWaqi(byName, ByNameSource)
    case Some(data) => Some(data)
    case None => AcceptWaqi(byCoords, ByCoordsSource)
  }

  /** When the by-name reply is accepted, the coordinate reply is never looked at. */
  lemma ByNameWins(byName: WaqiReply, byCoords1: WaqiReply, byCoords2: WaqiReply)
    requires AcceptWaqi(byName, ByNameSource).Some?
    ensures AirQualityData(byName, byCoords1) == AirQualityData(byName, byCoords2)
    ensures AirQualityData(byName, byCoords1).value.source == ByNameSource
  {
  }

  /** A reply whose status is anything but `'ok'` is never accepted, whatever
      its AQI. */
  lemma NotOkRejected(code: int, status: Option<JsonValue>, data: Option<WaqiData>, source: string)
    requires status != Some(JString("ok"))
    ensures AcceptWaqi(WaqiHttp(code, JsonObject(status, data)), source).None?
  {
  }

  // ---------------------------------------------------------------------------
  // Weather

  /** The three values of an OpenWeatherMap reply that the analyzer uses. */
  datatype WeatherReading = WeatherReading(temperature: real, humidity: real, windSpeed: real)

  // ---------------------------------------------------------------------------
  // NASA FIRMS fires

  /** The fire-risk classes and their labels. */
  datatype FireRisk = Bajo | Moderado | Alto | MuyAlto {
    function Label(): string {
      match this
      case Bajo => "Bajo"
      case Moderado => "Moderado"
      case Alto => "Alto"
      case MuyAlto => "Muy Alto"
    }

    function Level(): nat {
      match this
      case Bajo => 0
      case Moderado => 1
      case Alto => 2
      case MuyAlto => 3
    }
  }

  /** The risk ladder over the number of detected fires. */
  function FireRiskOf(count: nat): (risk: FireRisk)
    ensures risk == Bajo <==> count == 0
    ensures risk == Moderado <==> 1 <= count <= 5
    ensures risk == Alto <==> 6 <= count <= 15
    ensures risk == MuyAlto <==> count > 15
  {
    if count == 0 then Bajo
    else if count <= 5 then Moderado
    else if count <= 15 then Alto
    else MuyAlto
  }

  /** More fires never lower the risk. */
  lemma FireRiskMonotone(c1: nat, c2: nat)
    requires c1 <= c2
    ensures FireRiskOf(c1).Level() <= FireRiskOf(c2).Level()
  {
  }

  /** What one FIRMS request produced: the CSV body of an HTTP reply. */
  datatype FirmsReply = FirmsUnreachable | FirmsHttp(code: int, body: string)

  /** The fire count and risk of a FIRMS report. */
  datatype FireReport = FireReport(firesDetected: nat, risk: FireRisk)

  /** `get_nasa_firms_fires`: the body is stripped and split into lines; the first
      line is the CSV header and every other line is one fire. A body with at
      most one line reports no fires and risk `Bajo`; anything but HTTP 200 gives
      no report. */
  function NasaFirmsFires(reply: FirmsReply): (r: Option<FireReport>)
    ensures r.Some? <==> reply.FirmsHttp? && reply.code == 200
    ensures r.Some? ==> r.value.risk == FireRiskOf(r.value.firesDetected)
  {
    if reply.FirmsHttp? && reply.code == 200 then
      var lines := Text.Split(Text.Strip(reply.body), '\n');
      if |lines| <= 1 then Some(FireReport(0, Bajo))
      else
        var count := |lines| - 1;
        Some(FireReport(count, FireRiskOf(count)))
    else None
  }

  /** The fire count is the number of line breaks left inside the stripped body,
      i.e. the number of lines after the header. */
  lemma FiresAreLinesAfterHeader(body: string)
    ensures NasaFirmsFires(FirmsHttp(200, body)).Some?
    ensures NasaFirmsFires(FirmsHttp(200, body)).value.firesDetected == Text.CountChar(Text.Strip(body), '\n')
  {
    Text.SplitCount(Text.Strip(body), '\n');
  }

  /** An empty or whitespace-only body is a report of no fires at risk `Bajo`. */
  lemma BlankBodyNoFires(body: string)
    requires forall i :: 0 <= i < |body| ==> Text.IsSpace(body[i])
    ensures NasaFirmsFires(FirmsHttp(200, body)) == Some(FireReport(0, Bajo))
  {
    Text.StripEmptyIffAllSpace(body);
  }

  // ---------------------------------------------------------------------------
  // Estimates

  function Min(a: real, b: real): real { if b < a then b else a }
  function Max(a: real, b: real): real { if b > a then b else a }

  /** `get_nasa_ndvi`: a typical NDVI by latitude band (tropical south, centre,
      arid north). */
  function NdviEstimate(lat: real): (ndvi: real)
    ensures ndvi == 0.7 <==> lat < 20.0
    ensures ndvi == 0.5 <==> 20.0 <= lat < 24.0
    ensures ndvi == 0.3 <==> lat >= 24.0
  {
    if lat < 20.0 then 0.7
    else if lat < 24.0 then 0.5
    else 0.3
  }

  /** Further north never gets a greener estimate. */
  lemma NdviNonIncreasing(lat1: real, lat2: real)
    requires lat1 <= lat2
    ensures NdviEstimate(lat2) <= NdviEstimate(lat1)
  {
  }

  /** The estimated green-space ratio: 0.5 less 0.3 per ten million inhabitants,
      kept within [0.2, 0.7]. */
  function GreenRatioEstimate(poblacion: int): (ratio: real)
    ensures 0.2 <= ratio <= 0.7
    ensures var raw := 0.5 - (poblacion as real / 10000000.0) * 0.3;
            0.2 <= raw <= 0.7 ==> ratio == raw
  {
    Max(0.2, Min(0.7, 0.5 - (poblacion as real / 10000000.0) * 0.3))
  }

  /** A larger population never gets a larger green-space estimate. */
  lemma GreenRatioNonIncreasing(p1: int, p2: int)
    requires p1 <= p2
    ensures GreenRatioEstimate(p2) <= GreenRatioEstimate(p1)
  {
  }

  /** The estimated noise level: 45 dB plus 1 dB per 100 inhabitants per km2
      plus a random jitter, kept within [40, 85] dB. */
  function NoiseEstimate(density: real, jitter: real): (db: real)
    ensures 40.0 <= db <= 85.0
    ensures var raw := 45.0 + density / 100.0 + jitter;
            40.0 <= raw <= 85.0 ==> db == raw
  {
    Min(85.0, Max(40.0, 45.0 + density / 100.0 + jitter))
  }

  /** With the same jitter, a denser city is never quieter. */
  lemma NoiseNonDecreasing(d1: real, d2: real, jitter: real)
    requires d1 <= d2
    ensures NoiseEstimate(d1, jitter) <= NoiseEstimate(d2, jitter)
  {
  }

  /** The estimated healthcare access: 3 plus 0.8 per million inhabitants, kept
      within [2, 10]. */
  function HealthcareEstimate(poblacion: int): (access: real)
    ensures 2.0 <= access <= 10.0
    ensures var raw := 3.0 + (poblacion as real / 1000000.0) * 0.8;
            2.0 <= raw <= 10.0 ==> access == raw
  {
    Max(2.0, Min(10.0, 3.0 + (poblacion as real / 1000000.0) * 0.8))
  }

  /** A larger population never gets worse healthcare access. */
  lemma HealthcareNonDecreasing(p1: int, p2: int)
    requires p1 <= p2
    ensures HealthcareEstimate(p1) <= HealthcareEstimate(p2)
  {
  }
}
