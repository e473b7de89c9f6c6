/**
  The WattTime data source: it resolves a location to a balancing authority, asks the
  WattTime client for emission data points, converts each point's marginal emissions rate
  from pounds per megawatt-hour to grams per kilowatt-hour, and for forecasts infers each
  sample's duration from the gap to the next sample.

  The collaborators (the location source and the WattTime client) are functions that may
  fail; their failures are `Err` values and pass through unchanged.
*/
module WattTime {
  import opened Outcomes

  /** An instant, in ticks of 100 ns on the UTC time line; `DateTimeOffset` compares and subtracts by it. */
  type Time = int

  /** A `TimeSpan`, in ticks. */
  type Duration = int

  const TicksPerMinute: int := 600_000_000

  /** The conversion factors the data source's contract is stated with. */
  const GramsToPounds: real := 0.00220462262185
  const KwhToMwh: real := 0.001

  /** Pounds per megawatt-hour to grams per kilowatt-hour. */
  function ConvertMoerToGramsPerKilowattHour(moer: real): (grams: real)
    ensures moer >= 0.0 ==> grams >= 0.0
    ensures grams * GramsToPounds / KwhToMwh == moer
  {
    moer / 0.00220462262185 * 0.001
  }

  datatype LocationType = Geoposition | CloudProvider

  /** A caller's location; latitude and longitude are filled in by the location source. */
  datatype Location = Location(regionName: string, locationType: LocationType, latitude: Option<real>, longitude: Option<real>)

  datatype BalancingAuthority = BalancingAuthority(abbreviation: string)

  /** One WattTime sample: its balancing authority, its time, and its value in lbs/MWh. */
  datatype GridEmissionDataPoint = GridEmissionDataPoint(balancingAuthorityAbbreviation: string, pointTime: Time, value: real)

  /** WattTime's current forecast. */
  datatype Forecast = Forecast(generatedAt: Time, forecastData: seq<GridEmissionDataPoint>)

  /** A caller-facing record: region, time, rating in g/kWh and, for forecasts, the sample's duration. */
  datatype EmissionsData = EmissionsData(location: string, time: Time, rating: real, duration: Duration)

  /** A caller-facing forecast; `location` is the caller's own location. */
  datatype EmissionsForecast = EmissionsForecast(generatedAt: Time, location: Location, forecastData: seq<EmissionsData>)

  datatype Error =
    | LocationConversionException(message: string)
    | WattTimeClientException(message: string)

  /** The location source and the WattTime client, as the data source sees them. */
  datatype Collaborators = Collaborators(
    toGeopositionLocation: Location -> Result<Location, Error>,
    getBalancingAuthority: (Option<real>, Option<real>) -> Result<BalancingAuthority, Error>,
    getData: (BalancingAuthority, Time, Time) -> Result<seq<GridEmissionDataPoint>, Error>,
    getCurrentForecast: BalancingAuthority -> Result<Forecast, Error>)

  /** The message of the too-few-points exception; the wording is this model's own, only the exception's kind is fixed. */
  const TooFewDataPoints: string := "Too few data points returned"

  /**
    The balancing authority covering a location: geoposition it, then look up its coordinates.
    A geopositioning failure is the result unchanged, and the lookup is made only with the
    geopositioned coordinates, never the caller's.
  */
  function GetBalancingAuthority(c: Collaborators, location: Location): (r: Result<BalancingAuthority, Error>)
    ensures c.toGeopositionLocation(location).Err? ==> r == Err(c.toGeopositionLocation(location).error)
    ensures c.toGeopositionLocation(location).Ok? ==>
      var geo := c.toGeopositionLocation(location).value;
      r == c.getBalancingAuthority(geo.latitude, geo.longitude)
  {
    var geo :- c.toGeopositionLocation(location);
    c.getBalancingAuthority(geo.latitude, geo.longitude)
  }

  /** The historical records of one window: one per data point, in provider order. */
  function ToEmissionsData(points: seq<GridEmissionDataPoint>): (records: seq<EmissionsData>)
    ensures |records| == |points|
    ensures forall i :: 0 <= i < |points| ==>
      && records[i].location == points[i].balancingAuthorityAbbreviation
      && records[i].time == points[i].pointTime
      && records[i].rating == ConvertMoerToGramsPerKilowattHour(points[i].value)
      && records[i].duration == 0
  {
    if points == [] then []
    else
      var p := points[0];
      [EmissionsData(p.balancingAuthorityAbbreviation, p.pointTime, ConvertMoerToGramsPerKilowattHour(p.value), 0)]
        + ToEmissionsData(points[1..])
  }

  /**
    The records of one location over a window: the converted data points of its balancing
    authority for that window, or the first error met, unchanged.
  */
  function GetCarbonIntensityForLocation(c: Collaborators, location: Location, periodStartTime: Time, periodEndTime: Time)
    : (r: Result<seq<EmissionsData>, Error>)
    ensures GetBalancingAuthority(c, location).Err? ==> r == Err(GetBalancingAuthority(c, location).error)
    ensures GetBalancingAuthority(c, location).Ok? ==>
      var data := c.getData(GetBalancingAuthority(c, location).value, periodStartTime, periodEndTime);
      && (r.Ok? <==> data.Ok?)
      && (data.Err? ==> r == Err(data.error))
      && (data.Ok? ==> r == Ok(ToEmissionsData(data.value)))
  {
    var balancingAuthority :- GetBalancingAuthority(c, location);
    var data :- c.getData(balancingAuthority, periodStartTime, periodEndTime);
    Ok(ToEmissionsData(data))
  }

  /**
    The records of every location over a window, location by location in input order.
    The call succeeds exactly when every location does; otherwise it fails with the error
    of the first location that fails, unchanged.
  */
  function GetCarbonIntensity(c: Collaborators, locations: seq<Location>, periodStartTime: Time, periodEndTime: Time)
    : (r: Result<seq<EmissionsData>, Error>)
    ensures r.Ok? <==> forall j :: 0 <= j < |locations| ==>
      GetCarbonIntensityForLocation(c, locations[j], periodStartTime, periodEndTime).Ok?
    ensures r.Err? ==> exists j :: (
      && 0 <= j < |locations|
      && GetCarbonIntensityForLocation(c, locations[j], periodStartTime, periodEndTime) == Err(r.error)
      && forall i :: 0 <= i < j ==> GetCarbonIntensityForLocation(c, locations[i], periodStartTime, periodEndTime).Ok?)
  {
    if locations == [] then Ok([])
    else
      var first := GetCarbonIntensityForLocation(c, locations[0], periodStartTime, periodEndTime);
      var rest := GetCarbonIntensity(c, locations[1..], periodStartTime, periodEndTime);
      if first.Err? then Err(first.error)
      else if rest.Err? then
        ghost var j :| 0 <= j < |locations[1..]|
          && GetCarbonIntensityForLocation(c, locations[1..][j], periodStartTime, periodEndTime) == Err(rest.error)
          && forall i :: 0 <= i < j ==> GetCarbonIntensityForLocation(c, locations[1..][i], periodStartTime, periodEndTime).Ok?;
        assert GetCarbonIntensityForLocation(c, locations[j + 1], periodStartTime, periodEndTime) == Err(rest.error);
        Err(rest.error)
      else Ok(first.value + rest.value)
  }

  /**
    One location whose lookups succeed gives one record per data point the provider
    returned (none for an empty window, which is not an error), each carrying the point's
    balancing authority, its time and its converted value.
  */
  lemma OneRecordPerDataPoint(c: Collaborators, location: Location, start: Time, end: Time,
                              balancingAuthority: BalancingAuthority, points: seq<GridEmissionDataPoint>)
    requires GetBalancingAuthority(c, location) == Ok(balancingAuthority)
    requires c.getData(balancingAuthority, start, end) == Ok(points)
    ensures var r := GetCarbonIntensity(c, [location], start, end);
      && r.Ok? && |r.value| == |points|
      && forall i :: 0 <= i < |points| ==>
        && r.value[i].location == points[i].balancingAuthorityAbbreviation
        && r.value[i].time == points[i].pointTime
        && r.value[i].rating == ConvertMoerToGramsPerKilowattHour(points[i].value)
  {
    assert [location][1..] == [];
  }

  /** Output order follows input order: the records of `a + b` are those of `a` followed by those of `b`. */
  lemma {:induction false} CarbonIntensityAppend(c: Collaborators, a: seq<Location>, b: seq<Location>, start: Time, end: Time)
    requires GetCarbonIntensity(c, a, start, end).Ok? && GetCarbonIntensity(c, b, start, end).Ok?
    ensures GetCarbonIntensity(c, a + b, start, end)
         == Ok(GetCarbonIntensity(c, a, start, end).value + GetCarbonIntensity(c, b, start, end).value)
  {
    if a != [] {
      assert (a + b)[0] == a[0] && (a + b)[1..] == a[1..] + b;
      CarbonIntensityAppend(c, a[1..], b, start, end);
      var first := GetCarbonIntensityForLocation(c, a[0], start, end).value;
      var ra := GetCarbonIntensity(c, a[1..], start, end).value;
      var rb := GetCarbonIntensity(c, b, start, end).value;
      assert first + (ra + rb) == (first + ra) + rb;
    } else {
      assert a + b == b;
      assert [] + GetCarbonIntensity(c, b, start, end).value == GetCarbonIntensity(c, b, start, end).value;
    }
  }

  /**
    A location that cannot be geopositioned aborts the whole call with the location
    source's error, whatever the provider would have returned for it.
  */
  lemma LocationErrorAbortsCall(c: Collaborators, locations: seq<Location>, k: nat, start: Time, end: Time, e: Error)
    requires k < |locations|
    requires forall i :: 0 <= i < k ==> GetCarbonIntensityForLocation(c, locations[i], start, end).Ok?
    requires c.toGeopositionLocation(locations[k]) == Err(e)
    ensures GetCarbonIntensity(c, locations, start, end) == Err(e)
  {
  }

  /**
    The duration of sample `i`: the gap to the next sample's time, and for the last
    sample the gap before it.
  */
  function Gap(points: seq<GridEmissionDataPoint>, i: nat): Duration
    requires 2 <= |points| && i < |points|
  {
    if i + 1 < |points| then points[i + 1].pointTime - points[i].pointTime
    else points[i].pointTime - points[i - 1].pointTime
  }

  /** The forecast records: each point converted and given its inferred duration, in provider order. */
  function ForecastRecords(points: seq<GridEmissionDataPoint>): (records: seq<EmissionsData>)
    requires |points| >= 2
    ensures |records| == |points|
    ensures forall i :: 0 <= i < |points| ==>
      && records[i].location == points[i].balancingAuthorityAbbreviation
      && records[i].time == points[i].pointTime
      && records[i].rating == ConvertMoerToGramsPerKilowattHour(points[i].value)
      && records[i].duration == Gap(points, i)
  {
    var p := points[0];
    var duration := points[1].pointTime - p.pointTime;
    var head := EmissionsData(p.balancingAuthorityAbbreviation, p.pointTime, ConvertMoerToGramsPerKilowattHour(p.value), duration);
    if |points| == 2 then
      var q := points[1];
      [head, EmissionsData(q.balancingAuthorityAbbreviation, q.pointTime, ConvertMoerToGramsPerKilowattHour(q.value), duration)]
    else
      [head] + ForecastRecords(points[1..])
  }

  /**
    The current forecast for a location: its balancing authority's forecast, refused with a
    WattTime client exception when it has fewer than two points, otherwise converted and
    given durations, with the provider's generation time and the caller's own location.
  */
  function GetCurrentCarbonIntensityForecast(c: Collaborators, location: Location): (r: Result<EmissionsForecast, Error>)
    ensures GetBalancingAuthority(c, location).Err? ==> r == Err(GetBalancingAuthority(c, location).error)
    ensures r.Ok? ==>
      && GetBalancingAuthority(c, location).Ok?
      && c.getCurrentForecast(GetBalancingAuthority(c, location).value).Ok?
      && var forecast := c.getCurrentForecast(GetBalancingAuthority(c, location).value).value;
      && |forecast.forecastData| >= 2
      && r.value == EmissionsForecast(forecast.generatedAt, location, ForecastRecords(forecast.forecastData))
  {
    var balancingAuthority :- GetBalancingAuthority(c, location);
    var forecast :- c.getCurrentForecast(balancingAuthority);
    if |forecast.forecastData| < 2 then Err(WattTimeClientException(TooFewDataPoints))
    else Ok(EmissionsForecast(forecast.generatedAt, location, ForecastRecords(forecast.forecastData)))
  }

  /** A provider forecast with fewer than two points is refused with a WattTime client exception, and only then. */
  lemma ForecastNeedsTwoPoints(c: Collaborators, location: Location, balancingAuthority: BalancingAuthority, forecast: Forecast)
    requires GetBalancingAuthority(c, location) == Ok(balancingAuthority)
    requires c.getCurrentForecast(balancingAuthority) == Ok(forecast)
    ensures var r := GetCurrentCarbonIntensityForecast(c, location);
      && (r.Err? <==> |forecast.forecastData| < 2)
      && (r.Err? ==> r.error == WattTimeClientException(TooFewDataPoints))
  {
  }

  /**
    A forecast of at least two points keeps the provider's generation time, carries the
    caller's location, and has one record per point with its time, its converted value and
    the gap to the next point, the last record repeating the gap before it.
  */
  lemma ForecastAssembly(c: Collaborators, location: Location, balancingAuthority: BalancingAuthority, forecast: Forecast)
    requires GetBalancingAuthority(c, location) == Ok(balancingAuthority)
    requires c.getCurrentForecast(balancingAuthority) == Ok(forecast)
    requires |forecast.forecastData| >= 2
    ensures var r := GetCurrentCarbonIntensityForecast(c, location);
      var points := forecast.forecastData;
      && r.Ok?
      && r.value.generatedAt == forecast.generatedAt
      && r.value.location == location
      && |r.value.forecastData| == |points|
      && (forall i :: 0 <= i < |points| ==>
        && r.value.forecastData[i].location == points[i].balancingAuthorityAbbreviation
        && r.value.forecastData[i].time == points[i].pointTime
        && r.value.forecastData[i].rating == ConvertMoerToGramsPerKilowattHour(points[i].value))
      && (forall i :: 0 <= i < |points| - 1 ==>
        r.value.forecastData[i].duration == points[i + 1].pointTime - points[i].pointTime)
      && r.value.forecastData[|points| - 1].duration == r.value.forecastData[|points| - 2].duration
  {
  }

  /** Failures of the location source and of the WattTime client pass through the forecast unchanged. */
  lemma ForecastPropagatesErrors(c: Collaborators, location: Location)
    ensures c.toGeopositionLocation(location).Err? ==>
      GetCurrentCarbonIntensityForecast(c, location) == Err(c.toGeopositionLocation(location).error)
    ensures GetBalancingAuthority(c, location).Ok? && c.getCurrentForecast(GetBalancingAuthority(c, location).value).Err? ==>
      GetCurrentCarbonIntensityForecast(c, location) == Err(c.getCurrentForecast(GetBalancingAuthority(c, location).value).error)
  {
  }

  /**
    A provider forecast of two samples five minutes apart: the forecast keeps its generation
    time and the caller's location, and both records report five minutes at the samples' own times.
  */
  lemma FiveMinuteForecast(c: Collaborators, location: Location, balancingAuthority: BalancingAuthority,
                           t0: Time, generatedAt: Time, ba: string)
    requires GetBalancingAuthority(c, location) == Ok(balancingAuthority)
    requires c.getCurrentForecast(balancingAuthority) == Ok(Forecast(generatedAt,
      [GridEmissionDataPoint(ba, t0, 10.0), GridEmissionDataPoint(ba, t0 + 5 * TicksPerMinute, 10.0)]))
    ensures GetCurrentCarbonIntensityForecast(c, location) == Ok(EmissionsForecast(generatedAt, location, [
      EmissionsData(ba, t0, ConvertMoerToGramsPerKilowattHour(10.0), 5 * TicksPerMinute),
      EmissionsData(ba, t0 + 5 * TicksPerMinute, ConvertMoerToGramsPerKilowattHour(10.0), 5 * TicksPerMinute)]))
  {
  }
}
