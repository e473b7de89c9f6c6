# Carbon-aware SDK: electricityMap request pipeline and WattTime data source

This project models two parts of the carbon-aware SDK in Dafny.

**The electricityMap client's request pipeline** (module `ElectricityMap`, with `QueryString`):
- The client sends a GET through an HTTP client.
- When the answer is 401 Unauthorized or 403 Forbidden, it sends the same GET exactly once more. No login takes place.
- A final status outside 200..299 throws an `electricityMapClientHttpException` that carries the final response.
- A success returns the body as text. A null body reads as the empty string.
- URLs are built by assigning each parameter into an empty name/value collection and rendering it as `url?k1=v1&k2=v2`.
- The current-forecast request sends one parameter, the country code. It throws an `electricityMapClientException` when the body deserialises to null.

The HTTP client is a class over a scripted server. The n-th GET is answered by `respond(n)`, and every requested path is logged. The log's length is the call counter. Percent-encoding is the parameter `encode`. The JSON reader is the parameter `deserialize`.

**The WattTime data source** (module `WattTime`), following its test suite:
- A location is geopositioned, and a balancing authority is looked up for its coordinates.
- Historical data becomes one record per provider data point. Each record carries the point's balancing authority, its time, and its value converted from lbs/MWh to g/kWh.
- A forecast needs at least two points.
- Each forecast record's duration is taken to be the gap to the next point, and the last record repeats the gap before it. The tests fix this only for two points in time order.
- A forecast keeps the provider's generation time and carries the caller's own location.
- The location source and the WattTime client are functions that may fail. Their errors pass through unchanged.

Times are integer ticks. Ratings are `real`.

Two details of the client's error behaviour:
- The HTTP exception carries the whole final response (electricityMapClient.cs:92).
- An electricityMap body that is not JSON surfaces as the deserialiser's own exception (`JsonException`, electricityMapClient.cs:67). Only a null forecast becomes an `electricityMapClientException`.

## Model

| member | source | states |
|---|---|---|
| ElectricityMap.IsRetriable | src/CarbonAware.Tools/CarbonAware.Tools.electricityMapClient/src/electricityMapClient.cs:23-27 | A status is retried exactly when it is 401 Unauthorized or 403 Forbidden, the two `RetriableStatusCodes` |
| ElectricityMap.AuthRetryExchange | src/CarbonAware.Tools/CarbonAware.Tools.electricityMapClient/src/electricityMapClient.cs:80-86 | One GET, or two when the first answer is 401/403 (if and only if); never three; the response kept is the last one received |
| ElectricityMap.AuthRetryResult | src/CarbonAware.Tools/CarbonAware.Tools.electricityMapClient/src/electricityMapClient.cs:88-95 | Success exactly for a 2xx final status, returning that response; otherwise an HTTP exception carrying the final response |
| ElectricityMap.AuthRetryOutcomes | src/CarbonAware.Tools/CarbonAware.Tools.electricityMapClient/src/electricityMapClient.cs:80-95 | The four scenarios: 2xx first → one GET, first response; other non-retriable → one GET, exception; 401/403 then 2xx → two GETs, second response; 401/403 then failure → two GETs, exception with the second response |
| ElectricityMap.ElectricityMapClient.GetAsyncWithAuthRetry | src/CarbonAware.Tools/CarbonAware.Tools.electricityMapClient/src/electricityMapClient.cs:78-96 | The client logs exactly the GETs of the exchange, every one to the identical path, and returns the exchange's result |
| ElectricityMap.ContentString | src/CarbonAware.Tools/CarbonAware.Tools.electricityMapClient/src/electricityMapClient.cs:100-102 | The body text is the body when there is one and the empty string for a null body |
| ElectricityMap.StringResult | src/CarbonAware.Tools/CarbonAware.Tools.electricityMapClient/src/electricityMapClient.cs:98-103 | Text is returned exactly when the final status is 2xx, and it is the body text (empty for a null body); otherwise the HTTP exception with the final response |
| ElectricityMap.ElectricityMapClient.GetAsyncStringWithAuthRetry | src/CarbonAware.Tools/CarbonAware.Tools.electricityMapClient/src/electricityMapClient.cs:98-103 | Same GETs as the auth-retrying fetch; result is the body text or its exception |
| QueryString.QueryCollection.constructor | src/CarbonAware.Tools/CarbonAware.Tools.electricityMapClient/src/electricityMapClient.cs:150 | The collection starts empty |
| QueryString.QueryCollection.Set | src/CarbonAware.Tools/CarbonAware.Tools.electricityMapClient/src/electricityMapClient.cs:154 | Indexed assignment keeps keys unique and makes the collection the assigned one |
| QueryString.Assigned | src/CarbonAware.Tools/CarbonAware.Tools.electricityMapClient/src/electricityMapClient.cs:203 | Assignment replaces rather than appends: keys stay unique, the key now maps to the new value, every other key keeps its value, a new key is appended at the end, a present key keeps its position and every other entry stays where it was |
| QueryString.Collected | src/CarbonAware.Tools/CarbonAware.Tools.electricityMapClient/src/electricityMapClient.cs:199-204 | After the loop every input key occurs exactly once, no other key occurs, and each is bound to the last value given for it |
| QueryString.CollectedDictionary | src/CarbonAware.Tools/CarbonAware.Tools.electricityMapClient/src/electricityMapClient.cs:152-155 | A dictionary (unique keys) is collected unchanged: the same pairs in the same order |
| QueryString.Render | src/CarbonAware.Tools/CarbonAware.Tools.electricityMapClient/src/electricityMapClient.cs:157 | The query text is empty exactly for an empty collection; under a URL encoder, splitting it at `&` gives back the rendered `key=value` pairs in collection order |
| QueryString.RenderInjective | src/CarbonAware.Tools/CarbonAware.Tools.electricityMapClient/src/electricityMapClient.cs:206 | Under an injective encoder that never emits `&` or `=`, two collections with the same query text are equal |
| ElectricityMap.ElectricityMapClient.BuildUrlWithPathAndQueryString | src/CarbonAware.Tools/CarbonAware.Tools.electricityMapClient/src/electricityMapClient.cs:191-214 | The URL is `url + "?" +` the rendered collection of the parameters, so `url` is a prefix and every key occurs once with its last value (see `Collected`, `CollectedDictionary`) |
| ElectricityMap.ElectricityMapClient.BuildUrlWithQueryString | src/CarbonAware.Tools/CarbonAware.Tools.electricityMapClient/src/electricityMapClient.cs:142-165 | The path-less URL is `"?" +` the rendered collection and always starts with `?` |
| ElectricityMap.ElectricityMapClient.MakeRequestAsync | src/CarbonAware.Tools/CarbonAware.Tools.electricityMapClient/src/electricityMapClient.cs:118-140 | Fetches the body of the path-less URL built from the parameters |
| ElectricityMap.ElectricityMapClient.MakeRequestAsyncWithPath | src/CarbonAware.Tools/CarbonAware.Tools.electricityMapClient/src/electricityMapClient.cs:167-189 | Fetches the body of `path?query` built from the parameters |
| ElectricityMap.ForecastResult | src/CarbonAware.Tools/CarbonAware.Tools.electricityMapClient/src/electricityMapClient.cs:65-69 | A failed fetch gives its HTTP exception; a null forecast gives `electricityMapClientException` naming the code; a malformed body gives the deserialiser's exception; otherwise the forecast |
| ElectricityMap.ForecastUrl | src/CarbonAware.Tools/CarbonAware.Tools.electricityMapClient/src/electricityMapClient.cs:55-58 | The forecast URL starts with `?` and its query is the one-entry collection `zone=<country code>` |
| ElectricityMap.ForecastUrlHasOneParameter | src/CarbonAware.Tools/CarbonAware.Tools.electricityMapClient/src/electricityMapClient.cs:55-58 | The forecast URL starts with `?` and carries exactly one parameter, the country code |
| ElectricityMap.ElectricityMapClient.GetCurrentForecastAsync | src/CarbonAware.Tools/CarbonAware.Tools.electricityMapClient/src/electricityMapClient.cs:50-70 | GETs only the forecast URL, once or twice, and returns the forecast outcome for that exchange |
| ElectricityMap.ElectricityMapClient.GetCurrentForecastAsyncForZone | src/CarbonAware.Tools/CarbonAware.Tools.electricityMapClient/src/electricityMapClient.cs:73-76 | Identical requests and result to the country-code overload applied to the zone's country code |
| ElectricityMap.ElectricityMapClient.constructor | src/CarbonAware.Tools/CarbonAware.Tools.electricityMapClient/src/electricityMapClient.cs:39-47 | The client holds the given HTTP client, encoder and deserialiser |
| ElectricityMap.HttpTransport.constructor | src/CarbonAware.Tools/CarbonAware.Tools.electricityMapClient/src/electricityMapClient.cs:41 | A fresh HTTP client has sent no request |
| ElectricityMap.HttpTransport.GetAsync | src/CarbonAware.Tools/CarbonAware.Tools.electricityMapClient/src/electricityMapClient.cs:80 | A GET logs its path and returns the server's answer to that call |
| WattTime.ConvertMoerToGramsPerKilowattHour | src/CarbonAware.DataSources/CarbonAware.DataSources.WattTime/test/WattTimeDataSourceTests.cs:233-245 | A non-negative value converts to a non-negative value, and multiplying back by 0.00220462262185 and dividing by 0.001 gives the input exactly |
| WattTime.GetBalancingAuthority | src/CarbonAware.DataSources/CarbonAware.DataSources.WattTime/test/WattTimeDataSourceTests.cs:246-255 | A geopositioning failure is the result unchanged; otherwise the authority is the lookup of the geopositioned latitude and longitude |
| WattTime.GetCarbonIntensityForLocation | src/CarbonAware.DataSources/CarbonAware.DataSources.WattTime/test/WattTimeDataSourceTests.cs:49-121 | For one location: the balancing-authority error, or the provider's data error, unchanged; otherwise the converted records of the provider's points for the window |
| WattTime.ToEmissionsData | src/CarbonAware.DataSources/CarbonAware.DataSources.WattTime/test/WattTimeDataSourceTests.cs:75-84 | One record per data point, in order, with the point's balancing authority, its time, its converted value and no duration |
| WattTime.GetCarbonIntensity | src/CarbonAware.DataSources/CarbonAware.DataSources.WattTime/test/WattTimeDataSourceTests.cs:111-121 | The call succeeds exactly when every location does; a failure is the first failing location's error, unchanged |
| WattTime.OneRecordPerDataPoint | src/CarbonAware.DataSources/CarbonAware.DataSources.WattTime/test/WattTimeDataSourceTests.cs:49-108 | For a location whose lookups succeed, the result has one record per provider point (none for an empty window, with no error), each with the point's balancing authority, time and converted value |
| WattTime.CarbonIntensityAppend | src/CarbonAware.DataSources/CarbonAware.DataSources.WattTime/test/WattTimeDataSourceTests.cs:75 | The records for `a + b` are the records for `a` followed by those for `b` |
| WattTime.LocationErrorAbortsCall | src/CarbonAware.DataSources/CarbonAware.DataSources.WattTime/test/WattTimeDataSourceTests.cs:118-120 | A location the location source cannot convert aborts the whole call with that exception, whatever the provider would return |
| WattTime.GetCurrentCarbonIntensityForecast | src/CarbonAware.DataSources/CarbonAware.DataSources.WattTime/test/WattTimeDataSourceTests.cs:124-231 | A balancing-authority failure is the result unchanged; a success means both lookups succeeded, the provider gave at least two points, and the forecast keeps its generation time, carries the caller's location and holds the records of its points |
| WattTime.ForecastRecords | src/CarbonAware.DataSources/CarbonAware.DataSources.WattTime/test/WattTimeDataSourceTests.cs:169-181 | One record per forecast point, in order, with its balancing authority, time, converted value, and the gap to the next point (the last repeating the previous gap; the tests fix this for two time-ordered points) |
| WattTime.ForecastNeedsTwoPoints | src/CarbonAware.DataSources/CarbonAware.DataSources.WattTime/test/WattTimeDataSourceTests.cs:208-230 | A provider forecast is refused with `WattTimeClientException` exactly when it has fewer than two points |
| WattTime.ForecastAssembly | src/CarbonAware.DataSources/CarbonAware.DataSources.WattTime/test/WattTimeDataSourceTests.cs:162-181 | A forecast of two or more points succeeds, keeps `GeneratedAt`, carries the caller's location, and gives each record the gap to the next time, the last repeating the one before (a rule the tests fix only for two points) |
| WattTime.ForecastPropagatesErrors | src/CarbonAware.DataSources/CarbonAware.DataSources.WattTime/test/WattTimeDataSourceTests.cs:186-205 | A location-conversion failure and a WattTime client failure come out of the forecast unchanged |
| WattTime.FiveMinuteForecast | src/CarbonAware.DataSources/CarbonAware.DataSources.WattTime/test/WattTimeDataSourceTests.cs:124-181 | A provider forecast of two samples five minutes apart gives a forecast with the provider's generation time and the caller's location, whose two records both last five minutes, at the samples' own times and with the converted value |

## Left out

- HTTP client setup is not modelled: the client factory, the base address, the `Accept` header and `SetBearerAuthenticationHeader` (electricityMapClient.cs:39-47, 111-114). This is network plumbing; the HTTP client is the scripted server.
- `GetAsyncStreamWithAuthRetry` (electricityMapClient.cs:105-109) is not modelled. It is the stream form of the string fetch, it has no caller in the file, and it makes the same exchange as `GetAsyncWithAuthRetry`.
- Logging, `ActivitySource` activities and the tag dictionaries passed to `MakeRequestAsync` are not modelled. They have no effect on results.
- The `IOptionsMonitor` configuration is treated as constant.
- async/await, cancellation and concurrency are not modelled. Every call is sequential.
- `HttpUtility` percent-encoding is the abstract parameter `encode`. Its exact output is not modelled. The model renders both keys and values through it.
- The .NET query collection compares keys without regard to case; the model compares keys exactly, so two dictionary keys differing only in case stay two entries here.
- JSON deserialisation is the parameter `deserialize`, with three outcomes: null, malformed, or a forecast.
- The electricityMap `Forecast` and `Zone` model types are not part of this model. `Forecast` is an abstract type, and `Zone` keeps only its country code.
- The `QueryStrings` constants file is not part of this model. The country-code key is taken to be `"zone"`. No property depends on its value.
- Floating point is not modelled: conversion is exact arithmetic over `real`, so the tests' 1e-8 tolerance is not needed.
- WattTimeDataSource.cs is not part of this model. The `WattTime` functions model the behaviour its tests check, and choose a rule where the tests leave one open.
- WattTime.ForecastRecords: the tests fix durations only for a two-point, time-ordered forecast, where both records get the one gap. For three or more points, the per-sample rule (the gap to the next sample, the last repeating the previous gap) is this model's reading. Points out of time order get negative durations, which nothing in the tests rules on.
- A record's `Location` is the data point's own balancing-authority abbreviation. The tests set it equal to the looked-up authority, so they cannot tell the two apart.
- Historical records carry a zero duration (the default `TimeSpan`).
- Turning coordinates into strings for the balancing-authority lookup is not modelled. The lookup receives the geopositioned latitude and longitude as they are.
- The location source (`ILocationSource`) and the WattTime client are given functions, and the tests' mock setup is not modelled. The model is a function, so "no provider fetch after a location error" is stated as the call's result not depending on the provider (`LocationErrorAbortsCall`), not as a count of calls.
