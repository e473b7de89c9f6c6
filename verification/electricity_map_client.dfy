/**
  The electricityMap client's request pipeline: an HTTP transport that retries a GET once
  when it is refused with 401 or 403, the URL builders that append a query string, and the
  current-forecast request built on both.

  The HTTP client is a scripted fake: the n-th GET it receives (counting from 0) is answered
  by `respond(n)`, and every requested path is logged. The log's length is the call counter.
*/
module ElectricityMap {
  import opened Outcomes
  import opened QueryString

  const Unauthorized: int := 401
  const Forbidden: int := 403

  /** The statuses after which the same GET is sent once more. */
  const RetriableStatusCodes: seq<int> := [Unauthorized, Forbidden]

  function IsRetriable(statusCode: int): (retriable: bool)
    ensures retriable <==> statusCode == Unauthorized || statusCode == Forbidden
  {
    statusCode in RetriableStatusCodes
  }

  /** `HttpResponseMessage.IsSuccessStatusCode`: a status in 200..299. */
  predicate IsSuccessStatusCode(statusCode: int) {
    200 <= statusCode <= 299
  }

  /** A response: its status and its body, `None` where the body reads as null. */
  datatype Response = Response(statusCode: int, content: Option<string>)

  /** The deserialised forecast; its fields belong to the client's model types and play no part here. */
  type Forecast(==)

  /** An electricityMap zone; only its country code is used. */
  datatype Zone = Zone(countryCode: string)

  /** What `JsonSerializer.Deserialize<Forecast?>` makes of a body. */
  datatype JsonResult = JsonNull | JsonMalformed | JsonValue(forecast: Forecast)

  /** The exceptions the client raises or lets through. */
  datatype ClientError =
    | HttpException(response: Response)  // electricityMapClientHttpException, carrying the final response
    | ClientException(message: string)   // electricityMapClientException
    | JsonException                      // a body that is not JSON, raised by the deserialiser

  /** The query-string key for the country code (`QueryStrings.countryCodeAbbreviation`). */
  const CountryCodeAbbreviation: string := "zone"

  /** What one auth-retrying GET exchanges with the server: how many GETs it sends and the response it keeps. */
  datatype Exchange = Exchange(gets: nat, final: Response)

  /**
    The exchange of a GET whose first request is the server's `sent`-th: a second, identical
    GET exactly when the first answer is 401 or 403, never a third; the response kept is the
    last one received.
  */
  function AuthRetryExchange(respond: nat -> Response, sent: nat): (x: Exchange)
    ensures 1 <= x.gets <= 2
    ensures x.gets == 2 <==> IsRetriable(respond(sent).statusCode)
    ensures x.final == respond(sent + x.gets - 1)
  {
    var first := respond(sent);
    if IsRetriable(first.statusCode) then Exchange(2, respond(sent + 1)) else Exchange(1, first)
  }

  /** A success status returns the final response; any other throws an HTTP exception that carries it. */
  function AuthRetryResult(x: Exchange): (r: Result<Response, ClientError>)
    ensures r.Ok? <==> IsSuccessStatusCode(x.final.statusCode)
    ensures r == Ok(x.final) || r == Err(HttpException(x.final))
  {
    if IsSuccessStatusCode(x.final.statusCode) then Ok(x.final) else Err(HttpException(x.final))
  }

  /** The body as text; a null body reads as the empty string, so the text is never null. */
  function ContentString(response: Response): (s: string)
    ensures response.content.Some? ==> s == response.content.value
    ensures response.content.None? ==> s == ""
  {
    match response.content
    case Some(text) => text
    case None => ""
  }

  /** The body text of an auth-retrying GET, or the exception it throws. */
  function StringResult(x: Exchange): (r: Result<string, ClientError>)
    ensures r.Ok? <==> IsSuccessStatusCode(x.final.statusCode)
    ensures r.Ok? ==> r.value == ContentString(x.final)
    ensures r.Err? ==> r.error == HttpException(x.final)
  {
    var response :- AuthRetryResult(x);
    Ok(ContentString(response))
  }

  /** The forecast request's URL: no path, one parameter, the country code. */
  function ForecastUrl(encode: string -> string, countryCode: string): (url: string)
    ensures |url| >= 1 && url[0] == '?'
    ensures url[1..] == Render(encode, [Entry(CountryCodeAbbreviation, countryCode)])
  {
    CollectedDictionary([Entry(CountryCodeAbbreviation, countryCode)]);
    "?" + Render(encode, Collected([Entry(CountryCodeAbbreviation, countryCode)]))
  }

  /** The outcome of the forecast request: the fetch's exception, a null forecast as a client exception, or the forecast. */
  function ForecastResult(deserialize: string -> JsonResult, countryCode: string, x: Exchange): (r: Result<Forecast, ClientError>)
    ensures !IsSuccessStatusCode(x.final.statusCode) ==> r == Err(HttpException(x.final))
    ensures IsSuccessStatusCode(x.final.statusCode) ==>
      match deserialize(ContentString(x.final))
      case JsonNull => r == Err(ClientException("Error getting forecast for  " + countryCode))
      case JsonMalformed => r == Err(JsonException)
      case JsonValue(f) => r == Ok(f)
  {
    var body :- StringResult(x);
    match deserialize(body)
    case JsonNull => Err(ClientException("Error getting forecast for  " + countryCode))
    case JsonMalformed => Err(JsonException)
    case JsonValue(f) => Ok(f)
  }

  /** Every outcome of one auth-retrying GET, as its four scenarios. */
  lemma AuthRetryOutcomes(respond: nat -> Response, sent: nat)
    ensures var first, second := respond(sent), respond(sent + 1);
      var x := AuthRetryExchange(respond, sent);
      && (IsSuccessStatusCode(first.statusCode) ==> x.gets == 1 && AuthRetryResult(x) == Ok(first))
      && (!IsSuccessStatusCode(first.statusCode) && !IsRetriable(first.statusCode) ==>
            x.gets == 1 && AuthRetryResult(x) == Err(HttpException(first)))
      && (IsRetriable(first.statusCode) && IsSuccessStatusCode(second.statusCode) ==>
            x.gets == 2 && AuthRetryResult(x) == Ok(second))
      && (IsRetriable(first.statusCode) && !IsSuccessStatusCode(second.statusCode) ==>
            x.gets == 2 && AuthRetryResult(x) == Err(HttpException(second)))
  {
  }

  /** Under a URL encoder, the forecast request carries exactly one parameter: the country code. */
  lemma ForecastUrlHasOneParameter(encode: string -> string, countryCode: string)
    requires SafeEncoder(encode)
    ensures ForecastUrl(encode, countryCode)[0] == '?'
    ensures Split(ForecastUrl(encode, countryCode)[1..]) == [Pair(encode, Entry(CountryCodeAbbreviation, countryCode))]
  {
    var e := Entry(CountryCodeAbbreviation, countryCode);
    assert Pairs(encode, [e]) == [Pair(encode, e)];
  }

  /** The HTTP client, as a scripted server and a log of the paths requested of it. */
  class HttpTransport {
    /** The answer to the n-th GET, counting from 0. */
    const respond: nat -> Response
    /** The paths of every GET so far, in order. */
    var requested: seq<string>

    constructor (respond: nat -> Response)
      ensures this.respond == respond && requested == []
    {
      this.respond := respond;
      requested := [];
    }

    /** `HttpClient.GetAsync`: log the path and return the scripted answer. */
    method GetAsync(uriPath: string) returns (response: Response)
      modifies this
      ensures requested == old(requested) + [uriPath]
      ensures response == respond(|old(requested)|)
    {
      response := respond(|requested|);
      requested := requested + [uriPath];
    }
  }

  /** The client; `encode` is the library's URL encoder and `deserialize` its JSON reader. */
  class ElectricityMapClient {
    const client: HttpTransport
    const encode: string -> string
    const deserialize: string -> JsonResult

    constructor (client: HttpTransport, encode: string -> string, deserialize: string -> JsonResult)
      ensures this.client == client && this.encode == encode && this.deserialize == deserialize
    {
      this.client := client;
      this.encode := encode;
      this.deserialize := deserialize;
    }

    /**
      GET `uriPath`; on 401 or 403 GET the same path once more; throw unless the status of the
      response kept is a success.
    */
    method GetAsyncWithAuthRetry(uriPath: string) returns (r: Result<Response, ClientError>)
      modifies client
      ensures var x := AuthRetryExchange(client.respond, |old(client.requested)|);
        && client.requested == old(client.requested) + seq(x.gets, _ => uriPath)
        && r == AuthRetryResult(x)
    {
      var response := client.GetAsync(uriPath);
      if IsRetriable(response.statusCode) {
        response := client.GetAsync(uriPath);
      }
      if !IsSuccessStatusCode(response.statusCode) {
        return Err(HttpException(response));
      }
      return Ok(response);
    }

    /** The body of an auth-retrying GET as text, the empty string for a null body. */
    method GetAsyncStringWithAuthRetry(uriPath: string) returns (r: Result<string, ClientError>)
      modifies client
      ensures var x := AuthRetryExchange(client.respond, |old(client.requested)|);
        && client.requested == old(client.requested) + seq(x.gets, _ => uriPath)
        && r == StringResult(x)
    {
      var response :- GetAsyncWithAuthRetry(uriPath);
      var data := response.content;
      return Ok(if data.Some? then data.value else "");
    }

    /**
      `url?query`: the parameters assigned one by one into an empty name/value collection,
      then rendered (`CollectedDictionary`: a dictionary's pairs come out in its own order).
    */
    method BuildUrlWithPathAndQueryString(url: string, queryStringParams: seq<Entry>) returns (result: string)
      ensures result == url + "?" + Render(encode, Collected(queryStringParams))
    {
      var query := new QueryCollection();
      for i := 0 to |queryStringParams|
        invariant query.Valid()
        invariant query.entries == Collected(queryStringParams[..i])
      {
        query.Set(queryStringParams[i].key, queryStringParams[i].value);
        assert queryStringParams[..i + 1][..i] == queryStringParams[..i];
      }
      assert queryStringParams[..|queryStringParams|] == queryStringParams;
      result := url + "?" + Render(encode, query.entries);
    }

    /** `?query`: the path-less overload, the same as an empty path. */
    method BuildUrlWithQueryString(queryStringParams: seq<Entry>) returns (result: string)
      ensures result == "?" + Render(encode, Collected(queryStringParams))
      ensures result[0] == '?'
    {
      result := BuildUrlWithPathAndQueryString("", queryStringParams);
      assert "" + "?" == "?";
    }

    /** Build the path-less URL and fetch its body. */
    method MakeRequestAsync(parameters: seq<Entry>) returns (r: Result<string, ClientError>)
      modifies client
      ensures var x := AuthRetryExchange(client.respond, |old(client.requested)|);
        var url := "?" + Render(encode, Collected(parameters));
        && client.requested == old(client.requested) + seq(x.gets, _ => url)
        && r == StringResult(x)
    {
      var url := BuildUrlWithQueryString(parameters);
      r := GetAsyncStringWithAuthRetry(url);
    }

    /** Build `path?query` and fetch its body. */
    method MakeRequestAsyncWithPath(path: string, parameters: seq<Entry>) returns (r: Result<string, ClientError>)
      modifies client
      ensures var x := AuthRetryExchange(client.respond, |old(client.requested)|);
        var url := path + "?" + Render(encode, Collected(parameters));
        && client.requested == old(client.requested) + seq(x.gets, _ => url)
        && r == StringResult(x)
    {
      var url := BuildUrlWithPathAndQueryString(path, parameters);
      r := GetAsyncStringWithAuthRetry(url);
    }

    /** The current forecast for a country code; a null forecast is a client exception. */
    method GetCurrentForecastAsync(countryCodeAbbreviation: string) returns (r: Result<Forecast, ClientError>)
      modifies client
      ensures var x := AuthRetryExchange(client.respond, |old(client.requested)|);
        && client.requested == old(client.requested) + seq(x.gets, _ => ForecastUrl(encode, countryCodeAbbreviation))
        && r == ForecastResult(deserialize, countryCodeAbbreviation, x)
    {
      var parameters := [Entry(CountryCodeAbbreviation, countryCodeAbbreviation)];
      var result :- MakeRequestAsync(parameters);
      match deserialize(result)
      case JsonNull =>
        return Err(ClientException("Error getting forecast for  " + countryCodeAbbreviation));
      case JsonMalformed =>
        return Err(JsonException);
      case JsonValue(forecast) =>
        return Ok(forecast);
    }

    /** The zone overload: the country-code request for the zone's country code. */
    method GetCurrentForecastAsyncForZone(zone: Zone) returns (r: Result<Forecast, ClientError>)
      modifies client
      ensures var x := AuthRetryExchange(client.respond, |old(client.requested)|);
        && client.requested == old(client.requested) + seq(x.gets, _ => ForecastUrl(encode, zone.countryCode))
        && r == ForecastResult(deserialize, zone.countryCode, x)
    {
      r := GetCurrentForecastAsync(zone.countryCode);
    }
  }
}
