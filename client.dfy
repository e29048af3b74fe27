/** The request client of src/blueskyapi/client.py: configuration resolved
    once at construction, an HTTP session whose headers carry the API key,
    the parameter maps of the two forecast calls, and the choice between
    returning a response body and raising the response's exception. */
module RequestClient {
  import opened Wrappers
  import opened Normalizer
  import opened Errors
  import opened Text

  /** The process-wide defaults (`default_config.api_key` and `default_config.base_url`)
      at the moment a client is built. */
  datatype DefaultConfig = DefaultConfig(apiKey: Option<string>, baseUrl: string)

  /** A query parameter: a coordinate passed through as given, or a normalised
      value (`None` entries are dropped by the HTTP library when it encodes the query). */
  datatype ParamValue = Coordinate(x: real) | Normalized(v: Option<string>)

  /** The keyword arguments of `dict(...)`, in the order they are written. */
  type Params = seq<(string, ParamValue)>

  /** What the session hands to the transport for one GET. */
  datatype Request = Request(url: string, headers: map<string, string>, params: Params)

  /** What a forecast call raises: a `TypeError` from a normaliser, or a `RequestError`. */
  datatype ClientError = ArgumentError(typeError: TypeError) | ResponseError(apiError: ApiError)

  const LatestEndpoint := "/forecasts/gfs_0p25/latest"
  const HistoryEndpoint := "/forecasts/gfs_0p25/history"
  const AuthorizationHeader := "Authorization"

  /** Python truthiness of an optional string: `None` and `""` are falsy. */
  predicate Truthy(v: Option<string>)
    ensures Truthy(v) <==> v != None && v != Some("")
  {
    v.Some? && v.value != ""
  }

  /** `given or default` for the API key. */
  function ResolveApiKey(given: Option<string>, default: Option<string>): (k: Option<string>)
    ensures k == given || k == default
    ensures k == given <==> Truthy(given) || given == default
  {
    if Truthy(given) then given else default
  }

  /** `given or default` for the base URL, whose default is a string. */
  function ResolveBaseUrl(given: Option<string>, default: string): (u: string)
    ensures given == Some(u) || u == default
    ensures Truthy(given) <==> given == Some(u) && u != ""
    ensures !Truthy(given) ==> u == default
  {
    if Truthy(given) then given.value else default
  }

  /** The session's headers after construction: the HTTP library's own headers,
      plus `Authorization: Bearer <key>` exactly when the resolved key is not `None`. */
  function SessionHeaders(libraryHeaders: map<string, string>, apiKey: Option<string>): (h: map<string, string>)
    ensures apiKey.Some? ==> AuthorizationHeader in h && h[AuthorizationHeader] == "Bearer " + apiKey.value
    ensures apiKey.None? ==> h == libraryHeaders
    ensures h.Keys == libraryHeaders.Keys + (if apiKey.Some? then {AuthorizationHeader} else {})
    ensures forall name :: name in libraryHeaders && name != AuthorizationHeader ==> h[name] == libraryHeaders[name]
  {
    if apiKey.Some? then libraryHeaders[AuthorizationHeader := "Bearer " + apiKey.value] else libraryHeaders
  }

  /** The parameter names of a parameter map, in order. */
  function Names(p: Params): (names: seq<string>)
    ensures |names| == |p| && forall k :: 0 <= k < |p| ==> names[k] == p[k].0
  {
    seq(|p|, k requires 0 <= k < |p| => p[k].0)
  }

  /** The parameters of `latest_forecast`; normalisers run in argument order,
      so the first one that raises decides the error. */
  function LatestForecastParams(lat: real, lon: real, predictionDistances: PyValue, columns: PyValue)
    : (r: Result<Params, TypeError>)
    ensures var d := PrepareCommaSeparatedList(predictionDistances, "prediction_distances");
      var c := PrepareCommaSeparatedList(columns, "columns");
      && (r.Success? <==> d.Success? && c.Success?)
      && (d.Failure? ==> r == Failure(d.error))
      && (d.Success? && c.Failure? ==> r == Failure(c.error))
      && (r.Success? ==>
            && Names(r.value) == ["lat", "lon", "prediction_distances", "columns"]
            && r.value[0].1 == Coordinate(lat) && r.value[1].1 == Coordinate(lon)
            && r.value[2].1 == Normalized(d.value) && r.value[3].1 == Normalized(c.value))
  {
    var d :- PrepareCommaSeparatedList(predictionDistances, "prediction_distances");
    var c :- PrepareCommaSeparatedList(columns, "columns");
    Success([("lat", Coordinate(lat)), ("lon", Coordinate(lon)),
             ("prediction_distances", Normalized(d)), ("columns", Normalized(c))])
  }

  /** The parameters of `forecast_history`, normalised in argument order. */
  function ForecastHistoryParams(lat: real, lon: real, minMoment: PyValue, maxMoment: PyValue,
                                 predictionDistances: PyValue, columns: PyValue)
    : (r: Result<Params, TypeError>)
    ensures var lo := PrepareDatetime(minMoment, "min_prediction_moment");
      var hi := PrepareDatetime(maxMoment, "max_prediction_moment");
      var d := PrepareCommaSeparatedList(predictionDistances, "prediction_distances");
      var c := PrepareCommaSeparatedList(columns, "columns");
      && (r.Success? <==> lo.Success? && hi.Success? && d.Success? && c.Success?)
      && (lo.Failure? ==> r == Failure(lo.error))
      && (lo.Success? && hi.Failure? ==> r == Failure(hi.error))
      && (lo.Success? && hi.Success? && d.Failure? ==> r == Failure(d.error))
      && (lo.Success? && hi.Success? && d.Success? && c.Failure? ==> r == Failure(c.error))
      && (r.Success? ==>
            && Names(r.value) == ["lat", "lon", "min_prediction_moment", "max_prediction_moment",
                                  "prediction_distances", "columns"]
            && r.value[0].1 == Coordinate(lat) && r.value[1].1 == Coordinate(lon)
            && r.value[2].1 == Normalized(lo.value) && r.value[3].1 == Normalized(hi.value)
            && r.value[4].1 == Normalized(d.value) && r.value[5].1 == Normalized(c.value))
  {
    var lo :- PrepareDatetime(minMoment, "min_prediction_moment");
    var hi :- PrepareDatetime(maxMoment, "max_prediction_moment");
    var d :- PrepareCommaSeparatedList(predictionDistances, "prediction_distances");
    var c :- PrepareCommaSeparatedList(columns, "columns");
    Success([("lat", Coordinate(lat)), ("lon", Coordinate(lon)),
             ("min_prediction_moment", Normalized(lo)), ("max_prediction_moment", Normalized(hi)),
             ("prediction_distances", Normalized(d)), ("columns", Normalized(c))])
  }

  /** What `_get` makes of a response: its content when the response is ok,
      otherwise the exception classified from it; never both. */
  function GetOutcome(response: Response, codec: JsonCodec): (r: Result<seq<byte>, ApiError>)
    ensures r.Success? <==> response.ok
    ensures r.Success? ==> r.value == response.content
    ensures r.Failure? ==> r.error.response == response
    ensures r.Failure? ==> r.error.klass == ErrorByStatusCode(response.statusCode)
    ensures r.Failure? ==> r.error.message == Message(response, codec)
  {
    if response.ok then Success(response.content) else Failure(RequestErrorFromResponse(response, codec))
  }

  /** A forecast call's outcome once its parameters are known. */
  function AsClientResult(r: Result<seq<byte>, ApiError>): (c: Result<seq<byte>, ClientError>)
    ensures c.Success? <==> r.Success?
    ensures c.Success? ==> c.value == r.value
    ensures c.Failure? ==> c.error == ResponseError(r.error)
  {
    match r
    case Success(content) => Success(content)
    case Failure(e) => Failure(ResponseError(e))
  }

  /** A `requests.Session`, reduced to the header dictionary the client updates. */
  class Session {
    var headers: map<string, string>

    constructor (libraryHeaders: map<string, string>)
      ensures headers == libraryHeaders
    {
      headers := libraryHeaders;
    }

    /** `session.headers.update(extra)`. */
    method UpdateHeaders(extra: map<string, string>)
      modifies this
      ensures headers == old(headers) + extra
      ensures forall name :: name in extra ==> headers[name] == extra[name]
      ensures forall name :: name in old(headers) && name !in extra ==> headers[name] == old(headers)[name]
    {
      headers := headers + extra;
    }
  }

  class Client {
    const apiKey: Option<string>
    const baseUrl: string
    const session: Session

    /** `Client(api_key, base_url)`: each argument falls back to its default
        when falsy, and the session is given the bearer header when a key results. */
    constructor (apiKey: Option<string>, baseUrl: Option<string>, config: DefaultConfig,
                 libraryHeaders: map<string, string>)
      ensures this.apiKey == ResolveApiKey(apiKey, config.apiKey)
      ensures this.baseUrl == ResolveBaseUrl(baseUrl, config.baseUrl)
      ensures fresh(session)
      ensures session.headers == SessionHeaders(libraryHeaders, this.apiKey)
    {
      this.apiKey := ResolveApiKey(apiKey, config.apiKey);
      this.baseUrl := ResolveBaseUrl(baseUrl, config.baseUrl);
      this.session := new Session(libraryHeaders);
      new;
      if this.apiKey.Some? {
        session.UpdateHeaders(map[AuthorizationHeader := "Bearer " + this.apiKey.value]);
      }
    }

    /** `_url(endpoint)`: the base URL followed by the endpoint. */
    function Url(endpoint: string): (u: string)
      ensures |u| == |baseUrl| + |endpoint|
      ensures u[..|baseUrl|] == baseUrl && u[|baseUrl|..] == endpoint
    {
      baseUrl + endpoint
    }

    /** `_get(endpoint, params)`: one GET through `send`, carrying the session's
        current headers, then content or exception as GetOutcome says. */
    method Get(endpoint: string, params: Params, send: Request -> Response, codec: JsonCodec)
      returns (r: Result<seq<byte>, ApiError>)
      ensures r == GetOutcome(send(Request(Url(endpoint), session.headers, params)), codec)
    {
      var url := Url(endpoint);
      var response := send(Request(url, session.headers, params));
      r := GetOutcome(response, codec);
    }

    /** `latest_forecast(lat, lon, prediction_distances, columns)`, up to the
        raw response body: a normaliser's `TypeError` is raised before any
        request is sent. */
    method LatestForecast(lat: real, lon: real, predictionDistances: PyValue, columns: PyValue,
                          send: Request -> Response, codec: JsonCodec)
      returns (r: Result<seq<byte>, ClientError>)
      ensures var p := LatestForecastParams(lat, lon, predictionDistances, columns);
        && (p.Failure? ==> r == Failure(ArgumentError(p.error)))
        && (p.Success? ==>
              r == AsClientResult(GetOutcome(send(Request(Url(LatestEndpoint), session.headers, p.value)), codec)))
    {
      var p := LatestForecastParams(lat, lon, predictionDistances, columns);
      if p.Failure? {
        return Failure(ArgumentError(p.error));
      }
      var outcome := Get(LatestEndpoint, p.value, send, codec);
      r := AsClientResult(outcome);
    }

    /** `forecast_history(lat, lon, min_prediction_moment, max_prediction_moment,
        prediction_distances, columns)`, up to the raw response body. */
    method ForecastHistory(lat: real, lon: real, minMoment: PyValue, maxMoment: PyValue,
                           predictionDistances: PyValue, columns: PyValue,
                           send: Request -> Response, codec: JsonCodec)
      returns (r: Result<seq<byte>, ClientError>)
      ensures var p := ForecastHistoryParams(lat, lon, minMoment, maxMoment, predictionDistances, columns);
        && (p.Failure? ==> r == Failure(ArgumentError(p.error)))
        && (p.Success? ==>
              r == AsClientResult(GetOutcome(send(Request(Url(HistoryEndpoint), session.headers, p.value)), codec)))
    {
      var p := ForecastHistoryParams(lat, lon, minMoment, maxMoment, predictionDistances, columns);
      if p.Failure? {
        return Failure(ArgumentError(p.error));
      }
      var outcome := Get(HistoryEndpoint, p.value, send, codec);
      r := AsClientResult(outcome);
    }
  }

  /** ASCII lower case, the comparison HTTP header names are matched by. */
  function AsciiLower(s: string): (r: string)
    ensures |r| == |s|
    ensures forall k :: 0 <= k < |s| ==> r[k] == if 'A' <= s[k] <= 'Z' then (s[k] as int + 32) as char else s[k]
  {
    seq(|s|, k requires 0 <= k < |s| => if 'A' <= s[k] <= 'Z' then (s[k] as int + 32) as char else s[k])
  }

  /** After construction the session carries an Authorization header exactly
      when the resolved key is not `None` (given a library whose own headers
      hold no Authorization header under any spelling), and no other header
      differs from the library's. */
  lemma AuthorizationIffKey(libraryHeaders: map<string, string>, given: Option<string>, config: DefaultConfig)
    requires forall name :: name in libraryHeaders ==> AsciiLower(name) != AsciiLower(AuthorizationHeader)
    ensures var key := ResolveApiKey(given, config.apiKey); var h := SessionHeaders(libraryHeaders, key);
      && (AuthorizationHeader in h <==> key.Some?)
      && (key.Some? ==> h[AuthorizationHeader] == "Bearer " + key.value)
      && h - {AuthorizationHeader} == libraryHeaders
  {
    var key := ResolveApiKey(given, config.apiKey);
    var h := SessionHeaders(libraryHeaders, key);
    assert (h - {AuthorizationHeader}).Keys == libraryHeaders.Keys;
  }

  /** `or` tests truthiness, not `None`: an empty key or URL falls back to the default. */
  lemma EmptyArgumentsFallBack(config: DefaultConfig)
    ensures ResolveApiKey(Some(""), config.apiKey) == config.apiKey
    ensures ResolveBaseUrl(Some(""), config.baseUrl) == config.baseUrl
  {
  }

  /** Every URL the client requests begins with its base URL. */
  lemma UrlStartsWithBase(c: Client, endpoint: string)
    ensures c.baseUrl <= c.Url(endpoint)
  {
  }

  /** A non-ok 429 response is raised as `OverRateLimit`, whose message shows `429`. */
  lemma RateLimitedResponse(response: Response, codec: JsonCodec)
    requires !response.ok && response.statusCode == TooManyRequests
    ensures var r := GetOutcome(response, codec);
      && r.Failure? && r.error.klass == OverRateLimit
      && r.error.message[|StatusLineLead|..|StatusLineLead| + 3] == "429"
  {
    MessageShowsStatusCode(response, codec);
    assert NatToDecimal(4) == "4" && NatToDecimal(42) == "4" + "2";
    assert IntToDecimal(429) == "42" + "9" == "429";
  }

  /** The query examples of the library's tests: a list of distances is sent
      as `0,24`, and a `None` upper moment is sent as a `None` entry (which the
      transport leaves out of the query string). */
  lemma ParameterExamples(lat: real, lon: real, minMoment: string)
    ensures var p := LatestForecastParams(lat, lon, Items([IntElem(0), IntElem(24)]), Absent);
      p.Success? && p.value[2] == ("prediction_distances", Normalized(Some("0,24")))
    ensures var p := ForecastHistoryParams(lat, lon, Str(minMoment), Absent, Absent, Absent);
      && p.Success?
      && p.value[2] == ("min_prediction_moment", Normalized(Some(minMoment)))
      && p.value[3] == ("max_prediction_moment", Normalized(None))
  {
    DistancesExample();
    var p := LatestForecastParams(lat, lon, Items([IntElem(0), IntElem(24)]), Absent);
    assert Names(p.value)[2] == "prediction_distances";
    var q := ForecastHistoryParams(lat, lon, Str(minMoment), Absent, Absent, Absent);
    assert Names(q.value)[2] == "min_prediction_moment" && Names(q.value)[3] == "max_prediction_moment";
  }
}
