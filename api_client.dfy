/**
 * The mobile app's API client: a fetch wrapper that folds every outcome into
 * `{data, error, status}`, clients bound to a base URL and default headers,
 * and the news-service calls with their query defaults.
 */
module ApiClient {
  import opened Wrappers
  import opened Js

  type Headers = map<string, string>

  /** What a `catch` receives: an `Error` with its message, or any other thrown value. */
  datatype Thrown = ErrorValue(message: string) | OtherValue

  /** How the network exchange went, as far as the wrapper can see. */
  datatype Outcome =
    | FetchThrew(thrown: Thrown)
    | NotOk(status: int, text: string)
    | OkBody(status: int, parsed: Result<Json, Thrown>)

  /** `ApiResponse<T>`: `data` is `JNull` when absent, `error` is None for `null`. */
  datatype ApiResponse = ApiResponse(data: Json, error: Option<string>, status: int)

  /** The request an HTTP call sends: `body` is the value handed to `JSON.stringify`. */
  datatype HttpCall = HttpCall(url: string, verb: string, headers: Headers, body: Option<Json>)

  const ContentTypeJson: Headers := map["Content-Type" := "application/json"]

  /** The headers `fetchWithErrorHandling` sends: the built-in Content-Type, then the caller's. */
  function FetchHeaders(headers: Option<Headers>): Headers {
    ContentTypeJson + headers.GetOr(map[])
  }

  /** The text of a caught value. */
  function ThrownMessage(t: Thrown): (r: string)
    ensures t.ErrorValue? ==> r == t.message
    ensures t.OtherValue? ==> r == "Unknown error"
  {
    match t
    case ErrorValue(message) => message
    case OtherValue => "Unknown error"
  }

  /** The result shaping of `fetchWithErrorHandling`. */
  function Shape(outcome: Outcome): (r: ApiResponse)
    ensures outcome.FetchThrew? ==> r == ApiResponse(JNull, Some(ThrownMessage(outcome.thrown)), 0)
    ensures outcome.NotOk? ==>
              r.data == JNull && r.status == outcome.status
              && r.error == Some(if outcome.text == "" then "HTTP " + IntToString(outcome.status) else outcome.text)
    ensures outcome.OkBody? && outcome.parsed.Ok? ==>
              r == ApiResponse(outcome.parsed.value, None, outcome.status)
    ensures outcome.OkBody? && outcome.parsed.Err? ==>
              r == ApiResponse(JNull, Some(ThrownMessage(outcome.parsed.error)), 0)
    ensures r.error.None? <==> outcome.OkBody? && outcome.parsed.Ok?
  {
    match outcome
    case FetchThrew(thrown) => ApiResponse(JNull, Some(ThrownMessage(thrown)), 0)
    case NotOk(status, text) =>
      ApiResponse(JNull, Some(if text != "" then text else "HTTP " + IntToString(status)), status)
    case OkBody(status, parsed) =>
      match parsed
      case Ok(data) => ApiResponse(data, None, status)
      case Err(thrown) => ApiResponse(JNull, Some(ThrownMessage(thrown)), 0)
  }

  /** Every failure leaves `data` null, and a non-ok reply always carries a non-empty error. */
  lemma FailureHasNoData(outcome: Outcome)
    ensures Shape(outcome).error.Some? ==> Shape(outcome).data == JNull
    ensures outcome.NotOk? ==> Shape(outcome).error.Some? && Shape(outcome).error.value != ""
  {
  }

  /** The configuration `createApiClient` closes over (the abort timeout is not modelled). */
  datatype Client = Client(baseUrl: string, defaultHeaders: Option<Headers>)

  /** `{ ...defaultHeaders, ...headers }`: a spread of `undefined` adds nothing. */
  function CallHeaders(client: Client, headers: Option<Headers>): Headers {
    client.defaultHeaders.GetOr(map[]) + headers.GetOr(map[])
  }

  /** The call `verb` sends through `fetchWithErrorHandling`. */
  function Send(client: Client, verb: string, endpoint: string, body: Option<Json>, headers: Option<Headers>)
    : (r: HttpCall)
    ensures r.url == client.baseUrl + endpoint
    ensures r.verb == verb && r.body == body
    ensures r.headers.Keys == ContentTypeJson.Keys + client.defaultHeaders.GetOr(map[]).Keys + headers.GetOr(map[]).Keys
  {
    HttpCall(client.baseUrl + endpoint, verb, FetchHeaders(Some(CallHeaders(client, headers))), body)
  }

  function Get(client: Client, endpoint: string, headers: Option<Headers>): (r: HttpCall)
    ensures r.url == client.baseUrl + endpoint && r.verb == "GET" && r.body.None?
  {
    Send(client, "GET", endpoint, None, headers)
  }

  function Post(client: Client, endpoint: string, body: Json, headers: Option<Headers>): (r: HttpCall)
    ensures r.url == client.baseUrl + endpoint && r.verb == "POST" && r.body == Some(body)
  {
    Send(client, "POST", endpoint, Some(body), headers)
  }

  function Put(client: Client, endpoint: string, body: Json, headers: Option<Headers>): (r: HttpCall)
    ensures r.url == client.baseUrl + endpoint && r.verb == "PUT" && r.body == Some(body)
  {
    Send(client, "PUT", endpoint, Some(body), headers)
  }

  function Delete(client: Client, endpoint: string, headers: Option<Headers>): (r: HttpCall)
    ensures r.url == client.baseUrl + endpoint && r.verb == "DELETE" && r.body.None?
  {
    Send(client, "DELETE", endpoint, None, headers)
  }

  /**
   * Header precedence: a per-call header wins over the client's default, which
   * wins over the built-in `Content-Type: application/json`.
   */
  lemma HeaderPrecedence(client: Client, verb: string, endpoint: string, body: Option<Json>,
                         headers: Option<Headers>, key: string)
    ensures var sent := Send(client, verb, endpoint, body, headers).headers;
            var defaults := client.defaultHeaders.GetOr(map[]);
            var perCall := headers.GetOr(map[]);
            (key in perCall ==> sent[key] == perCall[key])
            && (key !in perCall && key in defaults ==> sent[key] == defaults[key])
            && (key !in perCall && key !in defaults && key == "Content-Type" ==> sent[key] == "application/json")
            && (key in sent <==> key in perCall || key in defaults || key == "Content-Type")
  {
  }

  const NewsApiBase: string := "https://newsapi.org/v2"

  /** The `newsApi` client: its key header falls back to '' when unset. */
  function NewsApi(newsApiKey: Option<string>): (r: Client)
    ensures r.baseUrl == NewsApiBase
    ensures r.defaultHeaders == Some(map["X-Api-Key" := if TruthyString(newsApiKey) then newsApiKey.value else ""])
  {
    Client(NewsApiBase, Some(map["X-Api-Key" := OrEmpty(newsApiKey)]))
  }

  /** The `edgeFunctions` client: an unset project URL is interpolated as "undefined". */
  function EdgeFunctions(supabaseUrl: Option<string>, anonKey: Option<string>): (r: Client)
    ensures r.baseUrl == (if supabaseUrl.Some? then supabaseUrl.value else "undefined") + "/functions/v1"
    ensures r.defaultHeaders == Some(map["apikey" := if TruthyString(anonKey) then anonKey.value else ""])
  {
    Client((if supabaseUrl.Some? then supabaseUrl.value else "undefined") + "/functions/v1",
           Some(map["apikey" := OrEmpty(anonKey)]))
  }

  /** `value || ''` for an optional string. */
  function OrEmpty(value: Option<string>): string {
    if TruthyString(value) then value.value else ""
  }

  /** `value || fallback` for an optional string. */
  function OrDefault(value: Option<string>, fallback: string): (r: string)
    ensures TruthyString(value) ==> r == value.value
    ensures value.None? || value == Some("") ==> r == fallback
  {
    if TruthyString(value) then value.value else fallback
  }

  /** `String(pageSize || 10)`: absent and 0 both give 10. */
  function PageSizeParam(pageSize: Option<int>): (r: string)
    ensures pageSize.None? || pageSize == Some(0) ==> r == "10"
    ensures pageSize.Some? && pageSize.value != 0 ==> r == IntToString(pageSize.value)
  {
    IntToString(if pageSize.Some? && pageSize.value != 0 then pageSize.value else 10)
  }

  datatype HeadlineOptions = HeadlineOptions(country: Option<string>, category: Option<string>, pageSize: Option<int>)
  datatype SearchOptions = SearchOptions(sortBy: Option<string>, pageSize: Option<int>)

  /** The parameters of `getHeadlines`, in insertion order. */
  function HeadlineParams(options: Option<HeadlineOptions>): (r: seq<(string, string)>)
    ensures |r| == 3 && r[0].0 == "country" && r[1].0 == "category" && r[2].0 == "pageSize"
    ensures options.None? ==> r == [("country", "us"), ("category", "general"), ("pageSize", "10")]
    ensures options.Some? ==>
              r[0].1 == OrDefault(options.value.country, "us")
              && r[1].1 == OrDefault(options.value.category, "general")
              && r[2].1 == PageSizeParam(options.value.pageSize)
  {
    match options
    case None => [("country", "us"), ("category", "general"), ("pageSize", PageSizeParam(None))]
    case Some(o) =>
      [("country", OrDefault(o.country, "us")), ("category", OrDefault(o.category, "general")),
       ("pageSize", PageSizeParam(o.pageSize))]
  }

  /** The parameters of `searchNews`, in insertion order: the query always comes first. */
  function SearchParams(query: string, options: Option<SearchOptions>): (r: seq<(string, string)>)
    ensures |r| == 3 && r[0] == ("q", query) && r[1].0 == "sortBy" && r[2].0 == "pageSize"
    ensures options.None? ==> r[1].1 == "publishedAt" && r[2].1 == "10"
    ensures options.Some? ==>
              r[1].1 == OrDefault(options.value.sortBy, "publishedAt")
              && r[2].1 == PageSizeParam(options.value.pageSize)
  {
    match options
    case None => [("q", query), ("sortBy", "publishedAt"), ("pageSize", PageSizeParam(None))]
    case Some(o) => [("q", query), ("sortBy", OrDefault(o.sortBy, "publishedAt")), ("pageSize", PageSizeParam(o.pageSize))]
  }

  /** `URLSearchParams` serialised as `k=v` pairs joined by '&' (percent-encoding is not modelled). */
  function QueryString(params: seq<(string, string)>): string {
    if params == [] then ""
    else if |params| == 1 then params[0].0 + "=" + params[0].1
    else params[0].0 + "=" + params[0].1 + "&" + QueryString(params[1..])
  }

  function GetHeadlines(newsApiKey: Option<string>, options: Option<HeadlineOptions>): (r: HttpCall)
    ensures r.verb == "GET"
    ensures r.url == NewsApiBase + "/top-headlines?" + QueryString(HeadlineParams(options))
  {
    Get(NewsApi(newsApiKey), "/top-headlines?" + QueryString(HeadlineParams(options)), None)
  }

  function SearchNews(newsApiKey: Option<string>, query: string, options: Option<SearchOptions>): (r: HttpCall)
    ensures r.verb == "GET"
    ensures r.url == NewsApiBase + "/everything?" + QueryString(SearchParams(query, options))
  {
    Get(NewsApi(newsApiKey), "/everything?" + QueryString(SearchParams(query, options)), None)
  }

  /** The serialised default headline parameters. */
  lemma DefaultHeadlineQuery()
    ensures QueryString([("country", "us"), ("category", "general"), ("pageSize", "10")])
            == "country=us&category=general&pageSize=10"
  {
    var params := [("country", "us"), ("category", "general"), ("pageSize", "10")];
    assert params[1..] == [("category", "general"), ("pageSize", "10")];
    assert params[1..][1..] == [("pageSize", "10")];
  }

  /** With no options, the headlines call asks for ten general US headlines. */
  lemma HeadlineDefaults(newsApiKey: Option<string>)
    ensures GetHeadlines(newsApiKey, None).url
            == NewsApiBase + "/top-headlines?" + "country=us&category=general&pageSize=10"
  {
    DefaultHeadlineQuery();
  }
}
