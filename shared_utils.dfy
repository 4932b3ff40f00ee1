/**
 * The helpers every edge function shares: the CORS preflight, the JSON and
 * error response builders, body parsing, bearer-token extraction and the
 * required-field check.
 */
module SharedUtils {
  import opened Wrappers
  import opened Js

  /** The CORS headers attached to every edge-function response. */
  const CorsHeaders: map<string, string> := map[
    "Access-Control-Allow-Origin" := "*",
    "Access-Control-Allow-Headers" := "authorization, x-client-info, apikey, content-type",
    "Access-Control-Allow-Methods" := "POST, GET, OPTIONS"
  ]

  /** CORS headers plus the JSON content type. */
  const JsonHeaders: map<string, string> := CorsHeaders["Content-Type" := "application/json"]

  datatype Body = Text(text: string) | JsonBody(value: Json)

  datatype Response = Response(status: int, headers: map<string, string>, body: Body)

  /**
   * An incoming request. `body` is what the body parses to as JSON;
   * None when it does not parse.
   */
  datatype Request<B> = Request(verb: string, authorization: Option<string>, body: Option<B>)

  /** `new Response("ok", { headers: corsHeaders })`: status defaults to 200. */
  const CorsPreflight: Response := Response(200, CorsHeaders, Text("ok"))

  /** `handleCors`: the preflight response for OPTIONS, null for every other method. */
  function HandleCors(verb: string): (r: Option<Response>)
    ensures r.Some? <==> verb == "OPTIONS"
    ensures r.Some? ==> r.value.status == 200 && r.value.headers == CorsHeaders
  {
    if verb == "OPTIONS" then Some(CorsPreflight) else None
  }

  /** `jsonResponse(data, status = 200)`. */
  function JsonResponse(data: Json, status: Option<int>): (r: Response)
    ensures r.status == (if status.Some? then status.value else 200)
    ensures r.body == JsonBody(data)
    ensures r.headers.Keys == CorsHeaders.Keys + {"Content-Type"}
    ensures r.headers["Content-Type"] == "application/json"
    ensures forall k :: k in CorsHeaders ==> r.headers[k] == CorsHeaders[k]
  {
    Response(status.GetOr(200), JsonHeaders, JsonBody(data))
  }

  /** `errorResponse(error, status = 400, details?)`: `details` is added only when truthy. */
  function ErrorResponse(error: string, status: Option<int>, details: Option<string>): (r: Response)
    ensures r.status == (if status.Some? then status.value else 400)
    ensures r.headers == JsonHeaders
    ensures r.body.JsonBody? && r.body.value.JObj?
    ensures Prop(r.body.value, "error") == Some(JStr(error))
    ensures "details" in r.body.value.fields <==> TruthyString(details)
    ensures TruthyString(details) ==> r.body.value.fields["details"] == JStr(details.value)
    ensures r.body.value.fields.Keys <= {"error", "details"}
  {
    var body := map["error" := JStr(error)];
    var body := if TruthyString(details) then body["details" := JStr(details.value)] else body;
    Response(status.GetOr(400), JsonHeaders, JsonBody(JObj(body)))
  }

  /** The error text of a response built by ErrorResponse, for stating handler contracts. */
  function ErrorText(r: Response): Option<string> {
    if r.body.JsonBody? && r.body.value.JObj? && "error" in r.body.value.fields
       && r.body.value.fields["error"].JStr?
    then Some(r.body.value.fields["error"].s)
    else None
  }

  /** `parseRequestBody`: a body that fails to parse yields null instead of throwing. */
  function ParseRequestBody(parsed: Option<Json>): (r: Json)
    ensures parsed.None? ==> r == JNull
    ensures parsed.Some? ==> r == parsed.value
  {
    match parsed
    case None => JNull
    case Some(v) => v
  }

  const BearerPrefix: string := "Bearer "

  /** `getAuthToken`: the Authorization header without its "Bearer " prefix. */
  function GetAuthToken(authorization: Option<string>): (r: Option<string>)
    ensures r.Some? <==> authorization.Some? && |authorization.value| >= 7
                         && authorization.value[..7] == BearerPrefix
    ensures r.Some? ==> authorization.value == BearerPrefix + r.value
  {
    if authorization.Some? && |authorization.value| >= 7 && authorization.value[..7] == BearerPrefix
    then Some(authorization.value[7..])
    else None
  }

  lemma GetAuthTokenRoundTrip(token: string)
    ensures GetAuthToken(Some(BearerPrefix + token)) == Some(token)
  {
    assert (BearerPrefix + token)[..7] == BearerPrefix;
    assert (BearerPrefix + token)[7..] == token;
  }

  /** A field passes `validateRequired` when it is present and truthy. */
  predicate Present(data: map<string, Json>, field: string) {
    field in data && Truthy(data[field])
  }

  const MissingFieldPrefix: string := "Missing required field: "

  /** The position of the first field in `fields` that is absent or falsy in `data`. */
  function FirstMissing(data: map<string, Json>, fields: seq<string>): (r: Option<nat>)
    ensures r.Some? ==> r.value < |fields| && !Present(data, fields[r.value])
    ensures r.Some? ==> forall j :: 0 <= j < r.value ==> Present(data, fields[j])
    ensures r.None? <==> forall j :: 0 <= j < |fields| ==> Present(data, fields[j])
  {
    if fields == [] then None
    else if !Present(data, fields[0]) then Some(0)
    else
      match FirstMissing(data, fields[1..])
      case None => None
      case Some(i) => Some(i + 1)
  }

  /** What `validateRequired` returns: the message for the first missing field, or null. */
  function ValidationError(data: map<string, Json>, fields: seq<string>): Option<string> {
    match FirstMissing(data, fields)
    case None => None
    case Some(i) => Some(MissingFieldPrefix + fields[i])
  }

  /** With a single required field, the message names it exactly when it is missing. */
  lemma ValidationErrorOfOne(data: map<string, Json>, field: string)
    ensures ValidationError(data, [field]) == if Present(data, field) then None else Some(MissingFieldPrefix + field)
  {
  }

  /** `validateRequired`: one pass over `fields` in order, returning at the first missing one. */
  method ValidateRequired(data: map<string, Json>, fields: seq<string>) returns (r: Option<string>)
    ensures r == ValidationError(data, fields)
    ensures r.None? <==> forall j :: 0 <= j < |fields| ==> Present(data, fields[j])
    ensures r.Some? ==> exists i :: 0 <= i < |fields| && !Present(data, fields[i])
                         && (forall j :: 0 <= j < i ==> Present(data, fields[j]))
                         && r.value == MissingFieldPrefix + fields[i]
  {
    var i := 0;
    while i < |fields|
      invariant 0 <= i <= |fields|
      invariant forall j :: 0 <= j < i ==> Present(data, fields[j])
    {
      if !(fields[i] in data && Truthy(data[fields[i]])) {
        return Some(MissingFieldPrefix + fields[i]);
      }
      i := i + 1;
    }
    return None;
  }
}
