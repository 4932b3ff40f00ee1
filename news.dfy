/**
 * The news edge function: it reads a query from the URL (GET) or the body
 * (POST), builds the NewsAPI request, and relays the articles it returns.
 */
module News {
  import opened Wrappers
  import opened Js
  import opened SharedUtils

  /** The `NewsQuery` the handler works from; a field is None when absent. */
  datatype NewsQuery = NewsQuery(
    category: Option<string>, q: Option<string>, country: Option<string>, limit: Option<Num>)

  const EmptyQuery: NewsQuery := NewsQuery(None, None, None, None)

  /** `url.searchParams.get(name)` for the four names read, None when the parameter is absent. */
  datatype SearchParams = SearchParams(
    category: Option<string>, q: Option<string>, country: Option<string>, limit: Option<string>)

  /** `s || undefined`. */
  function OrUndefined(s: Option<string>): (r: Option<string>)
    ensures r.Some? <==> TruthyString(s)
    ensures r.Some? ==> r == s
  {
    if TruthyString(s) then s else None
  }

  /** The query of a GET request. */
  function GetQuery(p: SearchParams): (r: NewsQuery)
    ensures r.category == OrUndefined(p.category) && r.q == OrUndefined(p.q)
    ensures r.country == Some(if TruthyString(p.country) then p.country.value else "us")
    ensures !TruthyString(p.limit) ==> r.limit == Some(Int(10))
    ensures TruthyString(p.limit) ==> r.limit == Some(ParseInt(p.limit.value))
  {
    ParseTen();
    NewsQuery(
      OrUndefined(p.category),
      OrUndefined(p.q),
      Some(if TruthyString(p.country) then p.country.value else "us"),
      Some(ParseInt(if TruthyString(p.limit) then p.limit.value else "10")))
  }

  /** The default "10" parses to ten. */
  lemma ParseTen()
    ensures ParseInt("10") == Int(10)
  {
    assert IntToString(10) == "10" by {
      assert NatToString(10) == NatToString(1) + ['0'];
    }
    ParseIntOfIntToString(10);
  }

  /** A GET with `limit=String(n)`, n non-zero, asks NewsAPI for n articles, capped at 100. */
  lemma GetLimitIsPageSize(p: SearchParams, n: int)
    requires p.limit == Some(IntToString(n)) && n != 0
    ensures PageSize(GetQuery(p).limit) == if n < 100 then n else 100
  {
    ParseIntOfIntToString(n);
  }

  /** `query.country || "us"`. */
  function CountryOf(query: NewsQuery): string {
    if TruthyString(query.country) then query.country.value else "us"
  }

  /** `Math.min(query.limit || 10, 100)`. */
  function PageSize(limit: Option<Num>): (r: int)
    ensures r <= 100
    ensures limit.None? || limit == Some(NaN) || limit == Some(Int(0)) ==> r == 10
    ensures limit.Some? && limit.value.Int? && limit.value.value != 0 ==>
              r == (if limit.value.value < 100 then limit.value.value else 100)
  {
    var n := match limit
      case Some(Int(v)) => if v != 0 then v else 10
      case _ => 10;
    if n < 100 then n else 100
  }

  predicate HasParam(params: seq<(string, string)>, name: string) {
    exists i :: 0 <= i < |params| && params[i].0 == name
  }

  /** The NewsAPI search parameters, in the order the handler appends them. */
  function QueryParams(apiKey: string, query: NewsQuery): (r: seq<(string, string)>)
    ensures |r| == 3 + (if TruthyString(query.category) then 1 else 0) + (if TruthyString(query.q) then 1 else 0)
    ensures r[0] == ("apiKey", apiKey) && r[1] == ("country", CountryOf(query))
    ensures r[2] == ("pageSize", IntToString(PageSize(query.limit)))
    ensures HasParam(r, "category") <==> TruthyString(query.category)
    ensures HasParam(r, "q") <==> TruthyString(query.q)
    ensures forall i :: 0 <= i < |r| && r[i].0 == "category" ==> r[i].1 == query.category.value
    ensures forall i :: 0 <= i < |r| && r[i].0 == "q" ==> r[i].1 == query.q.value
  {
    var base := [("apiKey", apiKey), ("country", CountryOf(query)), ("pageSize", IntToString(PageSize(query.limit)))];
    var withCategory := if TruthyString(query.category) then base + [("category", query.category.value)] else base;
    var r := if TruthyString(query.q) then withCategory + [("q", query.q.value)] else withCategory;
    assert TruthyString(query.category) ==> r[3].0 == "category";
    assert TruthyString(query.q) ==> r[|r| - 1].0 == "q";
    r
  }

  /** `new URLSearchParams({...})` followed by the conditional `append` calls. */
  method BuildParams(apiKey: string, query: NewsQuery) returns (params: seq<(string, string)>)
    ensures params == QueryParams(apiKey, query)
  {
    params := [("apiKey", apiKey), ("country", CountryOf(query)), ("pageSize", IntToString(PageSize(query.limit)))];
    if TruthyString(query.category) {
      params := params + [("category", query.category.value)];
    }
    if TruthyString(query.q) {
      params := params + [("q", query.q.value)];
    }
  }

  const EverythingUrl: string := "https://newsapi.org/v2/everything"
  const TopHeadlinesUrl: string := "https://newsapi.org/v2/top-headlines"

  /** Searching when there is a query text, otherwise the top headlines. */
  function Endpoint(query: NewsQuery): (r: string)
    ensures r == EverythingUrl <==> TruthyString(query.q)
    ensures r == TopHeadlinesUrl <==> !TruthyString(query.q)
  {
    if TruthyString(query.q) then EverythingUrl else TopHeadlinesUrl
  }

  /** The fields of an article the handler passes on. */
  const ArticleFields: set<string> := {
    "title", "description", "url", "urlToImage", "publishedAt", "source", "author", "content"
  }

  /**
   * One element of `data.articles.map(...)` once serialised: the eight fields
   * that are defined. A null element throws (None).
   */
  function ToArticle(article: Json): (r: Option<Json>)
    ensures r.None? <==> article.JNull?
    ensures r.Some? ==> r.value.JObj? && r.value.fields.Keys <= ArticleFields
    ensures r.Some? ==> forall k :: k in ArticleFields ==> Prop(r.value, k) == Prop(article, k)
  {
    if article.JNull? then None
    else Some(JObj(map k | k in Fields(article) && k in ArticleFields :: Fields(article)[k]))
  }

  /** `articles.map(...)`: same length and order; None when some element throws. */
  function MapArticles(xs: seq<Json>): (r: Option<seq<Json>>)
    ensures r.None? <==> exists i :: 0 <= i < |xs| && xs[i].JNull?
    ensures r.Some? ==> |r.value| == |xs|
    ensures r.Some? ==> forall i :: 0 <= i < |xs| ==> ToArticle(xs[i]) == Some(r.value[i])
  {
    if xs == [] then Some([])
    else
      match (ToArticle(xs[0]), MapArticles(xs[1..]))
      case (Some(a), Some(rest)) =>
        assert forall i :: 1 <= i < |xs| ==> xs[i] == xs[1..][i - 1];
        Some([a] + rest)
      case (None, _) => None
      case (_, None) =>
        assert forall i :: 0 <= i < |xs| - 1 ==> xs[1..][i] == xs[i + 1];
        None
  }

  /** The body built from the upstream data; None when reading it throws. */
  function NewsBody(data: Json): (r: Option<Json>)
    ensures r.Some? <==> data.JObj? && "articles" in data.fields && data.fields["articles"].JArr?
                         && MapArticles(data.fields["articles"].items).Some?
    ensures r.Some? ==> r.value.JObj? && r.value.fields.Keys <= {"articles", "totalResults"}
    ensures r.Some? ==> r.value.JObj? && "articles" in r.value.fields && r.value.fields["articles"].JArr?
    ensures r.Some? ==> Prop(r.value, "totalResults") == Prop(data, "totalResults")
    ensures r.Some? ==> MapArticles(data.fields["articles"].items) == Some(r.value.fields["articles"].items)
  {
    match Prop(data, "articles")
    case Some(JArr(xs)) =>
      (match MapArticles(xs)
       case Some(articles) =>
         var total := if "totalResults" in data.fields then map["totalResults" := data.fields["totalResults"]] else map[];
         Some(JObj(map["articles" := JArr(articles)] + total))
       case None => None)
    case _ => None
  }

  /** The result of `fetch` and `response.json()`. */
  datatype NewsUpstream = NewsThrew | NewsNotOk | NewsOk(data: Json)

  /** The request sent to NewsAPI. */
  datatype NewsRequest = NewsRequest(endpoint: string, params: seq<(string, string)>)

  datatype NewsExchange = NewsExchange(response: Response, request: Option<NewsRequest>)

  /** The query for a GET or POST; a POST body that does not parse leaves the query empty. */
  function RequestQuery(req: Request<NewsQuery>, p: SearchParams): NewsQuery {
    if req.verb == "GET" then GetQuery(p) else req.body.GetOr(EmptyQuery)
  }

  /** The `Deno.serve` handler: CORS, key, method, then one upstream call. */
  function HandleNews(req: Request<NewsQuery>, apiKey: Option<string>, p: SearchParams, upstream: NewsUpstream)
    : (r: NewsExchange)
    ensures req.verb == "OPTIONS" ==> r == NewsExchange(CorsPreflight, None)
    ensures req.verb != "OPTIONS" && !TruthyString(apiKey) ==>
              r.request.None? && r.response.status == 500
              && ErrorText(r.response) == Some("News service not configured")
    ensures req.verb !in {"OPTIONS", "GET", "POST"} && TruthyString(apiKey) ==>
              r.request.None? && r.response.status == 405
    ensures r.request.Some? <==> req.verb in {"GET", "POST"} && TruthyString(apiKey)
    ensures r.request.Some? ==>
              var q := RequestQuery(req, p);
              r.request.value == NewsRequest(Endpoint(q), QueryParams(apiKey.value, q))
    ensures r.request.Some? && upstream.NewsNotOk? ==>
              r.response.status == 500 && ErrorText(r.response) == Some("Failed to fetch news")
    ensures r.request.Some? && upstream.NewsOk? && NewsBody(upstream.data).Some? ==>
              r.response == JsonResponse(NewsBody(upstream.data).value, None)
    ensures r.request.Some? && (upstream.NewsThrew? || (upstream.NewsOk? && NewsBody(upstream.data).None?)) ==>
              r.response.status == 500 && ErrorText(r.response) == Some("Internal server error")
  {
    match HandleCors(req.verb)
    case Some(cors) => NewsExchange(cors, None)
    case None =>
      if !TruthyString(apiKey) then
        NewsExchange(ErrorResponse("News service not configured", Some(500), None), None)
      else if req.verb != "GET" && req.verb != "POST" then
        NewsExchange(ErrorResponse("Method not allowed", Some(405), None), None)
      else
        var query := RequestQuery(req, p);
        var request := NewsRequest(Endpoint(query), QueryParams(apiKey.value, query));
        var response :=
          match upstream
          case NewsThrew => ErrorResponse("Internal server error", Some(500), None)
          case NewsNotOk => ErrorResponse("Failed to fetch news", Some(500), None)
          case NewsOk(data) =>
            match NewsBody(data)
            case Some(body) => JsonResponse(body, None)
            case None => ErrorResponse("Internal server error", Some(500), None);
        NewsExchange(response, Some(request))
  }

  /** A POST whose body does not parse asks for the US top headlines, ten to a page. */
  lemma UnparseablePostUsesDefaults(req: Request<NewsQuery>, key: string, p: SearchParams, upstream: NewsUpstream)
    requires req.verb == "POST" && req.body.None? && key != ""
    ensures HandleNews(req, Some(key), p, upstream).request
            == Some(NewsRequest(TopHeadlinesUrl, [("apiKey", key), ("country", "us"), ("pageSize", "10")]))
  {
    assert IntToString(10) == "10" by {
      assert NatToString(10) == NatToString(1) + ['0'];
    }
  }
}
