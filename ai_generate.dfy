/**
 * The AI text generation edge function: it validates the body, fills in
 * defaults, sends one chat completion request and reshapes the answer.
 */
module AiGenerate {
  import opened Wrappers
  import opened Js
  import opened SharedUtils

  const DefaultModel: string := "gpt-4-turbo-preview"
  const DefaultMaxTokens: int := 1000
  const DefaultSystemPrompt: string := "You are a helpful assistant."

  datatype Message = Message(role: string, content: Json)

  /** The chat completion request sent upstream (temperature is left out). */
  datatype ChatRequest = ChatRequest(model: Json, messages: seq<Message>, maxTokens: Json, authorization: string)

  /** The result of `fetch` and `response.json()`. */
  datatype Upstream = AiThrew | AiNotOk | AiOk(data: Json)

  datatype AiExchange = AiExchange(response: Response, request: Option<ChatRequest>)

  /** The chat request built from a validated body and the API key. */
  function ChatRequestFor(body: Json, apiKey: string): (r: ChatRequest)
    ensures |r.messages| == 2
    ensures r.messages[0] == Message("system", Destructure(Fields(body), "systemPrompt", JStr(DefaultSystemPrompt)))
    ensures r.messages[1].role == "user"
    ensures "prompt" in Fields(body) ==> r.messages[1].content == Fields(body)["prompt"]
    ensures "model" in Fields(body) ==> r.model == Fields(body)["model"]
    ensures "model" !in Fields(body) ==> r.model == JStr(DefaultModel)
    ensures "maxTokens" in Fields(body) ==> r.maxTokens == Fields(body)["maxTokens"]
    ensures "maxTokens" !in Fields(body) ==> r.maxTokens == JNum(DefaultMaxTokens)
    ensures r.authorization == BearerPrefix + apiKey
  {
    var fields := Fields(body);
    ChatRequest(
      Destructure(fields, "model", JStr(DefaultModel)),
      [ Message("system", Destructure(fields, "systemPrompt", JStr(DefaultSystemPrompt))),
        Message("user", if "prompt" in fields then fields["prompt"] else JNull) ],
      Destructure(fields, "maxTokens", JNum(DefaultMaxTokens)),
      BearerPrefix + apiKey)
  }

  /** `choices[0]` on a value that is not null or undefined. */
  function FirstElement(choices: Json): (r: Option<Json>)
    ensures choices.JArr? ==> (r.Some? <==> |choices.items| > 0)
    ensures choices.JArr? && |choices.items| > 0 ==> r == Some(choices.items[0])
  {
    match choices
    case JArr(xs) => if |xs| > 0 then Some(xs[0]) else None
    case JObj(m) => if "0" in m then Some(m["0"]) else None
    case JStr(s) => if |s| > 0 then Some(JStr([s[0]])) else None
    case _ => None
  }

  /** `v?.key`: undefined when `v` is null or undefined. */
  function OptionalProp(v: Option<Json>, key: string): Option<Json> {
    if v.None? || v.value.JNull? then None else Prop(v.value, key)
  }

  /** `data.choices[0]?.message?.content || ""`; None when `data.choices[0]` throws. */
  function ResponseText(data: Json): (r: Option<Json>)
    ensures r.Some? ==> Truthy(r.value) || r.value == JStr("")
    ensures r.None? <==> data.JNull? || Prop(data, "choices").None? || Prop(data, "choices") == Some(JNull)
    ensures data.JObj? && "choices" in data.fields && data.fields["choices"] == JArr([]) ==> r == Some(JStr(""))
    ensures data.JObj? && "choices" in data.fields && data.fields["choices"].JArr?
            && |data.fields["choices"].items| > 0 ==>
              var message := Prop(data.fields["choices"].items[0], "message");
              var content := if message.Some? then Prop(message.value, "content") else None;
              r == Some(if content.Some? && Truthy(content.value) then content.value else JStr(""))
  {
    if data.JNull? then None
    else
      match Prop(data, "choices")
      case None => None
      case Some(choices) =>
        if choices.JNull? then None
        else
          var content := OptionalProp(OptionalProp(FirstElement(choices), "message"), "content");
          Some(if TruthyOpt(content) then content.value else JStr(""))
  }

  /** The upstream usage fields and the names the response gives them. */
  const UsageNames: seq<(string, string)> := [
    ("prompt_tokens", "promptTokens"),
    ("completion_tokens", "completionTokens"),
    ("total_tokens", "totalTokens")
  ]

  /** `data.usage ? { promptTokens: ..., ... } : undefined`, once serialised. */
  function UsageOf(data: Json): (r: Option<Json>)
    ensures r.Some? <==> TruthyOpt(Prop(data, "usage"))
    ensures r.Some? ==> r.value.JObj? && r.value.fields.Keys <= {"promptTokens", "completionTokens", "totalTokens"}
    ensures r.Some? ==> forall i :: 0 <= i < |UsageNames| ==>
              Prop(r.value, UsageNames[i].1) == Prop(Prop(data, "usage").value, UsageNames[i].0)
  {
    match Prop(data, "usage")
    case Some(usage) =>
      if !Truthy(usage) then None
      else
        var u := Fields(usage);
        Some(JObj(map k | k in {"promptTokens", "completionTokens", "totalTokens"}
                          && UpstreamName(k) in u :: u[UpstreamName(k)]))
    case None => None
  }

  /** The upstream name of a response usage field. */
  function UpstreamName(k: string): string {
    if k == "promptTokens" then "prompt_tokens"
    else if k == "completionTokens" then "completion_tokens"
    else "total_tokens"
  }

  /** The generated body `{ text, usage }`; None when reading the upstream data throws. */
  function GenerateBody(data: Json): (r: Option<Json>)
    ensures r.Some? <==> ResponseText(data).Some?
    ensures r.Some? ==> r.value.JObj? && Prop(r.value, "text") == ResponseText(data)
    ensures r.Some? ==> Prop(r.value, "usage") == UsageOf(data)
  {
    match ResponseText(data)
    case None => None
    case Some(text) =>
      var usage := UsageOf(data);
      var base := map["text" := text];
      Some(JObj(if usage.Some? then base["usage" := usage.value] else base))
  }

  /** The `Deno.serve` handler. */
  function HandleGenerate(req: Request<Json>, apiKey: Option<string>, upstream: Upstream): (r: AiExchange)
    ensures req.verb == "OPTIONS" ==> r == AiExchange(CorsPreflight, None)
    ensures req.verb != "OPTIONS" && req.verb != "POST" ==>
              r.request.None? && r.response.status == 405
    ensures req.verb == "POST" && !Truthy(ParseRequestBody(req.body)) ==>
              r.request.None? && r.response.status == 400 && ErrorText(r.response) == Some("Invalid request body")
    ensures req.verb == "POST" && Truthy(ParseRequestBody(req.body))
            && !Present(Fields(ParseRequestBody(req.body)), "prompt") ==>
              r.request.None? && r.response.status == 400
              && ErrorText(r.response) == Some("Missing required field: prompt")
    ensures req.verb == "POST" && Truthy(ParseRequestBody(req.body))
            && Present(Fields(ParseRequestBody(req.body)), "prompt") && !TruthyString(apiKey) ==>
              r.request.None? && r.response.status == 500
              && ErrorText(r.response) == Some("AI service not configured")
    ensures r.request.Some? <==>
              req.verb == "POST" && Truthy(ParseRequestBody(req.body))
              && Present(Fields(ParseRequestBody(req.body)), "prompt") && TruthyString(apiKey)
    ensures r.request.Some? ==> r.request.value == ChatRequestFor(ParseRequestBody(req.body), apiKey.value)
    ensures r.request.Some? && upstream.AiNotOk? ==>
              r.response.status == 500 && ErrorText(r.response) == Some("AI generation failed")
    ensures r.request.Some? && upstream.AiOk? && GenerateBody(upstream.data).Some? ==>
              r.response == JsonResponse(GenerateBody(upstream.data).value, None)
    ensures r.request.Some? && (upstream.AiThrew? || (upstream.AiOk? && GenerateBody(upstream.data).None?)) ==>
              r.response.status == 500 && ErrorText(r.response) == Some("Internal server error")
  {
    match HandleCors(req.verb)
    case Some(cors) => AiExchange(cors, None)
    case None =>
      if req.verb != "POST" then AiExchange(ErrorResponse("Method not allowed", Some(405), None), None)
      else
        var body := ParseRequestBody(req.body);
        if !Truthy(body) then AiExchange(ErrorResponse("Invalid request body", None, None), None)
        else
          ValidationErrorOfOne(Fields(body), "prompt");
          assert MissingFieldPrefix + "prompt" == "Missing required field: prompt";
          match ValidationError(Fields(body), ["prompt"])
          case Some(message) => AiExchange(ErrorResponse(message, None, None), None)
          case None =>
            if !TruthyString(apiKey) then
              AiExchange(ErrorResponse("AI service not configured", Some(500), None), None)
            else
              var request := ChatRequestFor(body, apiKey.value);
              var response :=
                match upstream
                case AiThrew => ErrorResponse("Internal server error", Some(500), None)
                case AiNotOk => ErrorResponse("AI generation failed", Some(500), None)
                case AiOk(data) =>
                  match GenerateBody(data)
                  case Some(b) => JsonResponse(b, None)
                  case None => ErrorResponse("Internal server error", Some(500), None);
              AiExchange(response, Some(request))
  }

  /** A completion shaped as the chat API returns it yields the assistant's content. */
  lemma CompletionText(content: string)
    requires content != ""
    ensures var choice := JObj(map[
              "index" := JNum(0),
              "message" := JObj(map["role" := JStr("assistant"), "content" := JStr(content)]),
              "finish_reason" := JStr("stop")]);
            ResponseText(JObj(map["choices" := JArr([choice])])) == Some(JStr(content))
  {
  }

  /** A body with only a prompt is sent with the default model, token limit and system prompt. */
  lemma DefaultsForPromptOnly(prompt: string, key: string, upstream: Upstream)
    requires prompt != "" && key != ""
    ensures var r := HandleGenerate(Request("POST", None, Some(JObj(map["prompt" := JStr(prompt)]))), Some(key), upstream);
            r.request == Some(ChatRequest(
              JStr(DefaultModel),
              [Message("system", JStr(DefaultSystemPrompt)), Message("user", JStr(prompt))],
              JNum(DefaultMaxTokens),
              BearerPrefix + key))
  {
  }
}
