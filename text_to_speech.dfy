/**
 * The text-to-speech edge function: it validates the text, asks ElevenLabs
 * for the audio, stores it under a fresh name and returns its public URL.
 */
module TextToSpeech {
  import opened Wrappers
  import opened Js
  import opened SharedUtils

  const DefaultVoiceId: string := "21m00Tcm4TlvDq8ikWAM"
  const DefaultModelId: string := "eleven_monolingual_v1"
  const MaxTextLength: int := 5000
  const VoiceUrlPrefix: string := "https://api.elevenlabs.io/v1/text-to-speech/"

  /** `text.length > 5000` for each kind of JSON value `text` can hold. */
  predicate TooLong(text: Json) {
    match text
    case JStr(s) => |s| > MaxTextLength
    case JArr(xs) => |xs| > MaxTextLength
    case JObj(m) => "length" in m && m["length"].JNum? && m["length"].n > MaxTextLength
    case _ => false
  }

  /** The request sent to ElevenLabs (voice settings are left out). */
  datatype TtsRequest = TtsRequest(url: string, text: Json, modelId: string, apiKey: string)

  /** The outcome of the ElevenLabs call. */
  datatype Upstream = TtsThrew | TtsNotOk | TtsOk

  /** The outcome of the storage upload and the public URL storage gives the object. */
  datatype Storage = Storage(uploadOk: bool, publicUrl: string)

  datatype TtsExchange = TtsExchange(response: Response, request: Option<TtsRequest>, stored: Option<string>)

  /** The upstream URL: the voice is its last path segment. */
  function VoiceUrl(voice: Json): (r: string)
    ensures voice.JStr? ==> r == VoiceUrlPrefix + voice.s
  {
    VoiceUrlPrefix + ToJsString(voice)
  }

  /** `audio/${crypto.randomUUID()}.mp3`, for a given UUID. */
  function StoredName(uuid: string): (r: string)
    ensures |r| == |uuid| + 10
    ensures r[..6] == "audio/" && r[|r| - 4..] == ".mp3"
    ensures r[6..|r| - 4] == uuid
  {
    "audio/" + uuid + ".mp3"
  }

  /** The `Deno.serve` handler, with the UUID and the storage outcome given. */
  function HandleSpeech(req: Request<Json>, apiKey: Option<string>, upstream: Upstream, uuid: string, storage: Storage)
    : (r: TtsExchange)
    ensures req.verb == "OPTIONS" ==> r == TtsExchange(CorsPreflight, None, None)
    ensures req.verb != "OPTIONS" && req.verb != "POST" ==>
              r.request.None? && r.response.status == 405
    ensures req.verb == "POST" && !Truthy(ParseRequestBody(req.body)) ==>
              r.request.None? && r.response.status == 400 && ErrorText(r.response) == Some("Invalid request body")
    ensures req.verb == "POST" && Truthy(ParseRequestBody(req.body))
            && !Present(Fields(ParseRequestBody(req.body)), "text") ==>
              r.request.None? && r.response.status == 400
              && ErrorText(r.response) == Some("Missing required field: text")
    ensures req.verb == "POST" && Truthy(ParseRequestBody(req.body))
            && Present(Fields(ParseRequestBody(req.body)), "text")
            && TooLong(Fields(ParseRequestBody(req.body))["text"]) ==>
              r.request.None? && r.response.status == 400
              && ErrorText(r.response) == Some("Text too long. Maximum 5000 characters.")
    ensures req.verb == "POST" && Truthy(ParseRequestBody(req.body))
            && Present(Fields(ParseRequestBody(req.body)), "text")
            && !TooLong(Fields(ParseRequestBody(req.body))["text"]) && !TruthyString(apiKey) ==>
              r.request.None? && r.response.status == 500
              && ErrorText(r.response) == Some("TTS service not configured")
    ensures r.request.Some? <==>
              req.verb == "POST" && Truthy(ParseRequestBody(req.body))
              && Present(Fields(ParseRequestBody(req.body)), "text")
              && !TooLong(Fields(ParseRequestBody(req.body))["text"]) && TruthyString(apiKey)
    ensures r.request.Some? ==>
              var fields := Fields(ParseRequestBody(req.body));
              r.request.value == TtsRequest(
                VoiceUrl(Destructure(fields, "voice", JStr(DefaultVoiceId))),
                fields["text"], DefaultModelId, apiKey.value)
    ensures r.request.Some? && upstream.TtsThrew? ==>
              r.stored.None? && r.response.status == 500 && ErrorText(r.response) == Some("Internal server error")
    ensures r.request.Some? && upstream.TtsNotOk? ==>
              r.stored.None? && r.response.status == 500 && ErrorText(r.response) == Some("TTS generation failed")
    ensures r.stored.Some? <==> r.request.Some? && upstream.TtsOk?
    ensures r.stored.Some? ==> r.stored.value == StoredName(uuid)
    ensures r.stored.Some? && !storage.uploadOk ==>
              r.response.status == 500 && ErrorText(r.response) == Some("Failed to store audio")
    ensures r.stored.Some? && storage.uploadOk ==>
              r.response == JsonResponse(JObj(map["audioUrl" := JStr(storage.publicUrl)]), None)
  {
    match HandleCors(req.verb)
    case Some(cors) => TtsExchange(cors, None, None)
    case None =>
      if req.verb != "POST" then TtsExchange(ErrorResponse("Method not allowed", Some(405), None), None, None)
      else
        var body := ParseRequestBody(req.body);
        if !Truthy(body) then TtsExchange(ErrorResponse("Invalid request body", None, None), None, None)
        else
          ValidationErrorOfOne(Fields(body), "text");
          assert MissingFieldPrefix + "text" == "Missing required field: text";
          match ValidationError(Fields(body), ["text"])
          case Some(message) => TtsExchange(ErrorResponse(message, None, None), None, None)
          case None =>
            var text := Fields(body)["text"];
            var voice := Destructure(Fields(body), "voice", JStr(DefaultVoiceId));
            if TooLong(text) then
              TtsExchange(ErrorResponse("Text too long. Maximum 5000 characters.", None, None), None, None)
            else if !TruthyString(apiKey) then
              TtsExchange(ErrorResponse("TTS service not configured", Some(500), None), None, None)
            else
              var request := TtsRequest(VoiceUrl(voice), text, DefaultModelId, apiKey.value);
              match upstream
              case TtsThrew => TtsExchange(ErrorResponse("Internal server error", Some(500), None), Some(request), None)
              case TtsNotOk => TtsExchange(ErrorResponse("TTS generation failed", Some(500), None), Some(request), None)
              case TtsOk =>
                var name := StoredName(uuid);
                if !storage.uploadOk then
                  TtsExchange(ErrorResponse("Failed to store audio", Some(500), None), Some(request), Some(name))
                else
                  TtsExchange(JsonResponse(JObj(map["audioUrl" := JStr(storage.publicUrl)]), None), Some(request), Some(name))
  }

  /** The length limit is inclusive: 5000 characters pass, 5001 do not. */
  lemma LengthLimitBoundary(s: string)
    ensures |s| == MaxTextLength ==> !TooLong(JStr(s))
    ensures |s| == MaxTextLength + 1 ==> TooLong(JStr(s))
  {
  }

  /** Without a voice in the body, the default voice is the last path segment. */
  lemma DefaultVoiceInUrl(fields: map<string, Json>)
    requires "voice" !in fields
    ensures VoiceUrl(Destructure(fields, "voice", JStr(DefaultVoiceId))) == VoiceUrlPrefix + DefaultVoiceId
  {
  }
}
