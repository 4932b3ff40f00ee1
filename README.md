# Template app core, modelled in Dafny

This project models the logic of a React Native / Next.js / Supabase starter
app. It covers four kinds of code:

- **Supabase edge functions.** These are the shared helpers plus the handlers
  for AI text generation, text-to-speech, news and the RevenueCat webhook. They
  check the method, validate the body, call one upstream service and shape the
  response. The webhook also finds or creates a row in the `subscriptions`
  table.
- **The web app's waitlist route.** It validates an e-mail address with a
  regular expression and answers 400, 200 or 500.
- **The mobile client library.** This covers the fetch wrapper and API clients,
  RevenueCat key selection and entitlement checks, and the root layout's
  auth-guard redirect.
- **Two stateful UI components.** These are the paywall modal and the web
  waitlist form. Each is a class whose fields are the component's React state.

Every network, database, SDK or environment access becomes a parameter: an
optional environment value, an upstream outcome datatype, or a database
outcome record. Handlers are functions from the request and these outcomes to
the response, and to the request sent upstream where there is one. State lives
in a class only when the source updates it in place:

- the webhook's tables (`RevenueCatWebhook.SubscriptionStore`);
- the paywall's state (`Paywall.PaywallModal`);
- the waitlist form's state (`WaitlistForm.Form`).

The UI handlers are split at their `await`. A Start method makes the updates
made before the SDK call or request. A Finish method makes the updates made
after it, and takes the outcome as a parameter.

Two modules hold what several files share:

- `Wrappers` has `Option` and `Result`.
- `Js` models the JavaScript semantics the handlers rely on:
  - JSON values and truthiness;
  - property access and destructuring defaults;
  - `String(v)` coercion;
  - `parseInt`.

## Model

| member | source | states |
|---|---|---|
| SharedUtils.HandleCors | supabase/functions/_shared/utils.ts:37-42 | a preflight response exists exactly for OPTIONS; it is status 200 with exactly the CORS headers |
| SharedUtils.JsonResponse | supabase/functions/_shared/utils.ts:69-80 | status defaults to 200; the headers are the three CORS headers plus `Content-Type: application/json`; the body is the data |
| SharedUtils.ErrorResponse | supabase/functions/_shared/utils.ts:82-97 | status defaults to 400; the body's `error` is the message; `details` is present exactly when details is a non-empty string; no other keys |
| SharedUtils.ParseRequestBody | supabase/functions/_shared/utils.ts:103-109 | a body that fails to parse becomes null; otherwise the parsed value |
| SharedUtils.GetAuthToken | supabase/functions/_shared/utils.ts:111-117 | a token exists exactly when the header starts with "Bearer "; the header is then the prefix followed by the token |
| SharedUtils.GetAuthTokenRoundTrip | supabase/functions/_shared/utils.ts:111-117 | "Bearer " + t yields t back, for every t |
| SharedUtils.FirstMissing | supabase/functions/_shared/utils.ts:123-133 | the index found is a field with a falsy value, and every earlier field is truthy; none is found exactly when all fields are truthy |
| SharedUtils.ValidationError | supabase/functions/_shared/utils.ts:123-133 | the definition `validateRequired` is specified by: the first missing field's message, or null. `SharedUtils.ValidateRequired` and `SharedUtils.ValidationErrorOfOne` state its meaning |
| SharedUtils.ValidationErrorOfOne | supabase/functions/_shared/utils.ts:127-131 | for one field: no error when its value is truthy, otherwise "Missing required field: " + field |
| SharedUtils.ValidateRequired | supabase/functions/_shared/utils.ts:123-133 | the loop returns the message for the first missing field; null exactly when every field is truthy |
| Js.ParseIntOfIntToString | supabase/functions/news/index.ts:64 | `parseInt(String(n))` is n for every integer n |
| Js.ParseInt | supabase/functions/news/index.ts:64 | `parseInt(s)`: leading JS whitespace is skipped, then an optional sign, an optional 0x prefix and the longest digit run; no digit gives NaN. Its meaning is stated by `Js.ParseIntOfIntToString`, `Js.ParseIntOfDigits` and `Js.ParseIntOfNegative` |
| Js.DigitsValueOfNat | supabase/functions/news/index.ts:64 | the decimal digits of n read back as a number give n |
| Js.ParseIntOfDigits | supabase/functions/news/index.ts:64 | an unsigned run of decimal digits parses to its value |
| Js.ParseIntOfNegative | supabase/functions/news/index.ts:64 | "-" followed by decimal digits parses to minus their value |
| RevenueCatWebhook.ResolveStatus | supabase/functions/revenuecat-webhook/index.ts:83-97 | for each of the 11 event types, the mapped status: active for 7 types, canceled for 2, past_due only for BILLING_ISSUE, expired only for EXPIRATION; any other type gives "unknown" |
| RevenueCatWebhook.IsSandbox | supabase/functions/revenuecat-webhook/index.ts:98 | the definition of the sandbox flag: the environment is not PRODUCTION. `ApplyEvent` and `NewRow` state that the rows carry it |
| RevenueCatWebhook.ExpirationDate | supabase/functions/revenuecat-webhook/index.ts:115-117 | an absent or zero expiration time is stored as null; any other value is kept |
| RevenueCatWebhook.ExpirationThrows | supabase/functions/revenuecat-webhook/index.ts:115-117 | the definition of when `toISOString` throws a RangeError: a non-zero time beyond 8.64e15 ms either way. `Upsert` states that such a delivery writes nothing and fails with 500 |
| RevenueCatWebhook.ApplyEvent | supabase/functions/revenuecat-webhook/index.ts:109-126 | the update keeps the user, customer id and original purchase date. It overwrites the status with the mapped one, product_identifier with the event's product id, entitlements with its entitlement ids, and the expiration. is_sandbox is set exactly when the environment is not PRODUCTION. The metadata becomes the event's transaction id, store, period type and type |
| RevenueCatWebhook.NewRow | supabase/functions/revenuecat-webhook/index.ts:143-162 | an inserted row carries the customer id, the linked profile and the current time as original purchase date. It also carries the mapped status, the expiration, the event's product id and entitlement ids, and is_sandbox exactly when the environment is not PRODUCTION. The metadata is the event's transaction id, store, period type and type |
| RevenueCatWebhook.LinkedUser | supabase/functions/revenuecat-webhook/index.ts:137-146 | the new row's user is the profile whose Clerk id is the customer id, when the select succeeded and the id is non-empty; otherwise null |
| RevenueCatWebhook.Found | supabase/functions/revenuecat-webhook/index.ts:101-107 | the definition of when `.single()` yields a row: the select succeeds and exactly one row matches. `Upsert` states that this is when the update branch is taken |
| RevenueCatWebhook.Upsert | supabase/functions/revenuecat-webhook/index.ts:101-171 | profiles never change. The answer is 200 {success: true} exactly when the write succeeds and the expiration date does not throw; otherwise it is 500 and the tables are unchanged. Ids stay below the counter. A found row is the only row that changes. Otherwise exactly one row is inserted under a fresh id |
| RevenueCatWebhook.UpdateOnlyMatch | supabase/functions/revenuecat-webhook/index.ts:109-126 | when exactly one row has the customer id, the update by that row's id changes exactly the rows matching the customer |
| RevenueCatWebhook.Gate | supabase/functions/revenuecat-webhook/index.ts:49-71 | in order: OPTIONS gives the preflight, any other non-POST 405, a secret mismatch 401 and an absent event 400. The event is handed on exactly when all checks pass |
| RevenueCatWebhook.Authorized | supabase/functions/revenuecat-webhook/index.ts:58-65 | the definition of the secret check: no secret configured, or the Authorization header equals "Bearer " followed by the secret. `Gate` states that failing it gives 401 |
| RevenueCatWebhook.HandleWebhook | supabase/functions/revenuecat-webhook/index.ts:47-176 | a request the gate rejects changes no table and gets the gate's response; otherwise it is the find-or-create step |
| RevenueCatWebhook.UpsertPreservesUnique | supabase/functions/revenuecat-webhook/index.ts:101-168 | at most one row per customer id stays true after a delivery, when the lookup succeeded or the customer had no row |
| RevenueCatWebhook.HandlePreservesUnique | supabase/functions/revenuecat-webhook/index.ts:47-176 | the same for a whole request, whatever the gate decides |
| RevenueCatWebhook.LookupFailureDuplicatesRow | supabase/functions/revenuecat-webhook/index.ts:101-168 | a failed lookup for a customer that already has a row inserts a second row for the same customer |
| RevenueCatWebhook.ExpirationExample | supabase/functions/revenuecat-webhook/index.ts:107-131 | an EXPIRATION event for an existing row sets it to expired with the event's expiration time, and inserts nothing |
| RevenueCatWebhook.SubscriptionStore.Handle | supabase/functions/revenuecat-webhook/index.ts:47-176 | the step-by-step handler leaves the tables and returns the response that HandleWebhook specifies, and keeps ids below the counter |
| News.OrUndefined | supabase/functions/news/index.ts:61-62 | an empty or absent parameter becomes undefined, any other is kept |
| News.GetQuery | supabase/functions/news/index.ts:58-65 | a GET query: category and q are the URL parameters when non-empty, otherwise undefined. country defaults to "us". limit is parseInt of the parameter, or 10 when it is absent or empty |
| News.GetLimitIsPageSize | supabase/functions/news/index.ts:64-80 | a GET with limit=String(n), n non-zero, asks for min(n, 100) articles |
| News.PageSize | supabase/functions/news/index.ts:80 | the page size never exceeds 100; an absent, NaN or zero limit gives 10; otherwise min(limit, 100) |
| News.QueryParams | supabase/functions/news/index.ts:77-89 | apiKey, country and pageSize come first, in that order, and nothing else follows them but category and q. Each of those two is present exactly when non-empty and carries the query's value |
| News.BuildParams | supabase/functions/news/index.ts:77-89 | the conditional appends build exactly QueryParams |
| News.Endpoint | supabase/functions/news/index.ts:92-94 | /everything exactly when there is a search text, otherwise /top-headlines |
| News.ToArticle | supabase/functions/news/index.ts:107-116 | a null article throws; otherwise the result has only the eight listed fields, each equal to the article's |
| News.MapArticles | supabase/functions/news/index.ts:107-116 | the mapping throws exactly when some element is null; otherwise it keeps length and order, element by element |
| News.NewsBody | supabase/functions/news/index.ts:104-121 | a body exists exactly when `data.articles` is an array with no null element. It has only the keys articles and totalResults, the mapped articles, and the upstream totalResults |
| News.HandleNews | supabase/functions/news/index.ts:42-128 | in order: preflight, 500 without a key, then 405 for other methods. GET and POST send exactly one request, with the endpoint and parameters of their query. The answer is then 500 "Failed to fetch news", the relayed body, or 500 "Internal server error" |
| News.UnparseablePostUsesDefaults | supabase/functions/news/index.ts:66-81 | a POST whose body does not parse asks for the US top headlines, 10 per page |
| AiGenerate.ChatRequestFor | supabase/functions/ai-generate/index.ts:57-91 | two messages, system then user. The prompt is the user content. model, max_tokens and systemPrompt are the body's field when it is present and the default when it is absent. The bearer key is sent |
| AiGenerate.FirstElement | supabase/functions/ai-generate/index.ts:102 | `choices[0]` is the first element of a non-empty array, undefined for an empty one |
| AiGenerate.ResponseText | supabase/functions/ai-generate/index.ts:102 | reading throws exactly when data is null or `choices` is null or undefined. For a non-empty choices array the text is `choices[0].message.content` when that is truthy, and "" otherwise. An empty choices array gives "" |
| AiGenerate.CompletionText | supabase/functions/ai-generate/index.ts:102 | a choice shaped as the chat API returns it (index, message with role and content, finish_reason) yields its content |
| AiGenerate.UsageOf | supabase/functions/ai-generate/index.ts:103-109 | usage is present exactly when upstream usage is truthy; its three fields are upstream's renamed from snake_case |
| AiGenerate.GenerateBody | supabase/functions/ai-generate/index.ts:101-110 | the body has the response text and, when present, the usage |
| AiGenerate.HandleGenerate | supabase/functions/ai-generate/index.ts:34-117 | the check order: preflight, 405, "Invalid request body", "Missing required field: prompt", 500 without a key. One request is sent exactly when all pass. An upstream failure gives "AI generation failed". A thrown call or unreadable data gives 500 "Internal server error"; otherwise the body is the generated one |
| AiGenerate.DefaultsForPromptOnly | supabase/functions/ai-generate/index.ts:57-63 | a body holding only a prompt is sent with gpt-4-turbo-preview, 1000 tokens and the default system prompt |
| TextToSpeech.VoiceUrl | supabase/functions/text-to-speech/index.ts:71-72 | the voice is the last path segment of the ElevenLabs URL |
| TextToSpeech.TooLong | supabase/functions/text-to-speech/index.ts:59 | the definition of `text.length > 5000` for each JSON kind. `TextToSpeech.LengthLimitBoundary` states the boundary |
| TextToSpeech.StoredName | supabase/functions/text-to-speech/index.ts:100 | the object name is "audio/" + uuid + ".mp3", and the uuid can be recovered from it |
| TextToSpeech.HandleSpeech | supabase/functions/text-to-speech/index.ts:33-130 | the check order: preflight, 405, invalid body, missing text, text longer than 5000, then 500 "TTS service not configured" without a key. The request carries the model and the voice (default Rachel). A thrown call gives 500 "Internal server error" and a failed one "TTS generation failed". Audio is stored exactly when the upstream succeeds. An upload error gives "Failed to store audio"; otherwise the body is only `{audioUrl}` |
| TextToSpeech.LengthLimitBoundary | supabase/functions/text-to-speech/index.ts:59-61 | 5000 characters are accepted and 5001 are rejected |
| TextToSpeech.DefaultVoiceInUrl | supabase/functions/text-to-speech/index.ts:56-72 | without a voice field the default voice id ends the URL |
| WaitlistRoute.ValidEmailIff | apps/web/app/api/waitlist/route.ts:50-53 | for s = L + "@" + D, the regex accepts s exactly when L is non-empty, L and D have no whitespace or '@', and D has a '.' that is neither first nor last |
| WaitlistRoute.IsValidEmail | apps/web/app/api/waitlist/route.ts:50-53 | the definition of the regex, written with indices. `ValidEmailIff`, `ValidEmailSplits` and `ValidEmailOneAt` state its meaning |
| WaitlistRoute.ValidEmailSplits | apps/web/app/api/waitlist/route.ts:51 | every accepted address has the form L + "@" + D, so ValidEmailIff covers all of them |
| WaitlistRoute.ValidEmailOneAt | apps/web/app/api/waitlist/route.ts:51 | an accepted address has exactly one '@' and no whitespace |
| WaitlistRoute.Post | apps/web/app/api/waitlist/route.ts:11-48 | an unparseable or null body gives 500. A falsy or invalid email gives 400 "Valid email is required". A valid one gives 200 with success true |
| WaitlistRoute.MissingEmailIsBadRequest | apps/web/app/api/waitlist/route.ts:16-22 | an absent or empty email gives 400, not 500 |
| WaitlistRoute.ValidEmailJoins | apps/web/app/api/waitlist/route.ts:16-40 | a well-formed address joins the waitlist |
| WaitlistForm.RequestBody | apps/web/components/Waitlist.tsx:25-29 | the posted body holds exactly the email |
| WaitlistForm.Form.constructor | apps/web/components/Waitlist.tsx:11-13 | the form starts with an empty email, status idle and no message |
| WaitlistForm.Form.SetEmail | apps/web/components/Waitlist.tsx:65 | typing changes only the email |
| WaitlistForm.Form.StartSubmit | apps/web/components/Waitlist.tsx:15-29 | an empty email changes nothing. Otherwise status is loading before exactly one request with the email is sent |
| WaitlistForm.Form.FinishSubmit | apps/web/components/Waitlist.tsx:31-41 | an ok answer gives success with its message and clears the email. A non-ok answer or a throw gives error with its message, and the email is kept |
| WaitlistForm.Form.HandleSubmit | apps/web/components/Waitlist.tsx:15-42 | the whole submit: nothing happens for an empty email, otherwise the request is sent and then the outcomes above apply |
| WaitlistForm.NoDoubleSubmit | apps/web/components/Waitlist.tsx:73 | the button is disabled while loading and after a success until something is typed; it is enabled for a non-empty email when idle or after an error |
| ApiClient.ThrownMessage | apps/mobile/lib/api.ts:57-62 | an Error yields its message, any other thrown value 'Unknown error' |
| ApiClient.Shape | apps/mobile/lib/api.ts:29-64 | a throw gives data null and status 0. Non-ok gives data null, the response status, and the body text or "HTTP <status>". Ok gives the parsed data and the status. The error is null exactly on success |
| ApiClient.FailureHasNoData | apps/mobile/lib/api.ts:42-62 | every error result has null data; a non-ok result always has a non-empty error |
| ApiClient.Send | apps/mobile/lib/api.ts:33-40 | the URL is baseUrl + endpoint; the header keys are the union of Content-Type, the defaults and the per-call headers |
| ApiClient.Get | apps/mobile/lib/api.ts:73-88 | GET to baseUrl + endpoint, with no body |
| ApiClient.Post | apps/mobile/lib/api.ts:90-110 | POST to baseUrl + endpoint with the body |
| ApiClient.Put | apps/mobile/lib/api.ts:112-122 | PUT to baseUrl + endpoint with the body |
| ApiClient.Delete | apps/mobile/lib/api.ts:124-129 | DELETE to baseUrl + endpoint, with no body |
| ApiClient.HeaderPrecedence | apps/mobile/lib/api.ts:36-39 | a per-call header wins over a client default, which wins over the built-in Content-Type; no other keys are sent |
| ApiClient.NewsApi | apps/mobile/lib/api.ts:152-158 | the newsapi.org client; its key header is '' when the key is unset or empty |
| ApiClient.EdgeFunctions | apps/mobile/lib/api.ts:141-147 | the edge-function client's URL is the project URL + "/functions/v1" ("undefined" when unset); its apikey header is '' when the key is unset or empty |
| ApiClient.OrDefault | apps/mobile/lib/api.ts:241-242 | an absent or empty option gives the default, and a non-empty one gives its own value |
| ApiClient.PageSizeParam | apps/mobile/lib/api.ts:243 | an absent or zero page size gives "10", any other is its decimal text |
| ApiClient.HeadlineParams | apps/mobile/lib/api.ts:240-244 | country, category and pageSize in that order, defaulting to us, general and 10 |
| ApiClient.SearchParams | apps/mobile/lib/api.ts:264-268 | q = query first, then sortBy (default publishedAt) and pageSize (default 10) |
| ApiClient.GetHeadlines | apps/mobile/lib/api.ts:235-255 | a GET to newsapi.org /top-headlines with the headline parameters |
| ApiClient.SearchNews | apps/mobile/lib/api.ts:260-279 | a GET to newsapi.org /everything with the search parameters |
| ApiClient.HeadlineDefaults | apps/mobile/lib/api.ts:240-254 | with no options the query is country=us&category=general&pageSize=10 |
| ApiClient.QueryString | apps/mobile/lib/api.ts:240-254 | the definition of URLSearchParams serialisation: `k=v` pairs joined by "&". `ApiClient.DefaultHeadlineQuery` gives an instance |
| RevenueCatClient.GetRevenueCatApiKey | apps/mobile/lib/revenuecat.ts:27-55 | on iOS, the iOS key when non-empty, else the iOS error. On Android, likewise with the Android key. Every other platform yields the web error |
| RevenueCatClient.InitializeRevenueCat | apps/mobile/lib/revenuecat.ts:65-92 | skipped exactly on web. The SDK is configured exactly when a key is found, with that key and the user id (null when absent). Otherwise the key error is thrown |
| RevenueCatClient.NativeInitUsesPlatformKey | apps/mobile/lib/revenuecat.ts:80-85 | iOS uses the iOS key and Android the Android key; other platforms throw |
| RevenueCatClient.GetOfferings | apps/mobile/lib/revenuecat.ts:135-142 | null on web, otherwise the SDK's current offering |
| RevenueCatClient.HasActiveEntitlement | apps/mobile/lib/revenuecat.ts:178-187 | the definition: false on web, otherwise whether the entitlement id is in the active set. `WebNeverReachesSdk` and `Paywall.EntitledRestoreSucceeds` state its consequences |
| RevenueCatClient.Guarded | apps/mobile/lib/revenuecat.ts:100-170 | identify, logout, customer info, purchase and restore throw on web and otherwise pass on the SDK's answer |
| RevenueCatClient.WebNeverReachesSdk | apps/mobile/lib/revenuecat.ts:65-187 | on web nothing is configured, there is no offering, no entitlement is active, and every guarded call throws |
| RootLayout.Redirect.Group | apps/mobile/app/_layout.tsx:26-31 | the group each redirect lands in, and that its path starts with that group |
| RootLayout.GuardRedirect | apps/mobile/app/_layout.tsx:20-33 | no redirect before auth loads. Signed out in (tabs) goes to sign-in and signed in in (auth) goes to (tabs), each exactly then; anything else stays |
| RootLayout.GuardView | apps/mobile/app/_layout.tsx:35-43 | the loading view is shown exactly while auth is not loaded |
| RootLayout.RedirectIsIdempotent | apps/mobile/app/_layout.tsx:26-32 | once a redirect has landed, re-evaluating the guard gives no further redirect |
| RootLayout.SettledRoutesStay | apps/mobile/app/_layout.tsx:23-32 | signed out in (auth), signed in in (tabs), and an empty route cause no navigation |
| RootLayout.GetClerkPublishableKey | apps/mobile/lib/clerk.ts:67-79 | an unset or empty key throws Clerk's message, otherwise the key |
| RootLayout.RenderRoot | apps/mobile/app/_layout.tsx:50-57 | the layout renders with the key exactly when it is non-empty; otherwise it throws, with the message from clerk.ts |
| Paywall.FindAnnual | apps/mobile/components/Paywall.tsx:97 | the index found is the first ANNUAL package; none is found exactly when there is no ANNUAL package |
| Paywall.DefaultSelection | apps/mobile/components/Paywall.tsx:97-98 | the selection is absent exactly when there are no packages, and is always one of them. It is annual when any package is annual, otherwise the first |
| Paywall.DefaultSelectionIsFirstAnnual | apps/mobile/components/Paywall.tsx:97-98 | the annual package chosen has no annual package before it |
| Paywall.PurchaseErrorText | apps/mobile/components/Paywall.tsx:120-123 | a cancelled purchase shows no error. Otherwise it shows the error's non-empty message, or 'Purchase failed. Please try again.' |
| Paywall.SuccessNotices | apps/mobile/components/Paywall.tsx:116-119 | success calls onPurchaseSuccess when given, and then always onClose |
| Paywall.LoadedPackagesEnablePurchase | apps/mobile/components/Paywall.tsx:257-260 | after a load, the purchase button is enabled exactly when packages were offered and no purchase is running |
| Paywall.EntitledRestoreSucceeds | apps/mobile/components/Paywall.tsx:137-140 | a customer for whom hasActiveEntitlement holds is on a native platform and has a non-empty active set, which is the success condition of `PaywallModal.FinishRestore` |
| Paywall.PaywallModal.constructor | apps/mobile/components/Paywall.tsx:74-78 | the paywall starts loading and not purchasing, with no packages, no selection and no error |
| Paywall.PaywallModal.StartLoad | apps/mobile/components/Paywall.tsx:87-89 | a load first sets isLoading and clears the error |
| Paywall.PaywallModal.FinishLoad | apps/mobile/components/Paywall.tsx:91-105 | isLoading ends false. A throw sets 'Failed to load subscription options'. A null offering changes nothing. A non-null offering replaces the packages and the default selection |
| Paywall.PaywallModal.LoadOfferings | apps/mobile/components/Paywall.tsx:87-106 | the whole load: the error is null unless the load threw, and the selection remains one of the packages |
| Paywall.PaywallModal.SelectPackage | apps/mobile/components/Paywall.tsx:212-213 | a tap selects the package, except while purchasing |
| Paywall.PaywallModal.StartPurchase | apps/mobile/components/Paywall.tsx:108-112 | no-op without a selection; otherwise it sets isPurchasing and clears the error |
| Paywall.PaywallModal.FinishPurchase | apps/mobile/components/Paywall.tsx:114-126 | isPurchasing ends false. Success sends the notices. A cancelled purchase leaves the error as it was; any other failure sets its message |
| Paywall.PaywallModal.HandlePurchase | apps/mobile/components/Paywall.tsx:108-127 | the whole purchase: nothing without a selection, otherwise the outcomes above |
| Paywall.PaywallModal.StartRestore | apps/mobile/components/Paywall.tsx:129-131 | a restore first sets isPurchasing and clears the error |
| Paywall.PaywallModal.FinishRestore | apps/mobile/components/Paywall.tsx:133-149 | isPurchasing ends false. A non-empty active set sends the notices. An empty one sets 'No previous purchases found', and a throw sets 'Restore failed. Please try again.' |
| Paywall.PaywallModal.HandleRestore | apps/mobile/components/Paywall.tsx:129-150 | the whole restore: the error is null exactly when entitlements were restored |

## Left out

- Network, database, storage and SDK calls are not modelled. Their results are parameters (`Upstream`, `DbOutcomes`, `Storage`, `LoadOutcome` and the like), and environment variables are optional strings. Nothing models `console` logging.
- Floating point is not modelled. JSON numbers are integers, so `temperature` in ai-generate and the ElevenLabs voice settings are left out. So are fractional `expiration_at_ms` values and fractional page sizes.
- ISO date text is not modelled: `toISOString()` results are kept as millisecond counts. Its RangeError for times beyond ±8.64e15 ms is modelled.
- Percent-encoding of search parameters and `JSON.stringify` output are left out. Parameters are kept as ordered pairs; `ApiClient.QueryString` joins them as `k=v&…` without escaping.
- Lengths are counted in Unicode characters, not UTF-16 code units, for the 5000-character text limit and the e-mail regex. The two differ only outside the Basic Multilingual Plane.
- Property lookups inherited from `Object.prototype` are not modelled. Examples are `statusMap["constructor"]` and a `length` property of a plain object.
- TextToSpeech.TooLong: a `length` field that is a numeric string (`{"length": "6000"}`) is not counted, although JavaScript would coerce it.
- The webhook payload and the news POST body are decoded into typed records. A body that parses to a non-object value is not modelled for them.
- The abort timer of the client's `get`/`post` and the concurrency of overlapping async handlers are left out. So is React's rendering, and the order in which state updates become visible.
- `createSupabaseClient` and Clerk's `tokenCache` are left out. They only construct foreign clients.
- `aiServices` and `socialServices` in `apps/mobile/lib/api.ts` are left out. They are one-line `post` calls that `ApiClient.Post` covers.
- The `ENTITLEMENTS` identifiers are the constants `RevenueCatClient.Premium` and `RevenueCatClient.Pro`, with no member of their own to hold a contract.

## Notes on the source

- The webhook does not inspect the error of its `.single()` lookup. A failed select is treated like "no row", and a new row is inserted. `RevenueCatWebhook.LookupFailureDuplicatesRow` shows the duplicate row this produces. `RevenueCatWebhook.UpsertPreservesUnique` states the condition under which customer ids stay unique.
- `offering?.availablePackages` is an array, and an empty array is truthy. So an offering with no packages still replaces the list with `[]` and the selection with null. Only a null offering leaves both unchanged (`Paywall.PaywallModal.FinishLoad`).
- `getClerkPublishableKey` already throws on a missing key. The layout's own check and its message are therefore unreachable (`RootLayout.RenderRoot`).
- `getRevenueCatApiKey` gives every platform other than iOS and Android, not only web, the message "not supported on web".
