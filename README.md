# Virtual staging backend, modelled in Dafny

This project models the server side of a virtual-staging service. The service has four endpoints:

- **Stage** (`api/stage.js`) takes a base64 image and a room type and style. It stores the original in Dropbox under `/uploads/job_<time>.jpg` and makes a share link. It then asks the Virtual Staging AI service for a watermarked preview and answers with the preview and the job's join keys.
- **Checkout** (`api/checkout.js`) checks that the request names a staging job, then creates a Stripe checkout session. The session carries the job's metadata.
- **Webhook** (`api/stripe-webhook.js`) receives Stripe's callback and checks the signature. On a completed checkout it reads the job back from the session metadata. It then renders the unwatermarked image, downloads it and stores it under `/final/…`. Finally it makes a password-protected link and, when a payer email is known, shares the file with that email.
- **Finalize** (`api/finalize.js`) asks for an unwatermarked variation of a render. It downloads the variation, stores it at `/renders/<job>/final.jpg` and answers with a direct-download link.

Shared helpers model the rest of the core:

- `api/_utils/http.js`: CORS, OPTIONS, 405 and error-payload normalisation.
- `api/_utils/vsai.js`: the JSON request helper for the rendering service.
- `api/_utils/dropbox.js`: the raw-link rewrite, idempotent shared-link creation and uploads.

Modules, one per source file (plus shared ones):

| module | models |
|---|---|
| `Js` | JS values, truthiness, property access, logical or, nullish coalescing, template conversion, environment variables |
| `Strings`, `Base64` | the string built-ins the handlers use (`indexOf`, `replace`, `trim`, `lastIndexOf`, regex replaces) and Node's base64 decoding |
| `Services` | an external client: a call log and a reply oracle that may depend on the history |
| `Http` | the response object (`class ServerResponse`) and `api/_utils/http.js` |
| `Fetch`, `Vsai` | the HTTP transport and `api/_utils/vsai.js` |
| `Dropbox` | the Dropbox SDK calls and `api/_utils/dropbox.js` |
| `Stripe` | the Stripe SDK calls |
| `Stage`, `Checkout`, `StripeWebhook`, `Finalize` | the four handlers |

Each handler is an imperative method over the response object and the clients it calls. Each method is proved equal to a pure function of the request, the environment, the response's old state and each client's replies given its earlier calls (`…RunOf`, `…Post`). The properties are lemmas about those functions. Notes on behaviour:

- Checkout does not check the amount or the currency. It does require the three join keys.
- Error replies from Stage and the webhook include the caught error's message.
- Finalize lets the provider's own error payload through (`normaliseErrorPayload`).
- A checkout request without metadata is answered 400, although tests/checkout.test.js expects 200.

## Model

| member | source | states |
|---|---|---|
| Js.Get | api/checkout.js:18 | destructuring or optional chaining reads the property's value from an object that has the key, and `undefined` from non-objects and from missing keys |
| Js.Prop | api/checkout.js:20 | `m.key` throws exactly when `m` is null or undefined, and otherwise reads the property |
| Js.Or | api/checkout.js:44-45 | logical or: the left operand when it is truthy, else the right one |
| Js.Coalesce | api/finalize.js:128 | `a ?? b` is `b` exactly when `a` is null or undefined |
| Strings.IndexOf | api/stage.js:27 | `indexOf` lies between -1 and the length; it is -1 iff the text is absent, and otherwise the first position where the text occurs |
| Strings.ReplaceFirst | api/stage.js:67 | replace with a string pattern changes only the first occurrence, and the text is unchanged when the pattern is absent |
| Strings.Trim | api/stage.js:29 | `trim` is empty iff the input is all whitespace, has no whitespace at either end, is a substring of the input, and is the identity on already-trimmed text |
| Strings.TrimCutsOnlyWhitespace | api/stage.js:29 | for every input, `trim` returns the window of the input that has only whitespace before it and only whitespace after it |
| Strings.RemoveWhitespace | api/stage.js:35 | `replace(/\s/g, "")` leaves no whitespace, is empty iff the input is all whitespace, and is the identity on text without whitespace |
| Strings.RemoveWhitespaceAppend | api/stage.js:35 | removing whitespace from a concatenation is concatenating the removals |
| Strings.RemoveWhitespaceChar | api/stage.js:35 | a single character is dropped iff it is whitespace, and kept otherwise |
| Strings.RemoveWhitespaceIgnoresTrim | api/stage.js:29-35 | trimming before removing all whitespace changes nothing |
| Strings.LastIndexOf | api/stripe-webhook.js:23 | `lastIndexOf("/")` is -1 iff there is no slash; otherwise it points at a slash with none after it |
| Strings.CollapseSlashes | api/stripe-webhook.js:115 | `replace(/\/{2,}/g, "/")` leaves no double slash, is no longer than its input and empty only for empty input, keeps the first character, and changes nothing when there is no double slash |
| Strings.CollapseKeepsCharacters | api/stripe-webhook.js:115 | collapsing keeps every non-slash character, in order |
| Strings.CollapseKeepsSegments | api/stripe-webhook.js:115 | collapsing keeps the list of pieces between slashes: each run of slashes becomes one slash and none vanishes |
| Strings.CollapseKeepsEnd | api/stripe-webhook.js:115 | collapsing does not change how the text ends: a trailing slash stays a trailing slash |
| Strings.CollapseAfterRootWord | api/stripe-webhook.js:115 | collapsing `"/" + w + s` with `w` a non-empty word without slashes collapses only inside `s` |
| Strings.NatToDecimal | api/stage.js:55 | a timestamp is written as a non-empty string of decimal digits |
| Strings.NatToDecimalDenotes | api/stage.js:55 | the digits denote the number, and only zero is written with a leading 0 |
| Strings.NatToDecimalInjective | api/stage.js:55 | different numbers are written differently |
| Base64.Decode | api/stage.js:44 | decoding validated base64 text yields floor(3n/4) bytes for n symbols, which is empty iff there is one symbol |
| Base64.DecodeEncode | api/stage.js:44 | decoding the standard encoding of non-empty bytes gives back those bytes, and that encoding passes the alphabet check |
| Base64.LoneSymbolIsEmpty | api/stage.js:37-51 | a payload of one alphabet symbol passes the pattern check but decodes to no bytes, so it is refused as an empty buffer |
| Base64.DecodeFoo | api/stage.js:44 | "Zm9v" is valid and decodes to the bytes of "foo" |
| Http.Preflighted | api/checkout.js:6-11 | a preflight answers 200, ends the response, keeps the body, and sets the three CORS headers with the given methods and headers |
| Http.ServerResponse.SetHeader | api/_utils/http.js:3-5 | setting a header changes that header only |
| Http.ServerResponse.Status | api/_utils/http.js:11 | `res.status(c)` changes the status code only |
| Http.ServerResponse.Json | api/_utils/http.js:19 | `res.json(b)` sets the body and ends the response |
| Http.ServerResponse.End | api/_utils/http.js:11 | `res.end()` ends the response and changes nothing else |
| Http.ServerResponse.Reply | api/checkout.js:14 | `res.status(c).json(b)` sets the status and body and ends the response |
| Http.ServerResponse.Preflight | api/checkout.js:6-11 | the handlers' inline preflight sets the three CORS headers, answers 200 and ends the response |
| Http.ApplyCors | api/_utils/http.js:1-7 | the three CORS headers, with the methods joined by ", ", are set when the response can take headers; otherwise nothing changes |
| Http.HandleOptions | api/_utils/http.js:9-16 | reports handled iff the method is OPTIONS, and then ends the response with 200; otherwise nothing changes |
| Http.MethodNotAllowed | api/_utils/http.js:18-20 | replies 405 `{error: "Method not allowed"}` |
| Http.NormaliseErrorPayload | api/_utils/http.js:22-32 | the result is always an object: objects pass through, null and undefined become `{error: fallback}`, and other values become `{error: fallback, details: payload}` |
| Http.NormaliseIdempotent | api/_utils/http.js:22-25 | normalising twice equals normalising once |
| Http.NormaliseKeepsFalsyDetails | api/_utils/http.js:27-31 | falsy non-null payloads (false, "", 0) are kept as details rather than dropped |
| Services.Service.Call | api/stage.js:58-66 | each call to an external client is appended to the client's call log, and its reply is the provider's answer given the earlier calls |
| Fetch.ReadJson | api/stage.js:85 | `response.json()`: a transport error propagates, a missing response throws a TypeError, parseable text succeeds with its value, and unparseable text fails with the parser's message |
| Vsai.RequestInitFor | api/_utils/vsai.js:17-35 | the method defaults to GET. Authorization is `Api-Key <key>` unless the caller supplies one. Caller headers are kept. A body is sent iff one is given: strings as they are, other values stringified. Content-Type defaults to JSON only when a body is sent |
| Vsai.CallerAuthorizationWins | api/_utils/vsai.js:20-23 | a caller-supplied Authorization header overrides the API-key header |
| Vsai.ResponseData | api/_utils/vsai.js:38-47 | an empty text gives null, parseable text its JSON value, and other text the raw string |
| Vsai.VsaiOutcome | api/_utils/vsai.js:37-53 | the result carries the response's ok flag, its status and its data as read from its text; transport errors propagate, and a missing response throws a TypeError |
| Vsai.VsaiRequest | api/_utils/vsai.js:17-54 | exactly one fetch of the url with that init, and the outcome above |
| Dropbox.ToRawDropboxUrl | api/_utils/dropbox.js:20-34 | non-strings and "" give "". A url with `?raw=1` is kept. Otherwise the first `?dl=0` becomes `?raw=1`. Otherwise `raw=1` is appended after `&` or `?` |
| Dropbox.RawUrlHasMarker | api/_utils/dropbox.js:25-33 | every non-empty result contains `raw=1` |
| Dropbox.RawUrlIdempotentUnlessBareQuery | api/_utils/dropbox.js:20-34 | rewriting twice equals rewriting once, except for a non-empty URL with a `?` query holding neither `?dl=0` nor `?raw=1`; such a URL gets `&raw=1` appended again |
| Dropbox.EnsureSharedLink | api/_utils/dropbox.js:36-60 | the method makes exactly the calls of the reference run and returns its result |
| Dropbox.SharedLinkCreated | api/_utils/dropbox.js:37-39 | a created link is returned in raw form after one call |
| Dropbox.SharedLinkOtherErrorRethrown | api/_utils/dropbox.js:40-46 | an error other than "shared_link_already_exists" is rethrown, with no listing |
| Dropbox.SharedLinkFallsBackToList | api/_utils/dropbox.js:48-58 | when the link already exists, the path's direct links are listed and the first is returned in raw form; the original error is rethrown when there is none |
| Dropbox.SharedLinkStable | api/_utils/dropbox.js:36-60 | two calls for the same path return the same raw form of `u`, whether the provider reports `u` by creating the link or by listing the existing one |
| Dropbox.UploadCall | api/_utils/dropbox.js:62-69 | path, contents and mode are forwarded, and autorename and mute default to false |
| Dropbox.UploadBuffer | api/_utils/dropbox.js:62-70 | exactly one upload call, whose reply is returned |
| Stage.AfterFirstComma | api/stage.js:27-28 | the text after the first comma, or all of it when there is no comma |
| Stage.SanitizedPayload | api/stage.js:29-35 | the cleaned payload contains no whitespace |
| Stage.SanitizedKeepsPayload | api/stage.js:27-35 | the cleaned payload is exactly the text after the first comma with its whitespace removed |
| Stage.ImageBytes | api/stage.js:27-51 | a payload gives bytes iff its cleaned text passes the pattern and decodes to something non-empty, and then those are the decoded bytes |
| Stage.StageInput | api/stage.js:17-51 | a null body throws (500). A missing field gives 400 "Missing required fields". A non-string or undecodable image gives 400 "Invalid image payload". Otherwise the fields and the image bytes |
| Stage.EncodedHasNoWhitespace | api/stage.js:35-37 | encoded text is unchanged by the whitespace removal |
| Stage.DataUrlRoundTrip | api/stage.js:23-51 | a data URL whose header has no comma, followed by the encoding of non-empty bytes, is accepted with exactly those bytes |
| Stage.DataUrlFoo | api/stage.js:27-51 | `data:image/jpeg;base64,Zm9v` is accepted as the bytes of "foo" |
| Stage.JobId | api/stage.js:55 | `job_` followed by decimal digits |
| Stage.JobIdDenotesTime | api/stage.js:55 | the digits after `job_` denote the timestamp |
| Stage.UploadPath | api/stage.js:56 | `/uploads/job_<digits>.jpg` |
| Stage.UploadPathNamesJob | api/stage.js:56 | the upload is named after the job id, and the digits in its name denote the timestamp |
| Stage.Handler | api/stage.js:4-103 | the response, the escaped error and both call logs are those of the reference run |
| Stage.MethodGate | api/stage.js:5-15 | OPTIONS is a preflight allowing POST and other methods get 405, with no external call |
| Stage.RejectedBeforeAnyCall | api/stage.js:17-51 | a rejected request makes no Dropbox or rendering call |
| Stage.UploadThenLinkSamePath | api/stage.js:54-67 | one upload to the job's path (add mode, autorename), then a link for that same path, before any render request |
| Stage.RenderRequestUsesRewrittenLink | api/stage.js:67-83 | exactly one render request, whose image URL is the link with `?dl=0` rewritten, and with the watermark on |
| Stage.ReplyFollowsRenderResult | api/stage.js:85-98 | 200 with the preview iff `result_image_url` is truthy, else 500 "Staging failed" with the result |
| StripeWebhook.ParentFolder | api/stripe-webhook.js:23 | the text before the last slash: a prefix followed by a slash with no slash after it, or "" when there is no slash |
| StripeWebhook.EnsureFolder | api/stripe-webhook.js:22-33 | the method makes exactly the calls of the reference run and returns its outcome |
| StripeWebhook.EnsureFolderOutcome | api/stripe-webhook.js:22-33 | no call iff the parent is empty. Otherwise one non-renaming folder creation, where a 409 counts as success and other errors are rethrown |
| StripeWebhook.FinalPath | api/stripe-webhook.js:111-115 | the final path always starts with `/final/`. `/uploads/x` becomes `/final/x`. Other paths have no double slash |
| StripeWebhook.FinalPathCharacters | api/stripe-webhook.js:111-115 | outside `/uploads/`, the non-slash characters are `final` followed by those of the path |
| StripeWebhook.FinalPathPieces | api/stripe-webhook.js:111-115 | outside `/uploads/`, the pieces between slashes are `final` followed by the path's own pieces: no folder or file name is lost or merged |
| StripeWebhook.FinalPathEnd | api/stripe-webhook.js:111-115 | outside `/uploads/`, a non-empty path ends with the same character as the final path: a trailing slash is kept |
| StripeWebhook.FinalOfEmpty | api/stripe-webhook.js:111-115 | the empty path becomes `/final/` |
| StripeWebhook.CollapseUnderFinal | api/stripe-webhook.js:115 | collapsing `/final` + path collapses the path alone |
| StripeWebhook.FinalFolderIsUnderFinal | api/stripe-webhook.js:112-118 | the folder created for the final path is `/final` or below it, never empty |
| StripeWebhook.PayerEmail | api/stripe-webhook.js:72 | customer details' email first, then the session's email, then the metadata's; truthy iff one of them is |
| StripeWebhook.OrderOf | api/stripe-webhook.js:65-76 | missing metadata counts as `{}`. A falsy Dropbox path or image URL gives 400. Otherwise the order holds those fields and the payer email |
| StripeWebhook.RenderedUrl | api/stripe-webhook.js:94-99 | a thrown render gives 500 with its message. A not-ok render gives 500 "Virtual staging failed" with the result. For an ok render: a null or undefined result throws a TypeError (500), a truthy `result_image_url` is the URL, and a falsy one gives 500 "Virtual staging failed" |
| StripeWebhook.DownloadedBytes | api/stripe-webhook.js:101-109 | a transport error gives 500 with its message and a missing response a TypeError (500). A not-ok download gives 500 "Unable to download final image". An ok response gives its array buffer, or a TypeError (500) when it has none |
| StripeWebhook.SecureLink | api/stripe-webhook.js:128-147 | the method makes exactly the calls of the reference run and returns its link |
| StripeWebhook.SecureLinkTiers | api/stripe-webhook.js:128-147 | the password is the job id, or the session id when that is falsy. A created link gives its URL. A 409 lists the direct links and gives the first one's URL. Any other error asks for a temporary link and gives its URL. A failed listing or temporary link is thrown as it is |
| StripeWebhook.Fulfil | api/stripe-webhook.js:78-176 | the reply and both call logs are those of the reference fulfilment |
| StripeWebhook.Store | api/stripe-webhook.js:118-176 | the folder, the upload, the password link (or its fallbacks) and the optional viewer grant are the Dropbox calls of the reference run, in order, and the reply is its reply |
| StripeWebhook.Handler | api/stripe-webhook.js:35-177 | the response, the escaped error and all three call logs are those of the reference run |
| StripeWebhook.GatesStopBeforeFulfilment | api/stripe-webhook.js:47-76 | the gates, in order: no signature gives 400 with no Stripe call; a bad signature gives 400; another event type gives 200 `{received: true}`; missing metadata gives 400. Rendering and Dropbox are reached only past all of them |
| StripeWebhook.MethodGate | api/stripe-webhook.js:36-45 | OPTIONS is a preflight that also allows Stripe-Signature and other methods get 405, with no call |
| StripeWebhook.FolderThenUploadThenLink | api/stripe-webhook.js:118-136 | the folder is created first, then an overwrite upload (no autorename, not muted), then the password link for that same path |
| StripeWebhook.NoEmailNoGrant | api/stripe-webhook.js:149-171 | without a truthy email no member is added and the reply reports null |
| StripeWebhook.GrantOutcomeIgnored | api/stripe-webhook.js:149-164 | the grant is best effort: providers that differ only in how they answer it give the same reply and calls |
| StripeWebhook.RenderFailureStopsFulfilment | api/stripe-webhook.js:96-99 | a failed render is answered 500 with the result, and nothing is downloaded or stored |
| Checkout.CheckoutInput | api/checkout.js:17-22 | accepted iff the body is an object-like value and its metadata (`{}` when undefined) names a job id, a Dropbox path and an image URL. A null body or null metadata throws (500). Otherwise 400 "Missing staging metadata" |
| Checkout.SessionMetadata | api/checkout.js:40-46 | exactly five keys. Job id, path and URL are copied verbatim. Room type and style are copied when truthy, else "". It names a staging job iff its input does |
| Checkout.Handler | api/checkout.js:5-54 | the response, the escaped error and the Stripe call log are those of the reference run |
| Checkout.MethodGate | api/checkout.js:6-15 | OPTIONS is a preflight allowing POST and other methods get 405, with no Stripe call |
| Checkout.RejectedWithoutStripeCall | api/checkout.js:17-22 | a request without the join keys is answered 400 (or 500 when it throws) with no Stripe call |
| Checkout.SessionShape | api/checkout.js:24-39 | one line item with the request's currency and amount and quantity 1, payment mode, redirects to `<site>/thank-you` and `<site>/cancel`, and the request's email |
| Checkout.SessionReply | api/checkout.js:24-53 | a valid request makes exactly one session call. A Stripe failure gives 500 "Stripe checkout failed"; success gives 200 `{url}` |
| Checkout.CheckoutFeedsWebhook | api/checkout.js:40-46 | a completed session carrying checkout's metadata is accepted by the webhook, as an order for the same job, path and image, with room type and style defaulted to "" |
| Finalize.DownloadResult | api/finalize.js:22-47 | a missing or not-ok response throws "Failed to download asset (<status or unknown>)". Otherwise the readers are tried in order: arrayBuffer, then buffer, then the chunks concatenated. With none of them it throws "Response body is not readable" |
| Finalize.DownloadAsBuffer | api/finalize.js:22-47 | one plain fetch of the url; the streamed chunks are concatenated by a loop into the result above |
| Finalize.FlattenAppend | api/finalize.js:38-43 | concatenating chunks distributes over splitting the chunk list |
| Finalize.ChunkPlacement | api/finalize.js:38-43 | each chunk appears whole, in arrival order, right after the earlier chunks |
| Finalize.RenderPath | api/finalize.js:115 | `/renders/<job>/final.jpg`, whose folder is exactly the job as text |
| Finalize.Handler | api/finalize.js:53-137 | the response and both call logs are those of the reference run |
| Finalize.Finalize | api/finalize.js:83-136 | the reply and both call logs of the `try` block are those of the reference run |
| Finalize.StoreRender | api/finalize.js:115-124 | one upload of the bytes to the path (overwrite, no autorename, muted), then the shared link for that path; the result and the Dropbox calls are those of the reference run |
| Finalize.MethodGate | api/finalize.js:54-63 | CORS headers for "POST, OPTIONS" are applied first when possible. OPTIONS ends with 200 and other methods get 405, with no call |
| Finalize.ValidationOrder | api/finalize.js:65-81 | the ids are checked first (400), then the API key (500), then the Dropbox token (500); the request passes iff all three are present |
| Finalize.GateStopsCalls | api/finalize.js:65-81 | a request stopped by these checks makes no call |
| Finalize.VariationRequest | api/finalize.js:84-93 | the first call is a POST to create-variation. Its JSON body is exactly the render id, waiting and no watermark. Its headers are the API key and JSON |
| Finalize.VariationFailureStatus | api/finalize.js:95-100 | a not-ok response keeps its status; an ok one without a result URL gives 500. The body is the normalised payload, and nothing is downloaded or stored |
| Finalize.StoredAtRenderPath | api/finalize.js:102-132 | the downloaded bytes are uploaded to the render path (overwrite, no autorename, muted) and the link is made for that same path. A 200 carries the raw link and the provider's render id, falling back to the request's |
| Finalize.ThrownErrorsAnswered | api/finalize.js:95-136 | a thrown variation request gives 500 "Failed to finalize render". A refused variation gives the normalised provider payload. After an accepted variation the reply is either that 500, or a 200 sent after both fetches and the Dropbox calls |

## Left out

- The Stripe signature check (HMAC) and event parsing are the provider's. `constructEvent` is a client call whose reply the model takes as given.
- Reading the raw webhook body from the request stream (`buffer`, api/stripe-webhook.js:13-20) is left out: the raw body is a field of the request.
- Lazy loading and caching of the clients are not modelled: `loadFetch`, `resolveFetch`, `resolveDropbox`, the Dropbox constructor, the access tokens handed to it, and the cached fetch. Each handler receives its clients as parameters. One transport serves both the rendering calls and the downloads.
- Node's base64 decoder is modelled only on text that already passed the handler's alphabet check. How it treats other input is not modelled.
- Numbers are integers. Floating-point amounts and JSON number formatting are not modelled. `JSON.parse` and `JSON.stringify` are abstract functions.
- The text of an engine `TypeError` is a fixed placeholder ("TypeError").
- `Date.now()` is a parameter. The uniqueness of job ids across requests is not modelled.
- Logging (`console.error`, `console.warn`) is left out because it does not affect replies.
- Object bodies keep keys whose value is `undefined` (for example `customer_email`). JSON serialisation would drop them.
- The proxy endpoints and the front end are not part of this model.
- Checkout.SessionMetadata: values are kept as JS values. Stripe's coercion of metadata values to strings is not modelled.
- The Dropbox request objects are reduced to the fields the handlers set. For example, the grant's `members` array and its `.tag` objects become the email and the access level.
