# Gemini Studio route handlers in Dafny

Gemini Studio is a small Next.js front end over Google's hosted generation
APIs. Its server routes are mostly network plumbing, but each one holds a
small, deterministic decision layer. This project models that layer and
proves properties of it:

- `GET /api/models` (`ModelCatalogue`, models.dfy) fetches the model list,
  keeps the models that support a usable generation method, turns
  `models/<x>` into the id `<x>`, classifies each id into a family and an
  output type by ordered, case-insensitive keyword rules, and sorts by
  family, then by id in reverse.
- `POST /api/veo` (`VeoRoute`, veo.dfy) checks the service-account
  credentials and obtains a token. It builds a single video instance whose
  image depends on the mode, and starts a long-running operation, mapping
  start failures to 404 or 500. It then polls at most 20 times: a failure
  gives 500, completion gives 200 with the video URI, and running out of
  polls gives 504.
- `POST /api/vertex` (`VertexRoute`, vertex.dfy) resolves the project id
  and the model, builds the content parts (prompt first, then one inline
  image per reference image), and answers with the first image part, else
  the first text part, else a placeholder.
- `POST /api/gemini` (`GeminiRoute`, gemini.dfy) calls the chosen model
  and reads the answer as an image or as text. On any failure it falls
  back once to `gemini-2.0-flash`, unless that was already the model. The
  final error becomes a 429 quota envelope or a 500.
- `POST /api/imagen` (`ImagenRoute`, imagen.dfy) maps `mode` to a model id
  and wraps the text answer with a fixed warning.
- The studio page (`StudioPage`, page.dfy) holds the reference images,
  capped at three and removed by index. It builds the video payload for
  the chosen mode, reads each route's JSON answer and decides when
  Generate is disabled.

Shared JavaScript semantics are in common.dfy:

- `Js`: optional JSON fields, truthiness, `a || b`, template rendering of
  `undefined`, thrown errors and responses;
- `Strings`: `includes`, string `replace`, `split(sep)[1]`, `toLowerCase`
  and the string order;
- `Seqs`: `find`;
- `GenAi`: the generateContent response shape.

Every call into code outside the model is a parameter: an `Upstream`
value that either returned or threw. This covers `fetch`, the SDKs, token
minting and `JSON.parse`. The poll responses are a function from attempt
number to outcome. Each vendor SDK is a function from the call it is
given to its outcome. Handlers that make several calls also return the
list of calls made, so the contracts can bound and order them.

## Model

| member | source | states |
|---|---|---|
| Js.ErrorMessage | app/api/vertex/route.ts:82 | the reported message is `error.message` when truthy, otherwise `Internal Server Error`, and is never empty |
| Js.Decimal | app/api/veo/route.ts:90 | `${status}` renders a status as decimal digits without a leading zero that denote exactly that number |
| Strings.RemoveFirst | app/api/models/route.ts:27 | a string `replace` removes only the first occurrence of the pattern and leaves a string without one unchanged |
| Strings.SecondPieceOf | app/api/veo/route.ts:51 | `split(sep)[1]` of `p + sep + d` is `d` when neither `p` nor `d` contains `sep` and `sep` cannot overlap itself |
| ModelCatalogue.SupportedModels | app/api/models/route.ts:20-25 | a record is kept, with its multiplicity, iff its `supportedGenerationMethods` lists `generateContent`, `predict` or `predictLongRunning`; a record without the field is dropped |
| ModelCatalogue.Classify | app/api/models/route.ts:28-46 | the family is one of the six; it is `Imagen (Images)` iff the lower-cased id contains `imagen`; the type is video iff the family is Veo; Gemini and Experimental/Nano ids are image iff they mention `image`; Gemma and Other are text |
| ModelCatalogue.ClassifyPriority | app/api/models/route.ts:31-41 | an id matching both `imagen` and `veo` is Imagen; one matching both `gemini` and `gemma` (and neither earlier rule) is Gemini |
| ModelCatalogue.ClassifyIgnoresCase | app/api/models/route.ts:31-45 | ids that agree once lower-cased classify alike |
| ModelCatalogue.ClassifyIsFirstMatch | app/api/models/route.ts:28-46 | the if/else-if chain equals first-match over the ordered rule table imagen, veo, gemini, gemma, nano or banana, with `Other`/text when no rule matches |
| ModelCatalogue.Shape | app/api/models/route.ts:26-56 | the id is the name with its first `models/` removed; display name, description and version are copied; family and type are the id's classification |
| ModelCatalogue.ShapeStripsPrefix | app/api/models/route.ts:27 | the name `models/<x>` gives the id `<x>` |
| ModelCatalogue.ShapeAll | app/api/models/route.ts:26-56 | the map keeps length and order, entry `i` being the shape of record `i` |
| ModelCatalogue.SortEntries | app/api/models/route.ts:57-61 | the result is sorted by family ascending, then id descending, and is a permutation of the input |
| ModelCatalogue.CatalogueSpec | app/api/models/route.ts:20-61 | the catalogue is sorted, is a permutation of the shaped supported records, and every entry is the shape of a supported upstream record |
| ModelCatalogue.ListModels | app/api/models/route.ts:5-68 | no key gives 500 `API Key not configured` whatever the fetch did; 200 exactly when the key is set, the fetch and its JSON succeed and the reply is ok, with the catalogue of `data.models` (empty when absent); a non-ok reply gives 500 `Failed to fetch models: <statusText>`; every other outcome is 500 |
| VeoRoute.StripBase64Prefix | app/api/veo/route.ts:51 | without `base64,` the input comes back unchanged; otherwise the result is the stretch after the first `base64,` up to the next one or the end, and never contains the marker |
| VeoRoute.StripDataUrl | app/api/veo/route.ts:55-56 | a data URL `<p>base64,<d>` comes back as its payload `d` |
| VeoRoute.BuildRequestBody | app/api/veo/route.ts:45-68 | the body has exactly one instance, the one the request determines, and `sampleCount` 1 |
| VeoRoute.InstanceSources | app/api/veo/route.ts:48-59 | the prompt is sent iff it is truthy; an image is sent iff mode `image` has an image or mode `interpolation` has both frames; in mode `image` it is the stripped `image`, in interpolation the stripped start frame; a sent image never holds `base64,` |
| VeoRoute.EndFrameNeverSent | app/api/veo/route.ts:54-57 | changing the end frame's content without changing its truthiness does not change the instance |
| VeoRoute.StartFailure | app/api/veo/route.ts:81-91 | a non-ok start with status 404 gives 404 with the model-and-location message; any other status gives 500 whose message starts with `Veo API Error: <status> ` and ends with the reply text |
| VeoRoute.PollFrom | app/api/veo/route.ts:98-125 | the loop times out iff every remaining poll answered not-done; otherwise it stops at the first poll that threw or answered done, reports `Veo Generation Failed: <message>` when that poll carries an error, and completes with that poll's data otherwise |
| VeoRoute.PollOperation | app/api/veo/route.ts:99-125 | the loop's result is the poll specification's, it issues as many polls as that result says (never more than 20), and every poll goes to the operation's URL |
| VeoRoute.VideoUrl | app/api/veo/route.ts:118-121 | `response.videoUri` when truthy, else the first prediction's video URI, else the placeholder; never empty |
| VeoRoute.PollResponse | app/api/veo/route.ts:107-127 | 504 iff the loop timed out and 200 iff it completed; a completed loop answers with its video URL and the raw poll data; a failure gives 500 with its message |
| VeoRoute.Post | app/api/veo/route.ts:15-135 | missing credentials give 500 `VERTEX_CREDENTIALS missing`, unparsable ones 500 `Server configuration error (Credentials)`, both with no call made; the token is requested first, and a missing token is a 500; the start call carries the endpoint for the credentials' project with the one-instance body; start failures map as above; after a successful start the response is the poll loop's; at most 22 calls; 504 iff the start succeeded and all 20 polls were pending |
| VertexRoute.ProjectFor | app/api/vertex/route.ts:10-17 | the project is the credentials' `project_id` when they parse and name one, otherwise `GCP_PROJECT_ID` when truthy, otherwise `tilda-3-485901`; never empty |
| VertexRoute.AuthFor | app/api/vertex/route.ts:13-16 | credentials are passed on iff the variable is set and parses, and are then the parsed ones |
| VertexRoute.ResolveProject | app/api/vertex/route.ts:9-22 | the step-by-step reassignment of `projectId` and `googleAuthOptions` ends with the project and credentials specified above |
| VertexRoute.TargetModel | app/api/vertex/route.ts:24 | `modelId` when truthy, else `imagen-3.0-generate-001` |
| VertexRoute.StripDataImagePrefix | app/api/vertex/route.ts:44 | the result is a suffix of the input, and a string not starting with `data:image/` is unchanged |
| VertexRoute.StripIsRegexReplace | app/api/vertex/route.ts:44 | the strip removes exactly a match of `^data:image\/\w+;base64,` when there is one and leaves the string unchanged when there is none |
| VertexRoute.StripDataImageUrl | app/api/vertex/route.ts:50 | `data:image/<w>;base64,<d>` with a non-empty word `w` comes back as `d` |
| VertexRoute.PartsFor | app/api/vertex/route.ts:40-54 | part 0 is the prompt; with an `images` array (even an empty one), one `image/png` part per image follows, in order and stripped; only without the array does a truthy `imageBase64` add a single part |
| VertexRoute.BuildParts | app/api/vertex/route.ts:40-54 | the `push` loop builds exactly the parts specified above |
| VertexRoute.SelectResult | app/api/vertex/route.ts:65-77 | an image answer iff some part has inline data, built from the first such part as a `data:image/png;base64,` URI; otherwise the text of the first part with text, or `No content returned.`, always with the service-account note |
| VertexRoute.NoCandidatesNoContent | app/api/vertex/route.ts:62 | a response without candidates reads as no parts and answers `No content returned.` |
| VertexRoute.Post | app/api/vertex/route.ts:4-85 | the single call goes to the resolved project in `us-central1` with the resolved credentials, the target model and the specified parts; a thrown call gives 500 with its message; otherwise 200 with the selected result |
| GeminiRoute.ModelName | app/api/gemini/route.ts:15 | `modelId` when truthy, else `gemini-3-pro-image-preview` |
| GeminiRoute.PrimaryReply | app/api/gemini/route.ts:21-37 | if `text()` throws, the attempt throws even when an image is present; if a part of the first candidate has `inlineData`, the answer is the first such part's `data:<mime>;base64,<data>` with the text; otherwise the text alone |
| GeminiRoute.ErrorResponse | app/api/gemini/route.ts:62-74 | status 429 iff the message contains `429` or the status is 429, with the `{code: 429, message}` envelope; every other error gives 500 with its message |
| GeminiRoute.MissingKeyIsServerError | app/api/gemini/route.ts:9-11 | the missing-key error is classified as a 500 carrying `GOOGLE_API_KEY is not configured` |
| GeminiRoute.FallbackResponse | app/api/gemini/route.ts:46-52 | a fallback whose call or `text()` throws is handled as an error; otherwise 200 with its text and a note naming both the original and the fallback model |
| GeminiRoute.NoteNamesModels | app/api/gemini/route.ts:51 | the fallback note contains both model names |
| GeminiRoute.Post | app/api/gemini/route.ts:4-75 | no key: 500 and no call; otherwise the first call is the chosen model with the prompt or the built-in one; a successful primary attempt is answered with no second call; a failed one on `gemini-2.0-flash` itself is rethrown with no second call; a failed one on any other model makes exactly one fallback call with the raw prompt; the status is 200, 429 or 500 |
| ImagenRoute.ModelFor | app/api/imagen/route.ts:19 | `gemini-2.5-flash-image` iff `mode` is `fast`, `gemini-3-pro-image-preview` for every other mode, including none |
| ImagenRoute.Post | app/api/imagen/route.ts:4-48 | no key gives 500 `GOOGLE_API_KEY is not configured`; a body that fails to parse gives 500 with its message; otherwise the answer is the reply to the single call on the selected model; 200 iff the body is text with the fixed warning |
| ImagenRoute.Reply | app/api/imagen/route.ts:30-47 | 200 with the text and the warning iff the call and `text()` both succeed; otherwise 500 with the error's message |
| ImagenRoute.MissingKeyIgnoresRequest | app/api/imagen/route.ts:6-9 | without a key the answer does not depend on the request body or the vendor |
| ImagenRoute.SingleCall | app/api/imagen/route.ts:19-30 | with a key and a parsed body, the answer depends on the vendor only through its answer to the one call on the selected model |
| StudioPage.SliceTo | app/page.tsx:52 | `slice(0, end)` returns a prefix of the input, of length `min(end, n)` for a non-negative `end` and `max(0, n + end)` for a negative one |
| StudioPage.WithoutIndex | app/page.tsx:221 | filtering out index `i` gives `s[..i] + s[i+1..]` when `i` is in range and `s` otherwise |
| StudioPage.Studio.constructor | app/page.tsx:23 | the page starts with no reference images |
| StudioPage.Studio.UploadVisible | app/page.tsx:226 | the upload control shows iff fewer than three images are held |
| StudioPage.Studio.Upload | app/page.tsx:48-55 | no file list changes nothing; otherwise the first `3 - current` files are appended in order; the cap of three is kept |
| StudioPage.Studio.RemoveReference | app/page.tsx:221 | exactly element `i` goes, the others keep their order; the cap is kept |
| StudioPage.Payload | app/page.tsx:91-100 | prompt and mode always; `image` only in mode `image`; `startFrame` and `endFrame` only in mode `interpolation` |
| StudioPage.PayloadInstance | app/page.tsx:91-100 | the instance the video route builds from the page's payload carries the prompt iff one was typed, the input image only in mode `image`, the start frame only in `interpolation` with both frames chosen |
| StudioPage.VideoOutcome | app/page.tsx:107-112 | a thrown fetch or a truthy `error` alerts; otherwise `video` is stored in preference to `videoUrl`; nothing is stored iff neither is present |
| StudioPage.PollReplyAlwaysHandled | app/page.tsx:108-112 | once the video route's poll loop has run, the page stores the route's video URL on completion and alerts otherwise; the "no video returned" branch cannot be reached |
| StudioPage.ImageOutcome | app/page.tsx:70-72 | a thrown fetch or a truthy `error` alerts; otherwise `image` is stored when present |
| StudioPage.ImageRouteNeverShowsImage | app/page.tsx:72 | whatever the image route answers, the page stores no image: a 200 has no `image` field and every other reply alerts |
| StudioPage.PageModelSelection | app/page.tsx:64-67 | the page's `fast` switch selects the flash image model, `pro` the preview model |
| StudioPage.EnabledTextVideoSendsPrompt | app/page.tsx:274 | when Generate is enabled in video text mode, the route's instance carries the typed prompt and no image |
| StudioPage.GenerateDisabledCases | app/page.tsx:274 | in the image studio Generate is disabled iff an image is loading or the prompt is empty, independent of video state; in the video studio iff a video is loading or the prompt is empty in text mode, independent of image state; an empty prompt is allowed in modes `image` and `interpolation` |
| StudioPage.ShowAsLinkExactlyHttp | app/page.tsx:313 | a video result is shown as a download link exactly when it begins with `http` |
| StudioPage.PlaceholderPlayedInline | app/page.tsx:313-317 | the video route's placeholder does not start with `http`, so the page hands it to the inline player instead of showing a link |

## Left out

- Network, SDK and token calls (`fetch`, `GoogleAuth`, `VertexAI`, `GoogleGenerativeAI`) are parameters, modelled by their outcomes: returned value or thrown error.
- The two-second `setTimeout` between polls in the video route: only the attempt count is modelled.
- `process.env` reads and `JSON.parse` of the credentials are inputs: an optional string and a parse outcome.
- A request body that fails to parse in the video, Vertex and Gemini routes is not modelled; it ends in the catch-all 500. It is modelled for the image route, where the missing-key check comes first.
- JSON values of an unexpected type (a numeric `modelId`, a non-string model `name`, credentials that parse to `null`) are not modelled: every field is an optional string or record.
- `localeCompare` is modelled as character-code order, and `toLowerCase` as ASCII-only lower-casing.
- ModelCatalogue.SortEntries: the order among entries with equal family and id (the stability of `Array.prototype.sort`) is not stated.
- VeoRoute.StartFailure: the `statusText` between the status and the reply text is not stated, only the message's start and end.
- Logging (`console.*`) everywhere.
- Page: `FileReader` data-URL encoding is not modelled; files arrive as data-URL strings.
- Page: React rendering, the loading flags, studio and mode switching, `alert` display and `handleVideoImageUpload` are not modelled.
- Page: overlapping uploads are not modelled. The remaining room is computed before the files are read and the append uses the then-current list, so two concurrent uploads can exceed three.
- Page: the `referenceImages` the page sends to the image route are not modelled, because the route ignores them.
- The debug model route and the layout are not modelled: one is a passthrough of an upstream fetch, the other static markup. The stand-alone scripts are not modelled either: they only perform I/O.
