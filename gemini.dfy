/** POST /api/gemini: a generateContent call on the chosen model, read as
    an image (first part with inline data) or as text, with a single
    fallback call to `gemini-2.0-flash` when anything in the primary
    attempt throws, and the final error classified as quota (429) or
    server error (500). */
module GeminiRoute {
  import opened Js
  import opened Strings
  import opened Seqs
  import opened GenAi

  const DefaultModel := "gemini-3-pro-image-preview"
  const FallbackModel := "gemini-2.0-flash"
  const DefaultPrompt := "Generate a hyper-realistic infographic of a gourmet cheeseburger, deconstructed"

  const MissingKeyMessage := "GOOGLE_API_KEY is not configured"
  const QuotaCode: nat := 429
  const QuotaMarker := "429"
  const QuotaMessage := "Quota exceeded (429). Please wait a moment and try again."

  /** One generateContent call: the model and the prompt handed to it. */
  datatype GeminiCall = GeminiCall(model: string, prompt: Option<string>)

  datatype GeminiBody =
    | GeminiImage(image: string, text: string)
    | GeminiText(text: string)
    | GeminiFallback(text: string, note: string)
    | QuotaError(code: nat, message: string)
    | GeminiError(error: string)

  /** `modelId || 'gemini-3-pro-image-preview'` */
  function ModelName(modelId: Option<string>): (m: string)
    ensures m != ""
    ensures Truthy(modelId) ==> m == modelId.value
    ensures !Truthy(modelId) ==> m == DefaultModel
  {
    Or(modelId, DefaultModel)
  }

  /** The primary call sends the prompt, or the built-in one when it is falsy. */
  function PrimaryCall(modelId: Option<string>, prompt: Option<string>): GeminiCall {
    GeminiCall(ModelName(modelId), Some(Or(prompt, DefaultPrompt)))
  }

  /** The fallback call goes to the fallback model with the prompt as received. */
  function FallbackCall(prompt: Option<string>): GeminiCall {
    GeminiCall(FallbackModel, prompt)
  }

  /** `parts?.find(p => p.inlineData)`: any present `inlineData` object counts. */
  predicate HasInline(p: ResponsePart) {
    p.inlineData.Some?
  }

  /** The parts searched for an image: those of the first candidate, when
      there are candidates; otherwise none. */
  function SearchedParts(r: GenerateResponse): seq<ResponsePart> {
    match FirstCandidateParts(r)
    case Some(ps) => ps
    case None => []
  }

  /** `data:${mimeType};base64,${data}` */
  function ImageUri(d: InlineData): string {
    "data:" + Render(d.mimeType) + ";base64," + Render(d.data)
  }

  /** What the primary attempt yields for a returned response; `text()`
      throwing is a throw of the attempt, image or not. */
  function PrimaryReply(r: GenerateResponse): (out: Upstream<GeminiBody>)
    ensures r.text.Threw? ==> out == Threw(r.text.error)
    ensures r.text.Returned? && (exists k :: 0 <= k < |SearchedParts(r)| && HasInline(SearchedParts(r)[k])) ==>
              out.Returned? && out.value.GeminiImage? && out.value.text == r.text.value
    ensures forall k :: r.text.Returned? && IsFirst(SearchedParts(r), HasInline, k) ==>
              out == Returned(GeminiImage(ImageUri(SearchedParts(r)[k].inlineData.value), r.text.value))
    ensures r.text.Returned? && (forall k :: 0 <= k < |SearchedParts(r)| ==> !HasInline(SearchedParts(r)[k])) ==>
              out == Returned(GeminiText(r.text.value))
  {
    var parts := SearchedParts(r);
    match r.text
    case Threw(e) => Threw(e)
    case Returned(t) =>
      match FindFirst(parts, HasInline)
      case Some(k) => Returned(GeminiImage(ImageUri(parts[k].inlineData.value), t))
      case None => Returned(GeminiText(t))
  }

  /** The whole primary attempt: the call itself may throw too. */
  function PrimaryOutcome(u: Upstream<GenerateResponse>): Upstream<GeminiBody> {
    match u
    case Threw(e) => Threw(e)
    case Returned(r) => PrimaryReply(r)
  }

  /** `error.message?.includes('429') || error.status === 429` */
  predicate QuotaExceeded(e: Error) {
    (e.message.Some? && Contains(e.message.value, QuotaMarker)) || e.status == Some(429)
  }

  /** The outer catch: a quota error becomes the 429 envelope, any other
      error a 500 with its message. */
  function ErrorResponse(e: Error): (resp: Response<GeminiBody>)
    ensures resp.status == QuotaCode <==> QuotaExceeded(e)
    ensures QuotaExceeded(e) ==> resp.body == QuotaError(QuotaCode, QuotaMessage)
    ensures !QuotaExceeded(e) ==> resp == Response(StatusServerError, GeminiError(ErrorMessage(e)))
  {
    if QuotaExceeded(e) then Response(QuotaCode, QuotaError(QuotaCode, QuotaMessage))
    else Response(StatusServerError, GeminiError(ErrorMessage(e)))
  }

  /** A message with no `4` in it never mentions 429. */
  lemma NoFourNoQuotaMarker(s: string)
    requires forall k :: 0 <= k < |s| ==> s[k] != '4'
    ensures !Contains(s, QuotaMarker)
  {
    forall i: nat | i <= |s|
      ensures !OccursAt(s, QuotaMarker, i)
    {
      if i + |QuotaMarker| <= |s| {
        assert s[i..i + |QuotaMarker|][0] == s[i];
      }
    }
  }

  /** The missing-key error is not a quota error, so it ends at 500. */
  lemma MissingKeyIsServerError()
    ensures ErrorResponse(Thrown(MissingKeyMessage)) == Response(StatusServerError, GeminiError(MissingKeyMessage))
  {
    NoFourNoQuotaMarker(MissingKeyMessage);
  }

  function FallbackNote(modelName: string): string {
    "Original model (" + modelName + ") was hit by quota or error, used fallback (" + FallbackModel + ")."
  }

  /** The `POST` handler, with `vendor` standing for the SDK's generateContent;
      `calls` lists the calls made, in order. */
  method Post(prompt: Option<string>, modelId: Option<string>, apiKey: Option<string>,
              vendor: GeminiCall -> Upstream<GenerateResponse>)
    returns (resp: Response<GeminiBody>, calls: seq<GeminiCall>)
    ensures !Truthy(apiKey) ==> calls == [] && resp == Response(StatusServerError, GeminiError(MissingKeyMessage))
    ensures Truthy(apiKey) ==> 1 <= |calls| <= 2 && calls[0] == PrimaryCall(modelId, prompt)
    // the primary attempt succeeds: its body, and no second call
    ensures Truthy(apiKey) && PrimaryOutcome(vendor(PrimaryCall(modelId, prompt))).Returned? ==>
              calls == [PrimaryCall(modelId, prompt)] &&
              resp == Response(StatusOk, PrimaryOutcome(vendor(PrimaryCall(modelId, prompt))).value)
    // the primary attempt fails on the fallback model itself: rethrown, no second call
    ensures Truthy(apiKey) && PrimaryOutcome(vendor(PrimaryCall(modelId, prompt))).Threw? && ModelName(modelId) == FallbackModel ==>
              calls == [PrimaryCall(modelId, prompt)] &&
              resp == ErrorResponse(PrimaryOutcome(vendor(PrimaryCall(modelId, prompt))).error)
    // the primary attempt fails on another model: exactly one fallback call
    ensures Truthy(apiKey) && PrimaryOutcome(vendor(PrimaryCall(modelId, prompt))).Threw? && ModelName(modelId) != FallbackModel ==>
              calls == [PrimaryCall(modelId, prompt), FallbackCall(prompt)] &&
              resp == FallbackResponse(ModelName(modelId), vendor(FallbackCall(prompt)))
    ensures |calls| == 2 ==> calls[1].model == FallbackModel && calls[0].model != FallbackModel
    ensures resp.status == StatusOk || resp.status == QuotaCode || resp.status == StatusServerError
  {
    if !Truthy(apiKey) {
      MissingKeyIsServerError();
      resp := ErrorResponse(Thrown(MissingKeyMessage));
      calls := [];
      return;
    }
    var modelName := ModelName(modelId);
    var primaryCall := GeminiCall(modelName, Some(Or(prompt, DefaultPrompt)));
    calls := [primaryCall];
    var primary := PrimaryOutcome(vendor(primaryCall));
    if primary.Returned? {
      resp := Response(StatusOk, primary.value);
      return;
    }
    if modelName != FallbackModel {
      var fallbackCall := GeminiCall(FallbackModel, prompt);
      calls := calls + [fallbackCall];
      var fallback := vendor(fallbackCall);
      resp := FallbackResponse(modelName, fallback);
      return;
    }
    resp := ErrorResponse(primary.error);
  }

  /** The fallback attempt: its text with a note naming both models, or
      the outer error handling when the call or `text()` throws. */
  function FallbackResponse(modelName: string, u: Upstream<GenerateResponse>): (resp: Response<GeminiBody>)
    ensures u.Threw? ==> resp == ErrorResponse(u.error)
    ensures u.Returned? && u.value.text.Threw? ==> resp == ErrorResponse(u.value.text.error)
    ensures u.Returned? && u.value.text.Returned? ==>
              resp.status == StatusOk && resp.body.GeminiFallback? && resp.body.text == u.value.text.value &&
              Contains(resp.body.note, modelName) && Contains(resp.body.note, FallbackModel)
  {
    match u
    case Threw(e) => ErrorResponse(e)
    case Returned(r) =>
      match r.text
      case Threw(e) => ErrorResponse(e)
      case Returned(t) =>
        NoteNamesModels(modelName);
        Response(StatusOk, GeminiFallback(t, FallbackNote(modelName)))
  }

  lemma NoteNamesModels(modelName: string)
    ensures Contains(FallbackNote(modelName), modelName)
    ensures Contains(FallbackNote(modelName), FallbackModel)
  {
    var note := FallbackNote(modelName);
    var p := "Original model (";
    var q := p + modelName + ") was hit by quota or error, used fallback (";
    assert note[|p|..|p| + |modelName|] == modelName;
    assert OccursAt(note, modelName, |p|);
    assert note[|q|..|q| + |FallbackModel|] == FallbackModel;
    assert OccursAt(note, FallbackModel, |q|);
  }
}
