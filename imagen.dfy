/** POST /api/imagen: the image-studio route. It maps the `mode` switch to
    a Gemini model id, sends the prompt, and wraps the text of the answer
    with a fixed warning; it never returns an image. */
module ImagenRoute {
  import opened Js
  import opened GenAi

  const FastModel := "gemini-2.5-flash-image"
  const ProModel := "gemini-3-pro-image-preview"
  const FastMode := "fast"

  const MissingKeyMessage := "GOOGLE_API_KEY is not configured"
  const TextOnlyWarning := "Gemini 2.0 Flash (Text) used. Image generation requires Imagen model."

  /** The fields of the JSON request body that the route reads. */
  datatype ImagenRequest = ImagenRequest(prompt: Option<string>, mode: Option<string>)

  /** One generateContent call: the model and the prompt handed to it. */
  datatype ImagenCall = ImagenCall(model: string, prompt: Option<string>)

  datatype ImagenBody = TextWithWarning(text: string, warning: string) | ImagenError(error: string)

  /** `mode === 'fast' ? 'gemini-2.5-flash-image' : 'gemini-3-pro-image-preview'` */
  function ModelFor(mode: Option<string>): (m: string)
    ensures m == FastModel <==> mode == Some(FastMode)
    ensures m == FastModel || m == ProModel
  {
    if mode == Some(FastMode) then FastModel else ProModel
  }

  /** The `POST` handler. `body` is the outcome of `req.json()` and `vendor`
      stands for the SDK's generateContent. */
  function Post(apiKey: Option<string>, body: Upstream<ImagenRequest>,
                vendor: ImagenCall -> Upstream<GenerateResponse>): (resp: Response<ImagenBody>)
    ensures !Truthy(apiKey) ==> resp == Response(StatusServerError, ImagenError(MissingKeyMessage))
    ensures resp.status == StatusOk || resp.status == StatusServerError
    ensures resp.status == StatusOk <==> resp.body.TextWithWarning?
    ensures resp.body.TextWithWarning? ==> resp.body.warning == TextOnlyWarning
    ensures body.Threw? && Truthy(apiKey) ==>
              resp == Response(StatusServerError, ImagenError(ErrorMessage(body.error)))
    ensures body.Returned? && Truthy(apiKey) ==>
              resp == Reply(vendor(ImagenCall(ModelFor(body.value.mode), body.value.prompt)))
  {
    if !Truthy(apiKey) then Response(StatusServerError, ImagenError(MissingKeyMessage))
    else match body
      case Threw(e) => Response(StatusServerError, ImagenError(ErrorMessage(e)))
      case Returned(req) => Reply(vendor(ImagenCall(ModelFor(req.mode), req.prompt)))
  }

  /** The reply to the single call: its text with the warning, or a 500
      when the call or `text()` throws. */
  function Reply(u: Upstream<GenerateResponse>): (resp: Response<ImagenBody>)
    ensures resp.status == StatusOk <==> u.Returned? && u.value.text.Returned?
    ensures resp.status == StatusOk ==> resp.body == TextWithWarning(u.value.text.value, TextOnlyWarning)
    ensures u.Threw? ==> resp == Response(StatusServerError, ImagenError(ErrorMessage(u.error)))
    ensures u.Returned? && u.value.text.Threw? ==>
              resp == Response(StatusServerError, ImagenError(ErrorMessage(u.value.text.error)))
  {
    match u
    case Threw(e) => Response(StatusServerError, ImagenError(ErrorMessage(e)))
    case Returned(r) =>
      match r.text
      case Threw(e) => Response(StatusServerError, ImagenError(ErrorMessage(e)))
      case Returned(t) => Response(StatusOk, TextWithWarning(t, TextOnlyWarning))
  }

  /** Without a key the answer depends neither on the request nor on the vendor:
      the body is never read and no call is made. */
  lemma MissingKeyIgnoresRequest(apiKey: Option<string>, b1: Upstream<ImagenRequest>, b2: Upstream<ImagenRequest>,
                                 v1: ImagenCall -> Upstream<GenerateResponse>, v2: ImagenCall -> Upstream<GenerateResponse>)
    requires !Truthy(apiKey)
    ensures Post(apiKey, b1, v1) == Post(apiKey, b2, v2)
  {
  }

  /** With a key, the outcome depends on the vendor only through the one
      call it is asked, on the model `mode` selects. */
  lemma SingleCall(apiKey: Option<string>, req: ImagenRequest,
                   v1: ImagenCall -> Upstream<GenerateResponse>, v2: ImagenCall -> Upstream<GenerateResponse>)
    requires Truthy(apiKey)
    requires v1(ImagenCall(ModelFor(req.mode), req.prompt)) == v2(ImagenCall(ModelFor(req.mode), req.prompt))
    ensures Post(apiKey, Returned(req), v1) == Post(apiKey, Returned(req), v2)
  {
  }
}
