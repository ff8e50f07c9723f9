/** The studio page's handler logic: the reference-image list (capped at
    three, removed by index), the payload the video studio posts, how each
    studio reads the route's JSON answer, and when Generate is disabled. */
module StudioPage {
  import opened Js
  import VeoRoute
  import ImagenRoute
  import GenAi

  const MaxReferences: nat := 3
  const StudioErrorPrefix := "Studio Error: "
  const LinkPrefix := "http"

  datatype StudioMode = ImageStudio | VideoStudio

  /** The image studio's model switch, sent as `mode`. */
  datatype ImageModel = Fast | Pro

  datatype VideoMode = TextVideo | ImageVideo | Interpolation

  function ImageModelName(m: ImageModel): string {
    match m
    case Fast => "fast"
    case Pro => "pro"
  }

  function VideoModeName(m: VideoMode): string {
    match m
    case TextVideo => "text"
    case ImageVideo => "image"
    case Interpolation => "interpolation"
  }

  // ---------------------------------------------------- reference images

  /** `s.slice(0, end)`: a negative `end` counts from the back. */
  function SliceTo<T>(s: seq<T>, end: int): (r: seq<T>)
    ensures 0 <= end ==> |r| == if end < |s| then end else |s|
    ensures end < 0 ==> |r| == if |s| + end < 0 then 0 else |s| + end
    ensures r <= s
  {
    var n := if end >= 0 then end else |s| + end;
    if n <= 0 then [] else if n >= |s| then s else s[..n]
  }

  /** `s.filter((_, idx) => idx !== i)` */
  function WithoutIndex<T>(s: seq<T>, i: int): (r: seq<T>)
    decreases |s|
    ensures 0 <= i < |s| ==> r == s[..i] + s[i + 1..]
    ensures !(0 <= i < |s|) ==> r == s
  {
    if s == [] then []
    else (if i == 0 then [] else [s[0]]) + WithoutIndex(s[1..], i - 1)
  }

  /** The page's reference images, in the order they were added. */
  class Studio {
    var referenceImages: seq<string>

    /** The cap the upload handler keeps. */
    predicate Valid()
      reads this
    {
      |referenceImages| <= MaxReferences
    }

    constructor ()
      ensures referenceImages == [] && Valid()
    {
      referenceImages := [];
    }

    /** The upload control is rendered only while there is room. */
    function UploadVisible(): (visible: bool)
      reads this
      ensures visible <==> |referenceImages| < MaxReferences
    {
      |referenceImages| < 3
    }

    /** `handleRefImageUpload`: the selected files, already read as data
        URLs, are appended up to the remaining room, in selection order. */
    method Upload(files: Option<seq<string>>)
      modifies this
      ensures files.None? ==> referenceImages == old(referenceImages)
      ensures files.Some? ==>
                referenceImages == old(referenceImages) + SliceTo(files.value, MaxReferences - |old(referenceImages)|)
      ensures old(Valid()) ==> Valid()
      ensures old(Valid()) && files.Some? ==>
                |referenceImages| == |old(referenceImages)| +
                  (if |files.value| < MaxReferences - |old(referenceImages)| then |files.value|
                   else MaxReferences - |old(referenceImages)|)
    {
      if files.Some? {
        var remaining := 3 - |referenceImages|;
        var newBase64s := SliceTo(files.value, remaining);
        referenceImages := referenceImages + newBase64s;
      }
    }

    /** The remove button of reference `i`. */
    method RemoveReference(i: int)
      modifies this
      ensures 0 <= i < |old(referenceImages)| ==>
                referenceImages == old(referenceImages)[..i] + old(referenceImages)[i + 1..]
      ensures !(0 <= i < |old(referenceImages)|) ==> referenceImages == old(referenceImages)
      ensures old(Valid()) ==> Valid()
    {
      referenceImages := WithoutIndex(referenceImages, i);
    }
  }

  // ------------------------------------------------------- video payload

  /** A payload field: not set at all, or set from state that may be null. */
  datatype Field = Absent | Value(v: Option<string>)

  datatype VideoPayload = VideoPayload(prompt: string, mode: VideoMode, image: Field, startFrame: Field, endFrame: Field)

  /** `generateVideo`'s payload: prompt and mode always; the input image in
      mode `image`; both frames in mode `interpolation`. */
  function Payload(prompt: string, mode: VideoMode, inputImage: Option<string>,
                   startFrame: Option<string>, endFrame: Option<string>): (p: VideoPayload)
    ensures p.prompt == prompt && p.mode == mode
    ensures p.image.Value? <==> mode == ImageVideo
    ensures p.startFrame.Value? <==> mode == Interpolation
    ensures p.endFrame.Value? <==> mode == Interpolation
    ensures mode == ImageVideo ==> p.image == Value(inputImage)
    ensures mode == Interpolation ==> p.startFrame == Value(startFrame) && p.endFrame == Value(endFrame)
  {
    var payload := VideoPayload(prompt, mode, Absent, Absent, Absent);
    match mode
    case ImageVideo => payload.(image := Value(inputImage))
    case Interpolation => payload.(startFrame := Value(startFrame), endFrame := Value(endFrame))
    case TextVideo => payload
  }

  /** A field as the route reads it: absent and null are alike. */
  function FieldValue(f: Field): Option<string> {
    match f
    case Absent => None
    case Value(v) => v
  }

  /** The payload as the video route reads it. */
  function AsVideoRequest(p: VideoPayload): VeoRoute.VideoRequest {
    VeoRoute.VideoRequest(Some(p.prompt), Some(VideoModeName(p.mode)), FieldValue(p.image),
                          FieldValue(p.startFrame), FieldValue(p.endFrame))
  }

  /** What the page's payload makes the route send: the prompt when it is
      typed, the input image only in mode `image`, the start frame only in
      mode `interpolation` with both frames chosen, and never an image in
      mode `text`. */
  lemma PayloadInstance(prompt: string, mode: VideoMode, inputImage: Option<string>,
                                          startFrame: Option<string>, endFrame: Option<string>)
    ensures var inst := VeoRoute.InstanceFor(AsVideoRequest(Payload(prompt, mode, inputImage, startFrame, endFrame)));
      && (inst.prompt.Some? <==> prompt != "")
      && (inst.image.Some? <==>
            (mode == ImageVideo && Truthy(inputImage)) ||
            (mode == Interpolation && Truthy(startFrame) && Truthy(endFrame)))
      && (mode == ImageVideo && Truthy(inputImage) ==>
            inst.image == Some(VeoRoute.StripBase64Prefix(inputImage.value)))
      && (mode == Interpolation && inst.image.Some? ==>
            inst.image == Some(VeoRoute.StripBase64Prefix(startFrame.value)))
  {
  }

  // ------------------------------------------------------ reading a reply

  /** What the page does with a reply: alert an error, store a result, or
      (video studio only) alert that nothing came back. */
  datatype Outcome = Alerted(message: string) | Stored(result: string) | NothingStored

  /** The fields of the video route's JSON that the page reads. */
  datatype VideoData = VideoData(error: Option<string>, video: Option<string>, videoUrl: Option<string>)

  /** `generateVideo` after the fetch: `data` is the parsed JSON, or the
      error that the fetch or the parse threw. */
  function VideoOutcome(data: Upstream<VideoData>): (o: Outcome)
    ensures o.Alerted? <==> data.Threw? || Truthy(data.value.error)
    ensures data.Returned? && Truthy(data.value.error) ==> o == Alerted(StudioErrorPrefix + data.value.error.value)
    ensures o.Stored? <==> data.Returned? && !Truthy(data.value.error) && (Truthy(data.value.video) || Truthy(data.value.videoUrl))
    ensures o.Stored? && Truthy(data.value.video) ==> o.result == data.value.video.value
    ensures o.Stored? && !Truthy(data.value.video) ==> o.result == data.value.videoUrl.value
  {
    match data
    case Threw(e) => Alerted(StudioErrorPrefix + Render(e.message))
    case Returned(d) =>
      if Truthy(d.error) then Alerted(StudioErrorPrefix + d.error.value)
      else if Truthy(d.video) then Stored(d.video.value)
      else if Truthy(d.videoUrl) then Stored(d.videoUrl.value)
      else NothingStored
  }

  /** The JSON of a video route body. */
  function VeoData(b: VeoRoute.VeoBody): VideoData {
    match b
    case VeoError(e) => VideoData(Some(e), None, None)
    case VeoVideo(url, _) => VideoData(None, None, Some(url))
  }

  /** Once the poll loop has run, the page either alerts or stores the
      route's `videoUrl`; the "no video returned" alert cannot happen. */
  lemma PollReplyAlwaysHandled(poll: nat -> Upstream<VeoRoute.PollData>)
    ensures var r := VeoRoute.PollFrom(poll, 0);
      && (r.Completed? ==> VideoOutcome(Returned(VeoData(VeoRoute.PollResponse(r).body))) == Stored(VeoRoute.VideoUrl(r.data)))
      && (!r.Completed? ==> VideoOutcome(Returned(VeoData(VeoRoute.PollResponse(r).body))).Alerted?)
  {
  }

  /** The fields of the image route's JSON that the page reads. */
  datatype ImageData = ImageData(error: Option<string>, image: Option<string>)

  /** `generateImage` after the fetch: an error alerts, otherwise `image`
      is stored as it is. */
  function ImageOutcome(data: Upstream<ImageData>): (o: Outcome)
    ensures o.Alerted? <==> data.Threw? || Truthy(data.value.error)
    ensures o.Stored? <==> data.Returned? && !Truthy(data.value.error) && data.value.image.Some?
    ensures o.Stored? ==> o.result == data.value.image.value
  {
    match data
    case Threw(e) => Alerted(StudioErrorPrefix + Render(e.message))
    case Returned(d) =>
      if Truthy(d.error) then Alerted(StudioErrorPrefix + d.error.value)
      else match d.image
        case Some(img) => Stored(img)
        case None => NothingStored
  }

  /** The JSON of an image route body. */
  function ImagenData(b: ImagenRoute.ImagenBody): ImageData {
    match b
    case TextWithWarning(_, _) => ImageData(None, None)
    case ImagenError(e) => ImageData(Some(e), None)
  }

  /** The page never stores an image from the image route: a 200 reply has
      no `image` field, and every other reply alerts. */
  lemma ImageRouteNeverShowsImage(apiKey: Option<string>, body: Upstream<ImagenRoute.ImagenRequest>,
                                                    vendor: ImagenRoute.ImagenCall -> Upstream<GenAi.GenerateResponse>)
    ensures var resp := ImagenRoute.Post(apiKey, body, vendor);
      && (resp.status == StatusOk ==> ImageOutcome(Returned(ImagenData(resp.body))) == NothingStored)
      && (resp.status != StatusOk ==> ImageOutcome(Returned(ImagenData(resp.body))).Alerted?)
  {
  }

  /** The image request the page posts, as the image route reads it. */
  function AsImagenRequest(prompt: string, model: ImageModel): ImagenRoute.ImagenRequest {
    ImagenRoute.ImagenRequest(Some(prompt), Some(ImageModelName(model)))
  }

  /** The page's switch picks the route's model: fast gives the flash model,
      pro the preview. */
  lemma PageModelSelection(prompt: string, model: ImageModel)
    ensures ImagenRoute.ModelFor(AsImagenRequest(prompt, model).mode) ==
              (if model == Fast then ImagenRoute.FastModel else ImagenRoute.ProModel)
  {
  }

  // ---------------------------------------------------------- the button

  /** The Generate button's `disabled`. */
  predicate GenerateDisabled(studio: StudioMode, imageLoading: bool, imagePrompt: string,
                             videoLoading: bool, videoPrompt: string, videoMode: VideoMode)
  {
    if studio == ImageStudio then imageLoading || imagePrompt == ""
    else videoLoading || (videoPrompt == "" && videoMode == TextVideo)
  }

  /** An enabled button in the video studio's text mode sends a prompt,
      since the route drops an empty one and text mode has no image. */
  lemma EnabledTextVideoSendsPrompt(imageLoading: bool, imagePrompt: string, videoLoading: bool,
                                                      videoPrompt: string, inputImage: Option<string>,
                                                      startFrame: Option<string>, endFrame: Option<string>)
    requires !GenerateDisabled(VideoStudio, imageLoading, imagePrompt, videoLoading, videoPrompt, TextVideo)
    ensures var inst := VeoRoute.InstanceFor(AsVideoRequest(Payload(videoPrompt, TextVideo, inputImage, startFrame, endFrame)));
      inst.prompt == Some(videoPrompt) && inst.image.None?
  {
  }

  /** The button's cases: in the image studio it is off while an image is
      loading or the prompt is empty, whatever the video studio holds; in
      the video studio it is off while a video is loading, or when the
      prompt is empty in text mode, whatever the image studio holds; an
      empty prompt is allowed in modes `image` and `interpolation`. */
  lemma GenerateDisabledCases(imageLoading: bool, imagePrompt: string, videoLoading: bool,
                              videoPrompt: string, videoMode: VideoMode,
                              otherLoading: bool, otherPrompt: string, otherMode: VideoMode)
    ensures GenerateDisabled(ImageStudio, imageLoading, imagePrompt, videoLoading, videoPrompt, videoMode) <==>
              imageLoading || imagePrompt == ""
    ensures GenerateDisabled(ImageStudio, imageLoading, imagePrompt, videoLoading, videoPrompt, videoMode) ==
              GenerateDisabled(ImageStudio, imageLoading, imagePrompt, otherLoading, otherPrompt, otherMode)
    ensures GenerateDisabled(VideoStudio, imageLoading, imagePrompt, videoLoading, videoPrompt, videoMode) <==>
              videoLoading || (videoPrompt == "" && videoMode == TextVideo)
    ensures GenerateDisabled(VideoStudio, imageLoading, imagePrompt, videoLoading, videoPrompt, videoMode) ==
              GenerateDisabled(VideoStudio, otherLoading, otherPrompt, videoLoading, videoPrompt, videoMode)
    ensures videoMode != TextVideo ==>
              !GenerateDisabled(VideoStudio, imageLoading, imagePrompt, false, "", videoMode)
  {
  }

  // ------------------------------------------------------ showing a video

  /** `videoResult.startsWith('http')`: a download link rather than a player. */
  predicate ShowAsLink(videoResult: string) {
    LinkPrefix <= videoResult
  }

  /** A result is shown as a link exactly when it is `http` followed by
      anything, so `https` URLs are links too. */
  lemma ShowAsLinkExactlyHttp(videoResult: string, rest: string)
    ensures ShowAsLink(LinkPrefix + rest)
    ensures ShowAsLink(videoResult) ==> videoResult == LinkPrefix + videoResult[|LinkPrefix|..]
    ensures |videoResult| < |LinkPrefix| ==> !ShowAsLink(videoResult)
  {
    assert (LinkPrefix + rest)[..|LinkPrefix|] == LinkPrefix;
  }

  /** The route's placeholder for a finished operation without a URI is not
      a link, so it is handed to the inline player. */
  lemma PlaceholderPlayedInline()
    ensures !ShowAsLink(VeoRoute.VideoPlaceholder)
  {
    assert VeoRoute.VideoPlaceholder[0] == 'V';
  }
}
