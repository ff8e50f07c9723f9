/** POST /api/veo: video generation as a long-running operation. The
    handler checks the service-account credentials, builds a one-instance
    request, starts the operation, polls it at most twenty times and pulls
    a video URI out of the finished operation. */
module VeoRoute {
  import opened Js
  import opened Strings

  const Location := "us-central1"
  const ModelId := "veo-3.1-generate-preview"
  const MaxAttempts: nat := 20

  const Base64Marker := "base64,"

  const MissingCredentials := "VERTEX_CREDENTIALS missing"
  const BadCredentials := "Server configuration error (Credentials)"
  const NoAccessToken := "Failed to generate access token"
  const TimedOutMessage := "Operation timed out (generating in background)."
  const VideoPlaceholder := "Video generated (Check output)"
  const NotFoundMessage := "Model " + ModelId + " not found in " + Location + ". Your project might not have access to Veo."

  const StatusNotFound: nat := 404
  const StatusTimeout: nat := 504

  /** The fields of the JSON request body the handler reads. */
  datatype VideoRequest = VideoRequest(
    prompt: Option<string>,
    mode: Option<string>,
    image: Option<string>,
    startFrame: Option<string>,
    endFrame: Option<string>)

  // ------------------------------------------------------ data-URI prefix

  lemma MarkerNoSelfOverlap()
    ensures NoSelfOverlap(Base64Marker)
  {
    assert Base64Marker == ['b', 'a', 's', 'e', '6', '4', ','];
  }

  /** `s.includes('base64,') ? s.split('base64,')[1] : s` */
  function StripBase64Prefix(s: string): (r: string)
    ensures !Contains(s, Base64Marker) ==> r == s
    ensures !Contains(r, Base64Marker)
    ensures forall k: nat :: FirstOccurrence(s, Base64Marker, k) ==>
              var rest := s[k + |Base64Marker|..];
              r <= rest && (r == rest || OccursAt(rest, Base64Marker, |r|))
  {
    match SecondPiece(s, Base64Marker)
    case None => s
    case Some(piece) =>
      var k := IndexOf(s, Base64Marker).value;
      FirstUnique(s, Base64Marker, k);
      var rest := s[k + |Base64Marker|..];
      PieceHasNoMarker(rest);
      piece
  }

  /** No piece `split` returns contains the separator. */
  lemma PieceHasNoMarker(rest: string)
    ensures match IndexOf(rest, Base64Marker)
            case None => !Contains(rest, Base64Marker)
            case Some(j) => !Contains(rest[..j], Base64Marker)
  {
    match IndexOf(rest, Base64Marker)
    case None =>
    case Some(j) =>
      forall i: nat | i <= j
        ensures !OccursAt(rest[..j], Base64Marker, i)
      {
        if i + |Base64Marker| <= j {
          assert rest[..j][i..i + |Base64Marker|] == rest[i..i + |Base64Marker|];
          assert !OccursAt(rest, Base64Marker, i);
        }
      }
  }

  /** A data URL `<p>base64,<d>` comes back as its payload `d`. */
  lemma StripDataUrl(p: string, d: string)
    requires !Contains(p, Base64Marker) && !Contains(d, Base64Marker)
    ensures StripBase64Prefix(p + Base64Marker + d) == d
  {
    MarkerNoSelfOverlap();
    SecondPieceOf(p, Base64Marker, d);
  }

  // ------------------------------------------------------ request payload

  /** One element of `instances`; `image` stands for `image.bytesBase64Encoded`. */
  datatype Instance = Instance(prompt: Option<string>, image: Option<string>)

  datatype RequestBody = RequestBody(instances: seq<Instance>, sampleCount: nat)

  /** The instance the handler sends for a request. */
  function InstanceFor(req: VideoRequest): Instance {
    Instance(
      if Truthy(req.prompt) then req.prompt else None,
      if req.mode == Some("image") && Truthy(req.image) then
        Some(StripBase64Prefix(req.image.value))
      else if req.mode == Some("interpolation") && Truthy(req.startFrame) && Truthy(req.endFrame) then
        Some(StripBase64Prefix(req.startFrame.value))
      else None)
  }

  /** Builds the request body by assigning the instance's fields one by one
      and pushing it onto `instances`. */
  method BuildRequestBody(req: VideoRequest) returns (body: RequestBody)
    ensures body == RequestBody([InstanceFor(req)], 1)
  {
    var instances: seq<Instance> := [];
    var instance := Instance(None, None);
    if Truthy(req.prompt) {
      instance := instance.(prompt := req.prompt);
    }
    if req.mode == Some("image") && Truthy(req.image) {
      var base64 := StripBase64Prefix(req.image.value);
      instance := instance.(image := Some(base64));
    } else if req.mode == Some("interpolation") && Truthy(req.startFrame) && Truthy(req.endFrame) {
      var startBase64 := StripBase64Prefix(req.startFrame.value);
      var endBase64 := StripBase64Prefix(req.endFrame.value);
      instance := instance.(image := Some(startBase64));
    }
    instances := instances + [instance];
    body := RequestBody(instances, 1);
  }

  /** Where the instance's image comes from: the `image` field in mode
      `image`, the start frame in mode `interpolation`, nothing otherwise;
      it never carries a `base64,` marker, and the prompt is sent only when
      it is non-empty. */
  lemma InstanceSources(req: VideoRequest)
    ensures var inst := InstanceFor(req);
      && (inst.prompt.Some? <==> Truthy(req.prompt))
      && (inst.prompt.Some? ==> inst.prompt == req.prompt)
      && (inst.image.Some? ==> !Contains(inst.image.value, Base64Marker))
      && (inst.image.Some? <==>
            (req.mode == Some("image") && Truthy(req.image)) ||
            (req.mode == Some("interpolation") && Truthy(req.startFrame) && Truthy(req.endFrame)))
      && (req.mode == Some("image") && Truthy(req.image) ==>
            inst.image == Some(StripBase64Prefix(req.image.value)))
      && (req.mode == Some("interpolation") && inst.image.Some? ==>
            inst.image.value == StripBase64Prefix(req.startFrame.value))
  {
  }

  /** The end frame only gates interpolation: its content never reaches the payload. */
  lemma EndFrameNeverSent(req: VideoRequest, otherEnd: Option<string>)
    requires Truthy(otherEnd) == Truthy(req.endFrame)
    ensures InstanceFor(req.(endFrame := otherEnd)) == InstanceFor(req)
  {
  }

  // ------------------------------------------------------------ upstream

  /** The URL the operation is started at. */
  function Endpoint(projectId: Option<string>): string {
    "https://" + Location + "-aiplatform.googleapis.com/v1beta1/projects/" + Render(projectId) +
    "/locations/" + Location + "/publishers/google/models/" + ModelId + ":predictLongRunning"
  }

  function PollUrl(operationName: Option<string>): string {
    "https://" + Location + "-aiplatform.googleapis.com/v1beta1/" + Render(operationName)
  }

  /** The upstream calls the handler makes, in order. */
  datatype VeoCall = TokenCall | StartCall(endpoint: string, body: RequestBody) | PollCall(url: string)

  /** The reply to the start call: `ok`, `status`, `statusText`, the body
      text read on failure, and `name` from the JSON body on success. */
  datatype StartReply = StartReply(ok: bool, status: nat, statusText: string, text: string, operationName: Option<string>)

  /** A non-ok start: 404 becomes a 404 naming model and location; any
      other status is thrown and becomes a 500 carrying status and text. */
  function StartFailure(reply: StartReply): (resp: Response<VeoBody>)
    ensures reply.status == StatusNotFound ==> resp == Response(StatusNotFound, VeoError(NotFoundMessage))
    ensures reply.status != StatusNotFound ==>
              resp.status == StatusServerError && resp.body.VeoError? &&
              ("Veo API Error: " + Decimal(reply.status) + " ") <= resp.body.error &&
              |reply.text| <= |resp.body.error| &&
              resp.body.error[|resp.body.error| - |reply.text|..] == reply.text
  {
    if reply.status == StatusNotFound then
      Response(StatusNotFound, VeoError(NotFoundMessage))
    else
      Response(StatusServerError, VeoError(
        "Veo API Error: " + Decimal(reply.status) + " " + reply.statusText + " - " + reply.text))
  }

  // -------------------------------------------------------------- polling

  datatype PollError = PollError(message: Option<string>)
  datatype VideoRef = VideoRef(uri: Option<string>)
  datatype Prediction = Prediction(video: Option<VideoRef>)
  datatype OperationResponse = OperationResponse(videoUri: Option<string>, predictions: Option<seq<Prediction>>)

  /** The JSON of one poll of the operation. */
  datatype PollData = PollData(done: bool, error: Option<PollError>, response: Option<OperationResponse>)

  /** How the poll loop ends, with the 0-based attempt it ended on. */
  datatype PollResult =
    | TimedOut
    | Failed(attempt: nat, message: string)
    | Completed(attempt: nat, data: PollData)
    | PollThrew(attempt: nat, error: Error)

  /** The number of polls issued before the loop ended. */
  function PollsIssued(r: PollResult): nat {
    if r.TimedOut? then MaxAttempts else r.attempt + 1
  }

  function FailureMessage(e: PollError): string {
    "Veo Generation Failed: " + Render(e.message)
  }

  /** Poll `j` answered and the operation was not done yet. */
  predicate Pending(poll: nat -> Upstream<PollData>, j: nat) {
    poll(j).Returned? && !poll(j).value.done
  }

  /** The poll loop from attempt `i` on, where `poll(j)` is the outcome of
      the `j`-th poll: it ends at the first poll that throws or reports
      done, and times out when none of the remaining attempts does. */
  function PollFrom(poll: nat -> Upstream<PollData>, i: nat): (r: PollResult)
    requires i <= MaxAttempts
    decreases MaxAttempts - i
    ensures r.TimedOut? <==> forall j :: i <= j < MaxAttempts ==> Pending(poll, j)
    ensures !r.TimedOut? ==> i <= r.attempt < MaxAttempts && !Pending(poll, r.attempt)
    ensures !r.TimedOut? ==> forall j :: i <= j < r.attempt ==> Pending(poll, j)
    ensures r.PollThrew? ==> poll(r.attempt) == Threw(r.error)
    ensures r.Completed? ==> poll(r.attempt) == Returned(r.data) && r.data.done && r.data.error.None?
    ensures r.Failed? ==> poll(r.attempt).Returned? && poll(r.attempt).value.done &&
                          poll(r.attempt).value.error.Some? &&
                          r.message == FailureMessage(poll(r.attempt).value.error.value)
  {
    if i == MaxAttempts then TimedOut
    else match poll(i)
      case Threw(e) =>
        assert !Pending(poll, i);
        PollThrew(i, e)
      case Returned(d) =>
        if d.done then
          assert !Pending(poll, i);
          if d.error.Some? then Failed(i, FailureMessage(d.error.value)) else Completed(i, d)
        else PollFrom(poll, i + 1)
  }

  /** The `for` loop over at most `MaxAttempts` polls, with its three exits. */
  method PollOperation(poll: nat -> Upstream<PollData>, operationName: Option<string>)
    returns (result: PollResult, calls: seq<VeoCall>)
    ensures result == PollFrom(poll, 0)
    ensures |calls| == PollsIssued(result) <= MaxAttempts
    ensures forall k :: 0 <= k < |calls| ==> calls[k] == PollCall(PollUrl(operationName))
  {
    var i: nat := 0;
    calls := [];
    while i < MaxAttempts
      invariant i <= MaxAttempts
      invariant PollFrom(poll, i) == PollFrom(poll, 0)
      invariant |calls| == i
      invariant forall k :: 0 <= k < |calls| ==> calls[k] == PollCall(PollUrl(operationName))
    {
      calls := calls + [PollCall(PollUrl(operationName))];
      var reply := poll(i);
      if reply.Threw? {
        result := PollThrew(i, reply.error);
        return;
      }
      var data := reply.value;
      if data.done {
        if data.error.Some? {
          result := Failed(i, FailureMessage(data.error.value));
          return;
        }
        result := Completed(i, data);
        return;
      }
      i := i + 1;
    }
    result := TimedOut;
  }

  // --------------------------------------------------------- the video URI

  function FirstPredictionUri(response: Option<OperationResponse>): Option<string> {
    match response
    case None => None
    case Some(r) =>
      match r.predictions
      case None => None
      case Some(ps) =>
        if |ps| == 0 then None
        else match ps[0].video
          case None => None
          case Some(v) => v.uri
  }

  /** `response?.videoUri || response?.predictions?.[0]?.video?.uri`, then
      `|| "Video generated (Check output)"`. */
  function VideoUrl(data: PollData): (url: string)
    ensures url != ""
    ensures data.response.Some? && Truthy(data.response.value.videoUri) ==>
              url == data.response.value.videoUri.value
    ensures !(data.response.Some? && Truthy(data.response.value.videoUri)) ==>
              url == Or(FirstPredictionUri(data.response), VideoPlaceholder)
  {
    match data.response
    case Some(r) =>
      if Truthy(r.videoUri) then r.videoUri.value
      else Or(FirstPredictionUri(data.response), VideoPlaceholder)
    case None => Or(FirstPredictionUri(data.response), VideoPlaceholder)
  }

  // --------------------------------------------------------------- handler

  datatype VeoBody = VeoError(error: string) | VeoVideo(videoUrl: string, raw: PollData)

  /** The response each exit of the poll loop produces. */
  function PollResponse(r: PollResult): (resp: Response<VeoBody>)
    ensures resp.status == StatusTimeout <==> r.TimedOut?
    ensures resp.status == StatusOk <==> r.Completed?
    ensures r.TimedOut? ==> resp.body == VeoError(TimedOutMessage)
    ensures r.Completed? ==> resp.body == VeoVideo(VideoUrl(r.data), r.data)
    ensures r.Failed? ==> resp == Response(StatusServerError, VeoError(r.message))
    ensures r.PollThrew? ==> resp == Response(StatusServerError, VeoError(ErrorMessage(r.error)))
  {
    match r
    case TimedOut => Response(StatusTimeout, VeoError(TimedOutMessage))
    case Failed(_, msg) => Response(StatusServerError, VeoError(msg))
    case Completed(_, data) => Response(StatusOk, VeoVideo(VideoUrl(data), data))
    case PollThrew(_, e) => Response(StatusServerError, VeoError(ErrorMessage(e)))
  }

  predicate CredentialsOk(credentialsEnv: Option<string>, parsed: Option<ServiceAccount>) {
    Truthy(credentialsEnv) && parsed.Some?
  }

  predicate TokenOk(token: Upstream<Option<string>>) {
    token.Returned? && Truthy(token.value)
  }

  predicate Started(start: Upstream<StartReply>) {
    start.Returned? && start.value.ok
  }

  /** The `POST` handler. `parsed` is what `JSON.parse` makes of
      `VERTEX_CREDENTIALS` (`None` when it throws), `token` the outcome of
      obtaining an access token, `start` that of the start call, and
      `poll(j)` that of the `j`-th poll. `calls` lists the upstream calls
      made, in order. */
  method Post(req: VideoRequest, credentialsEnv: Option<string>, parsed: Option<ServiceAccount>,
              token: Upstream<Option<string>>, start: Upstream<StartReply>,
              poll: nat -> Upstream<PollData>)
    returns (resp: Response<VeoBody>, calls: seq<VeoCall>)
    ensures !Truthy(credentialsEnv) ==>
              resp == Response(StatusServerError, VeoError(MissingCredentials)) && calls == []
    ensures Truthy(credentialsEnv) && parsed.None? ==>
              resp == Response(StatusServerError, VeoError(BadCredentials)) && calls == []
    ensures CredentialsOk(credentialsEnv, parsed) ==> 1 <= |calls| && calls[0] == TokenCall
    ensures CredentialsOk(credentialsEnv, parsed) && !TokenOk(token) ==>
              resp.status == StatusServerError && calls == [TokenCall]
    ensures token.Returned? && !Truthy(token.value) && CredentialsOk(credentialsEnv, parsed) ==>
              resp.body == VeoError(NoAccessToken)
    ensures |calls| >= 2 ==>
              parsed.Some? &&
              calls[1] == StartCall(Endpoint(parsed.value.projectId), RequestBody([InstanceFor(req)], 1))
    ensures CredentialsOk(credentialsEnv, parsed) && TokenOk(token) && !Started(start) ==>
              |calls| == 2 &&
              resp == match start
                      case Threw(e) => Response(StatusServerError, VeoError(ErrorMessage(e)))
                      case Returned(reply) => StartFailure(reply)
    ensures CredentialsOk(credentialsEnv, parsed) && TokenOk(token) && Started(start) ==>
              resp == PollResponse(PollFrom(poll, 0)) &&
              |calls| == 2 + PollsIssued(PollFrom(poll, 0)) &&
              forall k :: 2 <= k < |calls| ==> calls[k] == PollCall(PollUrl(start.value.operationName))
    ensures |calls| <= 2 + MaxAttempts
    ensures resp.status == StatusTimeout <==>
              CredentialsOk(credentialsEnv, parsed) && TokenOk(token) && Started(start) &&
              forall j :: 0 <= j < MaxAttempts ==> Pending(poll, j)
  {
    calls := [];
    if !Truthy(credentialsEnv) {
      return Response(StatusServerError, VeoError(MissingCredentials)), calls;
    }
    if parsed.None? {
      return Response(StatusServerError, VeoError(BadCredentials)), calls;
    }
    var credentials := parsed.value;
    calls := calls + [TokenCall];
    if token.Threw? {
      return Response(StatusServerError, VeoError(ErrorMessage(token.error))), calls;
    }
    if !Truthy(token.value) {
      return Response(StatusServerError, VeoError(ErrorMessage(Thrown(NoAccessToken)))), calls;
    }
    var endpoint := Endpoint(credentials.projectId);
    var body := BuildRequestBody(req);
    calls := calls + [StartCall(endpoint, body)];
    if start.Threw? {
      return Response(StatusServerError, VeoError(ErrorMessage(start.error))), calls;
    }
    var lro := start.value;
    if !lro.ok {
      return StartFailure(lro), calls;
    }
    var result, polls := PollOperation(poll, lro.operationName);
    calls := calls + polls;
    resp := PollResponse(result);
  }
}
