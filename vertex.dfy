/** POST /api/vertex: one generateContent call through the Vertex AI SDK.
    The handler resolves the project id, defaults the model, builds the
    prompt part followed by one inline image part per reference image,
    and answers with the first image part, else the first text part,
    else a placeholder. */
module VertexRoute {
  import opened Js
  import opened Strings
  import opened Seqs
  import opened GenAi

  const DefaultProject := "tilda-3-485901"
  const DefaultModel := "imagen-3.0-generate-001"
  const Location := "us-central1"

  const PartMimeType := "image/png"
  const DataImagePrefix := "data:image/"
  const Base64Suffix := ";base64,"
  const ImageUriPrefix := "data:image/png;base64,"

  const ImageNote := "Image generated via Vertex AI (Imagen 3)."
  const NoContent := "No content returned."
  const TextNote := "Authorized via Service Account JSON."

  /** The fields of the JSON request body; `images` is `None` unless it is an array. */
  datatype VertexRequest = VertexRequest(
    prompt: Option<string>,
    imageBase64: Option<string>,
    images: Option<seq<string>>,
    modelId: Option<string>)

  // ------------------------------------------------------------- project

  /** The project the call goes to: the credentials' `project_id` when
      `VERTEX_CREDENTIALS` is set, parses and names one; otherwise
      `GCP_PROJECT_ID` when truthy; otherwise the built-in default. */
  function ProjectFor(gcpProjectId: Option<string>, credentialsEnv: Option<string>, parsed: Option<ServiceAccount>): (p: string)
    ensures p != ""
    ensures Truthy(credentialsEnv) && parsed.Some? && Truthy(parsed.value.projectId) ==>
              p == parsed.value.projectId.value
    ensures !(Truthy(credentialsEnv) && parsed.Some? && Truthy(parsed.value.projectId)) ==>
              p == (if Truthy(gcpProjectId) then gcpProjectId.value else DefaultProject)
  {
    var fromEnv := Or(gcpProjectId, DefaultProject);
    if Truthy(credentialsEnv) && parsed.Some? then Or(parsed.value.projectId, fromEnv) else fromEnv
  }

  /** The credentials handed to the SDK: those parsed from a set
      `VERTEX_CREDENTIALS`, and none when it is unset or fails to parse. */
  function AuthFor(credentialsEnv: Option<string>, parsed: Option<ServiceAccount>): (a: Option<ServiceAccount>)
    ensures a.Some? <==> Truthy(credentialsEnv) && parsed.Some?
    ensures a.Some? ==> a == parsed
  {
    if Truthy(credentialsEnv) then parsed else None
  }

  /** `projectId` starts as `GCP_PROJECT_ID || default` and is overridden by
      the credentials' `project_id` when `VERTEX_CREDENTIALS` parses and
      names one; a parse failure is only logged. */
  method ResolveProject(gcpProjectId: Option<string>, credentialsEnv: Option<string>, parsed: Option<ServiceAccount>)
    returns (projectId: string, authOptions: Option<ServiceAccount>)
    ensures projectId == ProjectFor(gcpProjectId, credentialsEnv, parsed)
    ensures authOptions == AuthFor(credentialsEnv, parsed)
  {
    authOptions := None;
    projectId := Or(gcpProjectId, DefaultProject);
    if Truthy(credentialsEnv) {
      if parsed.Some? {
        var credentials := parsed.value;
        authOptions := Some(credentials);
        projectId := Or(credentials.projectId, projectId);
      }
    }
  }

  /** `modelId || 'imagen-3.0-generate-001'` */
  function TargetModel(modelId: Option<string>): (m: string)
    ensures m != ""
    ensures Truthy(modelId) ==> m == modelId.value
    ensures !Truthy(modelId) ==> m == DefaultModel
  {
    Or(modelId, DefaultModel)
  }

  // ------------------------------------------------- data:image/ prefix

  /** A character of the regular-expression class `\w`. */
  predicate IsWordChar(c: char) {
    'a' <= c <= 'z' || 'A' <= c <= 'Z' || '0' <= c <= '9' || c == '_'
  }

  /** The length of the run of `\w` characters starting at `i`. */
  function WordRun(s: string, i: nat): (n: nat)
    requires i <= |s|
    decreases |s| - i
    ensures i + n <= |s|
    ensures forall k :: i <= k < i + n ==> IsWordChar(s[k])
    ensures i + n < |s| ==> !IsWordChar(s[i + n])
  {
    if i < |s| && IsWordChar(s[i]) then 1 + WordRun(s, i + 1) else 0
  }

  /** `s.replace(/^data:image\/\w+;base64,/, "")`. A `;` is not a word
      character, so the only candidate match is the whole word run. */
  function StripDataImagePrefix(s: string): (r: string)
    ensures |r| <= |s| && s[|s| - |r|..] == r
    ensures !(DataImagePrefix <= s) ==> r == s
  {
    if DataImagePrefix <= s then
      var n := WordRun(s, |DataImagePrefix|);
      var j := |DataImagePrefix| + n;
      if n > 0 && OccursAt(s, Base64Suffix, j) then s[j + |Base64Suffix|..] else s
    else s
  }

  /** The regular expression matches `s` with a word run of length `n`. */
  predicate PrefixMatch(s: string, n: nat) {
    && DataImagePrefix <= s
    && n > 0
    && |DataImagePrefix| + n <= |s|
    && (forall k :: |DataImagePrefix| <= k < |DataImagePrefix| + n ==> IsWordChar(s[k]))
    && OccursAt(s, Base64Suffix, |DataImagePrefix| + n)
  }

  /** The strip removes exactly a match of the regular expression, and
      leaves a string the expression does not match untouched. */
  lemma StripIsRegexReplace(s: string)
    ensures forall n: nat :: PrefixMatch(s, n) ==>
              StripDataImagePrefix(s) == s[|DataImagePrefix| + n + |Base64Suffix|..]
    ensures (forall n: nat :: !PrefixMatch(s, n)) ==> StripDataImagePrefix(s) == s
  {
    if DataImagePrefix <= s {
      var w := WordRun(s, |DataImagePrefix|);
      forall n: nat | PrefixMatch(s, n)
        ensures n == w
      {
        assert s[|DataImagePrefix| + n] == ';';
        assert !IsWordChar(s[|DataImagePrefix| + n]);
      }
      if w > 0 && OccursAt(s, Base64Suffix, |DataImagePrefix| + w) {
        assert PrefixMatch(s, w);
      }
    }
  }

  /** `data:image/<w>;base64,<d>` comes back as `d`. */
  lemma StripDataImageUrl(w: string, d: string)
    requires |w| > 0 && forall k :: 0 <= k < |w| ==> IsWordChar(w[k])
    ensures StripDataImagePrefix(DataImagePrefix + w + Base64Suffix + d) == d
  {
    var s := DataImagePrefix + w + Base64Suffix + d;
    assert DataImagePrefix <= s;
    assert s[|DataImagePrefix| + |w|..|DataImagePrefix| + |w| + |Base64Suffix|] == Base64Suffix;
    assert PrefixMatch(s, |w|);
    StripIsRegexReplace(s);
    assert s[|DataImagePrefix| + |w| + |Base64Suffix|..] == d;
  }

  // --------------------------------------------------------------- parts

  datatype Part = TextPart(text: Option<string>) | InlinePart(mimeType: string, data: string)

  /** The parts sent: the prompt first; then one `image/png` part per
      element of an `images` array, in order and stripped of a data-URL
      prefix; only without such an array, a single part for a truthy
      `imageBase64`. */
  function PartsFor(prompt: Option<string>, imageBase64: Option<string>, images: Option<seq<string>>): (parts: seq<Part>)
    ensures |parts| >= 1 && parts[0] == TextPart(prompt)
    ensures images.Some? ==>
              |parts| == 1 + |images.value| &&
              forall i :: 0 <= i < |images.value| ==>
                parts[i + 1] == InlinePart(PartMimeType, StripDataImagePrefix(images.value[i]))
    ensures images.None? && Truthy(imageBase64) ==>
              parts == [TextPart(prompt), InlinePart(PartMimeType, StripDataImagePrefix(imageBase64.value))]
    ensures images.None? && !Truthy(imageBase64) ==> parts == [TextPart(prompt)]
  {
    [TextPart(prompt)] +
    match images
    case Some(imgs) => seq(|imgs|, i requires 0 <= i < |imgs| => InlinePart(PartMimeType, StripDataImagePrefix(imgs[i])))
    case None =>
      if Truthy(imageBase64) then [InlinePart(PartMimeType, StripDataImagePrefix(imageBase64.value))] else []
  }

  /** `parts` starts as the prompt part; each element of an `images` array
      pushes one inline part in order, and only without such an array does
      a truthy `imageBase64` push a single one. */
  method BuildParts(prompt: Option<string>, imageBase64: Option<string>, images: Option<seq<string>>)
    returns (parts: seq<Part>)
    ensures parts == PartsFor(prompt, imageBase64, images)
  {
    parts := [TextPart(prompt)];
    if images.Some? {
      var imgs := images.value;
      for i := 0 to |imgs|
        invariant |parts| == 1 + i && parts[0] == TextPart(prompt)
        invariant forall k :: 0 <= k < i ==>
                    parts[k + 1] == InlinePart(PartMimeType, StripDataImagePrefix(imgs[k]))
      {
        var cleanBase64 := StripDataImagePrefix(imgs[i]);
        parts := parts + [InlinePart(PartMimeType, cleanBase64)];
      }
    } else if Truthy(imageBase64) {
      var cleanBase64 := StripDataImagePrefix(imageBase64.value);
      parts := parts + [InlinePart(PartMimeType, cleanBase64)];
    }
  }

  // ------------------------------------------------------------ response

  datatype VertexBody = VertexImage(image: string, text: string) | VertexText(text: string, note: string) | VertexError(error: string)

  /** `candidates?.[0]?.content?.parts || []` */
  function ResponseParts(r: GenerateResponse): seq<ResponsePart> {
    match FirstCandidateParts(r)
    case Some(ps) => ps
    case None => []
  }

  predicate HasData(p: ResponsePart) {
    p.inlineData.Some? && Truthy(p.inlineData.value.data)
  }

  predicate HasText(p: ResponsePart) {
    Truthy(p.text)
  }

  /** The image part found first wins; otherwise the first text part;
      otherwise the placeholder. */
  function SelectResult(parts: seq<ResponsePart>): (body: VertexBody)
    ensures body.VertexImage? <==> exists k :: 0 <= k < |parts| && HasData(parts[k])
    ensures forall k :: IsFirst(parts, HasData, k) ==>
              body == VertexImage(ImageUriPrefix + parts[k].inlineData.value.data.value, ImageNote)
    ensures !body.VertexImage? ==> body.VertexText? && body.note == TextNote
    ensures forall k :: !body.VertexImage? && IsFirst(parts, HasText, k) ==> body.text == parts[k].text.value
    ensures (forall k :: 0 <= k < |parts| ==> !HasData(parts[k]) && !HasText(parts[k])) ==>
              body == VertexText(NoContent, TextNote)
  {
    match FindFirst(parts, HasData)
    case Some(k) => VertexImage(ImageUriPrefix + parts[k].inlineData.value.data.value, ImageNote)
    case None =>
      var text := match FindFirst(parts, HasText)
        case Some(k) => parts[k].text
        case None => None;
      VertexText(Or(text, NoContent), TextNote)
  }

  /** A response without candidates reads as an empty list of parts. */
  lemma NoCandidatesNoContent(text: Upstream<string>)
    ensures SelectResult(ResponseParts(GenerateResponse(None, text))) == VertexText(NoContent, TextNote)
  {
  }

  // ------------------------------------------------------------- handler

  /** The single upstream call: project, location, credentials, model and parts. */
  datatype VertexCall = VertexCall(project: string, location: string, auth: Option<ServiceAccount>, model: string, parts: seq<Part>)

  /** The `POST` handler, with `generate` standing for the SDK call. */
  method Post(req: VertexRequest, gcpProjectId: Option<string>, credentialsEnv: Option<string>,
              parsed: Option<ServiceAccount>, generate: VertexCall -> Upstream<GenerateResponse>)
    returns (resp: Response<VertexBody>, call: VertexCall)
    ensures call == VertexCall(ProjectFor(gcpProjectId, credentialsEnv, parsed), Location,
                               AuthFor(credentialsEnv, parsed), TargetModel(req.modelId),
                               PartsFor(req.prompt, req.imageBase64, req.images))
    ensures generate(call).Threw? ==>
              resp == Response(StatusServerError, VertexError(ErrorMessage(generate(call).error)))
    ensures generate(call).Returned? ==>
              resp == Response(StatusOk, SelectResult(ResponseParts(generate(call).value)))
    ensures resp.status == StatusOk || resp.status == StatusServerError
  {
    var projectId, authOptions := ResolveProject(gcpProjectId, credentialsEnv, parsed);
    var targetModel := TargetModel(req.modelId);
    var parts := BuildParts(req.prompt, req.imageBase64, req.images);
    call := VertexCall(projectId, Location, authOptions, targetModel, parts);
    var result := generate(call);
    if result.Threw? {
      return Response(StatusServerError, VertexError(ErrorMessage(result.error))), call;
    }
    var responseParts := ResponseParts(result.value);
    resp := Response(StatusOk, SelectResult(responseParts));
  }
}
