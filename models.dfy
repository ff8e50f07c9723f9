/** GET /api/models: the upstream model list is filtered to the generation
    methods the studio can use, each name is turned into an id and
    classified into a family and an output type, and the list is sorted
    by family, then by id in reverse. */
module ModelCatalogue {
  import opened Js
  import opened Strings
  import opened Seqs

  /** One record of the upstream `models` array. */
  datatype ModelRecord = ModelRecord(
    name: string,
    displayName: Option<string>,
    description: Option<string>,
    version: Option<string>,
    supportedGenerationMethods: Option<seq<string>>)

  datatype ModelType = TextModel | ImageModel | VideoModel

  /** One entry of the catalogue the route returns. */
  datatype ModelEntry = ModelEntry(
    id: string,
    displayName: Option<string>,
    description: Option<string>,
    version: Option<string>,
    family: string,
    kind: ModelType)

  const ImagenFamily := "Imagen (Images)"
  const VeoFamily := "Veo (Video)"
  const GeminiFamily := "Gemini"
  const GemmaFamily := "Gemma"
  const NanoFamily := "Experimental/Nano"
  const OtherFamily := "Other"

  const NamePrefix := "models/"

  const NoKeyMessage := "API Key not configured"

  // ---------------------------------------------------------------- filter

  /** The record lists `generateContent`, `predict` or `predictLongRunning`;
      a record without the field never qualifies. */
  predicate Supported(m: ModelRecord) {
    match m.supportedGenerationMethods
    case None => false
    case Some(ms) => "generateContent" in ms || "predict" in ms || "predictLongRunning" in ms
  }

  /** The `.filter(...)` step. */
  function SupportedModels(records: seq<ModelRecord>): (r: seq<ModelRecord>)
    ensures forall m :: multiset(r)[m] == if Supported(m) then multiset(records)[m] else 0
    ensures forall m :: m in r <==> m in records && Supported(m)
  {
    if records == [] then []
    else
      assert records == [records[0]] + records[1..];
      (if Supported(records[0]) then [records[0]] else []) + SupportedModels(records[1..])
  }

  // -------------------------------------------------------- classification

  datatype Classification = Classification(family: string, kind: ModelType)

  /** The if/else-if chain of the `.map(...)` callback, on the lower-cased id. */
  function Classify(id: string): (c: Classification)
    ensures c.family in {ImagenFamily, VeoFamily, GeminiFamily, GemmaFamily, NanoFamily, OtherFamily}
    ensures c.family == ImagenFamily <==> Contains(Lower(id), "imagen")
    ensures c.kind == VideoModel <==> c.family == VeoFamily
    ensures c.family == ImagenFamily ==> c.kind == ImageModel
    ensures c.family == GemmaFamily || c.family == OtherFamily ==> c.kind == TextModel
    ensures c.family == GeminiFamily || c.family == NanoFamily ==>
              (c.kind == ImageModel <==> Contains(Lower(id), "image"))
  {
    var low := Lower(id);
    if Contains(low, "imagen") then Classification(ImagenFamily, ImageModel)
    else if Contains(low, "veo") then Classification(VeoFamily, VideoModel)
    else if Contains(low, "gemini") then
      Classification(GeminiFamily, if Contains(low, "image") then ImageModel else TextModel)
    else if Contains(low, "gemma") then Classification(GemmaFamily, TextModel)
    else if Contains(low, "nano") || Contains(low, "banana") then
      Classification(NanoFamily, if Contains(low, "image") then ImageModel else TextModel)
    else Classification(OtherFamily, TextModel)
  }

  /** An earlier rule wins over a later one that also matches. */
  lemma ClassifyPriority(id: string)
    ensures Contains(Lower(id), "imagen") && Contains(Lower(id), "veo") ==>
              Classify(id).family == ImagenFamily
    ensures Contains(Lower(id), "gemini") && Contains(Lower(id), "gemma") &&
            !Contains(Lower(id), "imagen") && !Contains(Lower(id), "veo") ==>
              Classify(id).family == GeminiFamily
  {
  }

  /** Only the lower-cased id matters: ids differing in letter case classify alike. */
  lemma ClassifyIgnoresCase(id: string, other: string)
    requires Lower(id) == Lower(other)
    ensures Classify(id) == Classify(other)
    ensures Classify(Lower(id)) == Classify(id)
  {
    LowerIdempotent(id);
  }

  /** The same rules written as a table, read top to bottom: the first rule
      one of whose keywords occurs in the lower-cased id decides. */
  datatype RuleKind = Always(kind: ModelType) | ImageIfMentioned

  datatype Rule = Rule(keywords: seq<string>, family: string, kind: RuleKind)

  const Rules: seq<Rule> := [
    Rule(["imagen"], ImagenFamily, Always(ImageModel)),
    Rule(["veo"], VeoFamily, Always(VideoModel)),
    Rule(["gemini"], GeminiFamily, ImageIfMentioned),
    Rule(["gemma"], GemmaFamily, Always(TextModel)),
    Rule(["nano", "banana"], NanoFamily, ImageIfMentioned)
  ]

  predicate RuleMatches(rule: Rule, low: string) {
    exists i :: 0 <= i < |rule.keywords| && Contains(low, rule.keywords[i])
  }

  function ApplyRule(rule: Rule, low: string): Classification {
    match rule.kind
    case Always(k) => Classification(rule.family, k)
    case ImageIfMentioned =>
      Classification(rule.family, if Contains(low, "image") then ImageModel else TextModel)
  }

  function TableClassify(id: string): Classification {
    var low := Lower(id);
    match FindFirst(Rules, (rule: Rule) => RuleMatches(rule, low))
    case None => Classification(OtherFamily, TextModel)
    case Some(i) => ApplyRule(Rules[i], low)
  }

  lemma SingleKeyword(rule: Rule, low: string)
    requires |rule.keywords| == 1
    ensures RuleMatches(rule, low) <==> Contains(low, rule.keywords[0])
  {
  }

  /** The if/else-if chain is exactly first-match over the rule table. */
  lemma ClassifyIsFirstMatch(id: string)
    ensures Classify(id) == TableClassify(id)
  {
    var low := Lower(id);
    var p := (rule: Rule) => RuleMatches(rule, low);
    SingleKeyword(Rules[0], low);
    SingleKeyword(Rules[1], low);
    SingleKeyword(Rules[2], low);
    SingleKeyword(Rules[3], low);
    assert RuleMatches(Rules[4], low) <==> Contains(low, "nano") || Contains(low, "banana") by {
      if Contains(low, "nano") { assert Rules[4].keywords[0] == "nano"; }
      if Contains(low, "banana") { assert Rules[4].keywords[1] == "banana"; }
    }
    assert forall i :: 0 <= i < |Rules| ==> p(Rules[i]) == RuleMatches(Rules[i], low);
    var r := FindFirst(Rules, p);
    if Contains(low, "imagen") {
      assert r.Some? && r.value == 0;
    } else if Contains(low, "veo") {
      assert r.Some? && r.value == 1;
    } else if Contains(low, "gemini") {
      assert r.Some? && r.value == 2;
    } else if Contains(low, "gemma") {
      assert r.Some? && r.value == 3;
    } else if Contains(low, "nano") || Contains(low, "banana") {
      assert r.Some? && r.value == 4;
    } else {
      assert r.None?;
    }
  }

  // ----------------------------------------------------------------- shape

  /** The `.map(...)` callback: the id is the name with its first
      `models/` removed; the descriptive fields are copied. */
  function Shape(m: ModelRecord): (e: ModelEntry)
    ensures !Contains(m.name, NamePrefix) ==> e.id == m.name
    ensures forall k: nat :: FirstOccurrence(m.name, NamePrefix, k) ==>
              e.id == m.name[..k] + m.name[k + |NamePrefix|..]
    ensures e.displayName == m.displayName && e.description == m.description && e.version == m.version
    ensures Classification(e.family, e.kind) == Classify(e.id)
  {
    var id := RemoveFirst(m.name, NamePrefix);
    var c := Classify(id);
    ModelEntry(id, m.displayName, m.description, m.version, c.family, c.kind)
  }

  /** An upstream name `models/<x>` yields the id `<x>`. */
  lemma ShapeStripsPrefix(m: ModelRecord, x: string)
    requires m.name == NamePrefix + x
    ensures Shape(m).id == x
  {
    assert OccursAt(m.name, NamePrefix, 0);
    assert FirstOccurrence(m.name, NamePrefix, 0);
  }

  function ShapeAll(records: seq<ModelRecord>): (r: seq<ModelEntry>)
    ensures |r| == |records|
    ensures forall i :: 0 <= i < |records| ==> r[i] == Shape(records[i])
  {
    seq(|records|, i requires 0 <= i < |records| => Shape(records[i]))
  }

  // ------------------------------------------------------------------ sort

  /** The comparator: family ascending, then id descending. */
  predicate InOrder(a: ModelEntry, b: ModelEntry) {
    Less(a.family, b.family) || (a.family == b.family && LessOrEqual(b.id, a.id))
  }

  predicate Sorted(s: seq<ModelEntry>) {
    forall i, j :: 0 <= i < j < |s| ==> InOrder(s[i], s[j])
  }

  lemma InOrderTotal(a: ModelEntry, b: ModelEntry)
    ensures InOrder(a, b) || InOrder(b, a)
  {
    if a.family != b.family {
      LessTotal(a.family, b.family);
    } else if a.id != b.id {
      LessTotal(a.id, b.id);
    }
  }

  lemma InOrderTransitive(a: ModelEntry, b: ModelEntry, c: ModelEntry)
    requires InOrder(a, b) && InOrder(b, c)
    ensures InOrder(a, c)
  {
    if Less(a.family, b.family) && Less(b.family, c.family) {
      LessTransitive(a.family, b.family, c.family);
    } else if a.family == b.family == c.family && Less(b.id, a.id) && Less(c.id, b.id) {
      LessTransitive(c.id, b.id, a.id);
    }
  }

  /** Inserts `x` into a sorted list before the first entry it may precede. */
  function Insert(x: ModelEntry, s: seq<ModelEntry>): (r: seq<ModelEntry>)
    requires Sorted(s)
    ensures Sorted(r)
    ensures multiset(r) == multiset(s) + multiset{x}
    ensures |r| == |s| + 1
  {
    if s == [] then [x]
    else if InOrder(x, s[0]) then
      assert forall j :: 0 <= j < |s| ==> InOrder(x, s[j]) by {
        forall j | 0 <= j < |s| ensures InOrder(x, s[j]) {
          if j > 0 { InOrderTransitive(x, s[0], s[j]); }
        }
      }
      [x] + s
    else
      InOrderTotal(x, s[0]);
      var rest := Insert(x, s[1..]);
      assert s == [s[0]] + s[1..];
      assert forall j :: 0 <= j < |rest| ==> InOrder(s[0], rest[j]) by {
        forall j | 0 <= j < |rest| ensures InOrder(s[0], rest[j]) {
          assert rest[j] in multiset(rest);
          assert rest[j] == x || rest[j] in multiset(s[1..]);
          if rest[j] != x {
            var k :| 1 <= k < |s| && s[k] == rest[j];
          }
        }
      }
      [s[0]] + rest
  }

  /** The `.sort(...)` step, as an insertion sort. */
  function SortEntries(s: seq<ModelEntry>): (r: seq<ModelEntry>)
    ensures Sorted(r)
    ensures multiset(r) == multiset(s)
  {
    if s == [] then []
    else
      assert s == [s[0]] + s[1..];
      Insert(s[0], SortEntries(s[1..]))
  }

  // --------------------------------------------------------------- handler

  /** The whole filter/map/sort chain. */
  function Catalogue(records: seq<ModelRecord>): seq<ModelEntry> {
    SortEntries(ShapeAll(SupportedModels(records)))
  }

  /** The catalogue is sorted, holds the shaped supported records with
      their multiplicities, and contains nothing else. */
  lemma CatalogueSpec(records: seq<ModelRecord>)
    ensures Sorted(Catalogue(records))
    ensures multiset(Catalogue(records)) == multiset(ShapeAll(SupportedModels(records)))
    ensures forall e :: e in Catalogue(records) ==>
              exists m :: m in records && Supported(m) && e == Shape(m)
  {
    var filtered := SupportedModels(records);
    var shaped := ShapeAll(filtered);
    forall e | e in Catalogue(records)
      ensures exists m :: m in records && Supported(m) && e == Shape(m)
    {
      assert e in multiset(shaped);
      var i :| 0 <= i < |shaped| && shaped[i] == e;
      assert filtered[i] in filtered;
    }
  }

  /** What the model-list fetch gave back: `ok`, `statusText` and the
      outcome of reading `data.models` from its JSON body. */
  datatype ModelsReply = ModelsReply(ok: bool, statusText: string, models: Upstream<Option<seq<ModelRecord>>>)

  datatype ListBody = ModelList(models: seq<ModelEntry>) | ListError(error: Option<string>)

  /** The `GET` handler, with the upstream fetch as an outcome. */
  function ListModels(apiKey: Option<string>, fetch: Upstream<ModelsReply>): (r: Response<ListBody>)
    ensures !Truthy(apiKey) ==> r == Response(StatusServerError, ListError(Some(NoKeyMessage)))
    ensures r.status == StatusOk <==>
              Truthy(apiKey) && fetch.Returned? && fetch.value.ok && fetch.value.models.Returned?
    ensures r.status == StatusOk ==>
              r.body == ModelList(Catalogue(match fetch.value.models.value
                                            case Some(ms) => ms
                                            case None => []))
    ensures r.status != StatusOk ==> r.status == StatusServerError && r.body.ListError?
    ensures Truthy(apiKey) && fetch.Returned? && !fetch.value.ok ==>
              r.body == ListError(Some("Failed to fetch models: " + fetch.value.statusText))
  {
    if !Truthy(apiKey) then Response(StatusServerError, ListError(Some(NoKeyMessage)))
    else match fetch
      case Threw(e) => Response(StatusServerError, ListError(e.message))
      case Returned(reply) =>
        if !reply.ok then
          Response(StatusServerError, ListError(Some("Failed to fetch models: " + reply.statusText)))
        else match reply.models
          case Threw(e) => Response(StatusServerError, ListError(e.message))
          case Returned(ms) =>
            Response(StatusOk, ModelList(Catalogue(match ms case Some(list) => list case None => [])))
  }
}
