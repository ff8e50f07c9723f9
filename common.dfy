/** JavaScript values as the route handlers see them: optional JSON fields,
    truthiness, `a || b`, template-literal rendering, thrown errors and
    HTTP responses. */
module Js {

  /** A JSON field that may be absent (or null); both read as `None`. */
  datatype Option<T> = None | Some(value: T)

  /** Truthiness of an optional string: present and not the empty string. */
  predicate Truthy(s: Option<string>) {
    s.Some? && s.value != ""
  }

  /** `s || fallback` for an optional string. */
  function Or(s: Option<string>, fallback: string): string {
    if Truthy(s) then s.value else fallback
  }

  lemma OrNonEmpty(s: Option<string>, fallback: string)
    requires fallback != ""
    ensures Or(s, fallback) != ""
  {
  }

  /** How `${s}` renders an optional string inside a template literal. */
  function Render(s: Option<string>): string {
    match s
    case Some(v) => v
    case None => "undefined"
  }

  /** A thrown JavaScript error: its `message` and, for SDK errors, a `status`. */
  datatype Error = Error(message: Option<string>, status: Option<int>)

  /** `new Error(msg)` */
  function Thrown(msg: string): Error {
    Error(Some(msg), None)
  }

  /** The outcome of a call into code outside the model: a value or a throw. */
  datatype Upstream<T> = Returned(value: T) | Threw(error: Error)

  /** `NextResponse.json(body, { status })` */
  datatype Response<B> = Response(status: nat, body: B)

  /** The parsed service-account JSON; only its `project_id` is read. */
  datatype ServiceAccount = ServiceAccount(projectId: Option<string>)

  const StatusOk: nat := 200
  const StatusServerError: nat := 500

  const InternalServerError := "Internal Server Error"

  /** `error.message || 'Internal Server Error'`, the message every catch-all handler reports. */
  function ErrorMessage(e: Error): (m: string)
    ensures m != ""
  {
    Or(e.message, InternalServerError)
  }

  function DigitChar(d: nat): (c: char)
    requires d < 10
    ensures '0' <= c <= '9' && c as int - '0' as int == d
  {
    "0123456789"[d]
  }

  predicate AllDigits(s: string) {
    forall i :: 0 <= i < |s| ==> '0' <= s[i] <= '9'
  }

  /** The number a string of decimal digits denotes. */
  function DigitsValue(s: string): nat
    requires AllDigits(s)
  {
    if s == [] then 0
    else DigitsValue(s[..|s| - 1]) * 10 + (s[|s| - 1] as int - '0' as int)
  }

  /** Decimal rendering of a number, as `${n}` prints an integer status:
      digits without a leading zero that denote `n`. */
  function Decimal(n: nat): (r: string)
    ensures |r| >= 1 && AllDigits(r)
    ensures DigitsValue(r) == n
    ensures r[0] == '0' ==> r == "0"
  {
    if n < 10 then [DigitChar(n)]
    else
      var init := Decimal(n / 10);
      var r := init + [DigitChar(n % 10)];
      assert r[..|r| - 1] == init;
      r
  }
}

/** The string operations the handlers use: `includes`, `replace` of a
    string, `split(sep)[1]`, `startsWith`, `toLowerCase` and the ordering
    used for sorting. */
module Strings {
  import opened Js

  /** `pat` occurs in `s` starting at index `i`. */
  predicate OccursAt(s: string, pat: string, i: nat) {
    i + |pat| <= |s| && s[i..i + |pat|] == pat
  }

  /** `s.includes(pat)` */
  predicate Contains(s: string, pat: string) {
    exists i: nat | i <= |s| :: OccursAt(s, pat, i)
  }

  /** `k` is the first index at which `pat` occurs in `s`. */
  predicate FirstOccurrence(s: string, pat: string, k: nat) {
    OccursAt(s, pat, k) && forall j: nat :: j < k ==> !OccursAt(s, pat, j)
  }

  /** The first occurrence of `pat` in `s` at or after `from`. */
  function IndexOfFrom(s: string, pat: string, from: nat): (r: Option<nat>)
    decreases |s| - from
    ensures r.Some? ==> from <= r.value && OccursAt(s, pat, r.value)
    ensures r.Some? ==> forall j: nat :: from <= j < r.value ==> !OccursAt(s, pat, j)
    ensures r.None? ==> forall j: nat :: from <= j ==> !OccursAt(s, pat, j)
  {
    if from + |pat| > |s| then None
    else if s[from..from + |pat|] == pat then Some(from)
    else IndexOfFrom(s, pat, from + 1)
  }

  /** `s.indexOf(pat)`, with `None` for -1. */
  function IndexOf(s: string, pat: string): (r: Option<nat>)
    ensures r.Some? <==> Contains(s, pat)
    ensures r.Some? ==> FirstOccurrence(s, pat, r.value)
  {
    IndexOfFrom(s, pat, 0)
  }

  /** `s.replace(pat, '')` with a string pattern: only the first occurrence goes. */
  function RemoveFirst(s: string, pat: string): (r: string)
    ensures !Contains(s, pat) ==> r == s
    ensures forall k: nat :: FirstOccurrence(s, pat, k) ==> r == s[..k] + s[k + |pat|..]
  {
    match IndexOf(s, pat)
    case None => s
    case Some(k) =>
      FirstUnique(s, pat, k);
      s[..k] + s[k + |pat|..]
  }

  lemma FirstUnique(s: string, pat: string, k: nat)
    requires FirstOccurrence(s, pat, k)
    ensures forall k': nat :: FirstOccurrence(s, pat, k') ==> k' == k
  {
  }

  /** `s.split(sep)[1]`: the piece between the first and the second
      occurrence of `sep`, or everything after the first when there is no
      second; `None` (undefined) when `sep` does not occur at all. */
  function SecondPiece(s: string, sep: string): Option<string> {
    match IndexOf(s, sep)
    case None => None
    case Some(k) =>
      var rest := s[k + |sep|..];
      match IndexOf(rest, sep)
      case None => Some(rest)
      case Some(j) => Some(rest[..j])
  }

  /** No proper suffix of `sep` starts with `sep`'s first character, so two
      occurrences of `sep` can never overlap. */
  predicate NoSelfOverlap(sep: string) {
    |sep| > 0 && forall t :: 0 < t < |sep| ==> sep[t] != sep[0]
  }

  /** When `p` does not contain `sep` and `sep` cannot overlap itself, the
      first occurrence of `sep` in `p + sep + d` is the one right after `p`. */
  lemma FirstOccurrenceAfter(p: string, sep: string, d: string)
    requires NoSelfOverlap(sep) && !Contains(p, sep)
    ensures FirstOccurrence(p + sep + d, sep, |p|)
  {
    var s := p + sep + d;
    assert s[|p|..|p| + |sep|] == sep;
    forall j: nat | j < |p|
      ensures !OccursAt(s, sep, j)
    {
      if j + |sep| <= |p| {
        assert s[j..j + |sep|] == p[j..j + |sep|];
        assert !OccursAt(p, sep, j);
      } else if j + |sep| <= |s| {
        var t := |p| - j;
        assert s[|p|] == sep[0];
        assert s[j..j + |sep|][t] == s[|p|];
        assert sep[t] != sep[0];
      }
    }
  }

  /** Splitting `p + sep + d` where neither `p` nor `d` contains `sep`
      gives back `d` as the second piece. */
  lemma SecondPieceOf(p: string, sep: string, d: string)
    requires NoSelfOverlap(sep) && !Contains(p, sep) && !Contains(d, sep)
    ensures SecondPiece(p + sep + d, sep) == Some(d)
  {
    var s := p + sep + d;
    FirstOccurrenceAfter(p, sep, d);
    FirstUnique(s, sep, |p|);
    assert s[|p| + |sep|..] == d;
  }

  function LowerChar(c: char): char {
    if 'A' <= c <= 'Z' then (c as int - 'A' as int + 'a' as int) as char else c
  }

  /** `s.toLowerCase()` on ASCII letters. */
  function Lower(s: string): (r: string)
    ensures |r| == |s|
    ensures forall i :: 0 <= i < |s| ==> r[i] == LowerChar(s[i])
  {
    seq(|s|, i requires 0 <= i < |s| => LowerChar(s[i]))
  }

  lemma LowerIdempotent(s: string)
    ensures Lower(Lower(s)) == Lower(s)
  {
  }

  /** Lexicographic order on strings by character code. */
  predicate Less(a: string, b: string)
    decreases |a|
  {
    |b| > 0 && (|a| == 0 || a[0] < b[0] || (a[0] == b[0] && Less(a[1..], b[1..])))
  }

  predicate LessOrEqual(a: string, b: string) {
    a == b || Less(a, b)
  }

  lemma {:induction false} LessIrreflexive(a: string)
    ensures !Less(a, a)
  {
    if |a| > 0 {
      LessIrreflexive(a[1..]);
    }
  }

  lemma {:induction false} LessAsymmetric(a: string, b: string)
    requires Less(a, b)
    ensures !Less(b, a)
  {
    if |a| > 0 && a[0] == b[0] {
      LessAsymmetric(a[1..], b[1..]);
    }
  }

  lemma {:induction false} LessTransitive(a: string, b: string, c: string)
    requires Less(a, b) && Less(b, c)
    ensures Less(a, c)
  {
    if |a| > 0 && a[0] == b[0] && b[0] == c[0] {
      LessTransitive(a[1..], b[1..], c[1..]);
    }
  }

  lemma {:induction false} LessTotal(a: string, b: string)
    requires a != b
    ensures Less(a, b) || Less(b, a)
  {
    if |a| > 0 && |b| > 0 && a[0] == b[0] {
      assert a == [a[0]] + a[1..] && b == [b[0]] + b[1..];
      LessTotal(a[1..], b[1..]);
    }
  }
}

/** Searching a sequence, as `Array.prototype.find` does. */
module Seqs {
  import opened Js

  /** `k` is the first index of `s` whose element satisfies `p`. */
  predicate IsFirst<T>(s: seq<T>, p: T -> bool, k: int) {
    0 <= k < |s| && p(s[k]) && forall j :: 0 <= j < k ==> !p(s[j])
  }

  /** The index of the first element satisfying `p`. */
  function FindFirst<T>(s: seq<T>, p: T -> bool): (r: Option<nat>)
    ensures r.Some? ==> r.value < |s| && p(s[r.value])
    ensures r.Some? ==> forall j :: 0 <= j < r.value ==> !p(s[j])
    ensures r.None? ==> forall j :: 0 <= j < |s| ==> !p(s[j])
  {
    if s == [] then None
    else if p(s[0]) then Some(0)
    else match FindFirst(s[1..], p)
      case None => None
      case Some(k) => Some(k + 1)
  }
}

/** The response shape of a generateContent call, common to both SDKs:
    `candidates[i].content.parts[j]`, each part carrying `inlineData`
    and/or `text`; `text` is what the response's `text()` gives (or throws). */
module GenAi {
  import opened Js

  datatype InlineData = InlineData(mimeType: Option<string>, data: Option<string>)

  datatype ResponsePart = ResponsePart(inlineData: Option<InlineData>, text: Option<string>)

  datatype Content = Content(parts: Option<seq<ResponsePart>>)

  datatype Candidate = Candidate(content: Option<Content>)

  datatype GenerateResponse = GenerateResponse(candidates: Option<seq<Candidate>>, text: Upstream<string>)

  /** `candidates?.[0]?.content?.parts`, `None` where the chain breaks. */
  function FirstCandidateParts(r: GenerateResponse): Option<seq<ResponsePart>> {
    match r.candidates
    case None => None
    case Some(cs) =>
      if |cs| == 0 then None
      else match cs[0].content
        case None => None
        case Some(c) => c.parts
  }
}
