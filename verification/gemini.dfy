/** `call_gemini_translate`: the credential guard, the request it would post, and how it
    reads the provider's reply. The HTTP exchange itself is not modelled: its outcome is
    an input, the decoded JSON body, or nothing when `requests` raised (connection error,
    timeout, non-2xx status, a body that is not JSON). */
module Gemini {
  import opened Wrappers
  import Text
  import opened PyJson

  /** The model the endpoint is parameterised by. */
  const Model: string := "gemini-2.0-flash"

  /** The key used when the environment variable is unset or empty. */
  const FallbackKey: string := "API KEY"

  /** The value the credential guard treats as "not configured". */
  const UnsetKeyMarker: string := "YOUR_GEMINI_API_KEY"

  /** The fixed instruction put before every source text. */
  const Prefix: string := "你是一個將文字翻譯成繁體中文的助手，我們情境多半是工業應用。\n\n請翻譯以下文字：\n"

  /** The key the script runs with, given the `GEMINI_API_KEY` environment variable. */
  function ResolveKey(env: Option<string>): (key: string)
    ensures key != ""
    ensures key == FallbackKey <==> env.None? || env.value in {"", FallbackKey}
    ensures env.Some? && env.value != "" ==> key == env.value
  {
    if env.None? || env.value == "" then FallbackKey else env.value
  }

  /** The credential guard: the call refuses to run (and `main` refuses to start) unless this holds. */
  predicate KeyConfigured(key: string) {
    key != "" && key != UnsetKeyMarker
  }

  function Url(key: string): string {
    "https://generativelanguage.googleapis.com/v1beta/models/" + Model + ":generateContent?key=" + key
  }

  /** The JSON body `{"contents": [{"parts": [{"text": prompt}]}]}`. */
  function Body(prompt: string): Json {
    Obj(map["contents" := Arr([Obj(map["parts" := Arr([Obj(map["text" := Str(prompt)])])])])])
  }

  /** Some(value) of a dict's field, when `x` is a dict holding `key`. */
  function Member(x: Json, key: string): Option<Json> {
    if x.Obj? && key in x.fields then Some(x.fields[key]) else None
  }

  /** The head of a non-empty list. */
  function Head(x: Json): Option<Json> {
    if x.Arr? && |x.items| > 0 then Some(x.items[0]) else None
  }

  /** The prompt a request body carries at `contents[0].parts[0].text`, if it has that shape. */
  function PromptOf(body: Json): Option<string> {
    var contents := Member(body, "contents");
    var turn := if contents.Some? then Head(contents.value) else None;
    var parts := if turn.Some? then Member(turn.value, "parts") else None;
    var part := if parts.Some? then Head(parts.value) else None;
    var text := if part.Some? then Member(part.value, "text") else None;
    if text.Some? && text.value.Str? then Some(text.value.s) else None
  }

  datatype Request = Request(url: string, body: Json)

  /** Which branch of the response check was taken. */
  datatype Reply =
    | Translation(text: string)   // candidates[0].content.parts[0].text, stripped
    | PartsMissing                // a first candidate, but no non-empty parts list
    | Blocked(reason: Json)       // promptFeedback.blockReason
    | Unrecognised                // any other shape

  /** `key in x and len(x[key]) > 0`, evaluated left to right and short-circuiting;
      Some(x[key]) when it holds. */
  function NonEmptyField(x: Json, key: string): (r: Py<Option<Json>>)
    ensures r == Ok(None) ==> In(key, x) == Ok(false) || (x.Obj? && Len(x.fields[key]) == Ok(0))
    ensures r.Ok? && r.value.Some? ==> Index(x, key) == Ok(r.value.value) && Len(r.value.value).Ok? && Len(r.value.value).value > 0
    ensures r.Ok? && r.value.Some? ==> Member(x, key) == r.value
    ensures r.Raised? || r.value.None? ==> Member(x, key).None? || Head(Member(x, key).value).None?
  {
    var present :- In(key, x);
    if !present then Ok(None) else
    var v :- Index(x, key);
    var n :- Len(v);
    Ok(if n > 0 then Some(v) else None)
  }

  /** The response check as the script evaluates it: the candidates branch, else the
      block-reason branch, else the catch-all. */
  function Classify(resp: Json): (r: Py<Reply>)
    ensures TextOf(r) == Expected(resp)
    ensures r.Ok? && r.value.PartsMissing? ==> Expected(resp) == None
    ensures r.Ok? && r.value.Blocked? ==>
      resp.Obj? && "promptFeedback" in resp.fields && Index(resp.fields["promptFeedback"], "blockReason") == Ok(r.value.reason)
  {
    var candidates :- NonEmptyField(resp, "candidates");
    if candidates.Some? then FromCandidates(candidates.value) else FromFeedback(resp)
  }

  /** The candidates branch, given the non-empty `candidates` value. */
  function FromCandidates(candidates: Json): (r: Py<Reply>)
    ensures TextOf(r) == ExpectedFromCandidates(candidates)
  {
    var first :- First(candidates);
    var content :- Get(first, "content", Obj(map[]));
    var parts :- NonEmptyField(content, "parts");
    if parts.None? then Ok(PartsMissing) else FromParts(parts.value)
  }

  /** The text extraction, given the non-empty `parts` value. */
  function FromParts(parts: Json): (r: Py<Reply>)
    ensures TextOf(r) == ExpectedFromParts(parts)
  {
    var part :- First(parts);
    var text :- Get(part, "text", Str(""));
    var stripped :- StripStr(text);
    Ok(Translation(stripped))
  }

  /** The block-reason branch and the catch-all; neither yields a translation. */
  function FromFeedback(resp: Json): (r: Py<Reply>)
    ensures TextOf(r) == None
    ensures r.Ok? && r.value.Blocked? ==>
      resp.Obj? && "promptFeedback" in resp.fields && Index(resp.fields["promptFeedback"], "blockReason") == Ok(r.value.reason)
  {
    var hasFeedback :- In("promptFeedback", resp);
    if !hasFeedback then Ok(Unrecognised) else
    var feedback :- Index(resp, "promptFeedback");
    var hasReason :- In("blockReason", feedback);
    if !hasReason then Ok(Unrecognised) else
    var reason :- Index(feedback, "blockReason");
    Ok(Blocked(reason))
  }

  /** The translation a branch result carries, if any. */
  function TextOf(c: Py<Reply>): Option<string> {
    if c.Ok? && c.value.Translation? then Some(c.value.text) else None
  }

  /** The one shape that yields a translation, stated directly on the JSON value: a dict whose
      `candidates` is a non-empty list whose head is a dict whose `content` (an empty dict when
      absent) is a dict whose `parts` is a non-empty list whose head is a dict whose `text`
      (an empty string when absent) is a string. */
  function Expected(resp: Json): Option<string> {
    var candidates := Member(resp, "candidates");
    if candidates.None? then None else ExpectedFromCandidates(candidates.value)
  }

  function ExpectedFromCandidates(candidates: Json): Option<string> {
    var first := Head(candidates);
    if first.None? || !first.value.Obj? then None else
    var content := Member(first.value, "content").GetOr(Obj(map[]));
    var parts := Member(content, "parts");
    if parts.None? then None else ExpectedFromParts(parts.value)
  }

  function ExpectedFromParts(parts: Json): Option<string> {
    var part := Head(parts);
    if part.None? || !part.value.Obj? then None else
    var text := Member(part.value, "text").GetOr(Str(""));
    if text.Str? then Some(Text.Strip(text.s)) else None
  }

  /** What `call_gemini_translate` returns for a decoded reply: the branch result, with every
      exception caught and turned into `None`. */
  function Decode(resp: Json): (r: Option<string>)
    ensures r == Expected(resp)
    ensures r.Some? ==> Text.Trimmed(r.value)
  {
    TextOf(Classify(resp))
  }

  /** The call's answer is already stripped: stripping it again changes nothing. */
  lemma DecodeIsStripped(resp: Json)
    ensures Decode(resp).Some? ==> Text.Strip(Decode(resp).value) == Decode(resp).value
  {
    if Decode(resp).Some? {
      Text.StripTrimmed(Decode(resp).value);
    }
  }

  /** A request body gives back the prompt it was built from. */
  lemma PromptOfBody(prompt: string)
    ensures PromptOf(Body(prompt)) == Some(prompt)
  {
  }

  /** One call: whether a request is posted, and what the call returns. */
  datatype Exchange = Exchange(request: Option<Request>, result: Option<string>)

  function Translate(key: string, source: string, reply: Option<Json>): (x: Exchange)
    ensures x.request.None? <==> !KeyConfigured(key)
    ensures x.request.Some? ==> x.request.value.url == Url(key)
    ensures x.request.Some? ==> PromptOf(x.request.value.body) == Some(Prefix + source)
    ensures x.result.Some? ==> x.request.Some? && reply.Some? && x.result == Expected(reply.value)
    ensures x.request.Some? && reply.Some? ==> x.result == Expected(reply.value)
  {
    if !KeyConfigured(key) then
      Exchange(None, None)
    else
      var answer := if reply.Some? then Decode(reply.value) else None;
      Exchange(Some(Request(Url(key), Body(Prefix + source))), answer)
  }

  /** The guard stops only the marker value itself: every other environment, including an
      unset variable, which falls back to a key that is not the marker, lets the call through. */
  lemma FallbackKeyPassesGuard(env: Option<string>)
    ensures KeyConfigured(ResolveKey(env)) <==> env != Some(UnsetKeyMarker)
    ensures ResolveKey(None) == FallbackKey && KeyConfigured(ResolveKey(None))
    ensures !KeyConfigured(UnsetKeyMarker)
  {
  }

  /** The posted body carries the prompt, and the prompt is the prefix followed by the source. */
  lemma RequestCarriesSource(key: string, source: string, reply: Option<Json>)
    requires KeyConfigured(key)
    ensures var x := Translate(key, source, reply);
            x.request.Some? && PromptOf(x.request.value.body) == Some(Prefix + source)
            && x.request.value.body == Body(Prefix + source)
  {
  }

  /** A reply whose `candidates` is absent or has length 0 (an empty list, dict or str)
      yields nothing. */
  lemma NoCandidatesYieldsNothing(top: map<string, Json>)
    requires "candidates" !in top || Len(top["candidates"]) == Ok(0)
    ensures Decode(Obj(top)) == None
  {
  }

  /** A block reply (`promptFeedback.blockReason` and no candidates) takes the block branch
      with that reason and yields nothing. */
  lemma BlockReplyYieldsNothing(top: map<string, Json>, feedback: map<string, Json>)
    requires "candidates" !in top || Len(top["candidates"]) == Ok(0)
    requires "promptFeedback" in top && top["promptFeedback"] == Obj(feedback)
    requires "blockReason" in feedback
    ensures Classify(Obj(top)) == Ok(Blocked(feedback["blockReason"]))
    ensures Decode(Obj(top)) == None
  {
  }

  /** A dict first candidate whose `content` is absent, or is a dict whose `parts` is absent
      or has length 0, takes the parts-missing branch and yields nothing. */
  lemma NoPartsYieldsNothing(top: map<string, Json>, candidate: map<string, Json>, rest: seq<Json>)
    requires "candidates" in top && top["candidates"] == Arr([Obj(candidate)] + rest)
    requires "content" in candidate ==> candidate["content"].Obj?
    requires "content" in candidate && "parts" in candidate["content"].fields ==>
      Len(candidate["content"].fields["parts"]) == Ok(0)
    ensures Classify(Obj(top)) == Ok(PartsMissing)
    ensures Decode(Obj(top)) == None
  {
  }

  /** The first part's text, stripped, is the translation; a first part without `text` gives "".
      Other top-level fields of the reply (such as `usageMetadata`) play no part. */
  lemma FirstPartTextIsTranslation(top: map<string, Json>, candidate: map<string, Json>, content: map<string, Json>,
                                   part: map<string, Json>, others: seq<Json>, parts: seq<Json>)
    requires "candidates" in top && top["candidates"] == Arr([Obj(candidate)] + others)
    requires "content" in candidate && candidate["content"] == Obj(content)
    requires "parts" in content && content["parts"] == Arr([Obj(part)] + parts)
    requires "text" !in part || part["text"].Str?
    ensures Decode(Obj(top)) == Some(if "text" in part then Text.Strip(part["text"].s) else "")
  {
  }
}
