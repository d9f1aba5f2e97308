/**
 * The world model's LLM client: it builds the generation request, extracts
 * the reply text and the thought signature from the response, parses the
 * reply into predictions, and falls back to a fixed table of expectations
 * when the call or the parse fails. The HTTP round trip, JSON decoding,
 * field validation and the prompt templates are supplied as `Services`.
 */
module GeminiClients {
  import opened Wrappers
  import opened OrderedMaps
  import opened Strings
  import opened Json

  datatype GeminiConfig = GeminiConfig(
    apiKey: string,
    model: string,
    thinkingLevel: string,
    maxOutputTokens: int,
    timeoutSeconds: int,
    useThoughtSignatures: bool)

  /** The configuration's field defaults. */
  function DefaultConfig(apiKey: string): GeminiConfig {
    GeminiConfig(apiKey, "gemini-3-pro-preview", "high", 8192, 60, true)
  }

  datatype SimulationPrediction = SimulationPrediction(
    predictedState: Object,
    successProbability: real,
    outcome: string,
    reasoning: string,
    confidence: real,
    riskScore: real,
    sideEffects: seq<string>,
    thoughtSignature: Json)

  /** A prediction with every field at its default. */
  const Blank := SimulationPrediction([], 0.5, "unknown", "", 0.5, 0.5, [], JNull)

  /** What the client uses but does not define. */
  datatype Services = Services(
    /** The HTTP round trip: the payload out, the decoded reply body back, or the error's text. */
    post: Json -> Result<Json>,
    /** `json.loads`; an error is a decoding error. */
    loads: string -> Result<Json>,
    /** `SimulationPrediction(**data)`; an error is a validation error. */
    validate: Object -> Result<SimulationPrediction>,
    /** How a call error names `SimulationPrediction`: its module, a dot and the class name. */
    predictionName: string,
    /** How `f"{value}"` shows an action type that is not a string. */
    display: Json -> string,
    /** The single-action prompt for a state, an action and a context. */
    simulationPrompt: (Object, Object, Object) -> string,
    /** The multi-step prompt for an initial state and an action sequence. */
    sequencePrompt: (Object, seq<Object>) -> string)

  // ---------------------------------------------------------------------------
  // The request

  /** The level sent: an explicit non-empty level overrides the configured one. */
  function Level(config: GeminiConfig, thinkingLevel: Option<string>): (l: string)
    ensures thinkingLevel.Some? && thinkingLevel.value != "" ==> l == thinkingLevel.value
    ensures !(thinkingLevel.Some? && thinkingLevel.value != "") ==> l == config.thinkingLevel
  {
    if thinkingLevel.Some? && thinkingLevel.value != "" then thinkingLevel.value else config.thinkingLevel
  }

  /**
   * Whether the stored thought signature (`None` is `JNull`) goes with the
   * request: signatures are on and the stored value is truthy.
   */
  predicate SendsSignature(config: GeminiConfig, stored: Json) {
    config.useThoughtSignatures && Truthy(stored)
  }

  /** The request parts: the prompt, then the stored signature when it is sent. */
  function Parts(config: GeminiConfig, stored: Json, prompt: string): (parts: seq<Json>)
    ensures |parts| == if SendsSignature(config, stored) then 2 else 1
    ensures parts[0] == JObj([("text", JStr(prompt))])
    ensures SendsSignature(config, stored) ==> parts[1] == JObj([("thoughtSignature", stored)])
  {
    [JObj([("text", JStr(prompt))])]
      + (if SendsSignature(config, stored) then [JObj([("thoughtSignature", stored)])] else [])
  }

  /** The generation request for `prompt`. */
  function Payload(config: GeminiConfig, stored: Json, prompt: string, thinkingLevel: Option<string>): Json {
    JObj([
      ("contents", JArr([JObj([("parts", JArr(Parts(config, stored, prompt)))])])),
      ("generationConfig", JObj([
        ("maxOutputTokens", JInt(config.maxOutputTokens)),
        ("responseMimeType", JStr("application/json")),
        ("temperature", JReal(1.0))])),
      ("thinkingConfig", JObj([("thinkingLevel", JStr(Level(config, thinkingLevel)))]))])
  }

  /**
   * The request does not depend on the configured level when a level is
   * given, nor on the stored signature when signatures are off or none is
   * stored.
   */
  lemma PayloadIndependence(config: GeminiConfig, stored: Json, prompt: string, level: string, other: string)
    ensures level != "" ==>
      Payload(config, stored, prompt, Some(level)) == Payload(config.(thinkingLevel := other), stored, prompt, Some(level))
    ensures !config.useThoughtSignatures ==>
      Payload(config, stored, prompt, None) == Payload(config, JNull, prompt, None)
    ensures |Parts(config, JNull, prompt)| == 1
  {
  }

  // ---------------------------------------------------------------------------
  // The response

  /** `candidates[0]` on a truthy value: the first item, the first character, or what indexing raises. */
  function First(candidates: Json): (r: Result<Json>)
    requires Truthy(candidates)
    ensures candidates.JArr? ==> r == Ok(candidates.items[0])
    ensures candidates.JStr? ==> r == Ok(JStr([candidates.s[0]]))
    ensures candidates.JObj? ==> r == Err("0")
    ensures !(candidates.JArr? || candidates.JStr? || candidates.JObj?) ==> r.Err?
  {
    match candidates
    case JArr(items) => Ok(items[0])
    case JStr(s) => Ok(JStr([s[0]]))
    // A dict has no key 0, and `str(KeyError(0))` is "0".
    case JObj(_) => Err("0")
    case _ => Err("'" + TypeName(candidates) + "' object is not subscriptable")
  }

  /** What calling `.get` on a value that is not a dict raises. */
  function NoGet(j: Json): string {
    "'" + TypeName(j) + "' object has no attribute 'get'"
  }

  /**
   * The parts of the first candidate's content, or the error the lookup
   * raises; the parts are what iterating the `parts` value yields, and are
   * never empty.
   */
  function ReplyParts(data: Json): (r: Result<seq<Json>>)
    ensures r.Ok? ==> r.value != []
    ensures !data.JObj? ==> r == Err(NoGet(data))
    ensures data.JObj? && !Truthy(GetOr(data.fields, "candidates", JArr([]))) ==> r == Err("No candidates in response")
  {
    match data
    case JObj(body) =>
      var candidates := GetOr(body, "candidates", JArr([]));
      if !Truthy(candidates) then Err("No candidates in response")
      else
        var first :- First(candidates);
        if !first.JObj? then Err(NoGet(first))
        else
          var content := GetOr(first.fields, "content", JObj([]));
          if !content.JObj? then Err(NoGet(content))
          else
            var parts := GetOr(content.fields, "parts", JArr([]));
            if !Truthy(parts) then Err("No parts in response")
            else Iterated(parts)
    case _ => Err(NoGet(data))
  }

  /**
   * One reply part as the loop reads it: its text and its thought signature,
   * each if present. `"text" in part` looks up a key of a dict, a substring
   * of a string or an element of a list, and raises for any other value;
   * `part["text"]` then reads only a dict.
   */
  function PartOf(part: Json): (r: Result<(Option<Json>, Option<Json>)>)
    ensures part.JObj? ==> r == Ok((Get(part.fields, "text"), Get(part.fields, "thoughtSignature")))
    ensures part.JStr? ==> (r.Err? <==> Contains(part.s, "text") || Contains(part.s, "thoughtSignature"))
    ensures part.JArr? ==> (r.Err? <==> JStr("text") in part.items || JStr("thoughtSignature") in part.items)
    ensures !(part.JObj? || part.JStr? || part.JArr?) ==> r.Err?
    ensures r.Ok? && !part.JObj? ==> r.value == (None, None)
  {
    match part
    case JObj(fields) => Ok((Get(fields, "text"), Get(fields, "thoughtSignature")))
    case JStr(s) =>
      if Contains(s, "text") || Contains(s, "thoughtSignature") then Err("string indices must be integers, not 'str'")
      else Ok((None, None))
    case JArr(items) =>
      if JStr("text") in items || JStr("thoughtSignature") in items then Err("list indices must be integers or slices, not str")
      else Ok((None, None))
    case _ => Err("argument of type '" + TypeName(part) + "' is not iterable")
  }

  /**
   * The loop over the reply parts from the given text, signature and stored
   * signature: a later text or signature replaces an earlier one, and each
   * signature is stored at once. Its result is the text and signature, or
   * the error of the part that raises, with the stored signature after the
   * loop.
   */
  function Scan(parts: seq<Json>, text: Json, signature: Json, stored: Json): (r: (Result<(Json, Json)>, Json))
    decreases |parts|
  {
    if parts == [] then (Ok((text, signature)), stored)
    else match PartOf(parts[0])
      case Err(e) => (Err(e), stored)
      case Ok((t, s)) => Scan(parts[1..], t.GetOr(text), s.GetOr(signature), s.GetOr(stored))
  }

  /** The last value present in a sequence of optional values. */
  function LastPresent(xs: seq<Option<Json>>): (r: Option<Json>)
    ensures r.Some? ==> exists i :: 0 <= i < |xs| && xs[i] == r
    ensures r.None? ==> forall i :: 0 <= i < |xs| ==> xs[i].None?
  {
    if xs == [] then None
    else if xs[|xs| - 1].Some? then xs[|xs| - 1]
    else LastPresent(xs[..|xs| - 1])
  }

  lemma {:induction false} LastPresentCons(x: Option<Json>, xs: seq<Option<Json>>)
    ensures LastPresent([x] + xs) == if LastPresent(xs).Some? then LastPresent(xs) else x
    decreases |xs|
  {
    if xs != [] {
      var ys := [x] + xs;
      assert ys[|ys| - 1] == xs[|xs| - 1];
      assert ys[..|ys| - 1] == [x] + xs[..|xs| - 1];
      LastPresentCons(x, xs[..|xs| - 1]);
    } else {
      assert [x] + xs == [x];
      assert [x][..0] == [];
    }
  }

  /** Parts none of which raises when read. */
  predicate WellFormed(parts: seq<Json>) {
    forall i :: 0 <= i < |parts| ==> PartOf(parts[i]).Ok?
  }

  function Texts(parts: seq<Json>): (ts: seq<Option<Json>>)
    requires WellFormed(parts)
    ensures |ts| == |parts| && forall i :: 0 <= i < |parts| ==> ts[i] == PartOf(parts[i]).value.0
  {
    seq(|parts|, i requires 0 <= i < |parts| && WellFormed(parts) => PartOf(parts[i]).value.0)
  }

  function Signatures(parts: seq<Json>): (ss: seq<Option<Json>>)
    requires WellFormed(parts)
    ensures |ss| == |parts| && forall i :: 0 <= i < |parts| ==> ss[i] == PartOf(parts[i]).value.1
  {
    seq(|parts|, i requires 0 <= i < |parts| && WellFormed(parts) => PartOf(parts[i]).value.1)
  }

  /** One step of the loop over the parts, from position `i`. */
  lemma ScanStep(parts: seq<Json>, i: nat, text: Json, signature: Json, stored: Json)
    requires i < |parts|
    ensures var part := PartOf(parts[i]);
      Scan(parts[i..], text, signature, stored) ==
        if part.Err? then (Err(part.error), stored)
        else Scan(parts[i + 1..], part.value.0.GetOr(text), part.value.1.GetOr(signature), part.value.1.GetOr(stored))
  {
    assert parts[i..][0] == parts[i] && parts[i..][1..] == parts[i + 1..];
  }

  lemma PartsCons(parts: seq<Json>)
    requires parts != [] && WellFormed(parts)
    ensures WellFormed(parts[1..])
    ensures Texts(parts) == [PartOf(parts[0]).value.0] + Texts(parts[1..])
    ensures Signatures(parts) == [PartOf(parts[0]).value.1] + Signatures(parts[1..])
  {
    var rest := parts[1..];
    assert WellFormed(rest) by {
      forall i | 0 <= i < |rest| ensures PartOf(rest[i]).Ok? {
        assert rest[i] == parts[i + 1];
      }
    }
    TextsCons(parts);
    SignaturesCons(parts);
  }

  lemma TextsCons(parts: seq<Json>)
    requires parts != [] && WellFormed(parts) && WellFormed(parts[1..])
    ensures Texts(parts) == [PartOf(parts[0]).value.0] + Texts(parts[1..])
  {
    var rest := parts[1..];
    forall i | 0 < i < |parts| ensures Texts(parts)[i] == Texts(rest)[i - 1] {
      assert rest[i - 1] == parts[i];
    }
    ConsEqual(Texts(parts), PartOf(parts[0]).value.0, Texts(rest));
  }

  lemma SignaturesCons(parts: seq<Json>)
    requires parts != [] && WellFormed(parts) && WellFormed(parts[1..])
    ensures Signatures(parts) == [PartOf(parts[0]).value.1] + Signatures(parts[1..])
  {
    var rest := parts[1..];
    forall i | 0 < i < |parts| ensures Signatures(parts)[i] == Signatures(rest)[i - 1] {
      assert rest[i - 1] == parts[i];
    }
    ConsEqual(Signatures(parts), PartOf(parts[0]).value.1, Signatures(rest));
  }

  lemma ConsEqual<T>(s: seq<T>, h: T, t: seq<T>)
    requires |s| == |t| + 1 && s[0] == h
    requires forall i :: 0 < i < |s| ==> s[i] == t[i - 1]
    ensures s == [h] + t
  {
    assert forall i :: 0 <= i < |s| ==> s[i] == ([h] + t)[i];
  }

  /**
   * Over well-formed parts the last text wins, the last signature wins, and
   * the stored signature is that last one when some part carries one.
   */
  lemma {:induction false} ScanLast(parts: seq<Json>, text: Json, signature: Json, stored: Json)
    requires WellFormed(parts)
    ensures var last := LastPresent(Signatures(parts));
      Scan(parts, text, signature, stored) ==
        (Ok((LastPresent(Texts(parts)).GetOr(text), last.GetOr(signature))), last.GetOr(stored))
    decreases |parts|
  {
    if parts != [] {
      var rest := parts[1..];
      var (t, s) := PartOf(parts[0]).value;
      PartsCons(parts);
      ScanLast(rest, t.GetOr(text), s.GetOr(signature), s.GetOr(stored));
      LastPresentCons(t, Texts(rest));
      LastPresentCons(s, Signatures(rest));
    }
  }

  /**
   * The first part that raises stops the loop with its error; the
   * signatures of the parts before it have been stored already.
   */
  lemma {:induction false} ScanMalformed(parts: seq<Json>, k: nat, text: Json, signature: Json, stored: Json)
    requires k < |parts| && PartOf(parts[k]).Err? && WellFormed(parts[..k])
    ensures Scan(parts, text, signature, stored) ==
      (Err(PartOf(parts[k]).error), LastPresent(Signatures(parts[..k])).GetOr(stored))
    decreases k
  {
    if k == 0 {
      assert Signatures(parts[..0]) == [];
    } else {
      var front := parts[..k];
      var rest := parts[1..];
      assert front[0] == parts[0];
      var (t, s) := PartOf(parts[0]).value;
      PartsCons(front);
      assert front[1..] == rest[..k - 1];
      assert rest[k - 1] == parts[k];
      ScanMalformed(rest, k - 1, t.GetOr(text), s.GetOr(signature), s.GetOr(stored));
      LastPresentCons(s, Signatures(rest[..k - 1]));
    }
  }

  /** `_call_gemini` from a stored signature: the reply text and signature, or the error, and the signature stored after. */
  function Called(config: GeminiConfig, stored: Json, services: Services, prompt: string, thinkingLevel: Option<string>)
    : (r: (Result<(Json, Json)>, Json))
  {
    match services.post(Payload(config, stored, prompt, thinkingLevel))
    case Err(e) => (Err(e), stored)
    case Ok(data) =>
      match ReplyParts(data)
      case Err(e) => (Err(e), stored)
      case Ok(parts) => Scan(parts, JStr(""), JNull, stored)
  }

  /**
   * A failed post, or a reply whose parts cannot be found, is an error that
   * leaves the stored signature alone; over readable parts the last text
   * (empty when none) and the last signature are returned, and that
   * signature is stored for the next call; a part that raises ends the call
   * with its error, after storing the signatures of the parts before it.
   */
  lemma CalledFacts(config: GeminiConfig, stored: Json, services: Services, prompt: string, thinkingLevel: Option<string>)
    ensures var (r, after) := Called(config, stored, services, prompt, thinkingLevel);
      var response := services.post(Payload(config, stored, prompt, thinkingLevel));
      && (response.Err? ==> r == Err(response.error) && after == stored)
      && (response.Ok? && ReplyParts(response.value).Err? ==> r == Err(ReplyParts(response.value).error) && after == stored)
      && (response.Ok? && ReplyParts(response.value).Ok? && WellFormed(ReplyParts(response.value).value) ==>
            var parts := ReplyParts(response.value).value;
            var last := LastPresent(Signatures(parts));
            r == Ok((LastPresent(Texts(parts)).GetOr(JStr("")), last.GetOr(JNull))) && after == last.GetOr(stored))
      && (response.Ok? && ReplyParts(response.value).Ok? ==>
            var parts := ReplyParts(response.value).value;
            forall k :: 0 <= k < |parts| && PartOf(parts[k]).Err? && WellFormed(parts[..k]) ==>
              r == Err(PartOf(parts[k]).error) && after == LastPresent(Signatures(parts[..k])).GetOr(stored))
  {
    match services.post(Payload(config, stored, prompt, thinkingLevel))
    case Err(e) =>
    case Ok(data) =>
      match ReplyParts(data)
      case Err(e) =>
      case Ok(parts) =>
        if WellFormed(parts) {
          ScanLast(parts, JStr(""), JNull, stored);
        }
        forall k | 0 <= k < |parts| && PartOf(parts[k]).Err? && WellFormed(parts[..k])
          ensures Scan(parts, JStr(""), JNull, stored) == (Err(PartOf(parts[k]).error), LastPresent(Signatures(parts[..k])).GetOr(stored))
        {
          ScanMalformed(parts, k, JStr(""), JNull, stored);
        }
  }

  /** A reply with no candidates is the error "No candidates in response". */
  lemma NoCandidates(config: GeminiConfig, stored: Json, services: Services, prompt: string,
                     thinkingLevel: Option<string>, body: Object)
    requires services.post(Payload(config, stored, prompt, thinkingLevel)) == Ok(JObj(body))
    requires !HasKey(body, "candidates") || GetOr(body, "candidates", JNull) == JArr([])
    ensures Called(config, stored, services, prompt, thinkingLevel) == (Err("No candidates in response"), stored)
  {
  }

  /** A string part without "text" and "thoughtSignature" in it, as iterating a string gives, is read as carrying neither. */
  lemma CharacterPartsCarryNothing(c: char)
    ensures PartOf(JStr([c])) == Ok((None, None))
  {
    assert !Contains([c], "text") by { ContainsIff([c], "text"); }
    assert !Contains([c], "thoughtSignature") by { ContainsIff([c], "thoughtSignature"); }
  }

  // ---------------------------------------------------------------------------
  // Parsing the reply

  const Fence := "```"

  /**
   * The reply with markdown fences removed: stripped, and when it opens
   * with a fence, without its first line, and without its last line too
   * when that is exactly a closing fence.
   */
  function Unfenced(response: string): (text: string)
    ensures !StartsWith(Strip(response), Fence) ==> text == Strip(response)
  {
    var t := Strip(response);
    if StartsWith(t, Fence) then
      var lines := SplitOn(t, "\n");
      // Python's lines[1:-1] is empty for a single line.
      var kept := if lines[|lines| - 1] == Fence then (if |lines| >= 2 then lines[1..|lines| - 1] else []) else lines[1..];
      Join(kept, "\n")
    else t
  }

  /** A body wrapped in a ```json fence is unwrapped to exactly that body. */
  lemma UnfencedBody(body: string)
    ensures Unfenced("```json\n" + body + "\n```") == body
  {
    var text := "```json\n" + body + "\n```";
    assert text[0] == '`' && text[|text| - 1] == '`';
    StripUnchanged(text);
    assert StartsWith(text, Fence) by {
      assert text[..3] == Fence;
    }
    FencedLines(body);
    MiddleOf("```json", SplitOn(body, "\n"), Fence);
    JoinSplitOn(body, "\n");
  }

  /**
   * A reply that opens a ```json fence but never closes it loses only its
   * first line: the body comes back whole when its last line is not a
   * closing fence (and it ends in a non-space, so stripping keeps it).
   */
  lemma UnfencedOpen(body: string)
    requires body != [] && !IsSpace(body[|body| - 1])
    requires var lines := SplitOn(body, "\n"); lines[|lines| - 1] != Fence
    ensures Unfenced("```json\n" + body) == body
  {
    var text := "```json\n" + body;
    OpenStripped(body);
    OpenLines(body);
    var lines := SplitOn(text, "\n");
    assert lines[1..] == SplitOn(body, "\n");
    assert lines[|lines| - 1] != Fence;
    JoinSplitOn(body, "\n");
  }

  /** An opened fence followed by a body that ends in a non-space is left as it is by stripping. */
  lemma OpenStripped(body: string)
    requires body != [] && !IsSpace(body[|body| - 1])
    ensures var text := "```json\n" + body; Strip(text) == text && StartsWith(text, Fence)
  {
    var text := "```json\n" + body;
    assert text[0] == '`' && text[|text| - 1] == body[|body| - 1];
    StripUnchanged(text);
    assert text[..3] == Fence;
  }

  /** The lines of an opened fence: the opening line, then the body's lines. */
  lemma OpenLines(body: string)
    ensures SplitOn("```json\n" + body, "\n") == ["```json"] + SplitOn(body, "\n")
  {
    var head := "```json";
    assert forall k :: 0 <= k < |head| ==> head[k] != '\n';
    assert "```json\n" + body == head + ['\n'] + body;
    SplitOnCharCons(head, '\n', body);
  }

  /** The lines of a fenced body: the opening line, the body's lines, the closing fence. */
  lemma FencedLines(body: string)
    ensures SplitOn("```json\n" + body + "\n```", "\n") == ["```json"] + SplitOn(body, "\n") + [Fence]
  {
    var head := "```json";
    assert forall k :: 0 <= k < |head| ==> head[k] != '\n';
    assert "```json\n" + body + "\n```" == head + ['\n'] + (body + ['\n'] + Fence);
    SplitOnCharCons(head, '\n', body + ['\n'] + Fence);
    SplitOnCharSnoc(body, '\n', Fence);
  }

  lemma MiddleOf<T>(a: T, m: seq<T>, z: T)
    ensures var s := [a] + m + [z]; s[1..|s| - 1] == m && s[|s| - 1] == z
  {
  }

  /** The prediction standing for an unparsable reply. */
  function ParseFailure(response: string): (p: SimulationPrediction)
    ensures p.outcome == "unknown" && p.reasoning == "Parse error: " + PyPrefix(response, 200)
    ensures p == Blank.(reasoning := p.reasoning)
  {
    Blank.(reasoning := "Parse error: " + PyPrefix(response, 200))
  }

  /** Unpacking a decoded value that is not an object raises a type error, which the parsers do not catch. */
  function NotMapping(services: Services, j: Json): string {
    services.predictionName + "() argument after ** must be a mapping, not " + TypeName(j)
  }

  /** `_parse_prediction`: the validated object, the parse-failure prediction, or the uncaught type error. */
  function ParsePrediction(services: Services, response: string): (r: Result<SimulationPrediction>)
  {
    match services.loads(Unfenced(response))
    case Err(_) => Ok(ParseFailure(response))
    case Ok(JObj(data)) =>
      (match services.validate(data)
       case Err(_) => Ok(ParseFailure(response))
       case Ok(p) => Ok(p))
    case Ok(other) => Err(NotMapping(services, other))
  }

  /**
   * Parsing fails only on a decoded value that is not an object; a reply
   * that does not decode, or an object that does not validate, becomes the
   * parse-failure prediction, and a valid object becomes its prediction.
   */
  lemma ParsePredictionCases(services: Services, response: string)
    ensures var decoded := services.loads(Unfenced(response));
      var r := ParsePrediction(services, response);
      && (r.Err? <==> decoded.Ok? && !decoded.value.JObj?)
      && (decoded.Err? ==> r == Ok(ParseFailure(response)))
      && (decoded.Ok? && decoded.value.JObj? ==>
            r == (if services.validate(decoded.value.fields).Ok? then services.validate(decoded.value.fields)
                  else Ok(ParseFailure(response))))
  {
  }

  /** The prediction standing for each expected step of an unparsable sequence. */
  function Placeholders(n: nat): (ps: seq<SimulationPrediction>)
    ensures |ps| == n
    ensures forall i :: 0 <= i < n ==> ps[i] == Blank.(reasoning := "Parse error")
  {
    seq(n, _ => Blank.(reasoning := "Parse error"))
  }

  /**
   * `[SimulationPrediction(**item) for item in data]`: the predictions when
   * every item validates; `None` when the first failing item is an object
   * that does not validate; the type error when it is not an object.
   */
  function ValidateAll(services: Services, items: seq<Json>): (r: Result<Option<seq<SimulationPrediction>>>)
    ensures r.Ok? && r.value.Some? ==>
      |r.value.value| == |items|
      && forall i :: 0 <= i < |items| ==> items[i].JObj? && services.validate(items[i].fields) == Ok(r.value.value[i])
    ensures (forall i :: 0 <= i < |items| ==> items[i].JObj? && services.validate(items[i].fields).Ok?) ==>
      r.Ok? && r.value.Some?
    decreases |items|
  {
    if items == [] then Ok(Some([]))
    else match items[0]
      case JObj(data) =>
        (match services.validate(data)
         case Err(_) => Ok(None)
         case Ok(p) =>
           match ValidateAll(services, items[1..])
           case Ok(Some(ps)) => Ok(Some([p] + ps))
           case other => other)
      case _ => Err(NotMapping(services, items[0]))
  }

  /** `_parse_sequence`: one prediction per list item, a singleton for an object, placeholders when parsing fails. */
  function ParseSequence(services: Services, response: string, expectedCount: nat): (r: Result<seq<SimulationPrediction>>)
  {
    match services.loads(Unfenced(response))
    case Err(_) => Ok(Placeholders(expectedCount))
    case Ok(JArr(items)) =>
      (match ValidateAll(services, items)
       case Ok(Some(ps)) => Ok(ps)
       case Ok(None) => Ok(Placeholders(expectedCount))
       case Err(e) => Err(e))
    case Ok(JObj(data)) =>
      (match services.validate(data)
       case Ok(p) => Ok([p])
       case Err(_) => Ok(Placeholders(expectedCount)))
    case Ok(other) => Err(NotMapping(services, other))
  }

  /**
   * A list of valid objects gives one prediction per element, in order; a
   * valid object gives a singleton; a reply that does not decode gives
   * `expectedCount` placeholders.
   */
  lemma ParseSequenceCounts(services: Services, response: string, expectedCount: nat)
    ensures var decoded := services.loads(Unfenced(response));
      var r := ParseSequence(services, response, expectedCount);
      && (decoded.Err? ==> r == Ok(Placeholders(expectedCount)))
      && (decoded.Ok? && decoded.value.JArr? &&
          (forall i :: 0 <= i < |decoded.value.items| ==>
             decoded.value.items[i].JObj? && services.validate(decoded.value.items[i].fields).Ok?) ==>
            r.Ok? && |r.value| == |decoded.value.items| &&
            forall i :: 0 <= i < |r.value| ==> services.validate(decoded.value.items[i].fields) == Ok(r.value[i]))
      && (decoded.Ok? && decoded.value.JObj? && services.validate(decoded.value.fields).Ok? ==>
            r == Ok([services.validate(decoded.value.fields).value]))
      && (r.Ok? ==> |r.value| == expectedCount || decoded.Ok?)
  {
  }

  /** `response.strip()` on a reply text that is not a string raises `AttributeError`, which the parsers do not catch. */
  function NotStrippable(text: Json): string {
    "'" + TypeName(text) + "' object has no attribute 'strip'"
  }

  /** `_parse_prediction` on the reply text `_call_gemini` returned, whatever its type. */
  function ParseReply(services: Services, text: Json): (r: Result<SimulationPrediction>)
    ensures !text.JStr? ==> r == Err(NotStrippable(text))
    ensures text.JStr? ==> r == ParsePrediction(services, text.s)
  {
    if text.JStr? then ParsePrediction(services, text.s) else Err(NotStrippable(text))
  }

  /** `_parse_sequence` on the reply text `_call_gemini` returned, whatever its type. */
  function ParseSequenceReply(services: Services, text: Json, expectedCount: nat): (r: Result<seq<SimulationPrediction>>)
    ensures !text.JStr? ==> r == Err(NotStrippable(text))
    ensures text.JStr? ==> r == ParseSequence(services, text.s, expectedCount)
  {
    if text.JStr? then ParseSequence(services, text.s, expectedCount) else Err(NotStrippable(text))
  }

  // ---------------------------------------------------------------------------
  // The fallback

  /** `action.get("type", "unknown")`. */
  function ActionType(action: Object): Json {
    GetOr(action, "type", JStr("unknown"))
  }

  /** The table row for an action type, if it has one: probability, outcome, risk and reasoning. */
  function FallbackRow(actionType: Json): (row: Option<(real, string, real, string)>)
    ensures row.Some? ==> actionType.JStr? && actionType.s in ["restart", "scale_up", "scale_down", "rollback", "deploy"]
    ensures row.Some? ==> 0.0 <= row.value.0 <= 1.0 && 0.0 <= row.value.2 <= 1.0
  {
    match actionType
    case JStr("restart") => Some((0.7, "success", 0.3, "Fallback: Restart typically resolves transient issues"))
    case JStr("scale_up") => Some((0.8, "success", 0.2, "Fallback: Scaling up increases capacity"))
    case JStr("scale_down") => Some((0.75, "success", 0.4, "Fallback: Scaling down may impact performance"))
    case JStr("rollback") => Some((0.85, "success", 0.15, "Fallback: Rollback to known-good state is safe"))
    case JStr("deploy") => Some((0.6, "partial", 0.5, "Fallback: Deployments carry moderate risk"))
    case _ => None
  }

  /** `f"{action_type}"`. */
  function Shown(services: Services, actionType: Json): string {
    if actionType.JStr? then actionType.s else services.display(actionType)
  }

  /**
   * `_fallback_prediction`: the table's expectations, applied to the state as
   * `action_applied`; a list or dict action type cannot be looked up in the
   * table and raises `TypeError`.
   */
  function Fallback(services: Services, state: Object, action: Object, error: string): (r: Result<SimulationPrediction>)
    ensures r.Err? <==> !Hashable(ActionType(action))
    ensures r.Err? ==> r.error == Unhashable(ActionType(action))
    ensures r.Ok? ==> r.value.predictedState == Put(state, "action_applied", ActionType(action))
    ensures r.Ok? ==> r.value.confidence == 0.5 && r.value.sideEffects == [] && r.value.thoughtSignature == JNull
    ensures r.Ok? ==> 0.0 <= r.value.successProbability <= 1.0 && 0.0 <= r.value.riskScore <= 1.0
  {
    var actionType := ActionType(action);
    if !Hashable(actionType) then Err(Unhashable(actionType))
    else
      var row := match FallbackRow(actionType)
        case Some(r) => r
        case None => (0.4, "unknown", 0.6, "Fallback prediction for " + Shown(services, actionType) + ": " + error);
      Ok(Blank.(predictedState := Put(state, "action_applied", actionType), successProbability := row.0,
                outcome := row.1, riskScore := row.2, reasoning := row.3))
  }

  /** The fallback table, row by row, the default for every other hashable action type, and the error for the rest. */
  lemma FallbackTable(services: Services, state: Object, action: Object, error: string)
    ensures var r := Fallback(services, state, action, error);
      var t := ActionType(action);
      && (!Hashable(t) ==> r == Err(Unhashable(t)))
      && (Hashable(t) ==> r.Ok?)
    ensures var r := Fallback(services, state, action, error);
      var t := ActionType(action);
      r.Ok? ==>
      var p := r.value;
      && (t == JStr("restart") ==> (p.successProbability, p.outcome, p.riskScore) == (0.7, "success", 0.3))
      && (t == JStr("scale_up") ==> (p.successProbability, p.outcome, p.riskScore) == (0.8, "success", 0.2))
      && (t == JStr("scale_down") ==> (p.successProbability, p.outcome, p.riskScore) == (0.75, "success", 0.4))
      && (t == JStr("rollback") ==> (p.successProbability, p.outcome, p.riskScore) == (0.85, "success", 0.15))
      && (t == JStr("deploy") ==> (p.successProbability, p.outcome, p.riskScore) == (0.6, "partial", 0.5))
      && (!(t.JStr? && t.s in ["restart", "scale_up", "scale_down", "rollback", "deploy"]) ==>
            (p.successProbability, p.outcome, p.riskScore) == (0.4, "unknown", 0.6)
            && p.reasoning == "Fallback prediction for " + Shown(services, t) + ": " + error)
      && (FallbackRow(t).Some? ==> p.reasoning == FallbackRow(t).value.3)
  {
  }

  /** The fallback's predicted state is the input state with `action_applied` set to the action type. */
  lemma FallbackState(services: Services, state: Object, action: Object, error: string, k: string)
    requires DistinctKeys(state) && Hashable(ActionType(action))
    ensures var s := Fallback(services, state, action, error).value.predictedState;
      DistinctKeys(s) && Get(s, k) == if k == "action_applied" then Some(ActionType(action)) else Get(state, k)
  {
    PutGet(state, "action_applied", ActionType(action), k);
  }

  /**
   * `[self._fallback_prediction(initial_state, action, str(e)) for action in actions]`:
   * one prediction per action, in order, or the error of the first action
   * whose fallback raises.
   */
  function Fallbacks(services: Services, state: Object, actions: seq<Object>, error: string): (r: Result<seq<SimulationPrediction>>)
    ensures r.Ok? <==> forall i :: 0 <= i < |actions| ==> Fallback(services, state, actions[i], error).Ok?
    ensures r.Ok? ==> |r.value| == |actions| && forall i :: 0 <= i < |actions| ==> Fallback(services, state, actions[i], error) == Ok(r.value[i])
    ensures r.Err? ==> exists i :: 0 <= i < |actions| && Fallback(services, state, actions[i], error) == Err(r.error)
                         && forall j :: 0 <= j < i ==> Fallback(services, state, actions[j], error).Ok?
  {
    Each(a => Fallback(services, state, a, error), actions)
  }

  /** A list comprehension whose element expression may raise: every value, or the first exception. */
  function Each<A, B>(f: A -> Result<B>, xs: seq<A>): (r: Result<seq<B>>)
    ensures r.Ok? <==> forall i :: 0 <= i < |xs| ==> f(xs[i]).Ok?
    ensures r.Ok? ==> |r.value| == |xs| && forall i :: 0 <= i < |xs| ==> f(xs[i]) == Ok(r.value[i])
    ensures r.Err? ==> exists i :: 0 <= i < |xs| && f(xs[i]) == Err(r.error) && forall j :: 0 <= j < i ==> f(xs[j]).Ok?
  {
    if xs == [] then Ok([])
    else
      match f(xs[0])
      case Err(e) => Err(e)
      case Ok(y) =>
        assert forall j :: 0 <= j < |xs| - 1 ==> xs[1..][j] == xs[j + 1];
        match Each(f, xs[1..])
        case Err(e) => Err(e)
        case Ok(ys) => Ok([y] + ys)
  }

  // ---------------------------------------------------------------------------
  // Simulation

  /**
   * `simulate_action` from a stored signature: the prediction, or the error
   * the fallback raises, and the signature stored after.
   */
  function Simulated(config: GeminiConfig, stored: Json, services: Services,
                     state: Object, action: Object, context: Option<Object>)
    : (r: (Result<SimulationPrediction>, Json))
  {
    var prompt := services.simulationPrompt(state, action, context.GetOr([]));
    var (call, after) := Called(config, stored, services, prompt, None);
    match call
    case Err(e) => (Fallback(services, state, action, e), after)
    case Ok((text, signature)) =>
      match ParseReply(services, text)
      case Err(e) => (Fallback(services, state, action, e), after)
      case Ok(p) => (Ok(p.(thoughtSignature := signature)), after)
  }

  /**
   * A failed call, or a reply that raises while being parsed, gives the
   * fallback for the action with the error's text (which itself raises for
   * an unhashable action type); a parsed prediction carries the signature of
   * this very call.
   */
  lemma SimulatedFacts(config: GeminiConfig, stored: Json, services: Services,
                       state: Object, action: Object, context: Option<Object>)
    ensures var prompt := services.simulationPrompt(state, action, context.GetOr([]));
      var (call, _) := Called(config, stored, services, prompt, None);
      var (p, after) := Simulated(config, stored, services, state, action, context);
      && after == Called(config, stored, services, prompt, None).1
      && (call.Err? ==> p == Fallback(services, state, action, call.error))
      && (call.Ok? && ParseReply(services, call.value.0).Err? ==>
            p == Fallback(services, state, action, ParseReply(services, call.value.0).error))
      && (call.Ok? && !call.value.0.JStr? ==> p == Fallback(services, state, action, NotStrippable(call.value.0)))
      && (call.Ok? && ParseReply(services, call.value.0).Ok? ==>
            p == Ok(ParseReply(services, call.value.0).value.(thoughtSignature := call.value.1)))
      && (p.Err? ==> (call.Err? || ParseReply(services, call.value.0).Err?) && !Hashable(ActionType(action)))
  {
  }

  /**
   * `simulate_sequence` from a stored signature: the predictions, or the
   * error a fallback raises, and the signature stored after.
   */
  function SimulatedSequence(config: GeminiConfig, stored: Json, services: Services,
                             initialState: Object, actions: seq<Object>)
    : (r: (Result<seq<SimulationPrediction>>, Json))
  {
    var prompt := services.sequencePrompt(initialState, actions);
    var (call, after) := Called(config, stored, services, prompt, Some("high"));
    match call
    case Err(e) => (Fallbacks(services, initialState, actions, e), after)
    case Ok((text, _)) =>
      match ParseSequenceReply(services, text, |actions|)
      case Err(e) => (Fallbacks(services, initialState, actions, e), after)
      case Ok(ps) => (Ok(ps), after)
  }

  /**
   * On any error the sequence has exactly one fallback per action, in
   * order, unless some action's type is unhashable, which raises; and the
   * multi-step call always thinks at level "high", whatever the
   * configuration says.
   */
  lemma SequenceFacts(config: GeminiConfig, stored: Json, services: Services,
                      initialState: Object, actions: seq<Object>, other: string)
    ensures var prompt := services.sequencePrompt(initialState, actions);
      var (call, _) := Called(config, stored, services, prompt, Some("high"));
      var (ps, _) := SimulatedSequence(config, stored, services, initialState, actions);
      && (call.Err? ==>
            && (ps.Ok? <==> forall i :: 0 <= i < |actions| ==> Hashable(ActionType(actions[i])))
            && (ps.Ok? ==>
                  && |ps.value| == |actions|
                  && forall i :: 0 <= i < |actions| ==> Fallback(services, initialState, actions[i], call.error) == Ok(ps.value[i])))
      && (call.Ok? && ParseSequenceReply(services, call.value.0, |actions|).Err? ==>
            && (ps.Ok? <==> forall i :: 0 <= i < |actions| ==> Hashable(ActionType(actions[i])))
            && (ps.Ok? ==> |ps.value| == |actions|))
      && (call.Ok? && ParseSequenceReply(services, call.value.0, |actions|).Ok? ==>
            ps == Ok(ParseSequenceReply(services, call.value.0, |actions|).value))
    ensures SimulatedSequence(config, stored, services, initialState, actions)
         == SimulatedSequence(config.(thinkingLevel := other), stored, services, initialState, actions)
  {
    PayloadIndependence(config, stored, services.sequencePrompt(initialState, actions), "high", other);
  }

  // ---------------------------------------------------------------------------
  // The client

  class GeminiClient {
    const config: GeminiConfig
    var thoughtSignature: Json

    constructor (config: GeminiConfig)
      ensures this.config == config && thoughtSignature == JNull
    {
      this.config := config;
      thoughtSignature := JNull;
    }

    /** `_call_gemini`: post the request, then scan the reply's parts, storing each signature met. */
    method CallGemini(services: Services, prompt: string, thinkingLevel: Option<string>)
      returns (r: Result<(Json, Json)>)
      modifies this
      ensures (r, thoughtSignature) == Called(config, old(thoughtSignature), services, prompt, thinkingLevel)
    {
      var response := services.post(Payload(config, thoughtSignature, prompt, thinkingLevel));
      if response.Err? {
        return Err(response.error);
      }
      var found := ReplyParts(response.value);
      if found.Err? {
        return Err(found.error);
      }
      var parts := found.value;
      var text := JStr("");
      var signature := JNull;
      ghost var goal := Scan(parts, text, signature, thoughtSignature);
      assert parts[0..] == parts;
      var i := 0;
      while i < |parts|
        invariant 0 <= i <= |parts|
        invariant Scan(parts[i..], text, signature, thoughtSignature) == goal
      {
        ScanStep(parts, i, text, signature, thoughtSignature);
        var part := PartOf(parts[i]);
        if part.Err? {
          return Err(part.error);
        }
        var (t, s) := part.value;
        if t.Some? {
          text := t.value;
        }
        if s.Some? {
          signature := s.value;
          thoughtSignature := s.value;
        }
        i := i + 1;
      }
      assert parts[i..] == [];
      r := Ok((text, signature));
    }

    /** `simulate_action`: ask for one prediction, falling back to the table on any error. */
    method SimulateAction(services: Services, state: Object, action: Object, context: Option<Object>)
      returns (prediction: Result<SimulationPrediction>)
      modifies this
      ensures (prediction, thoughtSignature) == Simulated(config, old(thoughtSignature), services, state, action, context)
    {
      var prompt := services.simulationPrompt(state, action, context.GetOr([]));
      var call := CallGemini(services, prompt, None);
      if call.Err? {
        return Fallback(services, state, action, call.error);
      }
      var (text, signature) := call.value;
      var parsed := ParseReply(services, text);
      if parsed.Err? {
        return Fallback(services, state, action, parsed.error);
      }
      prediction := Ok(parsed.value.(thoughtSignature := signature));
    }

    /** `simulate_sequence`: ask for one prediction per action, thinking at level "high". */
    method SimulateSequence(services: Services, initialState: Object, actions: seq<Object>)
      returns (predictions: Result<seq<SimulationPrediction>>)
      modifies this
      ensures (predictions, thoughtSignature) == SimulatedSequence(config, old(thoughtSignature), services, initialState, actions)
    {
      var prompt := services.sequencePrompt(initialState, actions);
      var call := CallGemini(services, prompt, Some("high"));
      if call.Err? {
        return Fallbacks(services, initialState, actions, call.error);
      }
      var parsed := ParseSequenceReply(services, call.value.0, |actions|);
      if parsed.Err? {
        return Fallbacks(services, initialState, actions, parsed.error);
      }
      predictions := Ok(parsed.value);
    }

    /** `reset_thought_context`: forget the stored signature, so the next request carries none. */
    method ResetThoughtContext()
      modifies this
      ensures thoughtSignature == JNull
      ensures |Parts(config, thoughtSignature, "")| == 1
    {
      thoughtSignature := JNull;
    }
  }
}
