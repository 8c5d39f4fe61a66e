/**
 * The deterministic parts of the two text-generation clients
 * (backend/llm/): the requests they build and what `generate_json` does
 * with the reply text. The HTTP call, the vendor SDK and `json.loads`
 * are parameters: `decode` gives the JSON value a text denotes, or None
 * where `json.loads` raises `JSONDecodeError`.
 */
module JsonReply {
  import opened Wrappers
  import opened Strings
  import opened JsonValues

  const JsonSuffix := "\n\nPlease respond with valid JSON only, no additional text."

  /** The prompt `generate_json` sends: the caller's prompt followed by the JSON instruction. */
  function JsonPrompt(prompt: string): (p: string)
    ensures StartsWith(p, prompt) && EndsWith(p, JsonSuffix)
    ensures |p| == |prompt| + |JsonSuffix|
  {
    prompt + JsonSuffix
  }

  /** Drop a leading "```json", then a leading "```", then a trailing "```". */
  function Unfence(a: string): (r: string)
    ensures |r| <= |a|
  {
    var b := if StartsWith(a, "```json") then a[7..] else a;
    var c := if StartsWith(b, "```") then b[3..] else b;
    if EndsWith(c, "```") then c[..|c| - 3] else c
  }

  /**
   * The reply with a Markdown code fence removed: strip, drop the fence
   * marks, strip again.
   */
  function StripFences(text: string): (r: string)
    ensures IsStripped(r) && |r| <= |text|
  {
    Strip(Unfence(Strip(text)))
  }

  /** Text that neither starts nor ends with "```" has no fence to drop. */
  lemma UnfenceNone(a: string)
    requires !StartsWith(a, "```") && !EndsWith(a, "```")
    ensures Unfence(a) == a
  {
  }

  /** "```json" + body + "```" loses both fence marks when the body does not start with a backtick. */
  lemma UnfenceJson(body: string)
    requires body != [] && body[0] != '`'
    ensures Unfence("```json" + body + "```") == body
  {
    var a := "```json" + body + "```";
    assert a[..7] == "```json";
    var b := a[7..];
    assert b == body + "```";
    assert b[0] == body[0];
    assert b[|b| - 3..] == "```";
    assert b[..|b| - 3] == body;
  }

  /** "```" + body + "```" loses both fence marks when the body starts with neither a backtick nor a 'j'. */
  lemma UnfencePlain(body: string)
    requires body != [] && body[0] != '`' && body[0] != 'j'
    ensures Unfence("```" + body + "```") == body
  {
    var a := "```" + body + "```";
    assert a[3] == body[0];
    assert a[..3] == "```";
    var c := a[3..];
    assert c == body + "```";
    assert c[|c| - 3..] == "```";
    assert c[..|c| - 3] == body;
  }

  /** A reply without a fence at either end is only stripped. */
  lemma UnfencedReply(text: string)
    requires !StartsWith(Strip(text), "```") && !EndsWith(Strip(text), "```")
    ensures StripFences(text) == Strip(text)
  {
    UnfenceNone(Strip(text));
    StripOfStripped(Strip(text));
  }

  /** A body fenced as "```json" … "```" comes back stripped, fences gone. */
  lemma FencedJsonReply(body: string)
    requires body != [] && body[0] != '`'
    ensures StripFences("```json" + body + "```") == Strip(body)
  {
    var text := "```json" + body + "```";
    assert text[0] == '`' && text[|text| - 1] == '`';
    StripOfStripped(text);
    UnfenceJson(body);
  }

  /** A body fenced as "```" … "```" comes back stripped, fences gone. */
  lemma FencedPlainReply(body: string)
    requires body != [] && body[0] != '`' && body[0] != 'j'
    ensures StripFences("```" + body + "```") == Strip(body)
  {
    var text := "```" + body + "```";
    assert text[0] == '`' && text[|text| - 1] == '`';
    StripOfStripped(text);
    UnfencePlain(body);
  }

  // ---------------------------------------------------------------- the `\{.*\}` fallback

  /** The position of the first `c` in `s`. */
  function FirstIndexOf(s: string, c: char): (r: Option<nat>)
    ensures r.Some? ==> r.value < |s| && s[r.value] == c && forall k :: 0 <= k < r.value ==> s[k] != c
    ensures r.None? ==> forall k :: 0 <= k < |s| ==> s[k] != c
  {
    if s == [] then None
    else if s[0] == c then Some(0)
    else match FirstIndexOf(s[1..], c)
      case Some(i) => Some(i + 1)
      case None => None
  }

  /** The position of the last `c` in `s`. */
  function LastIndexOf(s: string, c: char): (r: Option<nat>)
    ensures r.Some? ==> r.value < |s| && s[r.value] == c && forall k :: r.value < k < |s| ==> s[k] != c
    ensures r.None? ==> forall k :: 0 <= k < |s| ==> s[k] != c
  {
    if s == [] then None
    else if s[|s| - 1] == c then Some(|s| - 1)
    else LastIndexOf(s[..|s| - 1], c)
  }

  /**
   * What `re.search(r'\{.*\}', s, re.DOTALL)` matches: from the first `{`
   * to the last `}`, when that `}` comes after it.
   */
  function BraceSpan(s: string): Option<string> {
    match (FirstIndexOf(s, '{'), LastIndexOf(s, '}'))
    case (Some(i), Some(j)) => if i < j then Some(s[i..j + 1]) else None
    case _ => None
  }

  /** `s[i..j+1]` is the leftmost-longest match of the brace pattern: `i` is the first `{`, `j` the last `}`. */
  predicate IsBraceSpan(s: string, i: int, j: int) {
    0 <= i < j < |s| && s[i] == '{' && s[j] == '}'
    && (forall k :: 0 <= k < i ==> s[k] != '{')
    && (forall k :: j < k < |s| ==> s[k] != '}')
  }

  /** A span exists exactly when some `{` precedes some `}`, and it runs from the first `{` to the last `}`. */
  lemma BraceSpanSpec(s: string)
    ensures BraceSpan(s).Some? <==> exists i, j :: 0 <= i < j < |s| && s[i] == '{' && s[j] == '}'
    ensures forall i, j :: IsBraceSpan(s, i, j) ==> BraceSpan(s) == Some(s[i..j + 1])
  {
    if BraceSpan(s).Some? {
      var i := FirstIndexOf(s, '{').value;
      var j := LastIndexOf(s, '}').value;
      assert s[i] == '{' && s[j] == '}';
    }
    forall i, j | 0 <= i < j < |s| && s[i] == '{' && s[j] == '}'
      ensures BraceSpan(s).Some?
    {
      var fi := FirstIndexOf(s, '{');
      var lj := LastIndexOf(s, '}');
      assert fi.Some? && fi.value <= i;
      assert lj.Some? && j <= lj.value;
    }
  }

  // ---------------------------------------------------------------- generate_json

  /** The message of the `ValueError` both decode attempts failing raises. */
  function ParseFailure(source: string, text: string): string {
    "ValueError: Failed to parse JSON from " + source + ": " + Truncate(text, 200)
  }

  /**
   * The post-processing `generate_json` applies to the reply text: decode
   * the fence-stripped text; failing that, decode the brace span of it;
   * failing that, raise `ValueError`.
   */
  function ParseReply(text: string, decode: string -> Option<Json>, source: string): (r: Result<Json>)
    ensures decode(StripFences(text)).Some? ==> r == Ok(decode(StripFences(text)).value)
    ensures (decode(StripFences(text)).None? && BraceSpan(StripFences(text)).Some?
             && decode(BraceSpan(StripFences(text)).value).Some?)
            ==> r == Ok(decode(BraceSpan(StripFences(text)).value).value)
    ensures r.Err? <==> (decode(StripFences(text)).None?
                         && (BraceSpan(StripFences(text)).None? || decode(BraceSpan(StripFences(text)).value).None?))
    ensures r.Err? ==> r.error == ParseFailure(source, StripFences(text))
  {
    var t := StripFences(text);
    match decode(t)
    case Some(v) => Ok(v)
    case None =>
      match BraceSpan(t)
      case Some(span) =>
        (match decode(span)
         case Some(v) => Ok(v)
         case None => Err(ParseFailure(source, t)))
      case None => Err(ParseFailure(source, t))
  }

  /** A fenced JSON body that decodes once stripped is what `generate_json` returns. */
  lemma ParseFencedReply(body: string, decode: string -> Option<Json>, source: string)
    requires body != [] && body[0] != '`'
    requires decode(Strip(body)).Some?
    ensures ParseReply("```json" + body + "```", decode, source) == Ok(decode(Strip(body)).value)
  {
    FencedJsonReply(body);
  }
}

module LocalClient {
  import opened Wrappers
  import opened JsonValues
  import opened JsonReply

  datatype Message = Message(role: string, content: string)

  /** The body of a POST to `api/chat`. */
  datatype ChatRequest = ChatRequest(
    model: string, messages: seq<Message>, stream: bool, temperature: real, numPredict: Option<int>)

  /**
   * The request `generate` (and, with `stream` set, `generate_stream`)
   * sends: a system message only for a non-empty system prompt, the user
   * message last, `num_predict` only for a non-zero token limit.
   */
  function ChatRequestFor(model: string, prompt: string, system: Option<string>, temperature: real,
                          maxTokens: Option<int>, stream: bool): (q: ChatRequest)
    ensures q.model == model && q.stream == stream && q.temperature == temperature
    ensures |q.messages| >= 1 && q.messages[|q.messages| - 1] == Message("user", prompt)
    ensures |q.messages| == 2 <==> system.Some? && system.value != []
    ensures |q.messages| <= 2
    ensures |q.messages| == 2 ==> q.messages[0] == Message("system", system.value)
    ensures q.numPredict.Some? <==> maxTokens.Some? && maxTokens.value != 0
    ensures q.numPredict.Some? ==> q.numPredict.value == maxTokens.value
  {
    var sys := if system.Some? && system.value != [] then [Message("system", system.value)] else [];
    ChatRequest(model, sys + [Message("user", prompt)], stream, temperature,
                if maxTokens.Some? && maxTokens.value != 0 then maxTokens else None)
  }

  /** `response.get("message", {}).get("content", "")` on the decoded HTTP answer. */
  function ReplyContent(response: Json): (r: Result<Json>)
    ensures response.JObj? && "message" !in response.fields ==> r == Ok(JStr(""))
    ensures response.JObj? && "message" in response.fields && response.fields["message"].JObj? ==>
      r == Ok(Get(response.fields["message"].fields, "content", JStr("")))
    ensures r.Err? <==> !response.JObj? || ("message" in response.fields && !response.fields["message"].JObj?)
  {
    match response
    case JObj(d) =>
      (match Get(d, "message", JObj(map[]))
       case JObj(m) => Ok(Get(m, "content", JStr("")))
       case _ => Err("AttributeError: object has no attribute 'get'"))
    case _ => Err("AttributeError: object has no attribute 'get'")
  }

  /**
   * `generate_json`: the request carries the JSON instruction and no token
   * limit; `chat` is the HTTP round trip (or the exception it raised).
   */
  function GenerateJson(model: string, prompt: string, system: Option<string>, temperature: real,
                        chat: ChatRequest -> Result<Json>, decode: string -> Option<Json>): (r: Result<Json>)
    ensures var q := ChatRequestFor(model, JsonPrompt(prompt), system, temperature, None, false);
      && q.numPredict.None? && !q.stream
      && (chat(q).Err? ==> r == Err(chat(q).error))
      && (r.Ok? ==> chat(q).Ok? && ReplyContent(chat(q).value).Ok? && ReplyContent(chat(q).value).value.JStr?
                    && r == ParseReply(ReplyContent(chat(q).value).value.s, decode, "local model response"))
  {
    match chat(ChatRequestFor(model, JsonPrompt(prompt), system, temperature, None, false))
    case Err(e) => Err(e)
    case Ok(response) =>
      match ReplyContent(response)
      case Err(e) => Err(e)
      case Ok(JStr(text)) => ParseReply(text, decode, "local model response")
      case Ok(_) => Err("AttributeError: object has no attribute 'strip'")
  }

  /** A reply whose content is text is parsed as `ParseReply` says; the request never limits tokens. */
  lemma GenerateJsonText(model: string, prompt: string, system: Option<string>, temperature: real,
                         chat: ChatRequest -> Result<Json>, decode: string -> Option<Json>, text: string)
    requires chat(ChatRequestFor(model, JsonPrompt(prompt), system, temperature, None, false))
             == Ok(JObj(map["message" := JObj(map["content" := JStr(text)])]))
    ensures GenerateJson(model, prompt, system, temperature, chat, decode) == ParseReply(text, decode, "local model response")
    ensures ChatRequestFor(model, JsonPrompt(prompt), system, temperature, None, false).numPredict.None?
  {
    var m := map["content" := JStr(text)];
    assert Get(m, "content", JStr("")) == JStr(text);
  }

  // ---------------------------------------------------------------- generate_stream

  /**
   * What one streamed line does: nothing (skipped), one fragment
   * (`chunk["message"]["content"]`), or the exception Python's `in` and
   * indexing raise on a decoded value of the wrong kind.
   */
  function LineFragment(line: string, decode: string -> Option<Json>): Result<Option<Json>> {
    if line == [] then Ok(None)
    else match decode(line)
      case None => Ok(None)
      case Some(chunk) =>
        match PyIn("message", chunk)
        case Err(e) => Err(e)
        case Ok(false) => Ok(None)
        case Ok(true) =>
          if !chunk.JObj? then Err("TypeError: indices must be integers")
          else
            var m := chunk.fields["message"];
            match PyIn("content", m)
            case Err(e) => Err(e)
            case Ok(false) => Ok(None)
            case Ok(true) => if m.JObj? then Ok(Some(m.fields["content"])) else Err("TypeError: indices must be integers")
  }

  /** Python's `key in v`: a dict's keys, a list's items, a string's substrings; other values raise. */
  function PyIn(key: string, v: Json): (r: Result<bool>)
    ensures v.JObj? ==> r == Ok(key in v.fields)
    ensures r.Err? <==> v.JNull? || v.JBool? || v.JNum?
  {
    match v
    case JObj(d) => Ok(key in d)
    case JArr(items) => Ok(JStr(key) in items)
    case JStr(s) => Ok(Strings.Contains(s, key))
    case _ => Err("TypeError: argument is not iterable")
  }

  /** The fragments a stream yields before it ends or raises, and the exception if it raised. */
  datatype Streamed = Streamed(fragments: seq<Json>, error: Option<string>)

  function StreamSpec(lines: seq<string>, decode: string -> Option<Json>): (s: Streamed)
    ensures |s.fragments| <= |lines|
  {
    if lines == [] then Streamed([], None)
    else match LineFragment(lines[0], decode)
      case Err(e) => Streamed([], Some(e))
      case Ok(None) => StreamSpec(lines[1..], decode)
      case Ok(Some(x)) => var rest := StreamSpec(lines[1..], decode); Streamed([x] + rest.fragments, rest.error)
  }

  /** The fragments yielded so far in front of the rest of the stream. */
  function After(done: seq<Json>, rest: Streamed): Streamed {
    Streamed(done + rest.fragments, rest.error)
  }

  /** The line loop of `generate_stream`: skip, yield, or stop at the first exception. */
  method StreamLines(lines: seq<string>, decode: string -> Option<Json>) returns (s: Streamed)
    ensures s == StreamSpec(lines, decode)
  {
    var out: seq<Json> := [];
    var i := 0;
    assert lines[0..] == lines;
    assert After([], StreamSpec(lines, decode)) == StreamSpec(lines, decode) by {
      assert [] + StreamSpec(lines, decode).fragments == StreamSpec(lines, decode).fragments;
    }
    while i < |lines|
      invariant 0 <= i <= |lines|
      invariant StreamSpec(lines, decode) == After(out, StreamSpec(lines[i..], decode))
    {
      assert lines[i..][1..] == lines[i + 1..];
      var f := LineFragment(lines[i], decode);
      if f.Err? {
        return Streamed(out, Some(f.error));
      }
      if f.value.Some? {
        assert out + ([f.value.value] + StreamSpec(lines[i + 1..], decode).fragments)
            == (out + [f.value.value]) + StreamSpec(lines[i + 1..], decode).fragments;
        out := out + [f.value.value];
      }
      i := i + 1;
    }
    assert lines[i..] == [];
    assert out + [] == out;
    s := Streamed(out, None);
  }

  /** Empty lines and lines that do not decode yield nothing and do not stop the stream. */
  lemma SkippedLine(line: string, rest: seq<string>, decode: string -> Option<Json>)
    requires line == [] || decode(line).None?
    ensures StreamSpec([line] + rest, decode) == StreamSpec(rest, decode)
  {
    assert ([line] + rest)[1..] == rest;
  }

  /** A line decoding to a dict that carries `message.content` yields that content, in order. */
  lemma ContentLine(line: string, rest: seq<string>, decode: string -> Option<Json>, content: Json)
    requires line != [] && decode(line) == Some(JObj(map["message" := JObj(map["content" := content])]))
    ensures StreamSpec([line] + rest, decode).fragments == [content] + StreamSpec(rest, decode).fragments
    ensures StreamSpec([line] + rest, decode).error == StreamSpec(rest, decode).error
  {
    assert ([line] + rest)[1..] == rest;
  }

  /** A decoded dict without a `message` key is skipped. */
  lemma NoMessageLine(line: string, rest: seq<string>, decode: string -> Option<Json>)
    requires line != [] && decode(line).Some? && decode(line).value.JObj? && "message" !in decode(line).value.fields
    ensures StreamSpec([line] + rest, decode) == StreamSpec(rest, decode)
  {
    assert ([line] + rest)[1..] == rest;
  }

  /** A stream that raises yields only what came before the raising line. */
  lemma {:induction false} StreamStops(lines: seq<string>, decode: string -> Option<Json>, k: nat)
    requires k < |lines| && LineFragment(lines[k], decode).Err?
    ensures StreamSpec(lines, decode).error.Some?
    ensures |StreamSpec(lines, decode).fragments| <= k
  {
    if k > 0 {
      assert lines[1..][k - 1] == lines[k];
      StreamStops(lines[1..], decode, k - 1);
    }
  }
}

module AnthropicClient {
  import opened Wrappers
  import opened JsonValues
  import opened JsonReply

  const DefaultMaxTokens := 4096

  datatype Message = Message(role: string, content: string)

  /** The arguments of `client.messages.create`. */
  datatype MessagesRequest = MessagesRequest(
    model: string, maxTokens: int, temperature: real, system: string, messages: seq<Message>)

  /** `generate`: a zero or missing token limit becomes 4096, a missing system prompt "". */
  function MessagesRequestFor(model: string, prompt: string, system: Option<string>, temperature: real,
                              maxTokens: Option<int>): (q: MessagesRequest)
    ensures q.maxTokens == (if maxTokens.Some? && maxTokens.value != 0 then maxTokens.value else DefaultMaxTokens)
    ensures q.system == (if system.Some? then system.value else "")
    ensures q.messages == [Message("user", prompt)] && q.model == model && q.temperature == temperature
  {
    MessagesRequest(model, if maxTokens.Some? && maxTokens.value != 0 then maxTokens.value else DefaultMaxTokens,
                    temperature, if system.Some? && system.value != [] then system.value else "",
                    [Message("user", prompt)])
  }

  /** `generate_json`: `create` is the SDK call returning the first content block's text, or raising. */
  function GenerateJson(model: string, prompt: string, system: Option<string>, temperature: real,
                        create: MessagesRequest -> Result<string>, decode: string -> Option<Json>): (r: Result<Json>)
    ensures var q := MessagesRequestFor(model, JsonPrompt(prompt), system, temperature, Some(DefaultMaxTokens));
      && q.maxTokens == 4096
      && (create(q).Err? ==> r == Err(create(q).error))
      && (r.Ok? <==> create(q).Ok? && ParseReply(create(q).value, decode, "Anthropic response").Ok?)
  {
    match create(MessagesRequestFor(model, JsonPrompt(prompt), system, temperature, Some(DefaultMaxTokens)))
    case Err(e) => Err(e)
    case Ok(text) => ParseReply(text, decode, "Anthropic response")
  }

  /** The JSON request asks for 4096 tokens and carries the JSON instruction; its answer goes through `ParseReply`. */
  lemma GenerateJsonRequest(model: string, prompt: string, system: Option<string>, temperature: real,
                            create: MessagesRequest -> Result<string>, decode: string -> Option<Json>)
    ensures var q := MessagesRequestFor(model, JsonPrompt(prompt), system, temperature, Some(DefaultMaxTokens));
      && q.maxTokens == 4096
      && q.messages == [Message("user", prompt + JsonSuffix)]
      && (create(q).Err? ==> GenerateJson(model, prompt, system, temperature, create, decode) == Err(create(q).error))
      && (create(q).Ok? ==> GenerateJson(model, prompt, system, temperature, create, decode)
                              == ParseReply(create(q).value, decode, "Anthropic response"))
  {
  }
}
