/** Sonny: the adapter for Anthropic's Messages API with extended thinking
    (`consult_sonny`). */
module Sonny {
  import opened Json
  import opened Python
  import opened Http
  import Credentials

  const Model := "claude-3-7-sonnet-20250219"
  const MaxTokens := 32000
  const ThinkingBudget := 16000
  const Url := "https://api.anthropic.com/v1/messages"
  const TimeoutSeconds := 120

  const TransportPrefix := "Anthropic API request failed: "
  const ParsePrefix := "Failed to parse Anthropic response: "
  const NoTextReply := "No text reply found" + " in Anthropic API response."

  /** The POST to the Messages endpoint: the prompt is the one user message,
      with the fixed model, token limit and thinking budget. */
  function BuildRequest(prompt: string): (req: Request)
    ensures req.url == Url && req.timeoutSeconds == 120
    ensures Field(req.payload, "messages") ==
              Some(JArr([JObj([("role", JStr("user")), ("content", JStr(prompt))])]))
    ensures Field(req.payload, "model") == Some(JStr("claude-3-7-sonnet-20250219"))
  {
    var fields := [
      ("model", JStr(Model)),
      ("max_tokens", JNum(MaxTokens)),
      ("messages", JArr([JObj([("role", JStr("user")), ("content", JStr(prompt))])])),
      ("thinking", JObj([("type", JStr("enabled")), ("budget_tokens", JNum(ThinkingBudget))]))];
    assert fields[0].0 == "model" && fields[2].0 == "messages";
    Request(Url, TimeoutSeconds, JObj(fields))
  }

  // ---------------------------------------------------------------------------
  // Parsing the decoded response

  /** Body of the loop over the `content` blocks: the first `text` block
      ends the loop with its `text` (`""` when absent), whatever it holds;
      other blocks, thinking blocks among them, are skipped. */
  function TextBlockStep(block: Json): (r: Py<Option<Json>>)
    ensures r.Raise? ==> RaisedByInterpreter(r.exc)
  {
    var kind :- Get(block, "type", JNull);
    if kind != JStr("text") then Ok(None)
    else
      var text :- Get(block, "text", JStr(""));
      Ok(Some(text))
  }

  /** The current-format branch, taken when the response has `content`:
      the reply found by the loop, if it is non-empty. */
  function ContentReply(data: Json): (r: Py<Option<string>>)
    ensures r.Ok? && r.value.Some? ==> r.value.value != ""
    ensures r.Raise? ==> RaisedByInterpreter(r.exc)
  {
    var content :- Get(data, "content", JArr([]));
    var blocks :- Iter(content);
    var found :- ForEach(blocks, TextBlockStep);
    var reply := if found.Some? then found.value else JStr("");
    if !Truthy(reply) then Ok(None) else Returned(AsText(reply))
  }

  /** The parsing `try` body for a decoded document: the current format when
      `content` is present, the legacy `completion` only when it is absent,
      else the no-text failure. */
  function ParseData(data: Json): (r: Py<string>)
    ensures r.Ok? ==> r.value != ""
    ensures r.Raise? ==> r.exc == Exc(Exception, NoTextReply) || RaisedByInterpreter(r.exc)
  {
    var hasContent :- Contains(data, "content");
    var reply :- if hasContent then ContentReply(data) else Ok(None);
    if reply.Some? then Ok(reply.value)
    else
      var legacy :- if hasContent then Ok(false) else Contains(data, "completion");
      if !legacy then NotFound(data)
      else
        var completion :- Get(data, "completion", JStr(""));
        if Truthy(completion) then AsText(completion) else NotFound(data)
  }

  /** The end of the parsing `try` body: the error log evaluates
      `data.keys()` before the no-text exception is raised, so a decoded
      list or string fails there with an AttributeError instead. */
  function NotFound(data: Json): (r: Py<string>)
    ensures data.JObj? ==> r == Raise(Exc(Exception, NoTextReply))
    ensures !data.JObj? ==> r == Raise(NoAttribute(data, "keys"))
  {
    if data.JObj? then Raise(Exc(Exception, NoTextReply)) else Raise(NoAttribute(data, "keys"))
  }

  /** Decoding plus parsing under a handler that catches every exception and
      re-raises it with the parse prefix. */
  function ParseResponse(decoding: Decoding): (r: Py<string>)
    ensures decoding.DecodeError? ==> r == Raise(Exc(Exception, ParsePrefix + decoding.reason))
    ensures r.Ok? ==> r.value != ""
    ensures r.Raise? ==> r.exc.cls == Exception && StartsWith(r.exc.msg, ParsePrefix)
  {
    var attempt :=
      match decoding
      case DecodeError(reason) => Raise(Exc(ValueError, reason))
      case Decoded(data) => ParseData(data);
    match attempt
    case Ok(_) => attempt
    case Raise(e) => Raise(Exc(Exception, ParsePrefix + e.msg))
  }

  // ---------------------------------------------------------------------------
  // The adapter

  /** Everything `consult_sonny` can raise. */
  predicate Failure(e: Exc) {
    || e == Exc(EnvironmentError, "OPENAI_API_KEY is not set")
    || e == Exc(EnvironmentError, "ANTHROPIC_API_KEY is not set")
    || (e.cls == Exception && StartsWith(e.msg, TransportPrefix))
    || (e.cls == Exception && StartsWith(e.msg, ParsePrefix))
  }

  /** `consult_sonny`: the credential guard, then one POST, then parsing. */
  function Consult(env: Credentials.Env, post: Request -> Transport, decode: string -> Decoding,
                   prompt: string): (r: Py<string>)
    ensures Credentials.VerifyApiKeys(env).Raise? ==> r == Raise(Credentials.VerifyApiKeys(env).exc)
    ensures Credentials.VerifyApiKeys(env).Ok? && post(BuildRequest(prompt)).TransportFailed? ==>
              r == Raise(Exc(Exception, TransportPrefix + post(BuildRequest(prompt)).reason))
    ensures r.Ok? ==> r.value != ""
    ensures r.Raise? ==> Failure(r.exc)
  {
    var _ :- Credentials.VerifyApiKeys(env);
    match post(BuildRequest(prompt))
    case TransportFailed(reason) => Raise(Exc(Exception, TransportPrefix + reason))
    case Delivered(body) => ParseResponse(decode(body))
  }
}

/** What `consult_sonny` promises, stated over the model above. */
module SonnyProperties {
  import opened Json
  import opened Python
  import opened Http
  import opened Sonny
  import Credentials

  /** The `content` blocks of a response (none when `content` is not a list). */
  function Blocks(data: Json): seq<Json> {
    ListAt(data, "content")
  }

  predicate IsTextBlock(block: Json) {
    Field(block, "type") == Some(JStr("text"))
  }

  /** A current-format response the loop can walk without the interpreter
      raising: an object holding `content`, a list of objects. */
  predicate WellShaped(data: Json) {
    data.JObj? && HasKey(data.fields, "content") && ObjectListAt(data, "content")
  }

  /** The failure every not-found case ends in. */
  const NoTextFailure := Raise(Exc(Exception, ParsePrefix + NoTextReply))

  /** When the loop leaves with `reply`, parsing yields that reply if it is
      truthy and the no-text failure otherwise; `completion` is never read. */
  lemma LoopDecides(data: Json, reply: Json)
    requires WellShaped(data)
    requires ForEach(Blocks(data), TextBlockStep) == Ok(Some(reply))
    ensures Truthy(reply) && reply.JStr? ==> ParseResponse(Decoded(data)) == Ok(reply.s)
    ensures Truthy(reply) && !reply.JStr? ==> ParseResponse(Decoded(data)).Raise?
    ensures !Truthy(reply) ==> ParseResponse(Decoded(data)) == NoTextFailure
  {
    GetObjectList(data, "content");
  }

  /** Only the first `text` block is considered: its non-empty text is the
      answer; an empty one gives the no-text failure even when a later text
      block or a legacy `completion` holds text. */
  lemma FirstTextBlockDecides(data: Json, j: int)
    requires WellShaped(data)
    requires 0 <= j < |Blocks(data)| && IsTextBlock(Blocks(data)[j])
    requires forall k :: 0 <= k < j ==> !IsTextBlock(Blocks(data)[k])
    ensures var text := FieldOr(Blocks(data)[j], "text", JStr(""));
            text.JStr? && text.s != "" ==> ParseResponse(Decoded(data)) == Ok(text.s)
    ensures var text := FieldOr(Blocks(data)[j], "text", JStr(""));
            !Truthy(text) ==> ParseResponse(Decoded(data)) == NoTextFailure
  {
    var blocks := Blocks(data);
    forall k | 0 <= k < j
      ensures Continues(TextBlockStep(blocks[k]))
    {
    }
    ForEachStopsAtFirst(blocks, TextBlockStep, j);
    LoopDecides(data, FieldOr(blocks[j], "text", JStr("")));
  }

  /** A `content` list without any `text` block gives the no-text failure,
      whatever `completion` holds. */
  lemma NoTextBlockNoReply(data: Json)
    requires WellShaped(data)
    requires forall k :: 0 <= k < |Blocks(data)| ==> !IsTextBlock(Blocks(data)[k])
    ensures ParseResponse(Decoded(data)) == NoTextFailure
  {
    var blocks := Blocks(data);
    forall k | 0 <= k < |blocks|
      ensures Continues(TextBlockStep(blocks[k]))
    {
    }
    GetObjectList(data, "content");
  }

  /** Without `content`, a non-empty legacy `completion` string is the
      answer; an absent or empty one gives the no-text failure. */
  lemma LegacyCompletion(data: Json)
    requires data.JObj? && !HasKey(data.fields, "content")
    ensures var completion := FieldOr(data, "completion", JStr(""));
            completion.JStr? && completion.s != "" ==> ParseResponse(Decoded(data)) == Ok(completion.s)
    ensures !Truthy(FieldOr(data, "completion", JStr(""))) ==> ParseResponse(Decoded(data)) == NoTextFailure
  {
  }

  /** For any decoded object holding `content`, adding a legacy
      `completion` changes nothing: it is consulted only when `content` is
      absent. */
  lemma CompletionIgnoredWithContent(fields: seq<(string, Json)>, v: Json)
    requires HasKey(fields, "content") && !HasKey(fields, "completion")
    ensures ParseResponse(Decoded(JObj(fields + [("completion", v)]))) == ParseResponse(Decoded(JObj(fields)))
  {
    DataIgnoresCompletion(fields, v);
  }

  lemma DataIgnoresCompletion(fields: seq<(string, Json)>, v: Json)
    requires HasKey(fields, "content") && !HasKey(fields, "completion")
    ensures ParseData(JObj(fields + [("completion", v)])) == ParseData(JObj(fields))
  {
    ContentReplyIgnoresCompletion(fields, v);
  }

  lemma ContentReplyIgnoresCompletion(fields: seq<(string, Json)>, v: Json)
    ensures HasKey(fields + [("completion", v)], "content") == HasKey(fields, "content")
    ensures ContentReply(JObj(fields + [("completion", v)])) == ContentReply(JObj(fields))
  {
    LookupPastOtherKey(fields, "completion", v, "content");
    assert Get(JObj(fields + [("completion", v)]), "content", JArr([])) == Get(JObj(fields), "content", JArr([]));
  }

  /** A decoded value that is not even a container (null, a boolean, a
      number) fails inside the handler, so it too carries the parse prefix. */
  lemma ScalarResponseCarriesPrefix(data: Json)
    requires data.JNull? || data.JBool? || data.JNum?
    ensures ParseResponse(Decoded(data)).Raise?
    ensures StartsWith(ParseResponse(Decoded(data)).exc.msg, ParsePrefix + "argument of type '")
  {
  }

  /** A decoded list or string is not a dict: the first `.get` or, when
      neither key occurs in it, the `.keys()` of the error log raises an
      AttributeError, which the handler reports with the parse prefix. */
  lemma SequenceResponseHasNoAttribute(data: Json)
    requires data.JArr? || data.JStr?
    ensures var named := Contains(data, "content") == Ok(true) || Contains(data, "completion") == Ok(true);
            ParseResponse(Decoded(data)) ==
              Raise(Exc(Exception, ParsePrefix + NoAttribute(data, if named then "get" else "keys").msg))
  {
  }

  // ---------------------------------------------------------------------------
  // Order of the guard, the transport and the parser

  /** Without both keys the outcome does not depend on the network or the
      decoder: the guard raises before either is used. */
  lemma GuardPrecedesNetwork(env: Credentials.Env, prompt: string,
                             post1: Request -> Transport, decode1: string -> Decoding,
                             post2: Request -> Transport, decode2: string -> Decoding)
    requires Credentials.Missing(env, "OPENAI_API_KEY") || Credentials.Missing(env, "ANTHROPIC_API_KEY")
    ensures Consult(env, post1, decode1, prompt) == Consult(env, post2, decode2, prompt)
    ensures Consult(env, post1, decode1, prompt).Raise?
  {
  }

  /** A transport failure is reported without decoding anything. */
  lemma TransportFailurePrecedesDecoding(env: Credentials.Env, prompt: string, post: Request -> Transport,
                                         decode1: string -> Decoding, decode2: string -> Decoding)
    requires post(BuildRequest(prompt)).TransportFailed?
    ensures Consult(env, post, decode1, prompt) == Consult(env, post, decode2, prompt)
  {
  }

  /** A failure message starts with the transport prefix exactly when the
      keys were present and the request itself failed. */
  lemma TransportPrefixIsExclusive(env: Credentials.Env, post: Request -> Transport,
                                   decode: string -> Decoding, prompt: string)
    ensures var r := Consult(env, post, decode, prompt);
            (r.Raise? && StartsWith(r.exc.msg, TransportPrefix)) <==>
            (Credentials.VerifyApiKeys(env).Ok? && post(BuildRequest(prompt)).TransportFailed?)
  {
    assert TransportPrefix[0] == 'A' && ParsePrefix[0] == 'F';
    assert |TransportPrefix| == 30 && |"ANTHROPIC_API_KEY is not set"| == 28;
    assert "OPENAI_API_KEY is not set"[0] == 'O';
  }
}
