/** Darren: the adapter for OpenAI's Responses API (`consult_darren`). */
module Darren {
  import opened Json
  import opened Python
  import opened Http
  import Credentials

  const Model := "o3-mini"
  const Url := "https://api.openai.com/v1/responses"
  const Instructions :=
    "You are an expert coding and debugging consultant. " +
    "You think deeply and carefully about questions. " +
    "You look at problems from all angles. " +
    "Provide a comprehensive analysis."
  const TimeoutSeconds := 60

  const TransportPrefix := "OpenAI API request failed: "
  const FormatPrefix := "Unexpected OpenAI API response format: "
  const NotParsed := "Could not parse response from OpenAI API"

  /** The POST to the Responses endpoint: the prompt travels unchanged as
      `input`, with the fixed model, instructions and high reasoning effort. */
  function BuildRequest(prompt: string): (req: Request)
    ensures req.url == Url && req.timeoutSeconds == 60
    ensures Field(req.payload, "input") == Some(JStr(prompt))
    ensures Field(req.payload, "model") == Some(JStr("o3-mini"))
  {
    var fields := [
      ("model", JStr(Model)),
      ("input", JStr(prompt)),
      ("instructions", JStr(Instructions)),
      ("reasoning", JObj([("effort", JStr("high"))]))];
    assert fields[0].0 == "model" && fields[1].0 == "input";
    Request(Url, TimeoutSeconds, JObj(fields))
  }

  // ---------------------------------------------------------------------------
  // Parsing the decoded response

  /** Body of the inner loop over a message's `content` blocks: an
      `output_text` block ends the scan with its `text` (`""` when absent). */
  function ContentBlockStep(block: Json): (r: Py<Option<string>>)
    ensures r.Raise? ==> RaisedByInterpreter(r.exc)
  {
    var kind :- Get(block, "type", JNull);
    if kind != JStr("output_text") then Ok(None)
    else
      var text :- Get(block, "text", JStr(""));
      Returned(AsText(text))
  }

  /** Body of the outer loop over the `output` items: only an assistant
      message is searched for an `output_text` block. */
  function OutputItemStep(item: Json): (r: Py<Option<string>>)
    ensures r.Raise? ==> RaisedByInterpreter(r.exc)
  {
    var kind :- Get(item, "type", JNull);
    if kind != JStr("message") then Ok(None)
    else
      var role :- Get(item, "role", JNull);
      if role != JStr("assistant") then Ok(None)
      else
        var content :- Get(item, "content", JArr([]));
        var blocks :- Iter(content);
        ForEach(blocks, ContentBlockStep)
  }

  /** The loop over `data.get("output", [])`: the first
      assistant message's first `output_text` block ends it with its text. */
  function ScanOutput(data: Json): (r: Py<Option<string>>)
    ensures r.Raise? ==> RaisedByInterpreter(r.exc)
  {
    var output :- Get(data, "output", JArr([]));
    var items :- Iter(output);
    ForEach(items, OutputItemStep)
  }

  /** The `if "output_text" in data:` fallback once the loop found nothing: the
      top-level `output_text`, else the could-not-parse failure. It runs only
      after the loop's `get` succeeded on a dict, so the error log's
      `data.keys()` before the failure cannot raise. */
  function ConvenienceText(data: Json): (r: Py<string>)
    ensures r.Raise? ==> r.exc == Exc(Exception, NotParsed) || RaisedByInterpreter(r.exc)
  {
    var present :- Contains(data, "output_text");
    if !present then Raise(Exc(Exception, NotParsed))
    else
      var text :- Subscript(data, "output_text");
      AsText(text)
  }

  /** The parsing `try` body for a decoded document: the scan's answer, else
      the fallback. */
  function ParseData(data: Json): (r: Py<string>)
    ensures r.Raise? ==> r.exc == Exc(Exception, NotParsed) || RaisedByInterpreter(r.exc)
  {
    var found :- ScanOutput(data);
    if found.Some? then Ok(found.value) else ConvenienceText(data)
  }

  /** The classes the parsing handler catches and rewraps. */
  predicate Rewrapped(c: ExcClass) {
    c == KeyError || c == IndexError || c == ValueError
  }

  /** What parsing can raise: the could-not-parse failure, a rewrapped
      decoding or lookup error, or an interpreter error the handler lets
      through unchanged. */
  predicate ParseFailure(e: Exc) {
    || e == Exc(Exception, NotParsed)
    || (e.cls == Exception && StartsWith(e.msg, FormatPrefix))
    || (RaisedByInterpreter(e) && !Rewrapped(e.cls))
  }

  /** Decoding plus parsing, with the handler that turns KeyError, IndexError
      and ValueError (a decoding error among them) into the response-format
      failure. */
  function ParseResponse(decoding: Decoding): (r: Py<string>)
    ensures decoding.DecodeError? ==> r == Raise(Exc(Exception, FormatPrefix + decoding.reason))
    ensures decoding.Decoded? && ParseData(decoding.data).Ok? ==> r == ParseData(decoding.data)
    ensures r.Raise? ==> ParseFailure(r.exc)
  {
    var attempt :=
      match decoding
      case DecodeError(reason) => Raise(Exc(ValueError, reason))
      case Decoded(data) => ParseData(data);
    if attempt.Raise? && Rewrapped(attempt.exc.cls) then
      Raise(Exc(Exception, FormatPrefix + attempt.exc.msg))
    else
      attempt
  }

  // ---------------------------------------------------------------------------
  // The adapter

  /** Everything `consult_darren` can raise. */
  predicate Failure(e: Exc) {
    || e == Exc(EnvironmentError, "OPENAI_API_KEY is not set")
    || e == Exc(EnvironmentError, "ANTHROPIC_API_KEY is not set")
    || (e.cls == Exception && StartsWith(e.msg, TransportPrefix))
    || ParseFailure(e)
  }

  /** `consult_darren`: the credential guard, then one POST, then parsing.
      A guard failure is raised before the POST; a transport failure is
      raised before anything is decoded. */
  function Consult(env: Credentials.Env, post: Request -> Transport, decode: string -> Decoding,
                   prompt: string): (r: Py<string>)
    ensures Credentials.VerifyApiKeys(env).Raise? ==> r == Raise(Credentials.VerifyApiKeys(env).exc)
    ensures Credentials.VerifyApiKeys(env).Ok? && post(BuildRequest(prompt)).TransportFailed? ==>
              r == Raise(Exc(Exception, TransportPrefix + post(BuildRequest(prompt)).reason))
    ensures r.Raise? ==> Failure(r.exc)
  {
    var _ :- Credentials.VerifyApiKeys(env);
    match post(BuildRequest(prompt))
    case TransportFailed(reason) => Raise(Exc(Exception, TransportPrefix + reason))
    case Delivered(body) => ParseResponse(decode(body))
  }
}

/** What `consult_darren` promises, stated over the model above. */
module DarrenProperties {
  import opened Json
  import opened Python
  import opened Http
  import opened Darren
  import Credentials

  // ---------------------------------------------------------------------------
  // The documented response shape

  /** The `output` items of a response (none when `output` is not a list). */
  function Items(data: Json): seq<Json> {
    ListAt(data, "output")
  }

  /** The `content` blocks of an output item (none when `content` is not a list). */
  function Blocks(item: Json): seq<Json> {
    ListAt(item, "content")
  }

  predicate IsAssistantMessage(item: Json) {
    Field(item, "type") == Some(JStr("message")) && Field(item, "role") == Some(JStr("assistant"))
  }

  predicate IsOutputTextBlock(block: Json) {
    Field(block, "type") == Some(JStr("output_text"))
  }

  /** An assistant message with at least one `output_text` block. */
  predicate CarriesOutputText(item: Json) {
    IsAssistantMessage(item) &&
    exists j :: 0 <= j < |Blocks(item)| && IsOutputTextBlock(Blocks(item)[j])
  }

  /** An item the scan can inspect without the interpreter raising: an
      object, and when it is an assistant message its `content` is absent or
      a list of objects. */
  predicate WellShapedItem(item: Json) {
    item.JObj? && (IsAssistantMessage(item) ==> ObjectListAt(item, "content"))
  }

  /** A response of the documented shape: an object whose `output` is absent
      or a list of well-shaped items. */
  predicate WellShaped(data: Json) {
    && data.JObj?
    && ObjectListAt(data, "output")
    && forall i :: 0 <= i < |Items(data)| ==> WellShapedItem(Items(data)[i])
  }

  lemma ItemWithoutOutputTextMovesOn(item: Json)
    requires WellShapedItem(item) && !CarriesOutputText(item)
    ensures Continues(OutputItemStep(item))
  {
    if IsAssistantMessage(item) {
      GetObjectList(item, "content");
      var blocks := Blocks(item);
      forall k | 0 <= k < |blocks|
        ensures Continues(ContentBlockStep(blocks[k]))
      {
        assert !IsOutputTextBlock(blocks[k]);
      }
    }
  }

  lemma ItemReturnsBlockText(item: Json, j: int)
    requires WellShapedItem(item) && IsAssistantMessage(item)
    requires 0 <= j < |Blocks(item)| && IsOutputTextBlock(Blocks(item)[j])
    requires forall k :: 0 <= k < j ==> !IsOutputTextBlock(Blocks(item)[k])
    ensures OutputItemStep(item) == Returned(AsText(FieldOr(Blocks(item)[j], "text", JStr(""))))
  {
    GetObjectList(item, "content");
    var blocks := Blocks(item);
    forall k | 0 <= k < j
      ensures Continues(ContentBlockStep(blocks[k]))
    {
    }
    ForEachStopsAtFirst(blocks, ContentBlockStep, j);
  }

  // ---------------------------------------------------------------------------
  // Primary shape, fallback, failure

  /** Block `j` of item `i` is the first `output_text` block of the first
      assistant message that has one. */
  predicate FirstOutputTextAt(items: seq<Json>, i: int, j: int) {
    && 0 <= i < |items| && IsAssistantMessage(items[i])
    && (forall k :: 0 <= k < i ==> !CarriesOutputText(items[k]))
    && 0 <= j < |Blocks(items[i])| && IsOutputTextBlock(Blocks(items[i])[j])
    && (forall k :: 0 <= k < j ==> !IsOutputTextBlock(Blocks(items[i])[k]))
  }

  /** The answer is the `text` of the first `output_text` block of the first
      assistant message that has one, returned unchanged; `""` when that
      block has no `text`. Items that are not assistant messages are skipped,
      and the top-level `output_text` is not consulted. */
  lemma ReturnsFirstOutputText(data: Json, i: int, j: int)
    requires WellShaped(data) && FirstOutputTextAt(Items(data), i, j)
    ensures ParseResponse(Decoded(data)) == AsText(FieldOr(Blocks(Items(data)[i])[j], "text", JStr("")))
    ensures Field(Blocks(Items(data)[i])[j], "text") == None ==> ParseResponse(Decoded(data)) == Ok("")
  {
    ParsesToBlockText(data, i, j);
    PassesThroughHandler(data);
  }

  /** The parsing `try` body yields the text of block `j` of item `i`. */
  lemma ParsesToBlockText(data: Json, i: int, j: int)
    requires WellShaped(data) && FirstOutputTextAt(Items(data), i, j)
    ensures ParseData(data) == AsText(FieldOr(Blocks(Items(data)[i])[j], "text", JStr("")))
  {
    ScanStopsAtBlock(Items(data), i, j);
    GetObjectList(data, "output");
  }

  /** The loop over the items leaves with the text of block `j` of item `i`. */
  lemma ScanStopsAtBlock(items: seq<Json>, i: int, j: int)
    requires (forall k :: 0 <= k < |items| ==> WellShapedItem(items[k])) && FirstOutputTextAt(items, i, j)
    ensures ForEach(items, OutputItemStep) == Returned(AsText(FieldOr(Blocks(items[i])[j], "text", JStr(""))))
  {
    forall k | 0 <= k < i
      ensures Continues(OutputItemStep(items[k]))
    {
      ItemWithoutOutputTextMovesOn(items[k]);
    }
    ItemReturnsBlockText(items[i], j);
    ForEachStopsAtFirst(items, OutputItemStep, i);
  }

  /** An answer, or a failure the handler does not catch, leaves the parsing
      `try` unchanged. */
  lemma PassesThroughHandler(data: Json)
    requires ParseData(data).Ok? || !Rewrapped(ParseData(data).exc.cls)
    ensures ParseResponse(Decoded(data)) == ParseData(data)
  {
  }

  /** With no `output_text` block in any assistant message, the top-level
      `output_text` is the answer; without it, parsing fails with exactly the
      could-not-parse message. */
  lemma FallsBackToOutputText(data: Json)
    requires WellShaped(data)
    requires forall i :: 0 <= i < |Items(data)| ==> !CarriesOutputText(Items(data)[i])
    ensures HasKey(data.fields, "output_text") ==>
              ParseResponse(Decoded(data)) == AsText(Field(data, "output_text").value)
    ensures !HasKey(data.fields, "output_text") ==>
              ParseResponse(Decoded(data)) == Raise(Exc(Exception, "Could not parse response from OpenAI API"))
  {
    var items := Items(data);
    GetObjectList(data, "output");
    forall k | 0 <= k < |items|
      ensures Continues(OutputItemStep(items[k]))
    {
      ItemWithoutOutputTextMovesOn(items[k]);
    }
  }

  /** For any decoded object, adding a top-level `output_text` changes the
      outcome only where parsing would otherwise fail with the
      could-not-parse message, and then its value is the answer. */
  lemma OutputTextIsLastResort(fields: seq<(string, Json)>, v: Json)
    requires !HasKey(fields, "output_text")
    ensures ParseResponse(Decoded(JObj(fields + [("output_text", v)]))) ==
              if ParseResponse(Decoded(JObj(fields))) == Raise(Exc(Exception, NotParsed))
              then AsText(v)
              else ParseResponse(Decoded(JObj(fields)))
  {
    var extended := fields + [("output_text", v)];
    DataLastResort(fields, v);
    if ParseData(JObj(fields)) == Raise(Exc(Exception, NotParsed)) {
      PassesThroughHandler(JObj(fields));
      PassesThroughHandler(JObj(extended));
    } else {
      NotParsedOnlyFromData(JObj(fields));
    }
  }

  /** The same at the level of the parsing `try` body. */
  lemma DataLastResort(fields: seq<(string, Json)>, v: Json)
    requires !HasKey(fields, "output_text")
    ensures ParseData(JObj(fields + [("output_text", v)])) ==
              if ParseData(JObj(fields)) == Raise(Exc(Exception, NotParsed))
              then AsText(v)
              else ParseData(JObj(fields))
  {
    ScanIgnoresAppendedMember(fields, "output_text", v);
    ConvenienceTextAppended(fields, v);
  }

  /** The handler never turns another failure into the could-not-parse one. */
  lemma NotParsedOnlyFromData(data: Json)
    requires ParseData(data) != Raise(Exc(Exception, NotParsed))
    ensures ParseResponse(Decoded(data)) != Raise(Exc(Exception, NotParsed))
  {
    assert FormatPrefix[0] == 'U' && NotParsed[0] == 'C';
    var attempt := ParseData(data);
    if attempt.Raise? && Rewrapped(attempt.exc.cls) {
      assert (FormatPrefix + attempt.exc.msg)[0] == 'U';
    }
  }

  lemma ScanIgnoresAppendedMember(fields: seq<(string, Json)>, key: string, v: Json)
    requires key != "output"
    ensures ScanOutput(JObj(fields + [(key, v)])) == ScanOutput(JObj(fields))
  {
    LookupPastOtherKey(fields, key, v, "output");
    assert Get(JObj(fields + [(key, v)]), "output", JArr([])) == Get(JObj(fields), "output", JArr([]));
  }

  lemma ConvenienceTextAppended(fields: seq<(string, Json)>, v: Json)
    requires !HasKey(fields, "output_text")
    ensures ConvenienceText(JObj(fields)) == Raise(Exc(Exception, NotParsed))
    ensures ConvenienceText(JObj(fields + [("output_text", v)])) == AsText(v)
  {
    var extended := fields + [("output_text", v)];
    assert extended[|fields|].0 == "output_text";
    assert Lookup(extended, "output_text") == Some(v);
  }

  /** A decoded value that is not an object makes the first `.get` raise
      AttributeError, which the parsing handler does not catch: it leaves the
      adapter without the response-format prefix. */
  lemma NonObjectEscapesHandler(data: Json)
    requires !data.JObj?
    ensures ParseResponse(Decoded(data)).Raise?
    ensures ParseResponse(Decoded(data)).exc.cls == AttributeError
  {
  }

  // ---------------------------------------------------------------------------
  // Order of the guard, the transport and the parser

  /** Without both keys the outcome does not depend on the network or the
      decoder: the guard raises before either is used. */
  lemma GuardPrecedesNetwork(env: Credentials.Env, prompt: string,
                             post1: Request -> Transport, decode1: string -> Decoding,
                             post2: Request -> Transport, decode2: string -> Decoding)
    requires Credentials.Missing(env, "OPENAI_API_KEY") || Credentials.Missing(env, "ANTHROPIC_API_KEY")
    ensures Consult(env, post1, decode1, prompt) == Consult(env, post2, decode2, prompt)
    ensures Consult(env, post1, decode1, prompt).Raise?
  {
  }

  /** A transport failure is reported without decoding anything. */
  lemma TransportFailurePrecedesDecoding(env: Credentials.Env, prompt: string, post: Request -> Transport,
                                         decode1: string -> Decoding, decode2: string -> Decoding)
    requires post(BuildRequest(prompt)).TransportFailed?
    ensures Consult(env, post, decode1, prompt) == Consult(env, post, decode2, prompt)
  {
  }

  /** No parsing failure starts with the transport prefix. */
  lemma ParseFailureLacksTransportPrefix(e: Exc)
    requires ParseFailure(e)
    ensures !StartsWith(e.msg, TransportPrefix)
  {
    assert TransportPrefix[0] == 'O';
    assert FormatPrefix[0] == 'U';
    assert NotParsed[0] == 'C';
  }

  /** A failure message starts with the transport prefix exactly when the
      keys were present and the request itself failed. */
  lemma TransportPrefixIsExclusive(env: Credentials.Env, post: Request -> Transport,
                                   decode: string -> Decoding, prompt: string)
    ensures var r := Consult(env, post, decode, prompt);
            (r.Raise? && StartsWith(r.exc.msg, TransportPrefix)) <==>
            (Credentials.VerifyApiKeys(env).Ok? && post(BuildRequest(prompt)).TransportFailed?)
  {
    var r := Consult(env, post, decode, prompt);
    assert |TransportPrefix| == 27 && TransportPrefix[0] == 'O';
    assert |"OPENAI_API_KEY is not set"| == 25 && "ANTHROPIC_API_KEY is not set"[0] == 'A';
    if Credentials.VerifyApiKeys(env).Ok? {
      var t := post(BuildRequest(prompt));
      if t.Delivered? && r.Raise? {
        ParseFailureLacksTransportPrefix(r.exc);
      }
    }
  }
}
