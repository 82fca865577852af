/** The two consultation tools, `consult_with_darren` and
    `consult_with_sonny`: each assembles the prompt, calls its adapter and
    turns every exception into a reply string, so neither ever raises. */
module Facade {
  import opened Json
  import opened Python
  import opened Http
  import Credentials
  import Darren
  import DarrenProperties
  import Sonny

  const SourceHeading := "Source Code:\n"
  const Closing := "Please provide a thorough analysis" + " and any recommendations."

  const DarrenErrorPrefix := "Error consulting with Darren: "
  const SonnyErrorPrefix := "Error consulting with Sonny: "

  // ---------------------------------------------------------------------------
  // Prompt assembly

  /** `if source_code:` -- an absent source and an empty one both count as none. */
  predicate HasSource(source: Option<string>) {
    source.Some? && source.value != ""
  }

  function SourceSection(source: Option<string>): string {
    if HasSource(source) then SourceHeading + source.value + "\n\n" else ""
  }

  /** The prompt both tools send: the context, a blank line, the labelled
      source when there is one, and the closing request. */
  function Prompt(context: string, source: Option<string>): (p: string)
    ensures StartsWith(p, context + "\n\n")
    ensures EndsWith(p, Closing)
    ensures HasSource(source) ==> |p| == |context| + |source.value| + 2 + |SourceHeading| + 2 + |Closing|
    ensures !HasSource(source) ==> p == context + "\n\n" + Closing
  {
    context + "\n\n" + SourceSection(source) + Closing
  }

  /** Reads the source back out of a prompt assembled for a context of the
      given length: `None` unless the text between the blank line after the
      context and the closing request is a labelled source section, the
      label followed by the source and a blank line. */
  function EmbeddedSource(p: string, contextLength: nat): Option<string> {
    if |p| < contextLength + 2 + |Closing| then None
    else
      var middle := p[contextLength + 2 .. |p| - |Closing|];
      if |middle| < |SourceHeading| + 2 then None
      else if StartsWith(middle, SourceHeading) && EndsWith(middle, "\n\n") then
        Some(middle[|SourceHeading| .. |middle| - 2])
      else None
  }

  /** The prompt keeps the context and the source intact: both can be read
      back, and the source is present exactly when it was non-empty. */
  lemma PromptRoundTrip(context: string, source: Option<string>)
    ensures Prompt(context, source)[..|context|] == context
    ensures EmbeddedSource(Prompt(context, source), |context|) == if HasSource(source) then source else None
  {
    var p := Prompt(context, source);
    var section := SourceSection(source);
    assert p == context + "\n\n" + section + Closing;
    assert p[|context| + 2 .. |p| - |Closing|] == section;
    if HasSource(source) {
      var s := source.value;
      assert section[..|SourceHeading|] == SourceHeading;
      assert section[|section| - 2..] == "\n\n";
      assert section[|SourceHeading| .. |section| - 2] == s;
    }
  }

  // ---------------------------------------------------------------------------
  // The tools

  /** `consult_with_darren`: the adapter's answer unchanged, or the failure
      text behind the tool's error prefix. */
  function ConsultWithDarren(env: Credentials.Env, post: Request -> Transport, decode: string -> Decoding,
                             context: string, source: Option<string>): (reply: string)
    ensures var r := Darren.Consult(env, post, decode, Prompt(context, source));
            r.Ok? ==> reply == r.value
    ensures var r := Darren.Consult(env, post, decode, Prompt(context, source));
            r.Raise? ==> reply == DarrenErrorPrefix + r.exc.msg && DarrenFailureText(r.exc.msg)
  {
    match Darren.Consult(env, post, decode, Prompt(context, source))
    case Ok(answer) => answer
    case Raise(e) => DarrenErrorPrefix + e.msg
  }

  /** `consult_with_sonny`: the adapter's answer unchanged, or the failure
      text behind the tool's error prefix. */
  function ConsultWithSonny(env: Credentials.Env, post: Request -> Transport, decode: string -> Decoding,
                            context: string, source: Option<string>): (reply: string)
    ensures var r := Sonny.Consult(env, post, decode, Prompt(context, source));
            r.Ok? ==> reply == r.value && reply != ""
    ensures var r := Sonny.Consult(env, post, decode, Prompt(context, source));
            r.Raise? ==> reply == SonnyErrorPrefix + r.exc.msg && SonnyFailureText(r.exc.msg)
  {
    match Sonny.Consult(env, post, decode, Prompt(context, source))
    case Ok(answer) => answer
    case Raise(e) => SonnyErrorPrefix + e.msg
  }

  /** The texts Darren's tool can report after its prefix: a missing key, a
      request failure, a response-format failure, the could-not-parse
      failure, or an interpreter error that escaped the parsing handler. */
  predicate DarrenFailureText(m: string) {
    || m == "OPENAI_API_KEY is not set"
    || m == "ANTHROPIC_API_KEY is not set"
    || StartsWith(m, "OpenAI API request failed: ")
    || StartsWith(m, "Unexpected OpenAI API response format: ")
    || m == "Could not parse response from OpenAI API"
    || (|m| > 0 && (m[0] == '\'' || 'a' <= m[0] <= 'z'))
  }

  /** The texts Sonny's tool can report after its prefix: a missing key, a
      request failure, or a parsing failure. */
  predicate SonnyFailureText(m: string) {
    || m == "OPENAI_API_KEY is not set"
    || m == "ANTHROPIC_API_KEY is not set"
    || StartsWith(m, "Anthropic API request failed: ")
    || StartsWith(m, "Failed to parse Anthropic response: ")
  }

  // ---------------------------------------------------------------------------
  // Properties across the tools

  /** Both tools send the same prompt: as Darren's `input` and as Sonny's
      single user message. */
  lemma ToolsSendSamePrompt(context: string, source: Option<string>)
    ensures var p := Prompt(context, source);
            && Field(Darren.BuildRequest(p).payload, "input") == Some(JStr(p))
            && Field(Sonny.BuildRequest(p).payload, "messages") ==
                 Some(JArr([JObj([("role", JStr("user")), ("content", JStr(p))])]))
  {
  }

  /** A missing key is reported by both tools, the OpenAI key first, and the
      reply is the same whatever the network or the decoder would do. */
  lemma MissingKeyReported(env: Credentials.Env, context: string, source: Option<string>,
                           post1: Request -> Transport, decode1: string -> Decoding,
                           post2: Request -> Transport, decode2: string -> Decoding)
    requires Credentials.Missing(env, "OPENAI_API_KEY") || Credentials.Missing(env, "ANTHROPIC_API_KEY")
    ensures ConsultWithDarren(env, post1, decode1, context, source) ==
            ConsultWithDarren(env, post2, decode2, context, source)
    ensures ConsultWithSonny(env, post1, decode1, context, source) ==
            ConsultWithSonny(env, post2, decode2, context, source)
    ensures Credentials.Missing(env, "OPENAI_API_KEY") ==>
              && ConsultWithDarren(env, post1, decode1, context, source) ==
                   DarrenErrorPrefix + "OPENAI_API_KEY is not set"
              && ConsultWithSonny(env, post1, decode1, context, source) ==
                   SonnyErrorPrefix + "OPENAI_API_KEY is not set"
    ensures !Credentials.Missing(env, "OPENAI_API_KEY") ==>
              && ConsultWithDarren(env, post1, decode1, context, source) ==
                   DarrenErrorPrefix + "ANTHROPIC_API_KEY is not set"
              && ConsultWithSonny(env, post1, decode1, context, source) ==
                   SonnyErrorPrefix + "ANTHROPIC_API_KEY is not set"
  {
    var p := Prompt(context, source);
    var guard := Credentials.VerifyApiKeys(env);
    assert Darren.Consult(env, post1, decode1, p) == Raise(guard.exc);
    assert Darren.Consult(env, post2, decode2, p) == Raise(guard.exc);
    assert Sonny.Consult(env, post1, decode1, p) == Raise(guard.exc);
    assert Sonny.Consult(env, post2, decode2, p) == Raise(guard.exc);
  }

  /** With both keys present, a failed request is reported as such by both
      tools, without decoding anything. */
  lemma RequestFailureReported(env: Credentials.Env, context: string, source: Option<string>,
                               post: Request -> Transport, decode: string -> Decoding)
    requires !Credentials.Missing(env, "OPENAI_API_KEY") && !Credentials.Missing(env, "ANTHROPIC_API_KEY")
    ensures var p := Prompt(context, source);
            post(Darren.BuildRequest(p)).TransportFailed? ==>
              ConsultWithDarren(env, post, decode, context, source) ==
                DarrenErrorPrefix + Darren.TransportPrefix + post(Darren.BuildRequest(p)).reason
    ensures var p := Prompt(context, source);
            post(Sonny.BuildRequest(p)).TransportFailed? ==>
              ConsultWithSonny(env, post, decode, context, source) ==
                SonnyErrorPrefix + Sonny.TransportPrefix + post(Sonny.BuildRequest(p)).reason
  {
    if post(Darren.BuildRequest(Prompt(context, source))).TransportFailed? {
      DarrenRequestFailure(env, context, source, post, decode);
    }
    if post(Sonny.BuildRequest(Prompt(context, source))).TransportFailed? {
      SonnyRequestFailure(env, context, source, post, decode);
    }
  }

  lemma DarrenRequestFailure(env: Credentials.Env, context: string, source: Option<string>,
                             post: Request -> Transport, decode: string -> Decoding)
    requires !Credentials.Missing(env, "OPENAI_API_KEY") && !Credentials.Missing(env, "ANTHROPIC_API_KEY")
    requires post(Darren.BuildRequest(Prompt(context, source))).TransportFailed?
    ensures ConsultWithDarren(env, post, decode, context, source) ==
              DarrenErrorPrefix + Darren.TransportPrefix + post(Darren.BuildRequest(Prompt(context, source))).reason
  {
    var p := Prompt(context, source);
    var reason := post(Darren.BuildRequest(p)).reason;
    assert Darren.Consult(env, post, decode, p) == Raise(Exc(Exception, Darren.TransportPrefix + reason));
    assert DarrenErrorPrefix + (Darren.TransportPrefix + reason) == DarrenErrorPrefix + Darren.TransportPrefix + reason;
  }

  lemma SonnyRequestFailure(env: Credentials.Env, context: string, source: Option<string>,
                            post: Request -> Transport, decode: string -> Decoding)
    requires !Credentials.Missing(env, "OPENAI_API_KEY") && !Credentials.Missing(env, "ANTHROPIC_API_KEY")
    requires post(Sonny.BuildRequest(Prompt(context, source))).TransportFailed?
    ensures ConsultWithSonny(env, post, decode, context, source) ==
              SonnyErrorPrefix + Sonny.TransportPrefix + post(Sonny.BuildRequest(Prompt(context, source))).reason
  {
    var p := Prompt(context, source);
    var reason := post(Sonny.BuildRequest(p)).reason;
    assert Sonny.Consult(env, post, decode, p) == Raise(Exc(Exception, Sonny.TransportPrefix + reason));
    assert SonnyErrorPrefix + (Sonny.TransportPrefix + reason) == SonnyErrorPrefix + Sonny.TransportPrefix + reason;
  }

  /** A worked case: Darren's reply to a memory-leak question whose response
      carries one assistant message with one `output_text` block. */
  lemma DarrenAnswersLeakQuestion(env: Credentials.Env, post: Request -> Transport,
                                  decode: string -> Decoding, body: string)
    requires !Credentials.Missing(env, "OPENAI_API_KEY") && !Credentials.Missing(env, "ANTHROPIC_API_KEY")
    requires post(Darren.BuildRequest(Prompt("Why does this function leak memory?",
                                             Some("void f(){ malloc(10); }")))) == Delivered(body)
    requires decode(body) == Decoded(LeakAnswer())
    ensures ConsultWithDarren(env, post, decode, "Why does this function leak memory?",
                              Some("void f(){ malloc(10); }")) == "Missing free() call."
  {
    LeakAnswerParses();
  }

  /** The worked case's response parses to its one `output_text` block. */
  lemma LeakAnswerParses()
    ensures Darren.ParseResponse(Decoded(LeakAnswer())) == Ok("Missing free() call.")
  {
    var data := LeakAnswer();
    LeakAnswerShape();
    DarrenProperties.ReturnsFirstOutputText(data, 0, 0);
  }

  /** The worked case's response has the documented shape, with the answer in
      the first block of the first item. */
  lemma LeakAnswerShape()
    ensures DarrenProperties.WellShaped(LeakAnswer())
    ensures DarrenProperties.FirstOutputTextAt(DarrenProperties.Items(LeakAnswer()), 0, 0)
    ensures FieldOr(DarrenProperties.Blocks(DarrenProperties.Items(LeakAnswer())[0])[0], "text", JStr(""))
            == JStr("Missing free() call.")
  {
    LeakMessageShape();
    assert LeakAnswer().fields[0].0 == "output";
    assert DarrenProperties.Items(LeakAnswer()) == [LeakMessage()];
  }

  lemma LeakMessageShape()
    ensures DarrenProperties.IsAssistantMessage(LeakMessage())
    ensures DarrenProperties.WellShapedItem(LeakMessage())
    ensures DarrenProperties.Blocks(LeakMessage()) == [LeakBlock()]
    ensures DarrenProperties.IsOutputTextBlock(LeakBlock())
    ensures FieldOr(LeakBlock(), "text", JStr("")) == JStr("Missing free() call.")
  {
    assert LeakMessage().fields[0].0 == "type" && LeakMessage().fields[1].0 == "role";
    assert LeakMessage().fields[2].0 == "content";
    assert LeakBlock().fields[0].0 == "type" && LeakBlock().fields[1].0 == "text";
  }

  /** The response of the worked case. */
  function LeakAnswer(): Json {
    JObj([("output", JArr([LeakMessage()]))])
  }

  function LeakMessage(): Json {
    JObj([("type", JStr("message")), ("role", JStr("assistant")), ("content", JArr([LeakBlock()]))])
  }

  function LeakBlock(): Json {
    JObj([("type", JStr("output_text")), ("text", JStr("Missing free() call."))])
  }
}
