# Consulting-agents gateway: response normalisation in Dafny

This project models the decision logic of `mcp_consul_server.py`, a gateway
that exposes two language-model backends as consultation tools:

- **Darren** talks to OpenAI's Responses API (`consult_darren`).
- **Sonny** talks to Anthropic's Messages API with extended thinking (`consult_sonny`).

Each tool assembles a prompt, runs the credential guard, sends one POST and
digs the answer text out of the decoded reply. Every exception is turned into
a reply string that starts with `"Error consulting with <Name>: "`, so a tool
never raises.

The model is functional throughout. The modules are:

- `Json` (`json.dfy`): decoded JSON values. An object keeps its members in
  document order, and a lookup finds the last member with the key, which is
  the member the decoder keeps.
- `Python` (`python.dfy`): the parts of Python's runtime the parsers rely on.
  This covers `dict.get`, `d[k]`, `in`, iteration and truthiness. It also
  covers the `len()` that the logging calls apply to an answer, the
  `data.keys()` one error log evaluates, and a `for`
  loop whose body may `return`, `break` or raise. An evaluation either yields
  a value or raises an exception: `Py<T> = Ok | Raise(Exc(class, message))`.
  A value of the wrong type therefore fails where Python fails, with the
  exception Python raises.
- `Http` (`http.dfy`): the request an adapter builds. The HTTP call and the
  JSON decoder are foreign code, so they enter as function parameters:
  - `post: Request -> Transport` yields `Delivered(body)` or `TransportFailed(reason)`;
  - `decode: string -> Decoding` yields `Decoded(json)` or `DecodeError(reason)`.
- `Credentials` (`credentials.dfy`): the `verify_api_keys` guard over an
  environment map.
- `Darren`, `Sonny` (`darren.dfy`, `sonny.dfy`): request building, the parsing
  `try` blocks with their exact handlers and messages, and the whole adapter.
  The modules `DarrenProperties` and `SonnyProperties`, in the same files, state
  what each adapter promises.
- `Facade` (`facade.dfy`): prompt assembly, the two tools, and the properties
  that span both adapters.

Darren's parsing handler catches only `KeyError`, `IndexError` and
`ValueError`. A response whose shape makes the interpreter raise
`AttributeError` or `TypeError` therefore reaches the tool without the
response-format prefix (`DarrenProperties.NonObjectEscapesHandler`).
Sonny's handler catches every exception. Its error log evaluates
`data.keys()` before the no-text exception is raised, so a decoded list or
string fails with an `AttributeError` message behind the parse prefix
(`SonnyProperties.SequenceResponseHasNoAttribute`).

## Model

| member | source | states |
|---|---|---|
| Credentials.VerifyApiKeys | mcp_consul_server.py:39-44 | passes iff both keys are set and non-empty; an empty value counts as missing; the OpenAI key is reported first, as exactly "OPENAI_API_KEY is not set", even when both are missing |
| Python.ForEach | mcp_consul_server.py:80-86 | a `for` loop with early `return`/`break`/raise: the outcome is that of the first element whose body does not move on, and the loop runs to its end iff every body moves on |
| Python.AsText | mcp_consul_server.py:84-85 | a string found at a text position is returned unchanged; any other value makes the logged `len()` raise TypeError |
| Python.Contains | mcp_consul_server.py:135 | `key in data` is key membership for a dict, element equality for a list, a substring test for a string, and a TypeError for anything else |
| Darren.BuildRequest | mcp_consul_server.py:54-61 | the prompt is sent unchanged as `input`, to the Responses endpoint, with model o3-mini and a 60-second timeout |
| Darren.ParseResponse | mcp_consul_server.py:77-101 | a decoding error fails with exactly "Unexpected OpenAI API response format: " + reason; every parse failure is the could-not-parse message, a format-prefixed message, or an interpreter error the handler lets through |
| Darren.Consult | mcp_consul_server.py:46-75 | a guard failure is raised as is; with the keys present, a transport failure is raised as "OpenAI API request failed: " + reason; every failure falls in the adapter's failure classes |
| DarrenProperties.ReturnsFirstOutputText | mcp_consul_server.py:80-86 | for a response of the documented shape, the answer is the `text` of the first `output_text` block of the first assistant message that has one, unchanged, or "" when that block has no `text`; other items are skipped |
| DarrenProperties.FallsBackToOutputText | mcp_consul_server.py:88-97 | with no such block anywhere, the top-level `output_text` is the answer; without it the failure is exactly "Could not parse response from OpenAI API" |
| DarrenProperties.OutputTextIsLastResort | mcp_consul_server.py:80-97 | for any decoded object, adding a top-level `output_text` changes the outcome only where parsing would fail with the could-not-parse message |
| DarrenProperties.NonObjectEscapesHandler | mcp_consul_server.py:77-101 | a decoded value that is not an object raises AttributeError, which the handler does not rewrap |
| DarrenProperties.GuardPrecedesNetwork | mcp_consul_server.py:50-69 | with a key missing, the outcome is a failure and does not depend on the transport or the decoder |
| DarrenProperties.TransportFailurePrecedesDecoding | mcp_consul_server.py:68-78 | a transport failure is reported whatever the decoder would produce |
| DarrenProperties.ParseFailureLacksTransportPrefix | mcp_consul_server.py:75-101 | no parse failure starts with "OpenAI API request failed: " |
| DarrenProperties.TransportPrefixIsExclusive | mcp_consul_server.py:68-101 | a failure starts with the transport prefix iff the keys were present and the request failed |
| Sonny.BuildRequest | mcp_consul_server.py:108-115 | the prompt is the sole user message, sent to the Messages endpoint with the Sonnet model and a 120-second timeout |
| Sonny.ContentReply | mcp_consul_server.py:135-144 | the current-format branch answers only with a non-empty string |
| Sonny.ParseData | mcp_consul_server.py:132-154 | every answer is non-empty; every failure is the no-text message or an interpreter error; the `data.keys()` of the error log fails on a list or string |
| Sonny.ParseResponse | mcp_consul_server.py:132-158 | every answer is non-empty; every failure, a decoding error included, carries "Failed to parse Anthropic response: " |
| Sonny.Consult | mcp_consul_server.py:103-130 | a guard failure is raised as is; a transport failure is raised as "Anthropic API request failed: " + reason; answers are non-empty; every failure falls in the adapter's failure classes |
| SonnyProperties.FirstTextBlockDecides | mcp_consul_server.py:135-144 | only the first `text` block counts: non-empty text is the answer; empty text gives the no-text failure even if a later text block or `completion` holds text |
| SonnyProperties.NoTextBlockNoReply | mcp_consul_server.py:135-154 | a `content` list without a text block gives exactly "Failed to parse Anthropic response: No text reply found in Anthropic API response." |
| SonnyProperties.LegacyCompletion | mcp_consul_server.py:146-154 | without `content`, a non-empty `completion` string is the answer; an absent or empty one gives the no-text failure |
| SonnyProperties.CompletionIgnoredWithContent | mcp_consul_server.py:135-151 | for any decoded object with `content`, adding `completion` changes nothing |
| SonnyProperties.SequenceResponseHasNoAttribute | mcp_consul_server.py:135-158 | a decoded list or string fails with the parse prefix and "'list' (or 'str') object has no attribute": `'get'` when "content" or "completion" occurs in it, else `'keys'` from the error log |
| SonnyProperties.ScalarResponseCarriesPrefix | mcp_consul_server.py:155-158 | a null, boolean or number response still fails with the parse prefix |
| SonnyProperties.GuardPrecedesNetwork | mcp_consul_server.py:107-124 | with a key missing, the outcome is a failure and does not depend on the transport or the decoder |
| SonnyProperties.TransportFailurePrecedesDecoding | mcp_consul_server.py:123-133 | a transport failure is reported whatever the decoder would produce |
| SonnyProperties.TransportPrefixIsExclusive | mcp_consul_server.py:123-158 | a failure starts with "Anthropic API request failed: " iff the keys were present and the request failed |
| Facade.Prompt | mcp_consul_server.py:171-174 | the prompt starts with the context and a blank line and ends with the closing request; with no or empty source it is exactly context, blank line, closing request |
| Facade.PromptRoundTrip | mcp_consul_server.py:171-174 | the context and the source can be read back from the prompt; a source section is read only when it carries the "Source Code:\n" label and the blank line after the source; it is present iff the source is non-empty |
| Facade.ConsultWithDarren | mcp_consul_server.py:160-182 | returns the adapter's answer unchanged, or exactly "Error consulting with Darren: " + the exception's message, which is one of Darren's failure texts |
| Facade.ConsultWithSonny | mcp_consul_server.py:184-206 | returns a non-empty answer unchanged, or exactly "Error consulting with Sonny: " + the exception's message, which is one of Sonny's failure texts |
| Facade.ToolsSendSamePrompt | mcp_consul_server.py:171-198 | the same prompt reaches Darren as `input` and Sonny as the sole user message |
| Facade.MissingKeyReported | mcp_consul_server.py:177-206 | with a key missing, both tools reply with the missing-key message, the OpenAI key first, whatever the network would do |
| Facade.RequestFailureReported | mcp_consul_server.py:68-75 | with both keys present, a failed request yields "Error consulting with Darren: OpenAI API request failed: " + reason, and likewise for Sonny |
| Facade.DarrenAnswersLeakQuestion | mcp_consul_server.py:80-86 | a worked case: a response with one assistant `output_text` block "Missing free() call." yields exactly that reply |

## Left out

- The HTTP call (`requests.post`, the timeout, `raise_for_status`) is the `post` parameter. Which statuses count as failures is decided by the HTTP library.
- Decoding JSON text (`response.json()`) is the `decode` parameter, because the parser is a foreign library.
- Request headers (bearer token, `x-api-key`, `anthropic-version`) are not modelled, because they carry secret values.
- Logging is not modelled, except where evaluating a log message can raise and so changes the outcome: the `len()` applied to an answer before it is logged, and Sonny's `data.keys()` before the no-text failure. Darren's `data.keys()` and `json.dumps(data)` are reached only with a dict, where they cannot raise.
- Loading `.env`, the import-time and startup key warnings, FastMCP registration, `async` and the `__main__` transport selection are not modelled. They are startup and framework glue.
- Python.AsText: a list or object found at a text position is returned by Python as that value itself. The model, whose answers are strings, reports it as the TypeError that `len()` raises on null, booleans and numbers.
- Sonny.ParseData: a truthy legacy `completion` that is not a string is returned by Python without any `len()` call. The model reports it as a failure carrying the parse prefix.
- JSON numbers are integers. Floating-point numbers, whose type name is `float`, are not modelled.
- The wording of errors the interpreter raises (AttributeError, TypeError, KeyError) follows CPython 3.12. `SonnyProperties.ScalarResponseCarriesPrefix` and `SonnyProperties.SequenceResponseHasNoAttribute` state that wording for the values they cover. Every other contract relies only on the first character being a quote or a lower-case letter.
- Iterating a decoded dict yields its members' keys in document order, and duplicate keys are not collapsed. This never changes an outcome, because every loop body calls `.get` on the element, and for a string that raises.
- Exceptions other than the modelled classes are not modelled. An example is a `requests` exception outside `RequestException`.
