# A2A blog generator and translator, modelled in Dafny

This project models the logic of a small agent-to-agent ("A2A") system. Two
agents, a blog generator and a translator, each answer a JSON-RPC 2.0 style
`tasks/send` envelope. A Streamlit orchestrator chains them: the blog
generator writes a post about a topic, and the translator translates that
post.

- `pyjson.dfy` (`PyJson`): JSON values as Python decodes them. It also holds
  the Python operations the code applies to them: `dict.get`, `in`,
  subscripting and truthiness. Any exception the code does not catch becomes
  `Raised`.
- `pytext.dfy` (`PyText`): `str.strip()` over Python's full `str.isspace()`
  character set (not only ASCII whitespace).
- `a2a.dfy` (`A2A`): parts shared by both agents. These are the validated
  envelope, the three configuration variables, the single backend call, the
  response envelope and its error codes (section 5.1 of the JSON-RPC 2.0
  Specification), the wire form of a response, and the part scan. The scan
  takes the "first part whose `type` is `text`", once as a loop
  (`ScanPartsLoop`) and once as the recursive function it is proved equal to
  (`ScanParts`).
- `blog_gen.dfy` (`BlogGen`) and `translator_agent.dfy` (`TranslatorAgent`):
  each agent's `run_handler`. `Prepare` is everything the handler does before
  the backend call. It gives either the response or the one `LlmCall` the
  handler needs. `RunHandler` adds the backend, which is a function
  parameter. "The backend is not called" means `Prepare` returns `Respond`.
- `agents.dfy` (`Agents`): role dispatch, plus the framework's envelope
  validation in front of the handler (`Serve`).
- `hosting.dfy` (`Hosting`): the orchestrator script as one function,
  `Pipeline`. Its inputs are the form, the two request ids and the HTTP round
  trip `post`. It returns the requests made and how the script ended:
  `NotSubmitted`, `Halted(stage, reason)`, `Crashed(stage)` or
  `Done(engText, translatedText)`.
- `composition.dfy` (`Composition`): the orchestrator run against both agent
  models, end to end.

Prompts are f-strings. A message is kept as a template: literal pieces plus
the JSON values put into it. The reason is that the code puts arbitrary JSON
values (`length`, `style`, `source_lang`, a non-str prompt) into the message
through Python's `str()`. `Rendered` gives the final text when every value
is a str.

Where the code departs from the protocol's stated intent, the model follows
the code:

- The intent is that no failure escapes a handler. In the code,
  non-conforming `params` make the handler raise, and the framework answers
  HTTP 500. This happens when `message` is not a dict; when `parts` is None,
  a bool, a number, or a non-empty str or dict; when a part before the first
  text part is not a dict; or when `task` is not a dict (for the blog
  generator, only once the prompt has passed its check). For the translator
  it also happens when the extracted `text` is not a str. The model returns
  `InternalError` in these cases.
- The blog generator rejects only a falsy prompt, so a whitespace-only
  prompt is accepted. The translator rejects text that `strip()` empties.
- The translator reads `task` before the message, and the blog generator
  reads it after the prompt check. So the same malformed request can get
  different answers from the two agents (`Agents.RolesDifferOnCheckOrder`).
- The orchestrator does not show an agent's error verbatim. It shows
  `error.message` (or the whole `error` when there is no message), after a
  stage-specific prefix.

## Model

| member | source | states |
|---|---|---|
| `PyText.TrimStartIsSuffix` | translator_agent/main.py:57 | the left strip is the longest suffix that does not start with whitespace; everything cut off is whitespace |
| `PyText.TrimEndIsPrefix` | translator_agent/main.py:57 | the right strip is the longest prefix that does not end with whitespace; everything cut off is whitespace |
| `PyText.StripIsTrimmedSlice` | translator_agent/main.py:57 | `strip()` gives a contiguous piece of the input with only whitespace removed at each end, and the piece has no whitespace at either end |
| `PyText.StripEmptyIffBlank` | translator_agent/main.py:57 | `not text.strip()` holds exactly when every character is whitespace (both directions) |
| `A2A.ParseRequest` | blog_gen.py/main.py:28-32 | a validated envelope has `jsonrpc == "2.0"` and carries the body's `id`, `method` and `params` unchanged; the body holds exactly those four members plus whatever else it carries |
| `A2A.ParseRequestAcceptsEnvelope` | blog_gen.py/main.py:28-32 | every envelope with `jsonrpc` "2.0", a str `id`, a str `method` and a dict `params` is accepted, whatever extra members it has, and parses back to exactly the request it was written from |
| `A2A.TextRequestText` | blog_gen.py/main.py:45-50 | the single text part of a request is what the scan extracts |
| `A2A.Finish` | blog_gen.py/main.py:92-112 | after the backend call, success gives exactly one "text/markdown" artifact holding the backend text, with state "completed"; failure gives -32000 with prefix plus detail; the id is echoed |
| `A2A.ScanPartsLoop` | blog_gen.py/main.py:46-50 | the loop with its `break` computes exactly the first-text-part scan `ScanParts` |
| `A2A.ScanFirstTextPartWins` | blog_gen.py/main.py:47-50 | after any run of non-text dict parts, the first text part's `text` (or "" when missing) is the result, and all later parts are ignored, even when that text is empty |
| `A2A.ScanRaisesOnNonDict` | blog_gen.py/main.py:47-48 | a part that is not a dict, reached before any text part, makes the scan raise |
| `A2A.ScanWithoutTextPart` | blog_gen.py/main.py:46-50 | with no text part the extracted text stays "" |
| `A2A.WireHasOneOfErrorAndResult` | blog_gen.py/main.py:93-112 | every response on the wire has "jsonrpc", the request id, and exactly one of "error" and "result" |
| `BlogGen.RunHandler` | blog_gen.py/main.py:36-112 | any other method than "tasks/send" gives -32601 "Method not found"; every reply has jsonrpc "2.0" and echoes the id; a result is "completed" with one markdown artifact holding the backend's text |
| `BlogGen.FalsyPromptRejected` | blog_gen.py/main.py:52-57 | -32602 exactly when the extracted prompt is falsy, decided before config or backend; a whitespace-only str prompt is not rejected |
| `BlogGen.BackendCallCarriesPrompt` | blog_gen.py/main.py:59-90 | the one backend call uses the configured endpoint, key and model, `length`/`style` from `task` or "medium"/"formal", the prompt, the fixed user message and 1500 tokens |
| `BlogGen.SystemPromptText` | blog_gen.py/main.py:83-84 | the rendered system message is exactly "You are a {style} blog writer. Create a {length} post about: {prompt}" |
| `BlogGen.MissingConfigNoBackendCall` | blog_gen.py/main.py:64-74 | a missing or empty endpoint, model or key gives -32001 "Missing environment configuration", whatever the backend would answer |
| `BlogGen.BackendOutcomeReported` | blog_gen.py/main.py:91-112 | the backend's text becomes the completed artifact; a failure becomes -32000 "LLM call failed: " + detail |
| `BlogGen.RaisesExactlyWhen` | blog_gen.py/main.py:45-62 | the handler raises exactly when message/parts are malformed, or when a usable prompt comes with a `task` that is not a dict |
| `TranslatorAgent.RunHandler` | translator_agent/main.py:36-116 | any other method gives -32601 with the id echoed; a result is "completed" with one markdown artifact carrying the translated text |
| `TranslatorAgent.BlankTextRejected` | translator_agent/main.py:57-62 | -32602 "No text provided for translation." exactly when the text is empty or all whitespace, before config or backend |
| `TranslatorAgent.BackendCallCarriesText` | translator_agent/main.py:44-94 | the one backend call uses `source_lang`/`target_lang` from `task` or "en"/"fr", the fixed system message, the text and 1500 tokens |
| `TranslatorAgent.TranslatePromptText` | translator_agent/main.py:82-84 | the rendered user message is exactly "Translate the following text from {src} to {tgt}:\n{text}" |
| `TranslatorAgent.MissingConfigNoBackendCall` | translator_agent/main.py:64-74 | missing or empty configuration gives -32001 "Invalid service configuration" without a backend call |
| `TranslatorAgent.BackendOutcomeReported` | translator_agent/main.py:95-116 | the backend's text becomes the artifact; a failure becomes -32000 "Translation failed: " + detail |
| `TranslatorAgent.RaisesExactlyWhen` | translator_agent/main.py:44-57 | the handler raises exactly when `task` is not a dict, message/parts are malformed, or the extracted text is not a str |
| `Agents.Serve` | blog_gen.py/main.py:27-36 | an envelope that fails validation gets the framework's 422 answer; every JSON reply to a valid envelope has jsonrpc "2.0", echoes the body's `id`, and has exactly one of "error" and "result" |
| `Agents.MalformedEnvelopeNeverReachesHandler` | blog_gen.py/main.py:27-36 | an envelope that fails validation gets the framework's answer whatever the agent, configuration or backend, so it never reaches the handler or the backend |
| `Agents.RolesDifferOnWhitespace` | translator_agent/main.py:57-62 | every non-empty, all-whitespace text passes the blog generator's falsiness test and reaches its backend, but the translator rejects it with -32602 |
| `Agents.RolesDifferOnCheckOrder` | translator_agent/main.py:44-55 | for every `tasks/send` request whose extracted text is falsy and whose `task` is not a dict, the blog generator answers -32602 with the request id but the translator raises |
| `Hosting.TargetLanguage` | hosting/app.py:11 | the target language is one of fr/es/de/hi/zh, and "fr" by default |
| `Hosting.Pipeline` | hosting/app.py:14-74 | no request without submit and a non-empty topic; the first request is the generator payload; the translator is called only after the generator produced text, with that exact text; `Done` exactly when both stages produce text, carrying both texts; a halted or crashed run records the writing stage exactly when only one request was made, otherwise the translating stage with the English text; it crashes exactly when the last reply could not be read, halts with a parse error exactly when that reply had no `error` and no artifact text, and otherwise halts with the reply's error message |
| `Hosting.ReadReply` | hosting/app.py:31-39 | a reply that is not JSON crashes the script; a JSON reply without `error` yields exactly its `result.artifacts[0].data.text` when that exists and a parse error when it does not; a reply with an `error` yields `error.get('message', error)`, and text or a failure is read only from such replies |
| `Hosting.WriterErrorHalts` | hosting/app.py:32-34 | an `error` member halts at the first stage with `error.message`, or the whole error if it has none; only one request is made |
| `Hosting.MissingArtifactHalts` | hosting/app.py:35-39 | no `error` and no `result.artifacts[0].data.text` halts with a parse error; only one request is made |
| `Hosting.ArtifactReplyProceeds` | hosting/app.py:35-63 | a generator reply with no `error` and a first artifact text leads to exactly two requests, the second carrying that text to the translator |
| `Hosting.TranslatorMissingArtifactHalts` | hosting/app.py:67-71 | no `error` and no artifact text in the translator's reply halts at the second stage with a parse error, after both requests |
| `Hosting.NonJsonReplyCrashes` | hosting/app.py:31-63 | a reply that is not JSON crashes the script at the stage that received it |
| `Hosting.TranslatorErrorHalts` | hosting/app.py:64-66 | a translator `error` halts at the second stage in the same way, after both requests and with the English text kept |
| `Hosting.OnlyFirstArtifactRead` | hosting/app.py:36 | the text read depends only on the first artifact: later artifacts and other members are ignored |
| `Hosting.WriterPayloadAsSeenByAgent` | hosting/app.py:18-30 | the generator request validates as exactly the one-text-part request it was built from, echoes the id, carries method "tasks/send", has the topic as its text, and has `task == {"topic": topic}` |
| `Hosting.TranslatorPayloadAsSeenByAgent` | hosting/app.py:47-62 | the translator request's text is exactly the English text, and its `task` is `source_lang "en"` with the selected `target_lang` |
| `Composition.ReadAgentReply` | hosting/app.py:31-39 | an agent's error reply reads back as its message, a result as its first artifact text, and the HTTP 500 page crashes the script |
| `Composition.OrchestratedGenerationUsesDefaults` | hosting/app.py:23 | orchestrated generation always uses style "formal" and length "medium", with the topic as the prompt |
| `Composition.TranslationOfGeneratedText` | hosting/app.py:46-62 | the translator gets the generator's text, is asked from "en" to the selected language, and refuses blank text |
| `Composition.WriterStageReading` | hosting/app.py:31-39 | the first stage reads the config error, the backend text, or "LLM call failed: " + detail |
| `Composition.TranslatorStageReading` | hosting/app.py:63-71 | the second stage reads the blank-text error, the config error, the translation, or "Translation failed: " + detail |
| `Composition.EndToEnd` | hosting/app.py:14-74 | with both agents configured and non-blank generated text, two requests are made, and the script surfaces the English text and its translation |
| `Composition.UnconfiguredGeneratorHalts` | hosting/app.py:32-34 | an unconfigured generator halts the script at stage one with its -32001 message; the translator is never called |
| `Composition.GeneratorBackendFailureHalts` | hosting/app.py:32-34 | a failing generator backend halts at stage one with "LLM call failed: " + detail |
| `Composition.BlankGeneratedTextHaltsAtTranslator` | hosting/app.py:64-66 | blank generated text passes the generator but halts at the translator stage with -32602's message |

## Left out

- The agent-card endpoints (`GET /.well-known/agent.json`). They read a file and return it verbatim.
- FastAPI routing and async execution. The framework's envelope validation is modelled as `A2A.ParseRequest`, with no type coercion. The list of validation errors in its HTTP 422 body is not modelled; only the fact that the body has neither "error" nor "result" matters to the orchestrator.
- `load_dotenv` and `os.getenv`. The three variables are the `Config` parameter.
- The Azure chat-completion client. Its call is the parameter `llm`, which gives `Completion(text)` or `CallFailed(detail)`. A `None` completion content and the float sampling parameters (temperature, top_p) are not modelled. `max_tokens` is kept.
- Python's `str()` rendering of non-str JSON values in prompts, such as the repr of lists and dicts. Prompts keep those values as values.
- JSON numbers with a fraction (Python floats).
- The order of a dict's keys when a non-empty dict is iterated as `parts`. The first key is a str and raises whatever it is, so the order cannot change the result.
- Streamlit output: the title, spinners, `text_area`, headings, the `.upper()` language label, and the exact text of the `st.error` lines. This includes the stage prefixes and Python's exception messages for parse errors. The outcome records the stage, the kind of halt and the agent's message value.
- `requests.post` failures and `uuid.uuid4()`. A reply that cannot be decoded as JSON (connection failure, HTTP 500 page) is `NotJson`, and it makes the script crash. Request ids are parameters.
