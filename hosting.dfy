/** The orchestrator script (hosting/app.py): on submit with a non-empty
    topic it posts a request to the blog generator, reads the first
    artifact's text, posts that text to the translator, and reads the
    translation, stopping at the first error. Each HTTP round trip is the
    parameter `post`; the request ids are parameters too. */
module Hosting {
  import opened PyJson
  import opened A2A

  const WriterRun := "http://localhost:8000/run"
  const TranslatorRun := "http://localhost:8001/run"

  /** The choices of the target-language select box, the first preselected. */
  const TargetLanguages: seq<string> := ["fr", "es", "de", "hi", "zh"]
  const DefaultLanguageIndex: nat := 0

  /** What the page's widgets hold when the script runs. */
  datatype Form = Form(topic: string, languageIndex: nat, submit: bool)

  /** The selected target language: always one of the offered codes, and
      French unless the user picks another. */
  function TargetLanguage(form: Form): (lang: string)
    requires form.languageIndex < |TargetLanguages|
    ensures lang in TargetLanguages
    ensures form.languageIndex == DefaultLanguageIndex ==> lang == "fr"
  {
    TargetLanguages[form.languageIndex]
  }

  /** `blog_payload`: the topic is both the task's only parameter and the text. */
  function WriterPayload(topic: string, id: string): Json
  {
    RequestJson(TextRequest(id, JStr(topic), JObj(map["topic" := JStr(topic)])))
  }

  /** `trans_payload`: the English text, from "en" to the selected language. */
  function TranslatorPayload(engText: Json, targetLang: string, id: string): Json
  {
    RequestJson(TextRequest(id, engText, JObj(map["source_lang" := JStr("en"), "target_lang" := JStr(targetLang)])))
  }

  /** `resp["result"]["artifacts"][0]["data"]["text"]`. */
  const ArtifactTextPath: seq<Key> := [Name("result"), Name("artifacts"), Index(0), Name("data"), Name("text")]

  /** What the script makes of one agent's reply. */
  datatype Reading =
    | Produced(text: Json)         // the first artifact's text
    | AgentFailed(message: Json)   // an `error` member, reported and stopped on
    | Unparsed                     // no `error` and no artifact text: the caught exception
    | ReadRaised                   // an exception the script does not catch

  /** `if "error" in resp: st.error(... resp['error'].get('message', resp['error'])); st.stop()`,
      then the artifact lookup inside `try`/`except Exception`. A reply
      that is not JSON makes `.json()` raise before any of this. */
  function ReadReply(reply: HttpReply): (r: Reading)
    ensures reply.NotJson? ==> r.ReadRaised?
    ensures r.Produced? ==>
      && reply.JsonBody? && Contains(reply.body, "error") == Ok(false)
      && Path(reply.body, ArtifactTextPath) == Ok(r.text)
    ensures r.AgentFailed? ==>
      && reply.JsonBody? && Contains(reply.body, "error") == Ok(true)
      && Subscript(reply.body, Name("error")).Ok?
      && Get(Subscript(reply.body, Name("error")).value, "message", Subscript(reply.body, Name("error")).value)
         == Ok(r.message)
    ensures r.Unparsed? <==>
      reply.JsonBody? && Contains(reply.body, "error") == Ok(false) && Path(reply.body, ArtifactTextPath).Raised?
    ensures reply.JsonBody? && Contains(reply.body, "error") == Ok(false) && Path(reply.body, ArtifactTextPath).Ok? ==>
      r == Produced(Path(reply.body, ArtifactTextPath).value)
    ensures reply.JsonBody? && Contains(reply.body, "error") == Ok(true) && Subscript(reply.body, Name("error")).Ok? ==>
      var err := Subscript(reply.body, Name("error")).value;
      Get(err, "message", err).Ok? ==> r == AgentFailed(Get(err, "message", err).value)
  {
    match reply
    case NotJson => ReadRaised
    case JsonBody(resp) =>
      match Contains(resp, "error")
      case Raised => ReadRaised
      case Ok(true) =>
        (match Subscript(resp, Name("error"))
         case Raised => ReadRaised
         case Ok(err) =>
           match Get(err, "message", err)
           case Raised => ReadRaised
           case Ok(message) => AgentFailed(message))
      case Ok(false) =>
        match Path(resp, ArtifactTextPath)
        case Raised => Unparsed
        case Ok(text) => Produced(text)
  }

  /** The stage the script was in; once the English text is shown, a
      translator failure leaves it on the page. */
  datatype Stage = Writing | Translating(engText: Json)

  datatype HaltReason = AgentError(message: Json) | ParseError

  datatype Outcome =
    | NotSubmitted
    | Halted(stage: Stage, reason: HaltReason)   // `st.error(...)` then `st.stop()`
    | Crashed(stage: Stage)                      // an uncaught exception ends the script
    | Done(engText: Json, translatedText: Json)

  datatype Call = Call(url: string, payload: Json)

  /** The HTTP requests made, in order, and how the script ended. */
  datatype Run = Run(calls: seq<Call>, outcome: Outcome)

  function Stop(stage: Stage, reading: Reading): Outcome
    requires !reading.Produced?
  {
    match reading
    case AgentFailed(message) => Halted(stage, AgentError(message))
    case Unparsed => Halted(stage, ParseError)
    case ReadRaised => Crashed(stage)
  }

  /** One run of the script. */
  function Pipeline(form: Form, blogId: string, transId: string, post: (string, Json) -> HttpReply): (run: Run)
    requires form.languageIndex < |TargetLanguages|
    ensures run.calls == [] <==> !(form.submit && form.topic != "")
    ensures run.calls == [] <==> run.outcome.NotSubmitted?
    ensures |run.calls| <= 2
    ensures run.calls != [] ==> run.calls[0] == Call(WriterRun, WriterPayload(form.topic, blogId))
    ensures |run.calls| == 2 <==> run.calls != [] && ReadReply(post(run.calls[0].url, run.calls[0].payload)).Produced?
    ensures |run.calls| == 2 ==>
      run.calls[1] == Call(TranslatorRun, TranslatorPayload(ReadReply(post(WriterRun, run.calls[0].payload)).text,
                                                            TargetLanguage(form), transId))
    ensures run.outcome.Done? <==>
      |run.calls| == 2 && ReadReply(post(TranslatorRun, run.calls[1].payload)).Produced?
    ensures run.outcome.Done? ==>
      && ReadReply(post(WriterRun, run.calls[0].payload)) == Produced(run.outcome.engText)
      && ReadReply(post(TranslatorRun, run.calls[1].payload)) == Produced(run.outcome.translatedText)
    ensures (run.outcome.Halted? || run.outcome.Crashed?) ==>
      && (run.outcome.stage == Writing <==> |run.calls| == 1)
      && (run.outcome.stage.Translating? ==>
            ReadReply(post(WriterRun, run.calls[0].payload)) == Produced(run.outcome.stage.engText))
    ensures (run.outcome.Halted? || run.outcome.Crashed?) ==>
      var last := run.calls[|run.calls| - 1];
      var reading := ReadReply(post(last.url, last.payload));
      && (run.outcome.Crashed? <==> reading.ReadRaised?)
      && (run.outcome.Halted? && run.outcome.reason.ParseError? <==> reading.Unparsed?)
      && (run.outcome.Halted? && run.outcome.reason.AgentError? ==> reading == AgentFailed(run.outcome.reason.message))
  {
    if !(form.submit && form.topic != "") then Run([], NotSubmitted)
    else
      var writerCall := Call(WriterRun, WriterPayload(form.topic, blogId));
      match ReadReply(post(writerCall.url, writerCall.payload))
      case Produced(engText) =>
        var translatorCall := Call(TranslatorRun, TranslatorPayload(engText, TargetLanguage(form), transId));
        var calls := [writerCall, translatorCall];
        (match ReadReply(post(translatorCall.url, translatorCall.payload))
         case Produced(translated) => Run(calls, Done(engText, translated))
         case reading => Run(calls, Stop(Translating(engText), reading)))
      case reading => Run([writerCall], Stop(Writing, reading))
  }

  /** An `error` member in the generator's reply stops the script with its
      `message` (or the whole error when it has none); the translator is
      never called. */
  lemma WriterErrorHalts(form: Form, blogId: string, transId: string, post: (string, Json) -> HttpReply,
                         resp: map<string, Json>, err: map<string, Json>)
    requires form.languageIndex < |TargetLanguages| && form.submit && form.topic != ""
    requires post(WriterRun, WriterPayload(form.topic, blogId)) == JsonBody(JObj(resp))
    requires "error" in resp && resp["error"] == JObj(err)
    ensures Pipeline(form, blogId, transId, post)
            == Run([Call(WriterRun, WriterPayload(form.topic, blogId))],
                   Halted(Writing, AgentError(if "message" in err then err["message"] else JObj(err))))
  {
  }

  /** A generator reply with neither an `error` member nor a first artifact
      text stops the script with a parse error; the translator is never
      called. */
  lemma MissingArtifactHalts(form: Form, blogId: string, transId: string, post: (string, Json) -> HttpReply,
                             resp: map<string, Json>)
    requires form.languageIndex < |TargetLanguages| && form.submit && form.topic != ""
    requires post(WriterRun, WriterPayload(form.topic, blogId)) == JsonBody(JObj(resp))
    requires "error" !in resp && Path(JObj(resp), ArtifactTextPath).Raised?
    ensures Pipeline(form, blogId, transId, post)
            == Run([Call(WriterRun, WriterPayload(form.topic, blogId))], Halted(Writing, ParseError))
  {
  }

  /** A generator reply with no `error` member and a first artifact text
      sends exactly that text on to the translator. */
  lemma ArtifactReplyProceeds(form: Form, blogId: string, transId: string, post: (string, Json) -> HttpReply,
                              resp: map<string, Json>, engText: Json)
    requires form.languageIndex < |TargetLanguages| && form.submit && form.topic != ""
    requires post(WriterRun, WriterPayload(form.topic, blogId)) == JsonBody(JObj(resp))
    requires "error" !in resp && Path(JObj(resp), ArtifactTextPath) == Ok(engText)
    ensures Pipeline(form, blogId, transId, post).calls
            == [Call(WriterRun, WriterPayload(form.topic, blogId)),
                Call(TranslatorRun, TranslatorPayload(engText, TargetLanguage(form), transId))]
  {
  }

  /** A translator reply with neither an `error` member nor a first artifact
      text stops the script with a parse error, after the English text has
      been shown. */
  lemma TranslatorMissingArtifactHalts(form: Form, blogId: string, transId: string, post: (string, Json) -> HttpReply,
                                       engText: Json, resp: map<string, Json>)
    requires form.languageIndex < |TargetLanguages| && form.submit && form.topic != ""
    requires ReadReply(post(WriterRun, WriterPayload(form.topic, blogId))) == Produced(engText)
    requires post(TranslatorRun, TranslatorPayload(engText, TargetLanguage(form), transId)) == JsonBody(JObj(resp))
    requires "error" !in resp && Path(JObj(resp), ArtifactTextPath).Raised?
    ensures Pipeline(form, blogId, transId, post)
            == Run([Call(WriterRun, WriterPayload(form.topic, blogId)),
                    Call(TranslatorRun, TranslatorPayload(engText, TargetLanguage(form), transId))],
                   Halted(Translating(engText), ParseError))
  {
  }

  /** A reply that is not JSON (a failed connection, an agent's HTTP 500 page)
      makes `.json()` raise: the script crashes at that stage. */
  lemma NonJsonReplyCrashes(form: Form, blogId: string, transId: string, post: (string, Json) -> HttpReply)
    requires form.languageIndex < |TargetLanguages| && form.submit && form.topic != ""
    ensures post(WriterRun, WriterPayload(form.topic, blogId)).NotJson? ==>
      Pipeline(form, blogId, transId, post).outcome == Crashed(Writing)
    ensures ReadReply(post(WriterRun, WriterPayload(form.topic, blogId))).Produced? ==>
      var engText := ReadReply(post(WriterRun, WriterPayload(form.topic, blogId))).text;
      post(TranslatorRun, TranslatorPayload(engText, TargetLanguage(form), transId)).NotJson? ==>
      Pipeline(form, blogId, transId, post).outcome == Crashed(Translating(engText))
  {
  }

  /** A translator reply with an `error` member stops the script the same way,
      after the English text has been shown. */
  lemma TranslatorErrorHalts(form: Form, blogId: string, transId: string, post: (string, Json) -> HttpReply,
                             engText: Json, resp: map<string, Json>, err: map<string, Json>)
    requires form.languageIndex < |TargetLanguages| && form.submit && form.topic != ""
    requires ReadReply(post(WriterRun, WriterPayload(form.topic, blogId))) == Produced(engText)
    requires post(TranslatorRun, TranslatorPayload(engText, TargetLanguage(form), transId)) == JsonBody(JObj(resp))
    requires "error" in resp && resp["error"] == JObj(err)
    ensures Pipeline(form, blogId, transId, post)
            == Run([Call(WriterRun, WriterPayload(form.topic, blogId)),
                    Call(TranslatorRun, TranslatorPayload(engText, TargetLanguage(form), transId))],
                   Halted(Translating(engText), AgentError(if "message" in err then err["message"] else JObj(err))))
  {
  }

  /** Only the first artifact is read: whatever follows it, and whatever else
      the reply holds, does not change the text taken. */
  lemma OnlyFirstArtifactRead(resp: map<string, Json>, result: map<string, Json>, first: Json, rest: seq<Json>)
    ensures Path(JObj(resp["result" := JObj(result["artifacts" := JArr([first] + rest)])]), ArtifactTextPath)
            == Path(first, [Name("data"), Name("text")])
  {
    var p := ArtifactTextPath;
    assert p[1..] == [Name("artifacts"), Index(0), Name("data"), Name("text")];
    assert p[1..][1..] == [Index(0), Name("data"), Name("text")];
    assert p[1..][1..][1..] == [Name("data"), Name("text")];
  }

  /** What the generator's handler sees in the orchestrator's request: the
      topic as the text of the only text part, and a `task` that holds the
      topic and nothing else. */
  lemma WriterPayloadAsSeenByAgent(topic: string, id: string)
    ensures ParseRequest(WriterPayload(topic, id)) == Some(TextRequest(id, JStr(topic), JObj(map["topic" := JStr(topic)])))
    ensures var req := ParseRequest(WriterPayload(topic, id)).value;
      && req.id == id && req.methodName == TasksSend
      && ExtractText(req.params) == Ok(JStr(topic))
      && TaskParams(req.params) == JObj(map["topic" := JStr(topic)])
  {
    ParseRequestAcceptsEnvelope(TextRequest(id, JStr(topic), JObj(map["topic" := JStr(topic)])), map[]);
    TextRequestText(id, JStr(topic), JObj(map["topic" := JStr(topic)]));
  }

  /** What the translator's handler sees: exactly the generator's text, from
      "en" to the selected language. */
  lemma TranslatorPayloadAsSeenByAgent(engText: Json, targetLang: string, id: string)
    ensures ParseRequest(TranslatorPayload(engText, targetLang, id))
            == Some(TextRequest(id, engText, JObj(map["source_lang" := JStr("en"), "target_lang" := JStr(targetLang)])))
    ensures var req := ParseRequest(TranslatorPayload(engText, targetLang, id)).value;
      && req.id == id && req.methodName == TasksSend
      && ExtractText(req.params) == Ok(engText)
      && TaskParams(req.params) == JObj(map["source_lang" := JStr("en"), "target_lang" := JStr(targetLang)])
  {
    var task := JObj(map["source_lang" := JStr("en"), "target_lang" := JStr(targetLang)]);
    ParseRequestAcceptsEnvelope(TextRequest(id, engText, task), map[]);
    TextRequestText(id, engText, task);
  }
}
