/** The orchestrator run against the two agent models: what reaches each
    backend, and how each agent outcome shows up at the end of the script. */
module Composition {
  import opened PyJson
  import opened PyText
  import opened A2A
  import opened Agents
  import opened Hosting
  import BlogGen
  import TranslatorAgent

  /** The generator at the writer URL and the translator at the translator
      URL, each with its own configuration and backend; nothing listens
      anywhere else. */
  function Deployment(genConfig: Config, genLlm: LlmCall -> LlmOutcome,
                      trConfig: Config, trLlm: LlmCall -> LlmOutcome): (string, Json) -> HttpReply
  {
    (url: string, body: Json) =>
      if url == WriterRun then Serve(Generator, genConfig, genLlm, body)
      else if url == TranslatorRun then Serve(Translator, trConfig, trLlm, body)
      else NotJson
  }

  /** The backend call the generator makes for an orchestrated topic. */
  function GeneratorCall(config: Config, topic: string): LlmCall
    requires ConfigPresent(config)
  {
    LlmCall(config.endpoint.value, config.token.value, config.model.value,
            BlogGen.SystemPrompt(BlogGen.DefaultStyle, BlogGen.DefaultLength, JStr(topic)),
            BlogGen.UserPrompt, MaxTokens)
  }

  /** The backend call the translator makes for the generator's text. */
  function TranslatorCall(config: Config, engText: string, targetLang: string): LlmCall
    requires ConfigPresent(config)
  {
    LlmCall(config.endpoint.value, config.token.value, config.model.value,
            TranslatorAgent.SystemPrompt,
            TranslatorAgent.TranslatePrompt(JStr("en"), JStr(targetLang), engText), MaxTokens)
  }

  /** The script reads an agent's error message or its first artifact's text
      straight back from the wire, and crashes on the HTTP 500 page. */
  lemma ReadAgentReply(r: Response)
    ensures ReadReply(Wire(r)) == match r
      case InternalError => ReadRaised
      case Reply(_, _, Error(_, message)) => AgentFailed(JStr(message))
      case Reply(_, _, Result(_, artifacts)) =>
        if artifacts == [] then Unparsed else Produced(JStr(artifacts[0].text))
  {
    if r.Reply? && r.body.Result? {
      var arts := r.body.artifacts;
      var items := seq(|arts|, i requires 0 <= i < |arts| => ArtifactJson(arts[i]));
      var result := JObj(map["status" := JObj(map["state" := JStr(r.body.state)]), "artifacts" := JArr(items)]);
      var resp := JObj(map["jsonrpc" := JStr(r.jsonrpc), "id" := JStr(r.id), "result" := result]);
      assert Wire(r) == JsonBody(resp);
      var p := ArtifactTextPath;
      assert Path(resp, p) == Path(result, p[1..]);
      assert Path(result, p[1..]) == Path(JArr(items), p[1..][1..]);
      if arts != [] {
        assert items[0] == ArtifactJson(arts[0]);
        assert Path(JArr(items), p[1..][1..]) == Path(ArtifactJson(arts[0]), p[1..][1..][1..]);
      }
    }
  }

  /** The orchestrator's `task` carries only `topic`, so generation it drives
      always uses the default "formal" style and "medium" length, with the
      topic as the prompt. */
  lemma OrchestratedGenerationUsesDefaults(topic: string, id: string, config: Config)
    requires topic != ""
    ensures ParseRequest(WriterPayload(topic, id)).Some?
    ensures BlogGen.Prepare(ParseRequest(WriterPayload(topic, id)).value, config)
            == if ConfigPresent(config) then Ask(GeneratorCall(config, topic))
               else Respond(ErrorReply(id, ConfigMissing, BlogGen.ConfigMessage))
  {
    WriterPayloadAsSeenByAgent(topic, id);
  }

  /** The translator is asked to translate exactly the generator's text from
      "en" to the selected language, unless that text is blank. */
  lemma TranslationOfGeneratedText(engText: string, targetLang: string, id: string, config: Config)
    ensures ParseRequest(TranslatorPayload(JStr(engText), targetLang, id)).Some?
    ensures TranslatorAgent.Prepare(ParseRequest(TranslatorPayload(JStr(engText), targetLang, id)).value, config)
            == if IsBlank(engText) then Respond(ErrorReply(id, InvalidParams, TranslatorAgent.NoTextMessage))
               else if ConfigPresent(config) then Ask(TranslatorCall(config, engText, targetLang))
               else Respond(ErrorReply(id, ConfigMissing, TranslatorAgent.ConfigMessage))
  {
    TranslatorPayloadAsSeenByAgent(JStr(engText), targetLang, id);
    StripEmptyIffBlank(engText);
  }

  /** What the script reads back from the generator stage. */
  lemma WriterStageReading(topic: string, blogId: string,
                           genConfig: Config, genLlm: LlmCall -> LlmOutcome,
                           trConfig: Config, trLlm: LlmCall -> LlmOutcome)
    requires topic != ""
    ensures ReadReply(Deployment(genConfig, genLlm, trConfig, trLlm)(WriterRun, WriterPayload(topic, blogId)))
            == if !ConfigPresent(genConfig) then AgentFailed(JStr(BlogGen.ConfigMessage))
               else match genLlm(GeneratorCall(genConfig, topic))
                 case Completion(text) => Produced(JStr(text))
                 case CallFailed(detail) => AgentFailed(JStr(BlogGen.FailurePrefix + detail))
  {
    var req := ParseRequest(WriterPayload(topic, blogId)).value;
    OrchestratedGenerationUsesDefaults(topic, blogId, genConfig);
    var r := BlogGen.RunHandler(req, genConfig, genLlm);
    assert Deployment(genConfig, genLlm, trConfig, trLlm)(WriterRun, WriterPayload(topic, blogId)) == Wire(r);
    ReadAgentReply(r);
  }

  /** What the script reads back from the translator stage. */
  lemma TranslatorStageReading(engText: string, targetLang: string, transId: string,
                               genConfig: Config, genLlm: LlmCall -> LlmOutcome,
                               trConfig: Config, trLlm: LlmCall -> LlmOutcome)
    ensures ReadReply(Deployment(genConfig, genLlm, trConfig, trLlm)(TranslatorRun, TranslatorPayload(JStr(engText), targetLang, transId)))
            == if IsBlank(engText) then AgentFailed(JStr(TranslatorAgent.NoTextMessage))
               else if !ConfigPresent(trConfig) then AgentFailed(JStr(TranslatorAgent.ConfigMessage))
               else match trLlm(TranslatorCall(trConfig, engText, targetLang))
                 case Completion(text) => Produced(JStr(text))
                 case CallFailed(detail) => AgentFailed(JStr(TranslatorAgent.FailurePrefix + detail))
  {
    var body := TranslatorPayload(JStr(engText), targetLang, transId);
    var req := ParseRequest(body).value;
    TranslationOfGeneratedText(engText, targetLang, transId, trConfig);
    var r := TranslatorAgent.RunHandler(req, trConfig, trLlm);
    assert Deployment(genConfig, genLlm, trConfig, trLlm)(TranslatorRun, body) == Wire(r);
    ReadAgentReply(r);
  }

  /** Both stages succeed: the script shows the generator's text and the
      translation of exactly that text. */
  lemma EndToEnd(form: Form, blogId: string, transId: string,
                 genConfig: Config, genLlm: LlmCall -> LlmOutcome,
                 trConfig: Config, trLlm: LlmCall -> LlmOutcome,
                 engText: string, translated: string)
    requires form.languageIndex < |TargetLanguages| && form.submit && form.topic != ""
    requires ConfigPresent(genConfig) && ConfigPresent(trConfig)
    requires genLlm(GeneratorCall(genConfig, form.topic)) == Completion(engText)
    requires !IsBlank(engText)
    requires trLlm(TranslatorCall(trConfig, engText, TargetLanguage(form))) == Completion(translated)
    ensures Pipeline(form, blogId, transId, Deployment(genConfig, genLlm, trConfig, trLlm))
            == Run([Call(WriterRun, WriterPayload(form.topic, blogId)),
                    Call(TranslatorRun, TranslatorPayload(JStr(engText), TargetLanguage(form), transId))],
                   Done(JStr(engText), JStr(translated)))
  {
    WriterStageReading(form.topic, blogId, genConfig, genLlm, trConfig, trLlm);
    TranslatorStageReading(engText, TargetLanguage(form), transId, genConfig, genLlm, trConfig, trLlm);
  }

  /** A generator without configuration stops the script at the first stage
      with its -32001 message; the translator is never called. */
  lemma UnconfiguredGeneratorHalts(form: Form, blogId: string, transId: string,
                                   genConfig: Config, genLlm: LlmCall -> LlmOutcome,
                                   trConfig: Config, trLlm: LlmCall -> LlmOutcome)
    requires form.languageIndex < |TargetLanguages| && form.submit && form.topic != ""
    requires !ConfigPresent(genConfig)
    ensures Pipeline(form, blogId, transId, Deployment(genConfig, genLlm, trConfig, trLlm))
            == Run([Call(WriterRun, WriterPayload(form.topic, blogId))],
                   Halted(Writing, AgentError(JStr(BlogGen.ConfigMessage))))
  {
    WriterStageReading(form.topic, blogId, genConfig, genLlm, trConfig, trLlm);
  }

  /** A failing generator backend stops the script at the first stage with
      "LLM call failed: " and the failure's message. */
  lemma GeneratorBackendFailureHalts(form: Form, blogId: string, transId: string,
                                     genConfig: Config, genLlm: LlmCall -> LlmOutcome,
                                     trConfig: Config, trLlm: LlmCall -> LlmOutcome, detail: string)
    requires form.languageIndex < |TargetLanguages| && form.submit && form.topic != ""
    requires ConfigPresent(genConfig) && genLlm(GeneratorCall(genConfig, form.topic)) == CallFailed(detail)
    ensures Pipeline(form, blogId, transId, Deployment(genConfig, genLlm, trConfig, trLlm))
            == Run([Call(WriterRun, WriterPayload(form.topic, blogId))],
                   Halted(Writing, AgentError(JStr(BlogGen.FailurePrefix + detail))))
  {
    WriterStageReading(form.topic, blogId, genConfig, genLlm, trConfig, trLlm);
  }

  /** Generated text that is blank (which the generator itself accepts) is
      refused by the translator: the script stops at the second stage, with
      the English text already shown. */
  lemma BlankGeneratedTextHaltsAtTranslator(form: Form, blogId: string, transId: string,
                                           genConfig: Config, genLlm: LlmCall -> LlmOutcome,
                                           trConfig: Config, trLlm: LlmCall -> LlmOutcome, engText: string)
    requires form.languageIndex < |TargetLanguages| && form.submit && form.topic != ""
    requires ConfigPresent(genConfig) && genLlm(GeneratorCall(genConfig, form.topic)) == Completion(engText)
    requires IsBlank(engText)
    ensures Pipeline(form, blogId, transId, Deployment(genConfig, genLlm, trConfig, trLlm)).outcome
            == Halted(Translating(JStr(engText)), AgentError(JStr(TranslatorAgent.NoTextMessage)))
  {
    WriterStageReading(form.topic, blogId, genConfig, genLlm, trConfig, trLlm);
    TranslatorStageReading(engText, TargetLanguage(form), transId, genConfig, genLlm, trConfig, trLlm);
  }
}
