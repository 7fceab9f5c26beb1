/** The translator agent's `/run` handler (translator_agent/main.py): method
    check, `source_lang`/`target_lang` defaults, text extraction, blank-text
    check through `str.strip()`, configuration check, one backend call, and
    the response envelope. */
module TranslatorAgent {
  import opened PyJson
  import opened PyText
  import opened A2A

  const DefaultSourceLang: Json := JStr("en")
  const DefaultTargetLang: Json := JStr("fr")
  const NoTextMessage := "No text provided for translation."
  const ConfigMessage := "Invalid service configuration"
  const FailurePrefix := "Translation failed: "

  /** The fixed system message. */
  const SystemPrompt: Prompt := [Lit("You are a translation assistant.")]

  /** The user message: `f"Translate the following text from {source_lang} to {target_lang}:\n{text_to_translate}"`. */
  function TranslatePrompt(source: Json, target: Json, text: string): Prompt
  {
    [Lit("Translate the following text from "), Val(source), Lit(" to "), Val(target),
     Lit(":\n"), Val(JStr(text))]
  }

  /** Everything the handler does before the backend call. Unlike the blog
      generator it reads `params.task` before the message, and it calls
      `.strip()` on the extracted text, which raises unless that text is a str. */
  function Prepare(req: Request, config: Config): Plan
  {
    if req.methodName != TasksSend then
      Respond(ErrorReply(req.id, MethodNotFound, MethodNotFoundMessage))
    else
      var task := TaskParams(req.params);
      match (Get(task, "source_lang", DefaultSourceLang), Get(task, "target_lang", DefaultTargetLang))
      case (Ok(source), Ok(target)) =>
        (match ExtractText(req.params)
         case Ok(JStr(text)) =>
           if Strip(text) == "" then
             Respond(ErrorReply(req.id, InvalidParams, NoTextMessage))
           else if !ConfigPresent(config) then
             Respond(ErrorReply(req.id, ConfigMissing, ConfigMessage))
           else
             Ask(LlmCall(config.endpoint.value, config.token.value, config.model.value,
                         SystemPrompt, TranslatePrompt(source, target, text), MaxTokens))
         case _ => Respond(InternalError))
      case _ => Respond(InternalError)
  }

  /** `run_handler`, with the completion backend as a parameter. */
  function RunHandler(req: Request, config: Config, llm: LlmCall -> LlmOutcome): (r: Response)
    ensures r.Reply? ==> r.jsonrpc == "2.0" && r.id == req.id
    ensures req.methodName != TasksSend ==> r == ErrorReply(req.id, MethodNotFound, MethodNotFoundMessage)
    ensures r.Reply? && r.body.Result? ==>
      && r.body.state == "completed"
      && |r.body.artifacts| == 1
      && r.body.artifacts[0].mimeType == "text/markdown"
      && Prepare(req, config).Ask?
      && llm(Prepare(req, config).call) == Completion(r.body.artifacts[0].text)
  {
    Perform(req.id, Prepare(req, config), llm, FailurePrefix)
  }

  /** Text that is empty or all whitespace is rejected with -32602 before the
      configuration or the backend are looked at; any other text passes. */
  lemma BlankTextRejected(req: Request, config: Config, text: string)
    requires req.methodName == TasksSend && TaskParams(req.params).JObj?
    requires ExtractText(req.params) == Ok(JStr(text))
    ensures Prepare(req, config) == Respond(ErrorReply(req.id, InvalidParams, NoTextMessage))
            <==> IsBlank(text)
  {
    StripEmptyIffBlank(text);
  }

  /** With usable text and configuration the backend is asked once, with the
      fixed system message and the languages read from `params.task` or
      defaulted to "en" and "fr". */
  lemma BackendCallCarriesText(req: Request, config: Config, text: string)
    requires req.methodName == TasksSend && TaskParams(req.params).JObj?
    requires ExtractText(req.params) == Ok(JStr(text)) && !IsBlank(text) && ConfigPresent(config)
    ensures var task := TaskParams(req.params).fields;
      var source := if "source_lang" in task then task["source_lang"] else DefaultSourceLang;
      var target := if "target_lang" in task then task["target_lang"] else DefaultTargetLang;
      Prepare(req, config) == Ask(LlmCall(config.endpoint.value, config.token.value, config.model.value,
                                          SystemPrompt, TranslatePrompt(source, target, text), MaxTokens))
  {
    StripEmptyIffBlank(text);
  }

  /** The user message rendered, for str languages. */
  lemma TranslatePromptText(source: string, target: string, text: string)
    ensures AllText(TranslatePrompt(JStr(source), JStr(target), text))
    ensures Rendered(TranslatePrompt(JStr(source), JStr(target), text))
            == "Translate the following text from " + source + " to " + target + ":\n" + text
  {
    var p := TranslatePrompt(JStr(source), JStr(target), text);
    assert Rendered(p[5..]) == text;
    assert Rendered(p[4..]) == ":\n" + text;
    assert Rendered(p[3..]) == target + ":\n" + text;
    assert Rendered(p[2..]) == " to " + target + ":\n" + text;
    assert Rendered(p[1..]) == source + " to " + target + ":\n" + text;
  }

  /** Missing or empty configuration gives -32001 and the backend is not
      called, whatever it would have answered. */
  lemma MissingConfigNoBackendCall(req: Request, config: Config, text: string)
    requires req.methodName == TasksSend && TaskParams(req.params).JObj?
    requires ExtractText(req.params) == Ok(JStr(text)) && !IsBlank(text) && !ConfigPresent(config)
    ensures Prepare(req, config) == Respond(ErrorReply(req.id, ConfigMissing, ConfigMessage))
    ensures forall llm :: RunHandler(req, config, llm) == ErrorReply(req.id, ConfigMissing, ConfigMessage)
  {
    StripEmptyIffBlank(text);
  }

  /** The backend's text becomes the single markdown artifact; its failure
      becomes -32000 with the exception's message after "Translation failed: ". */
  lemma BackendOutcomeReported(req: Request, config: Config, llm: LlmCall -> LlmOutcome)
    requires Prepare(req, config).Ask?
    ensures var call := Prepare(req, config).call;
      RunHandler(req, config, llm) == match llm(call)
        case Completion(text) => CompletedReply(req.id, text)
        case CallFailed(detail) => ErrorReply(req.id, BackendFailed, FailurePrefix + detail)
  {
  }

  /** The handler raises (and the framework answers HTTP 500) exactly when
      `task` is not a dict, when the message or its parts have the wrong
      shape, or when the extracted text is not a str. */
  lemma RaisesExactlyWhen(req: Request, config: Config, llm: LlmCall -> LlmOutcome)
    ensures RunHandler(req, config, llm) == InternalError <==>
      && req.methodName == TasksSend
      && (|| !TaskParams(req.params).JObj?
          || ExtractText(req.params).Raised?
          || !ExtractText(req.params).value.JStr?)
  {
  }
}
