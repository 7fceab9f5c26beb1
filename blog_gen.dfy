/** The blog generator agent's `/run` handler (blog_gen.py/main.py): method
    check, text extraction, falsy-prompt check, `length`/`style` defaults,
    configuration check, one backend call, and the response envelope. */
module BlogGen {
  import opened PyJson
  import opened A2A

  const DefaultLength: Json := JStr("medium")
  const DefaultStyle: Json := JStr("formal")
  const NoTextMessage := "No valid text part found in message"
  const ConfigMessage := "Missing environment configuration"
  const FailurePrefix := "LLM call failed: "

  /** The system message: `f"You are a {style} blog writer. Create a {length} post about: {blog_prompt}"`. */
  function SystemPrompt(style: Json, length: Json, prompt: Json): Prompt
  {
    [Lit("You are a "), Val(style), Lit(" blog writer. Create a "), Val(length),
     Lit(" post about: "), Val(prompt)]
  }

  /** The fixed user message. */
  const UserPrompt: Prompt := [Lit("Generate a well-structured blog post with headings and sections.")]

  /** Everything the handler does before the backend call. Note the order:
      the prompt is checked before `params.task` is read, and both before the
      configuration. */
  function Prepare(req: Request, config: Config): Plan
  {
    if req.methodName != TasksSend then
      Respond(ErrorReply(req.id, MethodNotFound, MethodNotFoundMessage))
    else match ExtractText(req.params)
      case Raised => Respond(InternalError)
      case Ok(prompt) =>
        if !Truthy(prompt) then
          Respond(ErrorReply(req.id, InvalidParams, NoTextMessage))
        else
          var task := TaskParams(req.params);
          match (Get(task, "length", DefaultLength), Get(task, "style", DefaultStyle))
          case (Ok(length), Ok(style)) =>
            if !ConfigPresent(config) then
              Respond(ErrorReply(req.id, ConfigMissing, ConfigMessage))
            else
              Ask(LlmCall(config.endpoint.value, config.token.value, config.model.value,
                          SystemPrompt(style, length, prompt), UserPrompt, MaxTokens))
          case _ => Respond(InternalError)
  }

  /** `run_handler`, with the completion backend as a parameter. */
  function RunHandler(req: Request, config: Config, llm: LlmCall -> LlmOutcome): (r: Response)
    ensures r.Reply? ==> r.jsonrpc == "2.0" && r.id == req.id
    ensures req.methodName != TasksSend ==> r == ErrorReply(req.id, MethodNotFound, MethodNotFoundMessage)
    ensures r.Reply? && r.body.Result? ==>
      && r.body.state == "completed"
      && |r.body.artifacts| == 1
      && r.body.artifacts[0].mimeType == "text/markdown"
      && Prepare(req, config).Ask?
      && llm(Prepare(req, config).call) == Completion(r.body.artifacts[0].text)
  {
    Perform(req.id, Prepare(req, config), llm, FailurePrefix)
  }

  /** A falsy prompt (missing, "", or no text part at all) is rejected with
      -32602 before the task parameters, the configuration or the backend are
      looked at; any other prompt, a whitespace-only str included, passes. */
  lemma FalsyPromptRejected(req: Request, config: Config, prompt: Json)
    requires req.methodName == TasksSend && ExtractText(req.params) == Ok(prompt)
    ensures Prepare(req, config) == Respond(ErrorReply(req.id, InvalidParams, NoTextMessage))
            <==> !Truthy(prompt)
    ensures prompt.JStr? ==>
      (Prepare(req, config) == Respond(ErrorReply(req.id, InvalidParams, NoTextMessage)) <==> prompt.s == "")
  {
  }

  /** With a usable prompt and configuration the backend is asked once, with
      `length` and `style` read from `params.task` or defaulted to "medium"
      and "formal". */
  lemma BackendCallCarriesPrompt(req: Request, config: Config, prompt: Json)
    requires req.methodName == TasksSend && ExtractText(req.params) == Ok(prompt) && Truthy(prompt)
    requires TaskParams(req.params).JObj? && ConfigPresent(config)
    ensures var task := TaskParams(req.params).fields;
      var length := if "length" in task then task["length"] else DefaultLength;
      var style := if "style" in task then task["style"] else DefaultStyle;
      Prepare(req, config) == Ask(LlmCall(config.endpoint.value, config.token.value, config.model.value,
                                          SystemPrompt(style, length, prompt), UserPrompt, MaxTokens))
  {
  }

  /** The system message rendered, for str values. */
  lemma SystemPromptText(style: string, length: string, prompt: string)
    ensures AllText(SystemPrompt(JStr(style), JStr(length), JStr(prompt)))
    ensures Rendered(SystemPrompt(JStr(style), JStr(length), JStr(prompt)))
            == "You are a " + style + " blog writer. Create a " + length + " post about: " + prompt
  {
    var p := SystemPrompt(JStr(style), JStr(length), JStr(prompt));
    assert Rendered(p[5..]) == prompt;
    assert Rendered(p[4..]) == " post about: " + prompt;
    assert Rendered(p[3..]) == length + " post about: " + prompt;
    assert Rendered(p[2..]) == " blog writer. Create a " + length + " post about: " + prompt;
    assert Rendered(p[1..]) == style + " blog writer. Create a " + length + " post about: " + prompt;
  }

  /** Missing or empty configuration gives -32001 and the backend is not
      called, whatever it would have answered. */
  lemma MissingConfigNoBackendCall(req: Request, config: Config, prompt: Json)
    requires req.methodName == TasksSend && ExtractText(req.params) == Ok(prompt) && Truthy(prompt)
    requires TaskParams(req.params).JObj? && !ConfigPresent(config)
    ensures Prepare(req, config) == Respond(ErrorReply(req.id, ConfigMissing, ConfigMessage))
    ensures forall llm :: RunHandler(req, config, llm) == ErrorReply(req.id, ConfigMissing, ConfigMessage)
  {
  }

  /** The backend's text becomes the single markdown artifact; its failure
      becomes -32000 with the exception's message after "LLM call failed: ". */
  lemma BackendOutcomeReported(req: Request, config: Config, llm: LlmCall -> LlmOutcome)
    requires Prepare(req, config).Ask?
    ensures var call := Prepare(req, config).call;
      RunHandler(req, config, llm) == match llm(call)
        case Completion(text) => CompletedReply(req.id, text)
        case CallFailed(detail) => ErrorReply(req.id, BackendFailed, FailurePrefix + detail)
  {
  }

  /** The handler raises (and the framework answers HTTP 500) exactly when
      the message or its parts have the wrong shape, or when a usable prompt
      comes with a `task` that is not a dict. */
  lemma RaisesExactlyWhen(req: Request, config: Config, llm: LlmCall -> LlmOutcome)
    ensures RunHandler(req, config, llm) == InternalError <==>
      && req.methodName == TasksSend
      && (|| ExtractText(req.params).Raised?
          || (Truthy(ExtractText(req.params).value) && !TaskParams(req.params).JObj?))
  {
  }
}
