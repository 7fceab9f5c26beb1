/** The two agents behind their web endpoints: envelope validation by the
    framework, then the role's `run_handler`, then the response on the wire. */
module Agents {
  import opened PyJson
  import opened A2A
  import BlogGen
  import TranslatorAgent
  import PyText

  datatype Role = Generator | Translator

  function Handle(role: Role, req: Request, config: Config, llm: LlmCall -> LlmOutcome): Response
  {
    match role
    case Generator => BlogGen.RunHandler(req, config, llm)
    case Translator => TranslatorAgent.RunHandler(req, config, llm)
  }

  /** `POST /run`: an envelope that fails validation is answered by the
      framework (HTTP 422) without running the handler, so it never reaches
      the backend. */
  function Serve(role: Role, config: Config, llm: LlmCall -> LlmOutcome, body: Json): (reply: HttpReply)
    ensures ParseRequest(body).None? ==> reply == JsonBody(ValidationError)
    ensures ParseRequest(body).Some? && reply.JsonBody? ==>
      && reply.body.JObj?
      && "jsonrpc" in reply.body.fields && reply.body.fields["jsonrpc"] == JStr("2.0")
      && "id" in reply.body.fields && reply.body.fields["id"] == body.fields["id"]
      && ("error" in reply.body.fields <==> "result" !in reply.body.fields)
  {
    match ParseRequest(body)
    case None => JsonBody(ValidationError)
    case Some(req) => Wire(Handle(role, req, config, llm))
  }

  /** An envelope that fails validation gets the framework's answer, the same
      whichever agent, configuration or backend is behind the endpoint. */
  lemma MalformedEnvelopeNeverReachesHandler(body: Json, role: Role, config: Config, llm: LlmCall -> LlmOutcome,
                                             role': Role, config': Config, llm': LlmCall -> LlmOutcome)
    requires ParseRequest(body).None?
    ensures Serve(role, config, llm, body) == Serve(role', config', llm', body) == JsonBody(ValidationError)
  {
  }

  /** A non-empty, whitespace-only text passes the blog generator's falsiness
      test but not the translator's `strip()` test. */
  lemma RolesDifferOnWhitespace(id: string, config: Config, t: string)
    requires ConfigPresent(config)
    requires t != "" && PyText.IsBlank(t)
    ensures BlogGen.Prepare(TextRequest(id, JStr(t), EmptyObj), config).Ask?
    ensures TranslatorAgent.Prepare(TextRequest(id, JStr(t), EmptyObj), config)
            == Respond(ErrorReply(id, InvalidParams, TranslatorAgent.NoTextMessage))
  {
    TextRequestText(id, JStr(t), EmptyObj);
    PyText.StripEmptyIffBlank(t);
  }

  /** With a falsy text and a `task` that is not a dict, the blog generator
      answers -32602 (it never reads `task`), while the translator, which reads
      `task` first, raises. */
  lemma RolesDifferOnCheckOrder(req: Request, prompt: Json, config: Config, llm: LlmCall -> LlmOutcome)
    requires req.methodName == TasksSend
    requires ExtractText(req.params) == Ok(prompt) && !Truthy(prompt)
    requires !TaskParams(req.params).JObj?
    ensures Handle(Generator, req, config, llm) == ErrorReply(req.id, InvalidParams, BlogGen.NoTextMessage)
    ensures Handle(Translator, req, config, llm) == InternalError
  {
  }
}
