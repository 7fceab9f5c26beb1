/** The task protocol shared by both agents: the request envelope, the
    backend configuration, the single call an agent makes to the completion
    backend, the response envelope with its error codes, and the scan that
    picks the text out of `params.message.parts`. */
module A2A {
  import opened PyJson

  /** The only method an agent serves. */
  const TasksSend := "tasks/send"

  /** Error codes from section 5.1 of the JSON-RPC 2.0 Specification; the last
      two lie in its implementation-defined server-error range. */
  const MethodNotFound: int := -32601
  const InvalidParams: int := -32602
  const BackendFailed: int := -32000
  const ConfigMissing: int := -32001

  const MethodNotFoundMessage := "Method not found"

  /** An envelope that passed validation: `jsonrpc` is the literal "2.0", `id`
      and `method` are strings and `params` is a dict of arbitrary JSON. */
  datatype Request = Request(jsonrpc: string, id: string, methodName: string, params: map<string, Json>)

  /** The four members of an envelope as a client writes them. */
  function RequestFields(req: Request): map<string, Json>
  {
    map["jsonrpc" := JStr(req.jsonrpc), "id" := JStr(req.id), "method" := JStr(req.methodName),
        "params" := JObj(req.params)]
  }

  function RequestJson(req: Request): Json
  {
    JObj(RequestFields(req))
  }

  /** The envelope validation the web framework performs before the handler
      runs; extra top-level fields are ignored. An accepted body holds the
      four members of the request it yields, unchanged. */
  function ParseRequest(body: Json): (r: Option<Request>)
    ensures r.Some? ==> r.value.jsonrpc == "2.0" && body.JObj?
    ensures r.Some? ==>
      && "id" in body.fields && body.fields["id"] == JStr(r.value.id)
      && "method" in body.fields && body.fields["method"] == JStr(r.value.methodName)
      && "params" in body.fields && body.fields["params"] == JObj(r.value.params)
    ensures r.Some? ==> body == JObj(body.fields + RequestFields(r.value))
  {
    match body
    case JObj(f) =>
      if && "jsonrpc" in f && f["jsonrpc"] == JStr("2.0")
         && "id" in f && f["id"].JStr?
         && "method" in f && f["method"].JStr?
         && "params" in f && f["params"].JObj?
      then Some(Request("2.0", f["id"].s, f["method"].s, f["params"].fields))
      else None
    case _ => None
  }

  /** Every envelope with `jsonrpc` "2.0" is accepted and yields exactly the
      request it was written from, whatever other members the body carries. */
  lemma ParseRequestAcceptsEnvelope(req: Request, extra: map<string, Json>)
    requires req.jsonrpc == "2.0"
    ensures ParseRequest(JObj(extra + RequestFields(req))) == Some(req)
    ensures ParseRequest(RequestJson(req)) == Some(req)
  {
    assert map[] + RequestFields(req) == RequestFields(req);
  }

  /** A user message with one text part. */
  function TextMessage(text: Json): Json
  {
    JObj(map["role" := JStr("user"),
             "parts" := JArr([JObj(map["type" := JStr("text"), "text" := text])])])
  }

  /** A `tasks/send` request whose message has a single text part, with the
      given free-form `task` and empty `metadata`. */
  function TextRequest(id: string, text: Json, task: Json): Request
  {
    Request("2.0", id, TasksSend, map["task" := task, "message" := TextMessage(text), "metadata" := EmptyObj])
  }

  /** The three environment variables an agent reads: endpoint, deployment
      name and key; each may be unset. */
  datatype Config = Config(endpoint: Option<string>, model: Option<string>, token: Option<string>)

  /** An environment variable counts only when it is set and not empty. */
  predicate Present(v: Option<string>)
  {
    v.Some? && v.value != ""
  }

  predicate ConfigPresent(c: Config)
  {
    Present(c.endpoint) && Present(c.model) && Present(c.token)
  }

  /** A message built by an f-string: literal pieces and interpolated values.
      The backend receives the values rendered with Python's `str()`. */
  datatype Segment = Lit(text: string) | Val(value: Json)
  type Prompt = seq<Segment>

  predicate AllText(p: Prompt)
  {
    forall i :: 0 <= i < |p| ==> p[i].Lit? || p[i].value.JStr?
  }

  /** The rendered message when every interpolated value is a str. */
  function Rendered(p: Prompt): string
    requires AllText(p)
  {
    if p == [] then ""
    else (if p[0].Lit? then p[0].text else p[0].value.s) + Rendered(p[1..])
  }

  /** Upper bound on generated tokens that both agents ask for. */
  const MaxTokens: nat := 1500

  /** The one call an agent makes to the chat-completion backend. */
  datatype LlmCall = LlmCall(endpoint: string, token: string, model: string,
                             system: Prompt, user: Prompt, maxTokens: nat)

  /** What the backend call gives back: the completion text, or the message of
      whatever exception the call raised. */
  datatype LlmOutcome = Completion(text: string) | CallFailed(detail: string)

  datatype Artifact = Artifact(mimeType: string, text: string)

  /** The `error` member or the `result` member of a response; never both. */
  datatype Body =
    | Error(code: int, message: string)
    | Result(state: string, artifacts: seq<Artifact>)

  /** What an agent answers: a JSON-RPC response, or the framework's HTTP 500
      when the handler raised an exception it does not catch. */
  datatype Response =
    | Reply(jsonrpc: string, id: string, body: Body)
    | InternalError

  function ErrorReply(id: string, code: int, message: string): Response
  {
    Reply("2.0", id, Error(code, message))
  }

  function CompletedReply(id: string, text: string): Response
  {
    Reply("2.0", id, Result("completed", [Artifact("text/markdown", text)]))
  }

  /** How far a handler gets without the backend: it either answers on its own,
      or needs exactly one backend call to finish. */
  datatype Plan = Respond(response: Response) | Ask(call: LlmCall)

  /** The last step of both handlers: wrap the backend's text as the single
      artifact, or report its failure under code -32000. */
  function Finish(id: string, outcome: LlmOutcome, failurePrefix: string): (r: Response)
    ensures r.Reply? && r.jsonrpc == "2.0" && r.id == id
    ensures outcome.Completion? <==> r.body.Result?
    ensures r.body.Result? ==>
      (r.body.state == "completed" && r.body.artifacts == [Artifact("text/markdown", outcome.text)])
    ensures r.body.Error? ==> r.body.code == BackendFailed && r.body.message == failurePrefix + outcome.detail
  {
    match outcome
    case Completion(text) => CompletedReply(id, text)
    case CallFailed(detail) => ErrorReply(id, BackendFailed, failurePrefix + detail)
  }

  /** Runs a plan against the backend. */
  function Perform(id: string, plan: Plan, llm: LlmCall -> LlmOutcome, failurePrefix: string): Response
  {
    match plan
    case Respond(r) => r
    case Ask(call) => Finish(id, llm(call), failurePrefix)
  }

  /** `part.get("type") == "text"` on a dict. */
  predicate IsTextPart(part: Json)
  {
    part.JObj? && "type" in part.fields && part.fields["type"] == JStr("text")
  }

  /** A dict that the scan passes over. */
  predicate IsOtherPart(part: Json)
  {
    part.JObj? && !IsTextPart(part)
  }

  /** `part.get("text", "")`. */
  function TextField(part: Json): Json
    requires part.JObj?
  {
    if "text" in part.fields then part.fields["text"] else JStr("")
  }

  /** The loop over the parts: the `text` of the first part whose `type` is
      "text", else "". `part.get` raises on a part that is not a dict. */
  function ScanParts(parts: seq<Json>): Py<Json>
  {
    if parts == [] then Ok(JStr(""))
    else if !parts[0].JObj? then Raised
    else if IsTextPart(parts[0]) then Ok(TextField(parts[0]))
    else ScanParts(parts[1..])
  }

  /** The same loop written as the source writes it: a variable that starts as
      "" and is overwritten by the first text part, followed by a `break`. */
  method ScanPartsLoop(parts: seq<Json>) returns (r: Py<Json>)
    ensures r == ScanParts(parts)
  {
    var text := JStr("");
    var i := 0;
    while i < |parts|
      invariant 0 <= i <= |parts|
      invariant ScanParts(parts[i..]) == ScanParts(parts)
      invariant text == JStr("")
    {
      var part := parts[i];
      assert parts[i..][0] == part && parts[i..][1..] == parts[i + 1..];
      if !part.JObj? {
        return Raised;
      }
      if Get(part, "type", JNull) == Ok(JStr("text")) {
        text := TextField(part);
        break;
      }
      i := i + 1;
    }
    return Ok(text);
  }

  /** The one-character strings that iterating over a str yields. */
  function Chars(s: string): seq<Json>
  {
    seq(|s|, i requires 0 <= i < |s| => JStr([s[i]]))
  }

  /** `for part in parts` over whatever `message.get("parts", [])` returned: a
      list yields its items, a str its characters (none of which has `get`),
      a dict its keys (all str, so the first one raises); anything else is
      not iterable. */
  function TextOfParts(parts: Json): Py<Json>
  {
    match parts
    case JArr(items) => ScanParts(items)
    case JStr(s) => ScanParts(Chars(s))
    case JObj(fields) => if fields == map[] then Ok(JStr("")) else Raised
    case _ => Raised
  }

  /** `params.get("task", {})`: the free-form task parameters. */
  function TaskParams(params: map<string, Json>): Json
  {
    if "task" in params then params["task"] else EmptyObj
  }

  /** `params.get("message", {}).get("parts", [])`, then the part scan. */
  function ExtractText(params: map<string, Json>): Py<Json>
  {
    var message := if "message" in params then params["message"] else EmptyObj;
    match Get(message, "parts", JArr([]))
    case Raised => Raised
    case Ok(parts) => TextOfParts(parts)
  }

  /** The `text` of the first text part is taken, whatever it holds (missing,
      empty or not a str), and every later part is ignored. */
  lemma {:induction false} ScanFirstTextPartWins(prefix: seq<Json>, part: Json, rest: seq<Json>)
    requires forall j :: 0 <= j < |prefix| ==> IsOtherPart(prefix[j])
    requires IsTextPart(part)
    ensures ScanParts(prefix + [part] + rest) == Ok(TextField(part))
  {
    var all := prefix + [part] + rest;
    if prefix == [] {
      assert all[0] == part;
    } else {
      assert all[0] == prefix[0];
      assert all[1..] == prefix[1..] + [part] + rest;
      ScanFirstTextPartWins(prefix[1..], part, rest);
    }
  }

  /** A part that is not a dict, met before any text part, makes the loop raise. */
  lemma {:induction false} ScanRaisesOnNonDict(prefix: seq<Json>, part: Json, rest: seq<Json>)
    requires forall j :: 0 <= j < |prefix| ==> IsOtherPart(prefix[j])
    requires !part.JObj?
    ensures ScanParts(prefix + [part] + rest) == Raised
  {
    var all := prefix + [part] + rest;
    if prefix == [] {
      assert all[0] == part;
    } else {
      assert all[0] == prefix[0];
      assert all[1..] == prefix[1..] + [part] + rest;
      ScanRaisesOnNonDict(prefix[1..], part, rest);
    }
  }

  /** Without any text part the text stays "". */
  lemma {:induction false} ScanWithoutTextPart(parts: seq<Json>)
    requires forall j :: 0 <= j < |parts| ==> IsOtherPart(parts[j])
    ensures ScanParts(parts) == Ok(JStr(""))
  {
    if parts != [] {
      ScanWithoutTextPart(parts[1..]);
    }
  }

  /** The single text part of such a request is what both handlers extract. */
  lemma TextRequestText(id: string, text: Json, task: Json)
    ensures ExtractText(TextRequest(id, text, task).params) == Ok(text)
  {
    var part := JObj(map["type" := JStr("text"), "text" := text]);
    ScanFirstTextPartWins([], part, []);
    assert [] + [part] + [] == [part];
  }

  /** A response as the framework puts it on the wire. */
  datatype HttpReply = JsonBody(body: Json) | NotJson

  function ArtifactJson(a: Artifact): Json
  {
    JObj(map["mimeType" := JStr(a.mimeType), "data" := JObj(map["text" := JStr(a.text)])])
  }

  /** The response dict serialised as JSON. The HTTP 500 page is plain text,
      which a client cannot decode as JSON. */
  function Wire(r: Response): HttpReply
  {
    match r
    case InternalError => NotJson
    case Reply(jsonrpc, id, body) =>
      var payload := match body
        case Error(code, message) =>
          ("error", JObj(map["code" := JInt(code), "message" := JStr(message)]))
        case Result(state, artifacts) =>
          ("result", JObj(map["status" := JObj(map["state" := JStr(state)]),
                              "artifacts" := JArr(seq(|artifacts|, i requires 0 <= i < |artifacts| => ArtifactJson(artifacts[i])))]));
      JsonBody(JObj(map["jsonrpc" := JStr(jsonrpc), "id" := JStr(id), payload.0 := payload.1]))
  }

  /** The framework's answer (HTTP 422) to an envelope that fails validation.
      The list of individual validation errors it carries is not modelled. */
  const ValidationError: Json := JObj(map["detail" := JArr([])])

  /** On the wire every response carries "jsonrpc" and the request id, and
      exactly one of "error" and "result". */
  lemma WireHasOneOfErrorAndResult(r: Response)
    requires r.Reply?
    ensures Wire(r).JsonBody? && Wire(r).body.JObj?
    ensures var f := Wire(r).body.fields;
      && "jsonrpc" in f && f["jsonrpc"] == JStr(r.jsonrpc)
      && "id" in f && f["id"] == JStr(r.id)
      && ("error" in f <==> "result" !in f)
      && ("error" in f <==> r.body.Error?)
  {
  }
}
