/** The agents with optional MCP routing. When `USE_MCP` is "true" and
    the client can connect, planning, code generation and healing go
    through the client's tools; otherwise they ask the AI engine
    directly with the same prompt. */
module AgentsMcp {
  import opened Wrappers
  import opened Text
  import opened JsValues
  import opened Fences
  import opened McpServer
  import opened McpClient

  // ---------------------------------------------------------------------
  // The two paths, as functions of the server, the engine and the inputs

  /** The plan request the direct path sends. */
  function PlanRequestFor(description: Json, options: Json): Result<AiRequest> {
    match OptionsField(options, "testType")
    case Err(m) => Err(m)
    case Ok(t) => Ok(PlanRequest(description, Or(t, Str("e2e")), Or(Get(options, "priority"), Str("medium"))))
  }

  function DirectPlan(query: Query, description: Json, options: Json): Result<Option<string>> {
    match PlanRequestFor(description, options)
    case Err(m) => Err(m)
    case Ok(req) => query(req)
  }

  /** The options the MCP path hands the client's plan helper. */
  function PlanOptions(options: Json): Result<Json> {
    match OptionsField(options, "testType")
    case Err(m) => Err(m)
    case Ok(t) => Ok(Obj(map["testType" := Or(t, Str("e2e")), "priority" := Or(Get(options, "priority"), Str("medium"))]))
  }

  /** The plan through the client, once it is connected. */
  function McpPlan(server: Endpoint, description: Json, options: Json): Result<Option<string>> {
    match PlanOptions(options)
    case Err(m) => Err(m)
    case Ok(o) =>
      match PlanArgs(description, o)
      case Err(m) => Err(m)
      case Ok(args) => FirstText(server.call("generate_test_plan", args))
  }

  /** `code.match(...)` on a reply that may be `undefined`. */
  function Reply(reply: Result<Option<string>>): Result<string> {
    match reply
    case Err(m) => Err(m)
    case Ok(None) => Err(UndefinedRead("match"))
    case Ok(Some(t)) => Ok(t)
  }

  /** The code the direct path returns: the strict fence's body, untrimmed,
      or the whole reply. */
  function DirectCode(query: Query, testDescription: Json, options: Json): Result<string> {
    match OptionsField(options, "framework")
    case Err(m) => Err(m)
    case Ok(f) =>
      match Reply(query(CodeRequest(testDescription, Get(options, "url"), Or(f, Str(DefaultFramework)))))
      case Err(m) => Err(m)
      case Ok(response) => Ok(ExtractCode(response))
  }

  function CodeOptions(options: Json): Result<Json> {
    match OptionsField(options, "url")
    case Err(m) => Err(m)
    case Ok(u) => Ok(Obj(map["url" := u, "framework" := Or(Get(options, "framework"), Str(DefaultFramework))]))
  }

  /** The code the MCP path returns: the tool's text, then the lenient
      fence's body trimmed, or the text itself. */
  function McpCode(server: Endpoint, testDescription: Json, options: Json): Result<string> {
    match CodeOptions(options)
    case Err(m) => Err(m)
    case Ok(o) =>
      match CodeArgs(testDescription, o)
      case Err(m) => Err(m)
      case Ok(args) =>
        match Reply(FirstText(server.call("generate_playwright_code", args)))
        case Err(m) => Err(m)
        case Ok(code) => Ok(ExtractCodeTrimmed(code))
  }

  /** `v?.key`: `undefined` for a `null` or `undefined` value. */
  function OptionalGet(v: Json, key: string): Json {
    if v.Undefined? || v.Null? then Undefined else Get(v, key)
  }

  /** What the healer reads from a failure context: the error message
      (`errorMessage`, `error.message`, `error.stack`, then "Unknown
      error"), the stack trace (`stackTrace`, `error.stack`, then ""),
      and the page address (`pageUrl`, then `url`). */
  datatype Failure = Failure(errorMessage: Json, stackTrace: Json, pageUrl: Json)

  function FailureOf(context: Json): (r: Result<Failure>)
    ensures r.Ok? ==> Truthy(r.value.errorMessage)
  {
    match Arg(context, "errorMessage")
    case Err(m) => Err(m)
    case Ok(em) =>
      var err := Get(context, "error");
      Ok(Failure(Or(Or(Or(em, OptionalGet(err, "message")), OptionalGet(err, "stack")), Str("Unknown error")),
                 Or(Or(Get(context, "stackTrace"), OptionalGet(err, "stack")), Str("")),
                 Or(Get(context, "pageUrl"), Get(context, "url"))))
  }

  function DirectHeal(query: Query, context: Json): Result<Option<string>> {
    match FailureOf(context)
    case Err(m) => Err(m)
    case Ok(f) =>
      query(FailureRequest(f.errorMessage, Get(context, "testCode"), f.pageUrl, f.stackTrace,
                           Truthy(Get(context, "screenshot"))))
  }

  /** The context the MCP path hands the client's failure helper. */
  function HealContext(context: Json, f: Failure): Json {
    Obj(map["testCode" := Get(context, "testCode"), "screenshot" := Get(context, "screenshot"),
            "pageUrl" := f.pageUrl, "stackTrace" := f.stackTrace])
  }

  function McpHeal(server: Endpoint, context: Json): Result<Option<string>> {
    match FailureOf(context)
    case Err(m) => Err(m)
    case Ok(f) =>
      match FailureArgs(f.errorMessage, HealContext(context, f))
      case Err(m) => Err(m)
      case Ok(args) => FirstText(server.call("analyze_test_failure", args))
  }

  /** The plan on the chosen path. */
  function Plan(routed: bool, server: Endpoint, query: Query, description: Json, options: Json): Result<Option<string>> {
    if routed then McpPlan(server, description, options) else DirectPlan(query, description, options)
  }

  /** The code on the chosen path. */
  function Code(routed: bool, server: Endpoint, query: Query, testDescription: Json, options: Json): Result<string> {
    if routed then McpCode(server, testDescription, options) else DirectCode(query, testDescription, options)
  }

  /** `getMCPInfo`'s three shapes. */
  datatype McpInfo =
    | Disabled(message: string)
    | Available(info: ServerInfo)
    | Unavailable(error: string)

  const DisabledMessage := "MCP is disabled. Set USE_MCP=true to enable."
  const PageContextRefused := "MCP not enabled. Set USE_MCP=true to use page context analysis"
  const ToolCallRefused := "MCP not enabled. Set USE_MCP=true to use MCP tools"

  /** The result of `planAndGenerate`. */
  datatype PlanAndCode = PlanAndCode(plan: Option<string>, code: string)

  /** The result of `generateRunAndHeal`: the code, and a fixed status. */
  datatype Generated = Generated(code: string, status: string, message: string)

  const GeneratedStatus := "generated"
  const GeneratedMessage := "Test code generated. Run it to trigger healing if needed."

  /** A reply as the JavaScript value handed on: text or `undefined`. */
  function AsJson(t: Option<string>): Json {
    match t
    case Some(s) => Str(s)
    case None => Undefined
  }

  class Agents {
    const useMcp: bool
    const client: Client

    /** MCP routing is on exactly when `USE_MCP` is "true". */
    constructor (env: map<string, string>, client: Client)
      ensures useMcp <==> "USE_MCP" in env && env["USE_MCP"] == "true"
      ensures this.client == client
    {
      useMcp := "USE_MCP" in env && env["USE_MCP"] == "true";
      this.client := client;
    }

    /** Whether the MCP path is taken in the client's current state. */
    predicate Routed(server: Endpoint) reads this, client {
      useMcp && client.Reaches(server)
    }

    /** `isMCPAvailable`: off without asking the client when MCP is
        disabled; otherwise whether the client connects, which leaves it
        connected even when the tool listing fails. */
    method IsMcpAvailable(server: Endpoint) returns (b: bool)
      requires client.Valid()
      modifies client
      ensures client.Valid()
      ensures b == old(Routed(server))
      ensures !useMcp ==> unchanged(client)
      ensures useMcp ==> client.isConnected && client.toolCache == old(client.CacheAfterConnect(server))
      ensures useMcp ==> client.ToolsSeen(server) == old(client.ToolsSeen(server))
    {
      if !useMcp {
        return false;
      }
      b := client.IsAvailable(server);
    }

    /** `planTest`: the client's plan tool when routed, else the engine
        with the same request. */
    method PlanTest(server: Endpoint, query: Query, description: Json, options: Json) returns (r: Result<Option<string>>)
      requires client.Valid()
      modifies client
      ensures client.Valid()
      ensures !useMcp ==> unchanged(client)
      ensures useMcp ==> client.isConnected && client.toolCache == old(client.CacheAfterConnect(server))
      ensures r == Plan(old(Routed(server)), server, query, description, options)
    {
      var routed := IsMcpAvailable(server);
      if routed {
        r := PlanThroughClient(server, description, options);
      } else {
        r := DirectPlan(query, description, options);
      }
    }

    /** The MCP branch of `planTest`, on a connected client. */
    method PlanThroughClient(server: Endpoint, description: Json, options: Json) returns (r: Result<Option<string>>)
      requires client.Valid() && client.isConnected
      modifies client
      ensures client.Valid() && client.isConnected
      ensures client.toolCache == old(client.toolCache)
      ensures r == McpPlan(server, description, options)
    {
      var o := PlanOptions(options);
      if o.Err? {
        return Err(o.message);
      }
      r := client.GenerateTestPlan(server, description, o.value);
    }

    /** `generateTest`: the client's code tool and the lenient, trimming
        extraction when routed; else the engine and the strict extraction. */
    method GenerateTest(server: Endpoint, query: Query, testDescription: Json, options: Json) returns (r: Result<string>)
      requires client.Valid()
      modifies client
      ensures client.Valid()
      ensures !useMcp ==> unchanged(client)
      ensures useMcp ==> client.isConnected && client.toolCache == old(client.CacheAfterConnect(server))
      ensures r == Code(old(Routed(server)), server, query, testDescription, options)
    {
      var routed := IsMcpAvailable(server);
      if routed {
        r := CodeThroughClient(server, testDescription, options);
      } else {
        r := DirectCode(query, testDescription, options);
      }
    }

    /** The MCP branch of `generateTest`, on a connected client. */
    method CodeThroughClient(server: Endpoint, testDescription: Json, options: Json) returns (r: Result<string>)
      requires client.Valid() && client.isConnected
      modifies client
      ensures client.Valid() && client.isConnected
      ensures client.toolCache == old(client.toolCache)
      ensures r == McpCode(server, testDescription, options)
    {
      var o := CodeOptions(options);
      if o.Err? {
        return Err(o.message);
      }
      var text := client.GenerateCode(server, testDescription, o.value);
      var code := Reply(text);
      if code.Err? {
        return Err(code.message);
      }
      r := Ok(ExtractCodeTrimmed(code.value));
    }

    /** `healTest`: the context is read before anything else, so a
        missing one fails without touching the client. */
    method HealTest(server: Endpoint, query: Query, context: Json) returns (r: Result<Option<string>>)
      requires client.Valid()
      modifies client
      ensures client.Valid()
      ensures FailureOf(context).Err? ==> r == Err(FailureOf(context).message)
      ensures FailureOf(context).Err? || !useMcp ==> unchanged(client)
      ensures FailureOf(context).Ok? && useMcp ==>
        client.isConnected && client.toolCache == old(client.CacheAfterConnect(server))
      ensures FailureOf(context).Ok? ==>
        r == if old(Routed(server)) then McpHeal(server, context) else DirectHeal(query, context)
    {
      var f := FailureOf(context);
      if f.Err? {
        return Err(f.message);
      }
      var routed := IsMcpAvailable(server);
      if routed {
        r := client.AnalyzeFailure(server, f.value.errorMessage, HealContext(context, f.value));
        return;
      }
      r := query(FailureRequest(f.value.errorMessage, Get(context, "testCode"), f.value.pageUrl,
                                f.value.stackTrace, Truthy(Get(context, "screenshot"))));
    }

    /** `analyzePageContext`: refused unless routed. */
    method AnalyzePageContext(server: Endpoint, page: PageSnapshot, question: Json) returns (r: Result<Option<string>>)
      requires client.Valid()
      modifies client
      ensures client.Valid()
      ensures !useMcp ==> unchanged(client)
      ensures useMcp ==> client.isConnected && client.toolCache == old(client.CacheAfterConnect(server))
      ensures !old(Routed(server)) ==> r == Err(PageContextRefused)
      ensures old(Routed(server)) ==> r == FirstText(server.call("analyze_page_context", PageArgs(page, question)))
    {
      var routed := IsMcpAvailable(server);
      if !routed {
        return Err(PageContextRefused);
      }
      r := client.AnalyzePageContext(server, page, question);
    }

    /** `getMCPInfo`: the disabled message unless routed, else the
        server's summary or the error that stopped it. */
    method GetMcpInfo(server: Endpoint) returns (r: McpInfo)
      requires client.Valid()
      modifies client
      ensures client.Valid()
      ensures !useMcp ==> unchanged(client)
      ensures useMcp ==> client.isConnected && client.toolCache == old(client.CacheAfterConnect(server))
      ensures !old(Routed(server)) ==> r == Disabled(DisabledMessage)
      ensures old(Routed(server)) ==>
        var info := InfoOf(old(client.ToolsSeen(server)), server.resources, server.prompts);
        r == if info.Ok? then Available(info.value) else Unavailable(info.message)
    {
      var routed := IsMcpAvailable(server);
      if !routed {
        return Disabled(DisabledMessage);
      }
      var info := client.GetServerInfo(server);
      if info.Err? {
        return Unavailable(info.message);
      }
      r := Available(info.value);
    }

    /** `listMCPTools`: no tools unless routed. */
    method ListMcpTools(server: Endpoint) returns (r: Result<seq<ToolInfo>>)
      requires client.Valid()
      modifies client
      ensures client.Valid()
      ensures !useMcp ==> unchanged(client)
      ensures useMcp ==> client.isConnected && client.toolCache == old(client.CacheAfterConnect(server))
      ensures r == if old(Routed(server)) then old(client.ToolsSeen(server)) else Ok([])
    {
      var routed := IsMcpAvailable(server);
      if !routed {
        return Ok([]);
      }
      r := client.ListTools(server);
    }

    /** `callMCPTool`: refused unless routed. */
    method CallMcpTool(server: Endpoint, name: string, args: Json) returns (r: Result<ToolResult>)
      requires client.Valid()
      modifies client
      ensures client.Valid()
      ensures !useMcp ==> unchanged(client)
      ensures useMcp ==> client.isConnected && client.toolCache == old(client.CacheAfterConnect(server))
      ensures r == if old(Routed(server)) then server.call(name, if args.Undefined? then Obj(map[]) else args)
                   else Err(ToolCallRefused)
    {
      var routed := IsMcpAvailable(server);
      if !routed {
        return Err(ToolCallRefused);
      }
      r := client.CallTool(server, name, args);
    }

    /** `planAndGenerate`: the plan's text is the description the code is
        generated from. Planning routed or not, the client is connected
        afterwards when MCP is on, so generation is then always routed. */
    method PlanAndGenerate(server: Endpoint, query: Query, description: Json, options: Json) returns (r: Result<PlanAndCode>)
      requires client.Valid()
      modifies client
      ensures client.Valid()
      ensures options.Null? || !useMcp ==> unchanged(client)
      ensures !options.Null? && useMcp ==> client.isConnected && client.toolCache == old(client.CacheAfterConnect(server))
      ensures options.Null? ==> r == Err(NullRead("testType"))
      ensures !options.Null? ==>
        var plan := Plan(old(Routed(server)), server, query, description, PlanStepOptions(options));
        && (plan.Err? ==> r == Err(plan.message))
        && (plan.Ok? ==>
              var code := Code(useMcp, server, query, AsJson(plan.value), CodeStepOptions(options));
              r == if code.Err? then Err(code.message) else Ok(PlanAndCode(plan.value, code.value)))
    {
      if options.Null? {
        return Err(NullRead("testType"));
      }
      var plan := PlanTest(server, query, description, PlanStepOptions(options));
      if plan.Err? {
        return Err(plan.message);
      }
      var code := GenerateTest(server, query, AsJson(plan.value), CodeStepOptions(options));
      if code.Err? {
        return Err(code.message);
      }
      r := Ok(PlanAndCode(plan.value, code.value));
    }

    /** `generateRunAndHeal`: generation only; nothing runs the code. */
    method GenerateRunAndHeal(server: Endpoint, query: Query, description: Json, options: Json) returns (r: Result<Generated>)
      requires client.Valid()
      modifies client
      ensures client.Valid()
      ensures !useMcp ==> unchanged(client)
      ensures useMcp ==> client.isConnected && client.toolCache == old(client.CacheAfterConnect(server))
      ensures var code := Code(old(Routed(server)), server, query, description, options);
        r == if code.Err? then Err(code.message) else Ok(Generated(code.value, GeneratedStatus, GeneratedMessage))
    {
      var code := GenerateTest(server, query, description, options);
      if code.Err? {
        return Err(code.message);
      }
      r := Ok(Generated(code.value, GeneratedStatus, GeneratedMessage));
    }
  }

  /** The options `planAndGenerate` passes to each step. */
  function PlanStepOptions(options: Json): Json {
    Obj(map["testType" := Get(options, "testType"), "priority" := Get(options, "priority"),
            "saveTo" := Get(options, "savePlanTo")])
  }

  function CodeStepOptions(options: Json): Json {
    Obj(map["url" := Get(options, "url"), "framework" := Get(options, "framework"),
            "saveTo" := Get(options, "saveCodeTo")])
  }

  // ---------------------------------------------------------------------
  // Properties
  //
  // The path lemmas hold for any server whose tools are the in-process
  // handlers; `EmbeddedDispatches` shows the in-process server is one.

  /** Both planning paths send the engine the same request and return the
      same plan. */
  lemma {:induction false} PlanPathsAgree(server: Endpoint, query: Query, description: Json, options: Json)
    requires PlansLike(server, query)
    ensures McpPlan(server, description, options) == DirectPlan(query, description, options)
  {
    if !options.Null? {
      PlanArgsFor(description, options);
    }
  }

  /** The arguments the MCP path builds carry the direct path's request. */
  lemma {:induction false} PlanArgsFor(description: Json, options: Json)
    requires !options.Null?
    ensures PlanOptions(options).Ok? && PlanRequestFor(description, options).Ok?
    ensures var a := PlanArgs(description, PlanOptions(options).value);
      && a.Ok? && Arg(a.value, "requirements").Ok?
      && PlanRequestOf(a.value) == PlanRequestFor(description, options).value
  {
    var t := Or(Get(options, "testType"), Str("e2e"));
    var p := Or(Get(options, "priority"), Str("medium"));
    assert Truthy(t) && Truthy(p) by {
      assert Truthy(Str("e2e")) && Truthy(Str("medium"));
    }
    var o := PlanOptions(options).value;
    assert Get(o, "testType") == t && Get(o, "priority") == p;
    var args := PlanArgs(description, o).value;
    assert Get(args, "requirements") == description;
    assert Get(args, "testType") == t && Get(args, "priority") == p;
  }

  /** Both healing paths send the engine the same request and return the
      same analysis. */
  lemma {:induction false} HealPathsAgree(server: Endpoint, query: Query, context: Json)
    requires AnalysesLike(server, query)
    ensures McpHeal(server, context) == DirectHeal(query, context)
  {
    match FailureOf(context)
    case Err(_) =>
    case Ok(f) =>
      HealArgs(context, f);
  }

  /** The arguments the MCP path builds carry the direct path's request. */
  lemma {:induction false} HealArgs(context: Json, f: Failure)
    requires Truthy(f.errorMessage)
    ensures var a := FailureArgs(f.errorMessage, HealContext(context, f));
      && a.Ok? && Arg(a.value, "errorMessage").Ok?
      && FailureRequestOf(a.value)
         == FailureRequest(f.errorMessage, Get(context, "testCode"), f.pageUrl, f.stackTrace, Truthy(Get(context, "screenshot")))
  {
    var hc := HealContext(context, f);
    assert Get(hc, "testCode") == Get(context, "testCode") && Get(hc, "screenshot") == Get(context, "screenshot");
    assert Get(hc, "pageUrl") == f.pageUrl && Get(hc, "stackTrace") == f.stackTrace;
    var args := FailureArgs(f.errorMessage, hc).value;
    assert Get(args, "errorMessage") == f.errorMessage;
    assert ErrorMessageOf(args) == f.errorMessage;
  }

  /** The healer's error message falls back from `errorMessage` to
      `error.message`, `error.stack` and "Unknown error"; a `null` or
      missing context is refused. */
  lemma {:induction false} HealErrorMessage(m: string, stack: string)
    ensures FailureOf(Obj(map["errorMessage" := Str(m)])).value.errorMessage == if m != "" then Str(m) else Str("Unknown error")
    ensures FailureOf(Obj(map["error" := Obj(map["message" := Str(m), "stack" := Str(stack)])])).value.errorMessage
         == if m != "" then Str(m) else if stack != "" then Str(stack) else Str("Unknown error")
    ensures FailureOf(Obj(map["error" := Null])).value.errorMessage == Str("Unknown error")
    ensures FailureOf(Obj(map["error" := Obj(map["stack" := Str(stack)])])).value.stackTrace == Str(stack)
    ensures FailureOf(Null) == Err(NullRead("errorMessage")) && FailureOf(Undefined) == Err(UndefinedRead("errorMessage"))
  {
    MessageFromField(m);
    MessageFromError(m, stack);
    StackFromError(stack);
  }

  lemma {:induction false} MessageFromField(m: string)
    ensures FailureOf(Obj(map["errorMessage" := Str(m)])).value.errorMessage == if m != "" then Str(m) else Str("Unknown error")
  {
  }

  lemma {:induction false} MessageFromError(m: string, stack: string)
    ensures FailureOf(Obj(map["error" := Obj(map["message" := Str(m), "stack" := Str(stack)])])).value.errorMessage
         == if m != "" then Str(m) else if stack != "" then Str(stack) else Str("Unknown error")
  {
  }

  lemma {:induction false} StackFromError(stack: string)
    ensures FailureOf(Obj(map["error" := Obj(map["stack" := Str(stack)])])).value.stackTrace == Str(stack)
  {
  }

  /** The request both code paths send for a description and options. */
  function CodeRequestFor(testDescription: Json, options: Json): AiRequest {
    CodeRequest(testDescription, Get(options, "url"), Or(Get(options, "framework"), Str(DefaultFramework)))
  }

  /** With a string description, the MCP path sends the direct path's
      request and applies the lenient extraction to the server's strict
      one. */
  lemma {:induction false} McpCodeRoute(server: Endpoint, query: Query, description: string, options: Json)
    requires CodesLike(server, query) && !options.Null?
    ensures McpCode(server, Str(description), options)
         == match query(CodeRequestFor(Str(description), options))
            case Err(m) => Err(m)
            case Ok(None) => Err(UndefinedRead("match"))
            case Ok(Some(response)) => Ok(ExtractCodeTrimmed(ExtractCode(response)))
  {
    CodeArgsFor(Str(description), options);
  }

  /** The arguments the MCP path builds carry the direct path's request. */
  lemma {:induction false} CodeArgsFor(description: Json, options: Json)
    requires !options.Null?
    ensures CodeOptions(options).Ok?
    ensures var a := CodeArgs(description, CodeOptions(options).value);
      && a.Ok? && Arg(a.value, "testDescription") == Ok(description)
      && CodeRequestOf(a.value) == CodeRequestFor(description, options)
  {
    var o := CodeOptions(options).value;
    var args := CodeArgs(description, o).value;
    assert Get(args, "framework") == Or(Get(options, "framework"), Str(DefaultFramework));
  }

  /** The direct path's code is the strict extraction of the reply. */
  lemma {:induction false} DirectCodeRoute(query: Query, description: Json, options: Json)
    requires !options.Null?
    ensures DirectCode(query, description, options)
         == match query(CodeRequestFor(description, options))
            case Err(m) => Err(m)
            case Ok(None) => Err(UndefinedRead("match"))
            case Ok(Some(response)) => Ok(ExtractCode(response))
  {
  }

  /** The code paths agree on a fenced block with a line feed after the
      tag: both return the body. */
  lemma {:induction false} CodePathsAgreeOnFencedBlock(server: Endpoint, query: Query, description: string, options: Json,
                                                     tag: string, body: string, rest: string)
    requires CodesLike(server, query) && !options.Null?
    requires tag == "" || tag == "js" || tag == "javascript"
    requires NoBacktick(body)
    requires query(CodeRequestFor(Str(description), options)) == Ok(Some(CodeFence + tag + "\n" + body + CodeFence + rest))
    ensures McpCode(server, Str(description), options) == Ok(body)
    ensures DirectCode(query, Str(description), options) == Ok(body)
  {
    McpCodeRoute(server, query, description, options);
    DirectCodeRoute(query, Str(description), options);
    FencedBlock(tag, body, rest, false);
    NoFenceBacktickFree(body);
    NoFenceUnchanged(body);
  }

  /** The code paths differ on a block without a line feed after the
      opening fence: the direct path keeps the whole reply, the MCP path
      returns the trimmed body. */
  lemma {:induction false} CodePathsDifferWithoutNewline(server: Endpoint, query: Query, description: string, options: Json,
                                                       body: string, rest: string)
    requires CodesLike(server, query) && !options.Null?
    requires body != [] && body[0] != '\n' && body[0] != 'j'
    requires NoBacktick(body) && NoBacktick(rest)
    requires query(CodeRequestFor(Str(description), options)) == Ok(Some(CodeFence + body + CodeFence + rest))
    ensures DirectCode(query, Str(description), options) == Ok(CodeFence + body + CodeFence + rest)
    ensures McpCode(server, Str(description), options) == Ok(Trim(body))
  {
    McpCodeRoute(server, query, description, options);
    DirectCodeRoute(query, Str(description), options);
    NewlineDecides(body, rest);
  }

  /** Only the MCP path needs a string description: the server shortens
      it for its log first. */
  lemma {:induction false} McpCodeNeedsString(server: Endpoint, query: Query, options: Json, n: real)
    requires CodesLike(server, query) && !options.Null?
    ensures McpCode(server, Num(n), options) == Err(NoSubstring("args.testDescription"))
  {
    CodeArgsFor(Num(n), options);
    var args := CodeArgs(Num(n), CodeOptions(options).value).value;
    assert server.call("generate_playwright_code", args) == Err(NoSubstring("args.testDescription"));
  }

  /** A backtick-free text holds no fence. */
  lemma {:induction false} NoFenceBacktickFree(s: string)
    requires NoBacktick(s)
    ensures !Contains(s, CodeFence)
  {
    forall m | 0 <= m <= |s| - 3 ensures !OccursAt(s, CodeFence, m) {
      assert s[m..m + 3][0] == s[m];
    }
  }
}
