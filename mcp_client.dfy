/** The client the agents use to reach the MCP-style server: a connection
    flag and a cached tool list. Connecting only marks the client connected
    and fetches the tool list; every public operation first makes sure it
    is connected. The server is given as an `Endpoint`, the replies it
    makes; `Embedded` is the in-process server. */
module McpClient {
  import opened Wrappers
  import opened JsValues
  import opened McpServer

  /** The server as the client sees it. */
  datatype Endpoint = Endpoint(
    tools: Result<seq<ToolInfo>>,
    resources: Result<seq<Resource>>,
    prompts: Result<seq<Prompt>>,
    call: (string, Json) -> Result<ToolResult>,
    read: string -> Result<seq<ResourceContent>>,
    prompt: (string, Option<seq<(string, string)>>) -> Result<seq<PromptMessage>>)

  /** The in-process server, answering with the given engine. */
  function Embedded(query: Query): Endpoint {
    Endpoint(Ok(McpServer.ListTools()), Ok(McpServer.ListResources()), Ok(McpServer.ListPrompts()),
             (name, args) => CallTool(name, args, query), ReadResource, PromptFor)
  }

  /** `result.content[0].text`: the first item's text, or the error of
      reading `text` of a missing first item. */
  function FirstText(result: Result<ToolResult>): Result<Option<string>> {
    match result
    case Err(m) => Err(m)
    case Ok(t) => if t.content == [] then Err(UndefinedRead("text")) else Ok(t.content[0].text)
  }

  /** `extractText`: the first item's text, or "" when there is no item. */
  function ExtractText(response: ToolResult): Option<string> {
    if response.content != [] then response.content[0].text else Some("")
  }

  /** `getServerInfo`'s summary. */
  datatype ServerInfo = ServerInfo(
    connected: bool, toolsCount: nat, resourcesCount: nat, promptsCount: nat,
    tools: seq<string>, resources: seq<string>, prompts: seq<string>)

  /** `xs.map(field)`: one field value per entry, in order. */
  function MapField<T>(xs: seq<T>, field: T -> string): (r: seq<string>)
    ensures |r| == |xs| && forall i :: 0 <= i < |xs| ==> r[i] == field(xs[i])
  {
    seq(|xs|, i requires 0 <= i < |xs| => field(xs[i]))
  }

  function ListedName(t: ToolInfo): string { t.name }
  function PromptName(p: Prompt): string { p.name }

  /** The summary of three listings; the first listing that failed is the
      error. */
  function InfoOf(tools: Result<seq<ToolInfo>>, resources: Result<seq<Resource>>, prompts: Result<seq<Prompt>>): Result<ServerInfo> {
    if tools.Err? then Err(tools.message)
    else if resources.Err? then Err(resources.message)
    else if prompts.Err? then Err(prompts.message)
    else Ok(ServerInfo(true, |tools.value|, |resources.value|, |prompts.value|,
                       MapField(tools.value, ListedName), MapField(resources.value, ResourceUri), MapField(prompts.value, PromptName)))
  }

  /** Reading `options.key` of an options parameter that defaults to `{}`:
      an omitted one reads as empty, a `null` one cannot be read. */
  function OptionsField(options: Json, key: string): (r: Result<Json>)
    ensures options.Null? <==> r.Err?
    ensures r.Ok? ==> r.value == Get(options, key)
  {
    if options.Null? then Err(NullRead(key)) else Ok(Get(options, key))
  }

  /** The arguments `generateTestPlan` passes, test type and priority
      defaulted to "e2e" and "medium". */
  function PlanArgs(requirements: Json, options: Json): Result<Json> {
    match OptionsField(options, "testType")
    case Err(m) => Err(m)
    case Ok(t) =>
      Ok(Obj(map["requirements" := requirements, "testType" := Or(t, Str("e2e")),
                 "priority" := Or(Get(options, "priority"), Str("medium"))]))
  }

  /** The arguments `generateCode` passes, the framework defaulted. */
  function CodeArgs(testDescription: Json, options: Json): Result<Json> {
    match OptionsField(options, "url")
    case Err(m) => Err(m)
    case Ok(u) =>
      Ok(Obj(map["testDescription" := testDescription, "url" := u,
                 "framework" := Or(Get(options, "framework"), Str(DefaultFramework))]))
  }

  /** The context fields `analyzeFailure` forwards. */
  function FailureArgs(errorMessage: Json, context: Json): Result<Json> {
    match OptionsField(context, "testCode")
    case Err(m) => Err(m)
    case Ok(c) =>
      Ok(Obj(map["errorMessage" := errorMessage, "testCode" := c,
                 "screenshot" := Get(context, "screenshot"), "pageUrl" := Get(context, "pageUrl"),
                 "stackTrace" := Get(context, "stackTrace")]))
  }

  /** What `analyzePageContext` gathered from the page. */
  datatype PageSnapshot = PageSnapshot(url: Json, html: Json, screenshot: Json, viewport: Json)

  /** Gathering the page's content, screenshot and viewport in that order;
      the first read that fails ends the gathering and what is left stays
      `null`. */
  function Gather(url: Json, content: Result<Json>, shot: Result<Json>, viewport: Result<Json>): (p: PageSnapshot)
    ensures p.url == url
    ensures content.Err? ==> p.html == Null && p.screenshot == Null && p.viewport == Null
    ensures content.Ok? ==> p.html == content.value
    ensures content.Ok? && shot.Err? ==> p.screenshot == Null && p.viewport == Null
    ensures content.Ok? && shot.Ok? ==> p.screenshot == shot.value
    ensures content.Ok? && shot.Ok? ==> p.viewport == (if viewport.Ok? then viewport.value else Null)
  {
    if content.Err? then PageSnapshot(url, Null, Null, Null)
    else if shot.Err? then PageSnapshot(url, content.value, Null, Null)
    else if viewport.Err? then PageSnapshot(url, content.value, shot.value, Null)
    else PageSnapshot(url, content.value, shot.value, viewport.value)
  }

  /** The page tool's arguments; `question` defaults to `null`. */
  function PageArgs(page: PageSnapshot, question: Json): Json {
    Obj(map["url" := page.url, "html" := page.html, "screenshot" := page.screenshot,
            "viewport" := page.viewport, "question" := if question.Undefined? then Null else question])
  }

  class Client {
    var isConnected: bool
    var toolCache: Option<seq<ToolInfo>>

    /** A disconnected client holds no tool list. */
    ghost predicate Valid() reads this {
      !isConnected ==> toolCache.None?
    }

    /** Connecting to `server` succeeds: the client is connected already,
        or the server lists its tools. */
    predicate Reaches(server: Endpoint) reads this {
      isConnected || server.tools.Ok?
    }

    /** The tool list held once `connect` has run from this state: the
        current one when connected, else the server's listing. */
    function CacheAfterConnect(server: Endpoint): Option<seq<ToolInfo>> reads this {
      if isConnected then toolCache
      else if server.tools.Ok? then Some(server.tools.value) else None
    }

    /** The tool list `listTools` answers in this state once connected. */
    function ToolsSeen(server: Endpoint): Result<seq<ToolInfo>> reads this {
      if isConnected && toolCache.Some? then Ok(toolCache.value) else server.tools
    }

    constructor ()
      ensures Valid() && !isConnected && toolCache.None?
    {
      isConnected := false;
      toolCache := None;
    }

    /** `connect`: a no-op when connected; otherwise the client is marked
        connected BEFORE the tools are listed, so a failed listing leaves it
        connected with no tool list. */
    method Connect(server: Endpoint) returns (r: Result<()>)
      requires Valid()
      modifies this
      ensures Valid() && isConnected && toolCache == old(CacheAfterConnect(server))
      ensures r.Ok? <==> old(Reaches(server))
      ensures old(isConnected) ==> toolCache == old(toolCache)
      ensures !old(isConnected) ==>
        (server.tools.Ok? ==> toolCache == Some(server.tools.value))
        && (server.tools.Err? ==> r == Err(server.tools.message) && toolCache.None?)
    {
      if isConnected {
        return Ok(());
      }
      isConnected := true;
      var listing := server.tools;
      if listing.Err? {
        return Err(listing.message);
      }
      toolCache := Some(listing.value);
      return Ok(());
    }

    /** `disconnect`: afterwards the client is disconnected and holds no
        tool list. */
    method Disconnect()
      requires Valid()
      modifies this
      ensures Valid() && !isConnected && toolCache.None?
    {
      if !isConnected {
        return;
      }
      isConnected := false;
      toolCache := None;
    }

    /** `ensureConnected`: connects unless connected. */
    method EnsureConnected(server: Endpoint) returns (r: Result<()>)
      requires Valid()
      modifies this
      ensures Valid() && isConnected
      ensures r.Ok? <==> old(Reaches(server))
      ensures !old(Reaches(server)) ==> r == Err(server.tools.message)
      ensures toolCache == old(CacheAfterConnect(server))
      ensures ToolsSeen(server) == old(ToolsSeen(server))
    {
      if !isConnected {
        r := Connect(server);
      } else {
        r := Ok(());
      }
    }

    /** `listTools`: the cached list when there is one, else the server's. */
    method ListTools(server: Endpoint) returns (r: Result<seq<ToolInfo>>)
      requires Valid()
      modifies this
      ensures Valid() && isConnected && toolCache == old(CacheAfterConnect(server))
      ensures r == old(ToolsSeen(server))
    {
      var c := EnsureConnected(server);
      if c.Err? {
        return Err(c.message);
      }
      if toolCache.Some? {
        return Ok(toolCache.value);
      }
      return server.tools;
    }

    /** `callTool`: the server's answer once connected; omitted
        arguments default to `{}`. */
    method CallTool(server: Endpoint, name: string, args: Json) returns (r: Result<ToolResult>)
      requires Valid()
      modifies this
      ensures Valid() && isConnected && toolCache == old(CacheAfterConnect(server))
      ensures old(Reaches(server)) ==> r == server.call(name, if args.Undefined? then Obj(map[]) else args)
      ensures !old(Reaches(server)) ==> r == Err(server.tools.message)
    {
      var c := EnsureConnected(server);
      if c.Err? {
        return Err(c.message);
      }
      var sent := if args.Undefined? then Obj(map[]) else args;
      r := server.call(name, sent);
    }

    /** `generateTestPlan`: the plan tool, its first text item returned;
        the options are read before connecting. */
    method GenerateTestPlan(server: Endpoint, requirements: Json, options: Json) returns (r: Result<Option<string>>)
      requires Valid()
      modifies this
      ensures Valid()
      ensures PlanArgs(requirements, options).Ok? ==> isConnected && toolCache == old(CacheAfterConnect(server))
      ensures PlanArgs(requirements, options).Err? ==>
        r == Err(PlanArgs(requirements, options).message) && isConnected == old(isConnected) && toolCache == old(toolCache)
      ensures PlanArgs(requirements, options).Ok? && old(Reaches(server)) ==>
        r == FirstText(server.call("generate_test_plan", PlanArgs(requirements, options).value))
      ensures PlanArgs(requirements, options).Ok? && !old(Reaches(server)) ==> r == Err(server.tools.message)
    {
      var args := PlanArgs(requirements, options);
      if args.Err? {
        return Err(args.message);
      }
      var result := CallTool(server, "generate_test_plan", args.value);
      r := FirstText(result);
    }

    /** `generateCode`: the code tool, its first text item returned. */
    method GenerateCode(server: Endpoint, testDescription: Json, options: Json) returns (r: Result<Option<string>>)
      requires Valid()
      modifies this
      ensures Valid()
      ensures CodeArgs(testDescription, options).Ok? ==> isConnected && toolCache == old(CacheAfterConnect(server))
      ensures CodeArgs(testDescription, options).Err? ==>
        r == Err(CodeArgs(testDescription, options).message) && isConnected == old(isConnected) && toolCache == old(toolCache)
      ensures CodeArgs(testDescription, options).Ok? && old(Reaches(server)) ==>
        r == FirstText(server.call("generate_playwright_code", CodeArgs(testDescription, options).value))
      ensures CodeArgs(testDescription, options).Ok? && !old(Reaches(server)) ==> r == Err(server.tools.message)
    {
      var args := CodeArgs(testDescription, options);
      if args.Err? {
        return Err(args.message);
      }
      var result := CallTool(server, "generate_playwright_code", args.value);
      r := FirstText(result);
    }

    /** `analyzeFailure`: the failure tool with the context's fields. */
    method AnalyzeFailure(server: Endpoint, errorMessage: Json, context: Json) returns (r: Result<Option<string>>)
      requires Valid()
      modifies this
      ensures Valid()
      ensures FailureArgs(errorMessage, context).Ok? ==> isConnected && toolCache == old(CacheAfterConnect(server))
      ensures FailureArgs(errorMessage, context).Err? ==>
        r == Err(FailureArgs(errorMessage, context).message) && isConnected == old(isConnected) && toolCache == old(toolCache)
      ensures FailureArgs(errorMessage, context).Ok? && old(Reaches(server)) ==>
        r == FirstText(server.call("analyze_test_failure", FailureArgs(errorMessage, context).value))
      ensures FailureArgs(errorMessage, context).Ok? && !old(Reaches(server)) ==> r == Err(server.tools.message)
    {
      var args := FailureArgs(errorMessage, context);
      if args.Err? {
        return Err(args.message);
      }
      var result := CallTool(server, "analyze_test_failure", args.value);
      r := FirstText(result);
    }

    /** `analyzePageContext`: the page tool with what was gathered. */
    method AnalyzePageContext(server: Endpoint, page: PageSnapshot, question: Json) returns (r: Result<Option<string>>)
      requires Valid()
      modifies this
      ensures Valid() && isConnected && toolCache == old(CacheAfterConnect(server))
      ensures old(Reaches(server)) ==> r == FirstText(server.call("analyze_page_context", PageArgs(page, question)))
      ensures !old(Reaches(server)) ==> r == Err(server.tools.message)
    {
      var result := CallTool(server, "analyze_page_context", PageArgs(page, question));
      r := FirstText(result);
    }

    method ListResources(server: Endpoint) returns (r: Result<seq<Resource>>)
      requires Valid()
      modifies this
      ensures Valid() && isConnected && toolCache == old(CacheAfterConnect(server))
      ensures r == if old(Reaches(server)) then server.resources else Err(server.tools.message)
    {
      var c := EnsureConnected(server);
      if c.Err? {
        return Err(c.message);
      }
      r := server.resources;
    }

    method ReadResource(server: Endpoint, uri: string) returns (r: Result<seq<ResourceContent>>)
      requires Valid()
      modifies this
      ensures Valid() && isConnected && toolCache == old(CacheAfterConnect(server))
      ensures r == if old(Reaches(server)) then server.read(uri) else Err(server.tools.message)
    {
      var c := EnsureConnected(server);
      if c.Err? {
        return Err(c.message);
      }
      r := server.read(uri);
    }

    method ListPrompts(server: Endpoint) returns (r: Result<seq<Prompt>>)
      requires Valid()
      modifies this
      ensures Valid() && isConnected && toolCache == old(CacheAfterConnect(server))
      ensures r == if old(Reaches(server)) then server.prompts else Err(server.tools.message)
    {
      var c := EnsureConnected(server);
      if c.Err? {
        return Err(c.message);
      }
      r := server.prompts;
    }

    method GetPrompt(server: Endpoint, name: string, args: Option<seq<(string, string)>>)
      returns (r: Result<seq<PromptMessage>>)
      requires Valid()
      modifies this
      ensures Valid() && isConnected && toolCache == old(CacheAfterConnect(server))
      ensures r == if old(Reaches(server)) then server.prompt(name, args) else Err(server.tools.message)
    {
      var c := EnsureConnected(server);
      if c.Err? {
        return Err(c.message);
      }
      r := server.prompt(name, args);
    }

    /** `isAvailable`: whether `connect` completes. */
    method IsAvailable(server: Endpoint) returns (b: bool)
      requires Valid()
      modifies this
      ensures Valid() && isConnected
      ensures b == old(Reaches(server))
      ensures toolCache == old(CacheAfterConnect(server))
      ensures ToolsSeen(server) == old(ToolsSeen(server))
    {
      var c := Connect(server);
      b := c.Ok?;
    }

    /** `getServerInfo`: the counts are the lengths of the three listings. */
    method GetServerInfo(server: Endpoint) returns (r: Result<ServerInfo>)
      requires Valid()
      modifies this
      ensures Valid() && isConnected && toolCache == old(CacheAfterConnect(server))
      ensures old(Reaches(server)) ==> r == InfoOf(old(ToolsSeen(server)), server.resources, server.prompts)
      ensures !old(Reaches(server)) ==> r == Err(server.tools.message)
    {
      var c := EnsureConnected(server);
      if c.Err? {
        return Err(c.message);
      }
      var tools := ListTools(server);
      if tools.Err? {
        return Err(tools.message);
      }
      var resources := ListResources(server);
      if resources.Err? {
        return Err(resources.message);
      }
      var prompts := ListPrompts(server);
      if prompts.Err? {
        return Err(prompts.message);
      }
      return Ok(ServerInfo(isConnected, |tools.value|, |resources.value|, |prompts.value|,
                           MapField(tools.value, ListedName), MapField(resources.value, ResourceUri), MapField(prompts.value, PromptName)));
    }
  }

  // ---------------------------------------------------------------------
  // Properties

  /** The summary's counts are the lengths of the listings it names. */
  lemma {:induction false} InfoCounts(tools: Result<seq<ToolInfo>>, resources: Result<seq<Resource>>, prompts: Result<seq<Prompt>>)
    ensures var r := InfoOf(tools, resources, prompts);
      r.Ok? ==> r.value.toolsCount == |r.value.tools| && r.value.resourcesCount == |r.value.resources|
                && r.value.promptsCount == |r.value.prompts|
    ensures InfoOf(tools, resources, prompts).Ok? <==> tools.Ok? && resources.Ok? && prompts.Ok?
  {
  }

  /** The in-process server always lists its tools, so connecting to it
      always completes, and its summary counts four tools, three resources
      and three prompts. */
  lemma {:induction false} EmbeddedServerInfo(query: Query)
    ensures Embedded(query).tools.Ok?
    ensures var r := InfoOf(Embedded(query).tools, Embedded(query).resources, Embedded(query).prompts);
      r.Ok? && r.value.toolsCount == 4 && r.value.resourcesCount == 3 && r.value.promptsCount == 3
      && r.value.tools == ["generate_test_plan", "generate_playwright_code", "analyze_test_failure", "analyze_page_context"]
      && r.value.resources == ["playwright://page/current", "playwright://browser/context", "playwright://test/results"]
  {
    ToolNames();
    var r := InfoOf(Embedded(query).tools, Embedded(query).resources, Embedded(query).prompts);
    assert r.value.tools == MapField(McpServer.ListTools(), ListedName);
  }

  /** A server whose tools are the in-process server's handlers,
      answering with `query`, one predicate per tool. */
  ghost predicate PlansLike(server: Endpoint, query: Query) {
    forall a :: server.call("generate_test_plan", a) == HandleGenerateTestPlan(a, query)
  }

  ghost predicate CodesLike(server: Endpoint, query: Query) {
    forall a :: server.call("generate_playwright_code", a) == HandleGenerateCode(a, query)
  }

  ghost predicate AnalysesLike(server: Endpoint, query: Query) {
    forall a :: server.call("analyze_test_failure", a) == HandleAnalyzeFailure(a, query)
  }

  ghost predicate ReadsPagesLike(server: Endpoint, query: Query) {
    forall a :: server.call("analyze_page_context", a) == HandleAnalyzePageContext(a, query)
  }

  ghost predicate Dispatches(server: Endpoint, query: Query) {
    PlansLike(server, query) && CodesLike(server, query) && AnalysesLike(server, query) && ReadsPagesLike(server, query)
  }

  /** The in-process server's tool calls are its own handlers. */
  lemma {:induction false} EmbeddedDispatches(query: Query)
    ensures Dispatches(Embedded(query), query)
  {
    forall a ensures Embedded(query).call("generate_test_plan", a) == HandleGenerateTestPlan(a, query) {
      PlanToolDispatch(a, query);
    }
    forall a ensures Embedded(query).call("generate_playwright_code", a) == HandleGenerateCode(a, query) {
      CodeToolDispatch(a, query);
    }
    forall a ensures Embedded(query).call("analyze_test_failure", a) == HandleAnalyzeFailure(a, query) {
      FailureToolDispatch(a, query);
    }
    forall a ensures Embedded(query).call("analyze_page_context", a) == HandleAnalyzePageContext(a, query) {
      PageToolDispatch(a, query);
    }
  }

  /** `extractText` gives back the text of a one-item tool reply, and ""
      for an empty one. */
  lemma {:induction false} ExtractTextOfReply(text: Option<string>)
    ensures ExtractText(TextReply(text)) == text
    ensures ExtractText(ToolResult([])) == Some("")
    ensures FirstText(Ok(TextReply(text))) == Ok(text)
  {
  }
}
