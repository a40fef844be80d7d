/** The in-process server that mimics the shape of the Model Context
    Protocol: fixed registries of four tools, three resources and three
    prompts; tool dispatch by name; resource reads; `{{key}}` templating.
    There is no wire protocol. The registries are built once and never
    change, so the server is a set of constants and functions; every tool
    handler makes one call to the AI engine's `query`, an oracle here. */
module McpServer {
  import opened Wrappers
  import opened Text
  import opened JsValues
  import opened Fences

  // ---------------------------------------------------------------------
  // The AI engine as the server and the agents call it

  /** What a tool asks the engine: the values the prompt interpolates. The
      prompt text around them is fixed per request kind. */
  datatype AiRequest =
    | PlanRequest(requirements: Json, testType: Json, priority: Json)
    | CodeRequest(testDescription: Json, url: Json, framework: Json)
    | FailureRequest(errorMessage: Json, testCode: Json, pageUrl: Json, stackTrace: Json, screenshot: bool)
    | PageRequest(url: Json, htmlExcerpt: Option<string>, viewport: Json, screenshot: bool, question: Json)

  /** `aiEngine.query(prompt)`: the reply text, `None` for the `undefined`
      the engine answers under a provider name no backend matches, or the
      error it throws. */
  type Query = AiRequest -> Result<Option<string>>

  // ---------------------------------------------------------------------
  // Registries

  /** A tool's input schema: the property names it documents and those it
      marks required (the server does not enforce either). */
  datatype InputSchema = InputSchema(properties: seq<string>, required: seq<string>)
  datatype Handler = PlanHandler | CodeHandler | FailureHandler | PageHandler
  datatype Tool = Tool(name: string, description: string, inputSchema: InputSchema, handler: Handler)
  /** A tool as `listTools` shows it: without its handler. */
  datatype ToolInfo = ToolInfo(name: string, description: string, inputSchema: InputSchema)
  datatype Resource = Resource(uri: string, name: string, description: string, mimeType: string)
  datatype Prompt = Prompt(name: string, description: string, template: string)
  /** A prompt under the key `getPrompt` looks it up by. */
  datatype KeyedPrompt = KeyedPrompt(key: string, prompt: Prompt)

  const Tools: seq<Tool> := [PlanTool, CodeTool, FailureTool, PageTool]

  const PlanTool := Tool("generate_test_plan", "Generate comprehensive test plan from requirements using AI",
                         InputSchema(["requirements", "testType", "priority"], ["requirements"]), PlanHandler)
  const CodeTool := Tool("generate_playwright_code", "Generate executable Playwright test code from test description",
                         InputSchema(["testDescription", "url", "framework"], ["testDescription"]), CodeHandler)
  const FailureTool := Tool("analyze_test_failure", "Analyze test failures and suggest fixes using AI",
                            InputSchema(["errorMessage", "testCode", "screenshot", "pageUrl", "stackTrace"], ["errorMessage"]),
                            FailureHandler)
  const PageTool := Tool("analyze_page_context", "Analyze full page context (DOM, screenshot, metadata) to provide AI insights",
                         InputSchema(["url", "html", "screenshot", "viewport", "question"], ["url"]), PageHandler)

  const Resources: seq<Resource> := [
    Resource("playwright://page/current", "Current Page State",
             "DOM structure and visual state of current page", "application/json"),
    Resource("playwright://browser/context", "Browser Context",
             "Cookies, storage, and network state", "application/json"),
    Resource("playwright://test/results", "Test Results",
             "Recent test execution results and artifacts", "application/json")
  ]

  const PlannerLead := "You are an expert QA engineer. Create a comprehensive test plan for: "
  const GeneratorLead := "Generate production-ready Playwright test code for: "
  const AnalystLead := "Analyze this test failure and suggest fixes: "
  /** Each template is a lead-in followed by one `{{key}}` placeholder. */
  const PlannerTemplate := PlannerLead + Placeholder("requirements")
  const GeneratorTemplate := GeneratorLead + Placeholder("testDescription")
  const AnalystTemplate := AnalystLead + Placeholder("errorMessage")

  const Prompts: seq<KeyedPrompt> := [
    KeyedPrompt("test-planner", Prompt("Test Planner", "Expert test planning assistant", PlannerTemplate)),
    KeyedPrompt("code-generator", Prompt("Code Generator", "Playwright code generation expert", GeneratorTemplate)),
    KeyedPrompt("failure-analyst", Prompt("Failure Analyst", "Test failure debugging expert", AnalystTemplate))
  ]

  /** The first element whose key is `k`: a property lookup on a registry
      object. */
  function FirstWhere<T>(s: seq<T>, key: T -> string, k: string): (r: Option<T>)
    ensures r.Some? ==> r.value in s && key(r.value) == k
    ensures r.None? ==> forall x :: x in s ==> key(x) != k
  {
    if s == [] then None
    else if key(s[0]) == k then Some(s[0])
    else FirstWhere(s[1..], key, k)
  }

  /** The lookup finds the first element carrying the key. */
  lemma {:induction false} FirstWhereAt<T>(s: seq<T>, key: T -> string, k: string, i: nat)
    requires i < |s| && key(s[i]) == k
    requires forall j :: 0 <= j < i ==> key(s[j]) != k
    ensures FirstWhere(s, key, k) == Some(s[i])
    decreases i
  {
    if i > 0 {
      FirstWhereAt(s[1..], key, k, i - 1);
    }
  }

  function ToolName(t: Tool): string { t.name }
  function ResourceUri(r: Resource): string { r.uri }
  function PromptKey(p: KeyedPrompt): string { p.key }

  function FindTool(name: string): Option<Tool> { FirstWhere(Tools, ToolName, name) }
  function FindResource(uri: string): Option<Resource> { FirstWhere(Resources, ResourceUri, uri) }
  function FindPrompt(key: string): Option<KeyedPrompt> { FirstWhere(Prompts, PromptKey, key) }

  // ---------------------------------------------------------------------
  // Replies

  datatype Content = Content(kind: string, text: Option<string>)
  datatype ToolResult = ToolResult(content: seq<Content>)
  datatype ResourceContent = ResourceContent(uri: string, mimeType: string, text: string)
  datatype PromptMessage = PromptMessage(role: string, kind: string, text: string)

  /** The one-text-item reply of every tool handler. */
  function TextReply(text: Option<string>): ToolResult {
    ToolResult([Content("text", text)])
  }

  /** `JSON.stringify` of the placeholder resource payload. */
  const ResourcePlaceholder := "{\"message\":\"Resource data would be here\"}"

  // ---------------------------------------------------------------------
  // Tool handlers

  /** Reading a property of the handler's `args`. */
  function Arg(args: Json, key: string): Result<Json> {
    match args
    case Undefined => Err(UndefinedRead(key))
    case Null => Err(NullRead(key))
    case _ => Ok(Get(args, key))
  }

  /** The error of calling `.substring` on a value, if it has no such method. */
  function SubstringError(v: Json, expression: string): Option<string> {
    match v
    case Str(_) => None
    case Undefined => Some(UndefinedRead("substring"))
    case Null => Some(NullRead("substring"))
    case _ => Some(NoSubstring(expression))
  }

  /** The engine's reply as the one text item, or the error it threw. */
  function Answer(reply: Result<Option<string>>): Result<ToolResult> {
    match reply
    case Err(m) => Err(m)
    case Ok(t) => Ok(TextReply(t))
  }

  function PlanRequestOf(args: Json): AiRequest {
    PlanRequest(Get(args, "requirements"), Or(Get(args, "testType"), Str("e2e")), Or(Get(args, "priority"), Str("medium")))
  }

  /** `handleGenerateTestPlan`: test type and priority default to "e2e"
      and "medium". */
  function HandleGenerateTestPlan(args: Json, query: Query): Result<ToolResult> {
    match Arg(args, "requirements")
    case Err(m) => Err(m)
    case Ok(_) => Answer(query(PlanRequestOf(args)))
  }

  const DefaultFramework := "playwright-ai"

  function CodeRequestOf(args: Json): AiRequest {
    CodeRequest(Get(args, "testDescription"), Get(args, "url"), Or(Get(args, "framework"), Str(DefaultFramework)))
  }

  /** `handleGenerateCode`: the description must be a string (it is
      shortened for the log first); the reply's first fenced block, or the
      whole reply, is the code. */
  function HandleGenerateCode(args: Json, query: Query): Result<ToolResult> {
    match Arg(args, "testDescription")
    case Err(m) => Err(m)
    case Ok(d) =>
      match SubstringError(d, "args.testDescription")
      case Some(m) => Err(m)
      case None =>
        match query(CodeRequestOf(args))
        case Err(m) => Err(m)
        case Ok(None) => Err(UndefinedRead("match"))
        case Ok(Some(response)) => Ok(TextReply(Some(ExtractCode(response))))
  }

  /** The error text the failure analysis uses: `errorMessage`, else
      `error`, else "Unknown error". */
  function ErrorMessageOf(args: Json): Json {
    Or(Or(Get(args, "errorMessage"), Get(args, "error")), Str("Unknown error"))
  }

  function FailureRequestOf(args: Json): AiRequest {
    FailureRequest(ErrorMessageOf(args), Get(args, "testCode"), Get(args, "pageUrl"),
                   Get(args, "stackTrace"), Truthy(Get(args, "screenshot")))
  }

  /** `handleAnalyzeFailure`. */
  function HandleAnalyzeFailure(args: Json, query: Query): Result<ToolResult> {
    match Arg(args, "errorMessage")
    case Err(m) => Err(m)
    case Ok(_) => Answer(query(FailureRequestOf(args)))
  }

  const PageHtmlLimit: nat := 2000

  /** The HTML the page analysis embeds: its first 2000 characters when it
      is given; a truthy non-string has no `substring`. */
  function HtmlExcerpt(html: Json): Result<Option<string>> {
    if !Truthy(html) then Ok(None)
    else match html
      case Str(s) => Ok(Some(if |s| <= PageHtmlLimit then s else s[..PageHtmlLimit]))
      case _ => Err(NoSubstring("args.html"))
  }

  /** `handleAnalyzePageContext`. */
  function HandleAnalyzePageContext(args: Json, query: Query): Result<ToolResult> {
    match Arg(args, "url")
    case Err(m) => Err(m)
    case Ok(url) =>
      match HtmlExcerpt(Get(args, "html"))
      case Err(m) => Err(m)
      case Ok(excerpt) =>
        Answer(query(PageRequest(url, excerpt, Get(args, "viewport"), Truthy(Get(args, "screenshot")), Get(args, "question"))))
  }

  function Handle(handler: Handler, args: Json, query: Query): Result<ToolResult> {
    match handler
    case PlanHandler => HandleGenerateTestPlan(args, query)
    case CodeHandler => HandleGenerateCode(args, query)
    case FailureHandler => HandleAnalyzeFailure(args, query)
    case PageHandler => HandleAnalyzePageContext(args, query)
  }

  // ---------------------------------------------------------------------
  // The server's operations

  function Info(t: Tool): ToolInfo { ToolInfo(t.name, t.description, t.inputSchema) }

  /** `listTools`: every registered tool, in registration order, without
      its handler. */
  function ListTools(): (r: seq<ToolInfo>)
    ensures |r| == |Tools|
    ensures forall i :: 0 <= i < |r| ==> r[i].name == Tools[i].name && r[i].inputSchema == Tools[i].inputSchema
  {
    seq(|Tools|, i requires 0 <= i < |Tools| => Info(Tools[i]))
  }

  /** `callTool`: an unregistered name is refused; otherwise the tool's
      handler answers. */
  function CallTool(name: string, args: Json, query: Query): Result<ToolResult> {
    match FindTool(name)
    case None => Err("Unknown tool: " + name)
    case Some(t) => Handle(t.handler, args, query)
  }

  function ListResources(): seq<Resource> { Resources }

  /** `readResource`: one content entry with the resource's own uri and
      type, and placeholder data. */
  function ReadResource(uri: string): Result<seq<ResourceContent>> {
    match FindResource(uri)
    case None => Err("Unknown resource: " + uri)
    case Some(r) => Ok([ResourceContent(r.uri, r.mimeType, ResourcePlaceholder)])
  }

  function ListPrompts(): (r: seq<Prompt>)
    ensures |r| == |Prompts|
    ensures forall i :: 0 <= i < |r| ==> r[i] == Prompts[i].prompt
  {
    seq(|Prompts|, i requires 0 <= i < |Prompts| => Prompts[i].prompt)
  }

  /** The placeholder a template argument replaces. */
  function Placeholder(key: string): (p: string)
    ensures |p| == |key| + 4 && p[0] == '{'
  {
    "{{" + key + "}}"
  }

  /** The template after replacing every placeholder, argument by argument
      in order. */
  function Substituted(text: string, args: seq<(string, string)>): string
    decreases |args|
  {
    if args == [] then text
    else Substituted(ReplaceAll(text, Placeholder(args[0].0), args[0].1), args[1..])
  }

  /** What `getPrompt` answers: an unknown key is refused; otherwise one
      user message whose text is the template with the arguments
      substituted (absent arguments act as an empty object). */
  function PromptFor(name: string, args: Option<seq<(string, string)>>): Result<seq<PromptMessage>> {
    match FindPrompt(name)
    case None => Err("Unknown prompt: " + name)
    case Some(p) => Ok([PromptMessage("user", "text", Substituted(p.prompt.template, args.GetOr([])))])
  }

  /** `getPrompt`, replacing the placeholders one argument at a time. */
  method GetPrompt(name: string, args: Option<seq<(string, string)>>) returns (r: Result<seq<PromptMessage>>)
    ensures r == PromptFor(name, args)
  {
    var found := FindPrompt(name);
    if found.None? {
      return Err("Unknown prompt: " + name);
    }
    var entries := args.GetOr([]);
    var text := found.value.prompt.template;
    var i := 0;
    while i < |entries|
      invariant 0 <= i <= |entries|
      invariant Substituted(found.value.prompt.template, entries) == Substituted(text, entries[i..])
    {
      assert entries[i..][1..] == entries[i + 1..];
      text := ReplaceAll(text, Placeholder(entries[i].0), entries[i].1);
      i := i + 1;
    }
    return Ok([PromptMessage("user", "text", text)]);
  }

  // ---------------------------------------------------------------------
  // Properties

  /** The listing names exactly the four tools. */
  lemma {:induction false} ToolNames()
    ensures |ListTools()| == 4
    ensures ListTools()[0].name == "generate_test_plan" && ListTools()[1].name == "generate_playwright_code"
    ensures ListTools()[2].name == "analyze_test_failure" && ListTools()[3].name == "analyze_page_context"
  {
  }

  /** The four tool names differ, so each finds its own tool. */
  lemma {:induction false} FindsTool(i: nat)
    requires i < |Tools|
    ensures FindTool(Tools[i].name) == Some(Tools[i])
  {
    assert PlanTool.name[9] != CodeTool.name[9];
    assert PlanTool.name[0] != FailureTool.name[0] && CodeTool.name[0] != FailureTool.name[0];
    assert PlanTool.name[0] != PageTool.name[0] && CodeTool.name[0] != PageTool.name[0];
    assert FailureTool.name[8] != PageTool.name[8];
    FirstWhereAt(Tools, ToolName, Tools[i].name, i);
  }

  /** Each tool name reaches its own handler. */
  lemma {:induction false} PlanToolDispatch(args: Json, query: Query)
    ensures CallTool("generate_test_plan", args, query) == HandleGenerateTestPlan(args, query)
  {
    FindsTool(0);
  }

  lemma {:induction false} CodeToolDispatch(args: Json, query: Query)
    ensures CallTool("generate_playwright_code", args, query) == HandleGenerateCode(args, query)
  {
    FindsTool(1);
  }

  lemma {:induction false} FailureToolDispatch(args: Json, query: Query)
    ensures CallTool("analyze_test_failure", args, query) == HandleAnalyzeFailure(args, query)
  {
    FindsTool(2);
  }

  lemma {:induction false} PageToolDispatch(args: Json, query: Query)
    ensures CallTool("analyze_page_context", args, query) == HandleAnalyzePageContext(args, query)
  {
    FindsTool(3);
  }

  /** Every listed tool can be called and reaches its own handler. */
  lemma {:induction false} ListedToolsDispatch(i: nat, args: Json, query: Query)
    requires i < |ListTools()|
    ensures CallTool(ListTools()[i].name, args, query) == Handle(Tools[i].handler, args, query)
  {
    ToolNames();
    if i == 0 {
      PlanToolDispatch(args, query);
    } else if i == 1 {
      CodeToolDispatch(args, query);
    } else if i == 2 {
      FailureToolDispatch(args, query);
    } else {
      PageToolDispatch(args, query);
    }
  }

  /** A name the listing does not show is refused. */
  lemma {:induction false} UnlistedToolRefused(name: string, args: Json, query: Query)
    requires forall i :: 0 <= i < |ListTools()| ==> ListTools()[i].name != name
    ensures CallTool(name, args, query) == Err("Unknown tool: " + name)
  {
    forall t | t in Tools ensures ToolName(t) != name {
      var i :| 0 <= i < |Tools| && Tools[i] == t;
      assert ListTools()[i].name == t.name;
    }
  }

  /** The server does not enforce a schema's `required` list: a failure
      analysis without an error message still reaches the engine, with
      "Unknown error". */
  lemma {:induction false} RequiredNotEnforced(query: Query)
    ensures "errorMessage" in Tools[2].inputSchema.required
    ensures CallTool("analyze_test_failure", Obj(map[]), query)
         == Answer(query(FailureRequest(Str("Unknown error"), Undefined, Undefined, Undefined, false)))
  {
    FailureToolDispatch(Obj(map[]), query);
  }

  /** Every listed resource reads back as one entry with its own uri and
      type; any other uri is refused. */
  lemma {:induction false} ReadListedResource(uri: string)
    ensures (exists i :: 0 <= i < |ListResources()| && ListResources()[i].uri == uri) ==>
      exists r :: r in ListResources() && r.uri == uri && ReadResource(uri) == Ok([ResourceContent(uri, r.mimeType, ResourcePlaceholder)])
    ensures (forall i :: 0 <= i < |ListResources()| ==> ListResources()[i].uri != uri) ==>
      ReadResource(uri) == Err("Unknown resource: " + uri)
  {
    if forall i :: 0 <= i < |ListResources()| ==> ListResources()[i].uri != uri {
      forall r | r in Resources ensures ResourceUri(r) != uri {
        var i :| 0 <= i < |Resources| && Resources[i] == r;
        assert ListResources()[i].uri == r.uri;
      }
    }
  }

  /** The failure analysis takes `errorMessage`, then `error`, then
      "Unknown error". */
  lemma {:induction false} ErrorMessageFallback(m: string, e: Json)
    ensures m != "" ==> ErrorMessageOf(Obj(map["errorMessage" := Str(m), "error" := e])) == Str(m)
    ensures Truthy(e) ==> ErrorMessageOf(Obj(map["error" := e])) == e
    ensures ErrorMessageOf(Obj(map[])) == Str("Unknown error")
  {
  }

  /** The code generator defaults the framework to "playwright-ai", and
      returns the body of a fenced reply and a fence-free reply whole. */
  lemma {:induction false} GeneratedCode(description: string, tag: string, body: string, rest: string, plain: string, query: Query)
    requires tag == "" || tag == "js" || tag == "javascript"
    requires NoBacktick(body) && !Contains(plain, CodeFence)
    ensures var args := Obj(map["testDescription" := Str(description)]);
      && CodeRequestOf(args) == CodeRequest(Str(description), Undefined, Str(DefaultFramework))
      && (query(CodeRequestOf(args)) == Ok(Some(CodeFence + tag + "\n" + body + CodeFence + rest)) ==>
            HandleGenerateCode(args, query) == Ok(TextReply(Some(body))))
      && (query(CodeRequestOf(args)) == Ok(Some(plain)) ==>
            HandleGenerateCode(args, query) == Ok(TextReply(Some(plain))))
  {
    var args := Obj(map["testDescription" := Str(description)]);
    DescriptionOnlyArgs(description);
    FencedBlock(tag, body, rest, false);
    NoFenceUnchanged(plain);
    var fenced := CodeFence + tag + "\n" + body + CodeFence + rest;
    assert ExtractCode(fenced) == body;
    if query(CodeRequestOf(args)) == Ok(Some(fenced)) {
      CodeReply(args, query, fenced);
    }
    if query(CodeRequestOf(args)) == Ok(Some(plain)) {
      CodeReply(args, query, plain);
    }
  }

  /** Arguments holding only a description read as that description with
      no address and the default framework. */
  lemma {:induction false} DescriptionOnlyArgs(description: string)
    ensures var args := Obj(map["testDescription" := Str(description)]);
      && Arg(args, "testDescription") == Ok(Str(description))
      && CodeRequestOf(args) == CodeRequest(Str(description), Undefined, Str(DefaultFramework))
  {
  }

  /** With a string description, the generator answers the strict
      extraction of the engine's reply. */
  lemma {:induction false} CodeReply(args: Json, query: Query, response: string)
    requires Arg(args, "testDescription").Ok? && Arg(args, "testDescription").value.Str?
    requires query(CodeRequestOf(args)) == Ok(Some(response))
    ensures HandleGenerateCode(args, query) == Ok(TextReply(Some(ExtractCode(response))))
  {
  }

  /** Without arguments a known prompt's template comes back unchanged;
      an unknown key is refused whatever the arguments. */
  lemma {:induction false} PromptWithoutArguments(name: string, args: Option<seq<(string, string)>>)
    ensures FindPrompt(name).Some? ==>
      PromptFor(name, None) == Ok([PromptMessage("user", "text", FindPrompt(name).value.prompt.template)])
    ensures FindPrompt(name).None? ==> PromptFor(name, args) == Err("Unknown prompt: " + name)
  {
  }

  /** A template of the registry's shape, a brace-free lead-in followed by
      one placeholder, gets the value in place of its placeholder. */
  lemma {:induction false} FillsPlaceholder(lead: string, key: string, value: string)
    requires '{' !in lead
    ensures Substituted(lead + Placeholder(key), [(key, value)]) == lead + value
  {
    var p := Placeholder(key);
    ReplaceAllSkipsPrefix(lead, p, p, value);
    ReplaceAllAtStart([], p, value);
    assert p + [] == p;
    assert ReplaceAll([], p, value) == [];
    assert value + [] == value;
  }

  /** Arguments whose placeholders do not occur leave the text as it is. */
  lemma {:induction false} AbsentPlaceholdersKeepText(text: string, args: seq<(string, string)>)
    requires forall i :: 0 <= i < |args| ==> !Contains(text, Placeholder(args[i].0))
    ensures Substituted(text, args) == text
    decreases |args|
  {
    if args != [] {
      ReplaceAllAbsent(text, Placeholder(args[0].0), args[0].1);
      AbsentPlaceholdersKeepText(text, args[1..]);
    }
  }

  /** The listing shows prompts by display name, which `getPrompt` does
      not accept: it looks prompts up by key. */
  lemma {:induction false} ListedPromptNamesNotKeys()
    ensures forall i :: 0 <= i < |ListPrompts()| ==> FindPrompt(ListPrompts()[i].name).None?
  {
    forall i | 0 <= i < |ListPrompts()| ensures FindPrompt(ListPrompts()[i].name).None? {
      forall p | p in Prompts ensures PromptKey(p) != ListPrompts()[i].name {
      }
    }
  }
}
