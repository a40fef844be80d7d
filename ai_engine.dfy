/** The AI engine: provider resolution from the environment, the guards
    that refuse work when AI is disabled, the HTML excerpts sent with a
    selector request, the local vision stub, and the message list of a
    general query. Each backend call is an oracle parameter that maps the
    request the engine builds to the backend's parsed reply or an error. */
module AiEngine {
  import opened Wrappers
  import opened Text
  import opened JsValues

  /** The process environment: only non-empty values count as set, as with
      `process.env.NAME || default`. */
  type Env = map<string, string>

  function EnvOr(env: Env, name: string, default: string): (r: string)
    ensures name in env && env[name] != [] ==> r == env[name]
    ensures !(name in env && env[name] != []) ==> r == default
  {
    if name in env && env[name] != [] then env[name] else default
  }

  const DefaultProvider := "anthropic"
  const AnthropicModel := "claude-sonnet-4-20250514"
  const DefaultLocalUrl := "http://localhost:11434/v1"
  const DefaultLocalKey := "not-needed"
  const DefaultLocalModel := "llama3.2:3b"
  /** How much of the page HTML a selector request carries. */
  const HtmlLimit: nat := 10000
  const TruncationMarker := "...[truncated]"

  /** The SDK client the engine holds: none, Anthropic, or an
      OpenAI-compatible client pointed at a local server. */
  datatype Client = NoClient | AnthropicClient(apiKey: string) | LocalClient(baseUrl: string, apiKey: string)

  /** The three fields `initializeProvider` writes. */
  datatype Setup = Setup(provider: string, client: Client, model: Option<string>)

  /** `initializeLocal`: an OpenAI-compatible client with the local defaults. */
  function LocalSetup(provider: string, env: Env): (s: Setup)
    ensures s.client.LocalClient? && s.model.Some? && s.provider == provider
    ensures s.client.baseUrl == EnvOr(env, "LOCAL_LLM_URL", DefaultLocalUrl)
    ensures s.client.apiKey == EnvOr(env, "LOCAL_LLM_API_KEY", DefaultLocalKey)
    ensures s.model.value == EnvOr(env, "LOCAL_LLM_MODEL", DefaultLocalModel)
  {
    Setup(provider,
      LocalClient(EnvOr(env, "LOCAL_LLM_URL", DefaultLocalUrl), EnvOr(env, "LOCAL_LLM_API_KEY", DefaultLocalKey)),
      Some(EnvOr(env, "LOCAL_LLM_MODEL", DefaultLocalModel)))
  }

  /** `initializeProvider` for a requested provider name: the switch is on
      the lower-cased name, but the stored name is only replaced on the two
      fall-back paths. `before` is the state the "disabled" case keeps. */
  function Configure(requested: string, env: Env, before: Setup): Setup {
    var name := Lower(requested);
    if name == "anthropic" then
      if "ANTHROPIC_API_KEY" in env && env["ANTHROPIC_API_KEY"] != [] then
        Setup(requested, AnthropicClient(env["ANTHROPIC_API_KEY"]), Some(AnthropicModel))
      else LocalSetup("local", env)
    else if name == "local" then LocalSetup(requested, env)
    else if name == "disabled" then before
    else LocalSetup("local", env)
  }

  /** How a method of the engine dispatches on the stored provider name,
      which it compares exactly. */
  datatype Backend = Anthropic | Local
  datatype Route = Refused | Via(backend: Backend) | FallThrough

  function RouteOf(provider: string): (r: Route)
    ensures r == Refused <==> provider == "disabled"
    ensures r == Via(Anthropic) <==> provider == "anthropic"
    ensures r == Via(Local) <==> provider == "local"
  {
    if provider == "disabled" then Refused
    else if provider == "anthropic" then Via(Anthropic)
    else if provider == "local" then Via(Local)
    else FallThrough
  }

  /** The excerpt a selector request carries: at most `HtmlLimit`
      characters, a space, and the marker when the page was longer. */
  function FindExcerpt(html: string): string {
    if |html| > HtmlLimit then html[..HtmlLimit] + " " + TruncationMarker
    else html + " "
  }

  /** The excerpt a self-heal request carries: a plain prefix. */
  function HealExcerpt(html: string): string {
    if |html| > HtmlLimit then html[..HtmlLimit] else html
  }

  /** A selector suggestion as the finder reads it. */
  datatype FindSuggestion = FindSuggestion(primarySelector: string, fallbackSelectors: Option<seq<string>>, confidence: real)
  /** A self-heal suggestion as the finder and the healer read it. */
  datatype HealSuggestion = HealSuggestion(diagnosis: string, newSelectors: seq<string>, confidence: real)
  /** A screenshot verdict. */
  datatype VisualAnalysis = VisualAnalysis(matches: bool, confidence: real, observations: seq<string>, issues: seq<string>, suggestions: seq<string>)

  /** The fixed verdict the local provider returns instead of a vision call. */
  const LocalVisionStub := VisualAnalysis(true, 0.5, ["Vision analysis skipped - local LLM has no vision capability"], [], [])

  /** A screenshot's bytes. */
  type Image = seq<bv8>

  /** What `analyzeTestFailure` sends: the test's name and step, the
      error's message and stack, and, to Anthropic only, the screenshot
      when one is given. */
  datatype FailureRequest = FailureRequest(backend: Backend, testName: string, step: string, errorMessage: string,
                                           errorStack: string, screenshot: Option<Image>)

  function FailureRequestOf(backend: Backend, testName: string, step: string, errorMessage: string, errorStack: string,
                            screenshot: Option<Image>): (q: FailureRequest)
    ensures q.backend == backend && q.testName == testName && q.step == step
    ensures q.errorMessage == errorMessage && q.errorStack == errorStack
    ensures q.screenshot.Some? <==> backend == Anthropic && screenshot.Some?
    ensures q.screenshot.Some? ==> q.screenshot == screenshot
  {
    FailureRequest(backend, testName, step, errorMessage, errorStack, if backend == Anthropic then screenshot else None)
  }

  /** One chat message of a general query. */
  datatype Message = Message(role: string, content: string)
  /** Options of `query`; `None` is an option left undefined. */
  datatype QueryOptions = QueryOptions(maxTokens: Option<nat>, temperature: Option<real>, systemMessage: Option<string>)
  /** What `query` sends to the backend. */
  datatype ChatRequest = ChatRequest(backend: Backend, model: Option<string>, messages: seq<Message>, maxTokens: nat, temperature: real)

  const DefaultMaxTokens: nat := 2000
  const DefaultTemperature: real := 0.1
  const DefaultSystemMessage := "You are a helpful AI assistant for test automation. Respond with valid JSON when requested."

  /** The messages of a query: the user prompt alone for Anthropic; a
      system message (the given one when non-empty, else the default)
      followed by the user prompt for the local provider. */
  function QueryMessages(backend: Backend, prompt: string, systemMessage: Option<string>): seq<Message> {
    match backend
    case Anthropic => [Message("user", prompt)]
    case Local =>
      var system := if systemMessage.Some? && systemMessage.value != [] then systemMessage.value else DefaultSystemMessage;
      [Message("system", system), Message("user", prompt)]
  }

  lemma {:induction false} MessagesNotCreate()
    ensures UndefinedRead("messages") != UndefinedRead("create")
  {
    var n := |UndefinedReadHead|;
    assert UndefinedRead("messages")[n] == 'm';
    assert UndefinedRead("create")[n] == 'c';
  }

  /** `this.client.messages.create` without an Anthropic client: with no
      client at all the read of `messages` fails; an OpenAI-compatible
      client has no `messages`, so the read of `create` fails. */
  function NoMessagesApi(client: Client): (e: string)
    requires !client.AnthropicClient?
    ensures client.NoClient? <==> e == UndefinedRead("messages")
    ensures client.LocalClient? <==> e == UndefinedRead("create")
  {
    MessagesNotCreate();
    if client.NoClient? then UndefinedRead("messages") else UndefinedRead("create")
  }

  class Engine {
    var provider: string
    var client: Client
    var model: Option<string>

    function State(): Setup reads this { Setup(provider, client, model) }

    /** The engine reads `AI_PROVIDER` (default "anthropic") and
        configures itself from it. */
    constructor (env: Env)
      ensures State() == Configure(EnvOr(env, "AI_PROVIDER", DefaultProvider), env,
                                   Setup(EnvOr(env, "AI_PROVIDER", DefaultProvider), NoClient, None))
    {
      provider := EnvOr(env, "AI_PROVIDER", DefaultProvider);
      client := NoClient;
      model := None;
      new;
      InitializeProvider(env);
    }

    method InitializeProvider(env: Env)
      modifies this
      ensures State() == Configure(old(provider), env, old(State()))
    {
      var name := Lower(provider);
      if name == "anthropic" {
        if !("ANTHROPIC_API_KEY" in env && env["ANTHROPIC_API_KEY"] != []) {
          provider := "local";
          InitializeLocal(env);
        } else {
          client := AnthropicClient(env["ANTHROPIC_API_KEY"]);
          model := Some(AnthropicModel);
        }
      } else if name == "local" {
        InitializeLocal(env);
      } else if name == "disabled" {
      } else {
        provider := "local";
        InitializeLocal(env);
      }
    }

    method InitializeLocal(env: Env)
      modifies this
      ensures State() == LocalSetup(old(provider), env)
    {
      client := LocalClient(EnvOr(env, "LOCAL_LLM_URL", DefaultLocalUrl), EnvOr(env, "LOCAL_LLM_API_KEY", DefaultLocalKey));
      model := Some(EnvOr(env, "LOCAL_LLM_MODEL", DefaultLocalModel));
    }

    /** `findElementSelector`: refused when disabled; otherwise the backend
        answers the request for the excerpt and the description, and a name
        that matches neither backend exactly yields `undefined` (`None`). */
    function FindElementSelector(html: string, description: string,
                                 ask: (Backend, string, string) -> Result<FindSuggestion>): (r: Result<Option<FindSuggestion>>)
      reads this
      ensures provider == "disabled" ==> r == Err("AI is disabled. Use standard selectors.")
      ensures RouteOf(provider).Via? ==>
        match ask(RouteOf(provider).backend, FindExcerpt(html), description)
        case Ok(s) => r == Ok(Some(s))
        case Err(m) => r == Err(m)
      ensures RouteOf(provider) == FallThrough ==> r == Ok(None)
    {
      match RouteOf(provider)
      case Refused => Err("AI is disabled. Use standard selectors.")
      case FallThrough => Ok(None)
      case Via(b) =>
        match ask(b, FindExcerpt(html), description)
        case Ok(s) => Ok(Some(s))
        case Err(m) => Err(m)
    }

    /** `analyzeScreenshot`: refused when disabled, the fixed stub on the
        local provider, otherwise a call through the Anthropic client API,
        which fails when the engine holds no Anthropic client. */
    function AnalyzeScreenshot(expectedState: string, ask: string -> Result<VisualAnalysis>): (r: Result<VisualAnalysis>)
      reads this
      ensures provider == "disabled" ==> r == Err("AI is disabled. Use standard assertions.")
      ensures provider == "local" ==> r == Ok(LocalVisionStub)
      ensures provider != "disabled" && provider != "local" && client.AnthropicClient? ==> r == ask(expectedState)
      ensures provider != "disabled" && provider != "local" && client.NoClient? ==> r == Err(UndefinedRead("messages"))
      ensures provider != "disabled" && provider != "local" && client.LocalClient? ==> r == Err(UndefinedRead("create"))
    {
      if provider == "disabled" then Err("AI is disabled. Use standard assertions.")
      else if provider == "local" then Ok(LocalVisionStub)
      else if client.AnthropicClient? then ask(expectedState)
      else Err(NoMessagesApi(client))
    }

    /** `selfHealSelector`: refused when disabled; the backend sees the
        plain excerpt, the last known selector and the description. */
    function SelfHealSelector(html: string, lastKnownSelector: string, description: string,
                              ask: (Backend, string, string, string) -> Result<HealSuggestion>): (r: Result<Option<HealSuggestion>>)
      reads this
      ensures provider == "disabled" ==> r == Err("AI is disabled.")
      ensures RouteOf(provider).Via? ==>
        match ask(RouteOf(provider).backend, HealExcerpt(html), lastKnownSelector, description)
        case Ok(s) => r == Ok(Some(s))
        case Err(m) => r == Err(m)
      ensures RouteOf(provider) == FallThrough ==> r == Ok(None)
    {
      match RouteOf(provider)
      case Refused => Err("AI is disabled.")
      case FallThrough => Ok(None)
      case Via(b) =>
        match ask(b, HealExcerpt(html), lastKnownSelector, description)
        case Ok(s) => Ok(Some(s))
        case Err(m) => Err(m)
    }

    /** `analyzeTestFailure` never fails: disabled and a backend error give
        `null`, and a provider name matching no backend falls off the end
        of the method and gives `undefined`. */
    function AnalyzeTestFailure(testName: string, step: string, errorMessage: string, errorStack: string,
                                screenshot: Option<Image>, ask: FailureRequest -> Result<Json>): (r: Json)
      reads this
      ensures var route := RouteOf(provider);
        route.Via? && ask(FailureRequestOf(route.backend, testName, step, errorMessage, errorStack, screenshot)).Ok? ==>
          r == ask(FailureRequestOf(route.backend, testName, step, errorMessage, errorStack, screenshot)).value
      ensures var route := RouteOf(provider);
        route.Via? && ask(FailureRequestOf(route.backend, testName, step, errorMessage, errorStack, screenshot)).Err? ==> r == Null
      ensures RouteOf(provider) == Refused ==> r == Null
      ensures RouteOf(provider) == FallThrough ==> r == Undefined
    {
      match RouteOf(provider)
      case Refused => Null
      case FallThrough => Undefined
      case Via(b) =>
        match ask(FailureRequestOf(b, testName, step, errorMessage, errorStack, screenshot))
        case Ok(v) => v
        case Err(_) => Null
    }

    /** The request `query` sends on a backend, options defaulted. */
    function QueryRequest(backend: Backend, prompt: string, options: QueryOptions): ChatRequest
      reads this
    {
      ChatRequest(backend, model, QueryMessages(backend, prompt, options.systemMessage),
                  options.maxTokens.GetOr(DefaultMaxTokens), options.temperature.GetOr(DefaultTemperature))
    }

    /** `query`: refused when disabled; otherwise the backend's reply text
        to the assembled request, or `undefined` for an unmatched name. */
    function Query(prompt: string, options: QueryOptions, ask: ChatRequest -> Result<string>): (r: Result<Option<string>>)
      reads this
      ensures provider == "disabled" ==> r == Err("AI is disabled.")
      ensures RouteOf(provider).Via? ==>
        match ask(QueryRequest(RouteOf(provider).backend, prompt, options))
        case Ok(t) => r == Ok(Some(t))
        case Err(m) => r == Err(m)
      ensures RouteOf(provider) == FallThrough ==> r == Ok(None)
    {
      match RouteOf(provider)
      case Refused => Err("AI is disabled.")
      case FallThrough => Ok(None)
      case Via(b) =>
        match ask(QueryRequest(b, prompt, options))
        case Ok(t) => Ok(Some(t))
        case Err(m) => Err(m)
    }
  }

  /** After configuration the provider is one of the names the dispatch
      knows, or a mixed-case spelling of "anthropic", "local" or "disabled"
      that was kept as given. Unknown names, and "anthropic" without a key,
      become "local". */
  lemma {:induction false} ConfigureProvider(requested: string, env: Env, before: Setup)
    requires before.provider == requested
    ensures Lower(requested) !in {"anthropic", "local", "disabled"} ==> Configure(requested, env, before).provider == "local"
    ensures Lower(requested) == "anthropic" && !("ANTHROPIC_API_KEY" in env && env["ANTHROPIC_API_KEY"] != []) ==>
              Configure(requested, env, before).provider == "local" && Configure(requested, env, before).client.LocalClient?
    ensures Lower(Configure(requested, env, before).provider) in {"anthropic", "local", "disabled"}
    ensures Lower(requested) == "disabled" ==> Configure(requested, env, before) == before
  {
    var name := Lower(requested);
    if name == "anthropic" || name == "local" || name == "disabled" {
      var p := Configure(requested, env, before).provider;
      if p == "local" {
        assert Lower("local") == "local" by { LowerLocal(); }
      } else {
        assert p == requested;
      }
    } else {
      assert Lower("local") == "local" by { LowerLocal(); }
    }
  }

  lemma {:induction false} LowerLocal()
    ensures Lower("local") == "local"
  {
    assert Lower("local") == [LowerChar('l')] + Lower("ocal");
    assert Lower("ocal") == [LowerChar('o')] + Lower("cal");
    assert Lower("cal") == [LowerChar('c')] + Lower("al");
    assert Lower("al") == [LowerChar('a')] + Lower("l");
    assert Lower("l") == [LowerChar('l')] + Lower("");
  }

  /** Configuration and dispatch disagree on case: a provider spelled
      "Local" gets a local client, yet every dispatching call falls through
      both branches and yields `undefined`. */
  lemma {:induction false} MixedCaseLocalFallsThrough(env: Env, before: Setup)
    ensures Configure("Local", env, before).client.LocalClient?
    ensures Configure("Local", env, before).provider == "Local"
    ensures RouteOf(Configure("Local", env, before).provider) == FallThrough
  {
    assert Lower("Local") == [LowerChar('L')] + Lower("ocal");
    assert Lower("ocal") == [LowerChar('o')] + Lower("cal");
    assert Lower("cal") == [LowerChar('c')] + Lower("al");
    assert Lower("al") == [LowerChar('a')] + Lower("l");
    assert Lower("l") == [LowerChar('l')] + Lower("");
    assert Lower("Local") == "local";
  }

  /** The selector-request excerpt starts with the page's first
      `HtmlLimit` characters and ends with the marker exactly when the page
      was longer than that. */
  lemma {:induction false} FindExcerptShape(html: string)
    ensures |html| <= HtmlLimit ==> FindExcerpt(html) == html + " "
    ensures |html| > HtmlLimit ==> |FindExcerpt(html)| == HtmlLimit + 1 + |TruncationMarker|
    ensures var e := FindExcerpt(html);
      (|e| >= |TruncationMarker| && e[|e| - |TruncationMarker|..] == TruncationMarker) <==> |html| > HtmlLimit
    ensures StartsWith(FindExcerpt(html), if |html| > HtmlLimit then html[..HtmlLimit] else html)
  {
    var e := FindExcerpt(html);
    if |html| <= HtmlLimit {
      assert e[|e| - 1] == ' ';
    }
  }

  /** The self-heal excerpt is the page's prefix of at most `HtmlLimit`
      characters, with no marker. */
  lemma {:induction false} HealExcerptShape(html: string)
    ensures |HealExcerpt(html)| == if |html| > HtmlLimit then HtmlLimit else |html|
    ensures StartsWith(html, HealExcerpt(html))
  {
  }

  /** A local query sends exactly a system message and then the prompt; an
      Anthropic query sends the prompt alone; unset options take their
      defaults. */
  lemma {:induction false} QueryRequestShape(e: Engine, backend: Backend, prompt: string, options: QueryOptions)
    ensures var q := e.QueryRequest(backend, prompt, options);
      (backend == Local ==> |q.messages| == 2 && q.messages[0].role == "system" && q.messages[1] == Message("user", prompt))
      && (backend == Local && options.systemMessage.Some? && options.systemMessage.value != [] ==>
            q.messages[0].content == options.systemMessage.value)
      && (backend == Local && (options.systemMessage.None? || options.systemMessage.value == []) ==>
            q.messages[0].content == DefaultSystemMessage)
      && (backend == Anthropic ==> q.messages == [Message("user", prompt)])
      && (options.maxTokens.None? ==> q.maxTokens == 2000)
      && (options.temperature.None? ==> q.temperature == 0.1)
  {
  }
}
