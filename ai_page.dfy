/** The AI-enhanced page wrapper: every interaction is recorded in the
    action history first, then its element is resolved by the page's own
    element finder, then the browser performs it. The browser is a
    `Driver` oracle; screenshots are the bytes it hands back. */
module AiPage {
  import opened Wrappers
  import opened Text
  import opened JsValues
  import opened Browser
  import opened AiEngine
  import ElementFinder

  /** An entry of the action history, with the details it records (the
      timestamp is left out). */
  datatype Action =
    | Navigate(url: string)
    | Fill(description: string, value: string)
    | Click(description: string)
    | Verify(description: string)
    | VerifyText(description: string, expectedText: string)
    | Select(description: string, optionValue: string)
    | Upload(description: string, filePath: string)
    | Script(script: string)
    | Hover(description: string)
    | DoubleClick(description: string)
    | RightClick(description: string)
    | PressKey(key: string)
    | Type(text: string)
  {
    /** The name the history records. */
    function Name(): string {
      match this
      case Navigate(_) => "navigate"
      case Fill(_, _) => "fill"
      case Click(_) => "click"
      case Verify(_) => "verify"
      case VerifyText(_, _) => "verifyText"
      case Select(_, _) => "select"
      case Upload(_, _) => "upload"
      case Script(_) => "script"
      case Hover(_) => "hover"
      case DoubleClick(_) => "doubleClick"
      case RightClick(_) => "rightClick"
      case PressKey(_) => "pressKey"
      case Type(_) => "type"
    }

    /** Whether the action works on an element found by description. */
    predicate OnElement() {
      Fill? || Click? || Verify? || VerifyText? || Select? || Upload? || Hover? || DoubleClick? || RightClick?
    }
  }

  /** The browser carrying out an action, on the element when there is
      one: what it answers (`isVisible`, `textContent`, a script's value)
      or the error it throws. */
  type Driver = (Action, Option<Handle>) -> Result<Json>

  /** A stored screenshot (its timestamp is left out). */
  datatype Screenshot = Screenshot(name: string, buffer: Image)

  /** What `takeScreenshot` returns: the image, or the analysis when one
      was asked for. */
  datatype Shot = Picture(image: Image) | Analysis(analysis: VisualAnalysis)

  /** A destructuring default of `true`: only an absent flag takes it. */
  function FlagOr(v: Json): (b: bool)
    ensures v.Undefined? ==> b
    ensures !v.Undefined? ==> (b <==> Truthy(v))
  {
    if v.Undefined? then true else Truthy(v)
  }

  /** The finder's options as `findElement` reads them from the options
      object the page methods pass on. */
  function FinderOptions(options: Json): (r: Result<ElementFinder.Options>)
    ensures options.Null? <==> r.Err?
    ensures r.Ok? ==> (r.value.enableAI <==> FlagOr(Get(options, "enableAI")))
    ensures r.Ok? ==> (r.value.enableSelfHealing <==> FlagOr(Get(options, "enableSelfHealing")))
  {
    if options.Null? then Err(NullOptions("timeout"))
    else Ok(ElementFinder.Options(FlagOr(Get(options, "enableAI")), FlagOr(Get(options, "enableSelfHealing"))))
  }

  /** Where resolving an element by description ends: the element or the
      error, and the finder's cache afterwards. */
  datatype Located = Located(element: Result<Handle>, cache: ElementFinder.Cache)

  function Locate(cache: ElementFinder.Cache, page: Page, description: string, options: Json,
                  find: ElementFinder.FindOracle, heal: ElementFinder.HealOracle): Located
  {
    match FinderOptions(options)
    case Err(m) => Located(Err(m), cache)
    case Ok(o) =>
      var res := ElementFinder.Resolve(cache, page, description, o, find, heal);
      Located(res.result, res.cache)
  }

  /** The driver's answer for an action on a located element. */
  function Perform(element: Result<Handle>, action: Action, driver: Driver): Result<Json> {
    match element
    case Err(m) => Err(m)
    case Ok(h) => driver(action, Some(h))
  }

  /** The outcome of a page method that returns nothing: the action's
      error, or `undefined` once it is done. */
  function Done(answer: Result<Json>): (r: Result<Json>)
    ensures r.Ok? <==> answer.Ok?
    ensures r.Ok? ==> r.value == Undefined
    ensures r.Err? ==> r.message == answer.message
  {
    match answer
    case Err(m) => Err(m)
    case Ok(_) => Ok(Undefined)
  }

  function NotVisible(description: string): string {
    "Element found but not visible: " + description
  }

  /** `verifyElement`'s verdict on what `isVisible` answered. */
  function Visible(answer: Result<Json>, description: string): (r: Result<bool>)
    ensures r.Ok? ==> r.value
    ensures r.Ok? <==> answer.Ok? && Truthy(answer.value)
  {
    match answer
    case Err(m) => Err(m)
    case Ok(v) => if Truthy(v) then Ok(true) else Err(NotVisible(description))
  }

  /** `verifyText`'s comparison: equal after trimming in exact mode,
      otherwise case-insensitive containment. */
  predicate TextMatches(actual: string, expected: string, exact: bool) {
    if exact then Trim(actual) == Trim(expected) else ContainsCI(actual, expected)
  }

  function TextMismatch(expected: string, actual: string): string {
    "Text mismatch. Expected: \"" + expected + "\", Got: \"" + actual + "\""
  }

  /** `verifyText`'s verdict on what `textContent` answered: a string is
      compared; `null` has no `trim`/`toLowerCase`. */
  function TextVerdict(answer: Result<Json>, expected: string, exact: bool): (r: Result<bool>)
    ensures r.Ok? ==> r.value
    ensures r.Ok? <==> answer.Ok? && answer.value.Str? && TextMatches(answer.value.s, expected, exact)
    ensures answer.Ok? && answer.value.Str? && !TextMatches(answer.value.s, expected, exact) ==>
      r == Err(TextMismatch(expected, answer.value.s))
  {
    match answer
    case Err(m) => Err(m)
    case Ok(Str(actual)) =>
      if TextMatches(actual, expected, exact) then Ok(true) else Err(TextMismatch(expected, actual))
    case Ok(Null) => Err(NullRead(if exact then "trim" else "toLowerCase"))
    case Ok(_) => Err(NoMethod(if exact then "actualText.trim" else "actualText.toLowerCase"))
  }

  function NoMethod(expression: string): string {
    expression + " is not a function"
  }

  function ValidationFailure(issues: seq<string>): string {
    "Page state validation failed: " + Join(issues, ", ")
  }

  /** `validatePageState`'s verdict on the analysis. */
  function Validated(analysis: Result<VisualAnalysis>): (r: Result<VisualAnalysis>)
    ensures r.Ok? <==> analysis.Ok? && analysis.value.matches
    ensures r.Ok? ==> r == analysis
    ensures analysis.Ok? && !analysis.value.matches ==> r == Err(ValidationFailure(analysis.value.issues))
  {
    match analysis
    case Err(m) => Err(m)
    case Ok(a) => if a.matches then Ok(a) else Err(ValidationFailure(a.issues))
  }

  /** Whether `takeScreenshot` asks for an analysis. */
  predicate WantsAnalysis(options: Json) {
    Truthy(Get(options, "analyze")) && Truthy(Get(options, "expectedState"))
  }

  class AIPage {
    const finder: ElementFinder.Finder
    var actionHistory: seq<Action>
    var screenshots: seq<Screenshot>

    /** A fresh page wrapper: its own empty finder, no history, no
        screenshots. */
    constructor ()
      ensures fresh(finder) && finder.selectorCache == map[]
      ensures actionHistory == [] && screenshots == []
    {
      finder := new ElementFinder.Finder();
      actionHistory := [];
      screenshots := [];
    }

    /** `recordAction`. */
    method Record(action: Action)
      modifies this
      ensures actionHistory == old(actionHistory) + [action]
      ensures screenshots == old(screenshots)
    {
      actionHistory := actionHistory + [action];
    }

    /** Resolving an element with the page's finder. */
    method Find(page: Page, description: string, options: Json,
                find: ElementFinder.FindOracle, heal: ElementFinder.HealOracle) returns (r: Result<Handle>)
      modifies finder
      ensures var l := Locate(old(finder.selectorCache), page, description, options, find, heal);
        r == l.element && finder.selectorCache == l.cache
    {
      var o := FinderOptions(options);
      if o.Err? {
        return Err(o.message);
      }
      r := finder.FindElement(page, description, o.value, find, heal);
    }

    /** The shape shared by the element actions: record, resolve,
        perform. The record stays even when resolving fails. */
    method Interact(page: Page, action: Action, options: Json, find: ElementFinder.FindOracle,
                    heal: ElementFinder.HealOracle, driver: Driver) returns (r: Result<Json>)
      requires action.OnElement()
      modifies this, finder
      ensures actionHistory == old(actionHistory) + [action] && screenshots == old(screenshots)
      ensures var l := Locate(old(finder.selectorCache), page, action.description, options, find, heal);
        finder.selectorCache == l.cache && r == Perform(l.element, action, driver)
    {
      Record(action);
      var element := Find(page, action.description, options, find, heal);
      if element.Err? {
        return Err(element.message);
      }
      r := driver(action, Some(element.value));
    }

    /** An action on the page itself: record, perform. */
    method PageAction(action: Action, driver: Driver) returns (r: Result<Json>)
      requires !action.OnElement()
      modifies this
      ensures actionHistory == old(actionHistory) + [action] && screenshots == old(screenshots)
      ensures r == driver(action, None)
    {
      Record(action);
      r := driver(action, None);
    }

    /** `navigateTo`: the history records the address even when loading
        it fails; `null` options fail on reading `waitUntil`; the wait for
        network idle cannot fail. */
    method NavigateTo(url: string, options: Json, driver: Driver) returns (r: Result<Json>)
      modifies this
      ensures actionHistory == old(actionHistory) + [Navigate(url)] && screenshots == old(screenshots)
      ensures options.Null? ==> r == Err(NullRead("waitUntil"))
      ensures !options.Null? ==> r == Done(driver(Navigate(url), None))
    {
      Record(Navigate(url));
      if options.Null? {
        return Err(NullRead("waitUntil"));
      }
      r := Done(driver(Navigate(url), None));
    }

    method FillField(page: Page, description: string, value: string, options: Json, find: ElementFinder.FindOracle,
                     heal: ElementFinder.HealOracle, driver: Driver) returns (r: Result<Json>)
      modifies this, finder
      ensures actionHistory == old(actionHistory) + [Fill(description, value)] && screenshots == old(screenshots)
      ensures var l := Locate(old(finder.selectorCache), page, description, options, find, heal);
        finder.selectorCache == l.cache && r == Done(Perform(l.element, Fill(description, value), driver))
    {
      var answer := Interact(page, Fill(description, value), options, find, heal, driver);
      r := Done(answer);
    }

    method ClickElement(page: Page, description: string, options: Json, find: ElementFinder.FindOracle,
                        heal: ElementFinder.HealOracle, driver: Driver) returns (r: Result<Json>)
      modifies this, finder
      ensures actionHistory == old(actionHistory) + [Click(description)] && screenshots == old(screenshots)
      ensures var l := Locate(old(finder.selectorCache), page, description, options, find, heal);
        finder.selectorCache == l.cache && r == Done(Perform(l.element, Click(description), driver))
    {
      var answer := Interact(page, Click(description), options, find, heal, driver);
      r := Done(answer);
    }

    /** `verifyElement`: true when the element is found and visible. */
    method VerifyElement(page: Page, description: string, options: Json, find: ElementFinder.FindOracle,
                         heal: ElementFinder.HealOracle, driver: Driver) returns (r: Result<bool>)
      modifies this, finder
      ensures actionHistory == old(actionHistory) + [Verify(description)] && screenshots == old(screenshots)
      ensures var l := Locate(old(finder.selectorCache), page, description, options, find, heal);
        finder.selectorCache == l.cache && r == Visible(Perform(l.element, Verify(description), driver), description)
    {
      var answer := Interact(page, Verify(description), options, find, heal, driver);
      r := Visible(answer, description);
    }

    /** `verifyText`: the element's text checked in the mode `options.exact`
        selects. */
    method VerifyTextOf(page: Page, description: string, expectedText: string, options: Json,
                        find: ElementFinder.FindOracle, heal: ElementFinder.HealOracle, driver: Driver)
      returns (r: Result<bool>)
      modifies this, finder
      ensures actionHistory == old(actionHistory) + [VerifyText(description, expectedText)] && screenshots == old(screenshots)
      ensures var l := Locate(old(finder.selectorCache), page, description, options, find, heal);
        finder.selectorCache == l.cache
        && r == TextVerdict(Perform(l.element, VerifyText(description, expectedText), driver), expectedText,
                            Truthy(Get(options, "exact")))
    {
      var answer := Interact(page, VerifyText(description, expectedText), options, find, heal, driver);
      r := TextVerdict(answer, expectedText, Truthy(Get(options, "exact")));
    }

    method SelectOption(page: Page, description: string, optionValue: string, options: Json,
                        find: ElementFinder.FindOracle, heal: ElementFinder.HealOracle, driver: Driver) returns (r: Result<Json>)
      modifies this, finder
      ensures actionHistory == old(actionHistory) + [Select(description, optionValue)] && screenshots == old(screenshots)
      ensures var l := Locate(old(finder.selectorCache), page, description, options, find, heal);
        finder.selectorCache == l.cache && r == Done(Perform(l.element, Select(description, optionValue), driver))
    {
      var answer := Interact(page, Select(description, optionValue), options, find, heal, driver);
      r := Done(answer);
    }

    method UploadFile(page: Page, description: string, filePath: string, options: Json,
                      find: ElementFinder.FindOracle, heal: ElementFinder.HealOracle, driver: Driver) returns (r: Result<Json>)
      modifies this, finder
      ensures actionHistory == old(actionHistory) + [Upload(description, filePath)] && screenshots == old(screenshots)
      ensures var l := Locate(old(finder.selectorCache), page, description, options, find, heal);
        finder.selectorCache == l.cache && r == Done(Perform(l.element, Upload(description, filePath), driver))
    {
      var answer := Interact(page, Upload(description, filePath), options, find, heal, driver);
      r := Done(answer);
    }

    /** `waitForElement`: only the timeout is passed on, so AI and
        self-healing are always on; nothing is recorded. */
    method WaitForElement(page: Page, description: string, options: Json,
                          find: ElementFinder.FindOracle, heal: ElementFinder.HealOracle) returns (r: Result<Handle>)
      modifies finder
      ensures options.Null? ==> r == Err(NullRead("timeout")) && finder.selectorCache == old(finder.selectorCache)
      ensures !options.Null? ==>
        var res := ElementFinder.Resolve(old(finder.selectorCache), page, description, ElementFinder.DefaultOptions, find, heal);
        r == res.result && finder.selectorCache == res.cache
    {
      if options.Null? {
        return Err(NullRead("timeout"));
      }
      r := finder.FindElement(page, description, ElementFinder.DefaultOptions, find, heal);
    }

    /** `takeScreenshot`: a taken screenshot is always stored; it is
        analysed only when both `analyze` and `expectedState` are set. */
    method TakeScreenshot(name: string, options: Json, shot: Result<Image>, engine: Engine,
                          ask: string -> Result<VisualAnalysis>) returns (r: Result<Shot>)
      modifies this
      ensures actionHistory == old(actionHistory)
      ensures options.Null? ==> r == Err(NullRead("path")) && screenshots == old(screenshots)
      ensures !options.Null? && shot.Err? ==> r == Err(shot.message) && screenshots == old(screenshots)
      ensures !options.Null? && shot.Ok? ==> screenshots == old(screenshots) + [Screenshot(name, shot.value)]
      ensures !options.Null? && shot.Ok? && !WantsAnalysis(options) ==> r == Ok(Picture(shot.value))
      ensures !options.Null? && shot.Ok? && WantsAnalysis(options) && Get(options, "expectedState").Str? ==>
        var a := engine.AnalyzeScreenshot(Get(options, "expectedState").s, ask);
        r == if a.Ok? then Ok(Analysis(a.value)) else Err(a.message)
    {
      if options.Null? {
        return Err(NullRead("path"));
      }
      if shot.Err? {
        return Err(shot.message);
      }
      screenshots := screenshots + [Screenshot(name, shot.value)];
      if !WantsAnalysis(options) {
        return Ok(Picture(shot.value));
      }
      var expected := Get(options, "expectedState");
      var state := if expected.Str? then expected.s else "";
      var a := engine.AnalyzeScreenshot(state, ask);
      if a.Err? {
        return Err(a.message);
      }
      r := Ok(Analysis(a.value));
    }

    /** `validatePageState`: the analysis when the page matches, else the
        issues joined into the error. */
    method ValidatePageState(expectedState: string, shot: Result<Image>, engine: Engine,
                             ask: string -> Result<VisualAnalysis>) returns (r: Result<VisualAnalysis>)
      ensures shot.Err? ==> r == Err(shot.message)
      ensures shot.Ok? ==> r == Validated(engine.AnalyzeScreenshot(expectedState, ask))
    {
      if shot.Err? {
        return Err(shot.message);
      }
      r := Validated(engine.AnalyzeScreenshot(expectedState, ask));
    }

    method ExecuteScript(script: string, driver: Driver) returns (r: Result<Json>)
      modifies this
      ensures actionHistory == old(actionHistory) + [Script(script)] && screenshots == old(screenshots)
      ensures r == driver(Script(script), None)
    {
      r := PageAction(Script(script), driver);
    }

    method HoverElement(page: Page, description: string, options: Json, find: ElementFinder.FindOracle,
                        heal: ElementFinder.HealOracle, driver: Driver) returns (r: Result<Json>)
      modifies this, finder
      ensures actionHistory == old(actionHistory) + [Hover(description)] && screenshots == old(screenshots)
      ensures var l := Locate(old(finder.selectorCache), page, description, options, find, heal);
        finder.selectorCache == l.cache && r == Done(Perform(l.element, Hover(description), driver))
    {
      var answer := Interact(page, Hover(description), options, find, heal, driver);
      r := Done(answer);
    }

    method DoubleClickElement(page: Page, description: string, options: Json, find: ElementFinder.FindOracle,
                              heal: ElementFinder.HealOracle, driver: Driver) returns (r: Result<Json>)
      modifies this, finder
      ensures actionHistory == old(actionHistory) + [DoubleClick(description)] && screenshots == old(screenshots)
      ensures var l := Locate(old(finder.selectorCache), page, description, options, find, heal);
        finder.selectorCache == l.cache && r == Done(Perform(l.element, DoubleClick(description), driver))
    {
      var answer := Interact(page, DoubleClick(description), options, find, heal, driver);
      r := Done(answer);
    }

    method RightClickElement(page: Page, description: string, options: Json, find: ElementFinder.FindOracle,
                             heal: ElementFinder.HealOracle, driver: Driver) returns (r: Result<Json>)
      modifies this, finder
      ensures actionHistory == old(actionHistory) + [RightClick(description)] && screenshots == old(screenshots)
      ensures var l := Locate(old(finder.selectorCache), page, description, options, find, heal);
        finder.selectorCache == l.cache && r == Done(Perform(l.element, RightClick(description), driver))
    {
      var answer := Interact(page, RightClick(description), options, find, heal, driver);
      r := Done(answer);
    }

    method PressKeyNamed(key: string, driver: Driver) returns (r: Result<Json>)
      modifies this
      ensures actionHistory == old(actionHistory) + [PressKey(key)] && screenshots == old(screenshots)
      ensures r == Done(driver(PressKey(key), None))
    {
      var answer := PageAction(PressKey(key), driver);
      r := Done(answer);
    }

    method TypeText(text: string, driver: Driver) returns (r: Result<Json>)
      modifies this
      ensures actionHistory == old(actionHistory) + [Type(text)] && screenshots == old(screenshots)
      ensures r == Done(driver(Type(text), None))
    {
      var answer := PageAction(Type(text), driver);
      r := Done(answer);
    }

    /** `clearCache`: empties the finder's cache; history and screenshots
        stay. */
    method ClearCache()
      modifies finder
      ensures finder.selectorCache == map[]
    {
      finder.ClearCache();
    }
  }

  // ---------------------------------------------------------------------
  // Properties

  /** Any options but `null` are read; there, leaving a flag out keeps AI
      and self-healing on, and only an explicit falsy flag turns one off. */
  lemma {:induction false} FinderDefaults(options: Json)
    ensures FinderOptions(options).Ok? <==> !options.Null?
    ensures !options.Null? ==>
      (!FinderOptions(options).value.enableAI <==> !Get(options, "enableAI").Undefined? && !Truthy(Get(options, "enableAI")))
    ensures !options.Null? ==>
      (var flag := Get(options, "enableSelfHealing");
       !FinderOptions(options).value.enableSelfHealing <==> !flag.Undefined? && !Truthy(flag))
  {
  }

  /** Every text matches itself in both modes. */
  lemma {:induction false} TextMatchesItself(s: string, exact: bool)
    ensures TextMatches(s, s, exact)
  {
    if !exact {
      assert OccursAt(Lower(s), Lower(s), 0);
    }
  }

  /** Exact mode ignores white space around the text. */
  lemma {:induction false} ExactIgnoresPadding(front: string, s: string, back: string, expected: string)
    requires AllSpace(front) && AllSpace(back)
    ensures TextMatches(front + s + back, expected, true) <==> TextMatches(s, expected, true)
  {
    TrimPadding(front, s, back);
  }

  /** Containment mode ignores letter case on both sides. */
  lemma {:induction false} ContainsIgnoresCase(actual: string, expected: string)
    ensures TextMatches(Lower(actual), Lower(expected), false) <==> TextMatches(actual, expected, false)
  {
    LowerIdempotent(actual);
    LowerIdempotent(expected);
  }

  /** Exact mode is not the stronger: an expected text with white space
      around it still matches exactly, but is longer than the text and so
      not contained in it. */
  lemma {:induction false} ExactNotContained(actual: string, pad: string)
    requires AllSpace(pad) && pad != []
    ensures TextMatches(actual, pad + actual + pad, true)
    ensures !TextMatches(actual, pad + actual + pad, false)
  {
    TrimPadding(pad, actual, pad);
    var big := Lower(pad + actual + pad);
    assert |Lower(actual)| < |big|;
  }

  /** Containment is not the stronger either: a lower-case text that
      extends the expected one contains it without matching it exactly. */
  lemma {:induction false} ContainedNotExact(expected: string, tail: string)
    requires IsLower(expected) && IsLower(tail)
    requires expected != [] && !IsSpace(expected[0]) && !IsSpace(expected[|expected| - 1])
    requires tail != [] && !IsSpace(tail[|tail| - 1])
    ensures TextMatches(expected + tail, expected, false)
    ensures !TextMatches(expected + tail, expected, true)
  {
    var actual := expected + tail;
    assert forall k :: 0 <= k < |actual| ==> LowerChar(actual[k]) == actual[k] by {
      forall k | 0 <= k < |actual| ensures LowerChar(actual[k]) == actual[k] {
        if k < |expected| { assert actual[k] == expected[k]; } else { assert actual[k] == tail[k - |expected|]; }
      }
    }
    LowerFixed(actual);
    LowerFixed(expected);
    assert actual[0..|expected|] == expected;
    ContainsWitness(actual, expected, 0);
    TrimNoSpace(actual);
    TrimNoSpace(expected);
  }

  /** A failed validation lists the issues, separated by commas. */
  lemma {:induction false} ValidationListsIssues(a: VisualAnalysis)
    requires !a.matches
    ensures Validated(Ok(a)).Err?
    ensures forall k :: 0 <= k < |a.issues| ==> Contains(Validated(Ok(a)).message, a.issues[k])
  {
    var prefix := "Page state validation failed: ";
    forall k | 0 <= k < |a.issues| ensures Contains(Validated(Ok(a)).message, a.issues[k]) {
      var i := JoinOffset(a.issues, ", ", k);
      assert ValidationFailure(a.issues) == prefix + Join(a.issues, ", ");
      assert (prefix + Join(a.issues, ", "))[|prefix| + i..|prefix| + i + |a.issues[k]|] == Join(a.issues, ", ")[i..i + |a.issues[k]|];
      ContainsWitness(ValidationFailure(a.issues), a.issues[k], |prefix| + i);
    }
  }
}
