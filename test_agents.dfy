/** The planner, generator and healer agents (`src/core/test-agents.js`):
    their three histories, the parsing of an AI reply, the auto-apply rule
    of the healer, the dispatch of one plan step and the execution of a
    whole plan. The AI engine is an oracle `Ask` from an abstract request
    to the reply of `query`; `JSON.parse` is an oracle `Parse`; the page
    actions of a step are an oracle `Perform`. */
module Agents {
  import opened Wrappers
  import opened Text
  import opened JsValues
  import opened JsNumbers

  // ---------------------------------------------------------------------
  // Oracles

  /** What an agent asks the engine: the values its prompt interpolates;
      the prompt wording is not modelled. */
  datatype AgentRequest =
    | PlanRequest(description: string, planSettings: PlanSettings)
    | GenerateRequest(plan: Json, generateSettings: GenerateSettings)
    | HealRequest(context: Json, healingLevel: Json)

  /** The options `planTest` destructures. */
  datatype PlanSettings = PlanSettings(includeSetup: Json, includeTeardown: Json, detailLevel: Json)

  /** The options `generateTest` destructures. */
  datatype GenerateSettings = GenerateSettings(framework: Json, language: Json, useAIPage: Json,
                                               includeComments: Json, filename: Json)

  /** `planTest`'s options, each taking its default (true, true,
      "detailed") only when undefined; `null` options cannot be
      destructured. */
  function PlanSettingsOf(options: Json): (r: Result<PlanSettings>) {
    if options.Null? then Err(NullOptions("includeSetup"))
    else Ok(PlanSettings(DefaultTo(Get(options, "includeSetup"), Bool(true)),
                         DefaultTo(Get(options, "includeTeardown"), Bool(true)),
                         DefaultTo(Get(options, "detailLevel"), Str("detailed"))))
  }

  /** `generateTest`'s options, each taking its default ("playwright",
      "javascript", true, true, "generated-test.spec.js") only when
      undefined; `null` options cannot be destructured. */
  function GenerateSettingsOf(options: Json): (r: Result<GenerateSettings>) {
    if options.Null? then Err(NullOptions("framework"))
    else Ok(GenerateSettings(DefaultTo(Get(options, "framework"), Str("playwright")),
                             DefaultTo(Get(options, "language"), Str("javascript")),
                             DefaultTo(Get(options, "useAIPage"), Bool(true)),
                             DefaultTo(Get(options, "includeComments"), Bool(true)),
                             DefaultTo(Get(options, "filename"), Str("generated-test.spec.js"))))
  }

  /** The options `healTest` destructures and uses: whether to apply the
      top fix, and the healing level the prompt names (`maxAttempts` is
      read too, and never used). */
  datatype HealSettings = HealSettings(autoApply: Json, healingLevel: Json)

  /** `healTest`'s options, each taking its default (false,
      "conservative") only when undefined; `null` options cannot be
      destructured. */
  function HealSettingsOf(options: Json): (r: Result<HealSettings>) {
    if options.Null? then Err(NullOptions("autoApply"))
    else Ok(HealSettings(DefaultTo(Get(options, "autoApply"), Bool(false)),
                         DefaultTo(Get(options, "healingLevel"), Str("conservative"))))
  }

  /** The settings of `healTest` as `executePlan` calls it, with
      `{ autoApply: true }`. */
  const ExecutePlanHealSettings := HealSettings(Bool(true), Str("conservative"))

  /** Omitted or empty options heal conservatively without applying
      anything; `executePlan`'s options apply fixes at the conservative
      level; a given option is passed on as given; only `null` options are
      refused. */
  lemma {:induction false} HealSettingsDefaults(options: Json)
    ensures (options.Undefined? || options == Obj(map[])) ==>
      HealSettingsOf(options) == Ok(HealSettings(Bool(false), Str("conservative")))
    ensures HealSettingsOf(Obj(map["autoApply" := Bool(true)])) == Ok(ExecutePlanHealSettings)
    ensures HealSettingsOf(options).Err? <==> options.Null?
    ensures !options.Null? && !Get(options, "autoApply").Undefined? ==>
      HealSettingsOf(options).value.autoApply == Get(options, "autoApply")
    ensures !options.Null? && !Get(options, "healingLevel").Undefined? ==>
      HealSettingsOf(options).value.healingLevel == Get(options, "healingLevel")
  {
    assert "healingLevel" != "autoApply" by {
      assert "healingLevel"[0] != "autoApply"[0];
    }
  }

  /** `planTest` called without options: every setting at its default. */
  const DefaultPlanSettings := PlanSettings(Bool(true), Bool(true), Str("detailed"))

  /** Omitted options, or an empty options object, give the defaults;
      an option that is set is passed on as given; only `null` options
      are refused. */
  lemma {:induction false} SettingsDefaults(options: Json)
    ensures (options.Undefined? || options == Obj(map[])) ==> PlanSettingsOf(options) == Ok(DefaultPlanSettings)
    ensures (options.Undefined? || options == Obj(map[])) ==>
      GenerateSettingsOf(options) == Ok(GenerateSettings(Str("playwright"), Str("javascript"), Bool(true), Bool(true), Str("generated-test.spec.js")))
    ensures PlanSettingsOf(options).Err? <==> options.Null?
    ensures GenerateSettingsOf(options).Err? <==> options.Null?
    ensures !options.Null? && !Get(options, "detailLevel").Undefined? ==>
      PlanSettingsOf(options).value.detailLevel == Get(options, "detailLevel")
    ensures !options.Null? && !Get(options, "filename").Undefined? ==>
      GenerateSettingsOf(options).value.filename == Get(options, "filename")
  {
  }

  /** `aiEngine.query`: `Err` when it throws, `Ok(None)` when it returns
      `undefined`. */
  type Ask = AgentRequest -> Result<Option<string>>

  /** `JSON.parse` of a text that starts with `{`: the object's properties,
      or `None` when it throws. */
  type Parse = string -> Option<map<string, Json>>

  function Reply(v: Option<string>): Json {
    if v.Some? then Str(v.value) else Undefined
  }

  // ---------------------------------------------------------------------
  // _parseAIResponse

  function TextWrapper(response: Json): Json {
    Obj(map["text" := response])
  }

  /** An object is kept; a string is parsed from its first `{` to its last
      `}`; anything else, a string without such a span, or a span that does
      not parse, becomes `{text: response}`. */
  function ParseAIResponse(response: Json, parse: Parse): (r: Json)
    ensures IsObject(r)
  {
    if IsObject(response) then response
    else if response.Str? then
      var s := response.s;
      var open := IndexOfChar(s, '{', 0);
      var close := LastIndexOfChar(s, '}');
      if open.Some? && close.Some? && open.value < close.value then
        match parse(s[open.value..close.value + 1])
        case Some(fields) => Obj(fields)
        case None => TextWrapper(response)
      else TextWrapper(response)
    else TextWrapper(response)
  }

  /** Objects come back unchanged, and neither a non-string nor a string
      without an opening brace followed by a closing one is parsed. */
  lemma {:induction false} ParseAIResponseUnparsed(response: Json, parse: Parse)
    ensures IsObject(response) ==> ParseAIResponse(response, parse) == response
    ensures !IsObject(response) && !response.Str? ==> ParseAIResponse(response, parse) == TextWrapper(response)
    ensures response.Str? && (forall i, j :: 0 <= i < j < |response.s| ==> !(response.s[i] == '{' && response.s[j] == '}'))
      ==> ParseAIResponse(response, parse) == TextWrapper(response)
  {
    if response.Str? {
      var s := response.s;
      var open := IndexOfChar(s, '{', 0);
      var close := LastIndexOfChar(s, '}');
      if open.Some? && close.Some? && open.value < close.value {
        assert s[open.value] == '{' && s[close.value] == '}';
      }
    }
  }

  /** The span parsed runs from the first `{` to the last `}`. */
  lemma {:induction false} ParseAIResponseSpan(s: string, parse: Parse, i: nat, j: nat)
    requires i < j < |s| && s[i] == '{' && s[j] == '}'
    requires forall k :: 0 <= k < i ==> s[k] != '{'
    requires forall k :: j < k < |s| ==> s[k] != '}'
    ensures ParseAIResponse(Str(s), parse)
      == if parse(s[i..j + 1]).Some? then Obj(parse(s[i..j + 1]).value) else TextWrapper(Str(s))
  {
    var open := IndexOfChar(s, '{', 0);
    var close := LastIndexOfChar(s, '}');
    assert open == Some(i);
    assert close == Some(j);
  }

  // ---------------------------------------------------------------------
  // The healer's auto-apply rule

  /** `v.length` for a value that is not `null` or `undefined`. */
  function LengthOf(v: Json): Json {
    match v
    case Arr(items) => Num(|items| as real)
    case Str(s) => Num(|s| as real)
    case Obj(_) => Get(v, "length")
    case _ => Undefined
  }

  const AutoApplyThreshold: real := 0.7

  /** The auto-apply step of `healTest`: `Ok(Some(fix))` when the top fix is
      applied, `Ok(None)` when nothing is, `Err` when reading the top fix's
      confidence throws. */
  function AutoApplied(healing: Json, autoApply: bool): Result<Option<Json>> {
    var fixes := Get(healing, "fixes");
    if !(autoApply && Above(LengthOf(fixes), 0.0)) then Ok(None)
    else
      var top := At(fixes, 0);
      if top.Undefined? then Err(UndefinedRead("confidence"))
      else if top.Null? then Err(NullRead("confidence"))
      else if AtLeast(Get(top, "confidence"), AutoApplyThreshold) && Get(top, "risk") != Str("high") then Ok(Some(top))
      else Ok(None)
  }

  /** For a reply whose fixes are an array of objects, the top fix is applied
      exactly when auto-apply is on, a fix exists, its confidence is at least
      0.7 and its risk is not "high"; no other fix is ever applied. */
  lemma {:induction false} AutoApplyRule(healing: Json, autoApply: bool)
    requires Get(healing, "fixes").Arr?
    requires forall k :: 0 <= k < |Get(healing, "fixes").items| ==> Get(healing, "fixes").items[k].Obj?
    ensures var r := AutoApplied(healing, autoApply);
      var fixes := Get(healing, "fixes").items;
      && r.Ok?
      && (r.value.Some? <==>
            autoApply && |fixes| > 0 && AtLeast(Get(fixes[0], "confidence"), 0.7) && Get(fixes[0], "risk") != Str("high"))
      && (r.value.Some? ==> r.value.value == fixes[0])
  {
    var f := Get(healing, "fixes");
    var fixes := f.items;
    assert Above(LengthOf(f), 0.0) <==> |fixes| > 0 by {
      assert ToNumber(LengthOf(f)) == Finite(|fixes| as real);
    }
    if |fixes| > 0 {
      assert At(f, 0) == fixes[0] && fixes[0].Obj?;
    }
  }

  /** A confidence given as a decimal text `d1.d2` is compared by its
      value, so a text of at least 0.7 gets the top fix applied. */
  lemma {:induction false} DecimalTextConfidence(healing: Json, d1: string, d2: string)
    requires Get(healing, "fixes").Arr? && |Get(healing, "fixes").items| > 0
    requires forall k :: 0 <= k < |Get(healing, "fixes").items| ==> Get(healing, "fixes").items[k].Obj?
    requires d1 != [] && AllDigits(d1) && AllDigits(d2)
    requires Get(Get(healing, "fixes").items[0], "confidence") == Str(d1 + "." + d2)
    requires Get(Get(healing, "fixes").items[0], "risk") != Str("high")
    ensures AllDigits(d1 + d2)
    ensures AutoApplied(healing, true).Ok?
    ensures AutoApplied(healing, true).value.Some? <==> DecimalValue(d1 + d2) as real / Pow10(|d2|) >= 0.7
  {
    DecimalFraction(d1, d2);
    AutoApplyRule(healing, true);
  }

  /** Without the option nothing is applied and nothing is read. */
  lemma {:induction false} NoAutoApplyByDefault(healing: Json)
    ensures AutoApplied(healing, false) == Ok(None)
  {
  }

  // ---------------------------------------------------------------------
  // History entries

  /** A plan as stored: the parsed reply and the description it came from. */
  datatype PlanEntry = PlanEntry(plan: Json, originalDescription: string)

  /** Generated code as stored: the parsed reply and the plan it came from. */
  datatype GeneratedEntry = GeneratedEntry(generated: Json, plan: Json)

  /** A healing as stored, with the fields `healTest` writes on it. */
  datatype HealEntry = HealEntry(healing: Json, failureContext: Json, applied: bool, appliedFix: Option<Json>)

  /** The outcome of one `healTest`: the entry pushed on the healer's
      history (if any) and the result. */
  datatype HealOutcome = HealOutcome(pushed: Option<HealEntry>, result: Result<HealEntry>)

  const ContextUndefined := "Cannot destructure property 'testName' of 'failureContext' as it is undefined."
  const ContextNull := "Cannot destructure property 'testName' of 'failureContext' as it is null."

  /** The errors raised while building the healing prompt: destructuring a
      missing context, or taking a substring of a page that is not text. */
  function PromptError(context: Json): Option<string> {
    if context.Undefined? || context.Null? then
      Some(if context.Undefined? then ContextUndefined else ContextNull)
    else
      var html := Get(context, "pageHTML");
      if Truthy(html) && !html.Str? then Some(NoSubstring("pageHTML"))
      else None
  }

  /** `healTest` once its options are read: the reply is stored with
      `applied` false before the auto-apply rule runs, which takes the
      option by its truthiness; the rule then updates the stored entry, or
      throws after it was stored. */
  function HealAttempt(context: Json, settings: HealSettings, ask: Ask, parse: Parse): HealOutcome {
    if PromptError(context).Some? then HealOutcome(None, Err(PromptError(context).value))
    else
      match ask(HealRequest(context, settings.healingLevel))
      case Err(m) => HealOutcome(None, Err(m))
      case Ok(reply) => StoreHealing(ParseAIResponse(Reply(reply), parse), context, Truthy(settings.autoApply))
  }

  /** The parsed reply is stored unapplied, then the auto-apply rule marks
      it applied or throws. */
  function StoreHealing(healing: Json, context: Json, autoApply: bool): HealOutcome {
    match AutoApplied(healing, autoApply)
    case Err(m) => HealOutcome(Some(HealEntry(healing, context, false, None)), Err(m))
    case Ok(fix) =>
      var entry := HealEntry(healing, context, fix.Some?, fix);
      HealOutcome(Some(entry), Ok(entry))
  }

  /** A successful `healTest` stores exactly the entry it returns, marked
      applied exactly when it names a fix; a failure stores nothing, except
      when the top fix cannot be read, where the unapplied entry stays. */
  lemma {:induction false} HealAttemptStores(context: Json, settings: HealSettings, ask: Ask, parse: Parse)
    ensures var h := HealAttempt(context, settings, ask, parse);
      && (h.result.Ok? ==>
            && h.pushed == Some(h.result.value)
            && (h.result.value.applied <==> h.result.value.appliedFix.Some?)
            && h.result.value.failureContext == context)
      && (h.result.Err? && h.pushed.Some? ==> !h.pushed.value.applied && ask(HealRequest(context, settings.healingLevel)).Ok?)
      && (ask(HealRequest(context, settings.healingLevel)).Err? ==> h.pushed.None?)
      && (!Truthy(settings.autoApply) ==> h.result.Ok? || h.pushed.None?)
  {
    var h := HealAttempt(context, settings, ask, parse);
    if PromptError(context).Some? {
      assert h == HealOutcome(None, Err(PromptError(context).value));
    } else {
      match ask(HealRequest(context, settings.healingLevel))
      case Err(m) =>
        assert h == HealOutcome(None, Err(m));
      case Ok(reply) =>
        var healing := ParseAIResponse(Reply(reply), parse);
        assert h == StoreHealing(healing, context, Truthy(settings.autoApply));
        StoreHealingShape(healing, context, Truthy(settings.autoApply));
    }
  }

  lemma {:induction false} StoreHealingShape(healing: Json, context: Json, autoApply: bool)
    ensures var h := StoreHealing(healing, context, autoApply);
      && h.pushed.Some? && h.pushed.value.failureContext == context
      && (h.result.Ok? ==> h.pushed == Some(h.result.value) && (h.result.value.applied <==> h.result.value.appliedFix.Some?))
      && (h.result.Err? ==> !h.pushed.value.applied)
      && (!autoApply ==> h.result.Ok?)
  {
    if !autoApply {
      NoAutoApplyByDefault(healing);
    }
  }

  // ---------------------------------------------------------------------
  // _executeStep

  /** The length of the run of hexadecimal digits that starts at `i`. */
  function HexRun(s: string, i: nat): (n: nat)
    requires i <= |s|
    ensures i + n <= |s| && forall k :: i <= k < i + n ==> IsHexDigit(s[k])
    decreases |s| - i
  {
    if i < |s| && IsHexDigit(s[i]) then 1 + HexRun(s, i + 1) else 0
  }

  /** The value of `parseInt` digits in base 16. */
  function HexValue(s: string): nat
    requires forall k :: 0 <= k < |s| ==> IsHexDigit(s[k])
  {
    if s == [] then 0 else HexValue(s[..|s| - 1]) * 16 + HexDigitValue(s[|s| - 1])
  }

  /** `parseInt(s)` with no radix: leading white space, an optional sign,
      then a `0x`/`0X` prefix for base 16 or base 10, and the longest run of
      digits after it; `None` is `NaN`. */
  function ParseInt(s: string): (r: Option<int>) {
    var t := TrimStart(s);
    var negative := t != [] && t[0] == '-';
    var u := if t != [] && (t[0] == '-' || t[0] == '+') then t[1..] else t;
    var magnitude :=
      if |u| >= 2 && u[0] == '0' && (u[1] == 'x' || u[1] == 'X') then
        var v := u[2..];
        var n := HexRun(v, 0);
        if n == 0 then None else Some(HexValue(v[..n]))
      else
        var n := DigitRun(u, 0);
        if n == 0 then None else Some(DecimalValue(u[..n]));
    if magnitude.None? then None
    else
      var m: int := magnitude.value;
      Some(if negative then -m else m)
  }

  const DefaultWait: int := 1000

  /** `parseInt(value) || 1000`; an absent value reads as "undefined". */
  function WaitMs(value: Option<string>): int {
    var p := ParseInt(if value.Some? then value.value else "undefined");
    if p.None? || p.value == 0 then DefaultWait else p.value
  }

  /** Text that starts with a decimal digit and no `0x` prefix parses as
      its leading run of digits. */
  lemma {:induction false} ParseIntDecimal(s: string)
    requires s != [] && IsDigit(s[0])
    requires !(|s| >= 2 && s[0] == '0' && (s[1] == 'x' || s[1] == 'X'))
    ensures ParseInt(s) == Some(DecimalValue(s[..DigitRun(s, 0)]))
  {
    assert !IsSpace(s[0]);
    assert TrimStart(s) == s;
  }

  /** A decimal number followed by text that is neither a digit nor an `x`
      waits that many milliseconds, unless it is zero. */
  lemma {:induction false} WaitMsDecimal(n: nat, rest: string)
    requires rest == [] || (!IsDigit(rest[0]) && rest[0] != 'x' && rest[0] != 'X')
    ensures WaitMs(Some(NatToString(n) + rest)) == if n == 0 then DefaultWait else n
  {
    var d := NatToString(n);
    var s := d + rest;
    assert s[0] == d[0];
    if |d| >= 2 {
      assert s[1] == d[1];
    } else if |s| >= 2 {
      assert s[1] == rest[0];
    }
    ParseIntDecimal(s);
    DigitRunOfDigitsThen(d, rest);
    assert s[..|d|] == d;
    DecimalOfNatToString(n);
  }

  /** Text that starts with anything but white space, a sign or a digit
      does not parse. */
  lemma {:induction false} ParseIntNotNumeric(s: string)
    requires s != [] && !IsSpace(s[0]) && !IsDigit(s[0]) && s[0] != '-' && s[0] != '+'
    ensures ParseInt(s) == None
  {
    assert TrimStart(s) == s;
    assert DigitRun(s, 0) == 0;
  }

  /** An absent value, or one that starts with anything but white space, a
      sign or a digit, waits one second. */
  lemma {:induction false} WaitMsNotNumeric(value: Option<string>)
    requires value.Some? ==> value.value != [] && !IsSpace(value.value[0]) && !IsDigit(value.value[0])
                             && value.value[0] != '-' && value.value[0] != '+'
    ensures WaitMs(value) == DefaultWait
  {
    if value.Some? {
      ParseIntNotNumeric(value.value);
    } else {
      var u := "undefined";
      assert u[0] == 'u';
      ParseIntNotNumeric(u);
    }
  }

  /** A plan step as the executor reads it; `None` is a missing property. */
  datatype Step = Step(action: Option<string>, target: string, value: Option<string>, description: string)

  /** The page action a step performs. */
  datatype Command =
    | Navigate(url: string)
    | Click(target: string)
    | Fill(target: string, value: Option<string>)
    | Verify(target: string)
    | Wait(ms: int)
    | Screenshot(name: string)

  /** `_executeStep`'s dispatch on the lower-cased action: `Ok(None)` for an
      unknown action, which is only logged; `Err` when there is no action. */
  function CommandOf(step: Step): (r: Result<Option<Command>>)
    ensures step.action.None? <==> r.Err?
  {
    match step.action
    case None => Err(UndefinedRead("toLowerCase"))
    case Some(a) =>
      var act := Lower(a);
      if act == "navigate" then Ok(Some(Navigate(step.target)))
      else if act == "click" then Ok(Some(Click(step.target)))
      else if act == "fill" || act == "type" then Ok(Some(Fill(step.target, step.value)))
      else if act == "verify" || act == "assert" then Ok(Some(Verify(step.target)))
      else if act == "wait" then Ok(Some(Wait(WaitMs(step.value))))
      else if act == "screenshot" then
        Ok(Some(Screenshot(if step.value.Some? && step.value.value != [] then step.value.value else step.target)))
      else Ok(None)
  }

  /** Dispatch ignores case, "type" is "fill" and "assert" is "verify". */
  lemma {:induction false} CommandAliases(step: Step, other: Step)
    requires step.action.Some? && other.action.Some?
    requires step.target == other.target && step.value == other.value
    requires var a, b := Lower(step.action.value), Lower(other.action.value);
      a == b || (a == "type" && b == "fill") || (a == "assert" && b == "verify")
    ensures CommandOf(step) == CommandOf(other)
  {
  }

  // ---------------------------------------------------------------------
  // executePlan

  /** The page actions: the error message a step's action throws, or `None`
      when it completes; indexed by the step so the page may change. */
  type Perform = (nat, Command) -> Option<string>

  /** A plan as `executePlan` reads it; `steps` is `None` when missing. */
  datatype ExecPlan = ExecPlan(testName: Json, steps: Option<seq<Step>>, enableHealing: Json)

  predicate HealingEnabled(plan: ExecPlan) {
    plan.enableHealing != Bool(false)
  }

  datatype StepStatus = Passed | Failed(error: string)

  datatype StepResult = StepResult(stepNumber: nat, step: Step, status: StepStatus, healing: Option<HealEntry>)

  datatype ExecResult = ExecResult(testName: Json, steps: seq<StepResult>, passed: nat, failed: nat, skipped: nat, success: bool)

  /** The error thrown by step `i`, if any. */
  function StepError(i: nat, step: Step, perform: Perform): Option<string> {
    match CommandOf(step)
    case Err(m) => Some(m)
    case Ok(None) => None
    case Ok(Some(c)) => perform(i, c)
  }

  function OptionJson(v: Option<string>): Json {
    if v.Some? then Str(v.value) else Undefined
  }

  function StepJson(step: Step): Json {
    Obj(map["action" := OptionJson(step.action), "target" := Str(step.target),
            "value" := OptionJson(step.value), "description" := Str(step.description)])
  }

  /** The failure context handed to the healer for a failed step. */
  function FailureContext(plan: ExecPlan, step: Step, error: string): Json {
    Obj(map["testName" := plan.testName, "errorMessage" := Str(error),
            "failedStep" := StepJson(step), "elementDescription" := Str(step.target)])
  }

  /** The plan run after its first steps: the step results, the healer
      entries stored, and the error that aborted the run, if any. */
  datatype PlanRun = PlanRun(results: seq<StepResult>, pushed: seq<HealEntry>, aborted: Option<string>)

  function Pushed(o: Option<HealEntry>): seq<HealEntry> {
    if o.Some? then [o.value] else []
  }

  /** The error of each step under the page actions `perform`. */
  function Failures(perform: Perform): (nat, Step) -> Option<string> {
    (i: nat, step: Step) => StepError(i, step, perform)
  }

  /** `fail` names the errors of the steps under `perform`. */
  ghost predicate FailsAs(perform: Perform, fail: (nat, Step) -> Option<string>) {
    forall i, step {:trigger StepError(i, step, perform)} :: fail(i, step) == StepError(i, step, perform)
  }

  /** `heal` names the outcomes of `healTest` with auto-apply. */
  ghost predicate HealsAs(plan: ExecPlan, ask: Ask, parse: Parse, heal: (Step, string) -> HealOutcome) {
    forall step, error {:trigger HealAttempt(FailureContext(plan, step, error), ExecutePlanHealSettings, ask, parse)} ::
      heal(step, error) == HealAttempt(FailureContext(plan, step, error), ExecutePlanHealSettings, ask, parse)
  }

  /** `healTest` with auto-apply, as `executePlan` calls it. */
  function Healer(plan: ExecPlan, ask: Ask, parse: Parse): (Step, string) -> HealOutcome {
    (step: Step, error: string) => HealAttempt(FailureContext(plan, step, error), ExecutePlanHealSettings, ask, parse)
  }

  /** Running steps `0 .. n-1` of `steps`. */
  function RunSteps(plan: ExecPlan, steps: seq<Step>, n: nat, fail: (nat, Step) -> Option<string>, heal: (Step, string) -> HealOutcome): PlanRun
    requires n <= |steps|
  {
    if n == 0 then PlanRun([], [], None)
    else
      var prev := RunSteps(plan, steps, n - 1, fail, heal);
      var step := steps[n - 1];
      var err := fail(n - 1, step);
      if prev.aborted.Some? then prev
      else if err.None? then PlanRun(prev.results + [StepResult(n, step, Passed, None)], prev.pushed, None)
      else if !HealingEnabled(plan) then
        PlanRun(prev.results + [StepResult(n, step, Failed(err.value), None)], prev.pushed, None)
      else
        var h := heal(step, err.value);
        match h.result
        case Err(m) => PlanRun(prev.results, prev.pushed + Pushed(h.pushed), Some(m))
        case Ok(entry) => PlanRun(prev.results + [StepResult(n, step, Failed(err.value), Some(entry))], prev.pushed + Pushed(h.pushed), None)
  }

  function CountPassed(results: seq<StepResult>): (n: nat)
    ensures n <= |results|
  {
    if results == [] then 0
    else CountPassed(results[..|results| - 1]) + (if results[|results| - 1].status.Passed? then 1 else 0)
  }

  lemma {:induction false} CountPassedSnoc(results: seq<StepResult>, r: StepResult)
    ensures CountPassed(results + [r]) == CountPassed(results) + (if r.status.Passed? then 1 else 0)
  {
    assert (results + [r])[..|results|] == results;
  }

  /** The result of `executePlan`, given the plan's steps. */
  function ExecutionOf(plan: ExecPlan, steps: seq<Step>, fail: (nat, Step) -> Option<string>, heal: (Step, string) -> HealOutcome): Result<ExecResult> {
    var run := RunSteps(plan, steps, |steps|, fail, heal);
    if run.aborted.Some? then Err(run.aborted.value)
    else
      var passed := CountPassed(run.results);
      var failed := |run.results| - passed;
      Ok(ExecResult(plan.testName, run.results, passed, failed, 0, failed == 0))
  }

  /** The outcome of `executePlan` from the outputs of its loop. */
  lemma {:induction false} ExecutionOfRun(plan: ExecPlan, steps: seq<Step>, fail: (nat, Step) -> Option<string>, heal: (Step, string) -> HealOutcome,
                       results: seq<StepResult>, passed: nat, failed: nat, aborted: Option<string>)
    requires var run := RunSteps(plan, steps, |steps|, fail, heal);
      && aborted == run.aborted
      && (aborted.None? ==> results == run.results && passed == CountPassed(results) && failed == |results| - passed)
    ensures ExecutionOf(plan, steps, fail, heal)
      == if aborted.Some? then Err(aborted.value) else Ok(ExecResult(plan.testName, results, passed, failed, 0, failed == 0))
  {
    var run := RunSteps(plan, steps, |steps|, fail, heal);
    if run.aborted.None? {
      var e := ExecutionOf(plan, steps, fail, heal);
      assert e.Ok?;
      assert e.value.steps == results;
      assert e.value.passed == passed;
      assert e.value.failed == failed;
      assert e.value.testName == plan.testName;
    }
  }

  /** A healer that stores exactly the entry it returns, as `healTest`
      does. */
  ghost predicate StoresReturned(heal: (Step, string) -> HealOutcome) {
    forall step, error :: heal(step, error).result.Ok? ==> heal(step, error).pushed == Some(heal(step, error).result.value)
  }

  lemma {:induction false} HealerStoresReturned(plan: ExecPlan, ask: Ask, parse: Parse)
    ensures StoresReturned(Healer(plan, ask, parse))
  {
    forall step, error {
      HealAttemptStores(FailureContext(plan, step, error), ExecutePlanHealSettings, ask, parse);
    }
  }

  /** Every step of an unaborted run gets one result, in order, failing
      exactly when its action throws; a failed step carries a healing exactly
      when healing is enabled, and the healer stores exactly those healings. */
  lemma {:induction false} RunStepsResults(plan: ExecPlan, steps: seq<Step>, n: nat, fail: (nat, Step) -> Option<string>, heal: (Step, string) -> HealOutcome)
    requires n <= |steps|
    ensures var run := RunSteps(plan, steps, n, fail, heal);
      run.aborted.None? ==>
        && |run.results| == n
        && (forall i :: 0 <= i < n ==> StepResultFits(plan, steps, i, fail, run.results[i]))
        && (StoresReturned(heal) ==> run.pushed == HealingsOf(run.results))
  {
    if n > 0 {
      RunStepsResults(plan, steps, n - 1, fail, heal);
      var prev := RunSteps(plan, steps, n - 1, fail, heal);
      var run := RunSteps(plan, steps, n, fail, heal);
      if run.aborted.None? {
        RunStepsLast(plan, steps, n, fail, heal);
        HealingsOfSnoc(prev.results, run.results[n - 1]);
      }
    }
  }

  /** Result `i` is that of step `i`: numbered `i + 1`, failing exactly when
      the step's action throws, with the step's error, and healed exactly
      when it failed and healing is enabled. */
  predicate StepResultFits(plan: ExecPlan, steps: seq<Step>, i: nat, fail: (nat, Step) -> Option<string>, r: StepResult)
    requires i < |steps|
  {
    && r.stepNumber == i + 1 && r.step == steps[i]
    && (r.status.Passed? <==> fail(i, steps[i]).None?)
    && (r.status.Failed? ==> r.status.error == fail(i, steps[i]).value)
    && (r.healing.Some? <==> r.status.Failed? && HealingEnabled(plan))
  }

  /** One more step of an unaborted run appends the result of that step. */
  lemma {:induction false} RunStepsLast(plan: ExecPlan, steps: seq<Step>, n: nat, fail: (nat, Step) -> Option<string>, heal: (Step, string) -> HealOutcome)
    requires 0 < n <= |steps|
    requires RunSteps(plan, steps, n, fail, heal).aborted.None?
    ensures var prev := RunSteps(plan, steps, n - 1, fail, heal);
      var run := RunSteps(plan, steps, n, fail, heal);
      && prev.aborted.None?
      && |run.results| == |prev.results| + 1
      && run.results == prev.results + [run.results[|prev.results|]]
      && StepResultFits(plan, steps, n - 1, fail, run.results[|prev.results|])
      && (StoresReturned(heal) ==> run.pushed == prev.pushed + Pushed(run.results[|prev.results|].healing))
  {
  }

  /** The healings carried by the step results, in order. */
  function HealingsOf(results: seq<StepResult>): seq<HealEntry> {
    if results == [] then []
    else HealingsOf(results[..|results| - 1]) + Pushed(results[|results| - 1].healing)
  }

  lemma {:induction false} HealingsOfSnoc(results: seq<StepResult>, r: StepResult)
    ensures HealingsOf(results + [r]) == HealingsOf(results) + Pushed(r.healing)
  {
    assert (results + [r])[..|results|] == results;
  }

  /** An aborted run stops at the first step whose healing throws: the run
      before it went through, and every entry stored before is kept. */
  lemma {:induction false} RunStepsAbort(plan: ExecPlan, steps: seq<Step>, n: nat, fail: (nat, Step) -> Option<string>, heal: (Step, string) -> HealOutcome)
    requires n <= |steps|
    ensures var run := RunSteps(plan, steps, n, fail, heal);
      run.aborted.Some? ==>
        exists k ::
          && 0 <= k < n
          && RunSteps(plan, steps, k, fail, heal).aborted.None?
          && fail(k, steps[k]).Some? && HealingEnabled(plan)
          && heal(steps[k], fail(k, steps[k]).value).result == Err(run.aborted.value)
  {
    if n > 0 {
      var prev := RunSteps(plan, steps, n - 1, fail, heal);
      if prev.aborted.Some? {
        RunStepsAbort(plan, steps, n - 1, fail, heal);
        var k :| 0 <= k < n - 1 && RunSteps(plan, steps, k, fail, heal).aborted.None?
          && fail(k, steps[k]).Some? && HealingEnabled(plan)
          && heal(steps[k], fail(k, steps[k]).value).result
             == Err(prev.aborted.value);
        assert RunSteps(plan, steps, n, fail, heal) == prev;
      }
    }
  }

  /** passed + failed is the number of steps, nothing is skipped, and the
      run succeeds exactly when no step failed. */
  lemma {:induction false} ExecutionCounts(plan: ExecPlan, steps: seq<Step>, fail: (nat, Step) -> Option<string>, heal: (Step, string) -> HealOutcome)
    ensures var r := ExecutionOf(plan, steps, fail, heal);
      r.Ok? ==>
        && r.value.passed + r.value.failed == |steps|
        && r.value.skipped == 0
        && r.value.passed == CountPassed(r.value.steps)
        && (r.value.success <==> forall i :: 0 <= i < |steps| ==> fail(i, steps[i]).None?)
  {
    RunStepsResults(plan, steps, |steps|, fail, heal);
    var run := RunSteps(plan, steps, |steps|, fail, heal);
    if run.aborted.None? {
      AllPassedCount(run.results);
      forall i | 0 <= i < |steps|
        ensures run.results[i].status.Passed? <==> fail(i, steps[i]).None?
      {
        assert StepResultFits(plan, steps, i, fail, run.results[i]);
      }
    }
  }

  /** Every result passes exactly when the passes are all of them. */
  lemma {:induction false} AllPassedCount(results: seq<StepResult>)
    ensures CountPassed(results) == |results| <==> forall i :: 0 <= i < |results| ==> results[i].status.Passed?
  {
    if results != [] {
      var init := results[..|results| - 1];
      AllPassedCount(init);
      assert forall i :: 0 <= i < |init| ==> init[i] == results[i];
    }
  }

  // ---------------------------------------------------------------------
  // Statistics

  /** `slice(-5)`: the last five entries, or all of them. */
  function Recent<T>(s: seq<T>): seq<T> {
    if |s| <= 5 then s else s[|s| - 5..]
  }

  lemma {:induction false} RecentShape<T>(s: seq<T>)
    ensures |Recent(s)| == if |s| <= 5 then |s| else 5
    ensures forall k :: 0 <= k < |Recent(s)| ==> Recent(s)[k] == s[|s| - |Recent(s)| + k]
  {
  }

  function CountApplied(h: seq<HealEntry>): (n: nat)
    ensures n <= |h|
  {
    if h == [] then 0 else CountApplied(h[..|h| - 1]) + (if h[|h| - 1].applied then 1 else 0)
  }

  /** The applied count of two runs of entries is the sum of their
      counts. */
  lemma {:induction false} CountAppliedAppend(h: seq<HealEntry>, more: seq<HealEntry>)
    ensures CountApplied(h + more) == CountApplied(h) + CountApplied(more)
    decreases |more|
  {
    if more == [] {
      assert h + more == h;
    } else {
      var init := more[..|more| - 1];
      CountAppliedAppend(h, init);
      assert (h + more)[..|h + more| - 1] == h + init;
    }
  }

  /** A reply parsed by `_parseAIResponse` is always an object: the engine
      answers with text or `undefined`, never with an object or array. */
  lemma {:induction false} ParsedReplyIsObject(reply: Option<string>, parse: Parse)
    ensures ParseAIResponse(Reply(reply), parse).Obj?
  {
    var response := Reply(reply);
    assert !IsObject(response);
  }

  /** The plan `planTest` returns and stores: the parsed reply with
      `originalDescription` written over any field of that name. */
  function PlanOf(description: string, reply: Option<string>, parse: Parse): (plan: Json)
    ensures plan.Obj?
    ensures Get(plan, "originalDescription") == Str(description)
    ensures forall k :: k != "originalDescription" ==> Get(plan, k) == Get(ParseAIResponse(Reply(reply), parse), k)
  {
    ParsedReplyIsObject(reply, parse);
    SetField(ParseAIResponse(Reply(reply), parse), "originalDescription", Str(description))
  }

  /** The test `generateTest` returns and stores: the parsed reply with the
      plan it was generated from written over its `plan` field. */
  function GeneratedOf(reply: Option<string>, plan: Json, parse: Parse): (generated: Json)
    ensures generated.Obj?
    ensures Get(generated, "plan") == plan
    ensures forall k :: k != "plan" ==> Get(generated, k) == Get(ParseAIResponse(Reply(reply), parse), k)
  {
    ParsedReplyIsObject(reply, parse);
    SetField(ParseAIResponse(Reply(reply), parse), "plan", plan)
  }

  /** The plan `generateTest` works from: a string is planned first, with
      `planTest`'s default options (failing when the planner's request
      fails), anything else is the plan itself. */
  function PlannedInput(planOrDescription: Json, ask: Ask, parse: Parse): Result<Json> {
    if !planOrDescription.Str? then Ok(planOrDescription)
    else
      var response := ask(PlanRequest(planOrDescription.s, DefaultPlanSettings));
      if response.Err? then Err(response.message)
      else Ok(PlanOf(planOrDescription.s, response.value, parse))
  }

  /** A description is planned and the plan handed to the generator is the
      one the planner stores: it carries the description it came from. */
  lemma {:induction false} PlannedDescription(description: string, ask: Ask, parse: Parse)
    ensures var p := PlannedInput(Str(description), ask, parse);
      var response := ask(PlanRequest(description, DefaultPlanSettings));
      && (p.Ok? <==> response.Ok?)
      && (p.Ok? ==> p.value.Obj? && Get(p.value, "originalDescription") == Str(description))
  {
    var response := ask(PlanRequest(description, DefaultPlanSettings));
    if response.Ok? {
      var plan := PlanOf(description, response.value, parse);
      assert PlannedInput(Str(description), ask, parse) == Ok(plan);
    }
  }

  datatype AgentStatistics = AgentStatistics(
    totalPlans: nat, recentPlans: seq<PlanEntry>,
    totalGenerated: nat, recentGenerations: seq<GeneratedEntry>,
    totalHealings: nat, autoApplied: nat, recentHealings: seq<HealEntry>)

  /** The agents object: its three histories. */
  class TestAgents {
    var plannerHistory: seq<PlanEntry>
    var generatorHistory: seq<GeneratedEntry>
    var healerHistory: seq<HealEntry>

    constructor ()
      ensures plannerHistory == [] && generatorHistory == [] && healerHistory == []
    {
      plannerHistory := [];
      generatorHistory := [];
      healerHistory := [];
    }

    /** `planTest`: one entry on the planner's history when the engine
        answers, the plan that is returned, carrying its description;
        `null` options fail before anything is asked; the plan file write
        is not modelled. */
    method PlanTest(description: string, options: Json, ask: Ask, parse: Parse) returns (r: Result<Json>)
      modifies this
      ensures generatorHistory == old(generatorHistory) && healerHistory == old(healerHistory)
      ensures options.Null? ==> r == Err(NullOptions("includeSetup")) && plannerHistory == old(plannerHistory)
      ensures var settings := PlanSettingsOf(options);
        settings.Ok? ==>
          var request := PlanRequest(description, settings.value);
          && (ask(request).Err? ==> r == Err(ask(request).message) && plannerHistory == old(plannerHistory))
          && (ask(request).Ok? ==>
                r == Ok(PlanOf(description, ask(request).value, parse))
                && plannerHistory == old(plannerHistory) + [PlanEntry(r.value, description)])
    {
      var settings := PlanSettingsOf(options);
      if settings.Err? {
        return Err(settings.message);
      }
      var response := ask(PlanRequest(description, settings.value));
      if response.Err? {
        return Err(response.message);
      }
      var plan := SetField(ParseAIResponse(Reply(response.value), parse), "originalDescription", Str(description));
      plannerHistory := plannerHistory + [PlanEntry(plan, description)];
      return Ok(plan);
    }

    /** `generateTest`: `null` options fail first; a description is then
        planned with the default options, growing the planner's history
        too; then one entry on the generator's history, the test that is
        returned, carrying the plan it was generated from. */
    method GenerateTest(planOrDescription: Json, options: Json, ask: Ask, parse: Parse) returns (r: Result<Json>)
      modifies this
      ensures healerHistory == old(healerHistory)
      ensures options.Null? ==>
        r == Err(NullOptions("framework")) && plannerHistory == old(plannerHistory) && generatorHistory == old(generatorHistory)
      ensures !options.Null? && !planOrDescription.Str? ==> plannerHistory == old(plannerHistory)
      ensures !options.Null? && planOrDescription.Str? ==>
        var request := PlanRequest(planOrDescription.s, DefaultPlanSettings);
        plannerHistory == old(plannerHistory)
          + (if ask(request).Ok? then [PlanEntry(PlanOf(planOrDescription.s, ask(request).value, parse), planOrDescription.s)] else [])
      ensures var p := PlannedInput(planOrDescription, ask, parse);
        var settings := GenerateSettingsOf(options);
        settings.Ok? ==>
        && (p.Err? ==> r == Err(p.message) && generatorHistory == old(generatorHistory))
        && (p.Ok? && ask(GenerateRequest(p.value, settings.value)).Err? ==>
              r == Err(ask(GenerateRequest(p.value, settings.value)).message) && generatorHistory == old(generatorHistory))
        && (p.Ok? && ask(GenerateRequest(p.value, settings.value)).Ok? ==>
              r == Ok(GeneratedOf(ask(GenerateRequest(p.value, settings.value)).value, p.value, parse))
              && generatorHistory == old(generatorHistory) + [GeneratedEntry(r.value, p.value)])
    {
      var settings := GenerateSettingsOf(options);
      if settings.Err? {
        return Err(settings.message);
      }
      var plan := planOrDescription;
      if planOrDescription.Str? {
        var planned := PlanTest(planOrDescription.s, Undefined, ask, parse);
        if planned.Err? {
          return Err(planned.message);
        }
        plan := planned.value;
      }
      var response := ask(GenerateRequest(plan, settings.value));
      if response.Err? {
        return Err(response.message);
      }
      var generated := SetField(ParseAIResponse(Reply(response.value), parse), "plan", plan);
      generatorHistory := generatorHistory + [GeneratedEntry(generated, plan)];
      return Ok(generated);
    }

    /** `healTest`: `null` options fail before the context is read; then
        the healing as `HealAttempt` describes it. */
    method HealTest(failureContext: Json, options: Json, ask: Ask, parse: Parse) returns (r: Result<HealEntry>)
      modifies this
      ensures options.Null? ==> r == Err(NullOptions("autoApply")) && healerHistory == old(healerHistory)
      ensures var settings := HealSettingsOf(options);
        settings.Ok? ==>
          var h := HealAttempt(failureContext, settings.value, ask, parse);
          r == h.result && healerHistory == old(healerHistory) + Pushed(h.pushed)
      ensures plannerHistory == old(plannerHistory) && generatorHistory == old(generatorHistory)
    {
      var settings := HealSettingsOf(options);
      if settings.Err? {
        return Err(settings.message);
      }
      var promptError := PromptError(failureContext);
      if promptError.Some? {
        return Err(promptError.value);
      }
      var response := ask(HealRequest(failureContext, settings.value.healingLevel));
      if response.Err? {
        return Err(response.message);
      }
      var healing := ParseAIResponse(Reply(response.value), parse);
      healerHistory := healerHistory + [HealEntry(healing, failureContext, false, None)];
      var fix := AutoApplied(healing, Truthy(settings.value.autoApply));
      if fix.Err? {
        return Err(fix.message);
      }
      if fix.value.Some? {
        healerHistory := healerHistory[..|healerHistory| - 1] + [HealEntry(healing, failureContext, true, fix.value)];
      }
      return Ok(healerHistory[|healerHistory| - 1]);
    }

    /** `executePlan`: every step runs, a failed one is healed unless the
        plan disables healing, and a healing that throws aborts the plan. */
    method ExecutePlan(plan: ExecPlan, perform: Perform, ask: Ask, parse: Parse) returns (r: Result<ExecResult>)
      modifies this
      ensures plan.steps.None? ==> r == Err(UndefinedRead("length")) && healerHistory == old(healerHistory)
      ensures plan.steps.Some? ==>
        var run := RunSteps(plan, plan.steps.value, |plan.steps.value|, Failures(perform), Healer(plan, ask, parse));
        r == ExecutionOf(plan, plan.steps.value, Failures(perform), Healer(plan, ask, parse))
        && healerHistory == old(healerHistory) + run.pushed
      ensures plannerHistory == old(plannerHistory) && generatorHistory == old(generatorHistory)
    {
      if plan.steps.None? {
        return Err(UndefinedRead("length"));
      }
      ghost var fail, heal := Failures(perform), Healer(plan, ask, parse);
      var results, passed, failed, aborted := RunPlanSteps(plan, plan.steps.value, perform, ask, parse, fail, heal);
      ExecutionOfRun(plan, plan.steps.value, fail, heal, results, passed, failed, aborted);
      if aborted.Some? {
        return Err(aborted.value);
      }
      r := Ok(ExecResult(plan.testName, results, passed, failed, 0, failed == 0));
    }

    /** `_executeStep`: the step's action is dispatched and performed; the
        result is the error it throws. `fail` names the same errors without
        unfolding the dispatch. */
    method ExecuteStep(i: nat, step: Step, perform: Perform, ghost fail: (nat, Step) -> Option<string>)
      returns (error: Option<string>)
      requires FailsAs(perform, fail)
      ensures error == fail(i, step)
    {
      var command := CommandOf(step);
      match command {
        case Err(m) => error := Some(m);
        case Ok(None) => error := None;
        case Ok(Some(c)) => error := perform(i, c);
      }
      assert error == StepError(i, step, perform);
    }

    /** The healing of a failed step in `executePlan`: `healTest` with
        auto-apply unless the plan disables healing; `healError` is the
        error `healTest` throws. */
    method HealFailedStep(plan: ExecPlan, step: Step, error: string, ask: Ask, parse: Parse,
                          ghost heal: (Step, string) -> HealOutcome)
      returns (healing: Option<HealEntry>, healError: Option<string>)
      requires HealsAs(plan, ask, parse, heal)
      modifies this
      ensures !HealingEnabled(plan) ==> healing.None? && healError.None? && healerHistory == old(healerHistory)
      ensures HealingEnabled(plan) ==>
        var h := heal(step, error);
        && healerHistory == old(healerHistory) + Pushed(h.pushed)
        && (h.result.Err? ==> healError == Some(h.result.message))
        && (h.result.Ok? ==> healError.None? && healing == Some(h.result.value))
      ensures plannerHistory == old(plannerHistory) && generatorHistory == old(generatorHistory)
    {
      healing, healError := None, None;
      if HealingEnabled(plan) {
        HealSettingsDefaults(Undefined);
        var h := HealTest(FailureContext(plan, step, error), Obj(map["autoApply" := Bool(true)]), ask, parse);
        if h.Err? {
          healError := Some(h.message);
        } else {
          healing := Some(h.value);
        }
      }
    }

    /** The loop of `executePlan` over the plan's steps; `aborted` is the
        error of a healing that threw. */
    method RunPlanSteps(plan: ExecPlan, steps: seq<Step>, perform: Perform, ask: Ask, parse: Parse,
                        ghost fail: (nat, Step) -> Option<string>, ghost heal: (Step, string) -> HealOutcome)
      returns (results: seq<StepResult>, passed: nat, failed: nat, aborted: Option<string>)
      requires FailsAs(perform, fail)
      requires HealsAs(plan, ask, parse, heal)
      modifies this
      ensures var run := RunSteps(plan, steps, |steps|, fail, heal);
        && aborted == run.aborted
        && (aborted.None? ==> results == run.results)
        && healerHistory == old(healerHistory) + run.pushed
      ensures aborted.None? ==> passed == CountPassed(results) && failed == |results| - passed
      ensures plannerHistory == old(plannerHistory) && generatorHistory == old(generatorHistory)
    {
      results, passed, failed, aborted := [], 0, 0, None;
      ghost var pushed: seq<HealEntry> := [];
      var i := 0;
      while i < |steps| && aborted.None?
        invariant i <= |steps|
        invariant RunSteps(plan, steps, i, fail, heal) == PlanRun(results, pushed, aborted)
        invariant aborted.None? ==> passed == CountPassed(results) && failed == |results| - passed
        invariant healerHistory == old(healerHistory) + pushed
        invariant plannerHistory == old(plannerHistory) && generatorHistory == old(generatorHistory)
      {
        results, passed, failed, aborted, pushed :=
          RunPlanStep(plan, steps, i, perform, ask, parse, fail, heal, results, passed, failed, pushed, old(healerHistory));
        i := i + 1;
      }
      if aborted.Some? {
        AbortedRun(plan, steps, i, fail, heal, pushed, aborted);
      }
    }

    /** One step of `executePlan`'s loop: the run of the first `i` steps,
        with its counters and the healer entries stored since `base`,
        becomes that of the first `i + 1`. */
    method RunPlanStep(plan: ExecPlan, steps: seq<Step>, i: nat, perform: Perform, ask: Ask, parse: Parse,
                       ghost fail: (nat, Step) -> Option<string>, ghost heal: (Step, string) -> HealOutcome,
                       results: seq<StepResult>, passed: nat, failed: nat, ghost pushed: seq<HealEntry>, ghost base: seq<HealEntry>)
      returns (results': seq<StepResult>, passed': nat, failed': nat, aborted: Option<string>, ghost pushed': seq<HealEntry>)
      requires FailsAs(perform, fail)
      requires HealsAs(plan, ask, parse, heal)
      requires i < |steps|
      requires RunSteps(plan, steps, i, fail, heal) == PlanRun(results, pushed, None)
      requires passed == CountPassed(results) && failed == |results| - passed
      requires healerHistory == base + pushed
      modifies this
      ensures RunSteps(plan, steps, i + 1, fail, heal) == PlanRun(results', pushed', aborted)
      ensures aborted.None? ==> passed' == CountPassed(results') && failed' == |results'| - passed'
      ensures healerHistory == base + pushed'
      ensures plannerHistory == old(plannerHistory) && generatorHistory == old(generatorHistory)
    {
      var step := steps[i];
      var error := ExecuteStep(i, step, perform, fail);
      if error.None? {
        RunStepsNextUnhealed(plan, steps, i, fail, heal);
        CountPassedSnoc(results, StepResult(i + 1, step, Passed, None));
        results', passed', failed', aborted, pushed' := results + [StepResult(i + 1, step, Passed, None)], passed + 1, failed, None, pushed;
      } else {
        results', passed', failed', aborted, pushed' :=
          RunFailedStep(plan, steps, i, error.value, ask, parse, fail, heal, results, passed, failed, pushed, base);
      }
    }

    /** A failed step of `executePlan`'s loop: it is healed unless the plan
        disables healing, and a healing that throws aborts the run. */
    method RunFailedStep(plan: ExecPlan, steps: seq<Step>, i: nat, error: string, ask: Ask, parse: Parse,
                         ghost fail: (nat, Step) -> Option<string>, ghost heal: (Step, string) -> HealOutcome,
                         results: seq<StepResult>, passed: nat, failed: nat, ghost pushed: seq<HealEntry>, ghost base: seq<HealEntry>)
      returns (results': seq<StepResult>, passed': nat, failed': nat, aborted: Option<string>, ghost pushed': seq<HealEntry>)
      requires HealsAs(plan, ask, parse, heal)
      requires i < |steps| && fail(i, steps[i]) == Some(error)
      requires RunSteps(plan, steps, i, fail, heal) == PlanRun(results, pushed, None)
      requires passed == CountPassed(results) && failed == |results| - passed
      requires healerHistory == base + pushed
      modifies this
      ensures RunSteps(plan, steps, i + 1, fail, heal) == PlanRun(results', pushed', aborted)
      ensures aborted.None? ==> passed' == CountPassed(results') && failed' == |results'| - passed'
      ensures healerHistory == base + pushed'
      ensures plannerHistory == old(plannerHistory) && generatorHistory == old(generatorHistory)
    {
      var step := steps[i];
      var healing, healError := HealFailedStep(plan, step, error, ask, parse, heal);
      if HealingEnabled(plan) {
        ghost var attempt := heal(step, error);
        RunStepsNextHealed(plan, steps, i, fail, heal, attempt);
        pushed' := pushed + Pushed(attempt.pushed);
      } else {
        RunStepsNextUnhealed(plan, steps, i, fail, heal);
        pushed' := pushed;
      }
      aborted := healError;
      if healError.None? {
        CountPassedSnoc(results, StepResult(i + 1, step, Failed(error), healing));
        results', passed', failed' := results + [StepResult(i + 1, step, Failed(error), healing)], passed, failed + 1;
      } else {
        results', passed', failed' := results, passed, failed;
      }
    }

    /** `getStatistics`: each history's length and its last five entries,
        and how many stored healings were applied. */
    function GetStatistics(): (s: AgentStatistics)
      reads this
      ensures s.totalPlans == |plannerHistory| && s.totalGenerated == |generatorHistory| && s.totalHealings == |healerHistory|
      ensures s.recentPlans == Recent(plannerHistory) && s.recentGenerations == Recent(generatorHistory)
      ensures s.recentHealings == Recent(healerHistory)
      ensures |s.recentPlans| <= 5 && |s.recentGenerations| <= 5 && |s.recentHealings| <= 5
      ensures s.autoApplied == CountApplied(healerHistory) && s.autoApplied <= s.totalHealings
    {
      AgentStatistics(|plannerHistory|, Recent(plannerHistory),
                      |generatorHistory|, Recent(generatorHistory),
                      |healerHistory|, CountApplied(healerHistory), Recent(healerHistory))
    }

    /** `clearHistory(agent)`: "all" empties the three histories, an agent's
        name only its own; called without an argument, `agent` is "all". */
    method ClearHistory(agent: string)
      modifies this
      ensures plannerHistory == if agent == "all" || agent == "planner" then [] else old(plannerHistory)
      ensures generatorHistory == if agent == "all" || agent == "generator" then [] else old(generatorHistory)
      ensures healerHistory == if agent == "all" || agent == "healer" then [] else old(healerHistory)
    {
      if agent == "all" || agent == "planner" { plannerHistory := []; }
      if agent == "all" || agent == "generator" { generatorHistory := []; }
      if agent == "all" || agent == "healer" { healerHistory := []; }
    }
  }

  /** One more step after an unaborted run, when the step does not reach
      the healer. */
  lemma {:induction false} RunStepsNextUnhealed(plan: ExecPlan, steps: seq<Step>, n: nat, fail: (nat, Step) -> Option<string>, heal: (Step, string) -> HealOutcome)
    requires n < |steps|
    requires RunSteps(plan, steps, n, fail, heal).aborted.None?
    requires fail(n, steps[n]).Some? ==> !HealingEnabled(plan)
    ensures var prev := RunSteps(plan, steps, n, fail, heal);
      var err := fail(n, steps[n]);
      RunSteps(plan, steps, n + 1, fail, heal)
        == PlanRun(prev.results + [StepResult(n + 1, steps[n], if err.None? then Passed else Failed(err.value), None)], prev.pushed, None)
  {
  }

  /** One more step after an unaborted run, when the step fails and is
      handed to the healer. */
  lemma {:induction false} RunStepsNextHealed(plan: ExecPlan, steps: seq<Step>, n: nat, fail: (nat, Step) -> Option<string>, heal: (Step, string) -> HealOutcome,
                           h: HealOutcome)
    requires n < |steps|
    requires RunSteps(plan, steps, n, fail, heal).aborted.None?
    requires fail(n, steps[n]).Some? && HealingEnabled(plan)
    requires h == heal(steps[n], fail(n, steps[n]).value)
    ensures var prev := RunSteps(plan, steps, n, fail, heal);
      RunSteps(plan, steps, n + 1, fail, heal)
        == if h.result.Err? then PlanRun(prev.results, prev.pushed + Pushed(h.pushed), Some(h.result.message))
           else PlanRun(prev.results + [StepResult(n + 1, steps[n], Failed(fail(n, steps[n]).value), Some(h.result.value))],
                        prev.pushed + Pushed(h.pushed), None)
  {
  }

  /** A run aborted after `k` steps is the whole run. */
  lemma {:induction false} AbortedRun(plan: ExecPlan, steps: seq<Step>, k: nat, fail: (nat, Step) -> Option<string>, heal: (Step, string) -> HealOutcome,
                   pushed: seq<HealEntry>, aborted: Option<string>)
    requires k <= |steps| && aborted.Some?
    requires RunSteps(plan, steps, k, fail, heal).aborted == aborted && RunSteps(plan, steps, k, fail, heal).pushed == pushed
    ensures RunSteps(plan, steps, |steps|, fail, heal).aborted == aborted
    ensures RunSteps(plan, steps, |steps|, fail, heal).pushed == pushed
  {
    RunStepsAfterAbort(plan, steps, k, |steps|, fail, heal);
  }

  lemma {:induction false} RunStepsAfterAbort(plan: ExecPlan, steps: seq<Step>, k: nat, n: nat, fail: (nat, Step) -> Option<string>, heal: (Step, string) -> HealOutcome)
    requires k <= n <= |steps|
    requires RunSteps(plan, steps, k, fail, heal).aborted.Some?
    ensures RunSteps(plan, steps, n, fail, heal) == RunSteps(plan, steps, k, fail, heal)
    decreases n - k
  {
    if k < n {
      RunStepsAfterAbort(plan, steps, k, n - 1, fail, heal);
    }
  }
}
