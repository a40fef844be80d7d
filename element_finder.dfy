/** Element resolution: a per-instance selector cache, five standard
    lookup strategies in a fixed order, AI-suggested selectors, and a
    cache-gated self-heal. The page is a snapshot passed to each call; the
    AI engine's `findElementSelector` and `selfHealSelector` are oracle
    parameters whose `Ok(None)` is the engine's `undefined`. */
module ElementFinder {
  import opened Wrappers
  import opened Text
  import opened Browser
  import opened AiEngine
  import opened JsValues

  /** `findElement` options; the timeout only bounds each driver wait,
      which the page oracle already settles. */
  datatype Options = Options(enableAI: bool, enableSelfHealing: bool)
  const DefaultOptions := Options(true, true)

  /** The selector cache: cache key to selector. */
  type Cache = map<string, string>

  // ---------------------------------------------------------------------
  // Cache keys

  /** `getCacheKey`: the description lower-cased and trimmed. */
  function CacheKey(description: string): string {
    Trim(Lower(description))
  }

  /** Descriptions that differ only in letter case or in surrounding white
      space share one cache entry. */
  lemma {:induction false} CacheKeyNormalises(front: string, description: string, back: string)
    requires AllSpace(front) && AllSpace(back)
    ensures CacheKey(front + description + back) == CacheKey(description)
    ensures CacheKey(Lower(description)) == CacheKey(description)
  {
    LowerConcat(front + description, back);
    LowerConcat(front, description);
    LowerSpace(front);
    LowerSpace(back);
    TrimPadding(front, Lower(description), back);
    LowerIdempotent(description);
  }

  /** A cache key is its own cache key. */
  lemma {:induction false} CacheKeyIdempotent(description: string)
    ensures CacheKey(CacheKey(description)) == CacheKey(description)
  {
    var l := Lower(description);
    assert IsLower(l);
    TrimKeepsLower(l);
    LowerFixed(Trim(l));
    TrimIdempotent(l);
  }

  // ---------------------------------------------------------------------
  // Standard strategies

  /** The closing index of a quoted run that opens at `i`: a quote, at
      least one other character, and the same quote again (the pattern
      `'([^']+)'|"([^"]+)"` tried at one position). */
  function QuoteAt(s: string, i: nat): (r: Option<nat>)
    requires i < |s|
    ensures r.Some? ==> (s[i] == '\'' || s[i] == '"') && i + 1 < r.value < |s| && s[r.value] == s[i]
    ensures r.Some? ==> forall j :: i < j < r.value ==> s[j] != s[i]
    ensures r.None? && (s[i] == '\'' || s[i] == '"') ==> forall j :: i + 1 < j < |s| ==> s[j] != s[i] || s[i + 1] == s[i]
  {
    if s[i] == '\'' || s[i] == '"' then
      match IndexOfChar(s, s[i], i + 1)
      case Some(j) => if j > i + 1 then Some(j) else None
      case None => None
    else None
  }

  /** The leftmost quoted run at or after `from`, as (open, close). */
  function FirstQuoted(s: string, from: nat): (r: Option<(nat, nat)>)
    ensures r.Some? ==> from <= r.value.0 < |s| && QuoteAt(s, r.value.0) == Some(r.value.1)
    ensures r.Some? ==> forall k :: from <= k < r.value.0 ==> QuoteAt(s, k).None?
    ensures r.None? ==> forall k :: from <= k < |s| ==> QuoteAt(s, k).None?
    decreases |s| - from
  {
    if from >= |s| then None
    else match QuoteAt(s, from)
      case Some(j) => Some((from, j))
      case None => FirstQuoted(s, from + 1)
  }

  /** What `findByText` searches for: the text of the first quoted run,
      else the whole description. */
  function SearchText(description: string): (r: string)
    ensures FirstQuoted(description, 0).None? ==> r == description
    ensures FirstQuoted(description, 0).Some? ==>
      var (i, j) := FirstQuoted(description, 0).value;
      r == description[i + 1..j] && r != [] && description[i] !in r
  {
    match FirstQuoted(description, 0)
    case None => description
    case Some((i, j)) => description[i + 1..j]
  }

  /** `findByText`: a partial-text match of the search text. */
  function FindByText(page: Page, description: string): (r: Option<Handle>)
    ensures r.Some? <==> SearchText(description) in page.byText
    ensures r.Some? ==> r.value == page.byText[SearchText(description)]
  {
    Lookup(page.byText, SearchText(description))
  }

  /** The first quoted run is the one at `i` when no earlier position
      starts one. */
  lemma {:induction false} FirstQuotedAt(s: string, from: nat, i: nat, j: nat)
    requires from <= i < |s| && QuoteAt(s, i) == Some(j)
    requires forall k :: from <= k < i ==> QuoteAt(s, k).None?
    ensures FirstQuoted(s, from) == Some((i, j))
    decreases i - from
  {
    if from < i {
      FirstQuotedAt(s, from + 1, i, j);
    }
  }

  /** A description whose first quote character opens a quoted text is
      searched by that text alone, whatever follows it. */
  lemma {:induction false} FindByTextQuoted(page: Page, pre: string, q: char, t: string, rest: string)
    requires q == '\'' || q == '"'
    requires forall k :: 0 <= k < |pre| ==> pre[k] != '\'' && pre[k] != '"'
    requires t != [] && q !in t
    ensures SearchText(pre + [q] + t + [q] + rest) == t
    ensures FindByText(page, pre + [q] + t + [q] + rest) == Lookup(page.byText, t)
  {
    var s := pre + [q] + t + [q] + rest;
    var i := |pre|;
    var j := |pre| + 1 + |t|;
    assert s[i] == q && s[j] == q;
    forall k | i + 1 <= k < j ensures s[k] != q {
      assert s[k] == t[k - i - 1];
    }
    assert IndexOfChar(s, q, i + 1) == Some(j);
    forall k | 0 <= k < i ensures QuoteAt(s, k).None? {
      assert s[k] == pre[k];
    }
    FirstQuotedAt(s, 0, i, j);
    assert s[i + 1..j] == t;
  }

  /** The roles `findByRole` may try, in order. */
  const Roles: seq<string> := ["button", "link", "textbox", "checkbox", "radio", "combobox"]

  /** The index of the first role in `roles` that the lower-cased
      description mentions and the page has. */
  function RoleHit(page: Page, description: string, roles: seq<string>): (r: Option<nat>)
    ensures r.Some? ==> r.value < |roles| && Contains(Lower(description), roles[r.value]) && roles[r.value] in page.byRole
    ensures r.Some? ==> forall j :: 0 <= j < r.value ==> !(Contains(Lower(description), roles[j]) && roles[j] in page.byRole)
    ensures r.None? ==> forall j :: 0 <= j < |roles| ==> !(Contains(Lower(description), roles[j]) && roles[j] in page.byRole)
  {
    if roles == [] then None
    else if Contains(Lower(description), roles[0]) && roles[0] in page.byRole then Some(0)
    else match RoleHit(page, description, roles[1..])
      case None => None
      case Some(k) => Some(k + 1)
  }

  /** `findByRole`: only roles the description mentions are tried, in the
      fixed order, and the first the page has wins. */
  method FindByRole(page: Page, description: string) returns (r: Option<Handle>)
    ensures r.Some? <==> RoleHit(page, description, Roles).Some?
    ensures r.Some? ==> r.value == page.byRole[Roles[RoleHit(page, description, Roles).value]]
  {
    var lower := Lower(description);
    var i := 0;
    while i < |Roles|
      invariant 0 <= i <= |Roles|
      invariant forall j :: 0 <= j < i ==> !(Contains(lower, Roles[j]) && Roles[j] in page.byRole)
    {
      if Contains(lower, Roles[i]) && Roles[i] in page.byRole {
        RoleHitAt(page, description, Roles, i);
        return Some(page.byRole[Roles[i]]);
      }
      i := i + 1;
    }
    return None;
  }

  lemma {:induction false} RoleHitAt(page: Page, description: string, roles: seq<string>, i: nat)
    requires i < |roles| && Contains(Lower(description), roles[i]) && roles[i] in page.byRole
    requires forall j :: 0 <= j < i ==> !(Contains(Lower(description), roles[j]) && roles[j] in page.byRole)
    ensures RoleHit(page, description, roles) == Some(i)
  {
    if i > 0 {
      RoleHitAt(page, description, roles[1..], i - 1);
    }
  }

  /** `findByPlaceholder`: only when the description mentions "placeholder",
      and then by the whole description. */
  function FindByPlaceholder(page: Page, description: string): (r: Option<Handle>)
    ensures !Contains(Lower(description), "placeholder") ==> r.None?
    ensures Contains(Lower(description), "placeholder") ==> r == Lookup(page.byPlaceholder, description)
  {
    if Contains(Lower(description), "placeholder") then Lookup(page.byPlaceholder, description) else None
  }

  /** `findByLabel`: by the whole description. */
  function FindByLabel(page: Page, description: string): (r: Option<Handle>)
    ensures r.Some? <==> description in page.byLabel
    ensures r.Some? ==> r.value == page.byLabel[description]
  {
    Lookup(page.byLabel, description)
  }

  /** `s.replace(/\s+/g, sep)`: every maximal run of white space becomes
      one copy of `sep`. */
  function CollapseSpaces(s: string, sep: string): string
    decreases |s|
  {
    if s == [] then []
    else if IsSpace(s[0]) then sep + CollapseSpaces(TrimStart(s[1..]), sep)
    else [s[0]] + CollapseSpaces(s[1..], sep)
  }

  predicate NoSpace(s: string) { forall i :: 0 <= i < |s| ==> !IsSpace(s[i]) }

  /** The characters of `s` that are not white space, in order. */
  function RemoveSpaces(s: string): string {
    if s == [] then [] else (if IsSpace(s[0]) then [] else [s[0]]) + RemoveSpaces(s[1..])
  }

  /** The test ids `findByTestId` tries, in order. */
  function TestIdCandidates(description: string): seq<string> {
    [CollapseSpaces(Lower(description), "-"),
     CollapseSpaces(Lower(description), "_"),
     CollapseSpaces(description, "")]
  }

  /** A separator free of white space leaves none in the result. */
  lemma {:induction false} CollapseSpacesNoSpace(s: string, sep: string)
    requires NoSpace(sep)
    ensures NoSpace(CollapseSpaces(s, sep))
    decreases |s|
  {
    if s != [] {
      if IsSpace(s[0]) {
        CollapseSpacesNoSpace(TrimStart(s[1..]), sep);
      } else {
        CollapseSpacesNoSpace(s[1..], sep);
      }
    }
  }

  /** Collapsing white space into nothing removes it. */
  lemma {:induction false} CollapseSpacesEmpty(s: string)
    ensures CollapseSpaces(s, "") == RemoveSpaces(s)
    decreases |s|
  {
    if s != [] {
      if IsSpace(s[0]) {
        var t := TrimStart(s[1..]);
        CollapseSpacesEmpty(t);
        RemoveSpacesOfSpaces(s[1..]);
        assert CollapseSpaces(s, "") == "" + CollapseSpaces(t, "") == CollapseSpaces(t, "");
        assert RemoveSpaces(s) == [] + RemoveSpaces(s[1..]) == RemoveSpaces(s[1..]);
      } else {
        CollapseSpacesEmpty(s[1..]);
        assert CollapseSpaces(s, "") == [s[0]] + CollapseSpaces(s[1..], "");
        assert RemoveSpaces(s) == [s[0]] + RemoveSpaces(s[1..]);
      }
    }
  }

  /** Dropping leading white space does not change what `RemoveSpaces` keeps. */
  lemma {:induction false} RemoveSpacesOfSpaces(s: string)
    ensures RemoveSpaces(TrimStart(s)) == RemoveSpaces(s)
    decreases |s|
  {
    if s != [] && IsSpace(s[0]) {
      RemoveSpacesOfSpaces(s[1..]);
    }
  }

  /** A text without white space is left as it is. */
  lemma {:induction false} CollapseSpacesNoop(s: string, sep: string)
    requires NoSpace(s)
    ensures CollapseSpaces(s, sep) == s
    decreases |s|
  {
    if s != [] {
      CollapseSpacesNoop(s[1..], sep);
    }
  }

  /** The three test ids: lower-case with "-", lower-case with "_", and the
      original case with white space removed; none contains white space. */
  lemma {:induction false} TestIdCandidatesShape(description: string)
    ensures |TestIdCandidates(description)| == 3
    ensures TestIdCandidates(description)[2] == RemoveSpaces(description)
    ensures forall k :: 0 <= k < 3 ==> NoSpace(TestIdCandidates(description)[k])
  {
    CollapseSpacesNoSpace(Lower(description), "-");
    CollapseSpacesNoSpace(Lower(description), "_");
    CollapseSpacesNoSpace(description, "");
    CollapseSpacesEmpty(description);
  }

  /** `findByTestId`: the three test ids in order, the first the page has. */
  method FindByTestId(page: Page, description: string) returns (r: Option<Handle>)
    ensures r.Some? <==> FirstHit(page.byTestId, TestIdCandidates(description)).Some?
    ensures r.Some? ==> r.value == FirstHit(page.byTestId, TestIdCandidates(description)).value.handle
  {
    var hit := ProbeInOrder(page.byTestId, TestIdCandidates(description));
    r := if hit.Some? then Some(hit.value.handle) else None;
  }

  /** The standard strategies, in the order `findElement` runs them. */
  datatype Strategy = ByText | ByRole | ByPlaceholder | ByLabel | ByTestId
  const StandardStrategies: seq<Strategy> := [ByText, ByRole, ByPlaceholder, ByLabel, ByTestId]

  /** What one strategy finds. */
  function StrategyResult(page: Page, description: string, strategy: Strategy): Option<Handle> {
    match strategy
    case ByText => FindByText(page, description)
    case ByRole =>
      (match RoleHit(page, description, Roles)
       case Some(k) => Some(page.byRole[Roles[k]])
       case None => None)
    case ByPlaceholder => FindByPlaceholder(page, description)
    case ByLabel => FindByLabel(page, description)
    case ByTestId =>
      (match FirstHit(page.byTestId, TestIdCandidates(description))
       case Some(h) => Some(h.handle)
       case None => None)
  }

  method RunStrategy(page: Page, description: string, strategy: Strategy) returns (r: Option<Handle>)
    ensures r == StrategyResult(page, description, strategy)
  {
    match strategy {
      case ByText => r := FindByText(page, description);
      case ByRole => r := FindByRole(page, description);
      case ByPlaceholder => r := FindByPlaceholder(page, description);
      case ByLabel => r := FindByLabel(page, description);
      case ByTestId => r := FindByTestId(page, description);
    }
  }

  /** The winning strategy's position in the order and what it found. */
  datatype StrategyHit = StrategyHit(index: nat, handle: Handle)

  /** The first strategy of `strategies` that finds something: every
      earlier one found nothing. */
  function FirstStrategyHit(page: Page, description: string, strategies: seq<Strategy>): (r: Option<StrategyHit>)
    ensures r.Some? ==> r.value.index < |strategies|
    ensures r.Some? ==> StrategyResult(page, description, strategies[r.value.index]) == Some(r.value.handle)
  {
    if strategies == [] then None
    else match StrategyResult(page, description, strategies[0])
      case Some(h) => Some(StrategyHit(0, h))
      case None =>
        (match FirstStrategyHit(page, description, strategies[1..])
         case Some(sh) => Some(StrategyHit(sh.index + 1, sh.handle))
         case None => None)
  }

  /** Every strategy before the winning one, or every strategy when none
      wins, found nothing. */
  lemma {:induction false} FirstStrategyHitFirst(page: Page, description: string, strategies: seq<Strategy>)
    ensures var r := FirstStrategyHit(page, description, strategies);
      && (r.Some? ==> forall j :: 0 <= j < r.value.index ==> StrategyResult(page, description, strategies[j]).None?)
      && (r.None? ==> forall j :: 0 <= j < |strategies| ==> StrategyResult(page, description, strategies[j]).None?)
    decreases |strategies|
  {
    if strategies != [] && StrategyResult(page, description, strategies[0]).None? {
      FirstStrategyHitFirst(page, description, strategies[1..]);
    }
  }

  /** The winning standard strategy, if any. */
  function StandardHit(page: Page, description: string): Option<StrategyHit> {
    FirstStrategyHit(page, description, StandardStrategies)
  }

  /** Running the strategies in order and stopping at the first that finds
      something computes `FirstStrategyHit`. */
  method RunStrategies(page: Page, description: string, strategies: seq<Strategy>) returns (r: Option<StrategyHit>)
    ensures r == FirstStrategyHit(page, description, strategies)
  {
    var i := 0;
    while i < |strategies|
      invariant 0 <= i <= |strategies|
      invariant forall j :: 0 <= j < i ==> StrategyResult(page, description, strategies[j]).None?
    {
      var element := RunStrategy(page, description, strategies[i]);
      if element.Some? {
        FirstStrategyHitAt(page, description, strategies, i);
        return Some(StrategyHit(i, element.value));
      }
      i := i + 1;
    }
    return None;
  }

  lemma {:induction false} FirstStrategyHitAt(page: Page, description: string, strategies: seq<Strategy>, i: nat)
    requires i < |strategies| && StrategyResult(page, description, strategies[i]).Some?
    requires forall j :: 0 <= j < i ==> StrategyResult(page, description, strategies[j]).None?
    ensures FirstStrategyHit(page, description, strategies)
              == Some(StrategyHit(i, StrategyResult(page, description, strategies[i]).value))
  {
    if i > 0 {
      FirstStrategyHitAt(page, description, strategies[1..], i - 1);
    }
  }

  // ---------------------------------------------------------------------
  // AI selectors and self-healing

  /** The oracles standing for the AI engine's two selector calls. */
  type FindOracle = (string, string) -> Result<Option<FindSuggestion>>
  type HealOracle = (string, string, string) -> Result<Option<HealSuggestion>>

  /** The errors JavaScript raises when the engine answered `undefined`. */
  const UndefinedPrimary := UndefinedRead("primarySelector")
  const UndefinedNewSelectors := UndefinedRead("newSelectors")

  /** The selectors `findUsingAI` probes: the primary, then the fallbacks. */
  function AiCandidates(s: FindSuggestion): (c: seq<string>)
    ensures |c| >= 1 && c[0] == s.primarySelector
  {
    [s.primarySelector] + s.fallbackSelectors.GetOr([])
  }

  /** A successful AI or heal probe and the selector that goes to the cache. */
  datatype Learned = Learned(hit: Hit, selector: string)

  /** `findUsingAI` as a value: the suggestion's first visible candidate,
      with the PRIMARY selector as the one to cache. */
  function AiLookup(page: Page, description: string, find: FindOracle): Result<Option<Learned>> {
    match find(page.html, description)
    case Err(m) => Err(m)
    case Ok(None) => Err(UndefinedPrimary)
    case Ok(Some(s)) =>
      match FirstVisible(page, AiCandidates(s))
      case Some(h) => Ok(Some(Learned(h, s.primarySelector)))
      case None => Ok(None)
  }

  /** The last known selector as the heal request renders it: a missing
      entry is interpolated as "undefined". */
  function LastKnown(cache: Cache, key: string): string {
    if key in cache then cache[key] else "undefined"
  }

  /** `attemptSelfHealing` as a value: the first visible suggested selector,
      which is the one to cache. */
  function HealLookup(page: Page, description: string, lastKnown: string, heal: HealOracle): Result<Option<Learned>> {
    match heal(page.html, lastKnown, description)
    case Err(m) => Err(m)
    case Ok(None) => Err(UndefinedNewSelectors)
    case Ok(Some(s)) =>
      match FirstVisible(page, s.newSelectors)
      case Some(h) => Ok(Some(Learned(h, s.newSelectors[h.index])))
      case None => Ok(None)
  }

  function NotFoundMessage(description: string): string {
    "Could not find element: " + description + " after all strategies"
  }

  /** Where `findElement` ended. */
  datatype Stage = Cached | Standard(strategy: Strategy) | AiSelector(index: nat) | Healed(index: nat) | NotFound
  datatype Resolution = Resolution(result: Result<Handle>, stage: Stage, cache: Cache)

  /** `findElement` as a value: the element or the error, where it was
      found, and the cache afterwards. */
  function Resolve(cache: Cache, page: Page, description: string, options: Options,
                   find: FindOracle, heal: HealOracle): Resolution
  {
    var key := CacheKey(description);
    if key in cache && TrySelector(page, cache[key]).Some? then
      Resolution(Ok(TrySelector(page, cache[key]).value), Cached, cache)
    else match StandardHit(page, description)
      case Some(sh) => Resolution(Ok(sh.handle), Standard(StandardStrategies[sh.index]), cache)
      case None => AfterStandard(cache, page, description, options, find, heal)
  }

  /** `findElement` once the cache and the standard strategies found
      nothing: AI when enabled, then self-heal. */
  function AfterStandard(cache: Cache, page: Page, description: string, options: Options,
                         find: FindOracle, heal: HealOracle): Resolution
  {
    var ai := if options.enableAI then AiLookup(page, description, find) else Ok(None);
    if ai.Ok? && ai.value.Some? then
      Resolution(Ok(ai.value.value.hit.handle), AiSelector(ai.value.value.hit.index),
                 cache[CacheKey(description) := ai.value.value.selector])
    else AfterAi(cache, page, description, options, heal)
  }

  /** `findElement`'s last stage: self-heal when enabled and the key has
      an entry, else the "Could not find element" error. */
  function AfterAi(cache: Cache, page: Page, description: string, options: Options, heal: HealOracle): Resolution
  {
    var key := CacheKey(description);
    if options.enableSelfHealing && key in cache then
      match HealLookup(page, description, cache[key], heal)
      case Err(m) => Resolution(Err(m), NotFound, cache)
      case Ok(Some(l)) => Resolution(Ok(l.hit.handle), Healed(l.hit.index), cache[key := l.selector])
      case Ok(None) => Resolution(Err(NotFoundMessage(description)), NotFound, cache)
    else Resolution(Err(NotFoundMessage(description)), NotFound, cache)
  }

  class Finder {
    var selectorCache: Cache

    constructor ()
      ensures selectorCache == map[]
    {
      selectorCache := map[];
    }

    /** `findUsingAI`: on a hit, the primary selector is cached under the
        description's key even when a fallback matched. */
    method FindUsingAI(page: Page, description: string, find: FindOracle) returns (r: Result<Option<Handle>>)
      modifies this
      ensures var l := AiLookup(page, description, find);
        && (l.Err? ==> r == Err(l.message) && selectorCache == old(selectorCache))
        && (l.Ok? && l.value.None? ==> r == Ok(None) && selectorCache == old(selectorCache))
        && (l.Ok? && l.value.Some? ==>
              r == Ok(Some(l.value.value.hit.handle))
              && selectorCache == old(selectorCache)[CacheKey(description) := l.value.value.selector])
    {
      var reply := find(page.html, description);
      if reply.Err? {
        return Err(reply.message);
      }
      if reply.value.None? {
        return Err(UndefinedPrimary);
      }
      var suggestion := reply.value.value;
      var hit := TrySelectorsInOrder(page, AiCandidates(suggestion));
      if hit.Some? {
        selectorCache := selectorCache[CacheKey(description) := suggestion.primarySelector];
        return Ok(Some(hit.value.handle));
      }
      return Ok(None);
    }

    /** `attemptSelfHealing`: the first suggested selector that resolves
        replaces the cache entry; errors of the AI call propagate. */
    method AttemptSelfHealing(page: Page, description: string, heal: HealOracle) returns (r: Result<Option<Handle>>)
      modifies this
      ensures var key := CacheKey(description);
        var l := HealLookup(page, description, LastKnown(old(selectorCache), key), heal);
        && (l.Err? ==> r == Err(l.message) && selectorCache == old(selectorCache))
        && (l.Ok? && l.value.None? ==> r == Ok(None) && selectorCache == old(selectorCache))
        && (l.Ok? && l.value.Some? ==>
              r == Ok(Some(l.value.value.hit.handle))
              && selectorCache == old(selectorCache)[key := l.value.value.selector])
    {
      var key := CacheKey(description);
      var lastKnown := LastKnown(selectorCache, key);
      var reply := heal(page.html, lastKnown, description);
      if reply.Err? {
        return Err(reply.message);
      }
      if reply.value.None? {
        return Err(UndefinedNewSelectors);
      }
      var selectors := reply.value.value.newSelectors;
      var hit := TrySelectorsInOrder(page, selectors);
      if hit.Some? {
        selectorCache := selectorCache[key := selectors[hit.value.index]];
        return Ok(Some(hit.value.handle));
      }
      return Ok(None);
    }

    /** `findElement`: cache, standard strategies, AI, then self-heal. */
    method FindElement(page: Page, description: string, options: Options, find: FindOracle, heal: HealOracle)
      returns (r: Result<Handle>)
      modifies this
      ensures var res := Resolve(old(selectorCache), page, description, options, find, heal);
        r == res.result && selectorCache == res.cache
    {
      var key := CacheKey(description);
      if key in selectorCache {
        var element := TrySelector(page, selectorCache[key]);
        if element.Some? {
          return Ok(element.value);
        }
      }
      var standard := RunStrategies(page, description, StandardStrategies);
      if standard.Some? {
        return Ok(standard.value.handle);
      }
      r := FindAfterStandard(page, description, options, find, heal);
    }

    /** The AI and self-heal stages of `findElement`. */
    method FindAfterStandard(page: Page, description: string, options: Options, find: FindOracle, heal: HealOracle)
      returns (r: Result<Handle>)
      modifies this
      ensures var res := AfterStandard(old(selectorCache), page, description, options, find, heal);
        r == res.result && selectorCache == res.cache
    {
      ghost var before := selectorCache;
      ghost var ai := AiLookup(page, description, find);
      if options.enableAI {
        var found := FindUsingAI(page, description, find);
        if found.Ok? && found.value.Some? {
          assert ai.Ok? && ai.value.Some?;
          ghost var l := ai.value.value;
          AfterStandardAiHit(before, page, description, options, find, heal, l);
          return Ok(found.value.value);
        }
        assert !(ai.Ok? && ai.value.Some?);
      }
      assert selectorCache == before;
      AfterStandardAfterAi(before, page, description, options, find, heal);
      r := FindAfterAi(page, description, options, heal);
    }

    /** The self-heal stage of `findElement`. */
    method FindAfterAi(page: Page, description: string, options: Options, heal: HealOracle)
      returns (r: Result<Handle>)
      modifies this
      ensures var res := AfterAi(old(selectorCache), page, description, options, heal);
        r == res.result && selectorCache == res.cache
    {
      var key := CacheKey(description);
      ghost var before := selectorCache;
      if options.enableSelfHealing && key in selectorCache {
        ghost var l := HealLookup(page, description, before[key], heal);
        assert LastKnown(before, key) == before[key];
        var healed := AttemptSelfHealing(page, description, heal);
        if healed.Err? {
          assert l.Err? && AfterAi(before, page, description, options, heal).result == Err(l.message);
          return Err(healed.message);
        }
        if healed.value.Some? {
          assert l.Ok? && l.value.Some?;
          assert AfterAi(before, page, description, options, heal)
              == Resolution(Ok(l.value.value.hit.handle), Healed(l.value.value.hit.index), before[key := l.value.value.selector]);
          return Ok(healed.value.value);
        }
        assert l == Ok(None) && selectorCache == before;
      }
      assert AfterAi(before, page, description, options, heal) == Resolution(Err(NotFoundMessage(description)), NotFound, before);
      return Err(NotFoundMessage(description));
    }

    method ClearCache()
      modifies this
      ensures selectorCache == map[]
    {
      selectorCache := map[];
    }
  }

  // ---------------------------------------------------------------------
  // Properties of resolution

  /** A cached selector that resolves wins before any strategy or AI call:
      the result does not depend on the AI oracles or the options, and the
      cache is unchanged. */
  lemma {:induction false} CachedSelectorFirst(cache: Cache, page: Page, description: string, options: Options,
                                               find: FindOracle, heal: HealOracle, options2: Options,
                                               find2: FindOracle, heal2: HealOracle)
    requires CacheKey(description) in cache && TrySelector(page, cache[CacheKey(description)]).Some?
    ensures Resolve(cache, page, description, options, find, heal).stage == Cached
    ensures Resolve(cache, page, description, options, find, heal) == Resolve(cache, page, description, options2, find2, heal2)
    ensures Resolve(cache, page, description, options, find, heal).cache == cache
  {
  }

  /** Resolution never removes or alters any entry except the
      description's own key, and never removes that one either: a cached
      selector that stops resolving keeps its entry. */
  lemma {:induction false} ResolveCacheFrame(cache: Cache, page: Page, description: string, options: Options,
                                             find: FindOracle, heal: HealOracle)
    ensures CacheFrame(cache, Resolve(cache, page, description, options, find, heal).cache, CacheKey(description))
  {
    var key := CacheKey(description);
    if key in cache && TrySelector(page, cache[key]).Some? {
      assert Resolve(cache, page, description, options, find, heal).cache == cache;
      CacheFrameSame(cache, key);
    } else if StandardHit(page, description).Some? {
      assert Resolve(cache, page, description, options, find, heal).cache == cache;
      CacheFrameSame(cache, key);
    } else {
      ResolveAfterStandard(cache, page, description, options, find, heal);
      var ai := if options.enableAI then AiLookup(page, description, find) else Ok(None);
      if ai.Ok? && ai.value.Some? {
        assert AfterStandard(cache, page, description, options, find, heal).cache == cache[key := ai.value.value.selector];
        CacheFrameUpdate(cache, key, ai.value.value.selector);
      } else {
        AfterStandardAfterAi(cache, page, description, options, find, heal);
        AfterAiCacheFrame(cache, page, description, options, heal);
      }
    }
  }

  /** Past the cache and the standard strategies, resolution is
      `AfterStandard`. */
  lemma {:induction false} ResolveAfterStandard(cache: Cache, page: Page, description: string, options: Options,
                             find: FindOracle, heal: HealOracle)
    requires !(CacheKey(description) in cache && TrySelector(page, cache[CacheKey(description)]).Some?)
    requires StandardHit(page, description).None?
    ensures Resolve(cache, page, description, options, find, heal) == AfterStandard(cache, page, description, options, find, heal)
  {
  }

  /** The first two stages of resolution, each settled by one test. */
  lemma {:induction false} ResolveStages(cache: Cache, page: Page, description: string, options: Options,
                      find: FindOracle, heal: HealOracle)
    ensures var key := CacheKey(description);
      var res := Resolve(cache, page, description, options, find, heal);
      && (key in cache && TrySelector(page, cache[key]).Some? ==> res.stage == Cached && res.cache == cache)
      && (!(key in cache && TrySelector(page, cache[key]).Some?) && StandardHit(page, description).Some? ==>
            res.stage.Standard? && res.cache == cache)
      && (!(key in cache && TrySelector(page, cache[key]).Some?) && StandardHit(page, description).None? ==>
            res == AfterStandard(cache, page, description, options, find, heal))
  {
    var key := CacheKey(description);
    var res := Resolve(cache, page, description, options, find, heal);
    if key in cache && TrySelector(page, cache[key]).Some? {
      assert res == Resolution(Ok(TrySelector(page, cache[key]).value), Cached, cache);
    } else {
      match StandardHit(page, description)
      case Some(sh) =>
        assert res == Resolution(Ok(sh.handle), Standard(StandardStrategies[sh.index]), cache);
      case None =>
        assert res == AfterStandard(cache, page, description, options, find, heal);
    }
  }

  /** Past the AI stage, resolution is `AfterAi`. */
  lemma {:induction false} AfterStandardAfterAi(cache: Cache, page: Page, description: string, options: Options,
                             find: FindOracle, heal: HealOracle)
    requires !(options.enableAI && AiLookup(page, description, find).Ok? && AiLookup(page, description, find).value.Some?)
    ensures AfterStandard(cache, page, description, options, find, heal) == AfterAi(cache, page, description, options, heal)
  {
  }

  /** An AI hit ends resolution with the AI's primary selector cached. */
  lemma {:induction false} AfterStandardAiHit(cache: Cache, page: Page, description: string, options: Options,
                                              find: FindOracle, heal: HealOracle, l: Learned)
    requires options.enableAI && AiLookup(page, description, find) == Ok(Some(l))
    ensures AfterStandard(cache, page, description, options, find, heal)
      == Resolution(Ok(l.hit.handle), AiSelector(l.hit.index), cache[CacheKey(description) := l.selector])
  {
    var ai := if options.enableAI then AiLookup(page, description, find) else Ok(None);
    assert ai == Ok(Some(l));
  }

  /** `c` differs from `cache` at most by the entry for `key`, which it
      has. */
  predicate CacheFrame(cache: Cache, c: Cache, key: string) {
    && cache.Keys <= c.Keys
    && c.Keys <= cache.Keys + {key}
    && (forall k :: k in cache && k != key ==> c[k] == cache[k])
  }

  lemma {:induction false} CacheFrameSame(cache: Cache, key: string)
    ensures CacheFrame(cache, cache, key)
  {
  }

  lemma {:induction false} CacheFrameUpdate(cache: Cache, key: string, selector: string)
    ensures CacheFrame(cache, cache[key := selector], key)
  {
  }

  lemma {:induction false} AfterAiCacheFrame(cache: Cache, page: Page, description: string, options: Options, heal: HealOracle)
    ensures CacheFrame(cache, AfterAi(cache, page, description, options, heal).cache, CacheKey(description))
  {
    var key := CacheKey(description);
    CacheFrameSame(cache, key);
    if options.enableSelfHealing && key in cache {
      match HealLookup(page, description, cache[key], heal)
      case Err(m) =>
      case Ok(Some(l)) => CacheFrameUpdate(cache, key, l.selector);
      case Ok(None) =>
    }
  }

  /** A standard-strategy hit leaves the cache as it was, and the winning
      strategy is the first in the order that finds anything. */
  lemma {:induction false} StandardHitKeepsCache(cache: Cache, page: Page, description: string, options: Options,
                                                 find: FindOracle, heal: HealOracle)
    requires Resolve(cache, page, description, options, find, heal).stage.Standard?
    ensures Resolve(cache, page, description, options, find, heal).cache == cache
    ensures StandardHit(page, description).Some?
    ensures Resolve(cache, page, description, options, find, heal).stage.strategy
              == StandardStrategies[StandardHit(page, description).value.index]
  {
    var key := CacheKey(description);
    if key in cache && TrySelector(page, cache[key]).Some? {
    } else if StandardHit(page, description).None? {
      AfterStandardStage(cache, page, description, options, find, heal);
    }
  }

  /** The stages after the standard strategies end with an AI hit, a heal
      or a failure, never with a cache or standard-strategy stage. */
  lemma {:induction false} AfterStandardStage(cache: Cache, page: Page, description: string, options: Options,
                                              find: FindOracle, heal: HealOracle)
    ensures var s := AfterStandard(cache, page, description, options, find, heal).stage;
      s.AiSelector? || s.Healed? || s == NotFound
    ensures AfterStandard(cache, page, description, options, find, heal).stage.AiSelector? ==>
      options.enableAI && AiLookup(page, description, find).Ok? && AiLookup(page, description, find).value.Some?
  {
    var ai := if options.enableAI then AiLookup(page, description, find) else Ok(None);
    if !(ai.Ok? && ai.value.Some?) {
      assert AfterStandard(cache, page, description, options, find, heal) == AfterAi(cache, page, description, options, heal);
      AfterAiStage(cache, page, description, options, heal);
    }
  }

  lemma {:induction false} AfterAiStage(cache: Cache, page: Page, description: string, options: Options, heal: HealOracle)
    ensures var s := AfterAi(cache, page, description, options, heal).stage;
      s.Healed? || s == NotFound
  {
    var key := CacheKey(description);
    if options.enableSelfHealing && key in cache {
      match HealLookup(page, description, cache[key], heal)
      case Err(m) =>
      case Ok(Some(l)) =>
      case Ok(None) =>
    }
  }

  /** An AI hit caches the suggestion's primary selector, whichever
      candidate matched; AI is consulted only when enabled. */
  lemma {:induction false} AiHitCachesPrimary(cache: Cache, page: Page, description: string, options: Options,
                                              find: FindOracle, heal: HealOracle)
    requires Resolve(cache, page, description, options, find, heal).stage.AiSelector?
    ensures options.enableAI
    ensures find(page.html, description).Ok? && find(page.html, description).value.Some?
    ensures Resolve(cache, page, description, options, find, heal).cache
              == cache[CacheKey(description) := find(page.html, description).value.value.primarySelector]
  {
    ResolveStages(cache, page, description, options, find, heal);
    AfterStandardStage(cache, page, description, options, find, heal);
    var l := AiLookup(page, description, find);
    assert l.value.value.selector == find(page.html, description).value.value.primarySelector;
  }

  /** With AI disabled, the AI selector oracle is never consulted. */
  lemma {:induction false} AiDisabledIgnoresOracle(cache: Cache, page: Page, description: string, options: Options,
                                                   find: FindOracle, find2: FindOracle, heal: HealOracle)
    requires !options.enableAI
    ensures Resolve(cache, page, description, options, find, heal) == Resolve(cache, page, description, options, find2, heal)
  {
    assert AfterStandard(cache, page, description, options, find, heal)
        == AfterStandard(cache, page, description, options, find2, heal);
  }

  /** Self-heal runs only when enabled and the key already had an entry;
      otherwise the heal oracle is never consulted. */
  lemma {:induction false} HealNeedsEntry(cache: Cache, page: Page, description: string, options: Options,
                                          find: FindOracle, heal: HealOracle, heal2: HealOracle)
    requires !(options.enableSelfHealing && CacheKey(description) in cache)
    ensures Resolve(cache, page, description, options, find, heal) == Resolve(cache, page, description, options, find, heal2)
    ensures !Resolve(cache, page, description, options, find, heal).stage.Healed?
  {
    assert AfterAi(cache, page, description, options, heal) == AfterAi(cache, page, description, options, heal2);
    assert !AfterAi(cache, page, description, options, heal).stage.Healed?;
    assert AfterStandard(cache, page, description, options, find, heal)
        == AfterStandard(cache, page, description, options, find, heal2);
    assert !AfterStandard(cache, page, description, options, find, heal).stage.Healed?;
  }

  /** A successful heal replaces the entry with the suggested selector
      that resolved, which is the first of the suggestions to resolve. */
  lemma {:induction false} HealReplacesEntry(cache: Cache, page: Page, description: string, options: Options,
                                             find: FindOracle, heal: HealOracle)
    requires Resolve(cache, page, description, options, find, heal).stage.Healed?
    ensures options.enableSelfHealing && CacheKey(description) in cache
    ensures var key := CacheKey(description);
      var reply := heal(page.html, cache[key], description);
      var i := Resolve(cache, page, description, options, find, heal).stage.index;
      && reply.Ok? && reply.value.Some? && i < |reply.value.value.newSelectors|
      && Resolve(cache, page, description, options, find, heal).cache == cache[key := reply.value.value.newSelectors[i]]
      && TrySelector(page, reply.value.value.newSelectors[i]).Some?
      && (forall j :: 0 <= j < i ==> TrySelector(page, reply.value.value.newSelectors[j]).None?)
  {
    ResolveStages(cache, page, description, options, find, heal);
    AfterStandardStage(cache, page, description, options, find, heal);
    AfterStandardAfterAi(cache, page, description, options, find, heal);
    AfterAiHealed(cache, page, description, options, heal);
  }

  lemma {:induction false} AfterAiHealed(cache: Cache, page: Page, description: string, options: Options, heal: HealOracle)
    requires AfterAi(cache, page, description, options, heal).stage.Healed?
    ensures options.enableSelfHealing && CacheKey(description) in cache
    ensures var key := CacheKey(description);
      var reply := heal(page.html, cache[key], description);
      var i := AfterAi(cache, page, description, options, heal).stage.index;
      && reply.Ok? && reply.value.Some? && i < |reply.value.value.newSelectors|
      && AfterAi(cache, page, description, options, heal).cache == cache[key := reply.value.value.newSelectors[i]]
      && TrySelector(page, reply.value.value.newSelectors[i]).Some?
      && (forall j :: 0 <= j < i ==> TrySelector(page, reply.value.value.newSelectors[j]).None?)
  {
    var key := CacheKey(description);
    assert options.enableSelfHealing && key in cache;
    var l := HealLookup(page, description, cache[key], heal);
    assert l.Ok? && l.value.Some?;
    var reply := heal(page.html, cache[key], description);
    assert reply.Ok? && reply.value.Some?;
    FirstVisibleFirst(page, reply.value.value.newSelectors);
    var h := FirstVisible(page, reply.value.value.newSelectors);
    assert h.Some?;
  }

  /** A failure is the heal call's own error, passed through, when the
      heal ran and threw; otherwise it is the "Could not find element"
      error. Either way the cache is unchanged. */
  lemma {:induction false} FailureIsReported(cache: Cache, page: Page, description: string, options: Options,
                                             find: FindOracle, heal: HealOracle)
    requires Resolve(cache, page, description, options, find, heal).result.Err?
    ensures var res := Resolve(cache, page, description, options, find, heal);
      && res.stage == NotFound && res.cache == cache
      && (options.enableSelfHealing && CacheKey(description) in cache
          && HealLookup(page, description, cache[CacheKey(description)], heal).Err? ==>
            res.result.message == HealLookup(page, description, cache[CacheKey(description)], heal).message)
      && (!(options.enableSelfHealing && CacheKey(description) in cache
            && HealLookup(page, description, cache[CacheKey(description)], heal).Err?) ==>
            res.result.message == NotFoundMessage(description))
  {
    var key := CacheKey(description);
    ResolveStages(cache, page, description, options, find, heal);
    AfterStandardStage(cache, page, description, options, find, heal);
    AfterStandardAfterAi(cache, page, description, options, find, heal);
    if options.enableSelfHealing && key in cache {
      match HealLookup(page, description, cache[key], heal)
      case Err(m) =>
      case Ok(Some(l)) =>
      case Ok(None) =>
    }
  }
}
