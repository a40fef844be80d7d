# AI-assisted Playwright test framework, modelled in Dafny

This project models the decision logic of a Playwright test framework whose
element lookups, self-healing and test generation are assisted by an AI
engine. With the browser, the AI backends and the test runner replaced by
oracle parameters, the modelled behaviour is sequential and deterministic:

- **Element resolution** (`ElementFinder`): a per-instance selector cache,
  five standard strategies in a fixed order (text, role, placeholder, label,
  test id), the AI's primary and fallback selectors, and a cache-gated
  self-heal. It keeps the source's quirks: a failing cached selector is
  never evicted, a standard hit is not cached, and an AI fallback hit
  caches the primary selector.
- **Healing history** (`SelfHealing`): an append-only log of heal records,
  the history-based fast path tried before the AI, statistics and the
  ranking of the selectors that failed most often.
- **Workflow server** (`Workflow`): the run/heal loop bounded by two runs,
  reading the counts off a Playwright summary, failure classification, the
  guard on healed code with its one emergency regeneration, grouping plan
  steps into test cases, the TestRail counters and acceptance-criteria
  extraction.
- **Agents** (`Agents`): the planner, generator and healer histories, the
  auto-apply rule, plan execution and step dispatch, and the parsing of AI
  replies.
- **AI engine** (`AiEngine`): provider resolution, the guards of the
  disabled provider, the HTML excerpts, the local vision stub and query
  assembly.
- **AI page** (`AiPage`): the action history, the element actions, text
  and visibility verification, and screenshots.
- **MCP layer** (`McpServer`, `McpClient`, `AgentsMcp`, `Fences`): the
  in-process server that mimics the Model Context Protocol's shape, the
  client's connection state, the agents' routing between the client and
  the engine, and the two markdown code-fence extractions.

`Text` and `JsValues` give the JavaScript string operations and values the
core relies on; `Browser` is the page as the core queries it. Stateful
parts of the source (the element finder, the healer, the agents, the AI
engine, the page wrapper and the MCP client) are classes whose methods are
proved against specification functions. The rest is functions and lemmas.

## Model

| member | source | states |
|---|---|---|
| Browser.Lookup | src/core/element-finder.js:235-240 | a driver query finds an element exactly when the page has one for it |
| Browser.ProbeQuery | src/core/element-finder.js:157-170 | an XPath selector gets the "xpath=" prefix, any other selector is passed unchanged |
| Browser.ProbeQueryPrefixed | src/core/element-finder.js:157 | the prefix is added exactly when the selector starts with "/" or "(" |
| Browser.TrySelector | src/core/element-finder.js:154-175 | a selector resolves exactly when the page has its probe query, and never fails |
| Browser.FirstHit | src/core/element-finder.js:254-263 | the first query the page answers; every earlier one found nothing |
| Browser.ProbeInOrder | src/core/element-finder.js:254-263 | probing queries in order and stopping at the first answer finds the first hit |
| Browser.FirstHitAt | src/core/element-finder.js:254-263 | the first answered query is the hit |
| Browser.FirstVisible | src/core/element-finder.js:99-110 | the selector found resolves to the element returned |
| Browser.FirstVisibleFirst | src/core/element-finder.js:99-110 | every selector before the one found, or every selector when none is, resolves to nothing |
| Browser.FirstVisibleAt | src/core/element-finder.js:99-110 | the first selector that resolves is the one found |
| Browser.FirstVisibleNone | src/core/element-finder.js:139-148 | nothing is found when no selector resolves |
| Browser.TrySelectorsInOrder | src/core/element-finder.js:139-146 | trying selectors one after another and stopping at the first element found gives the first visible selector |
| ElementFinder.CacheKeyNormalises | src/core/element-finder.js:269-271 | descriptions differing only in surrounding white space or in letter case get the same cache key |
| ElementFinder.CacheKeyIdempotent | src/core/element-finder.js:269-271 | a cache key is its own cache key |
| ElementFinder.QuoteAt | src/core/element-finder.js:182 | a quoted run at a position opens and closes with the same quote, has at least one character and no copy of that quote inside; when none is found no later closing quote exists |
| ElementFinder.FirstQuoted | src/core/element-finder.js:182 | the leftmost position where a quoted run starts; no earlier position starts one |
| ElementFinder.SearchText | src/core/element-finder.js:182-183 | the text searched for is the non-empty content of the first quoted run, or the whole description when there is none |
| ElementFinder.FindByText | src/core/element-finder.js:179-191 | finds an element exactly when the page has one for the search text, and that element |
| ElementFinder.FirstQuotedAt | src/core/element-finder.js:181 | the first position where a quoted run starts is the one found |
| ElementFinder.FindByTextQuoted | src/core/element-finder.js:181-185 | a description with a quoted run and no quote before it is looked up by the run's content |
| ElementFinder.FindByRole | src/core/element-finder.js:197-212 | only roles the lower-cased description mentions are tried, in the fixed order button, link, textbox, checkbox, radio, combobox; the first the page has wins |
| ElementFinder.RoleHit | src/core/element-finder.js:198-211 | the chosen role is mentioned and present, and no earlier role is both |
| ElementFinder.RoleHitAt | src/core/element-finder.js:200-210 | the first mentioned and present role is the one chosen |
| ElementFinder.FindByPlaceholder | src/core/element-finder.js:217-228 | only a description mentioning "placeholder" is looked up, by the whole description |
| ElementFinder.FindByLabel | src/core/element-finder.js:233-241 | finds an element exactly when the page has a label for the whole description, and that element |
| ElementFinder.TestIdCandidatesShape | src/core/element-finder.js:248-252 | exactly three test ids, the third the description with white space removed, none containing white space |
| ElementFinder.CollapseSpacesNoSpace | src/core/element-finder.js:249-250 | replacing white-space runs by a separator without white space leaves none |
| ElementFinder.CollapseSpacesEmpty | src/core/element-finder.js:251 | replacing white-space runs by nothing removes every white-space character |
| ElementFinder.CollapseSpacesNoop | src/core/element-finder.js:249-251 | a description without white space is left as it is |
| ElementFinder.RemoveSpacesOfSpaces | src/core/element-finder.js:251 | leading white space does not change what removing white space keeps |
| ElementFinder.FindByTestId | src/core/element-finder.js:246-264 | the three test ids are tried in order and the first the page has wins |
| ElementFinder.RunStrategy | src/core/element-finder.js:46-52 | one standard strategy yields what its finder finds |
| ElementFinder.FirstStrategyHit | src/core/element-finder.js:54-64 | the winning strategy lies in the order and found the handle returned |
| ElementFinder.FirstStrategyHitFirst | src/core/element-finder.js:54-64 | every strategy before the winner, or every strategy when none wins, found nothing |
| ElementFinder.FirstStrategyHitAt | src/core/element-finder.js:54-64 | the first strategy that finds something is the winner |
| ElementFinder.RunStrategies | src/core/element-finder.js:54-64 | the loop over the strategies stops at the first that finds something |
| ElementFinder.AiCandidates | src/core/element-finder.js:99-110 | the primary selector is probed first, then the fallbacks |
| ElementFinder.AfterAiCacheFrame | src/core/element-finder.js:79-86 | the last stage changes at most the description's own cache entry, and never removes an entry |
| ElementFinder.Finder.constructor | src/core/element-finder.js:8-12 | a new finder starts with an empty cache |
| ElementFinder.Finder.FindUsingAI | src/core/element-finder.js:92-120 | on a hit the primary selector is cached under the description's key even when a fallback matched; a miss or an AI error leaves the cache as it was |
| ElementFinder.Finder.AttemptSelfHealing | src/core/element-finder.js:125-149 | the first suggested selector that resolves replaces the entry; an AI error propagates with the cache unchanged |
| ElementFinder.Finder.FindElement | src/core/element-finder.js:20-87 | the element, error and new cache are those of resolving through cache, standard strategies, AI and self-heal |
| ElementFinder.Finder.FindAfterStandard | src/core/element-finder.js:66-86 | the AI and self-heal stages, with AI errors swallowed |
| ElementFinder.Finder.FindAfterAi | src/core/element-finder.js:78-86 | self-heal runs only when enabled and the key already has an entry; a healed selector replaces it, heal errors propagate, and otherwise the "Could not find element" error |
| ElementFinder.Finder.ClearCache | src/core/element-finder.js:276-279 | the cache is empty afterwards |
| ElementFinder.CachedSelectorFirst | src/core/element-finder.js:29-38 | a cached selector that resolves wins before any strategy or AI call, whatever the options and oracles, and the cache is unchanged |
| ElementFinder.ResolveCacheFrame | src/core/element-finder.js:31-43 | resolution changes no entry but the description's own and never removes that one, so a failing cached selector keeps its entry |
| ElementFinder.ResolveAfterStandard | src/core/element-finder.js:45-66 | once cache and strategies miss, resolution is the AI and heal stages |
| ElementFinder.ResolveStages | src/core/element-finder.js:31-66 | a working cached selector ends resolution with the cache unchanged; else a standard hit does, unchanged; else resolution is the AI and heal stages |
| ElementFinder.AfterStandardAiHit | src/core/element-finder.js:66-74 | an AI hit ends resolution with the AI primary selector cached for the description |
| ElementFinder.AfterStandardAfterAi | src/core/element-finder.js:67-79 | once AI is disabled or misses, resolution is the heal stage |
| ElementFinder.StandardHitKeepsCache | src/core/element-finder.js:54-60 | a standard-strategy hit leaves the cache as it was and is the first strategy in the order that finds anything |
| ElementFinder.AfterStandardStage | src/core/element-finder.js:66-86 | after the standard strategies the outcome is an AI hit, a heal or a failure |
| ElementFinder.AfterAiStage | src/core/element-finder.js:79-86 | the heal stage ends healed or not found |
| ElementFinder.AiHitCachesPrimary | src/core/element-finder.js:67-76 | an AI hit happens only with AI enabled and caches the suggestion's primary selector |
| ElementFinder.AiDisabledIgnoresOracle | src/core/element-finder.js:67 | with AI disabled the AI selector oracle is never consulted |
| ElementFinder.HealNeedsEntry | src/core/element-finder.js:79 | self-heal runs only when enabled and the key already had an entry |
| ElementFinder.HealReplacesEntry | src/core/element-finder.js:125-146 | a heal replaces the entry with the first suggested selector that resolves |
| ElementFinder.AfterAiHealed | src/core/element-finder.js:79-83 | a healed outcome of the last stage replaces the entry with the first suggestion that resolves |
| ElementFinder.FailureIsReported | src/core/element-finder.js:80-86 | a failure leaves the cache unchanged; it is the heal call's own error when self-healing is on, the description has a cached selector and healing fails; otherwise the "Could not find element" error |
| SelfHealing.RecordOf | src/helpers/self-healing.js:53-62 | the record copies every field of the event and takes its healing strategy from the event's strategy |
| SelfHealing.Healer.constructor | src/helpers/self-healing.js:11-15 | the history starts empty |
| SelfHealing.Healer.RecordHealing | src/helpers/self-healing.js:52-68 | exactly one record is appended at the end of the history |
| SelfHealing.FindSimilarHealing | src/helpers/self-healing.js:199-213 | the most recent successful record with a case-insensitively equal description and the same old selector; none when no record qualifies |
| SelfHealing.Healer.AttemptHealing | src/helpers/self-healing.js:75-170 | the result and the appended records are those of history-first, then AI-suggestion healing |
| SelfHealing.HistoryFastPath | src/helpers/self-healing.js:90-113 | a resolving history match succeeds as "history-based" with confidence 0.8, records one success and never asks the AI |
| SelfHealing.AiPathFirstResolving | src/helpers/self-healing.js:116-144 | an AI heal uses the first suggestion that resolves, records it as "ai-generated" with the AI's confidence, and no earlier suggestion resolved |
| SelfHealing.AiPathNoneResolves | src/helpers/self-healing.js:146-161 | when no suggestion resolves, one failure record with no new selector, strategy "failed" and confidence 0 is appended and the suggestions are returned |
| SelfHealing.AttemptNeverThrows | src/helpers/self-healing.js:163-169 | an attempt never throws: an AI error becomes an error result with nothing recorded; every other outcome records exactly one entry, successful iff the result is |
| SelfHealing.SuccessCount | src/helpers/self-healing.js:221 | the successful records are no more than the history |
| SelfHealing.Strategies | src/helpers/self-healing.js:224-227 | the strategies of the records, one per record, in order |
| SelfHealing.TallyCounts | src/helpers/self-healing.js:224-227 | the tally has a key exactly for each item and counts its occurrences |
| SelfHealing.StatisticsConsistent | src/helpers/self-healing.js:219-236 | failed = total - successful and is never negative, the strategy counts are the true counts and add up to the total, and an empty history reports "0%" |
| SelfHealing.FirstOccurrences | src/helpers/self-healing.js:304-309 | the distinct items, each once, in order of first occurrence |
| SelfHealing.FirstIndex | src/helpers/self-healing.js:304-309 | the position of an item's first occurrence |
| SelfHealing.FirstOccurrencesOrder | src/helpers/self-healing.js:304-309 | keys are created in order of the first occurrence of their item |
| SelfHealing.KeysWhere | src/helpers/self-healing.js:309 | the keys that are array indices, or the others, a sub-multiset of the keys |
| SelfHealing.KeysSplit | src/helpers/self-healing.js:309 | every key is either an array index or not |
| SelfHealing.KeysWhereOrder | src/helpers/self-healing.js:309 | selecting keys keeps their order of first occurrence |
| SelfHealing.InsertByValue | src/helpers/self-healing.js:309 | inserting a key keeps every key |
| SelfHealing.InsertByValueSorted | src/helpers/self-healing.js:309 | inserting keeps keys in ascending numeric order |
| SelfHealing.SortByValue | src/helpers/self-healing.js:309 | sorting array-index keys is a permutation |
| SelfHealing.SortByValueSorted | src/helpers/self-healing.js:309 | array-index keys come out in ascending numeric order |
| SelfHealing.KeyOrder | src/helpers/self-healing.js:304-309 | the keys of the tally are the distinct items, each once |
| SelfHealing.IndicesFirst | src/helpers/self-healing.js:309 | moving array indices to the front keeps every key once |
| SelfHealing.EntriesOrderConcat | src/helpers/self-healing.js:309 | sorted array indices followed by the other keys in first-occurrence order are in the order `Object.entries` lists them |
| SelfHealing.KeyOrderShape | src/helpers/self-healing.js:304-309 | the tally's keys list array indices first in ascending numeric order, then the other keys in order of first occurrence |
| SelfHealing.Entries | src/helpers/self-healing.js:309-310 | one pair per key of the tally with its true count, in the key order of the tally object |
| SelfHealing.InsertDesc | src/helpers/self-healing.js:311 | inserting into the sorted pairs keeps every pair |
| SelfHealing.InsertDescAtMost | src/helpers/self-healing.js:311 | inserting keeps a bound on the counts |
| SelfHealing.InsertDescSorted | src/helpers/self-healing.js:311 | inserting keeps the counts non-increasing |
| SelfHealing.SortDesc | src/helpers/self-healing.js:311 | sorting is a permutation of the pairs |
| SelfHealing.SortDescSorted | src/helpers/self-healing.js:311 | sorting leaves the counts non-increasing |
| SelfHealing.DistinctOnce | src/helpers/self-healing.js:309-311 | distinct pairs occur once each |
| SelfHealing.TwoPositions | src/helpers/self-healing.js:309-311 | a pair at two positions occurs twice |
| SelfHealing.SortedEntries | src/helpers/self-healing.js:304-311 | the sorted pairs are the distinct items with their true counts, each once, in non-increasing order |
| SelfHealing.EntriesCover | src/helpers/self-healing.js:304-310 | every item has its pair among the entries |
| SelfHealing.PermutationKeeps | src/helpers/self-healing.js:311 | a permutation of the entries keeps the true counts, distinctness and coverage |
| SelfHealing.MostFrequentPrefix | src/helpers/self-healing.js:312 | the result is the first five sorted pairs, or all of them |
| SelfHealing.MostFrequentRanks | src/helpers/self-healing.js:303-313 | at most five pairs in non-increasing count order, each a distinct input item with its true count, empty only for empty input |
| SelfHealing.MostFrequentLeftOut | src/helpers/self-healing.js:311-312 | an item left out was crowded out by five pairs counted at least as often |
| SelfHealing.PrefixKeeps | src/helpers/self-healing.js:312 | the first five sorted pairs keep the order, the true counts and distinctness |
| SelfHealing.CrowdedOut | src/helpers/self-healing.js:311-312 | a pair beyond the first five is counted no more often than any of the five |
| SelfHealing.FailedSelectors | src/helpers/self-healing.js:283-285 | the old selectors of failed records; empty exactly when every record succeeded |
| SelfHealing.RecommendationsWhenNoFailures | src/helpers/self-healing.js:282-296 | the "No significant issues" line comes back exactly when no record failed |
| SelfHealing.LineDiffers | src/helpers/self-healing.js:293-295 | a text starting with a review line is not the "no issues" line |
| SelfHealing.JoinStarts | src/helpers/self-healing.js:293-295 | joined lines start with the first line |
| Workflow.FirstCountAt | server/workflow-api.js:1011-1013 | the search for `<n> <word>` starts no earlier than asked and stays within the output |
| Workflow.FirstCountIsLeftmost | server/workflow-api.js:1011-1013 | the match found is the leftmost, and nothing is found only when no match exists |
| Workflow.ParseOutput | server/workflow-api.js:1002-1020 | empty output gives all-zero counts; the total is passed plus failed, leaving skipped out |
| Workflow.CountOfLeading | server/workflow-api.js:1011-1017 | a count written at the start of the output is read back exactly |
| Workflow.CountOfPresent | server/workflow-api.js:1011-1017 | a non-zero count is read only where the word follows a space |
| Workflow.CountOfSkipsText | server/workflow-api.js:1011-1017 | text without digits in front of the output does not change a count |
| Workflow.CountOfShiftedMatch | server/workflow-api.js:1011-1017 | a match moved by a prefix reads the same count |
| Workflow.SameDigitsSameCount | server/workflow-api.js:1016-1018 | matches capturing the same digits read the same count |
| Workflow.CountOfNoMatch | server/workflow-api.js:1016-1018 | a count without a match is 0 |
| Workflow.CountOfMatch | server/workflow-api.js:1016-1018 | a count with a match is the decimal value of its digits |
| Workflow.FirstCountSkipsText | server/workflow-api.js:1011-1013 | the first match moves along with a digit-free prefix |
| Workflow.FirstCountInPrefix | server/workflow-api.js:1011-1013 | no match starts inside a digit-free prefix |
| Workflow.FirstCountShift | server/workflow-api.js:1011-1013 | past a prefix, the search is the search in the rest, shifted |
| Workflow.CountAtShift | server/workflow-api.js:1011-1013 | whether a match starts at a position does not depend on a prefix before it |
| Workflow.Flagged | server/workflow-api.js:791-804 | each category list has at most one entry per output line |
| Workflow.FlaggedMembers | server/workflow-api.js:791-804 | a text is in a category list exactly when it is the trimmed form of a line the category's pattern accepts |
| Workflow.FlaggedSnoc | server/workflow-api.js:791-804 | each further line adds at most itself to a category list |
| Workflow.AnalyzeErrors | server/workflow-api.js:781-804 | the loop over the output lines tests every line against every category independently and collects the trimmed lines; navigation is tested on the whole output |
| Workflow.FailureTypePriority | server/workflow-api.js:824-827 | each failure type is chosen exactly when its category is found and no category of higher priority (strict mode, navigation, selector, CSS) is |
| Workflow.TextMismatchesIgnored | server/workflow-api.js:824-827 | text mismatches decide neither the failure type nor the fixes |
| Workflow.UnknownIffNoFixes | server/workflow-api.js:984-989 | the type is "unknown" exactly when no fix is listed; each of the four fixes (strict, navigation, CSS, selector) is listed exactly when its category was found, and no fix is listed twice |
| Workflow.SelectorTypeCssFixFirst | server/workflow-api.js:984-989 | a selector failure with CSS issues lists the CSS fix before the selector fix |
| Workflow.StripTag | server/workflow-api.js:911 | removing a fence never lengthens the code |
| Workflow.StripTagAbsent | server/workflow-api.js:911 | code without the fence is unchanged |
| Workflow.ContainsPrefix | server/workflow-api.js:911 | where the opening fence occurs, so does the plain fence |
| Workflow.CleanCodePlain | server/workflow-api.js:911 | code without fences is only trimmed |
| Workflow.CleanCodeTrimmed | server/workflow-api.js:958 | cleaned code is already trimmed |
| Workflow.ContextOf | server/workflow-api.js:819-828 | the healer gets the test file's code, the first min(n, 1000) characters of the output as the message, the whole output as the stack, the failure type and details of the analysis, and the test cases, story id and attempt as given |
| Workflow.ScriptOf | server/workflow-api.js:858-908 | the healed script is `fixedCode` when truthy; an undefined analysis fails on reading `fixedCode` |
| Workflow.AppliedCodeChecked | server/workflow-api.js:913-967 | saved code either passed the guard or came from the emergency regeneration without a leading brace; the fixes are those of the analysis |
| Workflow.EmergencyCodeChecked | server/workflow-api.js:953-963 | code saved from the emergency regeneration does not open with a brace |
| Workflow.HealEmergency | server/workflow-api.js:920-964 | code failing the guard is replaced by the cleaned emergency answer |
| Workflow.NoEmergencyForCode | server/workflow-api.js:920 | once the first script passes the guard the emergency request is never sent |
| Workflow.FirstScriptSameRegeneration | server/workflow-api.js:858-911 | the first script depends only on the regeneration request |
| Workflow.HealWithoutEmergency | server/workflow-api.js:913-967 | code passing the guard is saved as it is, with no emergency flag |
| Workflow.EmergencyDecides | server/workflow-api.js:953-963 | after a failed guard, healing succeeds exactly when the cleaned emergency answer does not open with a brace |
| Workflow.ReadFailureStops | server/workflow-api.js:814-830 | a failure to read the test file ends healing with that error and asks nothing else; a read file heals from the first script for the context built from its code |
| Workflow.ApplyTestHealing | server/workflow-api.js:767-1000 | an unreadable test file fails with the read error; applied healing means the file was read and written, with the analysis and fixes of the error output |
| Workflow.ExecutionStep | server/workflow-api.js:463-566 | one pass of the loop: success on a clean run without failures, failure at the last attempt, failure when healing fails, otherwise the next attempt |
| Workflow.ExecuteTests | server/workflow-api.js:457-566 | the retry loop answers what the attempt-by-attempt definition gives |
| Workflow.RunAttempt | server/workflow-api.js:463-566 | one pass either answers, with the loop's response from that attempt, or hands on an applied healing report with which the next attempt gives the same response |
| Workflow.ExecutionAnswers | server/workflow-api.js:457-566 | the handler always answers after one or two attempts with the counts of that run; success means a clean run with no failed test; healing was applied exactly when the answer comes from the second attempt, and then the details are the applied report of the first run; a first-run success has no details |
| Workflow.ExecutionBounded | server/workflow-api.js:457-566 | the command runs at most twice and healing is consulted at most once, after the first run |
| Workflow.HealingFailureStops | server/workflow-api.js:547-564 | a failed healing ends the loop at once: not successful, one attempt, healing not applied, the failed report as the details and its error as the error |
| Workflow.ChunksShape | server/workflow-api.js:223-238 | ceil(n/3) groups of one to three steps that together are the steps |
| Workflow.ChunksAppend | server/workflow-api.js:223-238 | a group added after whole groups of three is the next group |
| Workflow.GroupStartStep | server/workflow-api.js:227 | a new group starts exactly at every third step |
| Workflow.GroupSteps | server/workflow-api.js:223-238 | the loop over the steps produces the groups of three |
| Workflow.StepTexts | server/workflow-api.js:233 | one text per step |
| Workflow.TestCasesShape | server/workflow-api.js:219-267 | never empty: ceil(n/3) cases for n steps, each expecting the assertion at its own index; else one per assertion; else exactly one |
| Workflow.PushTestRail | server/workflow-api.js:287-337 | missing cases or story is refused; otherwise each case is updated when its title exists and created otherwise |
| Workflow.PushCounts | server/workflow-api.js:302-337 | created + updated is the number of cases; the created titles are new and distinct; the section then holds the old titles and those of the cases |
| Workflow.MarkerRun | server/workflow-api.js:630 | the leading run of marker characters ends at the first other character |
| Workflow.StripMarker | server/workflow-api.js:630 | stripping the marker leaves a suffix of the line |
| Workflow.ExtractAcceptanceCriteria | server/workflow-api.js:616-635 | an empty description gives no criteria; otherwise the scan's criteria, or the one default criterion when there are none |
| Workflow.ScanLinesNext | server/workflow-api.js:623-632 | the scan reads lines one at a time |
| Workflow.CriteriaStep | server/workflow-api.js:624-631 | one line opens the section, adds a criterion, or changes nothing |
| Workflow.ScanInSection | server/workflow-api.js:625-628 | the section is open exactly when some heading line came before |
| Workflow.ScanFound | server/workflow-api.js:623-632 | a criterion is the stripped form of a bullet or numbered line after a heading, and every such line gives one |
| Agents.ParseAIResponse | src/core/test-agents.js:438-458 | the parsed response is always an object |
| Agents.ParseAIResponseUnparsed | src/core/test-agents.js:438-458 | objects come back unchanged; a non-string, or a string without an opening brace before a closing one, becomes `{text: response}` |
| Agents.ParseAIResponseSpan | src/core/test-agents.js:446-448 | the span parsed runs from the first "{" to the last "}" |
| Agents.AutoApplyRule | src/core/test-agents.js:271-279 | the top fix is applied exactly when auto-apply is on, the fix list is non-empty, the top fix's confidence converted by JavaScript's `ToNumber` is at least 0.7 and its risk is not "high"; no other fix is ever applied |
| Agents.DecimalTextConfidence | src/core/test-agents.js:272-274 | a confidence given as decimal text such as "0.75" is compared by its numeric value |
| Agents.StoreHealingShape | src/core/test-agents.js:262-279 | the stored healing carries the failure context and is the object returned; it is marked applied exactly when a fix is attached |
| JsNumbers.StringToNumberPadding | src/core/test-agents.js:274 | white space around a numeric text does not change its number |
| JsNumbers.BlankIsZero | src/core/test-agents.js:274 | a text of white space only compares as 0 |
| JsNumbers.UnsignedText | src/core/test-agents.js:274 | a trimmed text starting with a digit and without a radix prefix is its decimal literal, or NaN when it is not one |
| JsNumbers.UnsignedFraction | src/core/test-agents.js:274 | `d1.d2` is the literal of its digits scaled down by the length of `d2` |
| JsNumbers.UnsignedInteger | src/core/test-agents.js:274 | a run of digits is the literal of its decimal value |
| JsNumbers.DecimalFraction | src/core/test-agents.js:274 | the text `d1.d2` is the number of its digits divided by ten to the length of `d2` |
| JsNumbers.NatTextRoundTrip | src/core/test-agents.js:274 | a natural number's decimal text converts back to that number |
| JsNumbers.SingletonArray | src/core/test-agents.js:272-274 | a one-element array converts as its element for numbers, strings, `null` and arrays, and to NaN for booleans and objects |
| JsNumbers.LongArrayNaN | src/core/test-agents.js:272-274 | an array of two or more elements converts to NaN |
| Agents.NoAutoApplyByDefault | src/core/test-agents.js:200-201 | without the option nothing is applied and no fix is read |
| Agents.HealAttemptStores | src/core/test-agents.js:196-292 | a successful `healTest` stores exactly the entry it returns, applied exactly when it names a fix; an engine error stores nothing; a throwing auto-apply leaves the unapplied entry stored |
| Agents.HexRun | src/core/test-agents.js:422 | the run of hexadecimal digits lies within the text |
| Agents.ParseIntDecimal | src/core/test-agents.js:422 | text starting with a decimal digit and no "0x" prefix parses as its leading digits |
| Agents.WaitMsDecimal | src/core/test-agents.js:422 | a decimal number followed by a non-digit waits that many milliseconds, unless it is zero, which waits 1000 |
| Agents.ParseIntNotNumeric | src/core/test-agents.js:422 | text starting with anything but white space, a sign or a digit does not parse |
| Agents.WaitMsNotNumeric | src/core/test-agents.js:422 | an absent or non-numeric value waits 1000 milliseconds |
| Agents.CommandOf | src/core/test-agents.js:399-432 | a step without an action fails and every step with one dispatches |
| Agents.CommandAliases | src/core/test-agents.js:402-418 | dispatch ignores case; "type" is "fill" and "assert" is "verify" |
| Agents.CountPassed | src/core/test-agents.js:340-341 | no more passes than results |
| Agents.CountPassedSnoc | src/core/test-agents.js:340-346 | each further result adds one pass exactly when it passed |
| Agents.ExecutionOfRun | src/core/test-agents.js:323-387 | the plan's result is built from the loop's results and counters, or is the abort error |
| Agents.HealerStoresReturned | src/core/test-agents.js:352-359 | the healer used by `executePlan` stores exactly the entry it returns |
| Agents.RunStepsResults | src/core/test-agents.js:323-364 | an unaborted run has one result per step, each that of its step |
| Agents.RunStepsLast | src/core/test-agents.js:323-364 | one more step appends that step's result and stores its healing |
| Agents.HealingsOfSnoc | src/core/test-agents.js:359 | the healings carried by the results grow with each result |
| Agents.RunStepsAbort | src/core/test-agents.js:352-357 | an aborted run stops at the first step whose healing throws; the entries stored before are kept |
| Agents.ExecutionCounts | src/core/test-agents.js:305-387 | passed + failed is the number of steps, skipped stays 0, and the run succeeds exactly when no step failed |
| Agents.AllPassedCount | src/core/test-agents.js:376 | every step passed exactly when the passes are all the steps |
| Agents.RecentShape | src/core/test-agents.js:533-542 | the recent entries are the last five, or all of them |
| Agents.CountApplied | src/core/test-agents.js:541 | no more applied entries than entries |
| Agents.CountAppliedAppend | src/core/test-agents.js:541 | applied entries add up over concatenation |
| Agents.ParsedReplyIsObject | src/core/test-agents.js:438-458 | a parsed engine reply is always a plain object, so the agents can write fields on it |
| Agents.PlanOf | src/core/test-agents.js:78-83 | the stored plan is an object whose `originalDescription` is the description and whose other fields are the parsed reply's |
| Agents.GeneratedOf | src/core/test-agents.js:167-172 | the stored test is an object whose `plan` is the plan it came from and whose other fields are the parsed reply's |
| Agents.PlannedDescription | src/core/test-agents.js:117-121 | a description is planned exactly when the planner is answered, and the plan the generator uses carries that description |
| Agents.TestAgents.constructor | src/core/test-agents.js:11-20 | the three histories start empty |
| Agents.TestAgents.PlanTest | src/core/test-agents.js:25-96 | `null` options fail on reading includeSetup and change nothing; otherwise the request is the description with the settings, omitted options defaulted; an answer is parsed, its `originalDescription` set to the description, and that same plan is returned and appended to the planner's history; an engine error appends nothing; the other histories are unchanged |
| Agents.TestAgents.GenerateTest | src/core/test-agents.js:105-187 | `null` options fail on reading framework before anything is planned; a description is planned first with the default planning options, growing the planner's history by that plan; the result is the parsed reply to the request built from the plan and the settings, its `plan` field set to that plan, and that same object is appended to the generator's history; a planning or engine error appends nothing to it |
| Agents.HealSettingsDefaults | src/core/test-agents.js:199-204 | omitted or empty options heal at the conservative level without applying; `executePlan`'s `{ autoApply: true }` applies at the conservative level; reading fails exactly on `null` options; a set autoApply or healingLevel is passed on |
| Agents.SettingsDefaults | src/core/test-agents.js:29-33 | omitted or empty options give the default planning and generation settings; reading settings fails exactly on `null` options; a set detailLevel or filename is passed on |
| Agents.TestAgents.HealTest | src/core/test-agents.js:196-292 | `null` options fail on reading autoApply and store nothing; otherwise the result and the healer's growth are those of the healing under the read settings (request with the context and healing level, auto-apply by truthiness); the other histories are unchanged |
| Agents.TestAgents.ExecutePlan | src/core/test-agents.js:301-393 | every step runs; a failed step is healed unless the plan disables healing; a healing that throws aborts the plan; a plan without steps fails |
| Agents.TestAgents.ExecuteStep | src/core/test-agents.js:399-432 | a step's error is that of its dispatched action |
| Agents.TestAgents.HealFailedStep | src/core/test-agents.js:350-360 | a failed step is handed to `healTest` with auto-apply exactly when healing is not disabled |
| Agents.TestAgents.RunPlanSteps | src/core/test-agents.js:323-364 | the loop over the steps computes the run, its counters and the stored healings |
| Agents.TestAgents.RunPlanStep | src/core/test-agents.js:324-363 | one pass of the loop extends the run by one step |
| Agents.TestAgents.RunFailedStep | src/core/test-agents.js:343-360 | a failed step is counted as failed and healed when enabled; a healing that throws aborts the run with its error |
| Agents.TestAgents.GetStatistics | src/core/test-agents.js:529-545 | totals are the history lengths; the recent lists are each history's last five entries (`Recent`); the applied count is the number of stored healings marked applied, never more than the healings |
| Agents.TestAgents.ClearHistory | src/core/test-agents.js:550-556 | "all" empties the three histories and an agent's name empties only its own |
| Agents.RunStepsNextUnhealed | src/core/test-agents.js:334-363 | a step that passes or is not healed appends its result only |
| Agents.RunStepsNextHealed | src/core/test-agents.js:343-363 | a failed step handed to the healer appends its result with the healing, or aborts |
| Agents.RunStepsAfterAbort | src/core/test-agents.js:389-392 | once aborted, a run stays aborted with the same error and entries |
| AiEngine.EnvOr | src/core/ai-engine.js:55-64 | a set, non-empty variable is taken, otherwise the default |
| AiEngine.LocalSetup | src/core/ai-engine.js:53-65 | the local client uses LOCAL_LLM_URL, LOCAL_LLM_API_KEY and LOCAL_LLM_MODEL, defaulting to http://localhost:11434/v1, "not-needed" and "llama3.2:3b" |
| AiEngine.RouteOf | src/core/ai-engine.js:102-130 | the stored provider is compared exactly: "disabled" refuses, "anthropic" and "local" pick their backend, anything else falls through |
| AiEngine.Engine.constructor | src/core/ai-engine.js:14-18 | the provider comes from AI_PROVIDER, default "anthropic", and is then configured |
| AiEngine.Engine.InitializeProvider | src/core/ai-engine.js:21-51 | the engine's provider, client and model become the configuration of the stored provider name |
| AiEngine.Engine.InitializeLocal | src/core/ai-engine.js:53-65 | the engine holds a local client with the local defaults; the provider name is kept |
| AiEngine.Engine.FindElementSelector | src/core/ai-engine.js:72-136 | refused when disabled; otherwise the backend's answer for the truncated page and the description; an unmatched provider name yields undefined |
| AiEngine.Engine.AnalyzeScreenshot | src/core/ai-engine.js:141-204 | refused when disabled; the fixed stub on the local provider; otherwise the vision call through an Anthropic client, which fails reading "messages" with no client and "create" with the local client |
| AiEngine.NoMessagesApi | src/core/ai-engine.js:163 | without an Anthropic client the vision call fails on reading "messages" exactly when there is no client, and on "create" exactly when the client is the local one |
| AiEngine.MessagesNotCreate | src/core/ai-engine.js:163 | the two failures are different errors |
| AiEngine.Engine.SelfHealSelector | src/core/ai-engine.js:209-265 | refused when disabled; otherwise the backend's answer for the plain prefix of the page, the last known selector and the description |
| AiEngine.Engine.AnalyzeTestFailure | src/core/ai-engine.js:270-337 | never fails: disabled or a backend error gives `null`, a provider name matching no backend gives `undefined`; otherwise the backend's answer to the request with the test name, step, error message, stack and, for Anthropic only, the screenshot |
| AiEngine.FailureRequestOf | src/core/ai-engine.js:280-311 | the failure request carries the test name, step, error message and stack; the screenshot is attached exactly when the provider is Anthropic and one was given |
| AiEngine.Engine.Query | src/core/ai-engine.js:345-395 | refused when disabled; otherwise the backend's reply to the assembled request, or undefined for an unmatched name |
| AiEngine.ConfigureProvider | src/core/ai-engine.js:21-51 | unknown names and "anthropic" without a key become "local"; "disabled" creates no client; a mixed-case spelling of a known name is kept as given |
| AiEngine.LowerLocal | src/core/ai-engine.js:24 | "local" is already lower-case |
| AiEngine.MixedCaseLocalFallsThrough | src/core/ai-engine.js:102-130 | "Local" gets a local client, yet every dispatching call falls through both branches |
| AiEngine.FindExcerptShape | src/core/ai-engine.js:83 | the excerpt holds at most the first 10000 characters and ends with "...[truncated]" exactly when the page was longer |
| AiEngine.HealExcerptShape | src/core/ai-engine.js:220 | the self-heal excerpt is the page's prefix of at most 10000 characters, with no marker |
| AiEngine.QueryRequestShape | src/core/ai-engine.js:350-389 | a local query sends a system message then the prompt; an Anthropic query the prompt alone; maxTokens defaults to 2000 and temperature to 0.1 |
| AiPage.FlagOr | src/core/element-finder.js:21-25 | a flag defaulted to `true` by destructuring: only an absent flag takes the default, any other value counts by its truthiness |
| AiPage.FinderOptions | src/core/element-finder.js:21-25 | the finder's flags read from the page method's options; a `null` options object cannot be destructured |
| AiPage.Visible | src/core/ai-page.js:91-98 | `verifyElement` succeeds, with true, exactly when the element answered a truthy `isVisible` |
| AiPage.TextVerdict | src/core/ai-page.js:109-120 | `verifyText` succeeds, with true, exactly when the element's text is a string that matches; a mismatch names the expected and the actual text |
| AiPage.Validated | src/core/ai-page.js:203-208 | the analysis comes back exactly when it says the page matches; otherwise the error lists its issues |
| AiPage.Done | src/core/ai-page.js:20-291 | an action that completes returns undefined; a failing one returns its error unchanged |
| AiPage.AIPage.constructor | src/core/ai-page.js:10-15 | a fresh page wrapper has its own empty finder, no history and no screenshots |
| AiPage.AIPage.Record | src/core/ai-page.js:315-321 | the action is appended to the history, nothing else changes |
| AiPage.AIPage.Find | src/core/element-finder.js:20-25 | the finder resolves the description with the options read from the page method's options and keeps the cache it ends with |
| AiPage.AIPage.Interact | src/core/ai-page.js:40-80 | element actions record first, then resolve the element, then act on it; the record stays when resolving fails |
| AiPage.AIPage.PageAction | src/core/ai-page.js:214-291 | page actions record first, then the driver acts on the page |
| AiPage.AIPage.NavigateTo | src/core/ai-page.js:20-35 | the address is recorded even when loading fails; `null` options fail on reading `waitUntil`; the idle wait cannot fail; returns undefined once done |
| AiPage.AIPage.FillField | src/core/ai-page.js:40-55 | records the fill, resolves the field and fills it; returns undefined once done, or the first error |
| AiPage.AIPage.ClickElement | src/core/ai-page.js:60-80 | records the click, resolves the element and clicks it; returns undefined once done, or the first error |
| AiPage.AIPage.VerifyElement | src/core/ai-page.js:85-99 | records the check, resolves the element and succeeds exactly when it is visible |
| AiPage.AIPage.VerifyTextOf | src/core/ai-page.js:104-121 | records the check and compares the element's text in the mode `options.exact` selects |
| AiPage.AIPage.SelectOption | src/core/ai-page.js:126-135 | records the selection, resolves the element and selects the option; returns undefined once done, or the first error |
| AiPage.AIPage.UploadFile | src/core/ai-page.js:140-149 | records the upload, resolves the element and sets its file; returns undefined once done, or the first error |
| AiPage.AIPage.WaitForElement | src/core/ai-page.js:154-161 | only the timeout is passed on, so AI and self-healing are both on; nothing is recorded |
| AiPage.AIPage.TakeScreenshot | src/core/ai-page.js:166-192 | a taken screenshot is always stored; it is analysed only when both `analyze` and `expectedState` are set |
| AiPage.AIPage.ValidatePageState | src/core/ai-page.js:197-209 | the analysis of a fresh screenshot, accepted only when the page matches |
| AiPage.AIPage.ExecuteScript | src/core/ai-page.js:214-220 | records the script and returns what the page evaluates it to |
| AiPage.AIPage.HoverElement | src/core/ai-page.js:237-245 | records the hover, resolves the element and hovers over it; returns undefined once done, or the first error |
| AiPage.AIPage.DoubleClickElement | src/core/ai-page.js:250-258 | records the double click, resolves the element and double-clicks it; returns undefined once done, or the first error |
| AiPage.AIPage.RightClickElement | src/core/ai-page.js:263-271 | records the right click, resolves the element and right-clicks it; returns undefined once done, or the first error |
| AiPage.AIPage.PressKeyNamed | src/core/ai-page.js:276-281 | records the key and presses it on the page; returns undefined once done, or the first error |
| AiPage.AIPage.TypeText | src/core/ai-page.js:286-291 | records the text and types it on the page; returns undefined once done, or the first error |
| AiPage.AIPage.ClearCache | src/core/ai-page.js:308-310 | empties the finder's cache |
| AiPage.FinderDefaults | src/core/element-finder.js:21-25 | options are read exactly when they are not `null`; then an omitted flag leaves AI and self-healing on; a flag is off exactly when it is given and falsy |
| AiPage.TextMatchesItself | src/core/ai-page.js:111-113 | every text matches itself in both modes |
| AiPage.ExactIgnoresPadding | src/core/ai-page.js:112 | exact mode ignores white space around the actual text |
| AiPage.ContainsIgnoresCase | src/core/ai-page.js:113 | containment mode ignores letter case on both sides |
| AiPage.ExactNotContained | src/core/ai-page.js:111-113 | an expected text padded with white space matches exactly but is not contained, so exact mode is not the stricter one |
| AiPage.ContainedNotExact | src/core/ai-page.js:111-113 | a lower-case text that extends the expected one contains it but does not match it exactly |
| AiPage.ValidationListsIssues | src/core/ai-page.js:203-205 | a failed validation is an error whose message contains every issue the analysis lists |
| McpServer.FirstWhere | src/mcp/playwright-mcp-server.js:388-389 | a registry lookup finds an entry with the key, or there is none |
| McpServer.ListTools | src/mcp/playwright-mcp-server.js:374-382 | every registered tool, in order, with its name and input schema and no handler |
| McpServer.ToolNames | src/mcp/playwright-mcp-server.js:27-149 | the listing names exactly the four tools generate_test_plan, generate_playwright_code, analyze_test_failure and analyze_page_context |
| McpServer.PlanToolDispatch | src/mcp/playwright-mcp-server.js:387-395 | generate_test_plan reaches the plan handler |
| McpServer.CodeToolDispatch | src/mcp/playwright-mcp-server.js:387-395 | generate_playwright_code reaches the code handler |
| McpServer.FailureToolDispatch | src/mcp/playwright-mcp-server.js:387-395 | analyze_test_failure reaches the failure handler |
| McpServer.PageToolDispatch | src/mcp/playwright-mcp-server.js:387-395 | analyze_page_context reaches the page handler |
| McpServer.ListedToolsDispatch | src/mcp/playwright-mcp-server.js:374-395 | every listed tool can be called and reaches its own handler |
| McpServer.UnlistedToolRefused | src/mcp/playwright-mcp-server.js:388-391 | a name the listing does not show is refused with "Unknown tool: <name>" |
| McpServer.RequiredNotEnforced | src/mcp/playwright-mcp-server.js:294-297 | the required errorMessage is not enforced: a failure analysis without one still reaches the engine with "Unknown error" |
| McpServer.ReadListedResource | src/mcp/playwright-mcp-server.js:409-424 | every listed resource reads back as one entry with its own uri and type; any other uri is refused |
| McpServer.ErrorMessageFallback | src/mcp/playwright-mcp-server.js:296 | the failure analysis takes errorMessage, then error, then "Unknown error" |
| McpServer.GeneratedCode | src/mcp/playwright-mcp-server.js:241-289 | the framework defaults to "playwright-ai"; a fenced reply gives its body and a fence-free reply comes back whole |
| McpServer.ListPrompts | src/mcp/playwright-mcp-server.js:429-433 | every registered prompt, in order |
| McpServer.Placeholder | src/mcp/playwright-mcp-server.js:447 | the placeholder is the key in double braces |
| McpServer.GetPrompt | src/mcp/playwright-mcp-server.js:438-456 | the replacement loop answers an unknown key with an error and otherwise one user message with every supplied placeholder replaced |
| McpServer.PromptWithoutArguments | src/mcp/playwright-mcp-server.js:438-456 | without arguments a known template comes back unchanged; an unknown key is refused whatever the arguments |
| McpServer.FillsPlaceholder | src/mcp/playwright-mcp-server.js:445-448 | a template of the registry's shape gets the value in place of its placeholder |
| McpServer.AbsentPlaceholdersKeepText | src/mcp/playwright-mcp-server.js:445-448 | arguments whose placeholders do not occur leave the text as it is |
| McpServer.ListedPromptNamesNotKeys | src/mcp/playwright-mcp-server.js:429-441 | the listing shows prompts by display name, which `getPrompt` does not accept |
| McpClient.MapField | src/mcp/playwright-mcp-client.js:239-241 | the names of the listed tools, the uris of the resources and the names of the prompts: one value per entry, in order |
| McpClient.OptionsField | src/mcp/playwright-mcp-client.js:103-107 | a field of a defaulted options object: an omitted object reads as empty, a `null` one cannot be read |
| McpClient.Gather | src/mcp/playwright-mcp-client.js:144-157 | html, screenshot and viewport are read in order; the first failed read leaves it and every later one `null` |
| McpClient.Client.constructor | src/mcp/playwright-mcp-client.js:11-15 | a new client is disconnected and holds no tool list |
| McpClient.Client.Connect | src/mcp/playwright-mcp-client.js:20-42 | a no-op when connected; otherwise marks the client connected before listing, so a failed listing leaves it connected without a tool list, and the error is returned |
| McpClient.Client.Disconnect | src/mcp/playwright-mcp-client.js:47-55 | afterwards the client is disconnected and holds no tool list |
| McpClient.Client.EnsureConnected | src/mcp/playwright-mcp-client.js:60-64 | the client ends connected, holding the tool list connecting leaves; it fails with the listing error exactly when it was not connected and the server cannot list its tools |
| McpClient.Client.ListTools | src/mcp/playwright-mcp-client.js:69-77 | the cached tool list when there is one, else the server's listing; the tool list held afterwards is the one connecting leaves |
| McpClient.Client.CallTool | src/mcp/playwright-mcp-client.js:85-98 | once connected, exactly the server's answer to the call, with undefined arguments sent as `{}`; a failed connection is the listing error; the tool list held afterwards is the one connecting leaves |
| McpClient.Client.GenerateTestPlan | src/mcp/playwright-mcp-client.js:103-111 | the plan tool with testType and priority defaulted to "e2e" and "medium", and its first text item; a `null` options object fails before connecting and changes nothing; otherwise the tool list held afterwards is the one connecting leaves |
| McpClient.Client.GenerateCode | src/mcp/playwright-mcp-client.js:116-124 | the code tool with the url passed on and the framework defaulted to "playwright-ai", and its first text item; unreadable arguments fail before connecting and change nothing; otherwise the tool list held afterwards is the one connecting leaves |
| McpClient.Client.AnalyzeFailure | src/mcp/playwright-mcp-client.js:129-139 | the failure tool with the context's testCode, screenshot, pageUrl and stackTrace, and its first text item; unreadable arguments fail before connecting and change nothing; otherwise the tool list held afterwards is the one connecting leaves |
| McpClient.Client.AnalyzePageContext | src/mcp/playwright-mcp-client.js:144-168 | the page tool with what was gathered and the question, and its first text item; the tool list held afterwards is the one connecting leaves |
| McpClient.Client.ListResources | src/mcp/playwright-mcp-client.js:173-176 | the server's resource listing once connected; the tool list held afterwards is the one connecting leaves |
| McpClient.Client.ReadResource | src/mcp/playwright-mcp-client.js:181-184 | the server's reading of the uri once connected; the tool list held afterwards is the one connecting leaves |
| McpClient.Client.ListPrompts | src/mcp/playwright-mcp-client.js:189-192 | the server's prompt listing once connected; the tool list held afterwards is the one connecting leaves |
| McpClient.Client.GetPrompt | src/mcp/playwright-mcp-client.js:197-200 | the server's prompt for the name and arguments once connected; the tool list held afterwards is the one connecting leaves |
| McpClient.Client.IsAvailable | src/mcp/playwright-mcp-client.js:215-222 | true exactly when connecting completes; the client ends connected and the tool list held afterwards is the one connecting leaves |
| McpClient.Client.GetServerInfo | src/mcp/playwright-mcp-client.js:227-243 | the summary of the tool, resource and prompt listings, the tools being the cached list when there is one; the first listing that fails is the error; the tool list held afterwards is the one connecting leaves |
| McpClient.InfoCounts | src/mcp/playwright-mcp-client.js:234-242 | the counts are the lengths of the name lists, and the summary exists exactly when all three listings do |
| McpClient.EmbeddedServerInfo | src/mcp/playwright-mcp-client.js:227-243 | against the in-process server, connecting always completes and the summary counts four tools, three resources and three prompts, naming them |
| McpClient.EmbeddedDispatches | src/mcp/playwright-mcp-client.js:85-98 | every tool call to the in-process server reaches that tool's own handler |
| McpClient.ExtractTextOfReply | src/mcp/playwright-mcp-client.js:205-210 | `extractText` gives back the text of a one-item reply and "" for an empty one |
| AgentsMcp.FailureOf | src/core/test-agents-mcp.js:184-186 | the error message the healer passes on is always truthy, ending in "Unknown error"; a `null` or `undefined` context cannot be read |
| AgentsMcp.Agents.constructor | src/core/test-agents-mcp.js:19-25 | MCP routing is on exactly when `USE_MCP` is "true" |
| AgentsMcp.Agents.IsMcpAvailable | src/core/test-agents-mcp.js:30-41 | false without touching the client when MCP is disabled; otherwise whether the client connects, leaving it connected with the tool list connecting leaves |
| AgentsMcp.Agents.PlanTest | src/core/test-agents-mcp.js:47-98 | the client's plan tool when MCP is on and reachable, else the engine, with testType and priority defaulted; MCP off leaves the client untouched; MCP on leaves it connected, holding the tool list connecting leaves |
| AgentsMcp.Agents.PlanThroughClient | src/core/test-agents-mcp.js:52-64 | the routed branch: the client's plan with the defaulted options; the client stays connected and its tool list is unchanged |
| AgentsMcp.Agents.GenerateTest | src/core/test-agents-mcp.js:104-174 | routed: the client's code and the lenient, trimming fence extraction; direct: the engine and the strict, untrimmed one; MCP off leaves the client untouched; MCP on leaves it connected, holding the tool list connecting leaves |
| AgentsMcp.Agents.CodeThroughClient | src/core/test-agents-mcp.js:109-127 | the routed branch: the client's code tool, then the lenient fence body trimmed or the text unchanged; the client stays connected and its tool list is unchanged |
| AgentsMcp.Agents.HealTest | src/core/test-agents-mcp.js:180-227 | the context is read first, so an unreadable one fails without touching the client; otherwise the routed or direct analysis; MCP off leaves the client untouched; MCP on leaves it connected, holding the tool list connecting leaves |
| AgentsMcp.Agents.AnalyzePageContext | src/core/test-agents-mcp.js:233-247 | refused with the "MCP not enabled" message unless routed, else the client's page analysis; MCP off leaves the client untouched; MCP on leaves it connected, holding the tool list connecting leaves |
| AgentsMcp.Agents.GetMcpInfo | src/core/test-agents-mcp.js:252-275 | disabled with its message unless routed; then the server summary, or unavailable with the error that stopped it; MCP off leaves the client untouched; MCP on leaves it connected, holding the tool list connecting leaves |
| AgentsMcp.Agents.ListMcpTools | src/core/test-agents-mcp.js:280-286 | no tools unless routed, else the client's tool list; MCP off leaves the client untouched; MCP on leaves it connected, holding the tool list connecting leaves |
| AgentsMcp.Agents.CallMcpTool | src/core/test-agents-mcp.js:291-297 | refused unless routed, else exactly the server's answer, with undefined arguments sent as `{}`; MCP off leaves the client untouched; MCP on leaves it connected, holding the tool list connecting leaves |
| AgentsMcp.Agents.PlanAndGenerate | src/core/test-agents-mcp.js:332-348 | the plan's text is the description the code is generated from; with MCP on, generation is always routed; `null` options fail on reading testType and leave the client untouched; MCP off leaves the client untouched; MCP on leaves it connected, holding the tool list connecting leaves |
| AgentsMcp.Agents.GenerateRunAndHeal | src/core/test-agents-mcp.js:353-367 | only generation happens: the code with status "generated" and its fixed message; MCP off leaves the client untouched; MCP on leaves it connected, holding the tool list connecting leaves |
| AgentsMcp.PlanPathsAgree | src/core/test-agents-mcp.js:52-92 | against the in-process server's plan handler, the routed and direct plans are equal |
| AgentsMcp.HealPathsAgree | src/core/test-agents-mcp.js:189-221 | against the in-process server's failure handler, the routed and direct analyses are equal |
| AgentsMcp.HealErrorMessage | src/core/test-agents-mcp.js:185-186 | the error message falls back from errorMessage to error.message, error.stack and "Unknown error"; the stack trace falls back to error.stack; a `null` or `undefined` context is refused |
| AgentsMcp.McpCodeRoute | src/core/test-agents-mcp.js:109-120 | the routed code is the lenient, trimming extraction applied to the server's strict extraction of the engine's reply |
| AgentsMcp.DirectCodeRoute | src/core/test-agents-mcp.js:156-162 | the direct code is the strict extraction of the engine's reply |
| AgentsMcp.CodePathsAgreeOnFencedBlock | src/core/test-agents-mcp.js:117-162 | on a fenced block with a line feed after the tag, both paths return the body |
| AgentsMcp.CodePathsDifferWithoutNewline | src/core/test-agents-mcp.js:117-162 | without a line feed after the opening fence, the direct path keeps the whole reply and the routed path returns the trimmed body |
| AgentsMcp.McpCodeNeedsString | src/mcp/playwright-mcp-server.js:243 | only the routed path needs a string description: the server takes a substring of it first |
| AgentsMcp.NoFenceBacktickFree | src/core/test-agents-mcp.js:117 | a text without backticks contains no fence |
| Fences.TagLength | src/core/test-agents-mcp.js:117 | the optional language tag is `javascript` (tried first), `js` or nothing |
| Fences.BodyStart | src/core/test-agents-mcp.js:117 | the body starts after the fence, the tag and the line feed; without a line feed only the lenient form matches |
| Fences.NextFence | src/core/test-agents-mcp.js:117 | the first fence at or after a position, with none before it |
| Fences.FenceFreeBody | src/core/test-agents-mcp.js:117 | a lazily matched body contains no fence |
| Fences.MatchAt | src/core/test-agents-mcp.js:117 | a match starting at a position opens with a fence and has a fence-free body |
| Fences.FirstFenced | src/core/test-agents-mcp.js:117 | the leftmost match has a fence-free body taken at some start at or after the position |
| Fences.FirstFencedAt | src/core/test-agents-mcp.js:117 | the scan returns the match at the first start where one exists |
| Fences.FirstFencedNone | src/core/test-agents-mcp.js:118 | with no start matching, there is no match |
| Fences.NoFenceUnchanged | src/core/test-agents-mcp.js:117-162 | a fence-free text is returned whole by both forms |
| Fences.NextFenceAt | src/core/test-agents-mcp.js:117 | the next fence after a fence-free stretch is the one that ends it |
| Fences.FencedBlock | src/mcp/playwright-mcp-server.js:274-277 | a block with a `javascript`, `js` or no tag and a line feed yields its body under both forms |
| Fences.NewlineDecides | src/core/test-agents-mcp.js:117-159 | without a line feed after the opening fence, the lenient form takes the body and the strict one matches nothing |
| Fences.StrictNone | src/core/test-agents-mcp.js:159 | the strict form matches nothing in a block without a line feed after its opening fence |
| Fences.NotAnOpening | src/core/test-agents-mcp.js:117 | in a single backtick-free block, fences occur only at its two ends |
| Fences.NoCloseAfter | src/core/test-agents-mcp.js:117 | a closing fence followed by backtick-free text starts no match |
| JsValues.Get | src/core/ai-page.js:111 | reading a property gives `undefined` for a missing key or a value that is not an object |
| JsValues.SetField | src/core/test-agents.js:82 | assigning a property on an object makes that key read the value and leaves every other key as it was |
| JsValues.Or | src/core/test-agents-mcp.js:55-56 | `a \|\| b` is the first operand when it is truthy, else the second |
| JsValues.At | src/mcp/playwright-mcp-client.js:110 | indexing gives the array element in range and `undefined` on a primitive |
| Text.LowerChar | src/core/element-finder.js:270 | an upper-case ASCII letter becomes its lower-case form, every other character stays |
| Text.Lower | src/core/element-finder.js:270 | lower-casing keeps the length and maps every character on its own |
| Text.LowerIdempotent | src/core/element-finder.js:270 | lower-casing twice is lower-casing once |
| Text.LowerConcat | src/core/element-finder.js:270 | lower-casing distributes over concatenation |
| Text.LowerSpace | src/core/element-finder.js:270 | white space is left alone by lower-casing |
| Text.TrimStart | src/core/ai-page.js:112 | the longest suffix not starting with white space, all of the dropped prefix being white space |
| Text.TrimEnd | src/core/ai-page.js:112 | the longest prefix not ending with white space, all of the dropped suffix being white space |
| Text.Trim | src/core/ai-page.js:112 | the trimmed text neither starts nor ends with white space |
| Text.TrimStartPadding | src/core/ai-page.js:112 | leading white space does not change the start-trimmed text |
| Text.TrimEndPadding | src/core/ai-page.js:112 | trailing white space does not change the end-trimmed text |
| Text.TrimStartAppend | src/core/ai-page.js:112 | once a text has something left after trimming its start, appending does not change where trimming stops |
| Text.TrimPadding | src/core/ai-page.js:112 | surrounding white space does not change the trimmed text |
| Text.TrimIdempotent | src/core/element-finder.js:270 | trimming twice is trimming once |
| Text.LowerFixed | src/core/element-finder.js:270 | a text whose characters are all lower-case is its own lower-casing |
| Text.SliceLower | src/core/element-finder.js:270 | every stretch of a lower-case text is lower-case |
| Text.TrimKeepsLower | src/core/element-finder.js:270 | trimming a lower-case text leaves it lower-case |
| Text.TrimNoSpace | src/core/ai-page.js:112 | a text that neither starts nor ends with white space is its own trimming |
| Text.ContainsWitness | src/core/ai-page.js:113 | an occurrence at some index makes the text contain the pattern |
| Text.IndexOfChar | src/core/test-agents.js:446 | the first occurrence of a character at or after a position, or none |
| Text.LastIndexOfChar | src/core/test-agents.js:446 | the last occurrence of a character, or none |
| Text.ReplaceAllAbsent | src/mcp/playwright-mcp-server.js:447 | a global replacement of a pattern that does not occur leaves the text unchanged |
| Text.ReplaceAllSkipsPrefix | src/mcp/playwright-mcp-server.js:447 | a prefix without the pattern's first character is copied unchanged |
| Text.ReplaceAllAtStart | src/mcp/playwright-mcp-server.js:447 | an occurrence at the start is replaced by the value |
| Text.SplitLines | server/workflow-api.js:619 | splitting on line feeds gives at least one piece, none holding a line feed |
| Text.JoinSplitLines | server/workflow-api.js:619 | joining the pieces with line feeds gives the text back |
| Text.NatToString | src/helpers/self-healing.js:293-294 | a number's decimal rendering is a non-empty run of digits |
| Text.DigitRoundTrip | src/core/test-agents.js:422 | a digit's character reads back as that digit |
| Text.DecimalOfNatToString | src/core/test-agents.js:422 | parsing a number's decimal rendering gives the number back |
| Text.DigitRun | src/core/test-agents.js:422 | the run of digits at a position, ending at the first non-digit or the end |
| Text.DigitRunOfDigitsThen | src/core/test-agents.js:422 | the digit run of digits followed by anything not starting with a digit is the digits |
| Text.DigitRunWithin | src/core/test-agents.js:422 | the digit run ends at the first non-digit |

## Left out

- Browser driver calls (`waitForSelector`, the `getBy…` locators, navigation, `page.content`, screenshots, `isVisible`, `textContent`) are oracle parameters: a page snapshot for lookups and a `Driver` function for actions. Timeouts are not modelled; a lookup that times out is one that finds nothing.
- AI backends (the Anthropic and OpenAI SDK calls) and `JSON.parse` of their replies are oracle parameters. Requests carry every value the prompts interpolate: the planning settings, the generation settings with the plan, the healer's failure context with its healing level, the workflow's heal context (test code, message, stack, failure type, test cases, story id, attempt, site URL and analysis), and the failure request with its stack and screenshot. Only the wording of the prompts is left out.
- Playwright runs launched through `child_process`, Express routing, HTTP status codes and the Jira and TestRail clients are not modelled. A run is an oracle from the attempt number to its outcome, and the TestRail lookup is the set of existing titles.
- File I/O is not modelled: loading and saving the healing history (including the constructor's un-awaited `loadHistory`, which races with the first heal), plan, code and report writes, and test-file overwrites.
- Timestamps, `Date`, durations and logging are not modelled.
- Number formatting is not modelled: `successRate.toFixed(2)`, confidence percentages in reports and duration parsing. Confidences are reals.
- `AIPage.getPageInfo` and `AIPage.waitForNavigation` only read the page through the driver and record nothing; they are not modelled.
- `AIPage.getActionHistory` and `AIPage.getScreenshots` are not separate members: they return the `actionHistory` and `screenshots` fields as they are.
- The click, fill and type options (`modifiers`, `force`, `delay`), the `fullPage` and `type` screenshot options and the navigation timeout are passed to the driver unread by the model.
- The HTML report of the reporting helper, the visual-AI helper, the test-runner fixture, the UI and the slide generator are not part of this model.
- The never-called free-text branch of `parseTestCases` and the per-line title extraction of `parsePlaywrightOutput` are not modelled.
- Regular expressions are modelled only where the core uses them: the two code-fence patterns, the `<n> passed|failed|skipped` counts, the failure categories, and `{{key}}` replacement.
- McpServer.GetPrompt: the key is matched literally. A key holding regular-expression metacharacters and a value holding `$` replacement patterns are not modelled.
- McpServer.ListTools: the tools' descriptions and input schemas are carried as given, not checked; no schema is enforced on a call.
- McpServer.FirstWhere: registry lookups see only the registered entries, not names inherited from `Object.prototype` such as `toString`.
- AiPage.AIPage.TakeScreenshot: when `analyze` is set and `expectedState` is a truthy value other than a string, the result is left unstated.
- Text.Lower: lower-cases ASCII letters only; other letters keep their case.
- Plan steps (`Agents.Step`) have a text action, target and value, the action and value possibly absent. A step whose fields are numbers, objects or `null` is not modelled: the source then throws a different `TypeError` from `action.toLowerCase()`, or coerces a numeric wait value through `parseInt`.
- JsValues.SetField: a property written on an array or a primitive is not kept, since only objects carry named properties in this model; the agents write only on parsed replies, which are always objects (`Agents.ParsedReplyIsObject`).
- The `maxAttempts` option of `healTest` is destructured and never used, so `Agents.HealSettings` does not carry it.
- McpClient.Client.AnalyzePageContext: the page's URL and what `content`, `screenshot` and `viewportSize` return are parameters; their failures are gathered by `McpClient.Gather`.
- JsNumbers.StringToNumber: finite numbers are exact reals; rounding to the nearest double and overflow to `Infinity` (as in "1e400") are not modelled, so two decimal texts that round to the same double may compare differently.
- SelfHealing.KeyOrder: keys inherited from `Object.prototype` (`toString`, `__proto__` and the like) are not modelled; a tally key of that name behaves as an ordinary key.
- Strings are sequences of characters, not UTF-16 code units: the 10000-, 2000- and 1000-character cuts (`AiEngine.HtmlLimit`, `McpServer.PageHtmlLimit`, `Workflow.MessageLimit`), `Agents.LengthOf` and `indexOf` positions differ from JavaScript for text outside the Basic Multilingual Plane.
- Workflow.ExecutionFrom: a response records whether healing was applied as a flag with the report in `healingDetails`; after a failed last attempt the source instead sends the applied report itself as `healingApplied` with no `healingDetails`. The raw `output` field of a failed response is not carried.
