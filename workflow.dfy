/** The workflow server's test-execution core: reading the counts off a
    Playwright run, classifying the failure lines of a failed run, the
    guard on the code the healer returns, the bounded run/heal loop, and
    the small helpers that turn a plan into test cases, push them to
    TestRail and pick acceptance criteria out of a story. */
module Workflow {
  import opened Wrappers
  import opened Text
  import opened JsValues

  // ---------------------------------------------------------------------
  // parsePlaywrightOutput

  /** The counts of a Playwright run (the duration and per-test lines are
      not modelled). */
  datatype Counts = Counts(passed: nat, failed: nat, skipped: nat, total: nat)

  /** `/(\d+) <word>/` matches at `i`: a run of digits starts there and is
      followed by a space and the word. Backtracking cannot shorten the
      run, since the character after a shorter run is a digit. */
  predicate CountAt(s: string, word: string, i: nat)
    requires i <= |s|
  {
    DigitRun(s, i) > 0 && OccursAt(s, " " + word, i + DigitRun(s, i))
  }

  /** The leftmost match of `/(\d+) <word>/` at or after `from`. */
  function FirstCountAt(s: string, word: string, from: nat): (r: Option<nat>)
    requires from <= |s|
    ensures r.Some? ==> from <= r.value <= |s|
    decreases |s| - from
  {
    if CountAt(s, word, from) then Some(from)
    else if from == |s| then None
    else FirstCountAt(s, word, from + 1)
  }

  /** The search finds the leftmost match, and finds nothing only when
      there is none. */
  lemma {:induction false} FirstCountIsLeftmost(s: string, word: string, from: nat)
    requires from <= |s|
    ensures var r := FirstCountAt(s, word, from);
      && (r.Some? ==> CountAt(s, word, r.value))
      && (r.Some? ==> forall j :: from <= j < r.value ==> !CountAt(s, word, j))
      && (r.None? ==> forall j :: from <= j <= |s| ==> !CountAt(s, word, j))
    decreases |s| - from
  {
    if !CountAt(s, word, from) && from < |s| {
      FirstCountIsLeftmost(s, word, from + 1);
    }
  }

  /** The number the first match captures, `parseInt`-ed; 0 without a match. */
  function CountOf(s: string, word: string): nat {
    match FirstCountAt(s, word, 0)
    case None => 0
    case Some(i) => DecimalValue(s[i..i + DigitRun(s, i)])
  }

  /** `parsePlaywrightOutput`: all zeros for empty output; otherwise each
      count from its first match and a total that leaves skipped tests out. */
  function ParseOutput(output: string): (r: Counts)
    ensures output == [] ==> r == Counts(0, 0, 0, 0)
    ensures r.total == r.passed + r.failed
  {
    if output == [] then Counts(0, 0, 0, 0)
    else
      var passed := CountOf(output, "passed");
      var failed := CountOf(output, "failed");
      Counts(passed, failed, CountOf(output, "skipped"), passed + failed)
  }

  /** A count the output leads with is read back exactly. */
  lemma {:induction false} CountOfLeading(n: nat, word: string, rest: string)
    ensures CountOf(NatToString(n) + " " + word + rest, word) == n
  {
    var d := NatToString(n);
    var s := d + " " + word + rest;
    assert s == d + (" " + word + rest);
    DigitRunOfDigitsThen(d, " " + word + rest);
    assert s[|d|..|d| + |" " + word|] == " " + word;
    assert CountAt(s, word, 0);
    assert s[0..DigitRun(s, 0)] == d;
    DecimalOfNatToString(n);
  }

  /** A count is only ever read where the word follows a space. */
  lemma {:induction false} CountOfPresent(s: string, word: string)
    ensures CountOf(s, word) > 0 ==> Contains(s, " " + word)
  {
    FirstCountIsLeftmost(s, word, 0);
    match FirstCountAt(s, word, 0)
    case None =>
    case Some(i) =>
      ContainsWitness(s, " " + word, i + DigitRun(s, i));
  }

  /** Text without digits in front of the output does not change a count. */
  lemma {:induction false} CountOfSkipsText(pre: string, s: string, word: string)
    requires forall k :: 0 <= k < |pre| ==> !IsDigit(pre[k])
    ensures CountOf(pre + s, word) == CountOf(s, word)
  {
    var t := pre + s;
    FirstCountSkipsText(pre, s, word);
    if FirstCountAt(s, word, 0).Some? {
      CountOfShiftedMatch(pre, s, word, FirstCountAt(s, word, 0).value);
    } else {
      CountOfNoMatch(t, word);
      CountOfNoMatch(s, word);
    }
  }

  lemma {:induction false} CountOfShiftedMatch(pre: string, s: string, word: string, i: nat)
    requires i <= |s| && FirstCountAt(s, word, 0) == Some(i) && FirstCountAt(pre + s, word, 0) == Some(|pre| + i)
    ensures CountOf(pre + s, word) == CountOf(s, word)
  {
    var j := i + DigitRun(s, i);
    DigitRunShift(pre, s, i);
    SliceShift(pre, s, i, j);
    SameDigitsSameCount(pre + s, s, word, |pre| + i, |pre| + j, i, j);
  }

  lemma {:induction false} SameDigitsSameCount(t: string, s: string, word: string, a: nat, b: nat, i: nat, j: nat)
    requires a <= b <= |t| && FirstCountAt(t, word, 0) == Some(a) && b == a + DigitRun(t, a)
    requires i <= j <= |s| && FirstCountAt(s, word, 0) == Some(i) && j == i + DigitRun(s, i)
    requires t[a..b] == s[i..j]
    ensures CountOf(t, word) == CountOf(s, word)
  {
    CountOfMatch(t, word, a, b);
    CountOfMatch(s, word, i, j);
  }

  lemma {:induction false} CountOfNoMatch(s: string, word: string)
    requires FirstCountAt(s, word, 0).None?
    ensures CountOf(s, word) == 0
  {
  }

  lemma {:induction false} CountOfMatch(s: string, word: string, i: nat, j: nat)
    requires i <= j <= |s| && FirstCountAt(s, word, 0) == Some(i) && j == i + DigitRun(s, i)
    ensures CountOf(s, word) == DecimalValue(s[i..j])
  {
  }

  /** The first match moves along with the prefix. */
  lemma {:induction false} FirstCountSkipsText(pre: string, s: string, word: string)
    requires forall k :: 0 <= k < |pre| ==> !IsDigit(pre[k])
    ensures FirstCountAt(s, word, 0).None? ==> FirstCountAt(pre + s, word, 0).None?
    ensures FirstCountAt(s, word, 0).Some? ==>
      FirstCountAt(pre + s, word, 0) == Some(|pre| + FirstCountAt(s, word, 0).value)
  {
    FirstCountInPrefix(pre, s, word, 0);
    FirstCountShift(pre, s, word, 0);
  }

  /** No match starts inside a prefix without digits. */
  lemma {:induction false} FirstCountInPrefix(pre: string, s: string, word: string, k: nat)
    requires k <= |pre|
    requires forall m :: 0 <= m < |pre| ==> !IsDigit(pre[m])
    ensures FirstCountAt(pre + s, word, k) == FirstCountAt(pre + s, word, |pre|)
    decreases |pre| - k
  {
    if k < |pre| {
      var t := pre + s;
      assert t[k] == pre[k];
      assert DigitRun(t, k) == 0;
      FirstCountInPrefix(pre, s, word, k + 1);
    }
  }

  /** From the end of the prefix on, the search is the search in `s`, shifted. */
  lemma {:induction false} FirstCountShift(pre: string, s: string, word: string, j: nat)
    requires j <= |s|
    ensures FirstCountAt(s, word, j).None? ==> FirstCountAt(pre + s, word, |pre| + j).None?
    ensures FirstCountAt(s, word, j).Some? ==>
      FirstCountAt(pre + s, word, |pre| + j) == Some(|pre| + FirstCountAt(s, word, j).value)
    decreases |s| - j
  {
    CountAtShift(pre, s, word, j);
    if j < |s| {
      FirstCountShift(pre, s, word, j + 1);
    }
  }

  /** Matches in the output keep their meaning behind a prefix. */
  lemma {:induction false} CountAtShift(pre: string, s: string, word: string, j: nat)
    requires j <= |s|
    ensures DigitRun(pre + s, |pre| + j) == DigitRun(s, j)
    ensures CountAt(pre + s, word, |pre| + j) == CountAt(s, word, j)
  {
    var t := pre + s;
    DigitRunShift(pre, s, j);
    var n := DigitRun(s, j);
    var w := " " + word;
    if j + n + |w| <= |s| {
      assert t[|pre| + j + n..|pre| + j + n + |w|] == s[j + n..j + n + |w|];
    }
  }

  lemma {:induction false} SliceShift(pre: string, s: string, i: nat, j: nat)
    requires i <= j <= |s|
    ensures (pre + s)[|pre| + i..|pre| + j] == s[i..j]
  {
  }

  lemma {:induction false} DigitRunShift(pre: string, s: string, j: nat)
    requires j <= |s|
    ensures DigitRun(pre + s, |pre| + j) == DigitRun(s, j)
    decreases |s| - j
  {
    var t := pre + s;
    if j < |s| {
      assert t[|pre| + j] == s[j];
      DigitRunShift(pre, s, j + 1);
    }
  }

  // ---------------------------------------------------------------------
  // Failure-line patterns

  /** The few regular-expression constructs the failure patterns use:
      a literal, `.*` (any characters but line terminators), `\d+` and
      `[^']+`. Literals compare case-insensitively: every pattern carries
      the `i` flag. */
  datatype Atom = Lit(text: string) | Gap | Digits | NonQuotes

  /** A pattern is a list of alternatives, each a sequence of atoms. */
  type Pattern = seq<seq<Atom>>

  predicate NoTerminator(s: string, i: nat, j: nat)
    requires i <= j <= |s|
  {
    forall k :: i <= k < j ==> !IsLineTerminator(s[k])
  }

  predicate NoQuote(s: string, i: nat, j: nat)
    requires i <= j <= |s|
  {
    forall k :: i <= k < j ==> s[k] != '\''
  }

  predicate DigitsBetween(s: string, i: nat, j: nat)
    requires i <= j <= |s|
  {
    forall k :: i <= k < j ==> IsDigit(s[k])
  }

  /** The atoms match `s` from position `i` on (to any end). */
  predicate MatchesFrom(s: string, atoms: seq<Atom>, i: nat)
    requires i <= |s|
    decreases |atoms|
  {
    if atoms == [] then true
    else match atoms[0]
      case Lit(t) =>
        i + |t| <= |s| && Lower(s[i..i + |t|]) == Lower(t) && MatchesFrom(s, atoms[1..], i + |t|)
      case Gap =>
        exists j :: i <= j <= |s| && NoTerminator(s, i, j) && MatchesFrom(s, atoms[1..], j)
      case Digits =>
        exists j :: i < j <= |s| && DigitsBetween(s, i, j) && MatchesFrom(s, atoms[1..], j)
      case NonQuotes =>
        exists j :: i < j <= |s| && NoQuote(s, i, j) && MatchesFrom(s, atoms[1..], j)
  }

  /** `pattern.test(s)`: some alternative matches somewhere. */
  predicate Test(s: string, pattern: Pattern) {
    exists a, i :: 0 <= a < |pattern| && 0 <= i <= |s| && MatchesFrom(s, pattern[a], i)
  }

  /** `/Timeout.*waiting for (selector|locator)/i` or
      `/locator\('([^']+)'\).*not found/i`. */
  const SelectorPattern: Pattern := [
    [Lit("Timeout"), Gap, Lit("waiting for selector")],
    [Lit("Timeout"), Gap, Lit("waiting for locator")],
    [Lit("locator('"), NonQuotes, Lit("')"), Gap, Lit("not found")]]

  /** `/expected.*to contain.*but received/i`. */
  const TextPattern: Pattern := [[Lit("expected"), Gap, Lit("to contain"), Gap, Lit("but received")]]

  /** `/(Navigation|net::ERR_|timeout.*navigation|Timeout.*goto)/i`. */
  const NavigationPattern: Pattern := [
    [Lit("Navigation")], [Lit("net::ERR_")],
    [Lit("timeout"), Gap, Lit("navigation")], [Lit("Timeout"), Gap, Lit("goto")]]

  /** `/strict mode violation.*resolved to (\d+) elements/i`. */
  const StrictPattern: Pattern := [[Lit("strict mode violation"), Gap, Lit("resolved to "), Digits, Lit(" elements")]]

  /** `/toHaveCSS|font-size|font-family/i`. */
  const CssPattern: Pattern := [[Lit("toHaveCSS")], [Lit("font-size")], [Lit("font-family")]]

  // ---------------------------------------------------------------------
  // Error analysis (the line loop of applyTestHealing)

  datatype ErrorAnalysis = ErrorAnalysis(
    selectorIssues: seq<string>,
    textMismatches: seq<string>,
    navigationIssues: bool,
    strictModeViolations: seq<string>,
    cssIssues: seq<string>)

  /** The lines `flag` accepts, in order, each passed through `clean`. */
  function Flagged(lines: seq<string>, flag: string -> bool, clean: string -> string): (r: seq<string>)
    ensures |r| <= |lines|
  {
    if lines == [] then []
    else
      var last := lines[|lines| - 1];
      Flagged(lines[..|lines| - 1], flag, clean) + (if flag(last) then [clean(last)] else [])
  }

  /** A text is flagged exactly when it is the cleaned form of an accepted line. */
  lemma {:induction false} FlaggedMembers(lines: seq<string>, flag: string -> bool, clean: string -> string, x: string)
    ensures x in Flagged(lines, flag, clean) <==>
      exists i :: 0 <= i < |lines| && flag(lines[i]) && x == clean(lines[i])
  {
    if lines != [] {
      var init := lines[..|lines| - 1];
      FlaggedMembers(init, flag, clean, x);
      assert forall i :: 0 <= i < |init| ==> init[i] == lines[i];
    }
  }

  /** Flagging one more line appends at most that line. */
  lemma {:induction false} FlaggedSnoc(lines: seq<string>, i: nat, flag: string -> bool, clean: string -> string)
    requires i < |lines|
    ensures Flagged(lines[..i + 1], flag, clean)
      == Flagged(lines[..i], flag, clean) + (if flag(lines[i]) then [clean(lines[i])] else [])
  {
    assert lines[..i + 1][..i] == lines[..i];
  }

  predicate SelectorLine(line: string) { Test(line, SelectorPattern) }
  predicate TextLine(line: string) { Test(line, TextPattern) }
  predicate StrictLine(line: string) { Test(line, StrictPattern) }
  predicate CssLine(line: string) { Test(line, CssPattern) }

  /** What the loop over the output's lines collects; navigation issues
      are looked for in the whole output at once. */
  function AnalysisOf(errorOutput: string): ErrorAnalysis {
    var lines := SplitLines(errorOutput);
    ErrorAnalysis(
      Flagged(lines, SelectorLine, Trim),
      Flagged(lines, TextLine, Trim),
      Test(errorOutput, NavigationPattern),
      Flagged(lines, StrictLine, Trim),
      Flagged(lines, CssLine, Trim))
  }

  /** The loop of `applyTestHealing` that tests every line against every
      pattern independently and pushes the trimmed line. */
  method AnalyzeErrors(errorOutput: string) returns (e: ErrorAnalysis)
    ensures e == AnalysisOf(errorOutput)
  {
    var lines := SplitLines(errorOutput);
    var selectorIssues, textMismatches, strictModeViolations, cssIssues := [], [], [], [];
    var i := 0;
    while i < |lines|
      invariant 0 <= i <= |lines|
      invariant selectorIssues == Flagged(lines[..i], SelectorLine, Trim)
      invariant textMismatches == Flagged(lines[..i], TextLine, Trim)
      invariant strictModeViolations == Flagged(lines[..i], StrictLine, Trim)
      invariant cssIssues == Flagged(lines[..i], CssLine, Trim)
    {
      var line := lines[i];
      FlaggedSnoc(lines, i, SelectorLine, Trim);
      FlaggedSnoc(lines, i, TextLine, Trim);
      FlaggedSnoc(lines, i, StrictLine, Trim);
      FlaggedSnoc(lines, i, CssLine, Trim);
      if SelectorLine(line) {
        selectorIssues := selectorIssues + [Trim(line)];
      }
      if TextLine(line) {
        textMismatches := textMismatches + [Trim(line)];
      }
      if StrictLine(line) {
        strictModeViolations := strictModeViolations + [Trim(line)];
      }
      if CssLine(line) {
        cssIssues := cssIssues + [Trim(line)];
      }
      i := i + 1;
    }
    assert lines[..|lines|] == lines;
    e := ErrorAnalysis(selectorIssues, textMismatches, Test(errorOutput, NavigationPattern),
                       strictModeViolations, cssIssues);
  }

  /** The `error.type` handed to the healer. */
  datatype FailureType = StrictModeViolation | NavigationTimeout | SelectorNotFound | CssAssertion | UnknownFailure

  function FailureTypeName(t: FailureType): string {
    match t
    case StrictModeViolation => "strict-mode-violation"
    case NavigationTimeout => "navigation-timeout"
    case SelectorNotFound => "selector-not-found"
    case CssAssertion => "css-assertion"
    case UnknownFailure => "unknown"
  }

  /** The type by priority: strict mode, navigation, selector, CSS. */
  function FailureTypeOf(e: ErrorAnalysis): FailureType {
    if e.strictModeViolations != [] then StrictModeViolation
    else if e.navigationIssues then NavigationTimeout
    else if e.selectorIssues != [] then SelectorNotFound
    else if e.cssIssues != [] then CssAssertion
    else UnknownFailure
  }

  const StrictFix := "Added .first() to multi-match locators"
  const NavigationFix := "Increased navigation timeout to 30000ms"
  const CssFix := "Removed CSS exact value assertions"
  const SelectorFix := "Improved selector reliability"

  /** `fixesApplied`: the detected categories, in the order strict,
      navigation, CSS, selector. */
  function FixesApplied(e: ErrorAnalysis): seq<string> {
    (if e.strictModeViolations != [] then [StrictFix] else [])
    + (if e.navigationIssues then [NavigationFix] else [])
    + (if e.cssIssues != [] then [CssFix] else [])
    + (if e.selectorIssues != [] then [SelectorFix] else [])
  }

  /** Each type is chosen exactly when its category is found and no
      category of higher priority is. */
  lemma {:induction false} FailureTypePriority(e: ErrorAnalysis)
    ensures FailureTypeOf(e) == StrictModeViolation <==> e.strictModeViolations != []
    ensures FailureTypeOf(e) == NavigationTimeout <==> e.strictModeViolations == [] && e.navigationIssues
    ensures FailureTypeOf(e) == SelectorNotFound <==>
      e.strictModeViolations == [] && !e.navigationIssues && e.selectorIssues != []
    ensures FailureTypeOf(e) == CssAssertion <==>
      e.strictModeViolations == [] && !e.navigationIssues && e.selectorIssues == [] && e.cssIssues != []
  {
  }

  /** Text mismatches are collected but decide neither the type nor the fixes. */
  lemma {:induction false} TextMismatchesIgnored(e: ErrorAnalysis, other: seq<string>)
    ensures FailureTypeOf(e.(textMismatches := other)) == FailureTypeOf(e)
    ensures FixesApplied(e.(textMismatches := other)) == FixesApplied(e)
  {
  }

  /** The type is "unknown" exactly when no fix is reported; each fix is
      reported at most once. */
  lemma {:induction false} UnknownIffNoFixes(e: ErrorAnalysis)
    ensures FailureTypeOf(e) == UnknownFailure <==> FixesApplied(e) == []
    ensures |FixesApplied(e)| <= 4
    ensures StrictFix in FixesApplied(e) <==> e.strictModeViolations != []
    ensures NavigationFix in FixesApplied(e) <==> e.navigationIssues
    ensures SelectorFix in FixesApplied(e) <==> e.selectorIssues != []
    ensures CssFix in FixesApplied(e) <==> e.cssIssues != []
    ensures forall i, j :: 0 <= i < j < |FixesApplied(e)| ==> FixesApplied(e)[i] != FixesApplied(e)[j]
  {
    assert StrictFix != SelectorFix && NavigationFix != SelectorFix && CssFix != SelectorFix;
    assert StrictFix != CssFix && NavigationFix != CssFix;
    assert StrictFix != NavigationFix;
  }

  /** The two orders disagree: a selector failure that also has CSS issues
      reports the CSS fix first. */
  lemma {:induction false} SelectorTypeCssFixFirst(e: ErrorAnalysis)
    requires FailureTypeOf(e) == SelectorNotFound && e.cssIssues != []
    ensures FixesApplied(e) == [CssFix, SelectorFix]
  {
  }

  // ---------------------------------------------------------------------
  // The healed code (the rest of applyTestHealing)

  /** `s.replace(/<tag>\n?/g, '')`: every occurrence of the tag is removed,
      together with one line feed right after it. */
  function StripTag(s: string, tag: string): (r: string)
    requires tag != []
    ensures |r| <= |s|
    decreases |s|
  {
    if |s| < |tag| then s
    else if s[..|tag|] == tag then
      var rest := s[|tag|..];
      if rest != [] && rest[0] == '\n' then StripTag(rest[1..], tag) else StripTag(rest, tag)
    else [s[0]] + StripTag(s[1..], tag)
  }

  lemma {:induction false} StripTagAbsent(s: string, tag: string)
    requires tag != [] && !Contains(s, tag)
    ensures StripTag(s, tag) == s
    decreases |s|
  {
    if |s| >= |tag| {
      assert !OccursAt(s, tag, 0);
      if Contains(s[1..], tag) {
        var i :| 0 <= i <= |s[1..]| - |tag| && OccursAt(s[1..], tag, i);
        assert OccursAt(s, tag, i + 1);
      }
      StripTagAbsent(s[1..], tag);
      assert s == [s[0]] + s[1..];
    }
  }

  /** Where a longer text occurs, so does its prefix. */
  lemma {:induction false} ContainsPrefix(s: string, p: string, q: string)
    requires Contains(s, p + q)
    ensures Contains(s, p)
  {
    var i :| 0 <= i <= |s| - |p + q| && OccursAt(s, p + q, i);
    assert s[i..i + |p|] == (p + q)[..|p|] == p;
    assert OccursAt(s, p, i);
  }

  const Fence := "```"
  const JsFence := Fence + "javascript"

  /** The markdown clean-up: opening fences, then any fence, then trim. */
  function CleanCode(s: string): string {
    Trim(StripTag(StripTag(s, JsFence), Fence))
  }

  /** Code without fences is only trimmed. */
  lemma {:induction false} CleanCodePlain(s: string)
    requires !Contains(s, Fence)
    ensures CleanCode(s) == Trim(s)
  {
    if Contains(s, JsFence) {
      ContainsPrefix(s, Fence, "javascript");
    }
    StripTagAbsent(s, JsFence);
    StripTagAbsent(s, Fence);
  }

  /** Cleaned code is already trimmed. */
  lemma {:induction false} CleanCodeTrimmed(s: string)
    ensures Trim(CleanCode(s)) == CleanCode(s)
  {
    TrimIdempotent(StripTag(StripTag(s, JsFence), Fence));
  }

  /** `isValidJS`: the code calls `test(` or `test.describe(`. */
  predicate IsValidJS(code: string) {
    Contains(code, "test(") || Contains(code, "test.describe(")
  }

  /** `isJSON`: the code opens with a brace and names an analysis section. */
  predicate IsAnalysisJson(code: string) {
    StartsWith(Trim(code), "{")
    && (Contains(code, "\"Root Cause Analysis\"") || Contains(code, "\"Specific Fix\"")
        || Contains(code, "\"Prevention Strategy\""))
  }

  /** The guard that sends the healer's code to an emergency regeneration. */
  predicate NeedsEmergency(code: string) {
    IsAnalysisJson(code) || !IsValidJS(code)
  }

  /** What the healer agent is asked with: the failing test's code, the
      first 1000 characters of the output as the message, the whole output
      as the stack, the failure type, the test cases and story being
      healed, the attempt, the fixed site address and the categories found
      in the output. */
  datatype HealContext = HealContext(
    testCode: string,
    message: string,
    stack: string,
    failureType: FailureType,
    testCases: Json,
    storyId: Json,
    attempt: nat,
    url: string,
    analysisDetails: ErrorAnalysis)

  const MessageLimit := 1000
  const SiteUrl := "https://www.endpointclinical.com"

  function ContextOf(testCode: string, errorOutput: string, testCases: Json, storyId: Json, attempt: nat): (c: HealContext)
    ensures StartsWith(errorOutput, c.message)
    ensures |c.message| == if |errorOutput| <= MessageLimit then |errorOutput| else MessageLimit
    ensures c.stack == errorOutput
    ensures c.failureType == FailureTypeOf(AnalysisOf(errorOutput))
    ensures c.analysisDetails == AnalysisOf(errorOutput)
    ensures c.testCode == testCode && c.testCases == testCases && c.storyId == storyId && c.attempt == attempt
  {
    var message := if |errorOutput| <= MessageLimit then errorOutput else errorOutput[..MessageLimit];
    HealContext(testCode, message, errorOutput, FailureTypeOf(AnalysisOf(errorOutput)), testCases, storyId, attempt,
                SiteUrl, AnalysisOf(errorOutput))
  }

  /** The two requests applyTestHealing may send to the generator agent. */
  datatype GenerateRequest = RegenerateFromAnalysis | EmergencyRegeneration

  /** The outside world of applyTestHealing: the failing test file's
      content or the error of reading it, the healer and generator agents
      (an `Err` is a thrown error), and writing the healed file. */
  datatype HealingBackends = HealingBackends(
    testFile: Result<string>,
    healer: HealContext -> Result<Json>,
    generate: GenerateRequest -> Result<string>,
    writeError: Option<string>)

  /** What applyTestHealing returns. */
  datatype HealReport =
    | Applied(code: string, errorAnalysis: ErrorAnalysis, fixesApplied: seq<string>, emergency: bool)
    | HealFailed(error: string)

  const NotAFunction := "healedScript.replace is not a function"
  const PersistentJson := "Healer Agent persistently returns JSON instead of code. Cannot auto-heal."

  /** The script taken from the healer's analysis: `fixedCode`, else the
      first solution's `code` or the solution itself, else a regeneration. */
  function ScriptOf(analysis: Json, generate: GenerateRequest -> Result<string>): (r: Result<Json>)
    ensures analysis.Undefined? ==> r == Err(UndefinedRead("fixedCode"))
    ensures Truthy(Get(analysis, "fixedCode")) ==> r == Ok(Get(analysis, "fixedCode"))
  {
    if analysis.Undefined? then Err(UndefinedRead("fixedCode"))
    else if analysis.Null? then Err(NullRead("fixedCode"))
    else
      var fixedCode := Get(analysis, "fixedCode");
      var solutions := Get(analysis, "solutions");
      if Truthy(fixedCode) then Ok(fixedCode)
      else if Truthy(solutions) && Truthy(At(solutions, 0)) then
        Ok(Or(Get(At(solutions, 0), "code"), At(solutions, 0)))
      else
        match generate(RegenerateFromAnalysis)
        case Err(m) => Err(m)
        case Ok(code) => Ok(Str(code))
  }

  /** The cleaned script before the guard, or the error that ends healing
      on the way there. */
  function FirstScript(context: HealContext, b: HealingBackends): Result<string> {
    match b.healer(context)
      case Err(m) => Err(m)
      case Ok(analysis) =>
        match ScriptOf(analysis, b.generate)
        case Err(m) => Err(m)
        case Ok(v) => if v.Str? then Ok(CleanCode(v.s)) else Err(NotAFunction)
  }

  /** `applyTestHealing`: read the failing test, analyse the output, ask
      the healer, guard its code. Healing is applied only when the file was
      read and written back, and then with the analysis of the output and
      its fixes. */
  function ApplyTestHealing(testCases: Json, storyId: Json, errorOutput: string, attempt: nat, b: HealingBackends): (r: HealReport)
    ensures b.testFile.Err? ==> r == HealFailed(b.testFile.message)
    ensures r.Applied? ==>
      && b.testFile.Ok? && b.writeError.None?
      && r.errorAnalysis == AnalysisOf(errorOutput) && r.fixesApplied == FixesApplied(AnalysisOf(errorOutput))
  {
    match b.testFile
    case Err(m) => HealFailed(m)
    case Ok(testCode) =>
      var first := FirstScript(ContextOf(testCode, errorOutput, testCases, storyId, attempt), b);
      AppliedCodeChecked(first, AnalysisOf(errorOutput), b);
      Heal(first, AnalysisOf(errorOutput), b)
  }

  /** The guard allows exactly one emergency regeneration, after which only
      a leading brace fails the healing. */
  function Heal(first: Result<string>, e: ErrorAnalysis, b: HealingBackends): HealReport {
    match first
    case Err(m) => HealFailed(m)
    case Ok(script) =>
      if !NeedsEmergency(script) then Saved(script, e, b, false)
      else match b.generate(EmergencyRegeneration)
        case Err(m) => HealFailed(m)
        case Ok(code) => Emergency(CleanCode(code), e, b)
  }

  /** The cleaned emergency answer is saved unless it still opens with a
      brace once trimmed. */
  function Emergency(cleaned: string, e: ErrorAnalysis, b: HealingBackends): HealReport {
    if StartsWith(Trim(cleaned), "{") then HealFailed(PersistentJson)
    else Saved(cleaned, e, b, true)
  }

  function Saved(code: string, e: ErrorAnalysis, b: HealingBackends, emergency: bool): HealReport {
    if b.writeError.Some? then HealFailed(b.writeError.value)
    else Applied(code, e, FixesApplied(e), emergency)
  }

  /** Saved code passed the guard, or came from the emergency regeneration
      and does not open with a brace; the fixes are those of the analysis. */
  lemma {:induction false} AppliedCodeChecked(first: Result<string>, e: ErrorAnalysis, b: HealingBackends)
    ensures var r := Heal(first, e, b);
      r.Applied? ==>
        && r.fixesApplied == FixesApplied(e)
        && (!r.emergency ==> first == Ok(r.code) && !NeedsEmergency(r.code))
        && (r.emergency ==> !StartsWith(r.code, "{") && NeedsEmergency(first.value))
  {
    match first
    case Err(m) =>
      assert Heal(first, e, b).HealFailed?;
    case Ok(script) =>
      if NeedsEmergency(script) {
        match b.generate(EmergencyRegeneration)
        case Err(m) =>
          assert Heal(first, e, b).HealFailed?;
        case Ok(code) =>
          assert Heal(first, e, b) == Emergency(CleanCode(code), e, b);
          CleanCodeTrimmed(code);
          EmergencyCodeChecked(CleanCode(code), e, b);
      } else {
        HealWithoutEmergency(first, e, b);
      }
  }

  /** Code saved from the emergency regeneration does not open with a
      brace. */
  lemma {:induction false} EmergencyCodeChecked(cleaned: string, e: ErrorAnalysis, b: HealingBackends)
    requires Trim(cleaned) == cleaned
    ensures var r := Emergency(cleaned, e, b);
      r.Applied? ==> r.emergency && r.fixesApplied == FixesApplied(e) && !StartsWith(r.code, "{")
  {
    var r := Emergency(cleaned, e, b);
    if r.Applied? {
      assert r == Saved(cleaned, e, b, true);
    }
  }

  lemma {:induction false} HealEmergency(first: Result<string>, e: ErrorAnalysis, b: HealingBackends, code: string)
    requires first.Ok? && NeedsEmergency(first.value) && b.generate(EmergencyRegeneration) == Ok(code)
    ensures Heal(first, e, b)
      == if StartsWith(Trim(CleanCode(code)), "{") then HealFailed(PersistentJson) else Saved(CleanCode(code), e, b, true)
  {
  }

  /** Once the first script passes the guard, the emergency request is
      never sent: its answer does not matter. */
  lemma {:induction false} NoEmergencyForCode(context: HealContext, e: ErrorAnalysis, b: HealingBackends,
                                              other: GenerateRequest -> Result<string>)
    requires other(RegenerateFromAnalysis) == b.generate(RegenerateFromAnalysis)
    requires FirstScript(context, b).Ok? && !NeedsEmergency(FirstScript(context, b).value)
    ensures FirstScript(context, b.(generate := other)) == FirstScript(context, b)
    ensures Heal(FirstScript(context, b), e, b.(generate := other)) == Heal(FirstScript(context, b), e, b)
  {
    FirstScriptSameRegeneration(context, b, other);
    var first := FirstScript(context, b);
    HealWithoutEmergency(first, e, b);
    HealWithoutEmergency(first, e, b.(generate := other));
  }

  lemma {:induction false} FirstScriptSameRegeneration(context: HealContext, b: HealingBackends, other: GenerateRequest -> Result<string>)
    requires other(RegenerateFromAnalysis) == b.generate(RegenerateFromAnalysis)
    ensures FirstScript(context, b.(generate := other)) == FirstScript(context, b)
  {
    match b.healer(context)
    case Err(m) =>
    case Ok(analysis) =>
      assert ScriptOf(analysis, other) == ScriptOf(analysis, b.generate);
  }

  lemma {:induction false} HealWithoutEmergency(first: Result<string>, e: ErrorAnalysis, b: HealingBackends)
    requires first.Ok? && !NeedsEmergency(first.value)
    ensures Heal(first, e, b) == Saved(first.value, e, b, false)
    ensures var r := Heal(first, e, b);
      r.Applied? ==> !r.emergency && r.code == first.value && r.fixesApplied == FixesApplied(e)
  {
  }

  /** After a failed guard, the emergency answer decides: healing succeeds
      exactly when the cleaned answer does not open with a brace. */
  lemma {:induction false} EmergencyDecides(first: Result<string>, e: ErrorAnalysis, b: HealingBackends, code: string)
    requires first.Ok? && NeedsEmergency(first.value)
    requires b.generate(EmergencyRegeneration) == Ok(code) && b.writeError.None?
    ensures Heal(first, e, b).Applied? <==> !StartsWith(CleanCode(code), "{")
    ensures Heal(first, e, b).Applied? ==> Heal(first, e, b).code == CleanCode(code)
  {
    CleanCodeTrimmed(code);
  }

  /** Without the test file nothing else is asked for, and the healer sees
      the file's content as the failing code. */
  lemma {:induction false} ReadFailureStops(testCases: Json, storyId: Json, errorOutput: string, attempt: nat,
                                            b: HealingBackends)
    ensures b.testFile.Err? ==> ApplyTestHealing(testCases, storyId, errorOutput, attempt, b) == HealFailed(b.testFile.message)
    ensures b.testFile.Ok? ==>
      ApplyTestHealing(testCases, storyId, errorOutput, attempt, b)
        == Heal(FirstScript(ContextOf(b.testFile.value, errorOutput, testCases, storyId, attempt), b), AnalysisOf(errorOutput), b)
  {
  }
  // ---------------------------------------------------------------------
  // The execute-tests loop

  /** One run of the test command: whether it exited cleanly, the message
      of the rejected `exec` otherwise, and what it printed. */
  datatype RunOutcome = RunOutcome(exitedCleanly: bool, execMessage: string, stdout: string, stderr: string)

  /** The JSON answer of the endpoint, or none at all when the handler
      falls off the end of its loop. `healingApplied` is the truthiness of
      the answer's field of that name; `healingDetails` is the healing
      report the answer carries: under `healingDetails` on success and
      after a failed healing, and as the value of `healingApplied` itself
      when the last attempt fails. */
  datatype Response =
    | Response(success: bool, counts: Counts, attempts: nat, healingApplied: bool,
               healingDetails: Option<HealReport>, error: Option<string>, message: string)
    | NoResponse

  const MaxRetries: nat := 2
  const TestsFailed := "Tests failed"
  const HealingFailedMessage := "Self-healing failed"

  function PassedMessage(c: Counts): string {
    "Tests executed: " + NatToString(c.passed) + "/" + NatToString(c.total) + " passed"
  }

  function FailedAfterMessage(attempt: nat): string {
    "Tests failed after " + NatToString(attempt) + " attempts"
  }

  /** What the healer is given of a failed run: its standard output, or
      its error output when nothing was printed. */
  function ErrorOutput(o: RunOutcome): string {
    if o.stdout != [] then o.stdout else o.stderr
  }

  /** The loop from attempt `attempt` on; `healed` is the healing report
      applied so far, if any. `run` gives the outcome of the command at each
      attempt and `heal` stands for `applyTestHealing` on the error output. */
  function ExecutionFrom(run: nat -> RunOutcome, heal: (string, nat) -> HealReport,
                         attempt: nat, healed: Option<HealReport>): Response
    decreases MaxRetries + 1 - attempt
  {
    if attempt > MaxRetries then NoResponse
    else
      var o := run(attempt);
      var counts := ParseOutput(o.stdout);
      if o.exitedCleanly && counts.failed == 0 then
        Response(true, counts, attempt, healed.Some?, healed, None, PassedMessage(counts))
      else
        var error := if o.exitedCleanly then TestsFailed else o.execMessage;
        if attempt >= MaxRetries then
          Response(false, counts, attempt, healed.Some?, healed, Some(error), FailedAfterMessage(attempt))
        else
          var report := heal(ErrorOutput(o), attempt);
          match report
          case Applied(_, _, _, _) => ExecutionFrom(run, heal, attempt + 1, Some(report))
          case HealFailed(m) => Response(false, counts, attempt, false, Some(report), Some(m), HealingFailedMessage)
  }

  function Execution(run: nat -> RunOutcome, heal: (string, nat) -> HealReport): Response {
    ExecutionFrom(run, heal, 1, None)
  }

  /** One unrolling of `ExecutionFrom`, with the parsed counts named. */
  lemma {:induction false} ExecutionStep(run: nat -> RunOutcome, heal: (string, nat) -> HealReport, attempt: nat, healed: Option<HealReport>)
    requires 1 <= attempt <= MaxRetries
    ensures var o := run(attempt);
      var counts := ParseOutput(o.stdout);
      var error := if o.exitedCleanly then TestsFailed else o.execMessage;
      var report := heal(ErrorOutput(o), attempt);
      ExecutionFrom(run, heal, attempt, healed)
        == if o.exitedCleanly && counts.failed == 0 then Response(true, counts, attempt, healed.Some?, healed, None, PassedMessage(counts))
           else if attempt >= MaxRetries then Response(false, counts, attempt, healed.Some?, healed, Some(error), FailedAfterMessage(attempt))
           else if report.Applied? then ExecutionFrom(run, heal, attempt + 1, Some(report))
           else Response(false, counts, attempt, false, Some(report), Some(report.error), HealingFailedMessage)
  {
  }

  /** The execute-tests handler's retry loop. */
  method ExecuteTests(run: nat -> RunOutcome, heal: (string, nat) -> HealReport) returns (r: Response)
    ensures r == Execution(run, heal)
  {
    var attempt := 1;
    var healingApplied: Option<HealReport> := None;
    while attempt <= MaxRetries
      invariant 1 <= attempt <= MaxRetries + 1
      invariant ExecutionFrom(run, heal, attempt, healingApplied) == Execution(run, heal)
      decreases MaxRetries + 1 - attempt
    {
      var answer, healingResult := RunAttempt(run, heal, attempt, healingApplied);
      if answer.Some? {
        return answer.value;
      }
      healingApplied := healingResult;
      attempt := attempt + 1;
    }
    r := NoResponse;
  }

  /** One pass of the retry loop: the handler's answer, or, when the
      healing was applied and the next attempt follows, that healing. */
  method RunAttempt(run: nat -> RunOutcome, heal: (string, nat) -> HealReport, attempt: nat,
                    healingApplied: Option<HealReport>)
    returns (answer: Option<Response>, healingResult: Option<HealReport>)
    requires 1 <= attempt <= MaxRetries
    ensures answer.Some? <==> healingResult.None?
    ensures answer.Some? ==> answer.value == ExecutionFrom(run, heal, attempt, healingApplied)
    ensures healingResult.Some? ==>
      && healingResult.value.Applied?
      && ExecutionFrom(run, heal, attempt + 1, healingResult) == ExecutionFrom(run, heal, attempt, healingApplied)
  {
    var o := run(attempt);
    var results := ParseOutput(o.stdout);
    ExecutionStep(run, heal, attempt, healingApplied);
    if o.exitedCleanly && results.failed == 0 {
      return Some(Response(true, results, attempt, healingApplied.Some?, healingApplied, None, PassedMessage(results))), None;
    }
    var error := if o.exitedCleanly then TestsFailed else o.execMessage;
    var lastResults := ParseOutput(o.stdout);
    if attempt >= MaxRetries {
      return Some(Response(false, lastResults, attempt, healingApplied.Some?, healingApplied, Some(error), FailedAfterMessage(attempt))), None;
    }
    var errorOutput := ErrorOutput(o);
    var report := heal(errorOutput, attempt);
    if report.Applied? {
      answer, healingResult := None, Some(report);
    } else {
      answer, healingResult := Some(Response(false, lastResults, attempt, false, Some(report), Some(report.error), HealingFailedMessage)), None;
    }
  }

  /** The handler always answers, after one or two attempts; a success
      comes from a clean run with no failed test; healing was applied
      exactly when the answer comes from the second attempt, and then the
      answer carries the report of the healing after the first run. */
  lemma {:induction false} ExecutionAnswers(run: nat -> RunOutcome, heal: (string, nat) -> HealReport)
    ensures var r := Execution(run, heal);
      && r.Response?
      && 1 <= r.attempts <= MaxRetries
      && r.counts == ParseOutput(run(r.attempts).stdout)
      && (r.success <==> run(r.attempts).exitedCleanly && r.counts.failed == 0)
      && (r.healingApplied <==> r.attempts == 2)
      && (r.attempts == 2 ==> r.healingDetails == Some(heal(ErrorOutput(run(1)), 1)) && r.healingDetails.value.Applied?)
      && (r.attempts == 1 && r.success ==> r.healingDetails.None?)
  {
    var o := run(1);
    if !(o.exitedCleanly && ParseOutput(o.stdout).failed == 0) {
      var report := heal(ErrorOutput(o), 1);
      if report.Applied? {
        assert Execution(run, heal) == ExecutionFrom(run, heal, 2, Some(report));
      }
    }
  }

  /** Only the first two runs and a healing after the first run are
      consulted: the command runs at most twice and is healed at most once. */
  lemma {:induction false} ExecutionBounded(run: nat -> RunOutcome, heal: (string, nat) -> HealReport,
                                            run': nat -> RunOutcome, heal': (string, nat) -> HealReport)
    requires run'(1) == run(1) && run'(2) == run(2)
    requires forall out :: heal'(out, 1) == heal(out, 1)
    ensures Execution(run', heal') == Execution(run, heal)
  {
    var report := heal(ErrorOutput(run(1)), 1);
    assert ExecutionFrom(run', heal', 2, Some(report)) == ExecutionFrom(run, heal, 2, Some(report));
  }

  /** A failed healing ends the loop at once, reporting no healing
      applied and the failed report as the details. */
  lemma {:induction false} HealingFailureStops(run: nat -> RunOutcome, heal: (string, nat) -> HealReport)
    requires !(run(1).exitedCleanly && ParseOutput(run(1).stdout).failed == 0)
    requires heal(ErrorOutput(run(1)), 1).HealFailed?
    ensures var report := heal(ErrorOutput(run(1)), 1);
      Execution(run, heal) == Response(false, ParseOutput(run(1).stdout), 1, false, Some(report),
        Some(report.error), HealingFailedMessage)
  {
  }

  // ---------------------------------------------------------------------
  // generate-tests: plan steps grouped into test cases

  /** Consecutive groups of three, the last one possibly shorter. */
  function Chunks<T>(s: seq<T>): (r: seq<seq<T>>)
    decreases |s|
  {
    if s == [] then []
    else if |s| <= 3 then [s]
    else [s[..3]] + Chunks(s[3..])
  }

  function Flatten<T>(groups: seq<seq<T>>): seq<T> {
    if groups == [] then [] else groups[0] + Flatten(groups[1..])
  }

  /** ceil(n/3) groups of one to three steps that together are the steps. */
  lemma {:induction false} ChunksShape<T>(s: seq<T>)
    ensures |Chunks(s)| == (|s| + 2) / 3
    ensures forall k :: 0 <= k < |Chunks(s)| ==> 1 <= |Chunks(s)[k]| <= 3
    ensures Flatten(Chunks(s)) == s
    decreases |s|
  {
    if |s| > 3 {
      ChunksShape(s[3..]);
      assert s[..3] + s[3..] == s;
    }
  }

  /** A group added after a whole number of full groups. */
  lemma {:induction false} ChunksAppend<T>(a: seq<T>, b: seq<T>)
    requires |a| % 3 == 0 && 1 <= |b| <= 3
    ensures Chunks(a + b) == Chunks(a) + [b]
    decreases |a|
  {
    if a == [] {
      assert a + b == b;
    } else {
      assert (a + b)[..3] == a[..3];
      assert (a + b)[3..] == a[3..] + b;
      ChunksAppend(a[3..], b);
    }
  }

  /** Where the group holding step `i - 1` starts. */
  function GroupStart(i: nat): nat {
    if i == 0 then 0 else (i - 1) / 3 * 3
  }

  /** A group starts at a multiple of three and holds at most three steps;
      step `i` opens a new group exactly when `i` is a multiple of three. */
  lemma {:induction false} GroupStartStep(i: nat)
    ensures GroupStart(i) <= i <= GroupStart(i) + 3 && GroupStart(i) % 3 == 0
    ensures i > 0 ==> GroupStart(i) < i
    ensures GroupStart(i + 1) == if i % 3 == 0 then i else GroupStart(i)
  {
    if i > 0 {
      var q := (i - 1) / 3;
      assert (i - 1) == q * 3 + (i - 1) % 3;
    }
    assert i == i / 3 * 3 + i % 3;
  }

  /** The `forEach` over the plan steps that starts a new group at every
      third step and keeps only non-empty groups. */
  method GroupSteps<T>(steps: seq<T>) returns (groups: seq<seq<T>>)
    ensures groups == Chunks(steps)
  {
    groups := [];
    var current: seq<T> := [];
    for i := 0 to |steps|
      invariant groups == Chunks(steps[..GroupStart(i)])
      invariant current == steps[GroupStart(i)..i]
      invariant i > 0 ==> 1 <= |current| <= 3
    {
      GroupStartStep(i);
      if i % 3 == 0 && i > 0 {
        if current != [] {
          ChunksAppend(steps[..GroupStart(i)], current);
          assert steps[..GroupStart(i)] + current == steps[..i];
          groups := groups + [current];
        }
        current := [];
      }
      current := current + [steps[i]];
    }
    GroupStartStep(|steps|);
    if current != [] {
      ChunksAppend(steps[..GroupStart(|steps|)], current);
      assert steps[..GroupStart(|steps|)] + current == steps;
      groups := groups + [current];
    } else {
      assert steps == [];
    }
  }

  /** A plan step; its text is the description, else the action. */
  datatype PlanStep = PlanStep(description: string, action: string)

  function StepText(step: PlanStep): string {
    if step.description != [] then step.description else step.action
  }

  datatype PlanAssertion = PlanAssertion(description: string, target: string, kind: string, expected: string)

  /** The planner's output: `None` where the field is missing or not an array. */
  datatype Plan = Plan(steps: Option<seq<PlanStep>>, assertions: Option<seq<PlanAssertion>>,
                       testName: string, description: string)

  datatype TestCase = TestCase(title: string, steps: string, expected: string)

  function CaseTitle(k: nat, name: string): string {
    "Test Case " + NatToString(k + 1) + ": " + name
  }

  const DefaultExpected := "Test passes successfully"

  /** `planResult.assertions?.[k]?.description || 'Test passes successfully'`. */
  function ExpectedAt(plan: Plan, k: nat): string {
    if plan.assertions.Some? && k < |plan.assertions.value| && plan.assertions.value[k].description != []
    then plan.assertions.value[k].description
    else DefaultExpected
  }

  function AssertionCase(k: nat, a: PlanAssertion): TestCase {
    TestCase("Test Case " + NatToString(k + 1) + ": Verify " + a.target,
             "1. Navigate to application\n2. Perform " + a.kind + " check on " + a.target,
             if a.description != [] then a.description else "Verify " + a.expected)
  }

  function StepTexts(steps: seq<PlanStep>): (r: seq<string>)
    ensures |r| == |steps|
  {
    seq(|steps|, k requires 0 <= k < |steps| => StepText(steps[k]))
  }

  /** The test cases of the generate-tests handler: one per group of three
      steps, else one per assertion, else a single default case. */
  function TestCasesOf(plan: Plan, storyTitle: string): seq<TestCase> {
    var name := if plan.testName != [] then plan.testName else storyTitle;
    var groups := if plan.steps.Some? then Chunks(StepTexts(plan.steps.value)) else [];
    if groups != [] then
      seq(|groups|, k requires 0 <= k < |groups| =>
        TestCase(CaseTitle(k, name), Join(groups[k], "\n"), ExpectedAt(plan, k)))
    else if plan.assertions.Some? && plan.assertions.value != [] then
      var asserts := plan.assertions.value;
      seq(|asserts|, k requires 0 <= k < |asserts| => AssertionCase(k, asserts[k]))
    else
      [TestCase(CaseTitle(0, name),
                if plan.description != [] then plan.description else "Execute test steps as planned",
                "All acceptance criteria are met")]
  }

  /** Never empty: ceil(n/3) cases for n steps, each expecting the assertion
      at its own index; else one per assertion; else exactly one. */
  lemma {:induction false} TestCasesShape(plan: Plan, storyTitle: string)
    ensures var cases := TestCasesOf(plan, storyTitle);
      && cases != []
      && (plan.steps.Some? && plan.steps.value != [] ==>
            |cases| == (|plan.steps.value| + 2) / 3
            && forall k :: 0 <= k < |cases| ==> cases[k].expected == ExpectedAt(plan, k))
      && ((plan.steps.None? || plan.steps.value == []) && plan.assertions.Some? ==>
            |cases| == (if plan.assertions.value == [] then 1 else |plan.assertions.value|))
      && ((plan.steps.None? || plan.steps.value == []) && plan.assertions.None? ==> |cases| == 1)
  {
    if plan.steps.Some? {
      ChunksShape(StepTexts(plan.steps.value));
    }
  }

  // ---------------------------------------------------------------------
  // push-testrail: create or update by title

  datatype PushSummary = PushSummary(created: nat, updated: nat, createdTitles: seq<string>, updatedTitles: seq<string>)

  /** Pushing cases in order into a section holding `titles`: a case whose
      title is there is updated, any other is created and its title joins
      the section. Returns the counters and the section's titles after. */
  function Pushed(cases: seq<TestCase>, titles: set<string>): (PushSummary, set<string>) {
    if cases == [] then (PushSummary(0, 0, [], []), titles)
    else
      var (sum, known) := Pushed(cases[..|cases| - 1], titles);
      var title := cases[|cases| - 1].title;
      if title in known then
        (sum.(updated := sum.updated + 1, updatedTitles := sum.updatedTitles + [title]), known)
      else
        (sum.(created := sum.created + 1, createdTitles := sum.createdTitles + [title]), known + {title})
  }

  const PushMissing := "Test cases and story ID are required"

  /** The push-testrail handler's loop over the test cases. */
  method PushTestRail(testCases: Option<seq<TestCase>>, storyId: string, titles: set<string>)
    returns (r: Result<PushSummary>, section: set<string>)
    ensures testCases.None? || storyId == [] ==> r == Err(PushMissing) && section == titles
    ensures testCases.Some? && storyId != [] ==>
      r == Ok(Pushed(testCases.value, titles).0) && section == Pushed(testCases.value, titles).1
  {
    if testCases.None? || storyId == [] {
      return Err(PushMissing), titles;
    }
    var cases := testCases.value;
    var created, updated := 0, 0;
    var createdCases, updatedCases := [], [];
    section := titles;
    for i := 0 to |cases|
      invariant (PushSummary(created, updated, createdCases, updatedCases), section) == Pushed(cases[..i], titles)
    {
      assert cases[..i + 1][..i] == cases[..i];
      var title := cases[i].title;
      if title in section {
        updated := updated + 1;
        updatedCases := updatedCases + [title];
      } else {
        created := created + 1;
        createdCases := createdCases + [title];
        section := section + {title};
      }
    }
    assert cases[..|cases|] == cases;
    r := Ok(PushSummary(created, updated, createdCases, updatedCases));
  }

  /** Every case is counted once: created + updated is the number of cases,
      the created titles are new and distinct, and afterwards the section
      holds exactly the old titles and those of the cases. */
  lemma {:induction false} PushCounts(cases: seq<TestCase>, titles: set<string>)
    ensures var (sum, known) := Pushed(cases, titles);
      && sum.created + sum.updated == |cases|
      && sum.created == |sum.createdTitles| && sum.updated == |sum.updatedTitles|
      && (forall i, j :: 0 <= i < j < |sum.createdTitles| ==> sum.createdTitles[i] != sum.createdTitles[j])
      && (forall i :: 0 <= i < |sum.createdTitles| ==> sum.createdTitles[i] !in titles && sum.createdTitles[i] in known)
      && known == titles + set k | 0 <= k < |cases| :: cases[k].title
  {
    if cases != [] {
      var init := cases[..|cases| - 1];
      PushCounts(init, titles);
      var (sum, known) := Pushed(init, titles);
      assert forall k :: 0 <= k < |init| ==> init[k] == cases[k];
      assert (set k | 0 <= k < |cases| :: cases[k].title)
        == (set k | 0 <= k < |init| :: init[k].title) + {cases[|cases| - 1].title};
    }
  }

  // ---------------------------------------------------------------------
  // extractAcceptanceCriteria

  /** The heading that opens the criteria section. */
  predicate IsHeading(trimmed: string) {
    Contains(Lower(trimmed), "acceptance criteria")
  }

  /** `/^\d+\./`. */
  predicate IsNumbered(trimmed: string) {
    var n := DigitRun(trimmed, 0);
    n > 0 && n < |trimmed| && trimmed[n] == '.'
  }

  /** A bullet or numbered line. */
  predicate IsCriterion(trimmed: string) {
    StartsWith(trimmed, "*") || StartsWith(trimmed, "-") || IsNumbered(trimmed)
  }

  predicate IsMarkerChar(c: char) {
    c == '*' || c == '-' || c == '.' || IsDigit(c)
  }

  /** The length of the leading run of marker characters. */
  function MarkerRun(s: string): (n: nat)
    ensures n <= |s|
    ensures forall k :: 0 <= k < n ==> IsMarkerChar(s[k])
    ensures n == |s| || !IsMarkerChar(s[n])
  {
    if s != [] && IsMarkerChar(s[0]) then 1 + MarkerRun(s[1..]) else 0
  }

  /** `replace(/^[\*\-\d\.]+\s*\/, '')`. */
  function StripMarker(trimmed: string): (r: string)
    ensures |r| <= |trimmed| && r == trimmed[|trimmed| - |r|..]
  {
    TrimStart(trimmed[MarkerRun(trimmed)..])
  }

  /** How a line is read: trimmed, then tested as a heading or as a
      criterion, whose text is the line with its marker stripped. */
  datatype LineReading = LineReading(clean: string -> string, heading: string -> bool,
                                     criterion: string -> bool, strip: string -> string)

  const CriteriaReading := LineReading(Trim, IsHeading, IsCriterion, StripMarker)

  /** The scan state after some lines: inside the section or not, and the
      criteria found so far. */
  datatype Scan = Scan(inSection: bool, found: seq<string>)

  function ScanStep(st: Scan, line: string, m: LineReading): Scan {
    var trimmed := m.clean(line);
    if m.heading(trimmed) then Scan(true, st.found)
    else if st.inSection && m.criterion(trimmed) then Scan(true, st.found + [m.strip(trimmed)])
    else st
  }

  function ScanLines(lines: seq<string>, m: LineReading): Scan {
    if lines == [] then Scan(false, []) else ScanStep(ScanLines(lines[..|lines| - 1], m), lines[|lines| - 1], m)
  }

  const DefaultCriterion := "Default criterion: System works as expected"

  /** `extractAcceptanceCriteria`. */
  method ExtractAcceptanceCriteria(description: string) returns (criteria: seq<string>)
    ensures description == [] ==> criteria == []
    ensures description != [] ==>
      criteria == (if ScanLines(SplitLines(description), CriteriaReading).found != [] then ScanLines(SplitLines(description), CriteriaReading).found
                   else [DefaultCriterion])
  {
    if description == [] {
      return [];
    }
    var lines := SplitLines(description);
    criteria := [];
    var inCriteriaSection := false;
    for i := 0 to |lines|
      invariant Scan(inCriteriaSection, criteria) == ScanLines(lines[..i], CriteriaReading)
    {
      ScanLinesNext(lines, i, CriteriaReading);
      CriteriaStep(Scan(inCriteriaSection, criteria), lines[i]);
      var trimmed := Trim(lines[i]);
      if IsHeading(trimmed) {
        inCriteriaSection := true;
        continue;
      }
      if inCriteriaSection && IsCriterion(trimmed) {
        criteria := criteria + [StripMarker(trimmed)];
      }
    }
    assert lines[..|lines|] == lines;
    if criteria == [] {
      criteria := [DefaultCriterion];
    }
  }

  lemma {:induction false} ScanLinesNext(lines: seq<string>, i: nat, m: LineReading)
    requires i < |lines|
    ensures ScanLines(lines[..i + 1], m) == ScanStep(ScanLines(lines[..i], m), lines[i], m)
  {
    assert lines[..i + 1][..i] == lines[..i];
  }

  lemma {:induction false} CriteriaStep(st: Scan, line: string)
    ensures var t := Trim(line);
      ScanStep(st, line, CriteriaReading)
        == if IsHeading(t) then Scan(true, st.found)
           else if st.inSection && IsCriterion(t) then Scan(true, st.found + [StripMarker(t)])
           else st
  {
  }

  /** The section is open after a line exactly when some heading came before. */
  lemma {:induction false} ScanInSection(lines: seq<string>, m: LineReading)
    ensures ScanLines(lines, m).inSection <==> exists j :: 0 <= j < |lines| && m.heading(m.clean(lines[j]))
  {
    if lines != [] {
      var init := lines[..|lines| - 1];
      ScanInSection(init, m);
      assert forall j :: 0 <= j < |init| ==> init[j] == lines[j];
      if exists j :: 0 <= j < |lines| && m.heading(m.clean(lines[j])) {
        var j :| 0 <= j < |lines| && m.heading(m.clean(lines[j]));
        if j < |init| {
          assert m.heading(m.clean(init[j]));
        }
      }
    }
  }

  /** Line `i` is a criterion line, stripped to `x`, under the heading at
      line `j`. */
  predicate CriterionUnder(lines: seq<string>, m: LineReading, x: string, i: int, j: int) {
    0 <= j < i < |lines| && m.heading(m.clean(lines[j])) && !m.heading(m.clean(lines[i]))
    && m.criterion(m.clean(lines[i])) && x == m.strip(m.clean(lines[i]))
  }

  /** A criterion is the stripped form of a bullet or numbered line that is
      not itself a heading and comes after a heading, and every such line
      gives one. */
  lemma {:induction false} ScanFound(lines: seq<string>, m: LineReading, x: string)
    ensures x in ScanLines(lines, m).found <==> exists i, j :: CriterionUnder(lines, m, x, i, j)
  {
    if lines != [] {
      var init := lines[..|lines| - 1];
      var last := |lines| - 1;
      var st := ScanLines(init, m);
      ScanFound(init, m, x);
      ScanInSection(init, m);
      if x in ScanLines(lines, m).found {
        if x in st.found {
          var i, j :| CriterionUnder(init, m, x, i, j);
          assert init[i] == lines[i] && init[j] == lines[j];
          assert CriterionUnder(lines, m, x, i, j);
        } else {
          var j :| 0 <= j < |init| && m.heading(m.clean(init[j]));
          assert init[j] == lines[j];
          assert CriterionUnder(lines, m, x, last, j);
        }
      }
      if exists i, j :: CriterionUnder(lines, m, x, i, j) {
        var i, j :| CriterionUnder(lines, m, x, i, j);
        assert init[j] == lines[j];
        if i < last {
          assert init[i] == lines[i];
          assert CriterionUnder(init, m, x, i, j);
        } else {
          assert m.heading(m.clean(init[j]));
        }
      }
    }
  }
}
