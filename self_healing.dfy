/** The healing history: an append-only log of heal records, a
    history-based fast path tried before any AI call, statistics over the
    log and a ranking of the selectors that failed most often. The AI
    engine's `selfHealSelector` is an oracle parameter. */
module SelfHealing {
  import opened Wrappers
  import opened Text
  import opened JsValues
  import opened Browser
  import opened AiEngine

  /** One entry of `healingHistory` (its timestamp is not modelled). */
  datatype HealingRecord = HealingRecord(
    testName: string,
    elementDescription: string,
    oldSelector: string,
    newSelector: Option<string>,
    healingStrategy: string,
    success: bool,
    confidence: real)

  /** The event `recordHealing` receives; its `strategy` becomes the
      record's `healingStrategy`. */
  datatype HealingEvent = HealingEvent(
    testName: string,
    elementDescription: string,
    oldSelector: string,
    newSelector: Option<string>,
    strategy: string,
    success: bool,
    confidence: real)

  function RecordOf(event: HealingEvent): (r: HealingRecord)
    ensures r.healingStrategy == event.strategy
    ensures r.testName == event.testName && r.elementDescription == event.elementDescription
    ensures r.oldSelector == event.oldSelector && r.newSelector == event.newSelector
    ensures r.success == event.success && r.confidence == event.confidence
  {
    HealingRecord(event.testName, event.elementDescription, event.oldSelector, event.newSelector,
                  event.strategy, event.success, event.confidence)
  }

  /** What `attemptHealing` returns. */
  datatype HealingResult =
    | Healed(selector: string, strategy: string, diagnosis: Option<string>)
    | NotHealed(failureDiagnosis: string, suggestions: seq<string>)
    | HealingError(error: string)

  const HistoryConfidence: real := 0.8
  type HealOracle = (string, string, string) -> Result<Option<HealSuggestion>>

  // ---------------------------------------------------------------------
  // History lookup

  /** A record that may be reused: successful, for the same description up
      to letter case, and for exactly the same failed selector. */
  predicate Similar(record: HealingRecord, description: string, failedSelector: string) {
    record.success && Lower(record.elementDescription) == Lower(description) && record.oldSelector == failedSelector
  }

  /** `findSimilarHealing`: the index of the most recent similar record. */
  function FindSimilarHealing(history: seq<HealingRecord>, description: string, failedSelector: string): (r: Option<nat>)
    ensures r.Some? ==> r.value < |history| && Similar(history[r.value], description, failedSelector)
    ensures r.Some? ==> forall j :: r.value < j < |history| ==> !Similar(history[j], description, failedSelector)
    ensures r.None? ==> forall j :: 0 <= j < |history| ==> !Similar(history[j], description, failedSelector)
  {
    if history == [] then None
    else if Similar(history[|history| - 1], description, failedSelector) then Some(|history| - 1)
    else FindSimilarHealing(history[..|history| - 1], description, failedSelector)
  }

  /** Probing a record's new selector; a missing one finds nothing. */
  function ProbeRecord(page: Page, record: HealingRecord): Option<Handle> {
    match record.newSelector
    case Some(sel) => TrySelector(page, sel)
    case None => None
  }

  // ---------------------------------------------------------------------
  // One healing attempt

  /** The outcome of `attemptHealing` and the records it appends. */
  datatype Attempt = Attempt(result: HealingResult, appended: seq<HealingRecord>)

  /** `attemptHealing` as a value. */
  function HealingAttempt(history: seq<HealingRecord>, page: Page, testName: string, description: string,
                          failedSelector: string, heal: HealOracle): Attempt
  {
    var similar := FindSimilarHealing(history, description, failedSelector);
    if similar.Some? && ProbeRecord(page, history[similar.value]).Some? then
      var sel := history[similar.value].newSelector.value;
      Attempt(Healed(sel, "history-based", None),
              [HealingRecord(testName, description, failedSelector, Some(sel), "history-based", true, HistoryConfidence)])
    else AiAttempt(page, testName, description, failedSelector, heal)
  }

  /** The AI part of `attemptHealing`. */
  function AiAttempt(page: Page, testName: string, description: string, failedSelector: string, heal: HealOracle): Attempt {
    match heal(page.html, failedSelector, description)
    case Err(m) => Attempt(HealingError(m), [])
    case Ok(None) => Attempt(HealingError(UndefinedRead("newSelectors")), [])
    case Ok(Some(s)) =>
      match FirstVisible(page, s.newSelectors)
      case Some(h) =>
        Attempt(Healed(s.newSelectors[h.index], "ai-generated", Some(s.diagnosis)),
                [HealingRecord(testName, description, failedSelector, Some(s.newSelectors[h.index]), "ai-generated", true, s.confidence)])
      case None =>
        Attempt(NotHealed(s.diagnosis, s.newSelectors),
                [HealingRecord(testName, description, failedSelector, None, "failed", false, 0.0)])
  }

  class Healer {
    var healingHistory: seq<HealingRecord>

    /** The history starts empty; loading the saved history is not modelled. */
    constructor ()
      ensures healingHistory == []
    {
      healingHistory := [];
    }

    /** `recordHealing`: exactly one record at the end. */
    method RecordHealing(event: HealingEvent)
      modifies this
      ensures healingHistory == old(healingHistory) + [RecordOf(event)]
    {
      healingHistory := healingHistory + [RecordOf(event)];
    }

    /** `attemptHealing`: history first, then the AI suggestions in order. */
    method AttemptHealing(page: Page, testName: string, description: string, failedSelector: string, heal: HealOracle)
      returns (r: HealingResult)
      modifies this
      ensures var a := HealingAttempt(old(healingHistory), page, testName, description, failedSelector, heal);
        r == a.result && healingHistory == old(healingHistory) + a.appended
    {
      var similar := FindSimilarHealing(healingHistory, description, failedSelector);
      if similar.Some? {
        var record := healingHistory[similar.value];
        var element := ProbeRecord(page, record);
        if element.Some? {
          var sel := record.newSelector.value;
          RecordHealing(HealingEvent(testName, description, failedSelector, Some(sel), "history-based", true, HistoryConfidence));
          return Healed(sel, "history-based", None);
        }
      }
      var reply := heal(page.html, failedSelector, description);
      if reply.Err? {
        return HealingError(reply.message);
      }
      if reply.value.None? {
        return HealingError(UndefinedRead("newSelectors"));
      }
      var suggestion := reply.value.value;
      var selectors := suggestion.newSelectors;
      var i := 0;
      while i < |selectors|
        invariant 0 <= i <= |selectors|
        invariant healingHistory == old(healingHistory)
        invariant forall j :: 0 <= j < i ==> TrySelector(page, selectors[j]).None?
      {
        var element := TrySelector(page, selectors[i]);
        if element.Some? {
          FirstVisibleAt(page, selectors, i);
          RecordHealing(HealingEvent(testName, description, failedSelector, Some(selectors[i]), "ai-generated", true, suggestion.confidence));
          return Healed(selectors[i], "ai-generated", Some(suggestion.diagnosis));
        }
        i := i + 1;
      }
      FirstVisibleNone(page, selectors);
      RecordHealing(HealingEvent(testName, description, failedSelector, None, "failed", false, 0.0));
      return NotHealed(suggestion.diagnosis, suggestions := selectors);
    }

    function GetStatistics(): Statistics
      reads this
    {
      StatisticsOf(healingHistory)
    }

    function GenerateRecommendations(): string
      reads this
    {
      Recommendations(healingHistory)
    }
  }

  // ---------------------------------------------------------------------
  // Properties of an attempt

  /** When the most recent similar record's selector resolves, the attempt
      succeeds from history with confidence 0.8 and the AI is not asked. */
  lemma {:induction false} HistoryFastPath(history: seq<HealingRecord>, page: Page, testName: string, description: string,
                                           failedSelector: string, heal: HealOracle, heal2: HealOracle)
    requires FindSimilarHealing(history, description, failedSelector).Some?
    requires ProbeRecord(page, history[FindSimilarHealing(history, description, failedSelector).value]).Some?
    ensures var a := HealingAttempt(history, page, testName, description, failedSelector, heal);
      && a == HealingAttempt(history, page, testName, description, failedSelector, heal2)
      && a.result.Healed? && a.result.strategy == "history-based"
      && |a.appended| == 1 && a.appended[0].success && a.appended[0].confidence == 0.8
      && a.appended[0].healingStrategy == "history-based"
      && Some(a.result.selector) == history[FindSimilarHealing(history, description, failedSelector).value].newSelector
  {
  }

  /** Otherwise the first suggestion that resolves is used and recorded
      with the AI's confidence; no earlier suggestion resolved. */
  lemma {:induction false} AiPathFirstResolving(page: Page, testName: string, description: string,
                                                failedSelector: string, heal: HealOracle)
    requires AiAttempt(page, testName, description, failedSelector, heal).result.Healed?
    ensures var reply := heal(page.html, failedSelector, description);
      reply.Ok? && reply.value.Some?
    ensures var s := heal(page.html, failedSelector, description).value.value;
      var a := AiAttempt(page, testName, description, failedSelector, heal);
      exists i :: 0 <= i < |s.newSelectors| && a.result.selector == s.newSelectors[i]
        && TrySelector(page, s.newSelectors[i]).Some?
        && (forall j :: 0 <= j < i ==> TrySelector(page, s.newSelectors[j]).None?)
        && a.appended == [HealingRecord(testName, description, failedSelector, Some(s.newSelectors[i]), "ai-generated", true, s.confidence)]
  {
    var s := heal(page.html, failedSelector, description).value.value;
    FirstVisibleFirst(page, s.newSelectors);
    var h := FirstVisible(page, s.newSelectors).value;
    assert 0 <= h.index < |s.newSelectors|;
  }

  /** When no suggestion resolves, exactly one failure record is appended
      and the suggestions are returned. */
  lemma {:induction false} AiPathNoneResolves(page: Page, testName: string, description: string,
                                              failedSelector: string, heal: HealOracle)
    requires heal(page.html, failedSelector, description).Ok? && heal(page.html, failedSelector, description).value.Some?
    requires var s := heal(page.html, failedSelector, description).value.value;
      forall j :: 0 <= j < |s.newSelectors| ==> TrySelector(page, s.newSelectors[j]).None?
    ensures var s := heal(page.html, failedSelector, description).value.value;
      var a := AiAttempt(page, testName, description, failedSelector, heal);
      a.result == NotHealed(s.diagnosis, s.newSelectors)
      && a.appended == [HealingRecord(testName, description, failedSelector, None, "failed", false, 0.0)]
  {
  }

  /** An attempt never fails: errors of the AI call become an error
      result, and then nothing is recorded; every other attempt records
      exactly one entry, which is successful iff the result is. */
  lemma {:induction false} AttemptNeverThrows(history: seq<HealingRecord>, page: Page, testName: string, description: string,
                                              failedSelector: string, heal: HealOracle)
    ensures var a := HealingAttempt(history, page, testName, description, failedSelector, heal);
      && (a.result.HealingError? <==> a.appended == [])
      && (!a.result.HealingError? ==> |a.appended| == 1 && (a.appended[0].success <==> a.result.Healed?))
      && (a.result.HealingError? ==> !heal(page.html, failedSelector, description).Ok?
                                     || heal(page.html, failedSelector, description).value.None?)
  {
    var similar := FindSimilarHealing(history, description, failedSelector);
    if !(similar.Some? && ProbeRecord(page, history[similar.value]).Some?) {
      var reply := heal(page.html, failedSelector, description);
      if reply.Ok? && reply.value.Some? {
        match FirstVisible(page, reply.value.value.newSelectors)
        case Some(h) =>
        case None =>
      }
    }
  }

  // ---------------------------------------------------------------------
  // Statistics

  /** The share of successful records, in percent; the text formatting of
      `toFixed(2)` is not modelled. */
  datatype Rate = ZeroPercent | Percent(value: real)

  datatype Statistics = Statistics(total: nat, successful: nat, failed: int, successRate: Rate, strategyCounts: map<string, nat>)

  function SuccessCount(history: seq<HealingRecord>): (n: nat)
    ensures n <= |history|
  {
    if history == [] then 0
    else SuccessCount(history[..|history| - 1]) + (if history[|history| - 1].success then 1 else 0)
  }

  function Strategies(history: seq<HealingRecord>): (s: seq<string>)
    ensures |s| == |history|
    ensures forall i :: 0 <= i < |history| ==> s[i] == history[i].healingStrategy
  {
    seq(|history|, i requires 0 <= i < |history| => history[i].healingStrategy)
  }

  /** `array.reduce((acc, x) => (acc[x] = (acc[x] || 0) + 1, acc), {})`. */
  function Tally(items: seq<string>): map<string, nat>
  {
    if items == [] then map[]
    else
      var m := Tally(items[..|items| - 1]);
      var x := items[|items| - 1];
      m[x := (if x in m then m[x] else 0) + 1]
  }

  /** The tally has a key for each item and counts its occurrences. */
  lemma {:induction false} TallyCounts(items: seq<string>)
    ensures forall k :: k in Tally(items) <==> k in items
    ensures forall k :: k in Tally(items) ==> Tally(items)[k] == multiset(items)[k]
  {
    if items != [] {
      var init := items[..|items| - 1];
      var x := items[|items| - 1];
      TallyCounts(init);
      assert items == init + [x];
      assert multiset(items) == multiset(init) + multiset{x};
      forall k ensures k in Tally(items) <==> k in items {
        assert k in items <==> k in init || k == x;
      }
    }
  }

  /** `getStatistics` over a history. */
  function StatisticsOf(history: seq<HealingRecord>): Statistics {
    var total := |history|;
    var successful := SuccessCount(history);
    Statistics(total, successful, total - successful,
               if total > 0 then Percent(successful as real / total as real * 100.0) else ZeroPercent,
               Tally(Strategies(history)))
  }

  /** failed = total - successful, never negative; the strategy counts
      cover exactly the strategies used and add up to the total (their
      multiset has `total` elements); an empty history reports "0%". */
  lemma {:induction false} StatisticsConsistent(history: seq<HealingRecord>)
    ensures var st := StatisticsOf(history);
      && st.total == |history| && st.failed >= 0 && st.successful + st.failed == st.total
      && (st.total == 0 <==> st.successRate == ZeroPercent)
      && (forall k :: k in st.strategyCounts ==> st.strategyCounts[k] == multiset(Strategies(history))[k])
      && (forall k :: k in st.strategyCounts <==> exists i :: 0 <= i < |history| && history[i].healingStrategy == k)
      && |multiset(Strategies(history))| == st.total
  {
    TallyCounts(Strategies(history));
    var st := StatisticsOf(history);
    forall k ensures k in st.strategyCounts <==> exists i :: 0 <= i < |history| && history[i].healingStrategy == k {
      if k in Strategies(history) {
        var i :| 0 <= i < |history| && Strategies(history)[i] == k;
      }
    }
  }

  // ---------------------------------------------------------------------
  // Ranking

  /** One `{item, count}` pair of `getMostFrequent`. */
  datatype Frequent = Frequent(item: string, count: nat)

  /** The distinct items in order of first occurrence. */
  function FirstOccurrences(items: seq<string>): (d: seq<string>)
    ensures forall x :: x in d <==> x in items
    ensures Distinct(d)
  {
    if items == [] then []
    else
      var d := FirstOccurrences(items[..|items| - 1]);
      var x := items[|items| - 1];
      assert forall y :: y in items <==> y in items[..|items| - 1] || y == x;
      if x in d then d else d + [x]
  }

  /** The position of the first occurrence of `x`. */
  function FirstIndex(items: seq<string>, x: string): (k: nat)
    requires x in items
    ensures k < |items| && items[k] == x
    ensures forall m :: 0 <= m < k ==> items[m] != x
  {
    if items[0] == x then 0
    else
      assert forall m :: 1 <= m < |items| ==> items[m] == items[1..][m - 1];
      1 + FirstIndex(items[1..], x)
  }

  lemma {:induction false} FirstIndexAt(items: seq<string>, x: string, k: nat)
    requires k < |items| && items[k] == x
    requires forall m :: 0 <= m < k ==> items[m] != x
    ensures FirstIndex(items, x) == k
  {
  }

  /** The keys of `s` come in the order in which they first occur in
      `items`. */
  predicate InFirstOrder(s: seq<string>, items: seq<string>) {
    forall i, j :: 0 <= i < j < |s| ==> s[i] in items && s[j] in items && FirstIndex(items, s[i]) < FirstIndex(items, s[j])
  }

  /** Appending an item keeps the first occurrence of every earlier one. */
  lemma {:induction false} FirstIndexSnoc(items: seq<string>, x: string, y: string)
    requires y in items
    ensures FirstIndex(items + [x], y) == FirstIndex(items, y)
  {
    var k := FirstIndex(items, y);
    FirstIndexAt(items + [x], y, k);
  }

  /** The distinct items are listed in order of first occurrence. */
  lemma {:induction false} FirstOccurrencesOrder(items: seq<string>)
    ensures InFirstOrder(FirstOccurrences(items), items)
  {
    if items != [] {
      var p := items[..|items| - 1];
      var x := items[|items| - 1];
      assert items == p + [x];
      FirstOccurrencesOrder(p);
      var d := FirstOccurrences(p);
      forall y | y in p ensures FirstIndex(items, y) == FirstIndex(p, y) {
        FirstIndexSnoc(p, x, y);
      }
      if x !in d {
        FirstIndexAt(items, x, |p|);
      }
    }
  }

  /** `2^32 - 1`: array indices lie below it. */
  const ArrayIndexBound: nat := 0xFFFF_FFFF

  /** A key JavaScript treats as an array index: the canonical decimal
      text of a number below `2^32 - 1`. */
  predicate IsArrayIndex(s: string) {
    s != [] && AllDigits(s) && (|s| == 1 || s[0] != '0') && DecimalValue(s) < ArrayIndexBound
  }

  /** The numeric value of a key, 0 for a key that is not digits. */
  function IndexValue(s: string): nat {
    if AllDigits(s) then DecimalValue(s) else 0
  }

  /** The keys of `d` that are array indices (`index`) or that are not,
      in their order in `d`. */
  function KeysWhere(d: seq<string>, index: bool): (r: seq<string>)
    ensures forall x :: x in r <==> x in d && IsArrayIndex(x) == index
    ensures multiset(r) <= multiset(d)
  {
    if d == [] then []
    else
      var p := d[..|d| - 1];
      var x := d[|d| - 1];
      assert d == p + [x];
      var r := KeysWhere(p, index);
      if IsArrayIndex(x) == index then r + [x] else r
  }

  /** Every key is either an array index or not. */
  lemma {:induction false} KeysSplit(d: seq<string>)
    ensures multiset(KeysWhere(d, true)) + multiset(KeysWhere(d, false)) == multiset(d)
  {
    if d != [] {
      var p := d[..|d| - 1];
      assert d == p + [d[|d| - 1]];
      KeysSplit(p);
    }
  }

  /** Selecting keys keeps their order of first occurrence. */
  lemma {:induction false} KeysWhereOrder(d: seq<string>, index: bool, items: seq<string>)
    requires InFirstOrder(d, items)
    requires forall x :: x in d ==> x in items
    ensures InFirstOrder(KeysWhere(d, index), items)
  {
    if d != [] {
      var p := d[..|d| - 1];
      var x := d[|d| - 1];
      assert InFirstOrder(p, items) by {
        forall i, j | 0 <= i < j < |p|
          ensures p[i] in items && p[j] in items && FirstIndex(items, p[i]) < FirstIndex(items, p[j])
        {
          assert p[i] == d[i] && p[j] == d[j];
        }
      }
      KeysWhereOrder(p, index, items);
      var r := KeysWhere(p, index);
      if IsArrayIndex(x) == index {
        assert KeysWhere(d, index) == r + [x];
        forall y | y in r ensures y in items && FirstIndex(items, y) < FirstIndex(items, x) {
          var i :| 0 <= i < |p| && p[i] == y;
          assert d[i] == y;
        }
        InFirstOrderSnoc(r, x, items);
      } else {
        assert KeysWhere(d, index) == r;
      }
    }
  }

  /** A key occurring after all keys of an ordered run extends it. */
  lemma {:induction false} InFirstOrderSnoc(r: seq<string>, x: string, items: seq<string>)
    requires InFirstOrder(r, items) && x in items
    requires forall y :: y in r ==> y in items && FirstIndex(items, y) < FirstIndex(items, x)
    ensures InFirstOrder(r + [x], items)
  {
    var s := r + [x];
    forall i, j | 0 <= i < j < |s|
      ensures s[i] in items && s[j] in items && FirstIndex(items, s[i]) < FirstIndex(items, s[j])
    {
      assert s[i] == r[i];
      if j < |r| {
        assert s[j] == r[j];
      } else {
        assert r[i] in r;
      }
    }
  }

  predicate Ascending(s: seq<string>) {
    forall i, j :: 0 <= i < j < |s| ==> IndexValue(s[i]) <= IndexValue(s[j])
  }

  /** Inserts a key before the first key of no smaller value. */
  function InsertByValue(k: string, s: seq<string>): (r: seq<string>)
    ensures multiset(r) == multiset(s) + multiset{k}
  {
    if s == [] || IndexValue(k) <= IndexValue(s[0]) then [k] + s
    else
      assert s == [s[0]] + s[1..];
      [s[0]] + InsertByValue(k, s[1..])
  }

  lemma {:induction false} InsertByValueAtLeast(k: string, s: seq<string>, low: nat)
    requires forall i :: 0 <= i < |s| ==> low <= IndexValue(s[i])
    requires low <= IndexValue(k)
    ensures forall i :: 0 <= i < |InsertByValue(k, s)| ==> low <= IndexValue(InsertByValue(k, s)[i])
  {
    if s != [] && IndexValue(k) > IndexValue(s[0]) {
      InsertByValueAtLeast(k, s[1..], low);
    }
  }

  lemma {:induction false} InsertByValueSorted(k: string, s: seq<string>)
    requires Ascending(s)
    ensures Ascending(InsertByValue(k, s))
  {
    if s != [] && IndexValue(k) > IndexValue(s[0]) {
      InsertByValueSorted(k, s[1..]);
      InsertByValueAtLeast(k, s[1..], IndexValue(s[0]));
    }
  }

  /** Sorts keys by ascending numeric value. */
  function SortByValue(s: seq<string>): (r: seq<string>)
    ensures multiset(r) == multiset(s)
  {
    if s == [] then []
    else
      assert s == s[..|s| - 1] + [s[|s| - 1]];
      InsertByValue(s[|s| - 1], SortByValue(s[..|s| - 1]))
  }

  lemma {:induction false} SortByValueSorted(s: seq<string>)
    ensures Ascending(SortByValue(s))
  {
    if s != [] {
      SortByValueSorted(s[..|s| - 1]);
      InsertByValueSorted(s[|s| - 1], SortByValue(s[..|s| - 1]));
    }
  }

  /** The key order of the tally object, as `Object.entries` lists it:
      the array-index keys in ascending numeric order, then the other keys
      in order of first occurrence. */
  function KeyOrder(items: seq<string>): (d: seq<string>)
    ensures forall x :: x in d <==> x in items
    ensures Distinct(d)
  {
    IndicesFirst(FirstOccurrences(items))
  }

  /** Distinct keys with the array indices moved to the front, sorted. */
  function IndicesFirst(first: seq<string>): (d: seq<string>)
    requires Distinct(first)
    ensures forall x :: x in d <==> x in first
    ensures Distinct(d)
  {
    var d := SortByValue(KeysWhere(first, true)) + KeysWhere(first, false);
    KeysSplit(first);
    assert multiset(d) == multiset(first);
    DistinctOnce(first);
    OnceDistinct(d);
    assert forall x :: x in d <==> x in multiset(d);
    assert forall x :: x in first <==> x in multiset(first);
    d
  }

  /** The shape `Object.entries` gives its keys: array indices first, in
      ascending numeric order, then the other keys in order of first
      occurrence. */
  predicate EntriesOrder(d: seq<string>, items: seq<string>) {
    forall i, j :: 0 <= i < j < |d| ==>
      && (IsArrayIndex(d[j]) ==> IsArrayIndex(d[i]) && IndexValue(d[i]) <= IndexValue(d[j]))
      && (!IsArrayIndex(d[i]) ==> !IsArrayIndex(d[j]) && d[i] in items && d[j] in items && FirstIndex(items, d[i]) < FirstIndex(items, d[j]))
  }

  /** Sorted array indices followed by other keys in order of first
      occurrence have the entries' shape. */
  lemma {:induction false} EntriesOrderConcat(a: seq<string>, b: seq<string>, items: seq<string>)
    requires forall i :: 0 <= i < |a| ==> IsArrayIndex(a[i])
    requires forall i :: 0 <= i < |b| ==> !IsArrayIndex(b[i])
    requires Ascending(a) && InFirstOrder(b, items)
    ensures EntriesOrder(a + b, items)
  {
    var d := a + b;
    forall i, j | 0 <= i < j < |d|
      ensures IsArrayIndex(d[j]) ==> IsArrayIndex(d[i]) && IndexValue(d[i]) <= IndexValue(d[j])
      ensures !IsArrayIndex(d[i]) ==> !IsArrayIndex(d[j]) && d[i] in items && d[j] in items && FirstIndex(items, d[i]) < FirstIndex(items, d[j])
    {
      if j < |a| {
        assert d[i] == a[i] && d[j] == a[j];
      } else if i < |a| {
        assert d[i] == a[i] && d[j] == b[j - |a|];
      } else {
        assert d[i] == b[i - |a|] && d[j] == b[j - |a|];
      }
    }
  }

  /** The tally's keys have the order `Object.entries` gives them. */
  lemma {:induction false} KeyOrderShape(items: seq<string>)
    ensures EntriesOrder(KeyOrder(items), items)
  {
    var first := FirstOccurrences(items);
    var a := SortByValue(KeysWhere(first, true));
    var b := KeysWhere(first, false);
    assert KeyOrder(items) == IndicesFirst(first) == a + b;
    SortByValueSorted(KeysWhere(first, true));
    FirstOccurrencesOrder(items);
    KeysWhereOrder(first, false, items);
    forall i | 0 <= i < |a| ensures IsArrayIndex(a[i]) {
      assert a[i] in multiset(a);
    }
    forall i | 0 <= i < |b| ensures !IsArrayIndex(b[i]) {
      assert b[i] in b;
    }
    EntriesOrderConcat(a, b, items);
  }

  /** `Object.entries` of the tally. */
  function Entries(items: seq<string>): (e: seq<Frequent>)
    ensures |e| == |KeyOrder(items)|
    ensures forall i :: 0 <= i < |e| ==> e[i].item == KeyOrder(items)[i] && e[i].count == multiset(items)[e[i].item]
  {
    var d := KeyOrder(items);
    seq(|d|, i requires 0 <= i < |d| => Frequent(d[i], multiset(items)[d[i]]))
  }

  predicate NonIncreasing(s: seq<Frequent>) {
    forall i, j :: 0 <= i < j < |s| ==> s[i].count >= s[j].count
  }

  predicate AllAtMost(s: seq<Frequent>, bound: nat) {
    forall i :: 0 <= i < |s| ==> s[i].count <= bound
  }

  predicate Distinct<T(==)>(s: seq<T>) {
    forall i, j :: 0 <= i < j < |s| ==> s[i] != s[j]
  }

  /** Stable insertion by descending count: after every entry with at
      least the same count. */
  function InsertDesc(e: Frequent, s: seq<Frequent>): (r: seq<Frequent>)
    ensures multiset(r) == multiset(s) + multiset{e}
  {
    if s == [] then [e]
    else if e.count > s[0].count then [e] + s
    else
      assert s == [s[0]] + s[1..];
      [s[0]] + InsertDesc(e, s[1..])
  }

  lemma {:induction false} InsertDescAtMost(e: Frequent, s: seq<Frequent>, bound: nat)
    requires AllAtMost(s, bound) && e.count <= bound
    ensures AllAtMost(InsertDesc(e, s), bound)
  {
    if s != [] && e.count <= s[0].count {
      InsertDescAtMost(e, s[1..], bound);
    }
  }

  lemma {:induction false} InsertDescSorted(e: Frequent, s: seq<Frequent>)
    requires NonIncreasing(s)
    ensures NonIncreasing(InsertDesc(e, s))
  {
    if s != [] && e.count <= s[0].count {
      InsertDescSorted(e, s[1..]);
      InsertDescAtMost(e, s[1..], s[0].count);
    }
  }

  /** `sort((a, b) => b.count - a.count)`, a stable sort. */
  function SortDesc(s: seq<Frequent>): (r: seq<Frequent>)
    ensures multiset(r) == multiset(s)
  {
    if s == [] then []
    else
      assert s == s[..|s| - 1] + [s[|s| - 1]];
      InsertDesc(s[|s| - 1], SortDesc(s[..|s| - 1]))
  }

  lemma {:induction false} SortDescSorted(s: seq<Frequent>)
    ensures NonIncreasing(SortDesc(s))
  {
    if s != [] {
      SortDescSorted(s[..|s| - 1]);
      InsertDescSorted(s[|s| - 1], SortDesc(s[..|s| - 1]));
    }
  }

  const MostFrequentLimit: nat := 5

  /** `getMostFrequent`: the counts in descending order, at most five. */
  function MostFrequent(items: seq<string>): seq<Frequent> {
    var sorted := SortDesc(Entries(items));
    if |sorted| <= MostFrequentLimit then sorted else sorted[..MostFrequentLimit]
  }

  /** A distinct sequence holds each value at most once. */
  lemma {:induction false} DistinctOnce<T>(s: seq<T>)
    requires Distinct(s)
    ensures forall x :: multiset(s)[x] <= 1
  {
    if s != [] {
      var init := s[..|s| - 1];
      DistinctOnce(init);
      assert s == init + [s[|s| - 1]];
      assert s[|s| - 1] !in init;
    }
  }

  /** A value at two positions occurs twice. */
  lemma {:induction false} TwoPositions<T>(s: seq<T>, i: nat, j: nat)
    requires i < j < |s|
    ensures s[i] == s[j] ==> multiset(s)[s[i]] >= 2
  {
    assert s == s[..j] + [s[j]] + s[j + 1..];
    assert multiset(s) == multiset(s[..j]) + multiset{s[j]} + multiset(s[j + 1..]);
    assert s[..j][i] == s[i];
  }

  /** A sequence holding each value at most once is distinct. */
  lemma {:induction false} OnceDistinct<T>(s: seq<T>)
    requires forall x :: multiset(s)[x] <= 1
    ensures Distinct(s)
  {
    forall i, j | 0 <= i < j < |s| ensures s[i] != s[j] {
      TwoPositions(s, i, j);
    }
  }

  /** The sorted tally entries: as many as distinct items, each a distinct
      item of the input with its true count, in non-increasing order. */
  lemma {:induction false} SortedEntries(items: seq<string>)
    ensures var sorted := SortDesc(Entries(items));
      && |sorted| == |KeyOrder(items)|
      && NonIncreasing(sorted)
      && (forall k :: 0 <= k < |sorted| ==> sorted[k].item in items && sorted[k].count == multiset(items)[sorted[k].item])
      && (forall i, j :: 0 <= i < j < |sorted| ==> sorted[i].item != sorted[j].item)
      && (forall x :: x in items ==> exists k :: 0 <= k < |sorted| && sorted[k].item == x)
  {
    var e := Entries(items);
    SortDescSorted(e);
    EntriesCover(items);
    PermutationKeeps(e, SortDesc(e), items);
  }

  /** The tally's entries: a distinct pair per distinct item, with its
      true count. */
  lemma {:induction false} EntriesCover(items: seq<string>)
    ensures var e := Entries(items);
      && (forall k :: 0 <= k < |e| ==> e[k].item in items && e[k].count == multiset(items)[e[k].item])
      && (forall i, j :: 0 <= i < j < |e| ==> e[i].item != e[j].item)
      && (forall x :: x in items ==> exists k :: 0 <= k < |e| && e[k].item == x)
  {
    var e := Entries(items);
    var d := KeyOrder(items);
    forall x | x in items ensures exists k :: 0 <= k < |e| && e[k].item == x {
      var k :| 0 <= k < |d| && d[k] == x;
      assert e[k].item == x;
    }
  }

  /** A permutation of the entries keeps their items, counts and
      distinctness. */
  lemma {:induction false} PermutationKeeps(e: seq<Frequent>, sorted: seq<Frequent>, items: seq<string>)
    requires multiset(sorted) == multiset(e)
    requires forall k :: 0 <= k < |e| ==> e[k].item in items && e[k].count == multiset(items)[e[k].item]
    requires forall i, j :: 0 <= i < j < |e| ==> e[i].item != e[j].item
    requires forall x :: x in items ==> exists k :: 0 <= k < |e| && e[k].item == x
    ensures |sorted| == |e|
    ensures forall k :: 0 <= k < |sorted| ==> sorted[k].item in items && sorted[k].count == multiset(items)[sorted[k].item]
    ensures forall i, j :: 0 <= i < j < |sorted| ==> sorted[i].item != sorted[j].item
    ensures forall x :: x in items ==> exists k :: 0 <= k < |sorted| && sorted[k].item == x
  {
    assert |sorted| == |e| by {
      assert |multiset(sorted)| == |multiset(e)|;
    }
    forall k | 0 <= k < |sorted|
      ensures sorted[k].item in items && sorted[k].count == multiset(items)[sorted[k].item]
    {
      assert sorted[k] in multiset(sorted);
      var j :| 0 <= j < |e| && e[j] == sorted[k];
    }
    assert Distinct(e);
    DistinctOnce(e);
    forall i, j | 0 <= i < j < |sorted|
      ensures sorted[i].item != sorted[j].item
    {
      TwoPositions(sorted, i, j);
      assert multiset(sorted)[sorted[i]] <= 1;
    }
    forall x | x in items
      ensures exists k :: 0 <= k < |sorted| && sorted[k].item == x
    {
      var k :| 0 <= k < |e| && e[k].item == x;
      assert e[k] in multiset(e);
      assert e[k] in multiset(sorted);
      var m :| 0 <= m < |sorted| && sorted[m] == e[k];
    }
  }

  /** `getMostFrequent` keeps the first five sorted pairs, or all of them. */
  lemma {:induction false} MostFrequentPrefix(items: seq<string>)
    ensures var sorted := SortDesc(Entries(items)); var r := MostFrequent(items);
      && |r| == (if |sorted| <= 5 then |sorted| else 5)
      && forall i :: 0 <= i < |r| ==> r[i] == sorted[i]
  {
  }

  /** At most five pairs, in non-increasing count order, each a distinct
      item of the input with its true count; none only for empty input. */
  lemma {:induction false} MostFrequentRanks(items: seq<string>)
    ensures var r := MostFrequent(items);
      && |r| <= 5
      && NonIncreasing(r)
      && (r == [] <==> items == [])
      && (forall i :: 0 <= i < |r| ==> r[i].item in items && r[i].count == multiset(items)[r[i].item])
      && (forall i, j :: 0 <= i < j < |r| ==> r[i].item != r[j].item)
  {
    var sorted := SortDesc(Entries(items));
    var r := MostFrequent(items);
    SortedEntries(items);
    MostFrequentPrefix(items);
    PrefixKeeps(sorted, r, items);
    if items != [] {
      assert items[0] in KeyOrder(items);
    }
  }

  /** A prefix of the sorted tally keeps its order, counts and distinctness. */
  lemma {:induction false} PrefixKeeps(sorted: seq<Frequent>, r: seq<Frequent>, items: seq<string>)
    requires |r| <= |sorted| && forall i :: 0 <= i < |r| ==> r[i] == sorted[i]
    requires NonIncreasing(sorted)
    requires forall k :: 0 <= k < |sorted| ==> sorted[k].item in items && sorted[k].count == multiset(items)[sorted[k].item]
    requires forall i, j :: 0 <= i < j < |sorted| ==> sorted[i].item != sorted[j].item
    ensures NonIncreasing(r)
    ensures forall i :: 0 <= i < |r| ==> r[i].item in items && r[i].count == multiset(items)[r[i].item]
    ensures forall i, j :: 0 <= i < j < |r| ==> r[i].item != r[j].item
  {
  }

  /** An item left out of `getMostFrequent` was crowded out by five pairs
      whose counts are at least its own. */
  lemma {:induction false} MostFrequentLeftOut(items: seq<string>, x: string)
    requires x in items
    requires forall i :: 0 <= i < |MostFrequent(items)| ==> MostFrequent(items)[i].item != x
    ensures |MostFrequent(items)| == 5
    ensures forall i :: 0 <= i < 5 ==> multiset(items)[x] <= MostFrequent(items)[i].count
  {
    var sorted := SortDesc(Entries(items));
    SortedEntries(items);
    MostFrequentPrefix(items);
    var m :| 0 <= m < |sorted| && sorted[m].item == x;
    CrowdedOut(sorted, MostFrequent(items), m);
  }

  /** A pair past a prefix of at most five sorted pairs sits behind a full
      prefix of pairs counted at least as often. */
  lemma {:induction false} CrowdedOut(sorted: seq<Frequent>, r: seq<Frequent>, m: nat)
    requires NonIncreasing(sorted) && m < |sorted|
    requires |r| == (if |sorted| <= 5 then |sorted| else 5) && forall i :: 0 <= i < |r| ==> r[i] == sorted[i]
    requires forall i :: 0 <= i < |r| ==> r[i].item != sorted[m].item
    ensures |r| == 5
    ensures forall i :: 0 <= i < 5 ==> sorted[m].count <= r[i].count
  {
    if |r| > 0 {
      var k := if m < |r| then m else 0;
      assert r[k] == sorted[k] && r[k].item != sorted[m].item;
    }
    assert m >= |r|;
  }

  // ---------------------------------------------------------------------
  // Recommendations

  const NoIssues := NoIssuesHead + " detected. Continue monitoring."
  const NoIssuesHead := "- No significant issues"

  /** The old selectors of the failed records, in history order. */
  function FailedSelectors(history: seq<HealingRecord>): (s: seq<string>)
    ensures s == [] <==> forall i :: 0 <= i < |history| ==> history[i].success
    ensures forall i :: 0 <= i < |history| && !history[i].success ==> history[i].oldSelector in s
  {
    if history == [] then []
    else
      var rest := FailedSelectors(history[..|history| - 1]);
      var last := history[|history| - 1];
      assert forall i :: 0 <= i < |history| - 1 ==> history[..|history| - 1][i] == history[i];
      if last.success then rest else rest + [last.oldSelector]
  }

  function RecommendationLine(f: Frequent): string {
    "- Review selector `" + f.item + "` (failed " + NatToString(f.count)
      + " times) - consider using more robust locator strategy"
  }

  /** `generateRecommendations`. */
  function Recommendations(history: seq<HealingRecord>): string {
    RecommendationText(MostFrequent(FailedSelectors(history)))
  }

  /** One line per frequently failing selector, or the "no issues" line. */
  function RecommendationText(top: seq<Frequent>): string {
    if top == [] then NoIssues
    else Join(seq(|top|, i requires 0 <= i < |top| => RecommendationLine(top[i])), "\n")
  }

  /** The "no issues" line comes back exactly when no record failed. */
  lemma {:induction false} RecommendationsWhenNoFailures(history: seq<HealingRecord>)
    ensures Recommendations(history) == NoIssues <==> forall i :: 0 <= i < |history| ==> history[i].success
  {
    var failed := FailedSelectors(history);
    MostFrequentRanks(failed);
    RecommendationTextNoIssues(MostFrequent(failed));
  }

  /** The recommendation lines are never the "no issues" line. */
  lemma {:induction false} RecommendationTextNoIssues(top: seq<Frequent>)
    ensures RecommendationText(top) == NoIssues <==> top == []
  {
    if top != [] {
      var lines := seq(|top|, i requires 0 <= i < |top| => RecommendationLine(top[i]));
      JoinStarts(lines, "\n", RecommendationLine(top[0]));
      LineDiffers(top[0], Join(lines, "\n"));
    }
  }

  /** Text that starts with a recommendation line is not the "no issues" line. */
  lemma {:induction false} LineDiffers(f: Frequent, text: string)
    requires StartsWith(text, RecommendationLine(f))
    ensures text != NoIssues
  {
    var head := "- Review selector `";
    var a := head + f.item;
    var b := a + "` (failed ";
    var c := b + NatToString(f.count);
    var line := c + " times) - consider using more robust locator strategy";
    assert line == RecommendationLine(f);
    assert line[2] == c[2] == b[2] == a[2] == head[2] == 'R';
    assert text[2] == 'R';
    assert NoIssues[2] == NoIssuesHead[2] == 'N';
  }

  lemma {:induction false} JoinStarts(parts: seq<string>, sep: string, first: string)
    requires parts != [] && parts[0] == first
    ensures StartsWith(Join(parts, sep), first)
  {
    if |parts| > 1 {
      assert Join(parts, sep) == first + (sep + Join(parts[1..], sep));
    }
  }
}
