/** The browser page as the resolution core sees it: an oracle that answers
    each driver query with a visible element or nothing. A driver call that
    times out or throws answers nothing; the core swallows both alike. */
module Browser {
  import opened Wrappers
  import opened Text

  /** An element (or locator) the driver hands back. */
  type Handle = nat

  /** What the page answers, query by query. `selectors` answers
      `waitForSelector` for the fully-prefixed selector string; the other
      maps answer `getByText`, `getByRole`, `getByPlaceholder`, `getByLabel`
      and `getByTestId` for their argument (after `.first()` where the
      source asks for it). `html` is what `page.content()` returns. */
  datatype Page = Page(
    html: string,
    selectors: map<string, Handle>,
    byText: map<string, Handle>,
    byRole: map<string, Handle>,
    byPlaceholder: map<string, Handle>,
    byLabel: map<string, Handle>,
    byTestId: map<string, Handle>)

  function Lookup(m: map<string, Handle>, q: string): (r: Option<Handle>)
    ensures r.Some? <==> q in m
    ensures r.Some? ==> r.value == m[q]
  {
    if q in m then Some(m[q]) else None
  }

  /** A selector is taken for XPath exactly when it starts with `/` or `(`. */
  predicate IsXPath(selector: string) {
    StartsWith(selector, "/") || StartsWith(selector, "(")
  }

  /** The string handed to `waitForSelector` for a selector. */
  function ProbeQuery(selector: string): (q: string)
    ensures IsXPath(selector) ==> q == "xpath=" + selector
    ensures !IsXPath(selector) ==> q == selector
  {
    if IsXPath(selector) then "xpath=" + selector else selector
  }

  /** `trySelector`: wait for the selector to be visible, `null` otherwise.
      It never fails: every driver error becomes `None`. */
  function TrySelector(page: Page, selector: string): (r: Option<Handle>)
    ensures r.Some? <==> ProbeQuery(selector) in page.selectors
    ensures r.Some? ==> r.value == page.selectors[ProbeQuery(selector)]
  {
    Lookup(page.selectors, ProbeQuery(selector))
  }

  /** The XPath prefix is added exactly to XPath selectors. */
  lemma {:induction false} ProbeQueryPrefixed(selector: string)
    ensures ProbeQuery(selector) == "xpath=" + selector <==> IsXPath(selector)
  {
    if !IsXPath(selector) {
      assert |"xpath=" + selector| != |selector|;
    }
  }

  /** The index and element of a successful probe in a candidate list. */
  datatype Hit = Hit(index: nat, handle: Handle)

  /** The first query of `qs` the map answers: later queries are only
      consulted when every earlier one found nothing. */
  function FirstHit(m: map<string, Handle>, qs: seq<string>): (r: Option<Hit>)
    ensures r.Some? ==> r.value.index < |qs| && qs[r.value.index] in m
    ensures r.Some? ==> r.value.handle == m[qs[r.value.index]]
    ensures r.Some? ==> forall j :: 0 <= j < r.value.index ==> qs[j] !in m
    ensures r.None? ==> forall j :: 0 <= j < |qs| ==> qs[j] !in m
  {
    if qs == [] then None
    else if qs[0] in m then Some(Hit(0, m[qs[0]]))
    else match FirstHit(m, qs[1..])
      case None => None
      case Some(h) => Some(Hit(h.index + 1, h.handle))
  }

  /** The first selector of a list that `trySelector` resolves. */
  function FirstVisible(page: Page, selectors: seq<string>): (r: Option<Hit>)
    ensures r.Some? ==> r.value.index < |selectors|
    ensures r.Some? ==> TrySelector(page, selectors[r.value.index]) == Some(r.value.handle)
    decreases |selectors|
  {
    if selectors == [] then None
    else match TrySelector(page, selectors[0])
      case Some(h) => Some(Hit(0, h))
      case None =>
        match FirstVisible(page, selectors[1..])
        case None => None
        case Some(h) => Some(Hit(h.index + 1, h.handle))
  }

  /** Every selector before the one found, or every selector when none is,
      resolves to nothing. */
  lemma {:induction false} FirstVisibleFirst(page: Page, selectors: seq<string>)
    ensures var r := FirstVisible(page, selectors);
      && (r.Some? ==> forall j :: 0 <= j < r.value.index ==> TrySelector(page, selectors[j]).None?)
      && (r.None? ==> forall j :: 0 <= j < |selectors| ==> TrySelector(page, selectors[j]).None?)
    decreases |selectors|
  {
    if selectors != [] && TrySelector(page, selectors[0]).None? {
      FirstVisibleFirst(page, selectors[1..]);
      assert forall j :: 1 <= j < |selectors| ==> selectors[j] == selectors[1..][j - 1];
    }
  }

  /** `FirstVisible` is determined by the first selector that resolves. */
  lemma {:induction false} FirstVisibleAt(page: Page, selectors: seq<string>, i: nat)
    requires i < |selectors| && TrySelector(page, selectors[i]).Some?
    requires forall j :: 0 <= j < i ==> TrySelector(page, selectors[j]).None?
    ensures FirstVisible(page, selectors) == Some(Hit(i, TrySelector(page, selectors[i]).value))
    decreases i
  {
    if i > 0 {
      assert TrySelector(page, selectors[0]).None?;
      assert forall j :: 0 <= j < i - 1 ==> selectors[1..][j] == selectors[j + 1];
      FirstVisibleAt(page, selectors[1..], i - 1);
    }
  }

  /** Probing the queries one after another and stopping at the first
      answer finds exactly `FirstHit`. */
  method ProbeInOrder(m: map<string, Handle>, qs: seq<string>) returns (r: Option<Hit>)
    ensures r == FirstHit(m, qs)
  {
    var i := 0;
    while i < |qs|
      invariant 0 <= i <= |qs|
      invariant forall j :: 0 <= j < i ==> qs[j] !in m
    {
      if qs[i] in m {
        FirstHitAt(m, qs, i);
        return Some(Hit(i, m[qs[i]]));
      }
      i := i + 1;
    }
    r := None;
  }

  /** `FirstHit` is determined by the first query the map answers. */
  lemma {:induction false} FirstHitAt(m: map<string, Handle>, qs: seq<string>, i: nat)
    requires i < |qs| && qs[i] in m
    requires forall j :: 0 <= j < i ==> qs[j] !in m
    ensures FirstHit(m, qs) == Some(Hit(i, m[qs[i]]))
  {
    if i > 0 {
      FirstHitAt(m, qs[1..], i - 1);
    }
  }

  /** `trySelector` over a list of selectors, stopping at the first element
      found: the loop `findUsingAI` and the self-healing code run. */
  method TrySelectorsInOrder(page: Page, selectors: seq<string>) returns (r: Option<Hit>)
    ensures r == FirstVisible(page, selectors)
  {
    var i := 0;
    while i < |selectors|
      invariant 0 <= i <= |selectors|
      invariant forall j :: 0 <= j < i ==> TrySelector(page, selectors[j]).None?
    {
      var element := TrySelector(page, selectors[i]);
      if element.Some? {
        FirstVisibleAt(page, selectors, i);
        return Some(Hit(i, element.value));
      }
      i := i + 1;
    }
    FirstVisibleNone(page, selectors);
    r := None;
  }

  /** Nothing is found when no selector resolves. */
  lemma {:induction false} FirstVisibleNone(page: Page, selectors: seq<string>)
    requires forall j :: 0 <= j < |selectors| ==> TrySelector(page, selectors[j]).None?
    ensures FirstVisible(page, selectors).None?
    decreases |selectors|
  {
    if selectors != [] {
      assert forall j :: 0 <= j < |selectors| - 1 ==> selectors[1..][j] == selectors[j + 1];
      FirstVisibleNone(page, selectors[1..]);
    }
  }
}
