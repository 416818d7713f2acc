/**
 * Tab discovery and routing in the tab-aware scrapers.  The browser is an
 * oracle: `find` gives what `driver.find_elements` returns for an XPath
 * (`None` when the call raises), each element being usable (displayed and
 * enabled), unusable, or raising when probed; `open` gives the page a tab
 * shows once clicked (`None` when clicking or extracting raises).
 */
module Tabs {
  import opened Wrappers
  import opened Text
  import opened Extractor
  import opened LegacyExtractor
  import opened Content

  /** An element `find_elements` returned, as `is_displayed() and is_enabled()` sees it. */
  datatype Probe = Usable(tag: string) | Unusable | Raises

  /** The outcome of looking for one tab label. */
  datatype Lookup = Hit(tag: string) | Miss | Crash

  /** An entry of `found_tabs`: the label searched for and the element's tag name. */
  datatype FoundTab = FoundTab(text: string, tag: string)

  /** Where a clicked tab's content is stored. */
  datatype Slot = OverviewSlot | OfficialSlot | CommentsSlot | NoSlot

  /** The `all_content` dictionary; the official and comments slots are `None` while they hold `{}`. */
  datatype AllContent<R> = AllContent(
    overview: Content<R>,
    official: Option<Content<R>>,
    comments: Option<Content<R>>,
    tabsFound: seq<string>,
    tabsClicked: seq<string>)

  const TabLabels: seq<string> := ["Official List Entry", "Comments", "Photos"]
  const LegacyTabLabels: seq<string> := ["Overview", "Official List Entry", "Comments", "Photos"]
  const ElementTags: seq<string> := ["button", "div", "a", "span"]
  const LegacyElementTags: seq<string> := ["button", "div", "a", "span", "*"]

  /** `//<tag>[contains(text(), '<text>')]` */
  function XPath(tag: string, text: string): string
  {
    "//" + tag + "[contains(text(), '" + text + "')]"
  }

  // ---------------------------------------------------------------------
  // Discovery

  /** Scanning the elements of one XPath: the first usable one, unless probing an earlier one raises. */
  function ScanElements(es: seq<Probe>): (r: Lookup)
    ensures r.Hit? ==> Usable(r.tag) in es
  {
    if |es| == 0 then Miss
    else match es[0]
      case Usable(t) => Hit(t)
      case Raises => Crash
      case Unusable => ScanElements(es[1..])
  }

  /** Trying the XPaths for `label` in order, from the `x`-th: the first that yields a usable element. */
  function LookFor(find: string -> Option<seq<Probe>>, tabLabel: string, tags: seq<string>, x: nat): Lookup
    decreases |tags| - x
  {
    if x >= |tags| then Miss
    else match find(XPath(tags[x], tabLabel))
      case None => Crash
      case Some(es) =>
        match ScanElements(es)
        case Miss => LookFor(find, tabLabel, tags, x + 1)
        case r => r
  }

  function Located(find: string -> Option<seq<Probe>>, tags: seq<string>): string -> bool
  {
    tabLabel => LookFor(find, tabLabel, tags, 0).Hit?
  }

  function AsFound(find: string -> Option<seq<Probe>>, tags: seq<string>): string -> FoundTab
  {
    tabLabel => FoundTab(tabLabel, match LookFor(find, tabLabel, tags, 0) case Hit(t) => t case _ => "")
  }

  /** `found_tabs`: one entry for each label, in label order, for which some XPath yields a usable element. */
  function Discovered(labels: seq<string>, tags: seq<string>, find: string -> Option<seq<Probe>>): seq<FoundTab>
  {
    Collect(labels, Located(find, tags), AsFound(find, tags))
  }

  /** The element loop of one XPath. */
  method FirstUsable(es: seq<Probe>) returns (r: Lookup)
    ensures r == ScanElements(es)
  {
    var i := 0;
    while i < |es|
      invariant 0 <= i <= |es|
      invariant ScanElements(es) == ScanElements(es[i..])
    {
      assert es[i..][1..] == es[i + 1..];
      match es[i]
      case Usable(t) => return Hit(t);
      case Raises => return Crash;
      case Unusable =>
      i := i + 1;
    }
    return Miss;
  }

  /**
   * The XPath loop for one label; it stops at the first XPath that yields
   * an element (the `any(...)` test, which holds exactly then because the
   * labels are distinct) or at the first exception.
   */
  method LookForLabel(find: string -> Option<seq<Probe>>, tabLabel: string, tags: seq<string>) returns (r: Lookup)
    ensures r == LookFor(find, tabLabel, tags, 0)
  {
    var x := 0;
    while x < |tags|
      invariant 0 <= x <= |tags|
      invariant LookFor(find, tabLabel, tags, 0) == LookFor(find, tabLabel, tags, x)
    {
      var elements := find(XPath(tags[x], tabLabel));
      if elements.None? {
        return Crash;
      }
      var scan := FirstUsable(elements.value);
      if !scan.Miss? {
        return scan;
      }
      x := x + 1;
    }
    return Miss;
  }

  /** The label loop of tab discovery. */
  method DiscoverTabs(labels: seq<string>, tags: seq<string>, find: string -> Option<seq<Probe>>) returns (found: seq<FoundTab>)
    ensures found == Discovered(labels, tags, find)
  {
    found := [];
    for i := 0 to |labels|
      invariant found == Collect(labels[..i], Located(find, tags), AsFound(find, tags))
    {
      CollectStep(labels, i, Located(find, tags), AsFound(find, tags));
      var r := LookForLabel(find, labels[i], tags);
      if r.Hit? {
        found := found + [FoundTab(labels[i], r.tag)];
      }
    }
    assert labels[..|labels|] == labels;
  }

  /** A label is found only through a usable element that one of its XPaths returned. */
  lemma {:induction false} LookForUsable(find: string -> Option<seq<Probe>>, tabLabel: string, tags: seq<string>, x: nat)
    ensures var r := LookFor(find, tabLabel, tags, x);
      r.Hit? ==> exists y :: x <= y < |tags| && find(XPath(tags[y], tabLabel)).Some? && Usable(r.tag) in find(XPath(tags[y], tabLabel)).value
    decreases |tags| - x
  {
    if x < |tags| {
      LookForUsable(find, tabLabel, tags, x + 1);
    }
  }

  /**
   * Every found tab carries a label searched for and the tag of a displayed
   * and enabled element returned for that label; labels are found in label
   * order, each at most once when the labels are distinct.
   */
  lemma {:induction false} DiscoveredTabs(labels: seq<string>, tags: seq<string>, find: string -> Option<seq<Probe>>)
    requires NoDuplicates(labels)
    ensures var found := Discovered(labels, tags, find);
      && |found| <= |labels|
      && (forall k :: 0 <= k < |found| ==> found[k].text in labels && LookFor(find, found[k].text, tags, 0) == Hit(found[k].tag))
      && (forall a, b :: 0 <= a < b < |found| ==> found[a].text != found[b].text)
  {
    var found := Discovered(labels, tags, find);
    CollectLength(labels, Located(find, tags), AsFound(find, tags));
    if |labels| > 0 {
      var init := labels[..|labels| - 1];
      assert NoDuplicates(init) by {
        forall a, b | 0 <= a < b < |init| ensures init[a] != init[b] { assert init[a] == labels[a] && init[b] == labels[b]; }
      }
      DiscoveredTabs(init, tags, find);
      var before := Discovered(init, tags, find);
      var last := labels[|labels| - 1];
      forall k | 0 <= k < |before|
        ensures before[k].text != last
      {
        CollectMembers(init, Located(find, tags), AsFound(find, tags), before[k]);
        var i :| 0 <= i < |init| && Located(find, tags)(init[i]) && AsFound(find, tags)(init[i]) == before[k];
        assert init[i] == labels[i];
      }
      forall k | 0 <= k < |found|
        ensures found[k].text in labels && LookFor(find, found[k].text, tags, 0) == Hit(found[k].tag)
      {
        CollectMembers(labels, Located(find, tags), AsFound(find, tags), found[k]);
      }
    }
  }

  // ---------------------------------------------------------------------
  // Routing

  /** The richer scrapers' routing: official or list entry first, then comments or photos. */
  function RouteTab(name: string): Slot
  {
    if Contains(Lower(name), "official") || Contains(Lower(name), "list entry") then OfficialSlot
    else if Contains(Lower(name), "comment") || Contains(Lower(name), "photo") then CommentsSlot
    else NoSlot
  }

  /** The detailed scraper's routing: an overview tab first, then as the richer scrapers. */
  function LegacyRouteTab(name: string): Slot
  {
    if Contains(Lower(name), "overview") then OverviewSlot else RouteTab(name)
  }

  /**
   * A tab goes to the official slot exactly when its content carries
   * building-specific data; the richer scrapers never overwrite the
   * overview, and the two routings differ only on names mentioning
   * "overview".
   */
  lemma RoutingFacts(name: string)
    ensures RouteTab(name) == OfficialSlot <==> IsOfficialTab(name)
    ensures RouteTab(name) != OverviewSlot
    ensures !Contains(Lower(name), "overview") ==> LegacyRouteTab(name) == RouteTab(name)
    ensures LegacyRouteTab(name) == OfficialSlot ==> IsOfficialTab(name)
  {
  }

  /** Storing a tab's content in its slot. */
  function Store<R>(all: AllContent<R>, slot: Slot, c: Content<R>): AllContent<R>
  {
    match slot
    case OverviewSlot => all.(overview := c)
    case OfficialSlot => all.(official := Some(c))
    case CommentsSlot => all.(comments := Some(c))
    case NoSlot => all
  }

  /**
   * The state after clicking through `tabs`: each tab that opens is added to
   * `tabs_clicked` and its content stored in the slot its label routes to.
   */
  function Visit<R>(all: AllContent<R>, tabs: seq<FoundTab>, open: string -> Option<Page>,
                    content: (Page, string) -> Content<R>, route: string -> Slot): AllContent<R>
  {
    if |tabs| == 0 then all
    else
      var prev := Visit(all, tabs[..|tabs| - 1], open, content, route);
      var t := tabs[|tabs| - 1];
      match open(t.text)
      case None => prev
      case Some(page) => Store(prev.(tabsClicked := prev.tabsClicked + [t.text]), route(t.text), content(page, t.text))
  }

  lemma VisitStep<R>(all: AllContent<R>, tabs: seq<FoundTab>, i: nat, open: string -> Option<Page>,
                     content: (Page, string) -> Content<R>, route: string -> Slot)
    requires i < |tabs|
    ensures var prev := Visit(all, tabs[..i], open, content, route);
      Visit(all, tabs[..i + 1], open, content, route) ==
        match open(tabs[i].text)
        case None => prev
        case Some(page) => Store(prev.(tabsClicked := prev.tabsClicked + [tabs[i].text]), route(tabs[i].text), content(page, tabs[i].text))
  {
    assert tabs[..i + 1][..i] == tabs[..i];
  }

  function Opens(open: string -> Option<Page>): FoundTab -> bool { (t: FoundTab) => open(t.text).Some? }

  function TextOf(t: FoundTab): string { t.text }

  /** `tabs_clicked` gains the labels of the tabs that opened, in the order they were clicked. */
  lemma {:induction false} VisitClicked<R>(all: AllContent<R>, tabs: seq<FoundTab>, open: string -> Option<Page>,
                                           content: (Page, string) -> Content<R>, route: string -> Slot)
    ensures Visit(all, tabs, open, content, route).tabsClicked == all.tabsClicked + Collect(tabs, Opens(open), TextOf)
    ensures Visit(all, tabs, open, content, route).tabsFound == all.tabsFound
  {
    if |tabs| > 0 {
      VisitClicked(all, tabs[..|tabs| - 1], open, content, route);
    }
  }

  /** Whether tab `t` opens and routes to `slot`. */
  predicate LandsIn(t: FoundTab, open: string -> Option<Page>, route: string -> Slot, slot: Slot)
  {
    open(t.text).Some? && route(t.text) == slot
  }

  /** A slot no opened tab routes to keeps what it held. */
  lemma {:induction false} VisitUntouched<R>(all: AllContent<R>, tabs: seq<FoundTab>, open: string -> Option<Page>,
                                             content: (Page, string) -> Content<R>, route: string -> Slot)
    ensures (forall k :: 0 <= k < |tabs| ==> !LandsIn(tabs[k], open, route, OfficialSlot)) ==>
      Visit(all, tabs, open, content, route).official == all.official
    ensures (forall k :: 0 <= k < |tabs| ==> !LandsIn(tabs[k], open, route, CommentsSlot)) ==>
      Visit(all, tabs, open, content, route).comments == all.comments
  {
    if |tabs| > 0 {
      VisitUntouched(all, tabs[..|tabs| - 1], open, content, route);
    }
  }

  /**
   * The official slot holds the content of the last tab that opened and
   * routed there: a later tab of another kind leaves it alone.
   */
  lemma {:induction false} OfficialIsLast<R>(all: AllContent<R>, tabs: seq<FoundTab>, k: nat, open: string -> Option<Page>,
                                             content: (Page, string) -> Content<R>, route: string -> Slot)
    requires k < |tabs| && LandsIn(tabs[k], open, route, OfficialSlot)
    requires forall j :: k < j < |tabs| ==> !LandsIn(tabs[j], open, route, OfficialSlot)
    ensures Visit(all, tabs, open, content, route).official == Some(content(open(tabs[k].text).value, tabs[k].text))
  {
    if k < |tabs| - 1 {
      var init := tabs[..|tabs| - 1];
      assert init[k] == tabs[k];
      forall j | k < j < |init| ensures !LandsIn(init[j], open, route, OfficialSlot) {
        assert init[j] == tabs[j];
      }
      OfficialIsLast(all, init, k, open, content, route);
    } else {
      assert tabs[..|tabs| - 1] == tabs[..k];
    }
  }

  // ---------------------------------------------------------------------
  // Clicking through the tabs

  /** The clicking loop of the richer scrapers. */
  method VisitTabs(all0: AllContent<Record>, tabs: seq<FoundTab>, open: string -> Option<Page>) returns (all: AllContent<Record>)
    ensures all == Visit(all0, tabs, open, TabContent, RouteTab)
  {
    all := all0;
    for i := 0 to |tabs|
      invariant all == Visit(all0, tabs[..i], open, TabContent, RouteTab)
    {
      VisitStep(all0, tabs, i, open, TabContent, RouteTab);
      var page := open(tabs[i].text);
      if page.Some? {
        var text := tabs[i].text;
        var c := ExtractTabContent(page.value, text);
        all := all.(tabsClicked := all.tabsClicked + [text]);
        if Contains(Lower(text), "official") || Contains(Lower(text), "list entry") {
          all := all.(official := Some(c));
        } else if Contains(Lower(text), "comment") || Contains(Lower(text), "photo") {
          all := all.(comments := Some(c));
        }
      }
    }
    assert tabs[..|tabs|] == tabs;
  }

  /** The clicking loop of the detailed scraper. */
  method LegacyVisitTabs(all0: AllContent<LegacyRecord>, tabs: seq<FoundTab>, open: string -> Option<Page>) returns (all: AllContent<LegacyRecord>)
    ensures all == Visit(all0, tabs, open, LegacyTabContent, LegacyRouteTab)
  {
    all := all0;
    for i := 0 to |tabs|
      invariant all == Visit(all0, tabs[..i], open, LegacyTabContent, LegacyRouteTab)
    {
      VisitStep(all0, tabs, i, open, LegacyTabContent, LegacyRouteTab);
      var page := open(tabs[i].text);
      if page.Some? {
        var text := tabs[i].text;
        var c := LegacyExtractTabContent(page.value, text);
        all := all.(tabsClicked := all.tabsClicked + [text]);
        if Contains(Lower(text), "overview") {
          all := all.(overview := c);
        } else if Contains(Lower(text), "official") || Contains(Lower(text), "list entry") {
          all := all.(official := Some(c));
        } else if Contains(Lower(text), "comment") || Contains(Lower(text), "photo") {
          all := all.(comments := Some(c));
        }
      }
    }
    assert tabs[..|tabs|] == tabs;
  }

  /** What the richer scrapers collect: `tabs_found` stays empty there. */
  function Scraped(overviewPage: Page, find: string -> Option<seq<Probe>>, open: string -> Option<Page>): AllContent<Record>
  {
    var start := AllContent(TabContent(overviewPage, "Overview"), None, None, [], []);
    Visit(start, Discovered(TabLabels, ElementTags, find), open, TabContent, RouteTab)
  }

  /** What the detailed scraper collects, with `tabs_found` listing the labels found. */
  function LegacyScraped(overviewPage: Page, find: string -> Option<seq<Probe>>, open: string -> Option<Page>): AllContent<LegacyRecord>
  {
    var found := Discovered(LegacyTabLabels, LegacyElementTags, find);
    var start := AllContent(LegacyTabContent(overviewPage, "Overview"), None, None, Labels(found), []);
    Visit(start, found, open, LegacyTabContent, LegacyRouteTab)
  }

  function Labels(found: seq<FoundTab>): (r: seq<string>)
    ensures |r| == |found| && forall k :: 0 <= k < |found| ==> r[k] == found[k].text
  {
    seq(|found|, k requires 0 <= k < |found| => found[k].text)
  }

  /** The tab part of `scrape_with_tabs`, with `tabs_processed`. */
  method ScrapeWithTabs(overviewPage: Page, find: string -> Option<seq<Probe>>, open: string -> Option<Page>)
    returns (all: AllContent<Record>, processed: nat)
    ensures all == Scraped(overviewPage, find, open)
    ensures processed == |all.tabsClicked|
  {
    var overview := ExtractTabContent(overviewPage, "Overview");
    all := AllContent(overview, None, None, [], []);
    var found := DiscoverTabs(TabLabels, ElementTags, find);
    all := VisitTabs(all, found, open);
    processed := |all.tabsClicked|;
  }

  /** The tab part of the detailed scraper's `scrape_building_details`. */
  method LegacyScrapeWithTabs(overviewPage: Page, find: string -> Option<seq<Probe>>, open: string -> Option<Page>)
    returns (all: AllContent<LegacyRecord>, processed: nat)
    ensures all == LegacyScraped(overviewPage, find, open)
    ensures processed == |all.tabsClicked|
  {
    var overview := LegacyExtractTabContent(overviewPage, "Overview");
    all := AllContent(overview, None, None, [], []);
    var found := DiscoverTabs(LegacyTabLabels, LegacyElementTags, find);
    all := all.(tabsFound := Labels(found));
    all := LegacyVisitTabs(all, found, open);
    processed := |all.tabsClicked|;
  }

  /**
   * `tabs_processed` counts the discovered tabs that opened, so it never
   * exceeds the number of labels; `tabs_found` is the discovered labels.
   */
  lemma ScrapedCounts(overviewPage: Page, find: string -> Option<seq<Probe>>, open: string -> Option<Page>)
    ensures |Scraped(overviewPage, find, open).tabsClicked| <= |TabLabels|
    ensures Scraped(overviewPage, find, open).tabsFound == []
    ensures |LegacyScraped(overviewPage, find, open).tabsClicked| <= |LegacyTabLabels|
    ensures LegacyScraped(overviewPage, find, open).tabsFound == Labels(Discovered(LegacyTabLabels, LegacyElementTags, find))
  {
    var found := Discovered(TabLabels, ElementTags, find);
    var start := AllContent(TabContent(overviewPage, "Overview"), None, None, [], []);
    VisitClicked(start, found, open, TabContent, RouteTab);
    CollectLength(found, Opens(open), TextOf);
    CollectLength(TabLabels, Located(find, ElementTags), AsFound(find, ElementTags));
    var lfound := Discovered(LegacyTabLabels, LegacyElementTags, find);
    var lstart := AllContent(LegacyTabContent(overviewPage, "Overview"), None, None, Labels(lfound), []);
    VisitClicked(lstart, lfound, open, LegacyTabContent, LegacyRouteTab);
    CollectLength(lfound, Opens(open), TextOf);
    CollectLength(LegacyTabLabels, Located(find, LegacyElementTags), AsFound(find, LegacyElementTags));
  }
}
