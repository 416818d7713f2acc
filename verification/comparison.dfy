/**
 * The "data enrichment" part of the API-versus-scrape comparison: the keys
 * of the API building dictionary and the keys of the scraped official
 * tab's `specific_data` are split into common, API-only and scraped-only
 * field sets.
 */
module Comparison {
  import opened Wrappers
  import opened Extractor
  import opened Content
  import opened Tabs

  /** The keys of the building dictionary built from the API attributes. */
  const ApiKeys: set<string> := {
    "name", "grade", "list_entry", "list_date", "amend_date",
    "capture_scale", "hyperlink", "ngr", "easting", "northing"}

  /** The fifteen keys of the listing-field dictionary. */
  const RecordKeys: set<string> := {
    "grade", "list_entry", "list_date", "description", "history",
    "architectural_details", "reasons_for_listing", "location", "coordinates",
    "address", "materials", "construction_period", "architectural_style",
    "interior_features", "exterior_features"}

  /** `common_fields`, `api_only` and `scraped_only`. */
  datatype FieldSets = FieldSets(common: set<string>, apiOnly: set<string>, scrapedOnly: set<string>)

  /** The three field sets, by intersection and the two differences. */
  function Partition(api: set<string>, scraped: set<string>): (p: FieldSets)
    ensures p.common !! p.apiOnly && p.common !! p.scrapedOnly && p.apiOnly !! p.scrapedOnly
    ensures p.common + p.apiOnly + p.scrapedOnly == api + scraped
    ensures p.common + p.apiOnly == api && p.common + p.scrapedOnly == scraped
  {
    FieldSets(api * scraped, api - scraped, scraped - api)
  }

  /** The keys of a `specific_data` value: `{}` has none. */
  function KeysOf(data: Option<Record>): set<string>
  {
    if data.Some? then RecordKeys else {}
  }

  /**
   * `scraped_fields` as written: the `official_list_entry` key is always
   * present in `tab_content`, so the guard always passes, and reading
   * `specific_data` from a slot that still holds `{}` raises `KeyError`.
   */
  function ScrapedFieldsAsWritten(all: AllContent<Record>): Result<set<string>, string>
  {
    match all.official
    case None => Err("KeyError: 'specific_data'")
    case Some(c) => Ok(KeysOf(c.specificData))
  }

  /** `scraped_fields` when a slot still holding `{}` contributes no keys, as the printing code above it assumes. */
  function ScrapedFields(all: AllContent<Record>): (r: set<string>)
    ensures all.official.None? ==> r == {}
    ensures ScrapedFieldsAsWritten(all).Ok? ==> r == ScrapedFieldsAsWritten(all).value
  {
    if all.official.Some? then KeysOf(all.official.value.specificData) else {}
  }

  /** The enrichment comparison for a building and what its page yielded. */
  function CompareFields(api: set<string>, all: AllContent<Record>): (p: FieldSets)
    ensures p.common + p.apiOnly + p.scrapedOnly == api + ScrapedFields(all)
    ensures all.official.None? ==> p == FieldSets({}, api, {})
  {
    Partition(api, ScrapedFields(all))
  }

  // ---------------------------------------------------------------------
  // The official slot of a scrape

  /**
   * Whatever the richer scrapers store in the official slot carries the
   * listing fields: only tabs whose names mark them official are routed
   * there, and exactly those get `specific_data`.
   */
  lemma {:induction false} OfficialSlotHasData(all0: AllContent<Record>, tabs: seq<FoundTab>, open: string -> Option<Page>)
    requires all0.official.Some? ==> all0.official.value.specificData.Some?
    ensures var all := Visit(all0, tabs, open, TabContent, RouteTab);
      all.official.Some? ==> all.official.value.specificData.Some?
  {
    if |tabs| > 0 {
      var t := tabs[|tabs| - 1];
      OfficialSlotHasData(all0, tabs[..|tabs| - 1], open);
      if open(t.text).Some? && RouteTab(t.text) == OfficialSlot {
        RoutingFacts(t.text);
        SpecificDataOnlyForOfficial(open(t.text).value, t.text, t.text);
      }
    }
  }

  /** After a scrape, the scraped fields are the fifteen listing keys exactly when an official tab was stored. */
  lemma ScrapedFieldsOfScrape(overviewPage: Page, find: string -> Option<seq<Probe>>, open: string -> Option<Page>)
    ensures var all := Scraped(overviewPage, find, open);
      && (all.official.Some? ==> ScrapedFields(all) == RecordKeys)
      && (all.official.None? ==> ScrapedFields(all) == {})
  {
    var start := AllContent(TabContent(overviewPage, "Overview"), None, None, [], []);
    OfficialSlotHasData(start, Discovered(TabLabels, ElementTags, find), open);
  }

  /**
   * With an official tab stored, the API and the page share exactly the
   * grade, list entry and list date; every other key is on one side only.
   */
  lemma EnrichmentWithOfficialTab()
    ensures Partition(ApiKeys, RecordKeys).common == {"grade", "list_entry", "list_date"}
  {
    assert ApiKeys * RecordKeys == {"grade", "list_entry", "list_date"};
  }

  // ---------------------------------------------------------------------
  // A page without tabs

  /** Every label search on a page where no XPath matches anything finds nothing. */
  lemma {:induction false} NothingToFind(find: string -> Option<seq<Probe>>, tabLabel: string, tags: seq<string>, x: nat)
    requires forall xpath :: find(xpath) == Some([])
    ensures LookFor(find, tabLabel, tags, x) == Miss
    decreases |tags| - x
  {
    if x < |tags| {
      NothingToFind(find, tabLabel, tags, x + 1);
    }
  }

  /**
   * A listing page with no tab element: discovery finds nothing, the
   * official slot keeps `{}`, and the comparison as written raises instead
   * of reporting the API fields alone.
   */
  lemma NoTabsRaises(overviewPage: Page, find: string -> Option<seq<Probe>>, open: string -> Option<Page>)
    requires forall xpath :: find(xpath) == Some([])
    ensures ScrapedFieldsAsWritten(Scraped(overviewPage, find, open)).Err?
    ensures CompareFields(ApiKeys, Scraped(overviewPage, find, open)) == FieldSets({}, ApiKeys, {})
  {
    var found := Discovered(TabLabels, ElementTags, find);
    if |found| > 0 {
      CollectMembers(TabLabels, Located(find, ElementTags), AsFound(find, ElementTags), found[0]);
      var i :| 0 <= i < |TabLabels| && Located(find, ElementTags)(TabLabels[i]) && AsFound(find, ElementTags)(TabLabels[i]) == found[0];
      NothingToFind(find, TabLabels[i], ElementTags, 0);
      assert false;
    }
  }
}
