# Historic England scraper — a verified model of its data-processing core

The scraper gathers data about listed buildings from the Historic England
website and its REST service. Most of it drives a browser, calls the
service, writes SQLite rows and prints reports. This project models the
logic that sits between those calls, in Dafny, and proves what that logic
guarantees.

- **Listing-field extractor** (`extractor.dfy`, `patterns.dfy`). This is
  `_extract_building_specific_data`, which also appears as an identical copy
  in the API comparison script.
  - It takes the text nodes of a list-entry page in document order, and
    the texts of its `<p>` elements.
  - It fills a fifteen-key record. `grade`, `list_entry` and `coordinates`
    each come from an ordered chain of regular expressions: the first pattern
    in list order that matches some node wins, and in that pattern the first
    node in document order wins.
  - It then takes the first paragraph longer than 100 characters that
    mentions at least three of twenty keywords. From it come
    `architectural_details`, `materials` (fixed-order tags) and
    `construction_period` (another pattern chain).
  - Each regular expression is a hand-written matcher with Python's
    leftmost, greedy, back-tracking semantics under `re.IGNORECASE`.
- **Older extractor** (`legacy_extractor.dfy`). This is the ten-key version
  of the detailed scraper. It uses fourteen keywords and sets only
  `architectural_details` from the paragraph.
- **Element filters and tab handling** (`content.dfy`, `tabs.dfy`).
  - Headings, paragraphs, images and links are filtered, and relative URLs
    are made absolute.
  - `specific_data` is computed only for official tabs.
  - Tab discovery keeps at most one usable element per label. Tab routing
    sends each clicked tab's content to the overview, official or comments
    slot.
  - The browser is an oracle: which elements an XPath finds, and which page a
    click shows.
- **UPRN scanners** (`uprn.dfy`). These are `search_for_uprn_patterns` and
  the batch comparison's scanner: ordered `re.findall` passes, captures of at
  least eight characters, duplicates removed, and (batch) sorting. The batch
  analysis counts are modelled too.
- **API-versus-scrape field comparison** (`comparison.dfy`). It splits field
  names into common, API-only and scraped-only sets.
- **Batch loop of the database scraper** (`batches.dfy`).
  - Ceiling-division batch count, and per-batch ranges clipped to the last
    record.
  - The resume offset, taken from the progress log.
  - The `fetch_batch` result contract.
  - `scrape_all` over a `Database` class that holds the progress rows and the
    inserted buildings, with its success, error and processed counters.

Resuming starts at the largest `batch_end` of a completed row. That record
was already covered, so it is fetched a second time; `ResumeOffsetFacts`
states this as it is written.

## Model

| member | source | states |
|---|---|---|
| `Text.Lower` | shared/scraper.py:486 | `str.lower()` keeps the length and lowers exactly the ASCII capitals |
| `Text.Strip` | shared/scraper.py:483 | `str.strip()` gives the infix left after removing only leading and trailing whitespace, and that infix neither starts nor ends with whitespace |
| `Text.StripIdempotent` | shared/scraper.py:483 | stripping a stripped text changes nothing |
| `Patterns.RunIsMaximal` | shared/scraper.py:432 | a greedy character-class run consumes every matching character and stops at the first that does not match |
| `Patterns.GreedyDigitsFacts` | shared/scraper.py:531 | a `\d{lo,hi}` group takes only digits, at most `hi` of them, and fails exactly when fewer than `lo` digits follow |
| `Patterns.GradeAfterShape` | shared/scraper.py:431 | a `Grade\s+([I2*]+)` match lies inside the text, and group 1 is a non-empty run over I, 2, * in either case |
| `Patterns.GradeColonShape` | shared/scraper.py:432 | the same for `Grade\s*:\s*([I2*]+)` |
| `Patterns.GradeBeforeShape` | shared/scraper.py:433 | the same for `([I2*]+)\s*Grade` |
| `Patterns.LabelThenDigitsShape` | shared/scraper.py:446-447 | a `Label<gap>(\d{lo,hi})` match lies inside the text, and group 1 is all digits with between `lo` and `hi` of them |
| `Patterns.DigitsThenLabelShape` | shared/scraper.py:504-505 | a `(\d+)th century` or `(\d+)th-century` match captures a non-empty run of digits |
| `Patterns.FirstGroupFromShape` | shared/scraper.py:461 | backing off the first `\d{4,6}` of a grid reference tries 6, 5, then 4 digits, and the split found is two well-formed groups |
| `Patterns.GridTailShape` | shared/scraper.py:461 | the tail `\s?\d{4,6}\s?\d{4,6}` found by the back-tracking search is two groups of 4-6 digits, each with an optional leading space |
| `Patterns.CoordinateEndShape` | shared/scraper.py:461 | a coordinate capture is two letters followed by that tail |
| `Patterns.GridRefShape` | shared/scraper.py:461-463 | a grid-reference match captures a value of coordinate shape |
| `Patterns.MentionShape` | batch_comparison.py:141 | `UPRN|Unique Property Reference` matches one of its two alternatives, in either case |
| `Patterns.MatchAtShape` | shared/scraper.py:437 | the match attempted at one position lies inside the text, and its capture has the pattern's capture shape |
| `Patterns.SearchFromShape` | shared/scraper.py:437 | `re.search` returns group 1 as a slice of the subject, with the pattern's capture shape |
| `Patterns.SearchFromIsLeftmost` | shared/scraper.py:437 | `re.search` returns the leftmost position where an attempt succeeds, and every earlier attempt fails |
| `Patterns.SearchFromNone` | shared/scraper.py:437 | `re.search` finds nothing exactly when the attempt at every position fails |
| `Patterns.FindAllShapes` | shared/scraper.py:534 | every string `re.findall` returns has the pattern's capture shape |
| `Patterns.FindAllSlices` | shared/scraper.py:534 | every string `re.findall` returns occurs in the text |
| `Patterns.DigitSliceGivesRun` | shared/scraper.py:536 | a digit string of length n occurring in a text means the text has a run of n digits |
| `Extractor.Find` | shared/scraper.py:437 | `soup.find(string=…)` gives the first text node in document order where the pattern matches, or none when no node matches |
| `Extractor.FirstCaptureNone` | shared/scraper.py:436-442 | a pattern yields nothing exactly when it matches in no text node |
| `Extractor.FirstCaptureShape` | shared/scraper.py:438-441 | a yielded value is group 1 of a match, non-empty and of the pattern's capture shape |
| `Extractor.FirstCaptureSingle` | shared/scraper.py:508-512 | on a single text, a pattern yields group 1 of `re.search` on that text |
| `Extractor.ChainPicksFirstListed` | shared/scraper.py:436-442 | when pattern k is the first in the list that matches some node, the chain returns that pattern's capture |
| `Extractor.ChainNone` | shared/scraper.py:436-442 | a chain yields nothing exactly when no pattern matches any node |
| `Extractor.ChainShape` | shared/scraper.py:436-442 | a chain's value is non-empty and has the capture shape of the pattern it came from |
| `Extractor.ChainValueEmpty` | shared/scraper.py:411-442 | a field filled by a chain stays `''` exactly when no pattern matches |
| `Extractor.RunChain` | shared/scraper.py:436-442 | the `for`/`break` loop over a chain returns the chain's value (also api_vs_scrape_comparison.py:299-305) |
| `Extractor.KeywordHits` | shared/scraper.py:485 | the keyword count is at most the number of keywords |
| `Extractor.KeywordHitsZero` | shared/scraper.py:485 | the count is 0 exactly when no keyword occurs in the lowered text |
| `Extractor.KeywordHitsAppend` | shared/scraper.py:475-485 | counting over two keyword lists adds their counts |
| `Extractor.FirstQualifying` | shared/scraper.py:482-514 | the selected paragraph is one whose stripped text is longer than 100 characters with at least 3 keyword hits, and no earlier paragraph qualifies; with none selected, no paragraph qualifies |
| `Extractor.FirstQualifyingIs` | shared/scraper.py:482-514 | a qualifying paragraph with no qualifying paragraph before it is the one the scan stops at |
| `Extractor.MaterialTable` | shared/scraper.py:490-497 | the four material triggers and the tags they add, in order |
| `Extractor.SelectedTags` | shared/scraper.py:490-497 | the selected materials are strictly increasing positions, and a material is selected exactly when its trigger occurs in the lowered text |
| `Extractor.TagEndsWithSeparator` | shared/scraper.py:491-497 | every material tag ends with `", "` |
| `Extractor.JoinTags` | shared/scraper.py:490-497 | joined tags are empty exactly when none is selected, and otherwise end with `", "` |
| `Extractor.MaterialsAreOrderedTags` | shared/scraper.py:490-497 | the `+=` chain produces the selected tags, in fixed order, each at most once |
| `Extractor.MaterialsShape` | shared/scraper.py:490-497 | `materials` is `''` or ends with `", "`, and equals the ordered tags of the triggers the paragraph mentions |
| `Extractor.RunSearchChain` | shared/scraper.py:508-512 | the period loop returns the first period pattern's capture, in list order, that matches anywhere in the paragraph |
| `Extractor.TakeParagraph` | shared/scraper.py:488-512 | taking a paragraph sets `architectural_details`, appends the materials and sets the period |
| `Extractor.ExtractLabelled` | shared/scraper.py:430-472 | the three chains write `grade`, `list_entry` and `coordinates` only when they find a value |
| `Extractor.ExtractBuildingSpecificData` | shared/scraper.py:409-516 | the method computes the specification `SpecificData`: labelled chains, then the first qualifying paragraph (also api_vs_scrape_comparison.py:272-379) |
| `Extractor.SpecificDataAt` | shared/scraper.py:482-514 | with paragraph i selected, the record is the labelled record with that paragraph taken |
| `Extractor.SpecificDataNone` | shared/scraper.py:482-514 | with no paragraph selected, the record is the labelled record |
| `Extractor.MaterialsUnrolled` | shared/scraper.py:490-497 | the four conditional appends give the same string as the ordered-tag definition |
| `Extractor.LabelledFields` | shared/scraper.py:430-472 | `grade`, `list_entry` and `coordinates` are the three chains' values or `''` |
| `Extractor.GradeChainShape` | shared/scraper.py:430-442 | a chain of grade patterns yields a non-empty run over {I, 2, *}, either case |
| `Extractor.DigitChainShape` | shared/scraper.py:445-457 | a chain of digit patterns yields a non-empty digit string |
| `Extractor.GridChainShape` | shared/scraper.py:460-472 | a chain of grid-reference patterns yields a value of coordinate shape |
| `Extractor.UnwrittenFieldsEmpty` | shared/scraper.py:411-427 | the nine keys no code writes are always `''` |
| `Extractor.GradeChain` | shared/scraper.py:430-442 | the grade is `''` exactly when none of the three patterns matches, and otherwise a run over {I, 2, *} |
| `Extractor.GradeField` | shared/scraper.py:430-442 | the same, for the `grade` field of the returned record |
| `Extractor.EntryChain` | shared/scraper.py:445-457 | the list entry is `''` exactly when no entry pattern matches, and otherwise all digits |
| `Extractor.ListEntryField` | shared/scraper.py:445-457 | the same, for the `list_entry` field of the returned record |
| `Extractor.EntryChainPrefersLabels` | shared/scraper.py:445-457 | when "List Entry" or "Entry" matches anywhere, the value comes from one of them, never from the bare `\d{6,}`, even if a bare number comes earlier |
| `Extractor.LabelledEntryWins` | shared/scraper.py:445-457 | the same, for the `list_entry` field of the returned record |
| `Extractor.CoordinateChain` | shared/scraper.py:460-472 | coordinates are `''` exactly when no label pattern matches, and otherwise two letters, an optional space, 4-6 digits, an optional space and 4-6 digits |
| `Extractor.CoordinatesField` | shared/scraper.py:460-472 | the same, for the `coordinates` field of the returned record |
| `Extractor.ArchitecturalSelection` | shared/scraper.py:475-514 | with a paragraph selected, `architectural_details` is its stripped text (over 100 characters, at least 3 hits), `materials` its tags and `construction_period` its period chain; with none, all three are `''` |
| `Extractor.PeriodDigits` | shared/scraper.py:500-512 | a construction period found is a non-empty digit string |
| `Extractor.PeriodTaken` | shared/scraper.py:508-512 | a non-empty period is the period chain's value on the paragraph |
| `Extractor.PeriodField` | shared/scraper.py:500-514 | a non-empty `construction_period` is all digits, and implies a paragraph was selected |
| `Extractor.KeywordListsNest` | shared/scraper.py:475-480 | the twenty keywords are the older fourteen followed by six more, none repeated |
| `LegacyExtractor.LegacyExtractLabelled` | detailed_scraper.py:297-339 | the older extractor's three chains write the same fields as the richer one |
| `LegacyExtractor.LegacyExtract` | detailed_scraper.py:281-356 | the older extractor computes `LegacyData`: the labelled fields, then the first qualifying paragraph under fourteen keywords, then stop |
| `LegacyExtractor.LegacyFields` | detailed_scraper.py:283-356 | only `grade`, `list_entry`, `coordinates` and `architectural_details` can be non-empty; the last is the first qualifying paragraph's stripped text, longer than 100 characters, or `''` |
| `LegacyExtractor.LegacyAgreesOnLabels` | detailed_scraper.py:297-339 | on every page the older extractor's grade, list entry and coordinates equal the richer extractor's |
| `LegacyExtractor.HitsSplit` | detailed_scraper.py:342-346 | hits among twenty keywords are the fourteen's hits plus the six extra keywords' hits |
| `LegacyExtractor.ExtraOnlyNeverSelected` | detailed_scraper.py:348-354 | a paragraph whose hits all come from timber, slate, thatch, gable, dormer or bay window is never selected by the older extractor |
| `LegacyExtractor.LegacyQualifiesRich` | detailed_scraper.py:348-354 | a paragraph the older extractor would take, the richer one takes too |
| `LegacyExtractor.RichSelectsNoLater` | detailed_scraper.py:348-354 | when the older extractor selects paragraph k, the richer one selects k or an earlier paragraph |
| `Content.CollectMembers` | shared/scraper.py:285-292 | an item is in a filtered list exactly when it is the converted form of a kept input item |
| `Content.CollectLength` | shared/scraper.py:285-292 | filtering never lengthens a list |
| `Content.AbsoluteShape` | shared/scraper.py:308-311 | a URL starting with "/" gets the `https://historicengland.org.uk` prefix, any other is unchanged, and the result never starts with "/" |
| `Content.AbsoluteIdempotent` | shared/scraper.py:308-311 | making a URL absolute twice changes nothing |
| `Content.FilterHeadings` | shared/scraper.py:284-292 | the heading loop keeps, in order, the stripped text of each heading that is non-empty and does not mention "cookie" (also batch_comparison.py:171-178) |
| `Content.FilterParagraphs` | shared/scraper.py:294-302 | the paragraph loop keeps, in order, each stripped paragraph longer than 20 characters without "cookie", with its length (also batch_comparison.py:181-188) |
| `Content.CollectImages` | shared/scraper.py:304-315 | the image loop keeps, in order, each image with a non-empty `src`, made absolute (also batch_comparison.py:204-214) |
| `Content.CollectLinks` | shared/scraper.py:317-328 | the link loop keeps, in order, each link with a non-empty `href` and text, made absolute (also batch_comparison.py:191-201) |
| `Content.HeadingsKept` | shared/scraper.py:287-288 | a heading is kept exactly when it comes from an input heading that passes the test; kept headings are non-empty, stripped and cookie-free |
| `Content.ParagraphsKept` | shared/scraper.py:297-298 | a paragraph is kept exactly when it comes from a passing input; its recorded length is its text's length, over 20 |
| `Content.ImagesAbsolute` | shared/scraper.py:307-311 | an image is kept exactly when it comes from one with a `src`; a kept `src` is non-empty and never relative |
| `Content.LinksAbsolute` | shared/scraper.py:320-324 | a link is kept exactly when it comes from one with `href` and text; a kept `href` is never relative, and its text is non-empty and stripped |
| `Content.ExtractElements` | shared/scraper.py:340-402 | the four loops and the main text give the `Elements` of a page |
| `Content.ExtractContent` | shared/scraper.py:272-338 | `_extract_content` always computes `specific_data` |
| `Content.ExtractTabContent` | shared/scraper.py:340-407 | `_extract_tab_content` gives the tab's `TabContent` (also api_vs_scrape_comparison.py:203-270) |
| `Content.LegacyExtractTabContent` | detailed_scraper.py:212-279 | the detailed scraper's tab content, with the older extractor |
| `Content.SpecificDataOnlyForOfficial` | shared/scraper.py:404-405 | `specific_data` is filled exactly when the lowered tab name contains "official" or "list entry", and the rest of the content does not depend on the name |
| `Tabs.ScanElements` | shared/scraper.py:198-206 | a hit is the tag of a usable element that `find_elements` returned |
| `Tabs.FirstUsable` | shared/scraper.py:198-206 | the element loop stops at the first displayed and enabled element; a probe that raises abandons the label |
| `Tabs.LookForLabel` | shared/scraper.py:188-210 | the XPath loop for one label tries the tags in order and stops at the first usable element |
| `Tabs.DiscoverTabs` | shared/scraper.py:184-210 | discovery gives the `Discovered` list, one entry per label found, in label order |
| `Tabs.LookForUsable` | shared/scraper.py:190-206 | a label found has a usable element among those some XPath for it returned |
| `Tabs.DiscoveredTabs` | shared/scraper.py:184-210 | at most one entry per label, each for a label searched and found, no label twice (also api_vs_scrape_comparison.py:127-152, detailed_scraper.py:126-156) |
| `Tabs.RoutingFacts` | shared/scraper.py:234-237 | a tab goes to the official slot exactly when its content carries `specific_data`; the detailed scraper's routing differs only for names mentioning "overview" (also api_vs_scrape_comparison.py:178-181, detailed_scraper.py:182-187) |
| `Tabs.VisitClicked` | shared/scraper.py:211-242 | `tabs_clicked` gains, in order, the labels of the tabs whose click and extraction did not raise; `tabs_found` is untouched |
| `Tabs.VisitUntouched` | shared/scraper.py:234-237 | a slot that no clicked tab routes to keeps what it held |
| `Tabs.OfficialIsLast` | shared/scraper.py:234-235 | the official slot holds the content of the last clicked tab routed there |
| `Tabs.VisitTabs` | shared/scraper.py:211-242 | the clicking loop gives `Visit` with the richer routing (also api_vs_scrape_comparison.py:156-186) |
| `Tabs.LegacyVisitTabs` | detailed_scraper.py:160-190 | the clicking loop gives `Visit` with the overview-first routing |
| `Tabs.Labels` | detailed_scraper.py:158 | `tabs_found` lists the found tabs' labels, in order |
| `Tabs.ScrapeWithTabs` | shared/scraper.py:170-257 | the overview content, discovery and clicking give `Scraped`, and `tabs_processed` is the number of tabs clicked |
| `Tabs.LegacyScrapeWithTabs` | detailed_scraper.py:108-203 | the same for the detailed scraper, with `tabs_found` recorded |
| `Tabs.ScrapedCounts` | shared/scraper.py:174-257 | `tabs_processed` never exceeds the number of labels; `tabs_found` stays empty in the richer scrapers and lists the discovered labels in the detailed one |
| `Uprn.LongMatches` | shared/scraper.py:535-537 | the inner loop keeps, in order, the captures of length at least 8 |
| `Uprn.AddCandidates` | shared/scraper.py:532-537 | the nested loops append the long captures of every pattern in turn (also batch_comparison.py:134-138) |
| `Uprn.LongMembers` | shared/scraper.py:536-537 | a capture is kept exactly when its length is at least 8 |
| `Uprn.CandidatesMembers` | shared/scraper.py:532-537 | a candidate is exactly a capture of length at least 8 of some pattern of the list |
| `Uprn.CandidatesOfText` | shared/scraper.py:532-537 | the same, for the captures `re.findall` returns on the text |
| `Uprn.CandidatesShape` | shared/scraper.py:520-537 | with digit-capturing patterns, every candidate is a run of at least 8 digits occurring in the text |
| `Uprn.Distinct` | shared/scraper.py:539 | `list(set(found))` has no repeats and the same elements |
| `Uprn.BelowIrreflexive` | batch_comparison.py:154 | no string sorts before itself |
| `Uprn.BelowTransitive` | batch_comparison.py:154 | Python's string order is transitive |
| `Uprn.BelowTotal` | batch_comparison.py:154 | of two different strings, one sorts first |
| `Uprn.Insert` | batch_comparison.py:153-154 | inserting into a strictly ascending list keeps it strictly ascending and adds exactly that element |
| `Uprn.SortedSet` | batch_comparison.py:153-154 | `sorted(set(xs))` is strictly ascending with the elements of `xs` |
| `Uprn.PatternListsNumeric` | shared/scraper.py:520-530 | every UPRN pattern, in both scanners, captures digits only (also batch_comparison.py:123-129) |
| `Uprn.SortedIsDistinct` | batch_comparison.py:153-154 | a strictly ascending list has no repeats |
| `Uprn.SearchForUprnPatterns` | shared/scraper.py:518-539 | the method returns the long captures of the nine patterns, without repeats |
| `Uprn.UprnResult` | shared/scraper.py:518-539 | every result is a run of at least 8 digits from the text, none twice, each long capture is returned, and a text without 8 consecutive digits gives `[]` |
| `Uprn.AddParentCandidates` | batch_comparison.py:141-150 | the loop over text nodes mentioning a UPRN adds the candidates of each node's parent text |
| `Uprn.ScrapeBuildingForUprn` | batch_comparison.py:117-214 | the scanner's page part computes `BatchScan`: UPRNs from the page and the parents, sorted, and the four filtered element lists |
| `Uprn.ParentCandidatesShape` | batch_comparison.py:141-150 | a parent candidate is a run of at least 8 digits occurring in some parent text |
| `Uprn.BatchUprns` | batch_comparison.py:131-162 | `uprn_found` is strictly ascending and duplicate-free, `uprn_count` is its length, and it holds exactly the candidates, each at least 8 digits |
| `Uprn.AnalysisCounts` | batch_comparison.py:238-265 | `buildings_with_uprn <= successful_scrapes <= total_buildings`, and `total_uprn_found` is the number of UPRNs collected when each count is its list's length |
| `Uprn.UniqueAtMostTotal` | batch_comparison.py:267-270 | there are no more unique UPRNs than collected ones |
| `Comparison.Partition` | api_vs_scrape_comparison.py:451-453 | common, API-only and scraped-only fields are pairwise disjoint; their union is all fields, with common plus API-only the API fields and common plus scraped-only the scraped fields |
| `Comparison.ScrapedFields` | api_vs_scrape_comparison.py:446-449 | a slot still holding `{}` contributes no fields; otherwise the fields agree with the code as written |
| `Comparison.CompareFields` | api_vs_scrape_comparison.py:444-453 | the comparison covers the API fields and the scraped fields; without an official tab every API field is API-only |
| `Comparison.OfficialSlotHasData` | api_vs_scrape_comparison.py:178-179 | whatever the clicking loop stores in the official slot carries the listing fields |
| `Comparison.ScrapedFieldsOfScrape` | api_vs_scrape_comparison.py:446-449 | after a scrape, the scraped fields are the fifteen listing keys when an official tab was stored, and none otherwise |
| `Comparison.EnrichmentWithOfficialTab` | api_vs_scrape_comparison.py:40-52 | the API building and the listing record share exactly `grade`, `list_entry` and `list_date` |
| `Comparison.NothingToFind` | api_vs_scrape_comparison.py:139-150 | on a page where no XPath finds an element, no label is found |
| `Comparison.NoTabsRaises` | api_vs_scrape_comparison.py:448-449 | on a page without tab elements the comparison as written raises, while the corrected one reports every API field as API-only |
| `Batches.TotalBatchesIsCeiling` | database_scraper.py:312 | with records left, `total_batches` is the ceiling of the remaining count over the batch size, and at least 1 |
| `Batches.NothingLeft` | database_scraper.py:312 | with the start offset at or past the total, no batch runs |
| `Batches.BatchBounds` | database_scraper.py:325-326 | every batch that runs satisfies `start_offset <= batch_start <= batch_end <= total_count - 1` |
| `Batches.Contiguous` | database_scraper.py:325-326 | each batch ends just before the next starts |
| `Batches.Disjoint` | database_scraper.py:325-326 | an earlier batch ends before any later one starts |
| `Batches.LastBatchEnds` | database_scraper.py:312-326 | the last batch ends at the last record |
| `Batches.BatchOf` | database_scraper.py:325-326 | every offset from the start offset to the last record lies in some batch that runs |
| `Batches.Coverage` | database_scraper.py:312-326 | the batches together cover exactly the offsets from the start offset to the last record |
| `Batches.MaxCompletedEndIsMax` | database_scraper.py:117-120 | `MAX(batch_end)` over completed rows is absent exactly when no row is completed, and otherwise is the largest end of a completed row |
| `Batches.ResumeOffsetFacts` | database_scraper.py:114-121 | the resume offset is 0 without completed rows, at least every completed row's end, and the first resumed batch starts at a completed row's end |
| `Batches.FetchBatch` | database_scraper.py:241-286 | `fetch_batch` returns the buildings and their number, and `([], 0)` on an exception or without "features" |
| `Batches.Kept` | database_scraper.py:344-350 | the buildings inserted from a batch are at most as many as fetched |
| `Batches.KeptLength` | database_scraper.py:344-350 | a building inserted was fetched and its insert succeeded |
| `Batches.Database.constructor` | database_scraper.py:38-94 | an empty progress log and buildings table |
| `Batches.Database.StartBatch` | database_scraper.py:123-132 | `start_batch` appends an in-progress row with zero counts and returns its id |
| `Batches.Database.CompleteBatch` | database_scraper.py:134-143 | `complete_batch` sets the row's counts and marks it completed; an unknown id changes nothing |
| `Batches.Database.InsertBuilding` | database_scraper.py:145-175 | `insert_building` adds the building exactly when the insert does not raise, and says so |
| `Batches.InsertBatch` | database_scraper.py:341-353 | the insert loop adds the buildings whose insert succeeds; `batch_success` counts them and `batch_success + batch_errors` is the number fetched |
| `Batches.Rows` | database_scraper.py:324-356 | a run of n batches adds n rows |
| `Batches.ProcessBatch` | database_scraper.py:325-356 | one batch adds one completed row, (0, 0, 1) when empty, and the buildings whose insert succeeds |
| `Batches.RunBatches` | database_scraper.py:319-363 | the batch loop adds a row per batch and the inserted buildings, and the counters are the column sums of the new rows |
| `Batches.ScrapeAll` | database_scraper.py:288-386 | `scrape_all` returns False, changing nothing, when the total count is missing or 0; otherwise it runs the batches from 0 or the resume offset and returns whether any building was inserted |
| `Batches.RunRows` | database_scraper.py:325-356 | every added row is completed and covers its batch's range; an empty batch is recorded as (0, 0, 1), and otherwise successes plus errors equal the number fetched |
| `Batches.CountersBalance` | database_scraper.py:334-352 | successes plus errors equal the buildings processed plus one per empty batch, and the successes are the buildings inserted |

## Left out

- Browser automation is not modelled: driver setup, cookie consent, sleeps, scrolling, clicking and `page_source`. What an XPath finds and which page a click shows are oracle parameters. A raised exception is an oracle outcome: `Raises`, `Crash` or `None`.
- BeautifulSoup parsing and `get_text()` are not modelled. A page is given as its text nodes in document order, its paragraph texts, its headings, images and anchors, and its main text.
- Python's `re` engine is modelled only for the fixed patterns of the scraper, each as a hand-written matcher.
- Unicode behaviour is not modelled. `\d` and case folding are ASCII-only here; Python also accepts other Unicode digits and lowers non-ASCII capitals.
- Uprn.SearchForUprnPatterns: `list(set(found))` has no specified order in Python. The model keeps first occurrences, so only order-independent facts are proved: membership, no repeats, and the digit shape.
- The heading `level` (the tag name `h1`…`h6`) is carried through unchanged as given.
- HTTP calls are not modelled: the API fetchers, `get_total_count` and `get_building_from_api`. The total count is a parameter, and the API building contributes only its key set.
- Batches.FetchBatch: the mapping of feature attributes and geometry to columns, and `convert_timestamp`, are not modelled. A building carries its attribute map unchanged.
- SQL persistence is reduced to the progress rows and an append-only list of inserted buildings. `INSERT OR REPLACE` overwriting an earlier row with the same key, `update_metadata`, `get_stats` and the time stamps are not modelled.
- Batches.ScrapeAll: requires a positive batch size. With 0 the source raises `ZeroDivisionError` at line 312. A negative size, which the command line accepts, is not modelled.
- Batches.RunBatches: the counters are increased once per batch, by the batch's totals, rather than once per building. Nothing between the per-building increments can raise, so the final values are the same.
- Timing, rates, percentages, progress bars, printing, JSON output and the command-line entry points are not modelled.
- Random building selection is not modelled. The report and export scripts add nothing beyond the comparison modelled here.
- The `any(tab['text'] == text …)` test after each XPath is modelled as "this label has been found". The labels are distinct, so earlier entries never match it.

## Findings

| source | as written | input that shows it | evidently intended | confidence | as-written member | corrected member |
|---|---|---|---|---|---|---|
| api_vs_scrape_comparison.py:448-449 | The `'official_list_entry' in …` guard always holds, because the slot is created as `{}` at line 112. Reading `['specific_data']` from that empty dict raises `KeyError`. | A listing page with no "Official List Entry" tab element, or one whose click raises. `Comparison.NoTabsRaises` exhibits it. | No scraped fields, so every API field is reported as API-only, as the guarded printing at lines 413-424 already assumes. | high, not executed | `Comparison.ScrapedFieldsAsWritten` | `Comparison.ScrapedFields` |
