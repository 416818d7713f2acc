/**
 * UPRN candidate scanning.  Each scanner runs an ordered list of
 * digit-capturing patterns with `re.findall`, keeps the captures of at
 * least eight characters, and removes duplicates; the batch scanner also
 * looks in the parents of the text nodes that mention a UPRN, and sorts.
 * The batch analysis counts over the per-building results.
 */
module Uprn {
  import opened Wrappers
  import opened Text
  import opened Patterns
  import opened Content

  const UprnPatterns: seq<Pattern> := [
    UprnTwelve, UniquePropertyRefTwelve, PropertyRefTwelve, AnyTwelve, UprnDigits,
    PropertyId, AddressId, BuildingId, ReferenceEightToTwelve
  ]

  const BatchUprnPatterns: seq<Pattern> := [UprnTwelve, UniquePropertyRefTwelve, PropertyRefTwelve, AnyTwelve, UprnDigits]

  /** `len(match) >= 8` */
  predicate IsLong(c: string) { |c| >= 8 }

  function Same(c: string): string { c }

  function Elems(xs: seq<string>): set<string> { set x | x in xs }

  // ---------------------------------------------------------------------
  // Candidates

  /** What `re.findall` returns for each pattern on `text`. */
  function MatchesOf(text: string): Pattern -> seq<string>
  {
    p => FindAll(p, text)
  }

  /** The long captures of every pattern in turn, in the order the scan appends them. */
  function Candidates(ps: seq<Pattern>, caps: Pattern -> seq<string>): seq<string>
  {
    if |ps| == 0 then []
    else Candidates(ps[..|ps| - 1], caps) + Collect(caps(ps[|ps| - 1]), IsLong, Same)
  }

  /** The inner loop: the captures of `p` of at least eight characters, in order. */
  method LongMatches(p: Pattern, text: string) returns (long: seq<string>)
    ensures long == Collect(FindAll(p, text), IsLong, Same)
  {
    long := [];
    var matches := FindAll(p, text);
    for j := 0 to |matches|
      invariant long == Collect(matches[..j], IsLong, Same)
    {
      CollectStep(matches, j, IsLong, Same);
      if |matches[j]| >= 8 {
        long := long + [matches[j]];
      }
    }
    assert matches[..|matches|] == matches;
  }

  /** The outer loop over the patterns, appending to `found0`. */
  method AddCandidates(found0: seq<string>, ps: seq<Pattern>, text: string) returns (found: seq<string>)
    ensures found == found0 + Candidates(ps, MatchesOf(text))
  {
    found := found0;
    for i := 0 to |ps|
      invariant found == found0 + Candidates(ps[..i], MatchesOf(text))
    {
      assert ps[..i + 1][..i] == ps[..i];
      var long := LongMatches(ps[i], text);
      assert MatchesOf(text)(ps[i]) == FindAll(ps[i], text);
      AppendAssoc(found0, Candidates(ps[..i], MatchesOf(text)), long);
      found := found + long;
    }
    assert ps[..|ps|] == ps;
  }

  /** The long captures are those of length at least 8. */
  lemma LongMembers(ms: seq<string>, c: string)
    ensures c in Collect(ms, IsLong, Same) <==> c in ms && |c| >= 8
  {
    CollectMembers(ms, IsLong, Same, c);
    if c in ms && |c| >= 8 {
      var i :| 0 <= i < |ms| && ms[i] == c;
    }
  }

  /** A candidate is exactly a capture of length at least 8 of some pattern of the list. */
  lemma {:induction false} CandidatesMembers(ps: seq<Pattern>, caps: Pattern -> seq<string>, c: string)
    ensures c in Candidates(ps, caps) <==> exists k :: 0 <= k < |ps| && c in caps(ps[k]) && |c| >= 8
  {
    if |ps| > 0 {
      var n := |ps| - 1;
      var init := ps[..n];
      CandidatesMembers(init, caps, c);
      LongMembers(caps(ps[n]), c);
      if c in Candidates(ps, caps) {
        if c in Candidates(init, caps) {
          var k :| 0 <= k < |init| && c in caps(init[k]) && |c| >= 8;
          assert init[k] == ps[k];
          assert 0 <= k < |ps| && c in caps(ps[k]) && |c| >= 8;
        } else {
          assert 0 <= n < |ps| && c in caps(ps[n]) && |c| >= 8;
        }
      }
      if exists k :: 0 <= k < |ps| && c in caps(ps[k]) && |c| >= 8 {
        var k :| 0 <= k < |ps| && c in caps(ps[k]) && |c| >= 8;
        if k < n {
          assert init[k] == ps[k];
          assert c in Candidates(init, caps);
        }
      }
    }
  }

  /** On a text, a candidate is exactly a capture of length at least 8 that `re.findall` returns for some pattern. */
  lemma CandidatesOfText(ps: seq<Pattern>, text: string, c: string)
    ensures c in Candidates(ps, MatchesOf(text)) <==> exists k :: 0 <= k < |ps| && c in FindAll(ps[k], text) && |c| >= 8
  {
    CandidatesMembers(ps, MatchesOf(text), c);
    assert forall k :: 0 <= k < |ps| ==> MatchesOf(text)(ps[k]) == FindAll(ps[k], text);
  }

  /**
   * With digit-capturing patterns, every candidate is a run of at least
   * eight digits that occurs in the text.
   */
  lemma CandidatesShape(ps: seq<Pattern>, text: string, c: string)
    requires forall k :: 0 <= k < |ps| ==> ps[k].IsNumeric()
    requires c in Candidates(ps, MatchesOf(text))
    ensures AllDigits(c) && |c| >= 8 && IsSliceOf(c, text)
  {
    CandidatesOfText(ps, text, c);
    var k :| 0 <= k < |ps| && c in FindAll(ps[k], text) && |c| >= 8;
    FindAllShapes(ps[k], text, 0);
    FindAllSlices(ps[k], text, 0);
    assert ps[k].IsNumeric();
  }

  // ---------------------------------------------------------------------
  // `list(set(found))` and `sort()`

  /** Duplicates removed, keeping first occurrences (Python leaves the order of `list(set(...))` open). */
  function Distinct(xs: seq<string>): (r: seq<string>)
    ensures NoDuplicates(r) && Elems(r) == Elems(xs)
  {
    if |xs| == 0 then []
    else
      var d := Distinct(xs[..|xs| - 1]);
      assert Elems(xs) == Elems(xs[..|xs| - 1]) + {xs[|xs| - 1]} by {
        assert xs == xs[..|xs| - 1] + [xs[|xs| - 1]];
      }
      if xs[|xs| - 1] in d then d else d + [xs[|xs| - 1]]
  }

  /** Python's string order: lexicographic by code point, a proper prefix first. */
  predicate Below(a: string, b: string)
    decreases |a|
  {
    if |a| == 0 then |b| > 0
    else |b| > 0 && (a[0] < b[0] || (a[0] == b[0] && Below(a[1..], b[1..])))
  }

  lemma {:induction false} BelowIrreflexive(a: string)
    ensures !Below(a, a)
    decreases |a|
  {
    if |a| > 0 {
      BelowIrreflexive(a[1..]);
    }
  }

  lemma {:induction false} BelowTransitive(a: string, b: string, c: string)
    requires Below(a, b) && Below(b, c)
    ensures Below(a, c)
    decreases |a|
  {
    if |a| > 0 && a[0] == b[0] && b[0] == c[0] {
      BelowTransitive(a[1..], b[1..], c[1..]);
    }
  }

  lemma {:induction false} BelowTotal(a: string, b: string)
    requires a != b
    ensures Below(a, b) || Below(b, a)
    decreases |a|
  {
    if |a| > 0 && |b| > 0 && a[0] == b[0] {
      assert a == [a[0]] + a[1..] && b == [b[0]] + b[1..];
      BelowTotal(a[1..], b[1..]);
    }
  }

  predicate StrictlySorted(xs: seq<string>)
  {
    forall i, j :: 0 <= i < j < |xs| ==> Below(xs[i], xs[j])
  }

  lemma ElemsCons(x: string, xs: seq<string>)
    ensures Elems([x] + xs) == {x} + Elems(xs)
  {
    assert forall y :: y in [x] + xs <==> y == x || y in xs;
  }

  /** Placing `x` into a strictly sorted list, unless it is already there. */
  function Insert(x: string, xs: seq<string>): (r: seq<string>)
    requires StrictlySorted(xs)
    ensures StrictlySorted(r) && Elems(r) == Elems(xs) + {x}
  {
    if |xs| == 0 then [x]
    else if x == xs[0] then
      assert Elems(xs) == Elems(xs) + {x};
      xs
    else if Below(x, xs[0]) then
      var r := [x] + xs;
      assert StrictlySorted(r) by {
        forall i, j | 0 <= i < j < |r| ensures Below(r[i], r[j]) {
          if i == 0 && j > 1 {
            BelowTransitive(x, xs[0], xs[j - 1]);
          }
        }
      }
      r
    else
      BelowTotal(x, xs[0]);
      var rest := Insert(x, xs[1..]);
      var r := [xs[0]] + rest;
      ElemsCons(xs[0], xs[1..]);
      ElemsCons(xs[0], rest);
      assert xs == [xs[0]] + xs[1..];
      assert StrictlySorted(r) by {
        forall i, j | 0 <= i < j < |r| ensures Below(r[i], r[j]) {
          if i == 0 {
            assert r[j] in Elems(rest);
            if r[j] != x {
              var k :| 0 <= k < |xs[1..]| && xs[1..][k] == r[j];
              assert xs[k + 1] == r[j];
            }
          }
        }
      }
      r
  }

  /** `sorted(set(xs))`: the distinct strings of `xs` in ascending order. */
  function SortedSet(xs: seq<string>): (r: seq<string>)
    ensures StrictlySorted(r) && Elems(r) == Elems(xs)
  {
    if |xs| == 0 then []
    else
      assert Elems(xs) == Elems(xs[..|xs| - 1]) + {xs[|xs| - 1]} by {
        assert xs == xs[..|xs| - 1] + [xs[|xs| - 1]];
      }
      Insert(xs[|xs| - 1], SortedSet(xs[..|xs| - 1]))
  }

  /** Both pattern lists capture digits only. */
  lemma PatternListsNumeric()
    ensures forall k :: 0 <= k < |UprnPatterns| ==> UprnPatterns[k].IsNumeric()
    ensures forall k :: 0 <= k < |BatchUprnPatterns| ==> BatchUprnPatterns[k].IsNumeric()
  {
  }

  /** A strictly ascending list has no repeats. */
  lemma SortedIsDistinct(xs: seq<string>)
    requires StrictlySorted(xs)
    ensures NoDuplicates(xs)
  {
    forall i, j | 0 <= i < j < |xs| ensures xs[i] != xs[j] {
      if xs[i] == xs[j] {
        BelowIrreflexive(xs[i]);
      }
    }
  }

  // ---------------------------------------------------------------------
  // `search_for_uprn_patterns`

  /** `search_for_uprn_patterns(text)` */
  method SearchForUprnPatterns(text: string) returns (found: seq<string>)
    ensures found == Distinct(Candidates(UprnPatterns, MatchesOf(text)))
  {
    var all := AddCandidates([], UprnPatterns, text);
    assert all == Candidates(UprnPatterns, MatchesOf(text));
    found := Distinct(all);
  }

  /**
   * Every string returned is a run of at least eight digits occurring in
   * the text, none twice, and each long capture of each of the nine
   * patterns is returned; with no run of eight digits in the text nothing is.
   */
  lemma UprnResult(text: string, c: string)
    ensures var r := Distinct(Candidates(UprnPatterns, MatchesOf(text)));
      && NoDuplicates(r)
      && (c in r <==> exists k :: 0 <= k < |UprnPatterns| && c in FindAll(UprnPatterns[k], text) && |c| >= 8)
      && (c in r ==> AllDigits(c) && |c| >= 8 && IsSliceOf(c, text))
      && (!HasDigitRun(text, 8) ==> r == [])
  {
    PatternListsNumeric();
    var r := Distinct(Candidates(UprnPatterns, MatchesOf(text)));
    assert c in r <==> c in Elems(r);
    CandidatesOfText(UprnPatterns, text, c);
    if c in r {
      CandidatesShape(UprnPatterns, text, c);
    }
    if r != [] {
      assert r[0] in Elems(r);
      CandidatesShape(UprnPatterns, text, r[0]);
      DigitSliceGivesRun(text, r[0], 8);
    }
  }

  // ---------------------------------------------------------------------
  // The batch scanner

  /** A text node of the page and the `get_text()` of its parent, if it has one. */
  datatype TextNode = TextNode(text: string, parentText: Option<string>)

  /** A page as the batch scanner sees it: `soup.get_text()`, its text nodes and its elements. */
  datatype BatchPage = BatchPage(
    pageText: string,
    strings: seq<TextNode>,
    headings: seq<RawHeading>,
    paragraphs: seq<string>,
    anchors: seq<Anchor>,
    images: seq<Image>)

  /** The dictionary `scrape_building_for_uprn` returns, without the URL, name and time stamp. */
  datatype BatchContent = BatchContent(
    uprnFound: seq<string>,
    uprnCount: nat,
    pageTextLength: nat,
    headings: seq<Heading>,
    paragraphs: seq<Paragraph>,
    links: seq<Link>,
    images: seq<Image>)

  /** The candidates found in the parents of the nodes mentioning "UPRN" or "Unique Property Reference". */
  function ParentCandidates(strings: seq<TextNode>): seq<string>
  {
    if |strings| == 0 then []
    else
      var node := strings[|strings| - 1];
      ParentCandidates(strings[..|strings| - 1])
      + (if Search(UprnMention, node.text).Some? && node.parentText.Some?
         then Candidates(BatchUprnPatterns, MatchesOf(node.parentText.value)) else [])
  }

  function BatchCandidates(page: BatchPage): seq<string>
  {
    Candidates(BatchUprnPatterns, MatchesOf(page.pageText)) + ParentCandidates(page.strings)
  }

  /** What the batch scanner returns for a page it could load. */
  function BatchScan(page: BatchPage): BatchContent
  {
    var uprns := SortedSet(BatchCandidates(page));
    BatchContent(
      uprns, |uprns|, |page.pageText|,
      Collect(page.headings, KeepHeading, AsHeading),
      Collect(page.paragraphs, KeepParagraph, AsParagraph),
      Collect(page.anchors, KeepAnchor, AsLink),
      Collect(page.images, KeepImage, AsImage))
  }

  /** The loop over the text nodes that mention a UPRN. */
  method AddParentCandidates(found0: seq<string>, strings: seq<TextNode>) returns (found: seq<string>)
    ensures found == found0 + ParentCandidates(strings)
  {
    found := found0;
    for i := 0 to |strings|
      invariant found == found0 + ParentCandidates(strings[..i])
    {
      assert strings[..i + 1][..i] == strings[..i];
      if Search(UprnMention, strings[i].text).Some? {
        var parent := strings[i].parentText;
        if parent.Some? {
          AppendAssoc(found0, ParentCandidates(strings[..i]), Candidates(BatchUprnPatterns, MatchesOf(parent.value)));
          found := AddCandidates(found, BatchUprnPatterns, parent.value);
        }
      }
    }
    assert strings[..|strings|] == strings;
  }

  /** The page part of `scrape_building_for_uprn`. */
  method ScrapeBuildingForUprn(page: BatchPage) returns (content: BatchContent)
    ensures content == BatchScan(page)
  {
    var found := AddCandidates([], BatchUprnPatterns, page.pageText);
    assert found == Candidates(BatchUprnPatterns, MatchesOf(page.pageText));
    found := AddParentCandidates(found, page.strings);
    found := SortedSet(found);
    var headings := FilterHeadings(page.headings);
    var paragraphs := FilterParagraphs(page.paragraphs);
    var links := CollectLinks(page.anchors);
    var images := CollectImages(page.images);
    content := BatchContent(found, |found|, |page.pageText|, headings, paragraphs, links, images);
  }

  /** Every parent candidate is a run of at least eight digits occurring in some parent text. */
  lemma {:induction false} ParentCandidatesShape(strings: seq<TextNode>, c: string)
    requires c in ParentCandidates(strings)
    ensures AllDigits(c) && |c| >= 8
    ensures exists i :: 0 <= i < |strings| && strings[i].parentText.Some? && IsSliceOf(c, strings[i].parentText.value)
  {
    var init := strings[..|strings| - 1];
    var node := strings[|strings| - 1];
    if c in ParentCandidates(init) {
      ParentCandidatesShape(init, c);
      var i :| 0 <= i < |init| && init[i].parentText.Some? && IsSliceOf(c, init[i].parentText.value);
      assert strings[i] == init[i];
    } else {
      PatternListsNumeric();
      CandidatesShape(BatchUprnPatterns, node.parentText.value, c);
    }
  }

  /**
   * `uprn_found` is strictly ascending (so duplicate-free), `uprn_count` is
   * its length, and every entry is a run of at least eight digits found in
   * the page text or in the parent of a node mentioning a UPRN.
   */
  lemma BatchUprns(page: BatchPage, c: string)
    ensures var r := BatchScan(page);
      && StrictlySorted(r.uprnFound) && NoDuplicates(r.uprnFound) && r.uprnCount == |r.uprnFound|
      && (c in r.uprnFound <==> c in BatchCandidates(page))
      && (c in r.uprnFound ==> AllDigits(c) && |c| >= 8)
  {
    var r := BatchScan(page);
    SortedIsDistinct(r.uprnFound);
    assert c in r.uprnFound <==> c in Elems(r.uprnFound);
    assert c in BatchCandidates(page) <==> c in Elems(BatchCandidates(page));
    if c in BatchCandidates(page) {
      if c in Candidates(BatchUprnPatterns, MatchesOf(page.pageText)) {
        PatternListsNumeric();
        CandidatesShape(BatchUprnPatterns, page.pageText, c);
      } else {
        ParentCandidatesShape(page.strings, c);
      }
    }
  }

  // ---------------------------------------------------------------------
  // `analyze_batch_results`

  /** Each result's `scraped_data`: `None` when scraping failed. */
  function Successful(results: seq<Option<BatchContent>>): nat
  {
    if |results| == 0 then 0
    else Successful(results[..|results| - 1]) + (if results[|results| - 1].Some? then 1 else 0)
  }

  function WithUprn(results: seq<Option<BatchContent>>): nat
  {
    if |results| == 0 then 0
    else
      var r := results[|results| - 1];
      WithUprn(results[..|results| - 1]) + (if r.Some? && r.value.uprnCount > 0 then 1 else 0)
  }

  function TotalUprnFound(results: seq<Option<BatchContent>>): nat
  {
    if |results| == 0 then 0
    else
      var r := results[|results| - 1];
      TotalUprnFound(results[..|results| - 1]) + (if r.Some? then r.value.uprnCount else 0)
  }

  /** `all_uprns`: the `uprn_found` lists of the successful results, concatenated in order. */
  function AllUprns(results: seq<Option<BatchContent>>): seq<string>
  {
    if |results| == 0 then []
    else
      var r := results[|results| - 1];
      AllUprns(results[..|results| - 1]) + (if r.Some? then r.value.uprnFound else [])
  }

  /** A result whose counts are those the scanner produces. */
  predicate Consistent(results: seq<Option<BatchContent>>)
  {
    forall k :: 0 <= k < |results| && results[k].Some? ==> results[k].value.uprnCount == |results[k].value.uprnFound|
  }

  /**
   * `buildings_with_uprn <= successful_scrapes <= total_buildings`, and when
   * each `uprn_count` is the length of its list, `total_uprn_found` is the
   * number of UPRNs collected.
   */
  lemma {:induction false} AnalysisCounts(results: seq<Option<BatchContent>>)
    ensures WithUprn(results) <= Successful(results) <= |results|
    ensures Consistent(results) ==> TotalUprnFound(results) == |AllUprns(results)|
  {
    if |results| > 0 {
      var init := results[..|results| - 1];
      AnalysisCounts(init);
      if Consistent(results) {
        assert Consistent(init) by {
          forall k | 0 <= k < |init| && init[k].Some? ensures init[k].value.uprnCount == |init[k].value.uprnFound| {
            assert init[k] == results[k];
          }
        }
      }
    }
  }

  /** Fewer distinct UPRNs than collected ones: `len(set(all_uprns)) <= len(all_uprns)`. */
  lemma {:induction false} UniqueAtMostTotal(xs: seq<string>)
    ensures |Elems(xs)| <= |xs|
  {
    if |xs| > 0 {
      var init := xs[..|xs| - 1];
      UniqueAtMostTotal(init);
      assert Elems(xs) == Elems(init) + {xs[|xs| - 1]} by {
        assert xs == init + [xs[|xs| - 1]];
      }
    }
  }
}
