/**
 * The listing-field extractor: from the text nodes of a list-entry page (in
 * document order) and the texts of its `<p>` elements it fills a record of
 * fifteen string fields.  `grade`, `list_entry` and `coordinates` come from
 * ordered pattern chains; `architectural_details`, `materials` and
 * `construction_period` come from the first paragraph that reads like an
 * architectural description; every other field stays empty.
 */
module Extractor {
  import opened Wrappers
  import opened Text
  import opened Scan
  import opened Patterns

  /**
   * The dictionary the extractor returns.  Its fifteen keys are fixed, so it
   * is a record with one string field per key (`grade`, `list_entry`, ...).
   */
  datatype Record = Record(
    grade: string, listEntry: string, listDate: string, description: string,
    history: string, architecturalDetails: string, reasonsForListing: string,
    location: string, coordinates: string, address: string, materials: string,
    constructionPeriod: string, architecturalStyle: string,
    interiorFeatures: string, exteriorFeatures: string)

  const GradePatterns: seq<Pattern> := [GradeAfter, GradeColon, GradeBefore]
  const EntryPatterns: seq<Pattern> := [ListEntryLabel, EntryLabel, BareNumber]
  const CoordPatterns: seq<Pattern> := [NationalGridRef, NgrLabel, GridRefLabel]
  const PeriodPatterns: seq<Pattern> := [MidCentury, EarlyCentury, LateCentury, NthCentury, NthHyphenCentury]

  /** The first fourteen keywords are shared with the older extractor. */
  const LegacyKeywords: seq<string> := [
    "semi-detached", "cottages", "coursed rubble", "stone", "tiled",
    "brick stacks", "mullioned", "casements", "chamfered", "beams",
    "planked doors", "recessed", "diagonally-set", "axial position"
  ]

  const ExtraKeywords: seq<string> := ["timber", "slate", "thatch", "gable", "dormer", "bay window"]

  const ArchitecturalKeywords: seq<string> := [
    "semi-detached", "cottages", "coursed rubble", "stone", "tiled",
    "brick stacks", "mullioned", "casements", "chamfered", "beams",
    "planked doors", "recessed", "diagonally-set", "axial position",
    "timber", "slate", "thatch", "gable", "dormer", "bay window"
  ]

  /** What the paragraph must mention for each material, and the text it adds. */
  const MaterialTriggers: seq<string> := ["coursed rubble", "tiled", "brick", "timber"]
  const MaterialTags: seq<string> := ["coursed rubble stone, ", "tiled roof, ", "brick, ", "timber, "]

  /** The record the source starts from: every one of its fifteen keys holds the empty string. */
  const Blank: Record := Record("", "", "", "", "", "", "", "", "", "", "", "", "", "", "")

  /** A value found, or the empty string the field started with. */
  function OrEmpty(o: Option<string>): string
  {
    if o.Some? then o.value else ""
  }


  // ---------------------------------------------------------------------
  // Labelled fields

  /** Whether `p` matches anywhere in text node `j`. */
  function NodeMatches(p: Pattern, nodes: seq<string>): nat -> bool
  {
    (j: nat) => j < |nodes| && Search(p, nodes[j]).Some?
  }

  /**
   * `soup.find(string=re.compile(p, re.I))`: the index of the first text
   * node, in document order, in which `p` matches anywhere.
   */
  function Find(p: Pattern, nodes: seq<string>): (r: Option<nat>)
    ensures r.Some? ==> r.value < |nodes| && Search(p, nodes[r.value]).Some?
    ensures r.Some? ==> forall j :: 0 <= j < r.value ==> Search(p, nodes[j]).None?
    ensures r.None? ==> forall j :: 0 <= j < |nodes| ==> Search(p, nodes[j]).None?
  {
    var r := FirstWhere(NodeMatches(p, nodes), |nodes|, 0);
    assert r.Some? ==> NodeMatches(p, nodes)(r.value);
    assert forall j :: 0 <= j < |nodes| && !NodeMatches(p, nodes)(j) ==> Search(p, nodes[j]).None?;
    r
  }

  /** `re.search(p, node, re.I).group(1)` on the node `soup.find` returned, if any. */
  function FirstCapture(p: Pattern, nodes: seq<string>): Option<string>
  {
    match Find(p, nodes)
    case None => None
    case Some(k) => Some(Search(p, nodes[k]).value.capture)
  }

  /** A pattern yields nothing exactly when it matches in no text node. */
  lemma FirstCaptureNone(p: Pattern, nodes: seq<string>)
    ensures FirstCapture(p, nodes).None? <==> forall j :: 0 <= j < |nodes| ==> Search(p, nodes[j]).None?
  {
  }

  /** What a pattern yields is group 1 of a match, so it has the pattern's capture shape and is never empty. */
  lemma FirstCaptureShape(p: Pattern, nodes: seq<string>)
    ensures var r := FirstCapture(p, nodes);
      r.Some? ==> |r.value| >= 1 && CaptureShape(p, r.value)
  {
    match Find(p, nodes)
    case None =>
    case Some(k) =>
      SearchFromShape(p, nodes[k], 0);
      CaptureShapeNonEmpty(p, Search(p, nodes[k]).value.capture);
  }

  /** On a single text, a pattern yields group 1 of `re.search` on that text. */
  lemma FirstCaptureSingle(p: Pattern, text: string)
    ensures FirstCapture(p, [text]) == if Search(p, text).Some? then Some(Search(p, text).value.capture) else None
  {
    assert [text][0] == text;
  }

  /** Whether pattern `k` of a chain matches some text node. */
  function PatternMatches(ps: seq<Pattern>, nodes: seq<string>): nat -> bool
  {
    (k: nat) => k < |ps| && FirstCapture(ps[k], nodes).Some?
  }

  /** The position in the chain of the pattern whose capture a chain yields. */
  function ChainSource(ps: seq<Pattern>, nodes: seq<string>): Option<nat>
  {
    FirstWhere(PatternMatches(ps, nodes), |ps|, 0)
  }

  /**
   * A pattern chain: the capture of the first pattern, in list order, that
   * matches some node.
   */
  function Chain(ps: seq<Pattern>, nodes: seq<string>): Option<string>
  {
    match ChainSource(ps, nodes)
    case None => None
    case Some(k) => FirstCapture(ps[k], nodes)
  }

  /**
   * First listed wins: when pattern `k` matches some node and none of the
   * patterns before it does, the chain yields pattern `k`'s capture, however
   * early in the document a later pattern would have matched.
   */
  lemma ChainPicksFirstListed(ps: seq<Pattern>, nodes: seq<string>, k: nat)
    requires k < |ps| && FirstCapture(ps[k], nodes).Some?
    requires forall j :: 0 <= j < k ==> FirstCapture(ps[j], nodes).None?
    ensures ChainSource(ps, nodes) == Some(k)
    ensures Chain(ps, nodes) == FirstCapture(ps[k], nodes)
  {
    var test := PatternMatches(ps, nodes);
    assert test(k);
    forall j | 0 <= j < k
      ensures !test(j)
    {
    }
    FirstWhereIs(test, |ps|, 0, k);
  }

  /** A chain yields nothing exactly when none of its patterns matches any node. */
  lemma ChainNone(ps: seq<Pattern>, nodes: seq<string>)
    ensures Chain(ps, nodes).None? <==> forall k :: 0 <= k < |ps| ==> FirstCapture(ps[k], nodes).None?
  {
    var test := PatternMatches(ps, nodes);
    match ChainSource(ps, nodes)
    case None =>
      forall k | 0 <= k < |ps|
        ensures FirstCapture(ps[k], nodes).None?
      {
        assert !test(k);
      }
    case Some(k) =>
      assert test(k);
  }

  /** What a chain yields is non-empty and has the capture shape of the pattern that produced it. */
  lemma ChainShape(ps: seq<Pattern>, nodes: seq<string>)
    ensures match ChainSource(ps, nodes)
      case None => Chain(ps, nodes).None?
      case Some(k) =>
        && k < |ps| && Chain(ps, nodes).Some?
        && |Chain(ps, nodes).value| >= 1 && CaptureShape(ps[k], Chain(ps, nodes).value)
  {
    match ChainSource(ps, nodes)
    case None =>
    case Some(k) =>
      assert PatternMatches(ps, nodes)(k);
      FirstCaptureShape(ps[k], nodes);
  }

  /** The field a chain fills is empty exactly when no pattern of the chain matches any node. */
  lemma ChainValueEmpty(ps: seq<Pattern>, nodes: seq<string>)
    ensures OrEmpty(Chain(ps, nodes)) == "" <==> forall k :: 0 <= k < |ps| ==> FirstCapture(ps[k], nodes).None?
  {
    ChainNone(ps, nodes);
    ChainShape(ps, nodes);
  }

  /**
   * The loop over a pattern chain: for each pattern, `soup.find`, then
   * `re.search` on the node found; it leaves at the first capture.
   */
  method RunChain(ps: seq<Pattern>, nodes: seq<string>) returns (value: Option<string>)
    ensures value == Chain(ps, nodes)
  {
    value := None;
    var i := 0;
    while i < |ps|
      invariant 0 <= i <= |ps|
      invariant value.None?
      invariant ChainSource(ps, nodes) == FirstWhere(PatternMatches(ps, nodes), |ps|, i)
    {
      var node := Find(ps[i], nodes);
      if node.Some? {
        var m := Search(ps[i], nodes[node.value]);
        if m.Some? {
          value := Some(m.value.capture);
          assert PatternMatches(ps, nodes)(i);
          break;
        }
      }
      assert !PatternMatches(ps, nodes)(i);
      i := i + 1;
    }
  }

  // ---------------------------------------------------------------------
  // The architectural paragraph

  /** `sum(1 for k in keywords if k.lower() in text.lower())`, with `lt` the lowered text. */
  function KeywordHits(keywords: seq<string>, lt: string): (n: nat)
    ensures n <= |keywords|
  {
    if |keywords| == 0 then 0
    else (if Contains(lt, Lower(keywords[0])) then 1 else 0) + KeywordHits(keywords[1..], lt)
  }

  /** No hits exactly when no keyword occurs in the text. */
  lemma {:induction false} KeywordHitsZero(keywords: seq<string>, lt: string)
    ensures KeywordHits(keywords, lt) == 0 <==> forall k :: 0 <= k < |keywords| ==> !Contains(lt, Lower(keywords[k]))
  {
    if |keywords| > 0 {
      KeywordHitsZero(keywords[1..], lt);
      assert forall k :: 1 <= k < |keywords| ==> keywords[1..][k - 1] == keywords[k];
    }
  }

  /** Hits over a concatenated keyword list add up. */
  lemma {:induction false} KeywordHitsAppend(a: seq<string>, b: seq<string>, lt: string)
    ensures KeywordHits(a + b, lt) == KeywordHits(a, lt) + KeywordHits(b, lt)
    decreases |a|
  {
    if |a| == 0 {
      assert a + b == b;
    } else {
      assert (a + b)[0] == a[0];
      assert (a + b)[1..] == a[1..] + b;
      KeywordHitsAppend(a[1..], b, lt);
    }
  }

  /** A stripped paragraph text is taken when it is over 100 characters and hits 3 keywords. */
  predicate Qualifies(text: string, keywords: seq<string>)
  {
    |text| > 100 && KeywordHits(keywords, Lower(text)) >= 3
  }

  /** Whether paragraph `j`, once stripped, qualifies. */
  function ParagraphQualifies(paras: seq<string>, keywords: seq<string>): nat -> bool
  {
    (j: nat) => j < |paras| && Qualifies(Strip(paras[j]), keywords)
  }

  /** The index of the first paragraph whose stripped text qualifies. */
  function FirstQualifying(paras: seq<string>, keywords: seq<string>): (r: Option<nat>)
    ensures r.Some? ==> r.value < |paras| && Qualifies(Strip(paras[r.value]), keywords)
    ensures r.Some? ==> forall j :: 0 <= j < r.value ==> !Qualifies(Strip(paras[j]), keywords)
    ensures r.None? ==> forall j :: 0 <= j < |paras| ==> !Qualifies(Strip(paras[j]), keywords)
  {
    var test := ParagraphQualifies(paras, keywords);
    var r := FirstWhere(test, |paras|, 0);
    assert r.Some? ==> test(r.value);
    assert forall j :: 0 <= j < |paras| && !test(j) ==> !Qualifies(Strip(paras[j]), keywords);
    r
  }

  /** The paragraph found is the only one the scan can stop at: the first qualifying one. */
  lemma FirstQualifyingIs(paras: seq<string>, keywords: seq<string>, k: nat)
    requires k < |paras| && Qualifies(Strip(paras[k]), keywords)
    requires forall j :: 0 <= j < k ==> !Qualifies(Strip(paras[j]), keywords)
    ensures FirstQualifying(paras, keywords) == Some(k)
  {
    var test := ParagraphQualifies(paras, keywords);
    assert test(k);
    forall j | 0 <= j < k
      ensures !test(j)
    {
    }
    FirstWhereIs(test, |paras|, 0, k);
  }

  // ---------------------------------------------------------------------
  // Materials

  /** Material `k`'s tag if the lowered text `lt` mentions its trigger, else nothing. */
  function Tag(lt: string, k: nat): string
    requires k < 4
  {
    if Contains(lt, MaterialTriggers[k]) then MaterialTags[k] else ""
  }

  /** The table, entry by entry, as the source's four tests write it. */
  lemma MaterialTable()
    ensures MaterialTriggers[0] == "coursed rubble" && MaterialTags[0] == "coursed rubble stone, "
    ensures MaterialTriggers[1] == "tiled" && MaterialTags[1] == "tiled roof, "
    ensures MaterialTriggers[2] == "brick" && MaterialTags[2] == "brick, "
    ensures MaterialTriggers[3] == "timber" && MaterialTags[3] == "timber, "
  {
  }

  /** The tags, from material `k` on, whose trigger occurs in the lowered text `lt`. */
  function MaterialsFrom(lt: string, k: nat): string
    requires k <= 4
    decreases 4 - k
  {
    if k == 4 then "" else Tag(lt, k) + MaterialsFrom(lt, k + 1)
  }

  /** The `materials` value for a paragraph text. */
  function Materials(text: string): string
  {
    MaterialsFrom(Lower(text), 0)
  }

  /** Indices, from `k` on, of the materials whose trigger occurs in the lowered text `lt`. */
  function SelectedTags(lt: string, k: nat): (sel: seq<nat>)
    requires k <= 4
    ensures forall j :: 0 <= j < |sel| ==> k <= sel[j] < 4
    ensures forall i, j :: 0 <= i < j < |sel| ==> sel[i] < sel[j]
    ensures forall t :: k <= t < 4 ==> (t in sel <==> Contains(lt, MaterialTriggers[t]))
    decreases 4 - k
  {
    if k == 4 then []
    else (if Contains(lt, MaterialTriggers[k]) then [k] else []) + SelectedTags(lt, k + 1)
  }

  /** Every tag ends with ", ". */
  lemma TagEndsWithSeparator(t: nat)
    requires t < 4
    ensures |MaterialTags[t]| >= 2 && MaterialTags[t][|MaterialTags[t]| - 2..] == ", "
  {
  }

  /** The tags with the given indices, concatenated. */
  function JoinTags(sel: seq<nat>): (r: string)
    requires forall j :: 0 <= j < |sel| ==> sel[j] < 4
    ensures r == [] <==> sel == []
    ensures r != [] ==> |r| >= 2 && r[|r| - 2..] == ", "
  {
    if sel == [] then ""
    else
      var rest := JoinTags(sel[1..]);
      var tag := MaterialTags[sel[0]];
      TagEndsWithSeparator(sel[0]);
      assert rest != [] ==> (tag + rest)[|tag + rest| - 2..] == rest[|rest| - 2..];
      tag + rest
  }

  /**
   * `materials` lists, in the fixed order coursed rubble, tiled, brick,
   * timber, exactly the tags whose trigger the paragraph mentions, each at
   * most once; so it is empty or ends with ", ".
   */
  lemma {:induction false} MaterialsAreOrderedTags(lt: string, k: nat)
    requires k <= 4
    ensures MaterialsFrom(lt, k) == JoinTags(SelectedTags(lt, k))
    decreases 4 - k
  {
    if k < 4 {
      MaterialsAreOrderedTags(lt, k + 1);
      var sel := SelectedTags(lt, k);
      if Contains(lt, MaterialTriggers[k]) {
        assert sel[0] == k && sel[1..] == SelectedTags(lt, k + 1);
      } else {
        assert sel == SelectedTags(lt, k + 1);
      }
    }
  }

  /**
   * The `materials` value of a paragraph: exactly the tags whose trigger the
   * paragraph mentions, in the fixed table order, each at most once; so it
   * is empty or ends with ", ".
   */
  lemma MaterialsShape(text: string)
    ensures Materials(text) == JoinTags(SelectedTags(Lower(text), 0))
    ensures Materials(text) == "" || (|Materials(text)| >= 2 && Materials(text)[|Materials(text)| - 2..] == ", ")
  {
    MaterialsAreOrderedTags(Lower(text), 0);
  }

  // ---------------------------------------------------------------------
  // The whole record

  /** The record after the three labelled chains. */
  function Labelled(nodes: seq<string>): Record
  {
    Blank.(
      grade := OrEmpty(Chain(GradePatterns, nodes)),
      listEntry := OrEmpty(Chain(EntryPatterns, nodes)),
      coordinates := OrEmpty(Chain(CoordPatterns, nodes)))
  }

  /**
   * The record after the architectural paragraph `text` has been taken:
   * its text, its material tags appended to `materials`, and the period
   * the period chain finds in it, if any.
   */
  function WithParagraph(data: Record, text: string): Record
  {
    data.(
      architecturalDetails := text,
      materials := data.materials + Materials(text),
      constructionPeriod := match Chain(PeriodPatterns, [text]) case Some(v) => v case None => data.constructionPeriod)
  }

  /** The record the extractor returns. */
  function SpecificData(nodes: seq<string>, paras: seq<string>): Record
  {
    match FirstQualifying(paras, ArchitecturalKeywords)
    case None => Labelled(nodes)
    case Some(k) => WithParagraph(Labelled(nodes), Strip(paras[k]))
  }

  /**
   * The loop over the period patterns: `re.search` of each pattern on the
   * paragraph text, leaving at the first that matches.
   */
  method RunSearchChain(ps: seq<Pattern>, text: string) returns (value: Option<string>)
    ensures value == Chain(ps, [text])
  {
    value := None;
    var i := 0;
    while i < |ps|
      invariant 0 <= i <= |ps|
      invariant value.None?
      invariant ChainSource(ps, [text]) == FirstWhere(PatternMatches(ps, [text]), |ps|, i)
    {
      FirstCaptureSingle(ps[i], text);
      var m := Search(ps[i], text);
      if m.Some? {
        value := Some(m.value.capture);
        assert PatternMatches(ps, [text])(i);
        break;
      }
      assert !PatternMatches(ps, [text])(i);
      i := i + 1;
    }
  }

  /** The body of the paragraph scan once a paragraph is taken: materials, then the period. */
  method TakeParagraph(data0: Record, text: string) returns (data: Record)
    ensures data == WithParagraph(data0, text)
  {
    data := data0.(architecturalDetails := text);
    var lt := Lower(text);
    MaterialTable();
    if Contains(lt, "coursed rubble") {
      data := data.(materials := data.materials + "coursed rubble stone, ");
    }
    assert data.materials == data0.materials + Tag(lt, 0);
    if Contains(lt, "tiled") {
      data := data.(materials := data.materials + "tiled roof, ");
    }
    assert data.materials == data0.materials + Tag(lt, 0) + Tag(lt, 1);
    if Contains(lt, "brick") {
      data := data.(materials := data.materials + "brick, ");
    }
    assert data.materials == data0.materials + Tag(lt, 0) + Tag(lt, 1) + Tag(lt, 2);
    if Contains(lt, "timber") {
      data := data.(materials := data.materials + "timber, ");
    }
    assert data.materials == data0.materials + Tag(lt, 0) + Tag(lt, 1) + Tag(lt, 2) + Tag(lt, 3);
    MaterialsUnrolled(data0.materials, lt);
    var period := RunSearchChain(PeriodPatterns, text);
    if period.Some? {
      data := data.(constructionPeriod := period.value);
    }
  }

  /** The three labelled chains, each writing its key only when it finds a value. */
  method ExtractLabelled(nodes: seq<string>) returns (data: Record)
    ensures data == Labelled(nodes)
  {
    data := Blank;
    var grade := RunChain(GradePatterns, nodes);
    if grade.Some? {
      data := data.(grade := grade.value);
    }
    var entry := RunChain(EntryPatterns, nodes);
    if entry.Some? {
      data := data.(listEntry := entry.value);
    }
    var coord := RunChain(CoordPatterns, nodes);
    if coord.Some? {
      data := data.(coordinates := coord.value);
    }
  }

  /**
   * `_extract_building_specific_data`: the three chains, then the scan for
   * the architectural paragraph, which stops at the first one taken.
   */
  method ExtractBuildingSpecificData(nodes: seq<string>, paras: seq<string>) returns (data: Record)
    ensures data == SpecificData(nodes, paras)
  {
    data := ExtractLabelled(nodes);
    var i := 0;
    while i < |paras|
      invariant 0 <= i <= |paras|
      invariant FirstQualifying(paras, ArchitecturalKeywords) == FirstWhere(ParagraphQualifies(paras, ArchitecturalKeywords), |paras|, i)
    {
      var text := Strip(paras[i]);
      if |text| > 100 {
        var keywordCount := KeywordHits(ArchitecturalKeywords, Lower(text));
        if keywordCount >= 3 {
          assert ParagraphQualifies(paras, ArchitecturalKeywords)(i);
          SpecificDataAt(nodes, paras, i);
          data := TakeParagraph(data, text);
          return;
        }
      }
      assert !ParagraphQualifies(paras, ArchitecturalKeywords)(i);
      i := i + 1;
    }
    SpecificDataNone(nodes, paras);
  }

  /** When paragraph `i` is the first to qualify, the record is the labelled one with it taken. */
  lemma SpecificDataAt(nodes: seq<string>, paras: seq<string>, i: nat)
    requires i < |paras| && FirstQualifying(paras, ArchitecturalKeywords) == Some(i)
    ensures SpecificData(nodes, paras) == WithParagraph(Labelled(nodes), Strip(paras[i]))
  {
  }

  /** When no paragraph qualifies, the record is the labelled one. */
  lemma SpecificDataNone(nodes: seq<string>, paras: seq<string>)
    requires FirstQualifying(paras, ArchitecturalKeywords) == None
    ensures SpecificData(nodes, paras) == Labelled(nodes)
  {
  }

  /** The four tests of the source, one after the other, append what `MaterialsFrom` yields. */
  lemma MaterialsUnrolled(m: string, lt: string)
    ensures m + Tag(lt, 0) + Tag(lt, 1) + Tag(lt, 2) + Tag(lt, 3) == m + MaterialsFrom(lt, 0)
  {
    assert MaterialsFrom(lt, 4) == "";
    assert MaterialsFrom(lt, 3) == Tag(lt, 3);
    assert MaterialsFrom(lt, 0) == Tag(lt, 0) + (Tag(lt, 1) + (Tag(lt, 2) + Tag(lt, 3)));
  }

  // ---------------------------------------------------------------------
  // Properties of the record

  /** The three labelled fields hold what their chains yield, whatever the paragraphs are. */
  lemma LabelledFields(nodes: seq<string>, paras: seq<string>)
    ensures var d := SpecificData(nodes, paras);
      && d.grade == OrEmpty(Chain(GradePatterns, nodes))
      && d.listEntry == OrEmpty(Chain(EntryPatterns, nodes))
      && d.coordinates == OrEmpty(Chain(CoordPatterns, nodes))
  {
  }

  /** A chain of grade patterns yields `''` exactly when none matches, and otherwise a non-empty run over I, i, 2 and *. */
  lemma GradeChainShape(ps: seq<Pattern>, nodes: seq<string>)
    requires forall k :: 0 <= k < |ps| ==> ps[k].IsGrade()
    ensures Chain(ps, nodes).Some? ==> |Chain(ps, nodes).value| >= 1 && AllGradeChars(Chain(ps, nodes).value)
    ensures OrEmpty(Chain(ps, nodes)) == "" <==> forall k :: 0 <= k < |ps| ==> FirstCapture(ps[k], nodes).None?
  {
    ChainValueEmpty(ps, nodes);
    ChainShape(ps, nodes);
    match ChainSource(ps, nodes)
    case None =>
    case Some(k) => assert ps[k].IsGrade();
  }

  /** A chain of digit-capturing patterns yields `''` exactly when none matches, and otherwise a non-empty string of digits. */
  lemma DigitChainShape(ps: seq<Pattern>, nodes: seq<string>)
    requires forall k :: 0 <= k < |ps| ==> ps[k].IsNumeric()
    ensures Chain(ps, nodes).Some? ==> |Chain(ps, nodes).value| >= 1 && AllDigits(Chain(ps, nodes).value)
    ensures OrEmpty(Chain(ps, nodes)) == "" <==> forall k :: 0 <= k < |ps| ==> FirstCapture(ps[k], nodes).None?
  {
    ChainValueEmpty(ps, nodes);
    ChainShape(ps, nodes);
    match ChainSource(ps, nodes)
    case None =>
    case Some(k) => assert ps[k].IsNumeric();
  }

  /** A chain of grid-reference patterns yields `''` exactly when none matches, and otherwise a coordinate. */
  lemma GridChainShape(ps: seq<Pattern>, nodes: seq<string>)
    requires forall k :: 0 <= k < |ps| ==> ps[k].IsGridRef()
    ensures Chain(ps, nodes).Some? ==> CoordinateShape(Chain(ps, nodes).value)
    ensures OrEmpty(Chain(ps, nodes)) == "" <==> forall k :: 0 <= k < |ps| ==> FirstCapture(ps[k], nodes).None?
  {
    ChainValueEmpty(ps, nodes);
    ChainShape(ps, nodes);
    match ChainSource(ps, nodes)
    case None =>
    case Some(k) => assert ps[k].IsGridRef();
  }

  /** Every key the extractor never writes keeps the empty string it started with. */
  lemma UnwrittenFieldsEmpty(nodes: seq<string>, paras: seq<string>)
    ensures var d := SpecificData(nodes, paras);
      && d.listDate == "" && d.description == "" && d.history == ""
      && d.reasonsForListing == "" && d.location == "" && d.address == ""
      && d.architecturalStyle == "" && d.interiorFeatures == "" && d.exteriorFeatures == ""
  {
  }

  /** The grade chain's value: empty exactly when no grade pattern matches, otherwise a run over I, i, 2 and *. */
  lemma GradeChain(nodes: seq<string>)
    ensures var g := OrEmpty(Chain(GradePatterns, nodes));
      && (g == "" <==> forall k :: 0 <= k < |GradePatterns| ==> FirstCapture(GradePatterns[k], nodes).None?)
      && (g != "" ==> AllGradeChars(g))
  {
    GradeChainShape(GradePatterns, nodes);
  }

  /**
   * `grade` is empty exactly when no grade pattern matches any node; otherwise
   * it is the capture of the first grade pattern, in list order, that
   * matches, a non-empty run over I, i, 2 and *.
   */
  lemma GradeField(nodes: seq<string>, paras: seq<string>)
    ensures var g := SpecificData(nodes, paras).grade;
      && (g == "" <==> forall k :: 0 <= k < |GradePatterns| ==> FirstCapture(GradePatterns[k], nodes).None?)
      && (g != "" ==> AllGradeChars(g))
  {
    LabelledFields(nodes, paras);
    GradeChain(nodes);
  }

  /** The entry chain's value: empty exactly when no entry pattern matches, otherwise digits. */
  lemma EntryChain(nodes: seq<string>)
    ensures var e := OrEmpty(Chain(EntryPatterns, nodes));
      && (e == "" <==> forall k :: 0 <= k < |EntryPatterns| ==> FirstCapture(EntryPatterns[k], nodes).None?)
      && (e != "" ==> AllDigits(e))
  {
    DigitChainShape(EntryPatterns, nodes);
  }

  /** A non-empty `list_entry` is all digits; it is empty exactly when no entry pattern matches. */
  lemma ListEntryField(nodes: seq<string>, paras: seq<string>)
    ensures var e := SpecificData(nodes, paras).listEntry;
      && (e == "" <==> forall k :: 0 <= k < |EntryPatterns| ==> FirstCapture(EntryPatterns[k], nodes).None?)
      && (e != "" ==> AllDigits(e))
  {
    LabelledFields(nodes, paras);
    EntryChain(nodes);
  }

  /**
   * The entry chain prefers a labelled list entry over a bare six-digit
   * number, wherever in the document the bare number occurs.
   */
  lemma EntryChainPrefersLabels(nodes: seq<string>)
    requires FirstCapture(ListEntryLabel, nodes).Some? || FirstCapture(EntryLabel, nodes).Some?
    ensures var e := OrEmpty(Chain(EntryPatterns, nodes));
      e == OrEmpty(FirstCapture(ListEntryLabel, nodes)) || e == OrEmpty(FirstCapture(EntryLabel, nodes))
  {
    if FirstCapture(ListEntryLabel, nodes).Some? {
      ChainPicksFirstListed(EntryPatterns, nodes, 0);
    } else {
      ChainPicksFirstListed(EntryPatterns, nodes, 1);
    }
  }

  /** `list_entry` is a labelled entry whenever the document has one. */
  lemma LabelledEntryWins(nodes: seq<string>, paras: seq<string>)
    requires FirstCapture(ListEntryLabel, nodes).Some? || FirstCapture(EntryLabel, nodes).Some?
    ensures var e := SpecificData(nodes, paras).listEntry;
      e == OrEmpty(FirstCapture(ListEntryLabel, nodes)) || e == OrEmpty(FirstCapture(EntryLabel, nodes))
  {
    LabelledFields(nodes, paras);
    EntryChainPrefersLabels(nodes);
  }

  /** The coordinate chain's value: empty exactly when no grid pattern matches, otherwise a grid reference. */
  lemma CoordinateChain(nodes: seq<string>)
    ensures var c := OrEmpty(Chain(CoordPatterns, nodes));
      && (c == "" <==> forall k :: 0 <= k < |CoordPatterns| ==> FirstCapture(CoordPatterns[k], nodes).None?)
      && (c != "" ==> CoordinateShape(c))
  {
    GridChainShape(CoordPatterns, nodes);
  }

  /** A non-empty `coordinates` value is two letters, then two groups of 4-6 digits, each optionally after one space. */
  lemma CoordinatesField(nodes: seq<string>, paras: seq<string>)
    ensures var c := SpecificData(nodes, paras).coordinates;
      && (c == "" <==> forall k :: 0 <= k < |CoordPatterns| ==> FirstCapture(CoordPatterns[k], nodes).None?)
      && (c != "" ==> CoordinateShape(c))
  {
    LabelledFields(nodes, paras);
    CoordinateChain(nodes);
  }

  /**
   * `architectural_details` is the stripped text of the first qualifying
   * paragraph; when no paragraph qualifies, it, `materials` and
   * `construction_period` are all empty.
   */
  lemma ArchitecturalSelection(nodes: seq<string>, paras: seq<string>)
    ensures var data := SpecificData(nodes, paras);
      match FirstQualifying(paras, ArchitecturalKeywords)
      case Some(k) =>
        && data.architecturalDetails == Strip(paras[k])
        && |data.architecturalDetails| > 100
        && KeywordHits(ArchitecturalKeywords, Lower(data.architecturalDetails)) >= 3
        && data.materials == Materials(data.architecturalDetails)
        && data.constructionPeriod == OrEmpty(Chain(PeriodPatterns, [data.architecturalDetails]))
      case None =>
        data.architecturalDetails == "" && data.materials == "" && data.constructionPeriod == ""
  {
  }

  /** The period chain on one paragraph yields digits only. */
  lemma PeriodDigits(text: string)
    ensures var c := Chain(PeriodPatterns, [text]); c.Some? ==> |c.value| >= 1 && AllDigits(c.value)
  {
    DigitChainShape(PeriodPatterns, [text]);
  }

  /** Taking a paragraph sets a period only from the period chain on that paragraph. */
  lemma PeriodTaken(data: Record, text: string)
    requires data.constructionPeriod == ""
    ensures var p := WithParagraph(data, text).constructionPeriod;
      p != "" ==> Chain(PeriodPatterns, [text]).Some? && p == Chain(PeriodPatterns, [text]).value
  {
  }

  /** A non-empty `construction_period` is the digits of a century found in the chosen paragraph. */
  lemma PeriodField(nodes: seq<string>, paras: seq<string>)
    ensures var p := SpecificData(nodes, paras).constructionPeriod;
      p != "" ==> |p| >= 1 && AllDigits(p) && FirstQualifying(paras, ArchitecturalKeywords).Some?
  {
    match FirstQualifying(paras, ArchitecturalKeywords)
    case None =>
    case Some(i) =>
      var text := Strip(paras[i]);
      PeriodTaken(Labelled(nodes), text);
      PeriodDigits(text);
  }

  /** The keyword list is the older extractor's fourteen followed by six more, with no repeats. */
  lemma KeywordListsNest()
    ensures ArchitecturalKeywords == LegacyKeywords + ExtraKeywords
    ensures NoDuplicates(ArchitecturalKeywords)
  {
  }
}
