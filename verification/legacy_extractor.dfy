/**
 * The older listing-field extractor of the detailed scraper.  It has ten
 * keys instead of fifteen, the same three labelled pattern chains as the
 * richer extractor, a fourteen-keyword list, and it sets only
 * `architectural_details` from the paragraph it selects: no materials and
 * no construction period.
 */
module LegacyExtractor {
  import opened Wrappers
  import opened Text
  import opened Scan
  import opened Patterns
  import opened Extractor

  /** The ten-key dictionary of the older extractor. */
  datatype LegacyRecord = LegacyRecord(
    grade: string, listEntry: string, listDate: string, description: string,
    history: string, architecturalDetails: string, reasonsForListing: string,
    location: string, coordinates: string, address: string)

  const LegacyBlank: LegacyRecord := LegacyRecord("", "", "", "", "", "", "", "", "", "")

  /** The record after the three labelled chains, which are those of the richer extractor. */
  function LegacyLabelled(nodes: seq<string>): LegacyRecord
  {
    LegacyBlank.(
      grade := OrEmpty(Chain(GradePatterns, nodes)),
      listEntry := OrEmpty(Chain(EntryPatterns, nodes)),
      coordinates := OrEmpty(Chain(CoordPatterns, nodes)))
  }

  /** The record the older extractor returns. */
  function LegacyData(nodes: seq<string>, paras: seq<string>): LegacyRecord
  {
    match FirstQualifying(paras, LegacyKeywords)
    case None => LegacyLabelled(nodes)
    case Some(k) => LegacyLabelled(nodes).(architecturalDetails := Strip(paras[k]))
  }

  /** The three chains, each writing its key only when it finds a value. */
  method LegacyExtractLabelled(nodes: seq<string>) returns (data: LegacyRecord)
    ensures data == LegacyLabelled(nodes)
  {
    data := LegacyBlank;
    var grade := RunChain(GradePatterns, nodes);
    if grade.Some? {
      data := data.(grade := grade.value);
    }
    var entry := RunChain(EntryPatterns, nodes);
    if entry.Some? {
      data := data.(listEntry := entry.value);
    }
    var coord := RunChain(CoordPatterns, nodes);
    if coord.Some? {
      data := data.(coordinates := coord.value);
    }
  }

  /**
   * `extract_building_specific_data` of the detailed scraper: the chains,
   * then the paragraph scan, which records the first qualifying paragraph
   * and stops.
   */
  method LegacyExtract(nodes: seq<string>, paras: seq<string>) returns (data: LegacyRecord)
    ensures data == LegacyData(nodes, paras)
  {
    data := LegacyExtractLabelled(nodes);
    var i := 0;
    while i < |paras|
      invariant 0 <= i <= |paras|
      invariant FirstQualifying(paras, LegacyKeywords) == FirstWhere(ParagraphQualifies(paras, LegacyKeywords), |paras|, i)
    {
      var text := Strip(paras[i]);
      if |text| > 100 {
        var keywordCount := KeywordHits(LegacyKeywords, Lower(text));
        if keywordCount >= 3 {
          assert ParagraphQualifies(paras, LegacyKeywords)(i);
          data := data.(architecturalDetails := text);
          return;
        }
      }
      assert !ParagraphQualifies(paras, LegacyKeywords)(i);
      i := i + 1;
    }
  }

  // ---------------------------------------------------------------------
  // Properties

  /**
   * Only `grade`, `list_entry`, `coordinates` and `architectural_details`
   * can be non-empty; the paragraph taken is the first with stripped length
   * over 100 and at least three of the fourteen keywords, or none.
   */
  lemma LegacyFields(nodes: seq<string>, paras: seq<string>)
    ensures var d := LegacyData(nodes, paras);
      && d.listDate == "" && d.description == "" && d.history == ""
      && d.reasonsForListing == "" && d.location == "" && d.address == ""
      && (match FirstQualifying(paras, LegacyKeywords)
          case None => d.architecturalDetails == ""
          case Some(k) => d.architecturalDetails == Strip(paras[k]) && |d.architecturalDetails| > 100)
  {
  }

  /** The labelled fields agree with the richer extractor's on every page. */
  lemma LegacyAgreesOnLabels(nodes: seq<string>, paras: seq<string>, richParas: seq<string>)
    ensures var d := LegacyData(nodes, paras);
      var r := SpecificData(nodes, richParas);
      d.grade == r.grade && d.listEntry == r.listEntry && d.coordinates == r.coordinates
  {
    LabelledFields(nodes, richParas);
  }

  /** Hits among the twenty keywords are the legacy fourteen's hits plus the six extra ones'. */
  lemma HitsSplit(lt: string)
    ensures KeywordHits(ArchitecturalKeywords, lt) == KeywordHits(LegacyKeywords, lt) + KeywordHits(ExtraKeywords, lt)
  {
    KeywordListsNest();
    KeywordHitsAppend(LegacyKeywords, ExtraKeywords, lt);
  }

  /**
   * A paragraph whose keyword hits all come from timber, slate, thatch,
   * gable, dormer or bay window is never selected by the older extractor,
   * however many of those it mentions.
   */
  lemma ExtraOnlyNeverSelected(text: string)
    requires KeywordHits(ArchitecturalKeywords, Lower(text)) == KeywordHits(ExtraKeywords, Lower(text))
    ensures !Qualifies(text, LegacyKeywords)
  {
    HitsSplit(Lower(text));
  }

  /** A paragraph the older extractor would take, the richer one would take too. */
  lemma LegacyQualifiesRich(text: string)
    requires Qualifies(text, LegacyKeywords)
    ensures Qualifies(text, ArchitecturalKeywords)
  {
    HitsSplit(Lower(text));
  }

  /**
   * The richer extractor never selects a later paragraph than the older one:
   * when the older one takes paragraph `k`, the richer one takes `k` or an
   * earlier paragraph.
   */
  lemma RichSelectsNoLater(paras: seq<string>)
    ensures var legacy := FirstQualifying(paras, LegacyKeywords);
      var rich := FirstQualifying(paras, ArchitecturalKeywords);
      legacy.Some? ==> rich.Some? && rich.value <= legacy.value
  {
    match FirstQualifying(paras, LegacyKeywords)
    case None =>
    case Some(k) =>
      LegacyQualifiesRich(Strip(paras[k]));
  }
}
