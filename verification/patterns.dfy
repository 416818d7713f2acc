/**
 * The fixed regular expressions of the scraper, each written as a matcher
 * that behaves like Python's `re` engine on that one pattern with the
 * `re.IGNORECASE` flag: a match is attempted at each start position from
 * left to right, quantifiers are greedy, and a failed continuation makes the
 * engine back off the most recent quantifier first.
 *
 * For every pattern except the grid-reference tail, backing off cannot
 * help: the character after a greedy run lies in the run's own class, and
 * that class is disjoint from what the pattern expects next (for instance
 * `\s*` and `[:\s]*` are followed by a digit, `[I2*]+` by a space or `G`).
 * Those matchers therefore take maximal runs.  The grid-reference tail
 * `\s?\d{4,6}\s?\d{4,6}` does need back-off (`ST12345678` splits 4 + 4) and
 * is written with the engine's order of alternatives.
 */
module Patterns {
  import opened Wrappers
  import opened Text
  import opened Scan

  /** One attempt that succeeded: the span matched, and capture group 1. */
  datatype Match = Match(start: nat, end: nat, capStart: nat, capture: string)

  /** Capture group 1 is the slice of the subject starting at `capStart`. */
  predicate CaptureIn(s: string, m: Match)
  {
    m.capStart + |m.capture| <= |s| && m.capture == s[m.capStart..m.capStart + |m.capture|]
  }

  /** The patterns, in the source's notation. */
  datatype Pattern =
    | GradeAfter              // Grade\s+([I2*]+)
    | GradeColon              // Grade\s*:\s*([I2*]+)
    | GradeBefore             // ([I2*]+)\s*Grade
    | ListEntryLabel          // List Entry\s*[:\s]*(\d+)
    | EntryLabel              // Entry\s*[:\s]*(\d+)
    | BareNumber              // (\d{6,})
    | NationalGridRef         // National Grid Reference[:\s]*([A-Z]{2}\s?\d{4,6}\s?\d{4,6})
    | NgrLabel                // NGR[:\s]*([A-Z]{2}\s?\d{4,6}\s?\d{4,6})
    | GridRefLabel            // Grid Reference[:\s]*([A-Z]{2}\s?\d{4,6}\s?\d{4,6})
    | MidCentury              // Mid C(\d+)
    | EarlyCentury            // Early C(\d+)
    | LateCentury             // Late C(\d+)
    | NthCentury              // (\d+)th century
    | NthHyphenCentury        // (\d+)th-century
    | UprnTwelve              // UPRN[:\s]*(\d{12})
    | UniquePropertyRefTwelve // Unique Property Reference Number[:\s]*(\d{12})
    | PropertyRefTwelve       // Property Reference[:\s]*(\d{12})
    | AnyTwelve               // (\d{12})
    | UprnDigits              // UPRN[:\s]*(\d+)
    | PropertyId              // Property ID[:\s]*(\d+)
    | AddressId               // Address ID[:\s]*(\d+)
    | BuildingId              // Building ID[:\s]*(\d+)
    | ReferenceEightToTwelve  // Reference[:\s]*(\d{8,12})
    | UprnMention             // UPRN|Unique Property Reference
  {
    predicate IsGrade() { GradeAfter? || GradeColon? || GradeBefore? }
    predicate IsGridRef() { NationalGridRef? || NgrLabel? || GridRefLabel? }
    /** Patterns of the shape `(\d+)<label>`. */
    predicate IsDigitsFirst() { NthCentury? || NthHyphenCentury? }
    /** Patterns whose group 1 is a run of digits. */
    predicate IsNumeric() { !IsGrade() && !IsGridRef() && !UprnMention? }

    /** The literal text of the pattern (empty for a bare number). */
    function Label(): string
    {
      match this
      case GradeAfter => "Grade"
      case GradeColon => "Grade"
      case GradeBefore => "Grade"
      case ListEntryLabel => "List Entry"
      case EntryLabel => "Entry"
      case BareNumber => ""
      case NationalGridRef => "National Grid Reference"
      case NgrLabel => "NGR"
      case GridRefLabel => "Grid Reference"
      case MidCentury => "Mid C"
      case EarlyCentury => "Early C"
      case LateCentury => "Late C"
      case NthCentury => "th century"
      case NthHyphenCentury => "th-century"
      case UprnTwelve => "UPRN"
      case UniquePropertyRefTwelve => "Unique Property Reference Number"
      case PropertyRefTwelve => "Property Reference"
      case AnyTwelve => ""
      case UprnDigits => "UPRN"
      case PropertyId => "Property ID"
      case AddressId => "Address ID"
      case BuildingId => "Building ID"
      case ReferenceEightToTwelve => "Reference"
      case UprnMention => "UPRN"
    }

    /** What the pattern allows between its label and its digit group. */
    function Gap(): Gap
    {
      if ListEntryLabel? || EntryLabel? then SpaceThenColonSpace
      else if BareNumber? || AnyTwelve? || MidCentury? || EarlyCentury? || LateCentury? then NoGap
      else ColonSpace
    }

    /** The repetition bounds of the digit group. */
    function DigitReps(): Reps
    {
      if BareNumber? then Reps(6, None)
      else if UprnTwelve? || UniquePropertyRefTwelve? || PropertyRefTwelve? || AnyTwelve? then Reps(12, Some(12))
      else if ReferenceEightToTwelve? then Reps(8, Some(12))
      else Reps(1, None)
    }
  }

  /** `[I2*]` under `re.IGNORECASE`. */
  predicate IsGradeChar(c: char) { c == 'I' || c == 'i' || c == '2' || c == '*' }

  /** `[:\s]` */
  predicate IsColonOrSpace(c: char) { c == ':' || IsSpace(c) }

  predicate AllGradeChars(t: string) { forall k :: 0 <= k < |t| ==> IsGradeChar(t[k]) }

  /** `\d{4,6}` matched as a whole. */
  predicate DigitGroup(t: string) { 4 <= |t| <= 6 && AllDigits(t) }

  /** `\s?\d{4,6}` matched as a whole. */
  predicate SpacedGroup(t: string)
  {
    DigitGroup(t) || (|t| >= 1 && IsSpace(t[0]) && DigitGroup(t[1..]))
  }

  /** `\s?\d{4,6}\s?\d{4,6}` matched as a whole. */
  predicate GridDigits(t: string)
  {
    exists k :: 0 <= k <= |t| && SpacedGroup(t[..k]) && SpacedGroup(t[k..])
  }

  /** `[A-Z]{2}\s?\d{4,6}\s?\d{4,6}` under `re.IGNORECASE`, matched as a whole. */
  predicate CoordinateShape(c: string)
  {
    |c| >= 2 && IsAsciiLetter(c[0]) && IsAsciiLetter(c[1]) && GridDigits(c[2..])
  }

  /** What group 1 of each pattern looks like whenever the pattern matches. */
  predicate CaptureShape(p: Pattern, c: string)
  {
    if p.IsGrade() then |c| >= 1 && AllGradeChars(c)
    else if p.IsGridRef() then CoordinateShape(c)
    else if p.UprnMention? then SpellsLabel(c, "UPRN") || SpellsLabel(c, "Unique Property Reference")
    else
      && |c| >= p.DigitReps().lo && AllDigits(c)
      && (p.DigitReps().hi.Some? ==> |c| <= p.DigitReps().hi.value)
  }

  /** Group 1 of every pattern is non-empty whenever the pattern matches. */
  lemma CaptureShapeNonEmpty(p: Pattern, c: string)
    requires CaptureShape(p, c)
    ensures |c| >= 1
  {
    if p.UprnMention? {
      assert |"UPRN"| == 4;
    }
  }

  /** Length of the longest run of `inClass` characters starting at `i`. */
  function Run(s: string, i: nat, inClass: char -> bool): (n: nat)
    requires i <= |s|
    ensures i + n <= |s|
    decreases |s| - i
  {
    if i < |s| && inClass(s[i]) then 1 + Run(s, i + 1, inClass) else 0
  }

  /** The run is made of `inClass` characters and stops at one outside the class, or at the end. */
  lemma {:induction false} RunIsMaximal(s: string, i: nat, inClass: char -> bool)
    requires i <= |s|
    ensures forall k :: i <= k < i + Run(s, i, inClass) ==> inClass(s[k])
    ensures i + Run(s, i, inClass) == |s| || !inClass(s[i + Run(s, i, inClass)])
    decreases |s| - i
  {
    if i < |s| && inClass(s[i]) {
      RunIsMaximal(s, i + 1, inClass);
    }
  }

  /** The characters of `lit` equal those of `s` from `i` on, ignoring ASCII case. */
  predicate SameIgnoringCase(s: string, i: nat, lit: string)
    decreases |lit|
  {
    |lit| == 0 || (i < |s| && LowerChar(s[i]) == LowerChar(lit[0]) && SameIgnoringCase(s, i + 1, lit[1..]))
  }

  /** The literal `lit` matched at `i` under `re.IGNORECASE`. */
  predicate LabelAt(s: string, i: nat, lit: string)
  {
    i + |lit| <= |s| && SameIgnoringCase(s, i, lit)
  }

  /** `c` is the literal `lit`, up to ASCII case. */
  predicate SpellsLabel(c: string, lit: string)
  {
    |c| == |lit| && LabelAt(c, 0, lit)
  }

  /** A literal matched at `i` also matches the slice `s[a..b]` around it, at `i - a`. */
  lemma {:induction false} SameIgnoringCaseInSlice(s: string, i: nat, lit: string, a: nat, b: nat)
    requires SameIgnoringCase(s, i, lit) && a <= i && i + |lit| <= b <= |s|
    ensures SameIgnoringCase(s[a..b], i - a, lit)
    decreases |lit|
  {
    if |lit| > 0 {
      SameIgnoringCaseInSlice(s, i + 1, lit[1..], a, b);
    }
  }

  /** Repetition bounds `{lo,hi}`, or `{lo,}` when `hi` is None. */
  datatype Reps = Reps(lo: nat, hi: Option<nat>)

  /**
   * `\d{lo,hi}` as the last element of a pattern: greedy, so as many digits
   * as the run and the upper bound allow, and a match iff that is `lo` or more.
   */
  function GreedyDigits(s: string, p: nat, reps: Reps): (e: Option<nat>)
    requires p <= |s|
    ensures e.Some? ==> p + reps.lo <= e.value <= |s|
  {
    var run := Run(s, p, IsDigit);
    var n := if reps.hi.Some? && reps.hi.value < run then reps.hi.value else run;
    if n >= reps.lo then Some(p + n) else None
  }

  /** The digits taken are digits, within the bounds, and missing only when too few are there. */
  lemma GreedyDigitsFacts(s: string, p: nat, reps: Reps)
    requires p <= |s|
    ensures var e := GreedyDigits(s, p, reps);
      && (e.Some? ==> AllDigits(s[p..e.value]))
      && (e.Some? && reps.hi.Some? ==> e.value - p <= reps.hi.value)
      && (e.None? <==> Run(s, p, IsDigit) < reps.lo || (reps.hi.Some? && reps.hi.value < reps.lo))
  {
    RunIsMaximal(s, p, IsDigit);
  }

  /** What may sit between a label and its digits. */
  datatype Gap = NoGap | ColonSpace | SpaceThenColonSpace

  function GapEnd(s: string, p: nat, gap: Gap): (q: nat)
    requires p <= |s|
    ensures p <= q <= |s|
  {
    match gap
    case NoGap => p
    case ColonSpace => p + Run(s, p, IsColonOrSpace)
    case SpaceThenColonSpace =>
      var q1 := p + Run(s, p, IsSpace);
      q1 + Run(s, q1, IsColonOrSpace)
  }

  /** A match attempted at `i` that spans a non-empty stretch of `s` and captures a slice of it. */
  predicate WellPlaced(s: string, i: nat, r: Option<Match>)
  {
    r.Some? ==> r.value.start == i && i < r.value.end <= |s| && CaptureIn(s, r.value)
  }

  /** `Label<gap>(\d{lo,hi})`; the label may be empty. */
  function LabelThenDigits(s: string, i: nat, lit: string, gap: Gap, reps: Reps): Option<Match>
    requires i <= |s|
  {
    if !LabelAt(s, i, lit) then None
    else
      var q := GapEnd(s, i + |lit|, gap);
      match GreedyDigits(s, q, reps)
      case None => None
      case Some(e) => Some(Match(i, e, q, s[q..e]))
  }

  lemma LabelThenDigitsShape(s: string, i: nat, lit: string, gap: Gap, reps: Reps)
    requires i <= |s| && reps.lo >= 1
    ensures var r := LabelThenDigits(s, i, lit, gap, reps);
      && WellPlaced(s, i, r)
      && (r.Some? ==> |r.value.capture| >= reps.lo && AllDigits(r.value.capture))
      && (r.Some? && reps.hi.Some? ==> |r.value.capture| <= reps.hi.value)
  {
    if LabelAt(s, i, lit) {
      GreedyDigitsFacts(s, GapEnd(s, i + |lit|, gap), reps);
    }
  }

  /** `(\d+)<label>`, as in `(\d+)th century`. */
  function DigitsThenLabel(s: string, i: nat, lit: string): Option<Match>
    requires i <= |s|
  {
    var n := Run(s, i, IsDigit);
    if n >= 1 && LabelAt(s, i + n, lit) then Some(Match(i, i + n + |lit|, i, s[i..i + n])) else None
  }

  lemma DigitsThenLabelShape(s: string, i: nat, lit: string)
    requires i <= |s|
    ensures var r := DigitsThenLabel(s, i, lit);
      WellPlaced(s, i, r) && (r.Some? ==> |r.value.capture| >= 1 && AllDigits(r.value.capture))
  {
    RunIsMaximal(s, i, IsDigit);
  }

  /** `([I2*]+)` from position `q`, closing a match attempted at `i`. */
  function GradeRun(s: string, i: nat, q: nat): Option<Match>
    requires i <= q <= |s|
  {
    var g := Run(s, q, IsGradeChar);
    if g >= 1 then Some(Match(i, q + g, q, s[q..q + g])) else None
  }

  lemma GradeRunShape(s: string, i: nat, q: nat)
    requires i <= q <= |s|
    ensures var r := GradeRun(s, i, q);
      WellPlaced(s, i, r) && (r.Some? ==> |r.value.capture| >= 1 && AllGradeChars(r.value.capture))
  {
    RunIsMaximal(s, q, IsGradeChar);
  }

  /** `Grade\s+([I2*]+)`, with `lit` the label `Grade` */
  function GradeAfterAt(s: string, i: nat, lit: string): Option<Match>
    requires i <= |s|
  {
    if !LabelAt(s, i, lit) then None
    else
      var w := Run(s, i + |lit|, IsSpace);
      if w >= 1 then GradeRun(s, i, i + |lit| + w) else None
  }

  /** `Grade\s*:\s*([I2*]+)`, with `lit` the label `Grade` */
  function GradeColonAt(s: string, i: nat, lit: string): Option<Match>
    requires i <= |s|
  {
    if !LabelAt(s, i, lit) then None
    else
      var c := i + |lit| + Run(s, i + |lit|, IsSpace);
      if c < |s| && s[c] == ':' then GradeRun(s, i, c + 1 + Run(s, c + 1, IsSpace))
      else None
  }

  /** `([I2*]+)\s*Grade`, with `lit` the label `Grade` */
  function GradeBeforeAt(s: string, i: nat, lit: string): Option<Match>
    requires i <= |s|
  {
    var g := Run(s, i, IsGradeChar);
    var q := i + g + Run(s, i + g, IsSpace);
    if g >= 1 && LabelAt(s, q, lit) then Some(Match(i, q + |lit|, i, s[i..i + g])) else None
  }

  /** `Grade\s+([I2*]+)` captures a non-empty run over I, i, 2 and *. */
  lemma GradeAfterShape(s: string, i: nat, lit: string)
    requires i <= |s|
    ensures var r := GradeAfterAt(s, i, lit);
      WellPlaced(s, i, r) && (r.Some? ==> |r.value.capture| >= 1 && AllGradeChars(r.value.capture))
  {
    if LabelAt(s, i, lit) {
      var w := Run(s, i + |lit|, IsSpace);
      if w >= 1 {
        GradeRunShape(s, i, i + |lit| + w);
        assert GradeAfterAt(s, i, lit) == GradeRun(s, i, i + |lit| + w);
      }
    }
  }

  /** `Grade\s*:\s*([I2*]+)` captures a non-empty run over I, i, 2 and *. */
  lemma GradeColonShape(s: string, i: nat, lit: string)
    requires i <= |s|
    ensures var r := GradeColonAt(s, i, lit);
      WellPlaced(s, i, r) && (r.Some? ==> |r.value.capture| >= 1 && AllGradeChars(r.value.capture))
  {
    if LabelAt(s, i, lit) {
      var c := i + |lit| + Run(s, i + |lit|, IsSpace);
      if c < |s| && s[c] == ':' {
        var q := c + 1 + Run(s, c + 1, IsSpace);
        GradeRunShape(s, i, q);
        assert GradeColonAt(s, i, lit) == GradeRun(s, i, q);
      }
    }
  }

  /** `([I2*]+)\s*Grade` captures a non-empty run over I, i, 2 and *. */
  lemma GradeBeforeShape(s: string, i: nat, lit: string)
    requires i <= |s|
    ensures var r := GradeBeforeAt(s, i, lit);
      WellPlaced(s, i, r) && (r.Some? ==> |r.value.capture| >= 1 && AllGradeChars(r.value.capture))
  {
    RunIsMaximal(s, i, IsGradeChar);
  }

  /** `\s?\d{4,6}` ending the pattern: the space is taken if that leads to a match. */
  function SecondGroup(s: string, q: nat): (e: Option<nat>)
    requires q <= |s|
    ensures e.Some? ==> q < e.value <= |s|
  {
    var digits := Reps(4, Some(6));
    if q < |s| && IsSpace(s[q]) && GreedyDigits(s, q + 1, digits).Some? then
      GreedyDigits(s, q + 1, digits)
    else
      GreedyDigits(s, q, digits)
  }

  lemma SecondGroupShape(s: string, q: nat)
    requires q <= |s|
    ensures var e := SecondGroup(s, q); e.Some? ==> SpacedGroup(s[q..e.value])
  {
    var digits := Reps(4, Some(6));
    GreedyDigitsFacts(s, q, digits);
    if q < |s| && IsSpace(s[q]) && GreedyDigits(s, q + 1, digits).Some? {
      GreedyDigitsFacts(s, q + 1, digits);
      var e := GreedyDigits(s, q + 1, digits).value;
      assert s[q..e][1..] == s[q + 1..e];
    }
  }

  /**
   * `\d{n}` for n = `n`, n-1, ..., 4 (only while the digits are there),
   * each followed by `\s?\d{4,6}`; the first that completes wins.
   * The result is the end of the first group and the end of the match.
   */
  function FirstGroupFrom(s: string, q: nat, n: nat): (r: Option<(nat, nat)>)
    requires q <= |s| && n <= 6
    ensures r.Some? ==> q + 4 <= r.value.0 <= q + 6 && r.value.0 < r.value.1 <= |s|
    decreases n
  {
    if n < 4 then None
    else if n <= Run(s, q, IsDigit) && SecondGroup(s, q + n).Some? then
      Some((q + n, SecondGroup(s, q + n).value))
    else FirstGroupFrom(s, q, n - 1)
  }

  /** Any prefix of a digit run is all digits. */
  lemma DigitsInRun(s: string, q: nat, n: nat)
    requires q <= |s| && n <= Run(s, q, IsDigit)
    ensures AllDigits(s[q..q + n])
  {
    RunIsMaximal(s, q, IsDigit);
  }

  lemma {:induction false} FirstGroupFromShape(s: string, q: nat, n: nat)
    requires q <= |s| && n <= 6
    ensures var r := FirstGroupFrom(s, q, n);
      r.Some? ==> DigitGroup(s[q..r.value.0]) && SpacedGroup(s[r.value.0..r.value.1])
    decreases n
  {
    if n >= 4 {
      if n <= Run(s, q, IsDigit) && SecondGroup(s, q + n).Some? {
        DigitsInRun(s, q, n);
        SecondGroupShape(s, q + n);
      } else {
        FirstGroupFromShape(s, q, n - 1);
      }
    }
  }

  /** `\s?\d{4,6}\s?\d{4,6}`: the leading space is tried first, then without it. */
  function GridTail(s: string, p: nat): (r: Option<(nat, nat)>)
    requires p <= |s|
    ensures r.Some? ==> p < r.value.0 < r.value.1 <= |s|
  {
    if p < |s| && IsSpace(s[p]) && FirstGroupFrom(s, p + 1, 6).Some? then
      FirstGroupFrom(s, p + 1, 6)
    else FirstGroupFrom(s, p, 6)
  }

  lemma GridTailShape(s: string, p: nat)
    requires p <= |s|
    ensures var r := GridTail(s, p);
      r.Some? ==> SpacedGroup(s[p..r.value.0]) && SpacedGroup(s[r.value.0..r.value.1])
  {
    FirstGroupFromShape(s, p, 6);
    if p < |s| && IsSpace(s[p]) && FirstGroupFrom(s, p + 1, 6).Some? {
      FirstGroupFromShape(s, p + 1, 6);
      var r := FirstGroupFrom(s, p + 1, 6).value;
      assert s[p..r.0][1..] == s[p + 1..r.0];
    }
  }

  /** `[A-Z]{2}\s?\d{4,6}\s?\d{4,6}` from position `p`: where the match ends. */
  function CoordinateEnd(s: string, p: nat): (e: Option<nat>)
    requires p <= |s|
    ensures e.Some? ==> p < e.value <= |s|
  {
    if p + 2 <= |s| && IsAsciiLetter(s[p]) && IsAsciiLetter(s[p + 1]) then
      match GridTail(s, p + 2)
      case None => None
      case Some(ends) => Some(ends.1)
    else None
  }

  lemma CoordinateEndShape(s: string, p: nat)
    requires p <= |s|
    ensures var e := CoordinateEnd(s, p); e.Some? ==> CoordinateShape(s[p..e.value])
  {
    if p + 2 <= |s| && IsAsciiLetter(s[p]) && IsAsciiLetter(s[p + 1]) && GridTail(s, p + 2).Some? {
      GridTailShape(s, p + 2);
      var ends := GridTail(s, p + 2).value;
      var c := s[p..ends.1];
      var k := ends.0 - (p + 2);
      assert c[2..][..k] == s[p + 2..ends.0];
      assert c[2..][k..] == s[ends.0..ends.1];
    }
  }

  /** `Label[:\s]*([A-Z]{2}\s?\d{4,6}\s?\d{4,6})` */
  function GridRefAt(s: string, i: nat, lit: string): Option<Match>
    requires i <= |s|
  {
    if !LabelAt(s, i, lit) then None
    else
      var p := GapEnd(s, i + |lit|, ColonSpace);
      match CoordinateEnd(s, p)
      case None => None
      case Some(e) => Some(Match(i, e, p, s[p..e]))
  }

  lemma GridRefShape(s: string, i: nat, lit: string)
    requires i <= |s|
    ensures var r := GridRefAt(s, i, lit);
      WellPlaced(s, i, r) && (r.Some? ==> CoordinateShape(r.value.capture))
  {
    if LabelAt(s, i, lit) {
      CoordinateEndShape(s, GapEnd(s, i + |lit|, ColonSpace));
    }
  }

  /** A literal matched at `i` is matched by the slice it occupies. */
  lemma LabelCaptured(s: string, i: nat, lit: string)
    requires LabelAt(s, i, lit)
    ensures LabelAt(s[i..i + |lit|], 0, lit)
  {
    SameIgnoringCaseInSlice(s, i, lit, i, i + |lit|);
  }

  /** The pattern `(Label)`: group 1 is the text the literal matched. */
  function LiteralAt(s: string, i: nat, lit: string): Option<Match>
    requires i <= |s|
  {
    if LabelAt(s, i, lit) then Some(Match(i, i + |lit|, i, s[i..i + |lit|])) else None
  }

  lemma LiteralShape(s: string, i: nat, lit: string)
    requires i <= |s| && |lit| > 0
    ensures var r := LiteralAt(s, i, lit);
      WellPlaced(s, i, r) && (r.Some? ==> SpellsLabel(r.value.capture, lit))
  {
    if LabelAt(s, i, lit) {
      LabelCaptured(s, i, lit);
    }
  }

  /** `UPRN|Unique Property Reference`: the first alternative is tried first. */
  function MentionAt(s: string, i: nat): Option<Match>
    requires i <= |s|
  {
    var r := LiteralAt(s, i, "UPRN");
    if r.Some? then r else LiteralAt(s, i, "Unique Property Reference")
  }

  lemma MentionShape(s: string, i: nat)
    requires i <= |s|
    ensures var r := MentionAt(s, i);
      && WellPlaced(s, i, r)
      && (r.Some? ==> SpellsLabel(r.value.capture, "UPRN") || SpellsLabel(r.value.capture, "Unique Property Reference"))
  {
    LiteralShape(s, i, "UPRN");
    LiteralShape(s, i, "Unique Property Reference");
  }

  /** One match attempt of pattern `p` anchored at position `i` of `s`. */
  function MatchAt(p: Pattern, s: string, i: nat): (r: Option<Match>)
    requires i <= |s|
    ensures r.Some? ==> r.value.start == i && i < r.value.end <= |s|
  {
    if p.GradeAfter? then GradeAfterShape(s, i, p.Label()); GradeAfterAt(s, i, p.Label())
    else if p.GradeColon? then GradeColonShape(s, i, p.Label()); GradeColonAt(s, i, p.Label())
    else if p.GradeBefore? then GradeBeforeShape(s, i, p.Label()); GradeBeforeAt(s, i, p.Label())
    else if p.IsGridRef() then GridRefShape(s, i, p.Label()); GridRefAt(s, i, p.Label())
    else if p.UprnMention? then MentionShape(s, i); MentionAt(s, i)
    else if p.IsDigitsFirst() then DigitsThenLabelShape(s, i, p.Label()); DigitsThenLabel(s, i, p.Label())
    else
      LabelThenDigitsShape(s, i, p.Label(), p.Gap(), p.DigitReps());
      LabelThenDigits(s, i, p.Label(), p.Gap(), p.DigitReps())
  }

  /** Group 1 of a match attempt is a slice of the subject with the pattern's capture shape. */
  lemma MatchAtShape(p: Pattern, s: string, i: nat)
    requires i <= |s|
    ensures var r := MatchAt(p, s, i);
      WellPlaced(s, i, r) && (r.Some? ==> CaptureShape(p, r.value.capture))
  {
    if p.GradeAfter? {
      GradeAfterShape(s, i, p.Label());
    } else if p.GradeColon? {
      GradeColonShape(s, i, p.Label());
    } else if p.GradeBefore? {
      GradeBeforeShape(s, i, p.Label());
    } else if p.IsGridRef() {
      GridRefShape(s, i, p.Label());
    } else if p.UprnMention? {
      MentionShape(s, i);
    } else if p.IsDigitsFirst() {
      DigitsThenLabelShape(s, i, p.Label());
    } else {
      LabelThenDigitsShape(s, i, p.Label(), p.Gap(), p.DigitReps());
    }
  }

  /** Whether `p` matches when attempted at position `j` of `s`. */
  function MatchesAt(p: Pattern, s: string): nat -> bool
  {
    (j: nat) => j <= |s| && MatchAt(p, s, j).Some?
  }

  /**
   * `re.search` from position `i`: the match attempted at the first start
   * position, `i` through `|s|` in order, where the pattern matches.
   */
  function SearchFrom(p: Pattern, s: string, i: nat): (r: Option<Match>)
    requires i <= |s|
    ensures r.Some? ==> i <= r.value.start < r.value.end <= |s|
  {
    match FirstWhere(MatchesAt(p, s), |s| + 1, i)
    case None => None
    case Some(j) => MatchAt(p, s, j)
  }

  /** What `re.search` reports carries group 1 as a slice of the subject, with the pattern's capture shape. */
  lemma SearchFromShape(p: Pattern, s: string, i: nat)
    requires i <= |s|
    ensures var r := SearchFrom(p, s, i);
      r.Some? ==> CaptureIn(s, r.value) && CaptureShape(p, r.value.capture)
  {
    match FirstWhere(MatchesAt(p, s), |s| + 1, i)
    case None =>
    case Some(j) => MatchAtShape(p, s, j);
  }

  /**
   * The match `re.search` reports is the one attempted at the leftmost start
   * position where the pattern matches.
   */
  lemma SearchFromIsLeftmost(p: Pattern, s: string, i: nat)
    requires i <= |s|
    ensures var r := SearchFrom(p, s, i);
      r.Some? ==> MatchAt(p, s, r.value.start) == r && forall j :: i <= j < r.value.start ==> MatchAt(p, s, j).None?
  {
    match FirstWhere(MatchesAt(p, s), |s| + 1, i)
    case None =>
    case Some(k) =>
      forall j | i <= j < k
        ensures MatchAt(p, s, j).None?
      {
        assert !MatchesAt(p, s)(j);
      }
  }

  /** `re.search` reports nothing exactly when no position from `i` to `|s|` matches. */
  lemma SearchFromNone(p: Pattern, s: string, i: nat)
    requires i <= |s|
    ensures SearchFrom(p, s, i).None? <==> forall j :: i <= j <= |s| ==> MatchAt(p, s, j).None?
  {
    match FirstWhere(MatchesAt(p, s), |s| + 1, i)
    case None =>
      forall j | i <= j <= |s|
        ensures MatchAt(p, s, j).None?
      {
        assert !MatchesAt(p, s)(j);
      }
    case Some(k) =>
      assert MatchesAt(p, s)(k);
  }

  /** `re.search(p, s, re.I)` */
  function Search(p: Pattern, s: string): Option<Match>
  {
    SearchFrom(p, s, 0)
  }

  /**
   * `re.findall` from position `i`: group 1 of successive non-overlapping
   * matches, each search resuming where the previous match ended.
   */
  function FindAllFrom(p: Pattern, s: string, i: nat): (r: seq<string>)
    requires i <= |s|
    decreases |s| - i
  {
    match SearchFrom(p, s, i)
    case None => []
    case Some(m) => [m.capture] + FindAllFrom(p, s, m.end)
  }

  /** `re.findall(p, s, re.I)` */
  function FindAll(p: Pattern, s: string): seq<string>
  {
    FindAllFrom(p, s, 0)
  }

  /** The `n` characters of `s` from position `a`. */
  function Slice(s: string, a: nat, n: nat): string
    requires a + n <= |s|
  {
    s[a..a + n]
  }

  /** `c` occurs in `s` as a contiguous slice. */
  predicate IsSliceOf(c: string, s: string)
  {
    exists a: nat :: a + |c| <= |s| && Slice(s, a, |c|) == c
  }

  /** Whether `s` has `n` consecutive digits somewhere. */
  predicate HasDigitRun(s: string, n: nat)
  {
    exists a: nat :: a + n <= |s| && AllDigits(Slice(s, a, n))
  }

  lemma CaptureIsSlice(s: string, m: Match)
    requires CaptureIn(s, m)
    ensures IsSliceOf(m.capture, s)
  {
    assert Slice(s, m.capStart, |m.capture|) == m.capture;
  }

  /** Every string `re.findall` returns is group 1 of some match, so it has the pattern's capture shape. */
  lemma {:induction false} FindAllShapes(p: Pattern, s: string, i: nat)
    requires i <= |s|
    ensures forall c :: c in FindAllFrom(p, s, i) ==> CaptureShape(p, c)
    decreases |s| - i
  {
    match SearchFrom(p, s, i)
    case None =>
    case Some(m) =>
      SearchFromShape(p, s, i);
      FindAllShapes(p, s, m.end);
      assert FindAllFrom(p, s, i) == [m.capture] + FindAllFrom(p, s, m.end);
  }

  /** Every string `re.findall` returns occurs in the subject as a contiguous slice. */
  lemma {:induction false} FindAllSlices(p: Pattern, s: string, i: nat)
    requires i <= |s|
    ensures forall c :: c in FindAllFrom(p, s, i) ==> IsSliceOf(c, s)
    decreases |s| - i
  {
    match SearchFrom(p, s, i)
    case None =>
    case Some(m) =>
      SearchFromShape(p, s, i);
      CaptureIsSlice(s, m);
      FindAllSlices(p, s, m.end);
      assert FindAllFrom(p, s, i) == [m.capture] + FindAllFrom(p, s, m.end);
  }

  /** A string of at least `n` digits that occurs in `s` shows a run of `n` digits in `s`. */
  lemma DigitSliceGivesRun(s: string, c: string, n: nat)
    requires IsSliceOf(c, s) && AllDigits(c) && n <= |c|
    ensures HasDigitRun(s, n)
  {
    var a: nat :| a + |c| <= |s| && Slice(s, a, |c|) == c;
    assert Slice(s, a, n) == c[..n];
  }
}
