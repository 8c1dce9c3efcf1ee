/** The line classifier of `PDFOutlineExtractor`: the noise filter
    (`is_noise`), the heading test (`is_heading`) and the level assigner
    (`determine_heading_level`). All three strip the line they are given
    before looking at it. */
module Classifier {
  import opened Text
  import opened Patterns
  import opened Wrappers

  /** `is_noise`, which strips the line first. */
  predicate IsNoise(line: string) {
    NoiseRule(Strip(line))
  }

  /** A stripped line is noise when it is shorter than three characters or
      one of the six noise patterns matches it, tried in order. */
  predicate NoiseRule(s: string) {
    |s| < 3 || DayFirstDate(s) || YearFirstDate(s) || PageFooter(s) ||
    CopyrightLine(s) || DigitsOnly(s) || PunctuationOnly(s)
  }

  /** The text that marks wrapped body text of the sample documents. */
  const ContentMarker: string := ". This is the content for section:"

  /** The number of lower-case letters, `sum(1 for c in s if c.islower())`. */
  function CountLower(s: string): (n: nat)
    ensures n <= |s|
  {
    if s == [] then 0 else (if IsLower(s[0]) then 1 else 0) + CountLower(s[1..])
  }

  /** `len(s) > 50 and lower > len(s) * 0.7`, compared as Python compares an
      integer with the floating-point product. For the lengths that reach
      this test (51 to 100) the product is exact where it matters, except
      at length 90, where it is 62.99999999999999: 63 lower-case letters
      already exceed it. */
  predicate MostlyLowercase(s: string) {
    |s| > 50 && (10 * CountLower(s) > 7 * |s| || (|s| == 90 && CountLower(s) == 63))
  }

  /** Ends in `.`, `,`, `;`, `!` or `?`, but not in an ellipsis. */
  predicate EndsLikeSentence(s: string) {
    (EndsWith(s, ".") || EndsWith(s, ",") || EndsWith(s, ";") || EndsWith(s, "!") || EndsWith(s, "?")) &&
    !EndsWith(s, "...")
  }

  /** The line is the stored title, which is set and not empty. */
  predicate IsDetectedTitle(s: string, title: Option<string>) {
    title.Some? && title.value != "" && s == title.value
  }

  /** `is_heading`: the guards in their order, then the three patterns. */
  predicate IsHeading(line: string, title: Option<string>) {
    var s := Strip(line);
    if IsNoise(s) then false
    else if IsDetectedTitle(s, title) then false
    else if |s| > 100 then false
    else if Contains(s, ContentMarker) then false
    else if MostlyLowercase(s) then false
    else if EndsLikeSentence(s) then false
    else if NumberedHeading(s) then true
    else if |s| <= 100 && UpperHeading(s) then true
    else TitleCaseHeading(s)
  }

  /** Every guard of `is_heading` passes on the stripped line `s`. */
  predicate PassesGuards(s: string, title: Option<string>) {
    !IsNoise(s) && !IsDetectedTitle(s, title) && |s| <= 100 &&
    !Contains(s, ContentMarker) && !MostlyLowercase(s) && !EndsLikeSentence(s)
  }

  /** One of `num_pat`, `up_pat` or `title_pat` matches. */
  predicate MatchesHeadingPattern(s: string) {
    NumberedHeading(s) || UpperHeading(s) || TitleCaseHeading(s)
  }

  datatype Level = H1 | H2 | H3 {
    /** The literal written to the outline. */
    function Name(): string {
      match this
      case H1 => "H1"
      case H2 => "H2"
      case H3 => "H3"
    }
  }

  /** `determine_heading_level`: the first rule that matches wins. */
  function HeadingLevel(line: string): Level {
    var s := Strip(line);
    if TopLevelNumber(s) || (|s| > 15 && UpperHeading(s)) then H1
    else if SecondLevelNumber(s) || (|s| <= 15 && UpperHeading(s)) || TitleCaseHeading(s) then H2
    else H3
  }

  /** Whatever the patterns say, a line under three characters once
      stripped is noise. */
  lemma ShortLineIsNoise(line: string)
    requires |Strip(line)| < 3
    ensures IsNoise(line)
  {
  }

  /** A noise line is never a heading, whatever the title. */
  lemma NoiseNeverHeading(line: string, title: Option<string>)
    requires IsNoise(line)
    ensures !IsHeading(line, title)
  {
    StripIdempotent(line);
  }

  /** The first four guards reject a line before any pattern is tried. */
  lemma EarlyGuardsReject(line: string, title: Option<string>)
    ensures var s := Strip(line);
            IsNoise(line) || IsDetectedTitle(s, title) || |s| > 100 || Contains(s, ContentMarker)
            ==> !IsHeading(line, title)
  {
    StripIdempotent(line);
  }

  /** `is_heading` holds exactly when every guard passes and a pattern
      matches: the guards dominate the patterns. */
  lemma HeadingIffGuardsAndPattern(line: string, title: Option<string>)
    ensures IsHeading(line, title) <==> PassesGuards(Strip(line), title) && MatchesHeadingPattern(Strip(line))
  {
  }

  /** What every accepted heading looks like. */
  lemma AcceptedHeadingShape(line: string, title: Option<string>)
    requires IsHeading(line, title)
    ensures !IsNoise(line)
    ensures 3 <= |Strip(line)| <= 100
    ensures forall i :: !OccursAt(Strip(line), ContentMarker, i)
    ensures var s := Strip(line); s[|s| - 1] in ".,;!?" ==> EndsWith(s, "...")
    ensures var s := Strip(line); |s| > 50 ==> 10 * CountLower(s) <= 7 * |s|
    ensures MatchesHeadingPattern(Strip(line))
  {
    HeadingIffGuardsAndPattern(line, title);
    StripIdempotent(line);
    GuardsShape(Strip(line), title);
  }

  lemma GuardsShape(s: string, title: Option<string>)
    requires PassesGuards(s, title)
    ensures 3 <= |s| <= 100
    ensures forall i :: !OccursAt(s, ContentMarker, i)
    ensures s[|s| - 1] in ".,;!?" ==> EndsWith(s, "...")
    ensures |s| > 50 ==> 10 * CountLower(s) <= 7 * |s|
  {
    assert |Strip(s)| >= 3;
    ContainsMeansOccurrence(s, ContentMarker);
    NotSentenceEnding(s);
  }

  lemma NotSentenceEnding(s: string)
    requires s != [] && !EndsLikeSentence(s)
    ensures s[|s| - 1] in ".,;!?" ==> EndsWith(s, "...")
  {
    var c := s[|s| - 1];
    assert s[|s| - 1..] == [c];
  }

  /** A line with a single top-level number (`3. Results`) is H1. */
  lemma TopLevelNumberIsH1(line: string)
    requires TopLevelNumber(Strip(line))
    ensures HeadingLevel(line) == H1
  {
  }

  /** A two-level number (`2.1 Methodology`) gives H2 unless the line is
      also an all-caps line of more than 15 characters, which the H1 rule
      catches first. */
  lemma SecondLevelNumberIsH2(line: string)
    requires SecondLevelNumber(Strip(line))
    ensures HeadingLevel(line) == H2 <==> !(|Strip(line)| > 15 && UpperHeading(Strip(line)))
    ensures HeadingLevel(line) != H3
  {
  }

  /** An accepted heading gets H3 only through `num_pat`, with a number
      that is neither the H1 nor the H2 form (`1.1.1 Detail`): every
      all-caps or title-case heading is H1 or H2. */
  lemma H3OnlyForDeeperNumbers(line: string, title: Option<string>)
    requires IsHeading(line, title)
    requires HeadingLevel(line) == H3
    ensures var s := Strip(line);
            NumberedHeading(s) && !TopLevelNumber(s) && !SecondLevelNumber(s) &&
            !UpperHeading(s) && !TitleCaseHeading(s)
  {
  }
}
