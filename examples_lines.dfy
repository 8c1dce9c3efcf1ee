/** How the classifier classifies the sample lines named in the
    extractor's comments, and a few more. */
module LineExamples {
  import opened Text
  import opened Patterns
  import opened Wrappers
  import opened Classifier

  // ---- Noise ----

  lemma DayFirstDateMatches()
    ensures DayFirstDate("12/05/2023")
  {
    var s := "12/05/2023";
    assert IsDigit(s[0]) && IsDigit(s[1]) && !IsDigit(s[2]);
    RunEndUnique(s, 0, 2, IsDigit);
    assert IsDigit(s[3]) && IsDigit(s[4]) && !IsDigit(s[5]);
    RunEndUnique(s, 3, 5, IsDigit);
    assert IsDigit(s[6]) && IsDigit(s[7]) && IsDigit(s[8]) && IsDigit(s[9]);
    RunEndUnique(s, 6, 10, IsDigit);
  }

  lemma DayFirstDateIsNoise()
    ensures IsNoise("12/05/2023")
  {
    StripTrimmed("12/05/2023");
    DayFirstDateMatches();
  }

  lemma YearFirstDateMatches()
    ensures YearFirstDate("2023-5-12")
  {
    var s := "2023-5-12";
    assert IsDigit(s[0]) && IsDigit(s[1]) && IsDigit(s[2]) && IsDigit(s[3]) && !IsDigit(s[4]);
    RunEndUnique(s, 0, 4, IsDigit);
    assert IsDigit(s[5]) && !IsDigit(s[6]);
    RunEndUnique(s, 5, 6, IsDigit);
    assert IsDigit(s[7]) && IsDigit(s[8]);
    RunEndUnique(s, 7, 9, IsDigit);
  }

  lemma YearFirstDateIsNoise()
    ensures IsNoise("2023-5-12")
  {
    StripTrimmed("2023-5-12");
    YearFirstDateMatches();
  }

  /** `page` is matched without regard to case. */
  lemma PageFooterIsNoise()
    ensures IsNoise("Page 12")
  {
    var s := "Page 12";
    StripTrimmed(s);
    assert StartsWithIgnoringCase(s, "page") by {
      assert ToLower(s[0]) == 'p' && ToLower(s[1]) == 'a' && ToLower(s[2]) == 'g' && ToLower(s[3]) == 'e';
    }
    assert IsSpace(s[4]) && !IsSpace(s[5]);
    RunEndUnique(s, 4, 5, IsSpace);
    assert IsDigit(s[5]) && IsDigit(s[6]);
    RunEndUnique(s, 5, 7, IsDigit);
    assert PageFooter(s);
  }

  lemma CopyrightIsNoise()
    ensures IsNoise("Copyright 2024 Acme")
  {
    var s := "Copyright 2024 Acme";
    StripTrimmed(s);
    assert CopyrightLine(s);
  }

  lemma NumberIsNoise()
    ensures IsNoise("2024")
  {
    StripTrimmed("2024");
    assert DigitsOnly("2024");
  }

  lemma PunctuationIsNoise()
    ensures IsNoise("---")
  {
    StripTrimmed("---");
    assert PunctuationOnly("---");
  }

  lemma PaddedShortLineIsNoise()
    ensures IsNoise(" 42 ")
  {
    StripPadded(" ", "42", " ");
    assert " " + "42" + " " == " 42 ";
  }

  /** The noise filter rejects a page footer before the heading test
      could see it. */
  lemma PageFooterNeverHeading(title: Option<string>)
    ensures !IsHeading("Page 12", title)
  {
    PageFooterIsNoise();
    NoiseNeverHeading("Page 12", title);
  }

  // ---- Lines that are not noise ----

  lemma LetterLedNotDate(s: string)
    requires |s| >= 3 && IsLetter(s[0])
    ensures !DayFirstDate(s) && !YearFirstDate(s)
  {
  }

  lemma DigitLedNotDate(s: string)
    requires |s| >= 3 && IsDigit(s[0]) && !IsDigit(s[1]) && !IsDateSep(s[1])
    ensures !DayFirstDate(s) && !YearFirstDate(s)
  {
    RunEndUnique(s, 0, 1, IsDigit);
  }

  lemma NotFooterOrCopyright(s: string)
    requires |s| >= 3 && ToLower(s[0]) != 'p' && ToLower(s[0]) != 'c'
    ensures !PageFooter(s) && !CopyrightLine(s)
  {
  }

  lemma WordLedNotDigitsOrPunctuation(s: string)
    requires |s| >= 3 && IsWordChar(s[0]) && (!IsDigit(s[0]) || !IsDigit(s[1]))
    ensures !DigitsOnly(s) && !PunctuationOnly(s)
  {
  }

  /** A line of three or more characters that starts with a letter other
      than `p` or `c` matches no noise rule. */
  lemma LetterLedNotNoise(s: string)
    requires |s| >= 3 && IsLetter(s[0]) && ToLower(s[0]) != 'p' && ToLower(s[0]) != 'c'
    ensures !NoiseRule(s)
  {
    LetterLedNotDate(s);
    NotFooterOrCopyright(s);
    WordLedNotDigitsOrPunctuation(s);
  }

  /** Nor does one that starts with one digit followed by neither a digit
      nor a date separator. */
  lemma DigitLedNotNoise(s: string)
    requires |s| >= 3 && IsDigit(s[0]) && !IsDigit(s[1]) && !IsDateSep(s[1])
    ensures !NoiseRule(s)
  {
    DigitLedNotDate(s);
    NotFooterOrCopyright(s);
    WordLedNotDigitsOrPunctuation(s);
  }

  /** A short line that is not noise and does not end in sentence
      punctuation passes every guard when no title is stored. */
  lemma ShortLinePassesGuards(s: string)
    requires !IsNoise(s) && 0 < |s| < |ContentMarker|
    requires s[|s| - 1] !in ".,;!?"
    ensures PassesGuards(s, None)
  {
    ContainsMeansOccurrence(s, ContentMarker);
    assert s[|s| - 1..] == [s[|s| - 1]];
  }

  lemma TrimmedNotNoise(s: string)
    requires Trimmed(s) && !NoiseRule(s)
    ensures !IsNoise(s)
  {
    StripTrimmed(s);
  }

  lemma GuardedPatternIsHeading(s: string, title: Option<string>)
    requires Strip(s) == s && PassesGuards(s, title) && MatchesHeadingPattern(s)
    ensures IsHeading(s, title)
  {
    HeadingIffGuardsAndPattern(s, title);
  }

  lemma StrippedShortLineIsHeading(s: string)
    requires Strip(s) == s && !IsNoise(s) && 0 < |s| < |ContentMarker|
    requires s[|s| - 1] !in ".,;!?"
    requires MatchesHeadingPattern(s)
    ensures IsHeading(s, None)
  {
    ShortLinePassesGuards(s);
    GuardedPatternIsHeading(s, None);
  }

  /** A short trimmed line that matches no noise rule, does not end in
      sentence punctuation and matches a heading pattern is a heading
      when no title is stored. */
  lemma ShortLineIsHeading(s: string)
    requires Trimmed(s) && !NoiseRule(s) && 0 < |s| < |ContentMarker|
    requires s[|s| - 1] !in ".,;!?"
    requires MatchesHeadingPattern(s)
    ensures IsHeading(s, None)
  {
    TrimmedNotNoise(s);
    StripTrimmed(s);
    StrippedShortLineIsHeading(s);
  }

  // ---- Headings and their levels ----

  lemma IntroductionNotNoise()
    ensures !NoiseRule("1. Introduction")
  {
    DigitLedNotNoise("1. Introduction");
  }

  lemma IntroductionNumbered()
    ensures NumberedHeading("1. Introduction") && TopLevelNumber("1. Introduction")
  {
    var s := "1. Introduction";
    assert IsDigit(s[0]) && !IsDigit(s[1]);
    RunEndUnique(s, 0, 1, IsDigit);
    assert !IsNewline(s[2]);
    RunEndUnique(s, 2, 2, IsNewline);
  }

  lemma IntroductionIsHeading()
    ensures IsHeading("1. Introduction", None)
  {
    IntroductionNotNoise();
    IntroductionNumbered();
    ShortLineIsHeading("1. Introduction");
  }

  /** `3. Results`-style numbering is H1. */
  lemma IntroductionIsH1()
    ensures HeadingLevel("1. Introduction") == H1
  {
    StripTrimmed("1. Introduction");
    IntroductionNumbered();
    TopLevelNumberIsH1("1. Introduction");
  }

  lemma MethodologyNotNoise()
    ensures !NoiseRule("2.1 Methodology")
  {
    DigitLedNotNoise("2.1 Methodology");
  }

  lemma MethodologyNumbered()
    ensures NumberedHeading("2.1 Methodology") && SecondLevelNumber("2.1 Methodology")
  {
    var s := "2.1 Methodology";
    assert IsDigit(s[0]) && !IsDigit(s[1]);
    RunEndUnique(s, 0, 1, IsDigit);
    assert IsDigit(s[2]) && !IsDigit(s[3]);
    RunEndUnique(s, 2, 3, IsDigit);
    assert !IsNewline(s[2]);
    RunEndUnique(s, 2, 2, IsNewline);
  }

  lemma MethodologyIsHeading()
    ensures IsHeading("2.1 Methodology", None)
  {
    MethodologyNotNoise();
    MethodologyNumbered();
    ShortLineIsHeading("2.1 Methodology");
  }

  /** `2.1 Methodology`-style numbering is H2. */
  lemma MethodologyIsH2()
    ensures HeadingLevel("2.1 Methodology") == H2
  {
    StripTrimmed("2.1 Methodology");
    MethodologyNumbered();
    SecondLevelNumberIsH2("2.1 Methodology");
  }

  lemma BackgroundNotNoise()
    ensures !NoiseRule("BACKGROUND")
  {
    LetterLedNotNoise("BACKGROUND");
  }

  lemma BackgroundUpper()
    ensures UpperHeading("BACKGROUND") && !TopLevelNumber("BACKGROUND")
  {
    assert IsUpper("BACKGROUND"[0]);
  }

  lemma BackgroundIsHeading()
    ensures IsHeading("BACKGROUND", None)
  {
    BackgroundNotNoise();
    BackgroundUpper();
    ShortLineIsHeading("BACKGROUND");
  }

  /** An all-caps heading of at most 15 characters is H2. */
  lemma BackgroundIsH2()
    ensures HeadingLevel("BACKGROUND") == H2
  {
    StripTrimmed("BACKGROUND");
    BackgroundUpper();
  }

  lemma ResultsAndDiscussionNotNoise()
    ensures !NoiseRule("RESULTS AND DISCUSSION")
  {
    LetterLedNotNoise("RESULTS AND DISCUSSION");
  }

  lemma ResultsAndDiscussionUpper()
    ensures UpperHeading("RESULTS AND DISCUSSION")
  {
    assert IsUpper("RESULTS AND DISCUSSION"[0]);
  }

  lemma ResultsAndDiscussionIsHeading()
    ensures IsHeading("RESULTS AND DISCUSSION", None)
  {
    ResultsAndDiscussionNotNoise();
    ResultsAndDiscussionUpper();
    ShortLineIsHeading("RESULTS AND DISCUSSION");
  }

  /** An all-caps heading of more than 15 characters is H1. */
  lemma ResultsAndDiscussionIsH1()
    ensures HeadingLevel("RESULTS AND DISCUSSION") == H1
  {
    StripTrimmed("RESULTS AND DISCUSSION");
    ResultsAndDiscussionUpper();
  }

  lemma ExperimentalSetupNotNoise()
    ensures !NoiseRule("Experimental Setup")
  {
    LetterLedNotNoise("Experimental Setup");
  }

  lemma ExperimentalSetupTitleCase()
    ensures TitleCaseHeading("Experimental Setup")
  {
  }

  lemma ExperimentalSetupIsHeading()
    ensures IsHeading("Experimental Setup", None)
  {
    ExperimentalSetupNotNoise();
    ExperimentalSetupTitleCase();
    ShortLineIsHeading("Experimental Setup");
  }

  lemma ExperimentalSetupNotUpper()
    ensures !UpperHeading("Experimental Setup") && !TopLevelNumber("Experimental Setup")
  {
    assert IsLower("Experimental Setup"[1]);
  }

  /** A title-case heading is H2. */
  lemma ExperimentalSetupIsH2()
    ensures HeadingLevel("Experimental Setup") == H2
  {
    StripTrimmed("Experimental Setup");
    ExperimentalSetupTitleCase();
    ExperimentalSetupNotUpper();
  }

  /** The same line is dropped once it is the stored title. */
  lemma StoredTitleIsNotHeading()
    ensures !IsHeading("Experimental Setup", Some("Experimental Setup"))
  {
    StripTrimmed("Experimental Setup");
    EarlyGuardsReject("Experimental Setup", Some("Experimental Setup"));
  }

  lemma DetailNotNoise()
    ensures !NoiseRule("1.1.1 Detail")
  {
    DigitLedNotNoise("1.1.1 Detail");
  }

  lemma DetailNumbered()
    ensures NumberedHeading("1.1.1 Detail")
    ensures !TopLevelNumber("1.1.1 Detail") && !SecondLevelNumber("1.1.1 Detail")
  {
    var s := "1.1.1 Detail";
    assert IsDigit(s[0]) && !IsDigit(s[1]);
    RunEndUnique(s, 0, 1, IsDigit);
    assert IsDigit(s[2]) && !IsDigit(s[3]);
    RunEndUnique(s, 2, 3, IsDigit);
    assert !IsNewline(s[2]);
    RunEndUnique(s, 2, 2, IsNewline);
  }

  lemma DetailNotUpperOrTitleCase()
    ensures !UpperHeading("1.1.1 Detail") && !TitleCaseHeading("1.1.1 Detail")
  {
    assert IsLower("1.1.1 Detail"[7]);
  }

  lemma DetailIsHeading()
    ensures IsHeading("1.1.1 Detail", None)
  {
    DetailNotNoise();
    DetailNumbered();
    ShortLineIsHeading("1.1.1 Detail");
  }

  /** A three-level number passes `num_pat` but neither numbered level
      rule, so the line falls through to H3. */
  lemma DetailIsH3()
    ensures HeadingLevel("1.1.1 Detail") == H3
  {
    StripTrimmed("1.1.1 Detail");
    DetailNumbered();
    DetailNotUpperOrTitleCase();
  }

  lemma UpperNumberedNotNoise()
    ensures !NoiseRule("2.1 METHODOLOGY AND RESULTS")
  {
    DigitLedNotNoise("2.1 METHODOLOGY AND RESULTS");
  }

  lemma UpperNumberedUpper()
    ensures UpperHeading("2.1 METHODOLOGY AND RESULTS")
  {
    assert IsUpper("2.1 METHODOLOGY AND RESULTS"[4]);
  }

  lemma UpperNumberedIsHeading()
    ensures IsHeading("2.1 METHODOLOGY AND RESULTS", None)
  {
    UpperNumberedNotNoise();
    UpperNumberedUpper();
    ShortLineIsHeading("2.1 METHODOLOGY AND RESULTS");
  }

  lemma UpperNumberedSecondLevel()
    ensures SecondLevelNumber("2.1 METHODOLOGY AND RESULTS")
  {
    var s := "2.1 METHODOLOGY AND RESULTS";
    assert IsDigit(s[0]) && !IsDigit(s[1]);
    RunEndUnique(s, 0, 1, IsDigit);
    assert IsDigit(s[2]) && !IsDigit(s[3]);
    RunEndUnique(s, 2, 3, IsDigit);
  }

  /** A two-level number does not make a line H2 when the line is also
      all-caps and longer than 15 characters: the H1 rule is tried first. */
  lemma UpperNumberedIsH1()
    ensures SecondLevelNumber("2.1 METHODOLOGY AND RESULTS")
    ensures HeadingLevel("2.1 METHODOLOGY AND RESULTS") == H1
  {
    StripTrimmed("2.1 METHODOLOGY AND RESULTS");
    UpperNumberedSecondLevel();
    UpperNumberedUpper();
  }

  /** A sentence is rejected by its final full stop. */
  lemma SentenceIsNotHeading()
    ensures !IsHeading("Results are shown below.", None)
  {
    var s := "Results are shown below.";
    StripTrimmed(s);
    assert EndsLikeSentence(s) by { assert s[|s| - 1..] == "."; }
    HeadingIffGuardsAndPattern(s, None);
  }
}
