/** The regular expressions of the extractor, each written out as a
    predicate over the characters of a stripped line. `re.match` anchors at
    the start; `$` is read as the end of the line, because every pattern is
    applied to a stripped line, which never ends in a line feed. */
module Patterns {
  import opened Text

  predicate AllDigits(s: string) {
    forall k :: 0 <= k < |s| ==> IsDigit(s[k])
  }

  predicate IsDateSep(c: char) { c == '-' || c == '/' }

  /** `\d{lo1,hi1}[-/]\d{lo2,hi2}[-/]\d{lo3,hi3}$`, read left to right:
      digit fields and separators do not overlap, so each field is the
      longest run of digits at its position. */
  predicate DateShape(s: string, lo1: nat, hi1: nat, lo2: nat, hi2: nat, lo3: nat, hi3: nat) {
    var e1 := RunEnd(s, 0, IsDigit);
    lo1 <= e1 <= hi1 && e1 < |s| && IsDateSep(s[e1]) &&
    var e2 := RunEnd(s, e1 + 1, IsDigit);
    lo2 <= e2 - e1 - 1 <= hi2 && e2 < |s| && IsDateSep(s[e2]) &&
    var e3 := RunEnd(s, e2 + 1, IsDigit);
    lo3 <= e3 - e2 - 1 <= hi3 && e3 == |s|
  }

  /** The two separators of a date sit at `a` and `b` and cut the line into
      three digit fields of the given widths. */
  ghost predicate DateSplitAt(s: string, a: nat, b: nat, lo1: nat, hi1: nat, lo2: nat, hi2: nat, lo3: nat, hi3: nat) {
    a < b < |s| && IsDateSep(s[a]) && IsDateSep(s[b]) &&
    AllDigits(s[..a]) && AllDigits(s[a + 1..b]) && AllDigits(s[b + 1..]) &&
    lo1 <= a <= hi1 && lo2 <= b - a - 1 <= hi2 && lo3 <= |s| - b - 1 <= hi3
  }

  /** A date found by the scan splits the line at its two separators. */
  lemma ScannedDateSplits(s: string, lo1: nat, hi1: nat, lo2: nat, hi2: nat, lo3: nat, hi3: nat)
    requires DateShape(s, lo1, hi1, lo2, hi2, lo3, hi3)
    ensures DateSplitAt(s, RunEnd(s, 0, IsDigit), RunEnd(s, RunEnd(s, 0, IsDigit) + 1, IsDigit),
                        lo1, hi1, lo2, hi2, lo3, hi3)
  {
  }

  /** Any split of the line into three digit runs is the one the scan finds. */
  lemma SplitDateScans(s: string, a: nat, b: nat, lo1: nat, hi1: nat, lo2: nat, hi2: nat, lo3: nat, hi3: nat)
    requires DateSplitAt(s, a, b, lo1, hi1, lo2, hi2, lo3, hi3)
    ensures DateShape(s, lo1, hi1, lo2, hi2, lo3, hi3)
  {
    forall k | 0 <= k < a ensures IsDigit(s[k]) { assert s[..a][k] == s[k]; }
    RunEndUnique(s, 0, a, IsDigit);
    forall k | a + 1 <= k < b ensures IsDigit(s[k]) { assert s[a + 1..b][k - a - 1] == s[k]; }
    RunEndUnique(s, a + 1, b, IsDigit);
    forall k | b + 1 <= k < |s| ensures IsDigit(s[k]) { assert s[b + 1..][k - b - 1] == s[k]; }
    RunEndUnique(s, b + 1, |s|, IsDigit);
  }

  /** The reading of the date regex as "digits, separator, digits,
      separator, digits" agrees with the left-to-right scan. */
  lemma DateShapeMeansSplit(s: string, lo1: nat, hi1: nat, lo2: nat, hi2: nat, lo3: nat, hi3: nat)
    ensures DateShape(s, lo1, hi1, lo2, hi2, lo3, hi3) <==>
            exists a, b :: DateSplitAt(s, a, b, lo1, hi1, lo2, hi2, lo3, hi3)
  {
    if DateShape(s, lo1, hi1, lo2, hi2, lo3, hi3) {
      ScannedDateSplits(s, lo1, hi1, lo2, hi2, lo3, hi3);
    }
    if a: nat, b: nat :| DateSplitAt(s, a, b, lo1, hi1, lo2, hi2, lo3, hi3) {
      SplitDateScans(s, a, b, lo1, hi1, lo2, hi2, lo3, hi3);
    }
  }

  /** `^\d{1,2}[-/]\d{1,2}[-/]\d{2,4}$`, e.g. "12/05/2023". */
  predicate DayFirstDate(s: string) { DateShape(s, 1, 2, 1, 2, 2, 4) }

  /** `^\d{4}[-/]\d{1,2}[-/]\d{1,2}$`, e.g. "2023-5-12". */
  predicate YearFirstDate(s: string) { DateShape(s, 4, 4, 1, 2, 1, 2) }

  /** `s` starts with `word` when letters are compared without case. */
  predicate StartsWithIgnoringCase(s: string, word: string) {
    |word| <= |s| && forall k :: 0 <= k < |word| ==> ToLower(s[k]) == word[k]
  }

  /** `^page\s+\d+$` with `re.IGNORECASE`. */
  predicate PageFooter(s: string) {
    StartsWithIgnoringCase(s, "page") &&
    var e := RunEnd(s, 4, IsSpace);
    e > 4 && e < |s| && RunEnd(s, e, IsDigit) == |s|
  }

  /** `^copyright.*$` with `re.IGNORECASE`: `.` stops at a line feed. */
  predicate CopyrightLine(s: string) {
    StartsWithIgnoringCase(s, "copyright") &&
    forall k :: 9 <= k < |s| ==> s[k] != '\n'
  }

  /** `^\d+$`. */
  predicate DigitsOnly(s: string) { |s| > 0 && AllDigits(s) }

  /** `^[^\w\s]+$`: neither word characters nor whitespace. */
  predicate PunctuationOnly(s: string) {
    |s| > 0 && forall k :: 0 <= k < |s| ==> !IsWordChar(s[k]) && !IsSpace(s[k])
  }

  predicate IsNumberSep(c: char) { c == '.' || IsSpace(c) }

  /** `num_pat`, `^\d+(\.\d+)*[\.\s]+.+`: a run of digits, then a dot or
      whitespace, then (after any line feeds, which `[\.\s]+` also takes)
      one more character. */
  predicate NumberedHeading(s: string) {
    var e := RunEnd(s, 0, IsDigit);
    0 < e < |s| && IsNumberSep(s[e]) && RunEnd(s, e + 1, IsNewline) < |s|
  }

  /** `\d+(\.\d+)*`: digits, every dot between two digits. */
  ghost predicate DottedNumber(t: string) {
    |t| > 0 && IsDigit(t[0]) && forall i :: 0 <= i < |t| ==> DottedChar(t, i)
  }

  /** A digit, or a dot that is neither first nor last and has a digit after it. */
  ghost predicate DottedChar(t: string, i: nat)
    requires i < |t|
  {
    IsDigit(t[i]) || (t[i] == '.' && 0 < i < |t| - 1 && IsDigit(t[i + 1]))
  }

  /** The literal reading of `num_pat`: a dotted number ending at `k`,
      separators up to `j`, and a character other than a line feed at `j`. */
  ghost predicate NumberedSplitAt(s: string, k: nat, j: nat) {
    0 < k < j < |s| && DottedNumber(s[..k]) &&
    (forall m :: k <= m < j ==> IsNumberSep(s[m])) && s[j] != '\n'
  }

  lemma NumberedHeadingMeansRegex(s: string)
    ensures NumberedHeading(s) <==> exists k, j :: NumberedSplitAt(s, k, j)
  {
    var e := RunEnd(s, 0, IsDigit);
    if NumberedHeading(s) {
      var f := RunEnd(s, e + 1, IsNewline);
      assert forall m :: e < m < f ==> s[m] == '\n';
      assert NumberedSplitAt(s, e, f);
    }
    if k: nat, j: nat :| NumberedSplitAt(s, k, j) {
      assert IsDigit(s[..k][0]);
      assert 0 < e;
      assert !IsDigit(s[k]);
      if e < k {
        var t := s[..k];
        assert DottedNumber(t) && DottedChar(t, e);
        assert t[e] == s[e];
      }
      assert IsNumberSep(s[e]);
    }
  }

  /** `up_pat`, `^(?=.*[A-Z])[A-Z0-9. ]+$`: capitals, digits, dots and
      spaces only, with at least one capital. */
  predicate UpperHeading(s: string) {
    |s| > 0 &&
    (forall k :: 0 <= k < |s| ==> IsUpper(s[k]) || IsDigit(s[k]) || s[k] == '.' || s[k] == ' ') &&
    exists k :: 0 <= k < |s| && IsUpper(s[k])
  }

  predicate IsTitleChar(c: char) {
    IsLetter(c) || IsDigit(c) || c == ' ' || c == ',' || c == '-' || c == ':'
  }

  /** `title_pat`, `^[A-Z][a-zA-Z0-9 ,\-\:]{4,}$`. */
  predicate TitleCaseHeading(s: string) {
    |s| >= 5 && IsUpper(s[0]) && forall k :: 1 <= k < |s| ==> IsTitleChar(s[k])
  }

  /** `^\d+\.\s+` (the H1 number form): digits, a dot, whitespace. */
  predicate TopLevelNumber(s: string) {
    var e := RunEnd(s, 0, IsDigit);
    0 < e && e + 1 < |s| && s[e] == '.' && IsSpace(s[e + 1])
  }

  /** `^\d+\.\d+\s+` (the H2 number form): digits, a dot, digits,
      whitespace. */
  predicate SecondLevelNumber(s: string) {
    var e1 := RunEnd(s, 0, IsDigit);
    0 < e1 < |s| && s[e1] == '.' &&
    var e2 := RunEnd(s, e1 + 1, IsDigit);
    e1 + 1 < e2 < |s| && IsSpace(s[e2])
  }
}
