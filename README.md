# Outline classifier of `PDFOutlineExtractor`

This project models the rule-based part of `PDFOutlineExtractor` in
`process_pdf.py`. The extractor takes the pages of text already pulled
from a PDF, each a text with a page number, and an optional metadata
title. It returns the document title and an ordered outline of
`{level, text, page}` records.

The model has four layers, one Dafny module each, on top of `Wrappers`
(the `Option` and `Result` types), plus a module of worked examples:

- `Text` gives ASCII character classes and `str.strip()` (with
  `lstrip`/`rstrip`). It also gives `str.split('\n')` and its inverse
  `'\n'.join`, the substring test `in`, `endswith`, and the "longest run"
  scan that every pattern is built from.
- `Patterns` writes each regular expression of the extractor as a
  predicate:
  - the two date patterns, `page N`, `copyright…`, digits only and
    punctuation only (lines 38-45);
  - `num_pat`, `up_pat` and `title_pat` (lines 33-35);
  - the two number forms of `determine_heading_level`.

  Where the regex backtracks, a declarative reading of it is given and
  proved equal to the left-to-right scan.
- `Classifier` covers `is_noise`, `is_heading` with its ordered guards,
  and `determine_heading_level`. The title stored in `_detected_title` is
  passed to `is_heading` as a parameter, because `is_heading` only reads
  it.
- `Outline` covers the outline pipeline.
  - Pages are split into stripped lines and read in page order, then line
    order.
  - `extract_title_from_content` is a first-match search.
  - The metadata title filter (`strip`, then `len > 2`) is included.
  - `extract_headings` keeps each heading line's record, in order.
  - `extract_outline` fails on an empty page list, chooses the metadata
    or the content title, stores it, and then runs the heading pass.
  - The class `OutlineExtractor` carries the `_detected_title` field.
    Its methods keep the source's nested loops, and each method is proved
    equal to the function that specifies it.
- `LineExamples` proves how the classifier classifies the sample lines
  named in the extractor's comments, and which level each heading gets.

All Python `str` operations are modelled on ASCII. `re.match` anchors at
the start of the line. `$` is read as the end of the line: every pattern
is applied to a stripped line, and a stripped line never ends in a line
feed.

The lowercase guard compares `count > len * 0.7` in floating point. The
guard is reached only for lengths 51 to 100. In that range, the float
product differs from the exact value `7n/10` in a way a count can see
only at length 90, where it is `62.99999999999999`. `MostlyLowercase` is
therefore `10 * count > 7 * len`, plus the single case of length 90 with
63 lowercase letters. This agrees with Python on every line that reaches
the guard.

A `^\d+\.\d+\s` line is not always H2. The code checks the H1 rule
first, and that rule includes all-capital lines of more than 15
characters, so `2.1 METHODOLOGY AND RESULTS` is H1 (`LineExamples.UpperNumberedIsH1`,
`Classifier.SecondLevelNumberIsH2`).

## Model

| member | source | states |
|---|---|---|
| Text.Strip | process_pdf.py:99 | the stripped line has no whitespace at either end and is no longer than the line |
| Text.StripIsBothTrims | process_pdf.py:107 | `strip()` equals `rstrip()` after `lstrip()` |
| Text.StripRemovesPadding | process_pdf.py:119 | the stripped line is the line with only leading and trailing whitespace removed |
| Text.StripPadded | process_pdf.py:166 | whitespace, then a trimmed core, then whitespace strips to exactly that core |
| Text.StripIdempotent | process_pdf.py:107 | stripping an already stripped line (as `is_noise` does inside `is_heading`) changes nothing |
| Text.SplitLines | process_pdf.py:97 | `split('\n')` yields at least one piece and no piece contains a line feed |
| Text.JoinSplit | process_pdf.py:164 | joining the pieces of `split('\n')` with line feeds gives back the page text |
| Text.SplitJoin | process_pdf.py:164 | splitting lines that were joined with line feeds gives back the same lines |
| Text.ContainsMeansOccurrence | process_pdf.py:134 | the `in` test holds exactly when the phrase occurs at some index |
| Text.RunEnd | process_pdf.py:33 | the longest run of a character class from a position: every character in it matches, and the next one does not |
| Text.RunEndUnique | process_pdf.py:39-40 | a run that stops where the class first fails is the one the scan finds |
| Patterns.DateShapeMeansSplit | process_pdf.py:39-40 | the scan-based date predicate holds exactly when the line splits into three digit fields of the allowed widths around two `-`/`/` separators |
| Patterns.SplitDateScans | process_pdf.py:39-40 | any such split is the one the left-to-right scan finds |
| Patterns.NumberedHeadingMeansRegex | process_pdf.py:33 | the scan-based `num_pat` holds exactly when the line is a dotted number, then dots or whitespace, then one more character |
| Classifier.ShortLineIsNoise | process_pdf.py:107-109 | a line under 3 characters once stripped is noise |
| Classifier.HeadingIffGuardsAndPattern | process_pdf.py:117-157 | `is_heading` holds exactly when every guard passes and `num_pat`, `up_pat` or `title_pat` matches |
| Classifier.NoiseNeverHeading | process_pdf.py:121-123 | a noise line is never a heading, whatever the stored title |
| Classifier.EarlyGuardsReject | process_pdf.py:121-135 | a noise line, the stored title, a line over 100 characters, or a line with the content phrase is rejected |
| Classifier.AcceptedHeadingShape | process_pdf.py:121-157 | an accepted line is not noise and has 3 to 100 characters. It does not contain the content phrase. It ends in sentence punctuation only as `...`. Above 50 characters, at most 70% of it is lowercase. It matches a heading pattern |
| Classifier.GuardsShape | process_pdf.py:129-143 | the same facts, read off the guards of a stripped line |
| Classifier.NotSentenceEnding | process_pdf.py:141-143 | a line not rejected by the punctuation guard ends in `.`, `,`, `;`, `!` or `?` only as `...` |
| Classifier.CountLower | process_pdf.py:138 | the lowercase count is at most the length of the line |
| Classifier.TopLevelNumberIsH1 | process_pdf.py:181-183 | a line starting with `digits. ` is H1 |
| Classifier.SecondLevelNumberIsH2 | process_pdf.py:181-187 | a line starting with `digits.digits ` is H2 exactly when it is not an all-caps line of more than 15 characters, and is never H3 |
| Classifier.H3OnlyForDeeperNumbers | process_pdf.py:177-191 | an accepted heading is H3 only through `num_pat`, with a number that is neither the H1 nor the H2 form, and never when it is all-caps or title-case |
| Outline.StripLines | process_pdf.py:164-166 | one stripped line per piece of the page |
| Outline.StripLinesAt | process_pdf.py:164-166 | line `k` of a page is piece `k` stripped, tagged with the page number |
| Outline.ReadingOrderAppend | process_pdf.py:163-165 | the lines of two runs of pages are the lines of the first run followed by those of the second |
| Outline.ReadingOrderStep | process_pdf.py:163-165 | each further page appends its own lines, in order |
| Outline.ReadingOrderLines | process_pdf.py:163-166 | every line read is stripped and carries the number of one of the pages |
| Outline.Collect | process_pdf.py:159-175 | the heading pass yields no more records than there are lines |
| Outline.CollectAppend | process_pdf.py:163-173 | the records of two runs of lines are those of the first run followed by those of the second |
| Outline.CollectStep | process_pdf.py:165-173 | each further line adds its own record, if it has one, at the end |
| Outline.HeadingsAppend | process_pdf.py:163-173 | the outline of a run of pages is the outline of its first pages followed by the outline of the rest, so records keep page order |
| Outline.CollectSound | process_pdf.py:165-173 | every record is the record of one of the lines |
| Outline.CollectComplete | process_pdf.py:165-173 | every line that has a record contributes that record |
| Outline.FirstWhere | process_pdf.py:96-101 | a line found by the search satisfies the test |
| Outline.FirstWhereIsFirst | process_pdf.py:96-103 | the search finds nothing exactly when no line passes. When it finds a line, that is the earliest line that passes |
| Outline.FirstWhereAppend | process_pdf.py:96-101 | searching two runs of lines looks in the second run only when the first has no match |
| Outline.ContentTitle | process_pdf.py:94-103 | the content title is stripped and longer than 3 characters, including the "Untitled Document" fallback |
| Outline.ContentTitleIsFirstCandidate | process_pdf.py:94-103 | the content title is the first line, in reading order, that is non-empty, longer than 3 characters and not noise. It is "Untitled Document" when no line is |
| Outline.MetadataTitle | process_pdf.py:85-88 | a metadata title is used exactly when one is present and longer than 2 characters once stripped. Its value is the stripped text |
| Outline.ResolveTitle | process_pdf.py:207-209 | the title is the metadata title when it is usable and the content title otherwise. Either way it is stripped and longer than 2 characters |
| Outline.OutlineShape | process_pdf.py:203-219 | extraction fails exactly when there are no pages. Otherwise the title is the resolved title. Each record is a stripped line of one of the pages that passed `is_heading` against that title, carries that line's level and page, and is not the title |
| Outline.EntryFromLine | process_pdf.py:167-173 | a record's text, page and level are its line's, and its text is not the stored title |
| Outline.HeadingIsNotTitle | process_pdf.py:125-127 | a line accepted against a stored title is not that title |
| Outline.OutlineComplete | process_pdf.py:211-214 | every line that passes `is_heading` against the chosen title appears in the outline with its level and page |
| Outline.OutlineExtractor.constructor | process_pdf.py:48 | a new extractor has no stored title |
| Outline.OutlineExtractor.ExtractTitleFromContent | process_pdf.py:94-103 | the nested scan over pages and lines returns the content title |
| Outline.OutlineExtractor.PageTitleCandidate | process_pdf.py:97-101 | the scan over one page's lines returns that page's first title candidate, if any |
| Outline.OutlineExtractor.ExtractHeadings | process_pdf.py:159-175 | the nested loops with `append` build exactly the outline of the pages against the stored title |
| Outline.OutlineExtractor.PageHeadings | process_pdf.py:164-173 | the inner loop builds exactly the records of one page, in line order |
| Outline.OutlineExtractor.ExtractOutline | process_pdf.py:203-219 | the result is the outline of the pages. On success the chosen title is stored before the heading pass. On failure the stored title is unchanged |
| Outline.ReusedExtractorAgrees | process_pdf.py:249-255 | an extractor that has already produced an outline gives the same outline for the next file as a new extractor |
| LineExamples.DayFirstDateIsNoise | process_pdf.py:39 | `12/05/2023` is noise |
| LineExamples.YearFirstDateIsNoise | process_pdf.py:40 | `2023-5-12` is noise |
| LineExamples.PageFooterIsNoise | process_pdf.py:41 | `Page 12` is noise, the word compared without case |
| LineExamples.CopyrightIsNoise | process_pdf.py:42 | `Copyright 2024 Acme` is noise |
| LineExamples.NumberIsNoise | process_pdf.py:43 | `2024` is noise |
| LineExamples.PunctuationIsNoise | process_pdf.py:44 | `---` is noise |
| LineExamples.PaddedShortLineIsNoise | process_pdf.py:107-109 | ` 42 ` is noise because it is under 3 characters once stripped |
| LineExamples.PageFooterNeverHeading | process_pdf.py:121-123 | `Page 12` is never a heading |
| LineExamples.LetterLedNotNoise | process_pdf.py:105-115 | a line of 3 or more characters that starts with a letter other than `p` or `c` is not noise |
| LineExamples.DigitLedNotNoise | process_pdf.py:105-115 | a line of 3 or more characters that starts with one digit followed by neither a digit nor a separator is not noise |
| LineExamples.ShortLinePassesGuards | process_pdf.py:129-143 | a non-noise line shorter than the content phrase that does not end in sentence punctuation passes the length, phrase and lowercase guards |
| LineExamples.IntroductionIsHeading | process_pdf.py:145-147 | `1. Introduction` is a heading |
| LineExamples.IntroductionIsH1 | process_pdf.py:182-183 | `1. Introduction` is H1 |
| LineExamples.MethodologyIsHeading | process_pdf.py:145-147 | `2.1 Methodology` is a heading |
| LineExamples.MethodologyIsH2 | process_pdf.py:186-187 | `2.1 Methodology` is H2 |
| LineExamples.BackgroundIsHeading | process_pdf.py:149-151 | `BACKGROUND` is a heading |
| LineExamples.BackgroundIsH2 | process_pdf.py:186-187 | `BACKGROUND` is H2 |
| LineExamples.ResultsAndDiscussionIsHeading | process_pdf.py:149-151 | `RESULTS AND DISCUSSION` is a heading |
| LineExamples.ResultsAndDiscussionIsH1 | process_pdf.py:182-183 | `RESULTS AND DISCUSSION` is H1 |
| LineExamples.ExperimentalSetupIsHeading | process_pdf.py:153-155 | `Experimental Setup` is a heading |
| LineExamples.ExperimentalSetupIsH2 | process_pdf.py:186-187 | `Experimental Setup` is H2 |
| LineExamples.StoredTitleIsNotHeading | process_pdf.py:125-127 | `Experimental Setup` is not a heading once it is the stored title |
| LineExamples.DetailIsHeading | process_pdf.py:145-147 | `1.1.1 Detail` is a heading |
| LineExamples.DetailIsH3 | process_pdf.py:189-191 | `1.1.1 Detail` is H3 |
| LineExamples.UpperNumberedIsHeading | process_pdf.py:145-147 | `2.1 METHODOLOGY AND RESULTS` is a heading |
| LineExamples.UpperNumberedIsH1 | process_pdf.py:181-187 | `2.1 METHODOLOGY AND RESULTS` has the H2 number form and is still H1 |
| LineExamples.SentenceIsNotHeading | process_pdf.py:141-143 | `Results are shown below.` is rejected by its full stop |

## Left out

- Text extraction with PyPDF2 and pdfminer (process_pdf.py:50-78), and the fallback between them (lines 196-201). The pages are an input. The model accepts any page list, including blank pages and any page numbers.
- Reading the PDF metadata (process_pdf.py:80-92). The raw metadata title is an optional input; only its `strip` / `len > 2` filter is modelled. The caught exception and its stderr message are not modelled.
- `main`, `main_cli`, directory traversal, argument parsing, JSON output, console and stderr messages, and the import-time exit (process_pdf.py:15-25, 222-334). These are I/O.
- The level is the datatype `Level`, and `Level.Name` gives the `"H1"`/`"H2"`/`"H3"` string that the JSON record carries. A record is the datatype `Heading`, not a dictionary.
- Python's Unicode semantics of `\d`, `\w`, `\s`, `str.strip()`, `str.islower()` and `re.IGNORECASE`. Characters are ASCII.
- `$` is read as the end of the line. Python's `$` also matches before a final line feed, but a stripped line cannot end in one.
- The `hasattr(self, '_detected_title')` test (process_pdf.py:126). It always holds after `__init__`.
- Outline.OutlineExtractor.PageHeadings: it tests a line with `IsHeading` and then computes `HeadingLevel`, as the source does. The specification function `Entry` fuses the two into one step.
