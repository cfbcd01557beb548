# Code quality platform: a verified model of the analysis and auto-fix engine

This project models, in Dafny, the engine behind a browser tool that accepts JavaScript,
TypeScript, JSX, CSS, HTML and JSON files (one by one or in a ZIP archive), reports issues and
suggestions for each, scores them, and rewrites the code with automatic fixes. The modelled
parts are:

- **Upload** (`upload.dfy`): `handleFiles` of `FileUploader.jsx`. It takes files apart by
  extension, unpacks ZIP archives while skipping system and hidden entries, and drops
  duplicates (same name and size) against the upload list and within the batch. Also
  `removeFile`. The component's upload list is the field of the class `Upload.Uploader`.
- **Per-file analysis** (`file_analyzer.dfy`, `file_properties.dfy`): `analyzeFileContent` and
  its `validateHtml`, the issue and suggestion checks in order, the counters, the quality
  score `max(0, 100 - (20 * errors + 5 * warnings))` and the preview.
- **Project summary** (`project_summary.dfy`): `analyzeFiles` and `generateSummary`. They give
  one report per file in upload order, the totals, the rounded mean score and passed/failed.
- **W3C validator** (`w3c_validator.dfy`, `w3c_properties.dfy`): the sixteen checks of
  `validateHTML`. They push into one mutable results object (the class
  `W3CValidator.ValidationResults`). The model also has `getLineNumber`, the score rule table
  and `generateW3CReport`.
- **Performance analyzer** (`performance_analyzer.dfy`): the seven checks of
  `analyzePerformance`, the `addIssue` penalties and the clamped mobile and desktop scores.
- **Deep analyzer** (`deep_analyzer.dfy`, `dependency_graph.dfy`): the brace/parenthesis check,
  the callback-depth counter, the cyclomatic proxy, the duplicate-line scanner, the anti-pattern,
  runtime, performance and security detectors, the bucketing of `performDeepAnalysis`, the
  clamped overall score, and the cross-file dependency graph with its cycle search.
- **Code improver** (`code_improver.dfy`, `improver_rules.dfy`): the sixteen-way first-match
  dispatcher `applyFix`, the `improveCode` fold over the suggestions, the line-based rewrite rules,
  the improvement metrics, the `.improved` file name and the side-by-side comparison.
- Shared text and sequence functions are in `text.dfy` and `common.dfy`: `split`/`join` for one character,
  `trim`, ASCII `toLowerCase`, `includes`, `indexOf` and `findLineNumber`. Shared report
  records are in `reports.dfy`.

Regular-expression matches that the source computes from the text are inputs to the model:
scan records (`CodeScan`, `MarkupScan`, `HtmlScan`, `DeepScan`, ...) and rewrite functions
(`CodeImprover.RegexRewrites`). Every decision the code makes on top of those matches is
modelled. Literal `includes`/`startsWith`/`endsWith` tests, splits, trims, counters and loops are
written out.

Where the source and its description disagree, the model follows the source:

- the file score weighs an error 20 points and a warning 5;
- suggestions are not deduplicated;
- a dropped file whose extension is not allowed is skipped without entering the duplicate list;
- `performDeepAnalysis` fills `performanceWarnings` from the error list, so it stays empty and
  performance findings never lower the overall score (see Findings);
- `generateCodeComparison` classifies an empty original line as `added` even when the improved
  line is empty too (see Findings).

## Model

| member | source | states |
|---|---|---|
| Upload.Extension | src/components/FileUploader.jsx:42 | the extension is the lower-cased text after the last dot (the whole name without a dot), holds no dot and is a suffix of the name |
| Upload.LastPieceSuffix | src/components/FileUploader.jsx:42 | `split(sep).pop()` is the longest suffix of the text that holds no separator |
| Upload.FileCandidatesIff | src/components/FileUploader.jsx:41-96 | one dropped file offers itself when its extension is allowed and it is no ZIP; a ZIP offers its extracted entries when it loads, and nothing when it fails to load |
| Upload.ZipCandidatesIff | src/components/FileUploader.jsx:51-63 | an archive entry is offered exactly when it is no directory, no system or hidden file, and has an allowed extension |
| Upload.CandidatesIff | src/components/FileUploader.jsx:41-96 | the candidates of a drop are exactly the candidates of its files |
| Upload.CandidateAllowed | src/components/FileUploader.jsx:61-62 | every candidate has an allowed extension |
| Upload.AdmittedIff | src/components/FileUploader.jsx:66-75 | a candidate joins the batch exactly when it is not already uploaded (name and size) |
| Upload.AdmittedFresh | src/components/FileUploader.jsx:66-75 | the batch holds no file twice and no file that is already uploaded |
| Upload.AdmittedCount | src/components/FileUploader.jsx:70-74 | every candidate goes exactly once into the batch or the duplicate list |
| Upload.AdmitAllIsFirstOccurrences | src/components/FileUploader.jsx:66-94 | the batch is the fresh first occurrences in order; the duplicates are the names of the rest |
| Upload.AdmitFromConcat | src/components/FileUploader.jsx:41-96 | admitting two runs of candidates is admitting the first and then the second |
| Upload.AcceptedIff | src/components/FileUploader.jsx:36-103 | a file joins the upload list exactly when it is a candidate of some dropped file and is not uploaded yet |
| Upload.AdmitEntries | src/components/FileUploader.jsx:51-77 | the loop over archive entries admits exactly the archive's candidates, in order |
| Upload.AdmitFile | src/components/FileUploader.jsx:42-95 | one pass of the outer loop admits exactly the file's candidates |
| Upload.AdmitFiles | src/components/FileUploader.jsx:41-96 | the outer loop gives the batch and duplicates of all candidates, checked against the upload list as it was when the call began |
| Upload.Uploader.constructor | src/components/FileUploader.jsx:7 | the upload list starts empty |
| Upload.Uploader.HandleFiles | src/components/FileUploader.jsx:36-105 | the upload list grows by exactly the admitted batch; the returned duplicates are the names the alert lists; the list stays free of repeats |
| Upload.WithoutIndex | src/components/FileUploader.jsx:107-109 | removing an index in range drops exactly that entry; an index out of range changes nothing |
| Upload.WithoutIndexDistinct | src/components/FileUploader.jsx:107-109 | removing a file keeps the upload list free of repeats |
| Upload.Uploader.RemoveFile | src/components/FileUploader.jsx:107-109 | the upload list becomes the list without that index |
| Upload.AppendFresh | src/components/FileUploader.jsx:103 | appending a repeat-free batch of new files keeps the upload list repeat-free |
| ProjectSummary.RoundedMean | src/components/FileUploader.jsx:546-552 | `Math.round(total / n)` is the integer within one half of the mean, halves rounded up |
| ProjectSummary.GenerateSummary | src/components/FileUploader.jsx:543-556 | the status is `passed` exactly when every file has no errors, and `failed` otherwise |
| ProjectSummary.TotalErrorsZero | src/components/FileUploader.jsx:544-554 | the error total is zero exactly when every file is error-free |
| ProjectSummary.TotalsConcat | src/components/FileUploader.jsx:544-547 | every total of two lists of reports together is the sum of their totals |
| ProjectSummary.TotalScoreBound | src/components/FileUploader.jsx:546 | scores in [0, 100] total between 0 and 100 times the file count |
| ProjectSummary.RoundedMeanBound | src/components/FileUploader.jsx:546-552 | the rounded mean of such a total is itself in [0, 100] |
| ProjectSummary.AverageInRange | src/components/FileUploader.jsx:546-552 | the average quality score of files scored in [0, 100] is in [0, 100] |
| ProjectSummary.RoundedMeanOfMultiple | src/components/FileUploader.jsx:546-552 | files that all score `c` average exactly `c` |
| ProjectSummary.AnalyzeFiles | src/components/FileUploader.jsx:111-135 | nothing for an empty upload list; otherwise one report per file in upload order, the file count and their summary |
| ProjectSummary.AnalyzeAll | src/components/FileUploader.jsx:120-125 | every uploaded file gets the report `analyzeFileContent` gives it, in upload order |
| ProjectSummary.AnalyzeNext | src/components/FileUploader.jsx:121-124 | one more file is read and reported, after the earlier reports |
| ProjectSummary.ReportedSnoc | src/components/FileUploader.jsx:120-125 | adding the next file's report keeps the reports matched to the files in order |
| ProjectSummary.ReportedScore | src/components/FileUploader.jsx:403 | the score of every report is in [0, 100] |
| ProjectSummary.ReportedScoresInRange | src/components/FileUploader.jsx:120-132 | every report of `analyzeFiles` is scored in [0, 100] |
| ProjectSummary.ProjectScoreInRange | src/components/FileUploader.jsx:111-135 | the project's average score is in [0, 100] |
| FileAnalyzer.AddIssue | src/components/FileUploader.jsx:155-161 | one more issue; the error or warning counter goes up by one for its type, neither for an info |
| FileAnalyzer.AddSuggestion | src/components/FileUploader.jsx:162-167 | one more suggestion, with the counters still counting the issues |
| FileAnalyzer.AddSuggestionWhen | src/components/FileUploader.jsx:204-211 | a suggestion guarded by one test |
| FileAnalyzer.CheckDoctype | src/components/FileUploader.jsx:425-441 | an error and a suggestion exactly when the trimmed, lower-cased text does not start with `<!doctype html>` |
| FileAnalyzer.CheckRequiredTags | src/components/FileUploader.jsx:443-455 | one error per required tag the text lacks, in order |
| FileAnalyzer.CheckImages | src/components/FileUploader.jsx:457-478 | a warning and a suggestion for every `<img` match without `alt=` |
| FileAnalyzer.CheckDeprecated | src/components/FileUploader.jsx:480-500 | a warning and a suggestion for every deprecated tag the text holds |
| FileAnalyzer.CheckNesting | src/components/FileUploader.jsx:502-511 | an error when a `<div` follows a `<p>` before its `</p>` |
| FileAnalyzer.CheckViewport | src/components/FileUploader.jsx:513-528 | a warning and a suggestion when the text has no `name="viewport"` |
| FileAnalyzer.ValidateHtml | src/components/FileUploader.jsx:419-531 | the six checks in order, with counters that count the pushed errors and warnings |
| FileAnalyzer.MergeTally | src/components/FileUploader.jsx:147-150 | the HTML results are appended and their counts added |
| FileAnalyzer.CheckHtmlFile | src/components/FileUploader.jsx:144-151 | `validateHtml` runs only for a `.html` file |
| FileAnalyzer.CheckConsole | src/components/FileUploader.jsx:154-168 | a warning at the first `console.log` line and a suggestion when the text holds one |
| FileAnalyzer.CheckVar | src/components/FileUploader.jsx:170-184 | a warning at the first `var ` line and a suggestion when the text holds one |
| FileAnalyzer.CheckComponent | src/components/FileUploader.jsx:186-234 | for `.jsx`/`.tsx` files, the React import, class component, inline style and key checks |
| FileAnalyzer.CheckReactImport | src/components/FileUploader.jsx:187-202 | an error and a fix suggestion when neither `import React` nor `import { ` occurs |
| FileAnalyzer.CheckKeys | src/components/FileUploader.jsx:225-233 | a warning when `.map(` occurs without `key=` |
| FileAnalyzer.CheckTodo | src/components/FileUploader.jsx:237-244 | an info issue when `TODO` or `FIXME` occurs |
| FileAnalyzer.CollectIssues | src/components/FileUploader.jsx:138-244 | the issue checks in source order, from empty lists and zero counters |
| FileAnalyzer.CheckLongFunctions | src/components/FileUploader.jsx:248-263 | a suggestion for every function body of more than 50 lines |
| FileAnalyzer.CheckUnusedImports | src/components/FileUploader.jsx:318-335 | the loop over the brace import lists |
| FileAnalyzer.CheckImportItems | src/components/FileUploader.jsx:321-334 | a suggestion for every imported name that occurs only once in the text |
| FileAnalyzer.SuggestShape | src/components/FileUploader.jsx:248-302 | long functions, nested loops, more than five repeated lines, more than five magic numbers |
| FileAnalyzer.SuggestNestingImports | src/components/FileUploader.jsx:304-335 | deep nesting (level above 4, two spaces per level), then the unused imports |
| FileAnalyzer.SuggestSize | src/components/FileUploader.jsx:337-400 | more than 300 lines, complexity over 20, more than three commented-code lines, long parameter lists, more than ten functions |
| FileAnalyzer.SuggestImprovements | src/components/FileUploader.jsx:246-400 | the suggestion-only checks in source order |
| FileAnalyzer.QualityScore | src/components/FileUploader.jsx:403 | the score is in [0, 100]; it is 100 exactly when there are no errors or warnings, and 0 exactly when `4 * errors + warnings >= 20` |
| FileAnalyzer.Preview | src/components/FileUploader.jsx:415 | the preview is the first 500 characters, or all of a shorter text |
| FileAnalyzer.AnalyzeFileContent | src/components/FileUploader.jsx:137-417 | the report holds the pushed issues and suggestions, counters that count its errors and warnings, their score, the line count, the size and the preview |
| FileAnalyzer.Finish | src/components/FileUploader.jsx:403-416 | the returned record's fields, from the counted tally |
| FileProperties.CountsSnoc | src/components/FileUploader.jsx:155-161 | pushing one issue adds one to exactly the count of its type |
| FileProperties.StructureCounts | src/components/FileUploader.jsx:443-455 | the required-tag check adds one error per missing tag and nothing else |
| FileProperties.ImagesCounts | src/components/FileUploader.jsx:457-478 | the image check adds one warning per image without alt and nothing else |
| FileProperties.DeprecatedCounts | src/components/FileUploader.jsx:480-500 | the deprecated-tag check adds one warning per deprecated tag present and nothing else |
| FileProperties.HeadCounts | src/components/FileUploader.jsx:425-455 | the DOCTYPE and required-tag checks add errors only |
| FileProperties.BodyCounts | src/components/FileUploader.jsx:457-500 | the image and deprecated-tag checks add warnings only |
| FileProperties.HtmlCounts | src/components/FileUploader.jsx:419-531 | `validateHtml` adds exactly its errors and warnings, and no info issue |
| FileProperties.MissingTagsBound | src/components/FileUploader.jsx:443-455 | at most one structure error per required tag, and none exactly when all are present |
| FileProperties.StructureErrorsBound | src/components/FileUploader.jsx:444 | at most four structure errors, none exactly when `<html`, `<head`, `<title` and `<body` all occur |
| FileProperties.LowerCharClose | src/components/FileUploader.jsx:426 | only `>` lower-cases to `>` |
| FileProperties.DoctypeIff | src/components/FileUploader.jsx:426 | the DOCTYPE test passes exactly when the text, after leading white space, starts with `<!doctype html>` in any letter case |
| FileProperties.DoctypeOnlyIfPrefix | src/components/FileUploader.jsx:426 | trimming the end cannot make a text pass |
| FileProperties.DoctypeIfPrefix | src/components/FileUploader.jsx:426 | trimming the end cannot make a text fail |
| FileProperties.DoctypeLeadingSpace | src/components/FileUploader.jsx:426 | leading white space does not change the DOCTYPE test |
| FileProperties.LongFunctionsExtend | src/components/FileUploader.jsx:253-263 | the long-function check only appends suggestions |
| FileProperties.ImportItemsExtend | src/components/FileUploader.jsx:322-334 | the unused-name check only appends suggestions |
| FileProperties.UnusedImportsExtend | src/components/FileUploader.jsx:319-335 | the unused-import check only appends suggestions |
| FileProperties.ShapeExtends | src/components/FileUploader.jsx:248-302 | the first group of suggestion checks only appends suggestions |
| FileProperties.NestingImportExtends | src/components/FileUploader.jsx:304-335 | the nesting and import checks only append suggestions |
| FileProperties.SizeExtends | src/components/FileUploader.jsx:337-400 | the size and complexity checks only append suggestions |
| FileProperties.ImprovementsExtend | src/components/FileUploader.jsx:246-400 | the suggestion-only checks push no issue and keep every earlier suggestion in front |
| FileProperties.ComponentCounts | src/components/FileUploader.jsx:186-234 | for a component, one error and one import code for a missing React import and one warning for a missing key; nothing for other files |
| FileProperties.ConsoleVarCounts | src/components/FileUploader.jsx:154-184 | one warning for `console.log` and one for `var `, and nothing else |
| FileProperties.MainCounts | src/components/FileUploader.jsx:154-244 | the checks after the HTML branch add the fixed warnings, the import error and the TODO note |
| FileProperties.HtmlSectionCounts | src/components/FileUploader.jsx:144-151 | the HTML branch adds `validateHtml`'s counts for a `.html` file and nothing otherwise |
| FileProperties.IssueCounts | src/components/FileUploader.jsx:138-244 | the issue checks' errors, warnings, info notes and import errors |
| FileProperties.FileCounts | src/components/FileUploader.jsx:137-417 | the report's errors are the HTML errors plus a missing React import; its warnings are the HTML warnings plus `console.log`, `var` and a missing key; the TODO note is the only info issue; a missing import is also suggested as a fix |
| FileProperties.FileIssueCounts | src/components/FileUploader.jsx:137-403 | the suggestion checks add no issue, so the counts are those of the issue checks |
| FileProperties.FileImportSuggested | src/components/FileUploader.jsx:195-201 | a component without the React import is told to add it |
| FileProperties.ImportSuggestionKept | src/components/FileUploader.jsx:195-244 | that suggestion survives the later issue checks |
| FileProperties.ComponentSuggestsImport | src/components/FileUploader.jsx:187-202 | the component checks push the import suggestion |
| FileProperties.InfoWeightless | src/components/FileUploader.jsx:236-403 | an info issue changes neither counter, so it does not change the score |
| Text.FindLineNumber | src/components/FileUploader.jsx:533-541 | the 1-based number of the first line holding the needle, or 1 when no line does |
| Text.LineOf | src/utils/deepCodeAnalyzer.js:511-519 | the number is within the line count, no earlier line holds the needle, and the line found does, unless the result is the fallback 1 |
| Text.Split | src/components/FileUploader.jsx:142 | `split('\n')` gives at least one piece, none holding the separator |
| Text.JoinSplit | src/utils/codeImprover.js:167-184 | joining the pieces of a split gives the text back |
| Text.SplitJoin | src/utils/codeImprover.js:167-184 | splitting a join of separator-free pieces gives the pieces back |
| Text.SplitCount | src/components/FileUploader.jsx:408 | a text has one more line than it has newlines |
| Text.JoinContainsPart | src/utils/codeImprover.js:266 | a joined text holds whatever one of its parts holds |
| Text.Lower | src/utils/w3cValidator.js:16 | `toLowerCase` (ASCII) keeps the length and lower-cases each character |
| Text.IndexOfFrom | src/utils/w3cValidator.js:305 | `indexOf` is -1 or the first index where the needle occurs |
| Text.ContainsIff | src/utils/codeImprover.js:301 | `includes` holds exactly when the needle occurs at some index |
| Text.TrimStart | src/utils/codeImprover.js:387 | `trimStart` drops exactly the leading white space |
| Text.TrimEnd | src/utils/codeImprover.js:217 | `trimEnd` drops exactly the trailing white space |
| Text.TrimEndUnique | src/utils/codeImprover.js:217 | those two properties determine `trimEnd` |
| Text.TrimStartUnique | src/utils/codeImprover.js:387 | those two properties determine `trimStart` |
| Text.TrimIdempotent | src/utils/codeImprover.js:228 | trimming twice is trimming once |
| Text.TrimShape | src/utils/codeImprover.js:228 | a trimmed text neither starts nor ends with white space |
| Text.LeadingSpacesTrim | src/utils/codeImprover.js:228 | extra leading white space does not change the trimmed text |
| Text.Clamp100 | src/utils/deepCodeAnalyzer.js:646 | `Math.max(0, Math.min(100, x))` lies in [0, 100] and is `x` when `x` does |
| Common.Filter | src/components/FileUploader.jsx:108 | `filter` keeps the passing elements in order |
| Common.FilterIdempotent | src/utils/codeImprover.js:318 | filtering twice with the same test is filtering once |
| Common.FindIndexFrom | src/utils/codeImprover.js:468 | `findIndex` is -1 or the first passing index |
| W3CValidator.GetLineNumber | src/utils/w3cValidator.js:304-311 | 0 exactly when the pattern does not occur, ignoring case |
| W3CValidator.GetLineNumberBound | src/utils/w3cValidator.js:304-311 | a found pattern lies on one of the lines of the code |
| W3CValidator.GetLineNumberFirstLine | src/utils/w3cValidator.js:304-311 | a pattern first found before any newline is on line 1 |
| W3CValidator.DocOf | src/utils/w3cValidator.js:304-311 | the document view: the doctype test, `getLineNumber` and lower-cased `includes` |
| W3CValidator.ImageIssues | src/utils/w3cValidator.js:133-148 | check 9 pushes only missing-alt records |
| W3CValidator.DeprecatedIssues | src/utils/w3cValidator.js:150-166 | check 10 pushes only deprecated-tag records |
| W3CValidator.HeadingIssues | src/utils/w3cValidator.js:183-210 | check 12 warns once exactly when headings exist and the `<h1>` count is not one |
| W3CValidator.TagIssues | src/utils/w3cValidator.js:212-238 | check 13 pushes only mismatched-tag records |
| W3CValidator.InputIssues | src/utils/w3cValidator.js:240-261 | check 14 pushes only unlabelled-input records |
| W3CValidator.LinkIssues | src/utils/w3cValidator.js:263-278 | check 15 pushes only bad-link records |
| W3CValidator.VoidIssues | src/utils/w3cValidator.js:280-295 | check 16 pushes one note per trailing-slash match |
| W3CValidator.InBucket | src/utils/w3cValidator.js:9-11 | a list holds only records of its kind |
| W3CValidator.InBucketConcat | src/utils/w3cValidator.js:9-11 | the records of a kind from two runs are those of each run in turn |
| W3CValidator.TotalDeductionConcat | src/utils/w3cValidator.js:27-294 | the points of two runs add up |
| W3CValidator.ValidationResults.constructor | src/utils/w3cValidator.js:7-13 | a valid object with empty lists and score 100 |
| W3CValidator.ValidationResults.Push | src/utils/w3cValidator.js:137-146 | one push appends the record to its list, marks the object invalid for an error, and takes off its points |
| W3CValidator.ValidationResults.PushWhen | src/utils/w3cValidator.js:16-28 | a push guarded by one test |
| W3CValidator.ValidationResults.Finish | src/utils/w3cValidator.js:297-300 | each list holds exactly the pushed records of its kind; valid exactly when no error was pushed; the score is 100 less the points, floored at 0 |
| W3CValidator.CheckSkeleton | src/utils/w3cValidator.js:15-72 | checks 1 to 4 (doctype, `<html>`, `lang`, `<head>`) |
| W3CValidator.CheckHeadBody | src/utils/w3cValidator.js:74-131 | checks 5 to 8 (charset, title, viewport, `<body>`) |
| W3CValidator.CheckImages | src/utils/w3cValidator.js:133-148 | check 9, one warning per image without `alt=` |
| W3CValidator.CheckDeprecated | src/utils/w3cValidator.js:150-166 | check 10 over the seven deprecated prefixes |
| W3CValidator.CheckPrefixes | src/utils/w3cValidator.js:152-166 | one error per prefix found in the lower-cased document |
| W3CValidator.CheckStylesAndHeadings | src/utils/w3cValidator.js:168-210 | checks 11 and 12 |
| W3CValidator.CheckTags | src/utils/w3cValidator.js:212-238 | check 13 over every opening tag |
| W3CValidator.CheckTag | src/utils/w3cValidator.js:218-236 | a tag is skipped when self-closing and reported when its open and close counts differ |
| W3CValidator.CheckInputs | src/utils/w3cValidator.js:240-261 | check 14 over every input |
| W3CValidator.CheckInput | src/utils/w3cValidator.js:243-259 | a warning for an input with an `id`, no label and no hidden, submit or button type |
| W3CValidator.CheckLinks | src/utils/w3cValidator.js:263-278 | check 15, a warning for each link without a real `href` |
| W3CValidator.CheckVoidTags | src/utils/w3cValidator.js:280-295 | check 16, one note per match |
| W3CValidator.IssuesInOrder | src/utils/w3cValidator.js:15-295 | the sixteen checks' pushes in order make up the record sequence |
| W3CValidator.ValidateHtml | src/utils/w3cValidator.js:6-301 | the lists are the records of each kind in order; valid exactly when there is no error; the score is 100 less every deduction, floored at 0 |
| W3CValidator.ReportOf | src/utils/w3cValidator.js:317-336 | the report keeps the lists and score; `totalIssues` is errors plus warnings; the counts are the list lengths; the status and message follow `isValid` |
| W3CValidator.GenerateW3CReport | src/utils/w3cValidator.js:314-337 | the report of the validation of the code |
| W3CProperties.EveryOfIssues | src/utils/w3cValidator.js:15-295 | a property holds of all records exactly when it holds of each check's records |
| W3CProperties.InBucketEmpty | src/utils/w3cValidator.js:9-11 | a list is empty exactly when no record of its kind was pushed |
| W3CProperties.ZeroDeduction | src/utils/w3cValidator.js:294 | nothing is deducted exactly when every record is a trailing-slash note |
| W3CProperties.VoidNotesFree | src/utils/w3cValidator.js:294 | the trailing-slash notes never change the score |
| W3CProperties.VoidNotesSuggested | src/utils/w3cValidator.js:284 | the trailing-slash notes all go to the suggestions |
| W3CProperties.ImagesClean | src/utils/w3cValidator.js:133-148 | no image record exactly when every image has alt |
| W3CProperties.DeprecatedClean | src/utils/w3cValidator.js:150-166 | no deprecated record exactly when no prefix occurs |
| W3CProperties.TagsClean | src/utils/w3cValidator.js:212-238 | no tag record exactly when no tag is mismatched |
| W3CProperties.InputsClean | src/utils/w3cValidator.js:240-261 | no input record exactly when every input is labelled or exempt |
| W3CProperties.LinksClean | src/utils/w3cValidator.js:263-278 | no link record exactly when every link has a real target |
| W3CProperties.SkeletonEvery | src/utils/w3cValidator.js:15-72 | what checks 1 to 4 push, test by test |
| W3CProperties.HeadBodyEvery | src/utils/w3cValidator.js:74-131 | what checks 5 to 8 push, test by test |
| W3CProperties.DeprecatedErrors | src/utils/w3cValidator.js:150-166 | check 10 pushes only errors: none exactly when no prefix is found |
| W3CProperties.TagErrors | src/utils/w3cValidator.js:212-238 | check 13 pushes only errors: none exactly when no tag is mismatched |
| W3CProperties.WarningLoops | src/utils/w3cValidator.js:133-278 | checks 9, 14 and 15 push no errors, and deduct exactly when they fire |
| W3CProperties.ImageWarnings | src/utils/w3cValidator.js:133-148 | check 9 pushes only warnings, none exactly when every image has alt |
| W3CProperties.InputWarnings | src/utils/w3cValidator.js:240-261 | check 14 pushes only warnings, none exactly when every input is labelled |
| W3CProperties.LinkWarnings | src/utils/w3cValidator.js:263-278 | check 15 pushes only warnings, none exactly when every link is good |
| W3CProperties.CountedChecks | src/utils/w3cValidator.js:168-295 | checks 11, 12 and 16 push no errors; 11 and 12 deduct exactly when they fire, 16 never |
| W3CProperties.ValidIffErrorFree | src/utils/w3cValidator.js:6-301 | valid exactly when the doctype, `<html>`, `<head>`, charset, title and `<body>` are there and no deprecated prefix or mismatched tag is |
| W3CProperties.ErrorsInParts | src/utils/w3cValidator.js:15-238 | only checks 1, 2, 4, 5, 6, 8, 10 and 13 can push an error |
| W3CProperties.NoErrorIff | src/utils/w3cValidator.js:6-301 | no error is pushed exactly when the document is error-free |
| W3CProperties.ScoreHundredIff | src/utils/w3cValidator.js:6-301 | the score is 100 exactly when the document is complete (only trailing-slash notes remain) |
| W3CProperties.CompleteDocument | src/utils/w3cValidator.js:6-301 | a complete document is valid, has no warnings and scores 100 |
| W3CProperties.FullScoreNoWarnings | src/utils/w3cValidator.js:137-294 | records that take off no points hold no warning |
| W3CProperties.LangWarningIff | src/utils/w3cValidator.js:45-57 | the lang warning is reported exactly when `<html>` exists without `lang` |
| W3CProperties.MissingDoctypeFirst | src/utils/w3cValidator.js:15-28 | a missing doctype makes the document invalid and is its first error, on line 1 |
| W3CProperties.SkeletonDeduction | src/utils/w3cValidator.js:15-72 | checks 1 to 4 take off 10, 10, 5 and 10 points when they fire |
| W3CProperties.HeadBodyDeduction | src/utils/w3cValidator.js:74-131 | checks 5 to 8 take off 10, 10, 5 and 10 points when they fire |
| W3CProperties.ImageDeduction | src/utils/w3cValidator.js:133-148 | 2 points per image without alt |
| W3CProperties.DeprecatedDeduction | src/utils/w3cValidator.js:150-166 | 8 points per deprecated prefix found |
| W3CProperties.TagDeduction | src/utils/w3cValidator.js:212-238 | 8 points per mismatched tag occurrence |
| W3CProperties.InputDeduction | src/utils/w3cValidator.js:240-261 | 3 points per unlabelled input |
| W3CProperties.LinkDeduction | src/utils/w3cValidator.js:263-278 | 2 points per bad link |
| W3CProperties.CountedDeduction | src/utils/w3cValidator.js:168-210 | checks 11 and 12 take off 3 and 5 points when they fire |
| W3CProperties.DeductionOfIssues | src/utils/w3cValidator.js:15-295 | the points of all records are the sum of each check's points |
| W3CProperties.DeductionTable | src/utils/w3cValidator.js:6-301 | the points `validateHTML` takes off are exactly those of the rule table |
| W3CProperties.PartsTable | src/utils/w3cValidator.js:15-295 | each check's part takes off the points of its rules |
| PerformanceAnalyzer.AddIssue | src/utils/performanceAnalyzer.js:13-26 | one more issue; high costs 10 mobile and 5 desktop, medium 5 and 2, low 2 and 1 |
| PerformanceAnalyzer.AddIssueWhen | src/utils/performanceAnalyzer.js:29-31 | a guarded `addIssue` |
| PerformanceAnalyzer.CheckViewport | src/utils/performanceAnalyzer.js:43-49 | for a `.html` or `.jsx` file without the viewport tag, a high issue and 30 points off mobile, 5 off desktop |
| PerformanceAnalyzer.AnalyzePerformance | src/utils/performanceAnalyzer.js:7-69 | the issues are those of the seven checks in order; each score is its start less the points, clamped to [0, 100] |
| PerformanceAnalyzer.FiredInSteps | src/utils/performanceAnalyzer.js:28-65 | the seven guarded appends in order make up the reported issues |
| PerformanceAnalyzer.ScoresInSteps | src/utils/performanceAnalyzer.js:9-69 | the running scores through the seven checks, clamped, are the reported scores |
| PerformanceAnalyzer.LossConcat | src/utils/performanceAnalyzer.js:13-26 | the points of two runs of issues add up |
| PerformanceAnalyzer.FiredLoss | src/utils/performanceAnalyzer.js:28-65 | the points taken off, check by check |
| PerformanceAnalyzer.LossOrder | src/utils/performanceAnalyzer.js:16-25 | every issue costs at least one point, at most 10, and no less on mobile than on desktop |
| PerformanceAnalyzer.NoLossIff | src/utils/performanceAnalyzer.js:16-25 | no points are taken off exactly when there is no issue |
| PerformanceAnalyzer.NothingFiredIff | src/utils/performanceAnalyzer.js:28-65 | there is no issue exactly when none of the seven checks fires |
| PerformanceAnalyzer.ScoreBounds | src/utils/performanceAnalyzer.js:9-69 | 0 <= mobile <= desktop <= 99, and mobile <= 98 |
| PerformanceAnalyzer.UntouchedScores | src/utils/performanceAnalyzer.js:9-69 | each score keeps its start exactly when no issue is reported |
| PerformanceAnalyzer.ViewportPenalty | src/utils/performanceAnalyzer.js:44-48 | a missing viewport costs mobile 30 points and desktop 5 |
| PerformanceAnalyzer.FiredInOrder | src/utils/performanceAnalyzer.js:28-65 | at most seven issues, at most one per check, in check order |
| DeepAnalyzer.DetectSyntaxErrors | src/utils/deepCodeAnalyzer.js:159-204 | one critical brace error exactly when `{` and `}` counts differ, one parenthesis error exactly when `(` and `)` counts differ, both on line 1, and nothing else |
| DeepAnalyzer.DetectCallbackDepth | src/utils/deepCodeAnalyzer.js:521-535 | the loop returns the largest running depth |
| DeepAnalyzer.MaxDepthIsMax | src/utils/deepCodeAnalyzer.js:521-535 | the depth returned bounds the running depth at every step and is reached at one |
| DeepAnalyzer.RunningDepthBound | src/utils/deepCodeAnalyzer.js:525-531 | the running depth never exceeds the characters read |
| DeepAnalyzer.CyclomaticComplexity | src/utils/deepCodeAnalyzer.js:537-559 | 1 plus the matches of each of the eight patterns |
| DeepAnalyzer.ConsideredLines | src/utils/deepCodeAnalyzer.js:562 | only lines longer than 20 characters once trimmed are considered |
| DeepAnalyzer.FindDuplicateCodeBlocks | src/utils/deepCodeAnalyzer.js:561-576 | the loop returns the duplicates of the scan over the trimmed considered lines |
| DeepAnalyzer.ScanLines | src/utils/deepCodeAnalyzer.js:566-573 | the `forEach` gives the scan's duplicates |
| DeepAnalyzer.VisitLine | src/utils/deepCodeAnalyzer.js:567-572 | a seen text is a duplicate; a new one is recorded with its index |
| DeepAnalyzer.DupScanStep | src/utils/deepCodeAnalyzer.js:567-572 | one step of the scan |
| DeepAnalyzer.Texts | src/utils/deepCodeAnalyzer.js:563 | the distinct texts among the first lines |
| DeepAnalyzer.DupScanKeys | src/utils/deepCodeAnalyzer.js:563-573 | `seen` holds each distinct text |
| DeepAnalyzer.DupScanSize | src/utils/deepCodeAnalyzer.js:566-573 | every line goes to `seen` or to the duplicates |
| DeepAnalyzer.DupScanFirst | src/utils/deepCodeAnalyzer.js:571 | `seen` records the first index of each text |
| DeepAnalyzer.DupScanPairs | src/utils/deepCodeAnalyzer.js:569 | each duplicate pairs the first index of its text with a later index of the same text |
| DeepAnalyzer.DuplicateCount | src/utils/deepCodeAnalyzer.js:561-576 | the duplicates are the considered lines less the distinct texts |
| DeepAnalyzer.GodObjectCheck | src/utils/deepCodeAnalyzer.js:73-85 | a high god-object report exactly when a class exists and more than 15 functions |
| DeepAnalyzer.CallbackHellCheck | src/utils/deepCodeAnalyzer.js:87-97 | a high report exactly when the depth exceeds 3 |
| DeepAnalyzer.SpaghettiCheck | src/utils/deepCodeAnalyzer.js:99-109 | a high report exactly when the complexity exceeds 20 |
| DeepAnalyzer.MagicStringsCheck | src/utils/deepCodeAnalyzer.js:111-121 | a medium report exactly when more than 10 long strings occur |
| DeepAnalyzer.CopyPasteCheck | src/utils/deepCodeAnalyzer.js:123-133 | a medium report exactly when more than 3 duplicates occur |
| DeepAnalyzer.CountSeverityOne | src/utils/deepCodeAnalyzer.js:70-134 | a check counts only towards its own severity |
| DeepAnalyzer.AntiPatternTally | src/utils/deepCodeAnalyzer.js:70-134 | at most three high and two medium anti-patterns, and every report is one or the other |
| DeepAnalyzer.AntiPatternTriggers | src/utils/deepCodeAnalyzer.js:87-133 | callback hell exactly when the depth exceeds 3, spaghetti exactly when the complexity exceeds 20, copy-paste exactly when more than 3 duplicates |
| DeepAnalyzer.HasKindConcat | src/utils/deepCodeAnalyzer.js:70-134 | a kind is reported by a run exactly when by one of its parts |
| DeepAnalyzer.DetectRuntimeErrors | src/utils/deepCodeAnalyzer.js:382-417 | at most three runtime errors |
| DeepAnalyzer.DetectPerformanceIssues | src/utils/deepCodeAnalyzer.js:419-454 | at most three performance issues, on line 1 |
| DeepAnalyzer.CredentialFindings | src/utils/deepCodeAnalyzer.js:480-495 | one critical credential entry per matching pattern |
| DeepAnalyzer.DetectSecurityVulnerabilities | src/utils/deepCodeAnalyzer.js:456-508 | only security findings |
| DeepAnalyzer.CredentialEntries | src/utils/deepCodeAnalyzer.js:456-508 | the credential entries are one per matching pattern, at most three |
| DeepAnalyzer.DetectDesignPatterns | src/utils/deepCodeAnalyzer.js:23-67 | one pattern per matching detector |
| DeepAnalyzer.PerformanceWarningsAlwaysEmpty | src/utils/deepCodeAnalyzer.js:607 | as written, no performance warning ever reaches the results, even when the detector finds one |
| DeepAnalyzer.PerformanceWarningsReported | src/utils/deepCodeAnalyzer.js:372-373 | corrected, the performance warnings are what the detector reports |
| DeepAnalyzer.ErrorBuckets | src/utils/deepCodeAnalyzer.js:606-608 | the runtime and security buckets are exactly their detectors' outputs |
| DeepAnalyzer.RawScoreIgnoresDependencies | src/utils/deepCodeAnalyzer.js:631-647 | the score does not depend on the dependency report or on an earlier score |
| DeepAnalyzer.CalculateOverallScore | src/utils/deepCodeAnalyzer.js:631-647 | the successive deductions and the pattern bonus, clamped to [0, 100] |
| DeepAnalyzer.ScoreMonotone | src/utils/deepCodeAnalyzer.js:631-647 | more findings of any kind, or fewer patterns, never raise the score |
| DeepAnalyzer.DeepScoreIgnoresPerformance | src/utils/deepCodeAnalyzer.js:605-608 | as written, what the performance detector finds never changes the overall score, because its bucket is always empty |
| DeepAnalyzer.CollectFindings | src/utils/deepCodeAnalyzer.js:579-608 | each bucket holds its stage's findings; `performanceWarnings` is filtered out of the errors and so is always empty |
| DeepAnalyzer.PerformDeepAnalysis | src/utils/deepCodeAnalyzer.js:579-629 | the buckets (an always empty `performanceWarnings` among them), the dependency report exactly when more than one file is given, holding only cycles through the file, and the clamped score computed from the detectors' outputs |
| DeepAnalyzer.RelevantCircularNamesFile | src/utils/deepCodeAnalyzer.js:615-617 | every cycle kept for a file passes through it |
| DependencyGraph.UnvisitedShrinks | src/utils/deepCodeAnalyzer.js:350 | visiting a new key leaves fewer keys to visit, so the search ends |
| DependencyGraph.DetectChain | src/utils/deepCodeAnalyzer.js:342-360 | a found chain extends the path, starting with the name searched |
| DependencyGraph.ChainExtend | src/utils/deepCodeAnalyzer.js:350-356 | a chain found below a node is a chain from its parent path |
| DependencyGraph.DetectDepsChain | src/utils/deepCodeAnalyzer.js:352-359 | the loop over dependencies returns the first non-empty chain |
| DependencyGraph.DetectMissing | src/utils/deepCodeAnalyzer.js:347-348 | a name that is no key finds nothing |
| DependencyGraph.DetectCycle | src/utils/deepCodeAnalyzer.js:342-360 | a found chain starts at the name, follows import edges through distinct keys, and ends at a node already on it |
| DependencyGraph.DetectSelfImport | src/utils/deepCodeAnalyzer.js:342-356 | a file that imports itself first reports `[f, f]` |
| DependencyGraph.AnalyzeDependencies | src/utils/deepCodeAnalyzer.js:278-312 | the graph of the files' imports, one cycle per key whose search finds one, and no unused imports |
| DependencyGraph.KeysOfGraph | src/utils/deepCodeAnalyzer.js:283-295 | the key order lists every file name once, and exactly the graph's names |
| DependencyGraph.GraphOfLast | src/utils/deepCodeAnalyzer.js:287-291 | a name's dependencies are the imports of the last file with that name |
| DependencyGraph.CircularsOfShape | src/utils/deepCodeAnalyzer.js:295-305 | every reported cycle is the search result from its first key, and every key whose search finds a cycle is reported |
| CodeImprover.FixOfRank | src/utils/codeImprover.js:48-149 | the sixteen fixes in the order `applyFix` tries them |
| CodeImprover.FixOfRankOf | src/utils/codeImprover.js:48-149 | each fix has one position among the sixteen |
| CodeImprover.FirstPick | src/utils/codeImprover.js:48-151 | the chain of tests picks a position at or after the start |
| CodeImprover.FirstPickPicked | src/utils/codeImprover.js:48-151 | position `n` is picked exactly when its test fires, no earlier one does, and test 3 did not throw before it |
| CodeImprover.FirstPickFails | src/utils/codeImprover.js:48-154 | when the chain throws and when it finds nothing |
| CodeImprover.NoEarlierTriggerFires | src/utils/codeImprover.js:48-149 | no earlier fix triggers exactly when no earlier test fires |
| CodeImprover.FiresAt | src/utils/codeImprover.js:48-149 | the test at a fix's position is that fix's trigger |
| CodeImprover.DispatchFirstMatch | src/utils/codeImprover.js:44-155 | the dispatcher applies exactly the lowest-ranked fix whose test holds, unless the test of a `syntax` suggestion without a message throws first |
| CodeImprover.DispatchFailures | src/utils/codeImprover.js:61-154 | it throws exactly for a `syntax` suggestion without a message that fixes 1 and 2 do not claim; it finds no fix exactly when it does not throw and no test fires |
| CodeImprover.ImproveCode | src/utils/codeImprover.js:6-42 | the text and lists are those of the fold over the suggestions; the metrics compare the original and the result; `hasChanges` exactly when the text changed |
| CodeImprover.StepLists | src/utils/codeImprover.js:13-28 | each suggestion adds at most one entry to one of the lists |
| CodeImprover.FoldLists | src/utils/codeImprover.js:12-30 | the applied and skipped lists are the auto-fix suggestions that found a fix and those that did not, each in input order |
| CodeImprover.FoldPartition | src/utils/codeImprover.js:12-30 | each auto-fix suggestion lands in exactly one list; the others in neither |
| CodeImprover.FoldNothingApplies | src/utils/codeImprover.js:12-30 | when no suggestion finds a fix, the text is returned unchanged |
| CodeImprover.FoldStep | src/utils/codeImprover.js:14-16 | each applied fix rewrites the text the earlier fixes produced |
| CodeImprover.LinesChanged | src/utils/codeImprover.js:504 | at most the original line count, and 0 exactly when the original lines are a prefix of the improved lines |
| CodeImprover.ImprovementMetrics | src/utils/codeImprover.js:480-506 | the line counts, the size reduction and the changed lines |
| CodeImprover.MetricsOfUnchanged | src/utils/codeImprover.js:480-506 | an unchanged text reports no change in any metric |
| CodeImprover.ChangeTypeAsWrittenBlankLine | src/utils/codeImprover.js:538 | as written, two empty lines are `added` although they are equal |
| CodeImprover.ChangeTypeOf | src/utils/codeImprover.js:531-538 | corrected: `unchanged` exactly when equal, otherwise `added`, `removed` or `modified` by which side is empty |
| CodeImprover.ChangeTypeAgrees | src/utils/codeImprover.js:538 | the two classifications agree unless both lines are empty |
| CodeImprover.GenerateCodeComparison | src/utils/codeImprover.js:522-543 | one entry per line index up to the longer text, each classified as the source writes it |
| CodeImprover.ComparisonAtShape | src/utils/codeImprover.js:528-540 | line number `i + 1`, a missing line read as empty; `added` exactly when the original line is empty or missing, `removed` exactly when only the improved one is, `modified` exactly when both are there and differ; `unchanged` entries are never different |
| CodeImprover.ComparisonAtIntendedShape | src/utils/codeImprover.js:531-538 | corrected, `isDifferent` holds exactly when the entry is not `unchanged`, and the corrected entry equals the source's one unless both lines are empty |
| CodeImprover.ComparisonOfIdentical | src/utils/codeImprover.js:522-543 | corrected, a text compared with itself is `unchanged` and not different on every line |
| CodeImprover.ComparisonAsWrittenIdentical | src/utils/codeImprover.js:529-538 | as written, `a\n\nb` compared with itself has an `added` blank line that is not different |
| ImproverRules.MapLinesShape | src/utils/codeImprover.js:167-184 | a line map without newlines gives exactly the mapped lines |
| ImproverRules.FirstWordFrom | src/utils/codeImprover.js:177-180 | `\bvar\b` finds the first whole-word occurrence |
| ImproverRules.VarLineEffect | src/utils/codeImprover.js:168-183 | a line with `var ` has its first whole-word `var` replaced by `let` (a named variable with `=`) or `const`, and nothing else; other lines are kept |
| ImproverRules.ReplaceVarLines | src/utils/codeImprover.js:166-185 | the line count is kept and each line is rewritten on its own |
| ImproverRules.TrimAppendSemicolon | src/utils/codeImprover.js:194-208 | after a `;` is appended, the trimmed line ends with it |
| ImproverRules.AddMissingSemicolonsLines | src/utils/codeImprover.js:188-213 | each line is kept or gets exactly one `;` when it needs one; the line count is kept |
| ImproverRules.AddMissingSemicolonsIdempotent | src/utils/codeImprover.js:188-213 | a second pass adds nothing |
| ImproverRules.RemoveTrailingWhitespaceLines | src/utils/codeImprover.js:216-218 | each line becomes its `trimEnd`; the count is kept |
| ImproverRules.RemoveTrailingWhitespaceIdempotent | src/utils/codeImprover.js:216-218 | a second pass changes nothing |
| ImproverRules.Reindent | src/utils/codeImprover.js:227-246 | one output line per input line |
| ImproverRules.FixIndentation | src/utils/codeImprover.js:221-249 | the loop over `indentLevel` gives the re-indented text |
| ImproverRules.IndentNext | src/utils/codeImprover.js:228-245 | one pass: dedent on a closer (not below 0), push the line, indent after an opener |
| ImproverRules.StepReindent | src/utils/codeImprover.js:228-245 | one more line extends the output by its re-indented form |
| ImproverRules.ReindentAt | src/utils/codeImprover.js:227-246 | output line `i` is input line `i` trimmed and indented at its level |
| ImproverRules.ReindentTail | src/utils/codeImprover.js:227-246 | after the first line, the rest is re-indented from the next level |
| ImproverRules.TrimIndentLine | src/utils/codeImprover.js:236-240 | an indented trimmed line trims back to itself |
| ImproverRules.ReindentLines | src/utils/codeImprover.js:227-246 | every output line trims to the same text as its input line |
| ImproverRules.ReindentDependsOnTrim | src/utils/codeImprover.js:228 | only the trimmed text of the lines decides the output |
| ImproverRules.ReindentedLines | src/utils/codeImprover.js:221-249 | the line count is kept and only leading white space changes |
| ImproverRules.ReindentedIdempotent | src/utils/codeImprover.js:221-249 | re-indenting twice is re-indenting once |
| ImproverRules.WordRun | src/utils/codeImprover.js:269 | `\w+` matches the maximal run of word characters |
| ImproverRules.ImportClauseAt | src/utils/codeImprover.js:269-271 | a default name is non-empty; a brace list is non-empty and holds no `}` |
| ImproverRules.RemoveUnusedImportsLines | src/utils/codeImprover.js:252-282 | the kept import lines, a blank line, then every other line in order; an import is dropped only when it parses and none of its names occurs in the rest |
| ImproverRules.RemoveCommentedCodeLines | src/utils/codeImprover.js:316-334 | every line that is not commented-out code survives, in order, and none that is |
| ImproverRules.RemoveCommentedCodeIdempotent | src/utils/codeImprover.js:316-334 | a second pass changes nothing |
| ImproverRules.AddDoctypeIdempotent | src/utils/codeImprover.js:386-392 | the declaration is prepended only when missing; afterwards the text has one, and a second pass changes nothing |
| ImproverRules.ReactImportIndex | src/utils/codeImprover.js:459-477 | the insertion point is within the lines, or the top of an empty list |
| ImproverRules.AddReactImport | src/utils/codeImprover.js:459-477 | gives the text with the React import inserted |
| ImproverRules.ImportIndex | src/utils/codeImprover.js:468 | the `findIndex` loop gives the insertion point |
| ImproverRules.WithReactImportLines | src/utils/codeImprover.js:459-477 | without `import React`, exactly one line goes in before the first `import ` line or at the top, and all others keep their order; with it, nothing changes |
| ImproverRules.WithReactImportIdempotent | src/utils/codeImprover.js:459-477 | afterwards the text holds `import React`, and a second pass changes nothing |
| ImproverRules.ReplaceFirstIgnoreCase | src/utils/codeImprover.js:302-310 | `replace(/p/i, ins)` replaces the first case-insensitive occurrence of `p` by `ins` and keeps the text around it |
| ImproverRules.AddViewportMetaTag | src/utils/codeImprover.js:297-313 | when `<head>` occurs, the first case-insensitive `<head>` becomes `<head>`, a newline and the tag; else when `</head>` occurs, the tag and a newline go before the first case-insensitive `</head>`; else the text is unchanged |
| ImproverRules.AddViewportMetaTagInserts | src/utils/codeImprover.js:297-313 | with a head tag, the result holds the viewport tag |
| ImproverRules.LastDot | src/utils/codeImprover.js:512 | the index of the last dot, or -1 |
| ImproverRules.ImprovedFileName | src/utils/codeImprover.js:512 | `.improved` goes before the final extension; a name with no dot, or ending in its last dot, is kept |
| ImproverRules.LastDotOf | src/utils/codeImprover.js:512 | the last dot of `base.ext` is the one before `ext` |
| ImproverRules.ImprovedFileNameOf | src/utils/codeImprover.js:512 | `base.ext` becomes `base.improved.ext`, however many dots `base` holds |
| ImproverRules.ImprovedAtLastDot | src/utils/codeImprover.js:512 | `.improved` goes right before the last dot |

## Left out

- Regular expressions are not interpreted. What a pattern matches is an input, given by a scan record or a rewrite function. The model does not check that such an input agrees with the text. This covers `removeConsoleLogs`, `addMissingKeys`, `addAltAttributes`, `replaceDeprecatedTags`, `extractInlineStyles`, `optimizeNestedLoops`, `extractMagicNumbers`, `extractImports`/`extractExports`, `detectSemanticIssues`/`analyzeTypeUsage`, and the pattern tests of the detectors.
- `toLowerCase` is modelled on ASCII letters only; lengths count characters, not UTF-16 code units.
- Timestamps (`new Date()`) are left out of every report.
- `sizeReductionPercent` and `getMetric` (floating point and `toFixed`) are left out of the metrics and the performance report.
- `Math.round` of a floating mean is modelled exactly, as `floor((2 * total + n) / (2 * n))`.
- `Blob`, `URL.createObjectURL`, `File`, `file.text()`, `alert`, `console.error`, the two-second `setTimeout` and the `onAnalysisStart`/`onFilesAnalyzed` callbacks are I/O. `generateDownloadableFile` is modelled only through its file name.
- JSZip decoding is an input: a ZIP file is its list of entries, or none when loading fails. A failure part-way through an archive, after some entries were admitted, is not modelled.
- Two `handleFiles` calls in flight at once are not modelled, and neither is React's batching of `setUploadedFiles`. The duplicate check uses the upload list as it was when the call began, as the source's closure does. The `isExtracting` flag, drag state and other UI state are left out.
- Upload.Uploader: tracks only each file's name and size, the two fields the duplicate test reads.
- The duplicate alert's text is left out; the model returns the names it would list.
- FileAnalyzer.ValidateHtml: the unused `lines` argument of `validateHtml` is left out.
- The tag name that check 13 reads from an opening tag is an input of the scan.
- The semicolon loop at the end of `detectSyntaxErrors` reports nothing, so it is not modelled.
- DetectMissing: the graph is a map, so a name that is no key finds nothing. The source looks names up in a plain object, where an import specifier such as `'toString'` or `'constructor'` finds an inherited member and `for (const dep of node.dependencies)` then throws out of `analyzeDependencies` and `performDeepAnalysis`. That exception path is not modelled.
- `new RegExp` built from text of the file throws on an unbalanced `(` or `[`: in check 14 of `validateHTML` (an input's `id`) and in the unused-import check of `analyzeFileContent` (an imported item). The model takes the test's outcome from the scan (`InputTag.labelled`, `CodeScan.usageCount`) and does not model the exception.
- `advancedPatternRecognition`, `syntaxAndSemanticAnalysis` and `realTimeErrorDetection` are modelled inside `CollectFindings`, as their fields of the result record.

## Findings

| source | as written | input that shows it | evidently intended | confidence | as-written member | corrected member |
|---|---|---|---|---|---|---|
| src/utils/codeImprover.js:538 | `changeType` tests `!original` before equality, so two equal empty lines are classified `added` while `isDifferent` is false | comparing `"a\n\nb"` with itself: line 2 is `added` | equal lines are `unchanged`; only a line present on one side only is `added` or `removed` | not executed | CodeImprover.ComparisonAsWrittenIdentical | CodeImprover.ChangeTypeOf |
| src/utils/deepCodeAnalyzer.js:607 | `performanceWarnings` is filtered out of `errors`, but the performance findings go to `warnings`, so the bucket is always empty | any text with an `await` inside a `for` loop: the detector reports it and the bucket stays empty | the bucket holds the performance detector's findings | not executed | DeepAnalyzer.PerformanceWarningsAlwaysEmpty | DeepAnalyzer.PerformanceWarningsReported |
