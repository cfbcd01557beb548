/**
 * The basic file analyzer of the upload screen: `validateHtml` (the W3C-style checks of an
 * `.html` file), `analyzeFileContent` (issues, suggestions, the two counters and the quality
 * score of one file) and `generateSummary` (the project totals and pass/fail status).
 */
module FileAnalyzer {
  import opened Common
  import opened Text
  import opened Reports

  // ---------------------------------------------------------------- the running record

  /** What the checks have pushed so far: the `issues` and `suggestions` arrays. */
  datatype Found = Found(issues: seq<Issue>, suggestions: seq<Suggestion>)

  const NoneFound := Found([], [])

  /** `issues.push(issue)`. */
  function Push(f: Found, issue: Issue): Found {
    Found(f.issues + [issue], f.suggestions)
  }

  /** `suggestions.push(s)`. */
  function Suggest(f: Found, s: Suggestion): Found {
    Found(f.issues, f.suggestions + [s])
  }

  /** The arrays together with the `errorCount` and `warningCount` counters. */
  datatype Tally = Tally(found: Found, errorCount: nat, warningCount: nat)

  /** Each counter is the number of pushed issues of its type. */
  predicate Counted(t: Tally) {
    t.errorCount == CountIssues(t.found.issues, Error)
    && t.warningCount == CountIssues(t.found.issues, Warning)
  }

  const Start := Tally(NoneFound, 0, 0)

  /** `issues.push(issue)` with the matching `errorCount++` or `warningCount++` (none for info). */
  method AddIssue(t: Tally, issue: Issue) returns (r: Tally)
    requires Counted(t)
    ensures Counted(r)
    ensures r.found == Push(t.found, issue)
  {
    var issues := t.found.issues + [issue];
    assert issues[..|issues| - 1] == t.found.issues;
    r := Tally(Found(issues, t.found.suggestions), t.errorCount, t.warningCount);
    if issue.kind == Error {
      r := r.(errorCount := r.errorCount + 1);
    } else if issue.kind == Warning {
      r := r.(warningCount := r.warningCount + 1);
    }
  }

  method AddSuggestion(t: Tally, s: Suggestion) returns (r: Tally)
    requires Counted(t)
    ensures Counted(r)
    ensures r.found == Suggest(t.found, s)
  {
    r := Tally(Found(t.found.issues, t.found.suggestions + [s]), t.errorCount, t.warningCount);
  }

  /** `if (cond) suggestions.push(s)`. */
  function SuggestWhen(f: Found, cond: bool, s: Suggestion): Found {
    if cond then Suggest(f, s) else f
  }

  method AddSuggestionWhen(t: Tally, cond: bool, s: Suggestion) returns (r: Tally)
    requires Counted(t)
    ensures Counted(r)
    ensures r.found == SuggestWhen(t.found, cond, s)
  {
    r := t;
    if cond {
      r := AddSuggestion(t, s);
    }
  }

  // ---------------------------------------------------------------- validateHtml

  /**
   * What the regular expressions of `validateHtml` find: the matches of `<img\s+[^>]*>` in
   * order, and whether `<p>[\s\S]*?<div[\s\S]*?<\/p>` matches.
   */
  datatype MarkupScan = MarkupScan(imageTags: seq<string>, divInParagraph: bool)

  const DoctypeText: string := "<!doctype html>"
  const RequiredTags: seq<string> := ["<html", "<head", "<title", "<body"]
  const DeprecatedTags: seq<string> := ["<center>", "<font>", "<marquee>", "<blink>", "<frame>", "<frameset>"]
  const ViewportName: string := "name=\"viewport\""

  /** Check 1: the trimmed text, lower-cased, must start with `<!doctype html>`. */
  predicate HasDoctype(content: string) {
    StartsWith(Lower(Trim(content)), DoctypeText)
  }

  const DoctypeIssue := Issue(Error, 1, "Missing or invalid DOCTYPE declaration. Should be <!DOCTYPE html>", "W3C_DOCTYPE")
  const DoctypeSuggestion := Suggestion("fix", Some("Add <!DOCTYPE html> declaration at the beginning"), true,
                                        Some("Add DOCTYPE to HTML"), Some(High))

  function DoctypeCheck(f: Found, content: string): Found {
    if !HasDoctype(content) then Suggest(Push(f, DoctypeIssue), DoctypeSuggestion) else f
  }

  /** `tag.replace('<', '')` for a tag that starts with its only `<`. */
  function TagName(tag: string): string {
    if |tag| > 0 && tag[0] == '<' then tag[1..] else tag
  }

  function StructureIssue(tag: string): Issue {
    Issue(Error, 1, "Missing required tag: " + TagName(tag), "W3C_STRUCTURE")
  }

  /** Check 2: one error per required tag the text does not contain, in list order. */
  function StructureCheck(f: Found, content: string, tags: seq<string>): Found
    decreases |tags|
  {
    if |tags| == 0 then f
    else
      var g := StructureCheck(f, content, tags[..|tags| - 1]);
      var tag := tags[|tags| - 1];
      if !Contains(content, tag) then Push(g, StructureIssue(tag)) else g
  }

  const AltSuggestion := Suggestion("accessibility", Some("Add alt attributes to images for better accessibility"),
                                    true, Some("Add alt attributes to images"), Some(High))

  function ImageIssue(content: string, tag: string): Issue {
    Issue(Warning, LineOf(content, tag), "Image missing \"alt\" attribute (Accessibility/W3C)", "W3C_A11Y")
  }

  /** Check 3: a warning and a suggestion per matched image tag without `alt=`. */
  function ImagesCheck(f: Found, content: string, images: seq<string>): Found
    decreases |images|
  {
    if |images| == 0 then f
    else
      var g := ImagesCheck(f, content, images[..|images| - 1]);
      var tag := images[|images| - 1];
      if !Contains(tag, "alt=") then Suggest(Push(g, ImageIssue(content, tag)), AltSuggestion) else g
  }

  function DeprecatedIssue(content: string, tag: string): Issue {
    Issue(Warning, LineOf(content, tag), "Deprecated HTML tag detected: " + tag, "W3C_DEPRECATED")
  }

  function DeprecatedSuggestion(tag: string): Suggestion {
    Suggestion("modernization", Some("Replace " + tag + " with CSS styling"), true,
               Some("Replace deprecated HTML tags"), Some(Low))
  }

  /** Check 4: a warning and a suggestion per deprecated tag the text contains. */
  function DeprecatedCheck(f: Found, content: string, tags: seq<string>): Found
    decreases |tags|
  {
    if |tags| == 0 then f
    else
      var g := DeprecatedCheck(f, content, tags[..|tags| - 1]);
      var tag := tags[|tags| - 1];
      if Contains(content, tag) then Suggest(Push(g, DeprecatedIssue(content, tag)), DeprecatedSuggestion(tag)) else g
  }

  function NestingIssue(content: string): Issue {
    Issue(Error, LineOf(content, "<div>"), "Invalid nesting: <div> cannot be strictly inside <p> (W3C Spec)", "W3C_NESTING")
  }

  /** Check 5: a `<div` inside a `<p>` is one error, reported at the first line with `<div>`. */
  function NestingCheck(f: Found, content: string, scan: MarkupScan): Found {
    if scan.divInParagraph then Push(f, NestingIssue(content)) else f
  }

  const ViewportIssue := Issue(Warning, 1, "Missing viewport meta tag for mobile responsiveness", "W3C_MOBILE")
  const ViewportSuggestion := Suggestion("modernization",
    Some("Add <meta name=\"viewport\" content=\"width=device-width, initial-scale=1.0\">"),
    true, Some("Add viewport meta tag"), None)

  /** Check 6: no `name="viewport"` anywhere. */
  function ViewportCheck(f: Found, content: string): Found {
    if !Contains(content, ViewportName) then Suggest(Push(f, ViewportIssue), ViewportSuggestion) else f
  }

  /** Everything `validateHtml` pushes after what `f` holds, check by check. */
  function HtmlChecks(f: Found, content: string, scan: MarkupScan): Found {
    ViewportCheck(NestingCheck(DeprecatedCheck(ImagesCheck(StructureCheck(DoctypeCheck(f, content),
      content, RequiredTags), content, scan.imageTags), content, DeprecatedTags), content, scan), content)
  }

  method CheckDoctype(content: string, t: Tally) returns (r: Tally)
    requires Counted(t)
    ensures Counted(r) && r.found == DoctypeCheck(t.found, content)
  {
    r := t;
    if !StartsWith(Lower(Trim(content)), DoctypeText) {
      r := AddIssue(r, DoctypeIssue);
      r := AddSuggestion(r, DoctypeSuggestion);
    }
  }

  /** `requiredTags.forEach(…)`. */
  method CheckRequiredTags(content: string, tags: seq<string>, t: Tally) returns (r: Tally)
    requires Counted(t)
    ensures Counted(r) && r.found == StructureCheck(t.found, content, tags)
  {
    r := t;
    for i := 0 to |tags|
      invariant Counted(r) && r.found == StructureCheck(t.found, content, tags[..i])
    {
      assert tags[..i + 1][..i] == tags[..i];
      if !Contains(content, tags[i]) {
        r := AddIssue(r, StructureIssue(tags[i]));
      }
    }
    assert tags[..|tags|] == tags;
  }

  /** The `while ((match = imgRegex.exec(content)) !== null)` loop. */
  method CheckImages(content: string, images: seq<string>, t: Tally) returns (r: Tally)
    requires Counted(t)
    ensures Counted(r) && r.found == ImagesCheck(t.found, content, images)
  {
    r := t;
    var i := 0;
    while i < |images|
      invariant i <= |images|
      invariant Counted(r) && r.found == ImagesCheck(t.found, content, images[..i])
    {
      assert images[..i + 1][..i] == images[..i];
      var tag := images[i];
      if !Contains(tag, "alt=") {
        var lineNum := FindLineNumber(content, tag);
        r := AddIssue(r, Issue(Warning, lineNum, "Image missing \"alt\" attribute (Accessibility/W3C)", "W3C_A11Y"));
        r := AddSuggestion(r, AltSuggestion);
      }
      i := i + 1;
    }
    assert images[..|images|] == images;
  }

  /** `deprecatedTags.forEach(…)`. */
  method CheckDeprecated(content: string, tags: seq<string>, t: Tally) returns (r: Tally)
    requires Counted(t)
    ensures Counted(r) && r.found == DeprecatedCheck(t.found, content, tags)
  {
    r := t;
    for i := 0 to |tags|
      invariant Counted(r) && r.found == DeprecatedCheck(t.found, content, tags[..i])
    {
      assert tags[..i + 1][..i] == tags[..i];
      var tag := tags[i];
      if Contains(content, tag) {
        var lineNum := FindLineNumber(content, tag);
        r := AddIssue(r, Issue(Warning, lineNum, "Deprecated HTML tag detected: " + tag, "W3C_DEPRECATED"));
        r := AddSuggestion(r, DeprecatedSuggestion(tag));
      }
    }
    assert tags[..|tags|] == tags;
  }

  method CheckNesting(content: string, scan: MarkupScan, t: Tally) returns (r: Tally)
    requires Counted(t)
    ensures Counted(r) && r.found == NestingCheck(t.found, content, scan)
  {
    r := t;
    if scan.divInParagraph {
      var lineNum := FindLineNumber(content, "<div>");
      r := AddIssue(r, Issue(Error, lineNum, "Invalid nesting: <div> cannot be strictly inside <p> (W3C Spec)", "W3C_NESTING"));
    }
  }

  method CheckViewport(content: string, t: Tally) returns (r: Tally)
    requires Counted(t)
    ensures Counted(r) && r.found == ViewportCheck(t.found, content)
  {
    r := t;
    if !Contains(content, ViewportName) {
      r := AddIssue(r, ViewportIssue);
      r := AddSuggestion(r, ViewportSuggestion);
    }
  }

  /**
   * `validateHtml(content, lines)` (the `lines` argument is not used): the six checks run
   * one after another on the tally, whose counters count the pushed errors and warnings.
   */
  method ValidateHtml(content: string, scan: MarkupScan) returns (r: Tally)
    ensures r.found == HtmlChecks(NoneFound, content, scan)
    ensures Counted(r)
  {
    r := CheckDoctype(content, Start);
    r := CheckRequiredTags(content, RequiredTags, r);
    r := CheckImages(content, scan.imageTags, r);
    r := CheckDeprecated(content, DeprecatedTags, r);
    r := CheckNesting(content, scan, r);
    r := CheckViewport(content, r);
  }

  // ---------------------------------------------------------------- analyzeFileContent: issues

  /** `issues.push(...h.issues); suggestions.push(...h.suggestions)`. */
  function Merge(f: Found, h: Found): Found {
    Found(f.issues + h.issues, f.suggestions + h.suggestions)
  }

  /** The `.html` branch: the pushes of `validateHtml` appended. */
  function HtmlSection(f: Found, fileName: string, content: string, scan: MarkupScan): Found {
    if EndsWith(fileName, ".html") then Merge(f, HtmlChecks(NoneFound, content, scan)) else f
  }

  function ConsoleIssue(content: string): Issue {
    Issue(Warning, LineOf(content, "console.log"), "console.log() found - should be removed in production", "CONSOLE_LOG")
  }

  const ConsoleSuggestion := Suggestion("optimization", Some("Remove console.log statements or use a proper logging library"),
                                        true, Some("Remove all console.log statements"), None)

  function ConsoleCheck(f: Found, content: string): Found {
    if Contains(content, "console.log") then Suggest(Push(f, ConsoleIssue(content)), ConsoleSuggestion) else f
  }

  function VarIssue(content: string): Issue {
    Issue(Warning, LineOf(content, "var "), "Using \"var\" instead of \"let\" or \"const\"", "USE_VAR")
  }

  const VarSuggestion := Suggestion("modernization", Some("Replace \"var\" with \"const\" or \"let\" for better scoping"),
                                    true, Some("Replace var with const/let"), None)

  function VarCheck(f: Found, content: string): Found {
    if Contains(content, "var ") then Suggest(Push(f, VarIssue(content)), VarSuggestion) else f
  }

  predicate IsComponentFile(fileName: string) {
    EndsWith(fileName, ".jsx") || EndsWith(fileName, ".tsx")
  }

  predicate LacksReactImport(content: string) {
    !Contains(content, "import React") && !Contains(content, "import { ")
  }

  const ImportIssue := Issue(Error, 1, "Missing React import", "MISSING_IMPORT")
  const ImportSuggestion := Suggestion("fix", Some("Add missing React import"), true, Some("Add React import"), Some(High))
  const ClassSuggestion := Suggestion("modernization",
    Some("Consider converting class components to functional components with hooks"), false, None, Some(High))
  const InlineStyleSuggestion := Suggestion("performance",
    Some("Inline styles detected. Consider moving to CSS modules or styled-components"), true,
    Some("Extract inline styles to CSS"), Some(Medium))

  function KeyIssue(content: string): Issue {
    Issue(Warning, LineOf(content, ".map("), "Missing \"key\" prop in list items", "MISSING_KEY")
  }

  predicate LacksKey(content: string) {
    Contains(content, ".map(") && !Contains(content, "key=")
  }

  function ImportCheck(f: Found, content: string): Found {
    if LacksReactImport(content) then Suggest(Push(f, ImportIssue), ImportSuggestion) else f
  }

  function KeyCheck(f: Found, content: string): Found {
    if LacksKey(content) then Push(f, KeyIssue(content)) else f
  }

  /** The four checks of a `.jsx` or `.tsx` file, in order. */
  function ComponentChecks(f: Found, content: string): Found {
    KeyCheck(SuggestWhen(SuggestWhen(ImportCheck(f, content),
      Contains(content, "class ") && Contains(content, "extends Component"), ClassSuggestion),
      Contains(content, "style={{"), InlineStyleSuggestion), content)
  }

  function ComponentSection(f: Found, fileName: string, content: string): Found {
    if IsComponentFile(fileName) then ComponentChecks(f, content) else f
  }

  /** The TODO/FIXME note is an info issue, reported at the first line holding `TODO`. */
  function TodoIssue(content: string): Issue {
    Issue(Info, LineOf(content, "TODO"), "TODO/FIXME comment found", "TODO_COMMENT")
  }

  function TodoCheck(f: Found, content: string): Found {
    if Contains(content, "TODO") || Contains(content, "FIXME") then Push(f, TodoIssue(content)) else f
  }

  /** The checks that push issues, in the order they run. */
  function IssueChecks(fileName: string, content: string, scan: MarkupScan): Found {
    TodoCheck(ComponentSection(VarCheck(ConsoleCheck(HtmlSection(NoneFound, fileName, content, scan), content),
      content), fileName, content), content)
  }

  method MergeTally(t: Tally, h: Tally) returns (r: Tally)
    requires Counted(t) && Counted(h)
    ensures Counted(r) && r.found == Merge(t.found, h.found)
  {
    CountIssuesConcat(t.found.issues, h.found.issues, Error);
    CountIssuesConcat(t.found.issues, h.found.issues, Warning);
    r := Tally(Merge(t.found, h.found), t.errorCount + h.errorCount, t.warningCount + h.warningCount);
  }

  method CheckHtmlFile(fileName: string, content: string, scan: MarkupScan, t: Tally) returns (r: Tally)
    requires Counted(t)
    ensures Counted(r) && r.found == HtmlSection(t.found, fileName, content, scan)
  {
    r := t;
    if EndsWith(fileName, ".html") {
      var h := ValidateHtml(content, scan);
      r := MergeTally(r, h);
    }
  }

  method CheckConsole(content: string, t: Tally) returns (r: Tally)
    requires Counted(t)
    ensures Counted(r) && r.found == ConsoleCheck(t.found, content)
  {
    r := t;
    if Contains(content, "console.log") {
      var lineNum := FindLineNumber(content, "console.log");
      r := AddIssue(r, Issue(Warning, lineNum, "console.log() found - should be removed in production", "CONSOLE_LOG"));
      r := AddSuggestion(r, ConsoleSuggestion);
    }
  }

  method CheckVar(content: string, t: Tally) returns (r: Tally)
    requires Counted(t)
    ensures Counted(r) && r.found == VarCheck(t.found, content)
  {
    r := t;
    if Contains(content, "var ") {
      var lineNum := FindLineNumber(content, "var ");
      r := AddIssue(r, Issue(Warning, lineNum, "Using \"var\" instead of \"let\" or \"const\"", "USE_VAR"));
      r := AddSuggestion(r, VarSuggestion);
    }
  }

  method CheckComponent(fileName: string, content: string, t: Tally) returns (r: Tally)
    requires Counted(t)
    ensures Counted(r) && r.found == ComponentSection(t.found, fileName, content)
  {
    r := t;
    if EndsWith(fileName, ".jsx") || EndsWith(fileName, ".tsx") {
      r := CheckReactImport(content, r);
      r := AddSuggestionWhen(r, Contains(content, "class ") && Contains(content, "extends Component"), ClassSuggestion);
      r := AddSuggestionWhen(r, Contains(content, "style={{"), InlineStyleSuggestion);
      r := CheckKeys(content, r);
    }
  }

  method CheckReactImport(content: string, t: Tally) returns (r: Tally)
    requires Counted(t)
    ensures Counted(r) && r.found == ImportCheck(t.found, content)
  {
    r := t;
    if !Contains(content, "import React") && !Contains(content, "import { ") {
      r := AddIssue(r, ImportIssue);
      r := AddSuggestion(r, ImportSuggestion);
    }
  }

  method CheckKeys(content: string, t: Tally) returns (r: Tally)
    requires Counted(t)
    ensures Counted(r) && r.found == KeyCheck(t.found, content)
  {
    r := t;
    if Contains(content, ".map(") && !Contains(content, "key=") {
      var lineNum := FindLineNumber(content, ".map(");
      r := AddIssue(r, Issue(Warning, lineNum, "Missing \"key\" prop in list items", "MISSING_KEY"));
    }
  }

  method CheckTodo(content: string, t: Tally) returns (r: Tally)
    requires Counted(t)
    ensures Counted(r) && r.found == TodoCheck(t.found, content)
  {
    r := t;
    if Contains(content, "TODO") || Contains(content, "FIXME") {
      var lineNum := FindLineNumber(content, "TODO");
      r := AddIssue(r, Issue(Info, lineNum, "TODO/FIXME comment found", "TODO_COMMENT"));
    }
  }

  /** The issue checks of `analyzeFileContent`, from empty arrays and zero counters. */
  method CollectIssues(fileName: string, content: string, scan: MarkupScan) returns (t: Tally)
    ensures Counted(t) && t.found == IssueChecks(fileName, content, scan)
  {
    t := CheckHtmlFile(fileName, content, scan, Start);
    t := CheckConsole(content, t);
    t := CheckVar(content, t);
    t := CheckComponent(fileName, content, t);
    t := CheckTodo(content, t);
  }

  // ---------------------------------------------------------------- analyzeFileContent: suggestions

  /**
   * What the remaining regular expressions find: the matched function bodies (the `function`
   * blocks, then the arrow functions), whether a `for` loop nests another, the number of
   * two-or-more-digit numbers, the brace contents of each `import { … } from`, how often a
   * name matches as a pattern, the total of the five branch-keyword counts, whether some
   * `function` has a parameter list of 50 or more characters, and the number of function heads.
   */
  datatype CodeScan = CodeScan(
    markup: MarkupScan,
    functionBodies: seq<string>,
    nestedLoops: bool,
    magicNumbers: nat,
    importLists: seq<string>,
    usageCount: string -> nat,
    branchKeywords: nat,
    longParameterList: bool,
    functionHeads: nat)

  function LongFunctionSuggestion(n: nat): Suggestion {
    Suggestion("maintainability",
      Some("Long function detected (" + NatToString(n) + " lines). Consider breaking into smaller functions for better readability"),
      false, None, Some(High))
  }

  /** One suggestion per matched function body of more than 50 lines. */
  function LongFunctionsCheck(f: Found, bodies: seq<string>): Found
    decreases |bodies|
  {
    if |bodies| == 0 then f
    else
      var g := LongFunctionsCheck(f, bodies[..|bodies| - 1]);
      var n := |Lines(bodies[|bodies| - 1])|;
      if n > 50 then Suggest(g, LongFunctionSuggestion(n)) else g
  }

  const NestedLoopsSuggestion := Suggestion("performance",
    Some("Nested loops detected. Consider optimizing with Map, Set, or single-pass algorithms"), true,
    Some("Add optimization comment for nested loops"), Some(High))

  /** `codeBlocks`: the lines whose trimmed text is longer than 20 characters. */
  function CodeBlocks(lines: seq<string>): seq<string>
    decreases |lines|
  {
    if |lines| == 0 then []
    else
      var front := CodeBlocks(lines[..|lines| - 1]);
      if |Trim(lines[|lines| - 1])| > 20 then front + [lines[|lines| - 1]] else front
  }

  /**
   * `duplicateLines.length`: the entries equal to an earlier entry (`indexOf(line) !== index`;
   * the second test, a non-empty trimmed line, holds for every code block).
   */
  function RepeatCount(blocks: seq<string>): nat
    decreases |blocks|
  {
    if |blocks| == 0 then 0
    else
      var front := blocks[..|blocks| - 1];
      RepeatCount(front) + (if blocks[|blocks| - 1] in front then 1 else 0)
  }

  const DuplicateSuggestion := Suggestion("maintainability",
    Some("Duplicate code detected. Consider extracting into reusable functions or components"), false, None, Some(Medium))

  const MagicNumbersSuggestion := Suggestion("readability",
    Some("Magic numbers found. Consider using named constants for better code clarity"), true,
    Some("Extract magic numbers to constants"), Some(Medium))

  /** A line's level: half its leading white space (`/^(\s*)/`), rounded down. */
  function NestingLevel(line: string): nat {
    SkipSpaces(line, 0) / 2
  }

  /** `Math.max(...lines.map(…))`. */
  function MaxNestingLevel(lines: seq<string>): nat
    decreases |lines|
  {
    if |lines| == 0 then 0 else Max(MaxNestingLevel(lines[..|lines| - 1]), NestingLevel(lines[|lines| - 1]))
  }

  function DeepNestingSuggestion(level: nat): Suggestion {
    Suggestion("complexity",
      Some("Deep nesting detected (level " + NatToString(level) + "). Consider early returns or extracting functions"),
      false, None, Some(Medium))
  }

  function UnusedImportSuggestion(name: string): Suggestion {
    Suggestion("optimization", Some("Unused import detected: " + name + ". Remove to reduce bundle size"), true,
               Some("Remove unused imports"), Some(Low))
  }

  /** The items of one import list, split on commas and trimmed; a name matched only once is unused. */
  function ImportItemsCheck(f: Found, items: seq<string>, usageCount: string -> nat): Found
    decreases |items|
  {
    if |items| == 0 then f
    else
      var g := ImportItemsCheck(f, items[..|items| - 1], usageCount);
      var name := Trim(items[|items| - 1]);
      if usageCount(name) == 1 then Suggest(g, UnusedImportSuggestion(name)) else g
  }

  function UnusedImportsCheck(f: Found, lists: seq<string>, usageCount: string -> nat): Found
    decreases |lists|
  {
    if |lists| == 0 then f
    else ImportItemsCheck(UnusedImportsCheck(f, lists[..|lists| - 1], usageCount), Split(lists[|lists| - 1], ','), usageCount)
  }

  function LargeFileSuggestion(n: nat): Suggestion {
    Suggestion("maintainability",
      Some("Large file (" + NatToString(n) + " lines). Consider splitting into smaller, focused modules"),
      false, None, Some(Medium))
  }

  const ComplexitySuggestion := Suggestion("complexity",
    Some("High cyclomatic complexity. Consider simplifying logic or using pattern matching"), false, None, Some(High))

  /** A line that, trimmed, starts with `//` and mentions `function`, `const` or `=`. */
  predicate IsCommentedCode(line: string) {
    StartsWith(Trim(line), "//") && (Contains(line, "function") || Contains(line, "const") || Contains(line, "="))
  }

  function CommentedCodeLines(lines: seq<string>): nat
    decreases |lines|
  {
    if |lines| == 0 then 0
    else CommentedCodeLines(lines[..|lines| - 1]) + (if IsCommentedCode(lines[|lines| - 1]) then 1 else 0)
  }

  const CommentedCodeSuggestion := Suggestion("cleanliness",
    Some("Commented out code found. Remove dead code to keep codebase clean"), true,
    Some("Remove commented out code"), Some(Low))

  const LongParametersSuggestion := Suggestion("maintainability",
    Some("Long parameter list detected. Consider using object destructuring or parameter objects"), false, None, Some(Medium))

  const ManyFunctionsSuggestion := Suggestion("maintainability",
    Some("Consider breaking down large functions into smaller ones"), false, None, Some(Medium))

  /** Long functions, nested loops, duplicated blocks and magic numbers. */
  function ShapeChecks(f: Found, lines: seq<string>, scan: CodeScan): Found {
    var f1 := SuggestWhen(LongFunctionsCheck(f, scan.functionBodies), scan.nestedLoops, NestedLoopsSuggestion);
    SuggestWhen(SuggestWhen(f1, RepeatCount(CodeBlocks(lines)) > 5, DuplicateSuggestion),
                scan.magicNumbers > 5, MagicNumbersSuggestion)
  }

  /** Deep nesting, then the unused imports. */
  function NestingImportChecks(f: Found, lines: seq<string>, scan: CodeScan): Found {
    var level := MaxNestingLevel(lines);
    UnusedImportsCheck(SuggestWhen(f, level > 4, DeepNestingSuggestion(level)), scan.importLists, scan.usageCount)
  }

  /** File size, complexity, commented code, long parameter lists and the function count. */
  function SizeChecks(f: Found, lines: seq<string>, scan: CodeScan): Found {
    var f1 := SuggestWhen(SuggestWhen(f, |lines| > 300, LargeFileSuggestion(|lines|)),
                          scan.branchKeywords > 20, ComplexitySuggestion);
    SuggestWhen(SuggestWhen(SuggestWhen(f1, CommentedCodeLines(lines) > 3, CommentedCodeSuggestion),
      scan.longParameterList, LongParametersSuggestion), scan.functionHeads > 10, ManyFunctionsSuggestion)
  }

  /** The suggestion-only checks, in the order they run. */
  function ImprovementChecks(f: Found, content: string, scan: CodeScan): Found {
    var lines := Lines(content);
    SizeChecks(NestingImportChecks(ShapeChecks(f, lines, scan), lines, scan), lines, scan)
  }

  /** `allFunctions.forEach(…)`. */
  method CheckLongFunctions(bodies: seq<string>, t: Tally) returns (r: Tally)
    requires Counted(t)
    ensures Counted(r) && r.found == LongFunctionsCheck(t.found, bodies)
  {
    r := t;
    for i := 0 to |bodies|
      invariant Counted(r) && r.found == LongFunctionsCheck(t.found, bodies[..i])
    {
      assert bodies[..i + 1][..i] == bodies[..i];
      var funcLines := |Split(bodies[i], '\n')|;
      if funcLines > 50 {
        r := AddSuggestion(r, LongFunctionSuggestion(funcLines));
      }
    }
    assert bodies[..|bodies|] == bodies;
  }

  /** `imports.forEach(imp => imports.split(',').forEach(…))`. */
  method CheckUnusedImports(lists: seq<string>, usageCount: string -> nat, t: Tally) returns (r: Tally)
    requires Counted(t)
    ensures Counted(r) && r.found == UnusedImportsCheck(t.found, lists, usageCount)
  {
    r := t;
    for i := 0 to |lists|
      invariant Counted(r) && r.found == UnusedImportsCheck(t.found, lists[..i], usageCount)
    {
      assert lists[..i + 1][..i] == lists[..i];
      var imported := Split(lists[i], ',');
      r := CheckImportItems(imported, usageCount, r);
    }
    assert lists[..|lists|] == lists;
  }

  /** The inner `forEach` over the names of one import list. */
  method CheckImportItems(items: seq<string>, usageCount: string -> nat, t: Tally) returns (r: Tally)
    requires Counted(t)
    ensures Counted(r) && r.found == ImportItemsCheck(t.found, items, usageCount)
  {
    r := t;
    for j := 0 to |items|
      invariant Counted(r) && r.found == ImportItemsCheck(t.found, items[..j], usageCount)
    {
      assert items[..j + 1][..j] == items[..j];
      var itemName := Trim(items[j]);
      if usageCount(itemName) == 1 {
        r := AddSuggestion(r, UnusedImportSuggestion(itemName));
      }
    }
    assert items[..|items|] == items;
  }

  method SuggestShape(lines: seq<string>, scan: CodeScan, t: Tally) returns (r: Tally)
    requires Counted(t)
    ensures Counted(r) && r.found == ShapeChecks(t.found, lines, scan)
  {
    r := CheckLongFunctions(scan.functionBodies, t);
    r := AddSuggestionWhen(r, scan.nestedLoops, NestedLoopsSuggestion);
    var codeBlocks := CodeBlocks(lines);
    r := AddSuggestionWhen(r, RepeatCount(codeBlocks) > 5, DuplicateSuggestion);
    r := AddSuggestionWhen(r, scan.magicNumbers > 5, MagicNumbersSuggestion);
  }

  method SuggestNestingImports(lines: seq<string>, scan: CodeScan, t: Tally) returns (r: Tally)
    requires Counted(t)
    ensures Counted(r) && r.found == NestingImportChecks(t.found, lines, scan)
  {
    var maxNestingLevel := MaxNestingLevel(lines);
    r := AddSuggestionWhen(t, maxNestingLevel > 4, DeepNestingSuggestion(maxNestingLevel));
    r := CheckUnusedImports(scan.importLists, scan.usageCount, r);
  }

  method SuggestSize(lines: seq<string>, scan: CodeScan, t: Tally) returns (r: Tally)
    requires Counted(t)
    ensures Counted(r) && r.found == SizeChecks(t.found, lines, scan)
  {
    r := AddSuggestionWhen(t, |lines| > 300, LargeFileSuggestion(|lines|));
    r := AddSuggestionWhen(r, scan.branchKeywords > 20, ComplexitySuggestion);
    var commentedCodeLines := CommentedCodeLines(lines);
    r := AddSuggestionWhen(r, commentedCodeLines > 3, CommentedCodeSuggestion);
    r := AddSuggestionWhen(r, scan.longParameterList, LongParametersSuggestion);
    r := AddSuggestionWhen(r, scan.functionHeads > 10, ManyFunctionsSuggestion);
  }

  method SuggestImprovements(content: string, lines: seq<string>, scan: CodeScan, t: Tally) returns (r: Tally)
    requires Counted(t) && lines == Lines(content)
    ensures Counted(r) && r.found == ImprovementChecks(t.found, content, scan)
  {
    r := SuggestShape(lines, scan, t);
    r := SuggestNestingImports(lines, scan, r);
    r := SuggestSize(lines, scan, r);
  }

  // ---------------------------------------------------------------- analyzeFileContent

  /**
   * `Math.max(0, 100 - (errorCount * 20 + warningCount * 5))`: a score out of 100 that only a
   * file with neither errors nor warnings keeps whole, and that only falls as either grows.
   */
  function QualityScore(errorCount: nat, warningCount: nat): (r: int)
    ensures 0 <= r <= 100
    ensures r == 100 <==> errorCount == 0 && warningCount == 0
    ensures r == 0 <==> 4 * errorCount + warningCount >= 20
  {
    Max(0, 100 - (errorCount * 20 + warningCount * 5))
  }

  /** `content.substring(0, 500)`: the first 500 characters, or all of a shorter text. */
  function Preview(content: string): (r: string)
    ensures r <= content
    ensures |r| <= 500
    ensures |content| <= 500 ==> r == content
    ensures |content| >= 500 ==> |r| == 500
  {
    content[..Min(500, |content|)]
  }

  datatype FileAnalysis = FileAnalysis(
    fileName: string,
    fileType: string,
    lines: nat,
    size: nat,
    issues: seq<Issue>,
    suggestions: seq<Suggestion>,
    errorCount: nat,
    warningCount: nat,
    qualityScore: int,
    preview: string)

  /** Everything `analyzeFileContent` pushes, in order. */
  function FileChecks(fileName: string, content: string, scan: CodeScan): Found {
    ImprovementChecks(IssueChecks(fileName, content, scan.markup), content, scan)
  }

  /**
   * `r` is the report of the text: the pushed issues and suggestions, counters that count the
   * errors and warnings among the issues, the score they give, and the line count, length and
   * preview of the text.
   */
  predicate Describes(r: FileAnalysis, fileName: string, content: string, fileType: string, scan: CodeScan) {
    Found(r.issues, r.suggestions) == FileChecks(fileName, content, scan)
    && r.errorCount == CountIssues(r.issues, Error)
    && r.warningCount == CountIssues(r.issues, Warning)
    && r.qualityScore == QualityScore(r.errorCount, r.warningCount)
    && r.fileName == fileName && r.fileType == fileType
    && r.lines == CountChar(content, '\n') + 1
    && r.size == |content| && r.preview == Preview(content)
  }

  /** `analyzeFileContent(fileName, content, fileType)`. */
  method AnalyzeFileContent(fileName: string, content: string, fileType: string, scan: CodeScan)
    returns (r: FileAnalysis)
    ensures Describes(r, fileName, content, fileType, scan)
  {
    var lines := Split(content, '\n');
    var t := CollectIssues(fileName, content, scan.markup);
    t := SuggestImprovements(content, lines, scan, t);
    r := Finish(fileName, fileType, content, lines, t);
  }

  /** The score and the returned record. */
  method Finish(fileName: string, fileType: string, content: string, lines: seq<string>, t: Tally)
    returns (r: FileAnalysis)
    requires Counted(t) && lines == Lines(content)
    ensures r.issues == t.found.issues && r.suggestions == t.found.suggestions
    ensures r.errorCount == CountIssues(r.issues, Error)
    ensures r.warningCount == CountIssues(r.issues, Warning)
    ensures r.qualityScore == QualityScore(r.errorCount, r.warningCount)
    ensures r.fileName == fileName && r.fileType == fileType
    ensures r.lines == CountChar(content, '\n') + 1
    ensures r.size == |content| && r.preview == Preview(content)
  {
    var score := Max(0, 100 - (t.errorCount * 20 + t.warningCount * 5));
    SplitCount(content, '\n');
    r := FileAnalysis(fileName, fileType, |lines|, |content|, t.found.issues, t.found.suggestions,
                      t.errorCount, t.warningCount, score, content[..Min(500, |content|)]);
  }
}
