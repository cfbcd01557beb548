/**
 * What the basic analyzer's checks add up to: how many errors, warnings and info notes each
 * check contributes, that the TODO note is the only info issue, that the React import error
 * fires exactly for component files without an import, that the suggestion-only checks never
 * touch the issues, and what the DOCTYPE and required-tag checks accept.
 */
module FileProperties {
  import opened Text
  import opened Reports
  import opened FileAnalyzer

  function Flag(b: bool): nat {
    if b then 1 else 0
  }

  /** The number of issues carrying `code`. */
  function CountCode(issues: seq<Issue>, code: string): nat
    decreases |issues|
  {
    if |issues| == 0 then 0
    else CountCode(issues[..|issues| - 1], code) + Flag(issues[|issues| - 1].code == code)
  }

  const ImportCode: string := "MISSING_IMPORT"

  /**
   * `s` holds `e` more errors, `w` more warnings, `i` more info notes and `m` more
   * missing-React-import errors than `base`.
   */
  predicate Adds(s: seq<Issue>, base: seq<Issue>, e: nat, w: nat, i: nat, m: nat) {
    CountIssues(s, Error) == CountIssues(base, Error) + e
    && CountIssues(s, Warning) == CountIssues(base, Warning) + w
    && CountIssues(s, Info) == CountIssues(base, Info) + i
    && CountCode(s, ImportCode) == CountCode(base, ImportCode) + m
  }

  /** What pushing one issue adds. */
  lemma CountsSnoc(s: seq<Issue>, x: Issue)
    ensures Adds(s + [x], s, Flag(x.kind == Error), Flag(x.kind == Warning), Flag(x.kind == Info),
                 Flag(x.code == ImportCode))
  {
    assert (s + [x])[..|s|] == s;
  }

  lemma {:induction false} CountCodeConcat(a: seq<Issue>, b: seq<Issue>, code: string)
    ensures CountCode(a + b, code) == CountCode(a, code) + CountCode(b, code)
    decreases |b|
  {
    if |b| == 0 {
      assert a + b == a;
    } else {
      assert (a + b)[..|a + b| - 1] == a + b[..|b| - 1];
      CountCodeConcat(a, b[..|b| - 1], code);
    }
  }

  // ---------------------------------------------------------------- validateHtml, check by check

  /** The required tags the text does not contain. */
  function MissingTags(content: string, tags: seq<string>): nat
    decreases |tags|
  {
    if |tags| == 0 then 0
    else MissingTags(content, tags[..|tags| - 1]) + Flag(!Contains(content, tags[|tags| - 1]))
  }

  /** The image tags without `alt=`. */
  function UnlabelledImages(images: seq<string>): nat
    decreases |images|
  {
    if |images| == 0 then 0
    else UnlabelledImages(images[..|images| - 1]) + Flag(!Contains(images[|images| - 1], "alt="))
  }

  /** The deprecated tags the text contains. */
  function PresentTags(content: string, tags: seq<string>): nat
    decreases |tags|
  {
    if |tags| == 0 then 0
    else PresentTags(content, tags[..|tags| - 1]) + Flag(Contains(content, tags[|tags| - 1]))
  }

  lemma {:induction false} StructureCounts(f: Found, content: string, tags: seq<string>)
    ensures Adds(StructureCheck(f, content, tags).issues, f.issues, MissingTags(content, tags), 0, 0, 0)
    decreases |tags|
  {
    if |tags| > 0 {
      var g := StructureCheck(f, content, tags[..|tags| - 1]);
      StructureCounts(f, content, tags[..|tags| - 1]);
      CountsSnoc(g.issues, StructureIssue(tags[|tags| - 1]));
    }
  }

  lemma {:induction false} ImagesCounts(f: Found, content: string, images: seq<string>)
    ensures Adds(ImagesCheck(f, content, images).issues, f.issues, 0, UnlabelledImages(images), 0, 0)
    decreases |images|
  {
    if |images| > 0 {
      var g := ImagesCheck(f, content, images[..|images| - 1]);
      ImagesCounts(f, content, images[..|images| - 1]);
      CountsSnoc(g.issues, ImageIssue(content, images[|images| - 1]));
    }
  }

  lemma {:induction false} DeprecatedCounts(f: Found, content: string, tags: seq<string>)
    ensures Adds(DeprecatedCheck(f, content, tags).issues, f.issues, 0, PresentTags(content, tags), 0, 0)
    decreases |tags|
  {
    if |tags| > 0 {
      var g := DeprecatedCheck(f, content, tags[..|tags| - 1]);
      DeprecatedCounts(f, content, tags[..|tags| - 1]);
      CountsSnoc(g.issues, DeprecatedIssue(content, tags[|tags| - 1]));
    }
  }

  /** The errors of `validateHtml`: DOCTYPE, missing required tags and a `<div>` inside a `<p>`. */
  function HtmlErrors(content: string, scan: MarkupScan): nat {
    Flag(!HasDoctype(content)) + MissingTags(content, RequiredTags) + Flag(scan.divInParagraph)
  }

  /** The warnings of `validateHtml`: images without `alt`, deprecated tags and a missing viewport. */
  function HtmlWarnings(content: string, scan: MarkupScan): nat {
    UnlabelledImages(scan.imageTags) + PresentTags(content, DeprecatedTags) + Flag(!Contains(content, ViewportName))
  }

  /** The DOCTYPE and required-tag checks add errors only. */
  lemma HeadCounts(f: Found, content: string)
    ensures Adds(StructureCheck(DoctypeCheck(f, content), content, RequiredTags).issues, f.issues,
                 Flag(!HasDoctype(content)) + MissingTags(content, RequiredTags), 0, 0, 0)
  {
    CountsSnoc(f.issues, DoctypeIssue);
    StructureCounts(DoctypeCheck(f, content), content, RequiredTags);
  }

  /** The image and deprecated-tag checks add warnings only. */
  lemma BodyCounts(f: Found, content: string, scan: MarkupScan)
    ensures Adds(DeprecatedCheck(ImagesCheck(f, content, scan.imageTags), content, DeprecatedTags).issues, f.issues,
                 0, UnlabelledImages(scan.imageTags) + PresentTags(content, DeprecatedTags), 0, 0)
  {
    ImagesCounts(f, content, scan.imageTags);
    DeprecatedCounts(ImagesCheck(f, content, scan.imageTags), content, DeprecatedTags);
  }

  /** `validateHtml` adds its errors and warnings, and never an info note or an import error. */
  lemma HtmlCounts(f: Found, content: string, scan: MarkupScan)
    ensures Adds(HtmlChecks(f, content, scan).issues, f.issues, HtmlErrors(content, scan), HtmlWarnings(content, scan), 0, 0)
  {
    var f2 := StructureCheck(DoctypeCheck(f, content), content, RequiredTags);
    HeadCounts(f, content);
    var f4 := DeprecatedCheck(ImagesCheck(f2, content, scan.imageTags), content, DeprecatedTags);
    BodyCounts(f2, content, scan);
    var f5 := NestingCheck(f4, content, scan);
    CountsSnoc(f4.issues, NestingIssue(content));
    CountsSnoc(f5.issues, ViewportIssue);
  }

  /** Each missing required tag is one error, so there are at most four structure errors. */
  lemma {:induction false} MissingTagsBound(content: string, tags: seq<string>)
    ensures MissingTags(content, tags) <= |tags|
    ensures MissingTags(content, tags) == 0 <==> forall i :: 0 <= i < |tags| ==> Contains(content, tags[i])
    decreases |tags|
  {
    if |tags| > 0 {
      var front := tags[..|tags| - 1];
      MissingTagsBound(content, front);
      assert forall i :: 0 <= i < |front| ==> front[i] == tags[i];
    }
  }

  lemma StructureErrorsBound(content: string)
    ensures MissingTags(content, RequiredTags) <= 4
    ensures MissingTags(content, RequiredTags) == 0
        <==> Contains(content, "<html") && Contains(content, "<head")
             && Contains(content, "<title") && Contains(content, "<body")
  {
    MissingTagsBound(content, RequiredTags);
    assert RequiredTags[0] == "<html" && RequiredTags[1] == "<head";
    assert RequiredTags[2] == "<title" && RequiredTags[3] == "<body";
  }

  /** The only character `toLowerCase` sends to `>` is `>` itself. */
  lemma LowerCharClose(c: char)
    requires LowerChar(c) == '>'
    ensures c == '>'
  {
  }

  /**
   * The DOCTYPE test ignores leading white space and letter case and nothing else: the text
   * passes exactly when, after its leading white space, it starts with `<!doctype html>` in
   * any mix of upper and lower case.
   */
  lemma DoctypeIff(content: string)
    ensures HasDoctype(content) <==> StartsWith(Lower(TrimStart(content)), DoctypeText)
  {
    if HasDoctype(content) {
      DoctypeOnlyIfPrefix(content);
    }
    if StartsWith(Lower(TrimStart(content)), DoctypeText) {
      DoctypeIfPrefix(content);
    }
  }

  /** Trimming the end cannot make a text pass: the tested prefix is already in the untrimmed text. */
  lemma DoctypeOnlyIfPrefix(content: string)
    requires HasDoctype(content)
    ensures StartsWith(Lower(TrimStart(content)), DoctypeText)
  {
    var a := TrimStart(content);
    var t := TrimEnd(a);
    assert Trim(content) == t;
    var n := |DoctypeText|;
    assert Lower(a)[..n] == Lower(t)[..n];
  }

  /** Trimming the end cannot make a text fail: the prefix ends with `>`, which is not white space. */
  lemma DoctypeIfPrefix(content: string)
    requires StartsWith(Lower(TrimStart(content)), DoctypeText)
    ensures HasDoctype(content)
  {
    var a := TrimStart(content);
    var t := TrimEnd(a);
    assert Trim(content) == t;
    var n := |DoctypeText|;
    assert LowerChar(a[n - 1]) == Lower(a)[n - 1] == DoctypeText[n - 1] == '>';
    LowerCharClose(a[n - 1]);
    assert !IsSpace(a[n - 1]);
    assert n <= |t|;
    assert Lower(t)[..n] == Lower(a)[..n];
  }

  /** A run of white space in front of the text changes nothing. */
  lemma DoctypeLeadingSpace(w: string, content: string)
    requires forall i :: 0 <= i < |w| ==> IsSpace(w[i])
    ensures HasDoctype(w + content) == HasDoctype(content)
  {
    LeadingSpacesTrim(w, content);
  }

  // ---------------------------------------------------------------- analyzeFileContent

  /** `g` has the issues of `f` and the suggestions of `f` followed by more. */
  predicate Extends(f: Found, g: Found) {
    g.issues == f.issues && f.suggestions <= g.suggestions
  }

  lemma ExtendsTrans(f: Found, g: Found, h: Found)
    requires Extends(f, g) && Extends(g, h)
    ensures Extends(f, h)
  {
  }

  lemma SuggestWhenExtends(f: Found, cond: bool, x: Suggestion)
    ensures Extends(f, SuggestWhen(f, cond, x))
  {
  }

  lemma {:induction false} LongFunctionsExtend(f: Found, bodies: seq<string>)
    ensures Extends(f, LongFunctionsCheck(f, bodies))
    decreases |bodies|
  {
    if |bodies| > 0 {
      var g := LongFunctionsCheck(f, bodies[..|bodies| - 1]);
      LongFunctionsExtend(f, bodies[..|bodies| - 1]);
      var n := |Lines(bodies[|bodies| - 1])|;
      SuggestWhenExtends(g, n > 50, LongFunctionSuggestion(n));
      ExtendsTrans(f, g, SuggestWhen(g, n > 50, LongFunctionSuggestion(n)));
    }
  }

  lemma {:induction false} ImportItemsExtend(f: Found, items: seq<string>, usageCount: string -> nat)
    ensures Extends(f, ImportItemsCheck(f, items, usageCount))
    decreases |items|
  {
    if |items| > 0 {
      var g := ImportItemsCheck(f, items[..|items| - 1], usageCount);
      ImportItemsExtend(f, items[..|items| - 1], usageCount);
      var name := Trim(items[|items| - 1]);
      SuggestWhenExtends(g, usageCount(name) == 1, UnusedImportSuggestion(name));
      ExtendsTrans(f, g, SuggestWhen(g, usageCount(name) == 1, UnusedImportSuggestion(name)));
    }
  }

  lemma {:induction false} UnusedImportsExtend(f: Found, lists: seq<string>, usageCount: string -> nat)
    ensures Extends(f, UnusedImportsCheck(f, lists, usageCount))
    decreases |lists|
  {
    if |lists| > 0 {
      var g := UnusedImportsCheck(f, lists[..|lists| - 1], usageCount);
      UnusedImportsExtend(f, lists[..|lists| - 1], usageCount);
      ImportItemsExtend(g, Split(lists[|lists| - 1], ','), usageCount);
      ExtendsTrans(f, g, UnusedImportsCheck(f, lists, usageCount));
    }
  }

  lemma ShapeExtends(f: Found, lines: seq<string>, scan: CodeScan)
    ensures Extends(f, ShapeChecks(f, lines, scan))
  {
    var f1 := LongFunctionsCheck(f, scan.functionBodies);
    LongFunctionsExtend(f, scan.functionBodies);
    var f2 := SuggestWhen(f1, scan.nestedLoops, NestedLoopsSuggestion);
    SuggestWhenExtends(f1, scan.nestedLoops, NestedLoopsSuggestion);
    ExtendsTrans(f, f1, f2);
    var f3 := SuggestWhen(f2, RepeatCount(CodeBlocks(lines)) > 5, DuplicateSuggestion);
    SuggestWhenExtends(f2, RepeatCount(CodeBlocks(lines)) > 5, DuplicateSuggestion);
    ExtendsTrans(f, f2, f3);
    SuggestWhenExtends(f3, scan.magicNumbers > 5, MagicNumbersSuggestion);
    ExtendsTrans(f, f3, SuggestWhen(f3, scan.magicNumbers > 5, MagicNumbersSuggestion));
  }

  lemma NestingImportExtends(f: Found, lines: seq<string>, scan: CodeScan)
    ensures Extends(f, NestingImportChecks(f, lines, scan))
  {
    var level := MaxNestingLevel(lines);
    var f1 := SuggestWhen(f, level > 4, DeepNestingSuggestion(level));
    SuggestWhenExtends(f, level > 4, DeepNestingSuggestion(level));
    UnusedImportsExtend(f1, scan.importLists, scan.usageCount);
    ExtendsTrans(f, f1, UnusedImportsCheck(f1, scan.importLists, scan.usageCount));
  }

  lemma SizeExtends(f: Found, lines: seq<string>, scan: CodeScan)
    ensures Extends(f, SizeChecks(f, lines, scan))
  {
    var f1 := SuggestWhen(f, |lines| > 300, LargeFileSuggestion(|lines|));
    SuggestWhenExtends(f, |lines| > 300, LargeFileSuggestion(|lines|));
    var f2 := SuggestWhen(f1, scan.branchKeywords > 20, ComplexitySuggestion);
    SuggestWhenExtends(f1, scan.branchKeywords > 20, ComplexitySuggestion);
    ExtendsTrans(f, f1, f2);
    var f3 := SuggestWhen(f2, CommentedCodeLines(lines) > 3, CommentedCodeSuggestion);
    SuggestWhenExtends(f2, CommentedCodeLines(lines) > 3, CommentedCodeSuggestion);
    ExtendsTrans(f, f2, f3);
    var f4 := SuggestWhen(f3, scan.longParameterList, LongParametersSuggestion);
    SuggestWhenExtends(f3, scan.longParameterList, LongParametersSuggestion);
    ExtendsTrans(f, f3, f4);
    SuggestWhenExtends(f4, scan.functionHeads > 10, ManyFunctionsSuggestion);
    ExtendsTrans(f, f4, SuggestWhen(f4, scan.functionHeads > 10, ManyFunctionsSuggestion));
  }

  /** The suggestion-only checks push no issue and keep every earlier suggestion in front. */
  lemma ImprovementsExtend(f: Found, content: string, scan: CodeScan)
    ensures ImprovementChecks(f, content, scan).issues == f.issues
    ensures f.suggestions <= ImprovementChecks(f, content, scan).suggestions
  {
    var lines := Lines(content);
    var f1 := ShapeChecks(f, lines, scan);
    ShapeExtends(f, lines, scan);
    var f2 := NestingImportChecks(f1, lines, scan);
    NestingImportExtends(f1, lines, scan);
    ExtendsTrans(f, f1, f2);
    SizeExtends(f2, lines, scan);
    ExtendsTrans(f, f2, SizeChecks(f2, lines, scan));
  }

  /** The errors of `analyzeFileContent`: those of `validateHtml` for an `.html` file, and the React import. */
  function FileErrors(fileName: string, content: string, scan: MarkupScan): nat {
    (if EndsWith(fileName, ".html") then HtmlErrors(content, scan) else 0)
    + Flag(IsComponentFile(fileName) && LacksReactImport(content))
  }

  /** The warnings: those of `validateHtml`, then `console.log`, `var` and a list without `key`. */
  function FileWarnings(fileName: string, content: string, scan: MarkupScan): nat {
    (if EndsWith(fileName, ".html") then HtmlWarnings(content, scan) else 0)
    + Flag(Contains(content, "console.log")) + Flag(Contains(content, "var "))
    + Flag(IsComponentFile(fileName) && LacksKey(content))
  }

  function HasTodo(content: string): bool {
    Contains(content, "TODO") || Contains(content, "FIXME")
  }

  lemma ComponentCounts(f: Found, fileName: string, content: string)
    ensures var b := IsComponentFile(fileName);
            Adds(ComponentSection(f, fileName, content).issues, f.issues,
                 Flag(b && LacksReactImport(content)), Flag(b && LacksKey(content)), 0,
                 Flag(b && LacksReactImport(content)))
  {
    var g := ImportCheck(f, content);
    CountsSnoc(f.issues, ImportIssue);
    var h := SuggestWhen(SuggestWhen(g, Contains(content, "class ") && Contains(content, "extends Component"),
      ClassSuggestion), Contains(content, "style={{"), InlineStyleSuggestion);
    assert h.issues == g.issues;
    CountsSnoc(g.issues, KeyIssue(content));
  }

  lemma ConsoleVarCounts(f: Found, content: string)
    ensures Adds(VarCheck(ConsoleCheck(f, content), content).issues, f.issues, 0,
                 Flag(Contains(content, "console.log")) + Flag(Contains(content, "var ")), 0, 0)
  {
    CountsSnoc(f.issues, ConsoleIssue(content));
    CountsSnoc(ConsoleCheck(f, content).issues, VarIssue(content));
  }

  /** The checks after the `.html` branch add the fixed warnings, the import error and the TODO note. */
  lemma MainCounts(f: Found, fileName: string, content: string)
    ensures var b := IsComponentFile(fileName);
            Adds(TodoCheck(ComponentSection(VarCheck(ConsoleCheck(f, content), content), fileName, content), content).issues,
                 f.issues, Flag(b && LacksReactImport(content)),
                 Flag(Contains(content, "console.log")) + Flag(Contains(content, "var ")) + Flag(b && LacksKey(content)),
                 Flag(HasTodo(content)), Flag(b && LacksReactImport(content)))
  {
    var f3 := VarCheck(ConsoleCheck(f, content), content);
    ConsoleVarCounts(f, content);
    var f4 := ComponentSection(f3, fileName, content);
    ComponentCounts(f3, fileName, content);
    CountsSnoc(f4.issues, TodoIssue(content));
  }

  lemma HtmlSectionCounts(fileName: string, content: string, scan: MarkupScan)
    ensures var html := EndsWith(fileName, ".html");
            Adds(HtmlSection(NoneFound, fileName, content, scan).issues, [],
                 if html then HtmlErrors(content, scan) else 0, if html then HtmlWarnings(content, scan) else 0, 0, 0)
  {
    if EndsWith(fileName, ".html") {
      HtmlCounts(NoneFound, content, scan);
      assert HtmlSection(NoneFound, fileName, content, scan).issues == HtmlChecks(NoneFound, content, scan).issues;
    }
  }

  lemma IssueCounts(fileName: string, content: string, scan: MarkupScan)
    ensures Adds(IssueChecks(fileName, content, scan).issues, [], FileErrors(fileName, content, scan),
                 FileWarnings(fileName, content, scan), Flag(HasTodo(content)),
                 Flag(IsComponentFile(fileName) && LacksReactImport(content)))
  {
    var f1 := HtmlSection(NoneFound, fileName, content, scan);
    HtmlSectionCounts(fileName, content, scan);
    MainCounts(f1, fileName, content);
  }

  /**
   * The counts of `analyzeFileContent`'s issues: the errors are the `validateHtml` errors of
   * an `.html` file plus the missing React import; the warnings are that function's warnings
   * plus `console.log`, `var` and a missing `key`; the TODO/FIXME note is the one info issue,
   * counted in neither; and the missing-import error appears once exactly for a `.jsx`/`.tsx`
   * file with neither `import React` nor `import { `, together with its suggestion.
   */
  lemma FileCounts(fileName: string, content: string, scan: CodeScan)
    ensures CountIssues(FileChecks(fileName, content, scan).issues, Error) == FileErrors(fileName, content, scan.markup)
    ensures CountIssues(FileChecks(fileName, content, scan).issues, Warning) == FileWarnings(fileName, content, scan.markup)
    ensures CountIssues(FileChecks(fileName, content, scan).issues, Info) == Flag(HasTodo(content))
    ensures CountCode(FileChecks(fileName, content, scan).issues, ImportCode)
         == Flag(IsComponentFile(fileName) && LacksReactImport(content))
    ensures IsComponentFile(fileName) && LacksReactImport(content)
        ==> ImportSuggestion in FileChecks(fileName, content, scan).suggestions
  {
    FileIssueCounts(fileName, content, scan);
    if IsComponentFile(fileName) && LacksReactImport(content) {
      FileImportSuggested(fileName, content, scan);
    }
  }

  /** The improvement checks add no issue, so the counts are those of the issue checks. */
  lemma FileIssueCounts(fileName: string, content: string, scan: CodeScan)
    ensures CountIssues(FileChecks(fileName, content, scan).issues, Error) == FileErrors(fileName, content, scan.markup)
    ensures CountIssues(FileChecks(fileName, content, scan).issues, Warning) == FileWarnings(fileName, content, scan.markup)
    ensures CountIssues(FileChecks(fileName, content, scan).issues, Info) == Flag(HasTodo(content))
    ensures CountCode(FileChecks(fileName, content, scan).issues, ImportCode)
         == Flag(IsComponentFile(fileName) && LacksReactImport(content))
  {
    IssueCounts(fileName, content, scan.markup);
    ImprovementsExtend(IssueChecks(fileName, content, scan.markup), content, scan);
  }

  /** A component without the React import is told to add it. */
  lemma FileImportSuggested(fileName: string, content: string, scan: CodeScan)
    requires IsComponentFile(fileName) && LacksReactImport(content)
    ensures ImportSuggestion in FileChecks(fileName, content, scan).suggestions
  {
    var f := IssueChecks(fileName, content, scan.markup);
    ImprovementsExtend(f, content, scan);
    ImportSuggestionKept(fileName, content, scan.markup);
    assert f.suggestions <= ImprovementChecks(f, content, scan).suggestions;
  }

  /** The import suggestion pushed by the component checks survives to the end of the issue checks. */
  lemma ImportSuggestionKept(fileName: string, content: string, scan: MarkupScan)
    requires IsComponentFile(fileName) && LacksReactImport(content)
    ensures ImportSuggestion in IssueChecks(fileName, content, scan).suggestions
  {
    var f3 := VarCheck(ConsoleCheck(HtmlSection(NoneFound, fileName, content, scan), content), content);
    var f4 := ComponentSection(f3, fileName, content);
    ComponentSuggestsImport(f3, fileName, content);
    assert IssueChecks(fileName, content, scan) == TodoCheck(f4, content);
    assert TodoCheck(f4, content).suggestions == f4.suggestions;
  }

  lemma ComponentSuggestsImport(f: Found, fileName: string, content: string)
    requires IsComponentFile(fileName) && LacksReactImport(content)
    ensures ImportSuggestion in ComponentSection(f, fileName, content).suggestions
  {
    var g := ImportCheck(f, content);
    assert g.suggestions == f.suggestions + [ImportSuggestion];
    var h := SuggestWhen(g, Contains(content, "class ") && Contains(content, "extends Component"), ClassSuggestion);
    SuggestWhenExtends(g, Contains(content, "class ") && Contains(content, "extends Component"), ClassSuggestion);
    var k := SuggestWhen(h, Contains(content, "style={{"), InlineStyleSuggestion);
    SuggestWhenExtends(h, Contains(content, "style={{"), InlineStyleSuggestion);
    assert ImportSuggestion in k.suggestions by {
      assert g.suggestions[|f.suggestions|] == ImportSuggestion;
      assert k.suggestions[|f.suggestions|] == ImportSuggestion;
    }
    assert ComponentSection(f, fileName, content).suggestions == KeyCheck(k, content).suggestions == k.suggestions;
  }

  /** An info issue weighs nothing: the counters, and so the score, ignore it. */
  lemma InfoWeightless(issues: seq<Issue>, x: Issue)
    requires x.kind == Info
    ensures CountIssues(issues + [x], Error) == CountIssues(issues, Error)
    ensures CountIssues(issues + [x], Warning) == CountIssues(issues, Warning)
  {
    CountsSnoc(issues, x);
  }
}
