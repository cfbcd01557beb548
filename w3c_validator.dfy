/**
 * The HTML validator: sixteen checks that push records into the error, warning and
 * suggestion lists of one validation object and deduct points from its score, the
 * case-insensitive line lookup, and the report built from the finished object.
 */
module W3CValidator {
  import opened Common
  import opened Text

  // ---------------------------------------------------------------- what the checks match

  /** An `<img …>` tag and whether it carries `alt=`. */
  datatype ImageTag = ImageTag(text: string, hasAlt: bool)

  /** An opening tag `<name …>` as `/<(\w+)[^>]*>/g` finds it. */
  datatype OpenTag = OpenTag(text: string, name: string)

  /**
   * An `<input …>` tag: `exempt` when its type is submit, button or hidden, its `id` if it
   * has one, and whether a `<label for=…>` naming that id exists in the document.
   */
  datatype InputTag = InputTag(text: string, exempt: bool, id: Option<string>, labelled: bool)

  /** An `<a …>` tag: whether it has `href=`, and whether that href is empty or `#`. */
  datatype LinkTag = LinkTag(text: string, hasHref: bool, emptyHref: bool)

  /**
   * What the regular expressions of the checks find in one document. `openCount` and
   * `closeCount` give, for a lower-case tag name, the case-insensitive number of opening
   * and closing tags of that name.
   */
  datatype HtmlScan = HtmlScan(
    hasHtmlTag: bool, htmlHasLang: bool, hasHead: bool, hasCharset: bool, hasTitle: bool,
    hasViewport: bool, hasBody: bool,
    images: seq<ImageTag>,
    inlineStyles: nat,
    headings: nat,
    h1Count: nat,
    openTags: seq<OpenTag>,
    openCount: string -> nat,
    closeCount: string -> nat,
    inputs: seq<InputTag>,
    links: seq<LinkTag>,
    voidTags: seq<string>)

  // ---------------------------------------------------------------- the pushed records

  /** Which rule produced a record; the record's texts and its deduction follow from it. */
  datatype Check =
    | MissingDoctype | MissingHtml | MissingLang | MissingHead | MissingCharset | MissingTitle
    | MissingViewport | MissingBody | ImageWithoutAlt | DeprecatedTag(tag: string)
    | InlineStyles(count: nat) | NoH1 | MultipleH1(count: nat) | MismatchedTag(name: string)
    | UnlabeledInput(id: string) | BadLink | VoidSlash(text: string)

  /** A pushed record `{line, type, category, message, …}`. */
  datatype W3CIssue = W3CIssue(check: Check, line: int)

  /** The list of the validation object a record is pushed into. */
  datatype Bucket = Errors | Warnings | Suggestions

  function BucketOf(c: Check): Bucket {
    match c
    case MissingDoctype | MissingHtml | MissingHead | MissingCharset | MissingTitle | MissingBody => Errors
    case DeprecatedTag(_) | MismatchedTag(_) => Errors
    case MissingLang | MissingViewport | ImageWithoutAlt | NoH1 | BadLink => Warnings
    case MultipleH1(_) | UnlabeledInput(_) => Warnings
    case InlineStyles(_) | VoidSlash(_) => Suggestions
  }

  /** The record's `type`: the trailing-slash notes are `info` although they are suggestions. */
  function TypeName(c: Check): string {
    match c
    case InlineStyles(_) => "suggestion"
    case VoidSlash(_) => "info"
    case _ => if BucketOf(c) == Errors then "error" else "warning"
  }

  /** The points a record takes off the score. */
  function Deduction(c: Check): nat {
    match c
    case MissingDoctype | MissingHtml | MissingHead | MissingCharset | MissingTitle | MissingBody => 10
    case MissingLang | MissingViewport | NoH1 | MultipleH1(_) => 5
    case ImageWithoutAlt | BadLink => 2
    case DeprecatedTag(_) | MismatchedTag(_) => 8
    case InlineStyles(_) | UnlabeledInput(_) => 3
    case VoidSlash(_) => 0
  }

  function Category(c: Check): string {
    match c
    case MissingDoctype => "Document Type"
    case MissingHtml | MissingHead | MissingBody | MismatchedTag(_) => "Structure"
    case MissingLang | ImageWithoutAlt | UnlabeledInput(_) => "Accessibility"
    case MissingCharset => "Encoding"
    case MissingTitle | NoH1 | MultipleH1(_) => "SEO"
    case MissingViewport => "Responsive"
    case DeprecatedTag(_) => "Deprecated"
    case InlineStyles(_) | BadLink => "Best Practice"
    case VoidSlash(_) => "Info"
  }

  /** `s.replace(c, '')` for one character: the first occurrence, if any, is dropped. */
  function RemoveFirst(s: string, c: char): (r: string)
    ensures c in s ==> |r| == |s| - 1
    ensures c !in s ==> r == s
  {
    if c in s then
      var k := FirstIndexOfChar(s, c);
      s[..k] + s[k + 1..]
    else s
  }

  function Message(c: Check): string {
    match c
    case MissingDoctype => "Missing DOCTYPE declaration"
    case MissingHtml => "Missing <html> tag"
    case MissingLang => "Missing lang attribute in <html> tag"
    case MissingHead => "Missing <head> tag"
    case MissingCharset => "Missing character encoding declaration"
    case MissingTitle => "Missing <title> tag"
    case MissingViewport => "Missing viewport meta tag"
    case MissingBody => "Missing <body> tag"
    case ImageWithoutAlt => "Image missing alt attribute"
    case DeprecatedTag(tag) => "Deprecated tag " + RemoveFirst(tag, '<') + " found"
    case InlineStyles(n) => "Found " + NatToString(n) + " inline styles"
    case NoH1 => "No <h1> heading found"
    case MultipleH1(n) => "Multiple <h1> headings found (" + NatToString(n) + ")"
    case MismatchedTag(name) => "Unclosed or mismatched <" + name + "> tag"
    case UnlabeledInput(_) => "Form input without associated label"
    case BadLink => "Link without valid href attribute"
    case VoidSlash(_) => "Trailing slash on void elements has no effect"
  }

  function AutoFix(c: Check): bool {
    match c
    case MissingDoctype | MissingLang | MissingCharset | MissingTitle | MissingViewport => true
    case ImageWithoutAlt | DeprecatedTag(_) | VoidSlash(_) => true
    case _ => false
  }

  // ---------------------------------------------------------------- getLineNumber

  /**
   * `getLineNumber(code, pattern)`: 0 when the pattern does not occur, compared
   * case-insensitively; otherwise 1 plus the newlines before its first occurrence.
   */
  function GetLineNumber(code: string, pattern: string): (r: nat)
    ensures r == 0 <==> !Contains(Lower(code), Lower(pattern))
  {
    var index := IndexOf(Lower(code), Lower(pattern));
    if index == -1 then 0 else CountChar(code[..index], '\n') + 1
  }

  /** A found pattern lies on one of the lines of the code. */
  lemma GetLineNumberBound(code: string, pattern: string)
    ensures GetLineNumber(code, pattern) <= |Lines(code)|
  {
    SplitCount(code, '\n');
    var index := IndexOf(Lower(code), Lower(pattern));
    if index != -1 {
      assert code == code[..index] + code[index..];
      assert multiset(code) == multiset(code[..index]) + multiset(code[index..]);
    }
  }

  /** A pattern found before the first newline is reported on line 1. */
  lemma GetLineNumberFirstLine(code: string, pattern: string, i: nat)
    requires ContainsAt(Lower(code), Lower(pattern), i) && '\n' !in code[..i]
    ensures GetLineNumber(code, pattern) == 1
  {
    var index := IndexOf(Lower(code), Lower(pattern));
    assert index != -1 && index <= i;
    assert multiset(code[..index]) <= multiset(code[..i]) by {
      assert code[..i] == code[..index] + code[index..i];
    }
  }

  // ---------------------------------------------------------------- the checks as lists

  const DoctypePrefix: string := "<!doctype"
  const HtmlNeedle: string := "<html"
  const HeadNeedle: string := "<head"
  const BodyNeedle: string := "<body"

  /** The fixed list of deprecated tag prefixes of check 10. */
  const DeprecatedTags: seq<string> := ["<center", "<font", "<marquee", "<blink", "<big", "<strike", "<tt"]

  /** The tag names check 13 skips. */
  const SelfClosingTags: seq<string> := ["img", "br", "hr", "input", "meta", "link"]

  /** Check 1: the trimmed, lower-cased document starts with `<!doctype`. */
  predicate HasDoctype(html: string) {
    StartsWith(Lower(Trim(html)), DoctypePrefix)
  }

  /**
   * The three things the checks ask of the document text itself: whether it starts with a
   * doctype, `getLineNumber(htmlCode, ·)`, and `htmlCode.toLowerCase().includes(·)`.
   */
  datatype Doc = Doc(hasDoctype: bool, lineOf: string -> nat, includes: string -> bool)

  function DocOf(html: string): (d: Doc)
    ensures d.hasDoctype == HasDoctype(html)
    ensures forall p :: d.lineOf(p) == GetLineNumber(html, p)
    ensures forall p :: d.includes(p) == Contains(Lower(html), p)
  {
    Doc(HasDoctype(html), (p: string) => GetLineNumber(html, p), (p: string) => Contains(Lower(html), p))
  }

  function When(cond: bool, issue: W3CIssue): seq<W3CIssue> {
    if cond then [issue] else []
  }

  /** Checks 1 to 4: the doctype, the `<html>` tag and its `lang`, and the `<head>`. */
  function SkeletonIssues(d: Doc, scan: HtmlScan): seq<W3CIssue> {
    When(!d.hasDoctype, W3CIssue(MissingDoctype, 1))
    + When(!scan.hasHtmlTag, W3CIssue(MissingHtml, d.lineOf(HtmlNeedle)))
    + When(scan.hasHtmlTag && !scan.htmlHasLang, W3CIssue(MissingLang, d.lineOf(HtmlNeedle)))
    + When(!scan.hasHead, W3CIssue(MissingHead, d.lineOf(HeadNeedle)))
  }

  /** Checks 5 to 8: the charset, the title, the viewport and the `<body>`. */
  function HeadBodyIssues(d: Doc, scan: HtmlScan): seq<W3CIssue> {
    When(!scan.hasCharset, W3CIssue(MissingCharset, d.lineOf(HeadNeedle)))
    + When(!scan.hasTitle, W3CIssue(MissingTitle, d.lineOf(HeadNeedle)))
    + When(!scan.hasViewport, W3CIssue(MissingViewport, d.lineOf(HeadNeedle)))
    + When(!scan.hasBody, W3CIssue(MissingBody, d.lineOf(BodyNeedle)))
  }

  /** Check 9, over the first `|imgs|` images. */
  function ImageIssues(d: Doc, imgs: seq<ImageTag>): (r: seq<W3CIssue>)
    ensures forall i :: 0 <= i < |r| ==> r[i].check == ImageWithoutAlt
    decreases |imgs|
  {
    if |imgs| == 0 then []
    else
      var img := imgs[|imgs| - 1];
      ImageIssues(d, imgs[..|imgs| - 1])
      + When(!img.hasAlt, W3CIssue(ImageWithoutAlt, d.lineOf(img.text)))
  }

  /** Check 10: one error per deprecated prefix found in the lower-cased document. */
  function DeprecatedIssues(d: Doc, tags: seq<string>): (r: seq<W3CIssue>)
    ensures forall i :: 0 <= i < |r| ==> r[i].check.DeprecatedTag?
    decreases |tags|
  {
    if |tags| == 0 then []
    else
      var tag := tags[|tags| - 1];
      DeprecatedIssues(d, tags[..|tags| - 1])
      + When(d.includes(tag), W3CIssue(DeprecatedTag(tag), d.lineOf(tag)))
  }

  /** Check 11. */
  function InlineStyleIssues(scan: HtmlScan): seq<W3CIssue> {
    When(scan.inlineStyles > 5, W3CIssue(InlineStyles(scan.inlineStyles), 0))
  }

  /** Check 12: only when some heading exists, a warning for no `<h1>` or for several. */
  function HeadingIssues(scan: HtmlScan): (r: seq<W3CIssue>)
    ensures |r| <= 1
    ensures scan.headings == 0 ==> r == []
    ensures |r| == 1 <==> scan.headings > 0 && scan.h1Count != 1
  {
    if scan.headings > 0 then
      if scan.h1Count == 0 then [W3CIssue(NoH1, 0)]
      else if scan.h1Count > 1 then [W3CIssue(MultipleH1(scan.h1Count), 0)]
      else []
    else []
  }

  /** Check 13 for one opening tag: a name that is not void and whose counts differ. */
  predicate Mismatched(scan: HtmlScan, tag: OpenTag) {
    var name := Lower(tag.name);
    name !in SelfClosingTags && scan.openCount(name) != scan.closeCount(name)
  }

  /** Check 13, over the first `|tags|` opening tags (every occurrence reports again). */
  function TagIssues(d: Doc, scan: HtmlScan, tags: seq<OpenTag>): (r: seq<W3CIssue>)
    ensures forall i :: 0 <= i < |r| ==> r[i].check.MismatchedTag?
    decreases |tags|
  {
    if |tags| == 0 then []
    else
      var tag := tags[|tags| - 1];
      TagIssues(d, scan, tags[..|tags| - 1])
      + When(Mismatched(scan, tag), W3CIssue(MismatchedTag(Lower(tag.name)), d.lineOf(tag.text)))
  }

  /** Check 14 for one input: not exempt, has an id, and no label names it. */
  predicate Unlabeled(input: InputTag) {
    !input.exempt && input.id.Some? && !input.labelled
  }

  function InputIssues(d: Doc, inputs: seq<InputTag>): (r: seq<W3CIssue>)
    ensures forall i :: 0 <= i < |r| ==> r[i].check.UnlabeledInput?
    decreases |inputs|
  {
    if |inputs| == 0 then []
    else
      var input := inputs[|inputs| - 1];
      InputIssues(d, inputs[..|inputs| - 1])
      + When(Unlabeled(input),
             W3CIssue(UnlabeledInput(if input.id.Some? then input.id.value else ""), d.lineOf(input.text)))
  }

  /** Check 15 for one link: no `href=`, or an empty or `#` one. */
  predicate BadHref(link: LinkTag) {
    !link.hasHref || link.emptyHref
  }

  function LinkIssues(d: Doc, links: seq<LinkTag>): (r: seq<W3CIssue>)
    ensures forall i :: 0 <= i < |r| ==> r[i].check == BadLink
    decreases |links|
  {
    if |links| == 0 then []
    else
      var link := links[|links| - 1];
      LinkIssues(d, links[..|links| - 1])
      + When(BadHref(link), W3CIssue(BadLink, d.lineOf(link.text)))
  }

  /** Check 16: one note per `<br/>`-style match of the `exec` loop. */
  function VoidIssues(d: Doc, voids: seq<string>): (r: seq<W3CIssue>)
    ensures |r| == |voids|
    ensures forall i :: 0 <= i < |r| ==> r[i].check.VoidSlash?
    decreases |voids|
  {
    if |voids| == 0 then []
    else
      var v := voids[|voids| - 1];
      VoidIssues(d, voids[..|voids| - 1]) + [W3CIssue(VoidSlash(v), d.lineOf(v))]
  }

  /** Every record `validateHTML` pushes, in push order. */
  function Issues(d: Doc, scan: HtmlScan): seq<W3CIssue> {
    SkeletonIssues(d, scan) + HeadBodyIssues(d, scan) + ImageIssues(d, scan.images) + DeprecatedIssues(d, DeprecatedTags)
    + InlineStyleIssues(scan) + HeadingIssues(scan) + TagIssues(d, scan, scan.openTags)
    + InputIssues(d, scan.inputs) + LinkIssues(d, scan.links) + VoidIssues(d, scan.voidTags)
  }

  /** The records of `s` that go into list `b`, in order. */
  function InBucket(s: seq<W3CIssue>, b: Bucket): (r: seq<W3CIssue>)
    ensures forall i :: 0 <= i < |r| ==> BucketOf(r[i].check) == b
    decreases |s|
  {
    if |s| == 0 then []
    else
      var last := s[|s| - 1];
      InBucket(s[..|s| - 1], b) + (if BucketOf(last.check) == b then [last] else [])
  }

  /** The points the records of `s` take off together. */
  function TotalDeduction(s: seq<W3CIssue>): nat
    decreases |s|
  {
    if |s| == 0 then 0 else TotalDeduction(s[..|s| - 1]) + Deduction(s[|s| - 1].check)
  }

  /** `Math.max(0, score)` once every record has taken off its points from 100. */
  function FinalScore(s: seq<W3CIssue>): int {
    Max(0, 100 - TotalDeduction(s))
  }

  lemma {:induction false} InBucketConcat(a: seq<W3CIssue>, b: seq<W3CIssue>, k: Bucket)
    ensures InBucket(a + b, k) == InBucket(a, k) + InBucket(b, k)
    decreases |b|
  {
    if |b| == 0 {
      assert a + b == a;
    } else {
      var front := b[..|b| - 1];
      assert (a + b)[..|a + b| - 1] == a + front;
      InBucketConcat(a, front, k);
    }
  }

  lemma {:induction false} TotalDeductionConcat(a: seq<W3CIssue>, b: seq<W3CIssue>)
    ensures TotalDeduction(a + b) == TotalDeduction(a) + TotalDeduction(b)
    decreases |b|
  {
    if |b| == 0 {
      assert a + b == a;
    } else {
      var front := b[..|b| - 1];
      assert (a + b)[..|a + b| - 1] == a + front;
      TotalDeductionConcat(a, front);
    }
  }

  // ---------------------------------------------------------------- the validation object

  /** The finished `validationResults`. */
  datatype Validation = Validation(
    isValid: bool,
    errors: seq<W3CIssue>,
    warnings: seq<W3CIssue>,
    suggestions: seq<W3CIssue>,
    score: int)

  /** `validationResults` while the checks run. */
  class ValidationResults {
    var isValid: bool
    var errors: seq<W3CIssue>
    var warnings: seq<W3CIssue>
    var suggestions: seq<W3CIssue>
    var score: int
    /** Every record pushed so far, in push order. */
    ghost var pushed: seq<W3CIssue>

    /** Each list holds the pushed records of its kind, the score lost their points, and the object is valid while no error was pushed. */
    ghost predicate Valid()
      reads this
    {
      errors == InBucket(pushed, Errors) && warnings == InBucket(pushed, Warnings)
      && suggestions == InBucket(pushed, Suggestions)
      && score == 100 - TotalDeduction(pushed)
      && (isValid <==> |errors| == 0)
    }

    constructor ()
      ensures Valid() && pushed == []
      ensures isValid && errors == [] && warnings == [] && suggestions == [] && score == 100
    {
      isValid := true;
      errors := [];
      warnings := [];
      suggestions := [];
      score := 100;
      pushed := [];
    }

    /** One `push` into the record's list, `isValid = false` for an error, and `score -=` its points. */
    method Push(issue: W3CIssue)
      requires Valid()
      modifies this
      ensures Valid() && pushed == old(pushed) + [issue]
    {
      match BucketOf(issue.check) {
        case Errors =>
          errors := errors + [issue];
          isValid := false;
        case Warnings =>
          warnings := warnings + [issue];
        case Suggestions =>
          suggestions := suggestions + [issue];
      }
      score := score - Deduction(issue.check);
      pushed := pushed + [issue];
      assert pushed[..|pushed| - 1] == old(pushed);
    }

    /** `if (cond)` around one push. */
    method PushWhen(cond: bool, issue: W3CIssue)
      requires Valid()
      modifies this
      ensures Valid() && pushed == old(pushed) + When(cond, issue)
    {
      if cond {
        Push(issue);
      }
    }

    /** The finished object, with `Math.max(0, score)`. */
    method Finish() returns (r: Validation)
      requires Valid()
      ensures r.errors == InBucket(pushed, Errors) && r.warnings == InBucket(pushed, Warnings)
      ensures r.suggestions == InBucket(pushed, Suggestions)
      ensures r.isValid <==> r.errors == []
      ensures r.score == FinalScore(pushed) && 0 <= r.score <= 100
    {
      r := Validation(isValid, errors, warnings, suggestions, Max(0, score));
    }
  }

  // ---------------------------------------------------------------- validateHTML

  /** Four appends, one after another, append the four parts together. */
  lemma AppendsInOrder(q0: seq<W3CIssue>, q1: seq<W3CIssue>, q2: seq<W3CIssue>, q3: seq<W3CIssue>,
                       q4: seq<W3CIssue>, w1: seq<W3CIssue>, w2: seq<W3CIssue>, w3: seq<W3CIssue>,
                       w4: seq<W3CIssue>)
    requires q1 == q0 + w1 && q2 == q1 + w2 && q3 == q2 + w3 && q4 == q3 + w4
    ensures q4 == q0 + (w1 + w2 + w3 + w4)
  {
  }

  /** Checks 1 to 4, each an `if` around one push. */
  method CheckSkeleton(res: ValidationResults, d: Doc, scan: HtmlScan)
    requires res.Valid()
    modifies res
    ensures res.Valid() && res.pushed == old(res.pushed) + SkeletonIssues(d, scan)
  {
    ghost var q0 := res.pushed;
    res.PushWhen(!d.hasDoctype, W3CIssue(MissingDoctype, 1));
    ghost var q1 := res.pushed;
    res.PushWhen(!scan.hasHtmlTag, W3CIssue(MissingHtml, d.lineOf(HtmlNeedle)));
    ghost var q2 := res.pushed;
    res.PushWhen(scan.hasHtmlTag && !scan.htmlHasLang, W3CIssue(MissingLang, d.lineOf(HtmlNeedle)));
    ghost var q3 := res.pushed;
    res.PushWhen(!scan.hasHead, W3CIssue(MissingHead, d.lineOf(HeadNeedle)));
    AppendsInOrder(q0, q1, q2, q3, res.pushed,
      When(!d.hasDoctype, W3CIssue(MissingDoctype, 1)),
      When(!scan.hasHtmlTag, W3CIssue(MissingHtml, d.lineOf(HtmlNeedle))),
      When(scan.hasHtmlTag && !scan.htmlHasLang, W3CIssue(MissingLang, d.lineOf(HtmlNeedle))),
      When(!scan.hasHead, W3CIssue(MissingHead, d.lineOf(HeadNeedle))));
  }

  /** Checks 5 to 8, each an `if` around one push. */
  method CheckHeadBody(res: ValidationResults, d: Doc, scan: HtmlScan)
    requires res.Valid()
    modifies res
    ensures res.Valid() && res.pushed == old(res.pushed) + HeadBodyIssues(d, scan)
  {
    ghost var q0 := res.pushed;
    res.PushWhen(!scan.hasCharset, W3CIssue(MissingCharset, d.lineOf(HeadNeedle)));
    ghost var q1 := res.pushed;
    res.PushWhen(!scan.hasTitle, W3CIssue(MissingTitle, d.lineOf(HeadNeedle)));
    ghost var q2 := res.pushed;
    res.PushWhen(!scan.hasViewport, W3CIssue(MissingViewport, d.lineOf(HeadNeedle)));
    ghost var q3 := res.pushed;
    res.PushWhen(!scan.hasBody, W3CIssue(MissingBody, d.lineOf(BodyNeedle)));
    AppendsInOrder(q0, q1, q2, q3, res.pushed,
      When(!scan.hasCharset, W3CIssue(MissingCharset, d.lineOf(HeadNeedle))),
      When(!scan.hasTitle, W3CIssue(MissingTitle, d.lineOf(HeadNeedle))),
      When(!scan.hasViewport, W3CIssue(MissingViewport, d.lineOf(HeadNeedle))),
      When(!scan.hasBody, W3CIssue(MissingBody, d.lineOf(BodyNeedle))));
  }

  /** Check 9: the `forEach` over the image tags. */
  method CheckImages(res: ValidationResults, d: Doc, imgs: seq<ImageTag>)
    requires res.Valid()
    modifies res
    ensures res.Valid() && res.pushed == old(res.pushed) + ImageIssues(d, imgs)
  {
    for i := 0 to |imgs|
      invariant res.Valid() && res.pushed == old(res.pushed) + ImageIssues(d, imgs[..i])
    {
      assert imgs[..i + 1][..i] == imgs[..i];
      var img := imgs[i];
      res.PushWhen(!img.hasAlt, W3CIssue(ImageWithoutAlt, d.lineOf(img.text)));
    }
    assert imgs[..|imgs|] == imgs;
  }

  /** Check 10: the `forEach` over the deprecated prefixes. */
  method CheckDeprecated(res: ValidationResults, d: Doc)
    requires res.Valid()
    modifies res
    ensures res.Valid() && res.pushed == old(res.pushed) + DeprecatedIssues(d, DeprecatedTags)
  {
    CheckPrefixes(res, d, DeprecatedTags);
  }

  /** The loop of check 10 over any list of prefixes: one error per prefix the document holds. */
  method CheckPrefixes(res: ValidationResults, d: Doc, tags: seq<string>)
    requires res.Valid()
    modifies res
    ensures res.Valid() && res.pushed == old(res.pushed) + DeprecatedIssues(d, tags)
  {
    for i := 0 to |tags|
      invariant res.Valid() && res.pushed == old(res.pushed) + DeprecatedIssues(d, tags[..i])
    {
      assert tags[..i + 1][..i] == tags[..i];
      var tag := tags[i];
      res.PushWhen(d.includes(tag), W3CIssue(DeprecatedTag(tag), d.lineOf(tag)));
    }
    assert tags[..|tags|] == tags;
  }

  /** Checks 11 and 12: the inline-style count and the `<h1>` count. */
  method CheckStylesAndHeadings(res: ValidationResults, scan: HtmlScan)
    requires res.Valid()
    modifies res
    ensures res.Valid() && res.pushed == old(res.pushed) + InlineStyleIssues(scan) + HeadingIssues(scan)
  {
    if scan.inlineStyles > 5 {
      res.Push(W3CIssue(InlineStyles(scan.inlineStyles), 0));
    }
    ghost var mid := res.pushed;
    if scan.headings > 0 {
      if scan.h1Count == 0 {
        res.Push(W3CIssue(NoH1, 0));
      } else if scan.h1Count > 1 {
        res.Push(W3CIssue(MultipleH1(scan.h1Count), 0));
      }
    }
    assert res.pushed == mid + HeadingIssues(scan);
  }

  /** Check 13: the `forEach` over every opening tag. */
  method CheckTags(res: ValidationResults, d: Doc, scan: HtmlScan)
    requires res.Valid()
    modifies res
    ensures res.Valid() && res.pushed == old(res.pushed) + TagIssues(d, scan, scan.openTags)
  {
    var tags := scan.openTags;
    for i := 0 to |tags|
      invariant res.Valid() && res.pushed == old(res.pushed) + TagIssues(d, scan, tags[..i])
    {
      assert tags[..i + 1][..i] == tags[..i];
      CheckTag(res, d, scan, tags[i]);
    }
    assert tags[..|tags|] == tags;
  }

  /** One tag of check 13: skipped when self-closing, an error when its counts differ. */
  method CheckTag(res: ValidationResults, d: Doc, scan: HtmlScan, tag: OpenTag)
    requires res.Valid()
    modifies res
    ensures res.Valid()
    ensures res.pushed == old(res.pushed) + When(Mismatched(scan, tag), W3CIssue(MismatchedTag(Lower(tag.name)), d.lineOf(tag.text)))
  {
    var tagName := Lower(tag.name);
    if tagName !in SelfClosingTags {
      if scan.openCount(tagName) != scan.closeCount(tagName) {
        res.Push(W3CIssue(MismatchedTag(tagName), d.lineOf(tag.text)));
      }
    }
  }

  /** Check 14: the `forEach` over the input tags. */
  method CheckInputs(res: ValidationResults, d: Doc, inputs: seq<InputTag>)
    requires res.Valid()
    modifies res
    ensures res.Valid() && res.pushed == old(res.pushed) + InputIssues(d, inputs)
  {
    for i := 0 to |inputs|
      invariant res.Valid() && res.pushed == old(res.pushed) + InputIssues(d, inputs[..i])
    {
      assert inputs[..i + 1][..i] == inputs[..i];
      CheckInput(res, d, inputs[i]);
    }
    assert inputs[..|inputs|] == inputs;
  }

  /** One input of check 14: an unlabelled input with an `id` that is no hidden, submit or button input. */
  method CheckInput(res: ValidationResults, d: Doc, input: InputTag)
    requires res.Valid()
    modifies res
    ensures res.Valid()
    ensures res.pushed == old(res.pushed)
      + When(Unlabeled(input), W3CIssue(UnlabeledInput(if input.id.Some? then input.id.value else ""), d.lineOf(input.text)))
  {
    if !input.exempt {
      match input.id {
        case Some(id) =>
          if !input.labelled {
            res.Push(W3CIssue(UnlabeledInput(id), d.lineOf(input.text)));
          }
        case None =>
      }
    }
  }

  /** Check 15: the `forEach` over the link tags. */
  method CheckLinks(res: ValidationResults, d: Doc, links: seq<LinkTag>)
    requires res.Valid()
    modifies res
    ensures res.Valid() && res.pushed == old(res.pushed) + LinkIssues(d, links)
  {
    for i := 0 to |links|
      invariant res.Valid() && res.pushed == old(res.pushed) + LinkIssues(d, links[..i])
    {
      assert links[..i + 1][..i] == links[..i];
      var link := links[i];
      res.PushWhen(!link.hasHref || link.emptyHref, W3CIssue(BadLink, d.lineOf(link.text)));
    }
    assert links[..|links|] == links;
  }

  /** Check 16: the `exec` loop over the trailing-slash matches, which deducts nothing. */
  method CheckVoidTags(res: ValidationResults, d: Doc, voids: seq<string>)
    requires res.Valid()
    modifies res
    ensures res.Valid() && res.pushed == old(res.pushed) + VoidIssues(d, voids)
  {
    var i := 0;
    while i < |voids|
      invariant i <= |voids|
      invariant res.Valid() && res.pushed == old(res.pushed) + VoidIssues(d, voids[..i])
    {
      assert voids[..i + 1][..i] == voids[..i];
      var voidMatch := voids[i];
      res.Push(W3CIssue(VoidSlash(voidMatch), d.lineOf(voidMatch)));
      i := i + 1;
    }
    assert voids[..|voids|] == voids;
  }

  /** The pushes of the sixteen checks, one after another, make up `Issues`. */
  lemma IssuesInOrder(d: Doc, scan: HtmlScan, p0: seq<W3CIssue>, p1: seq<W3CIssue>, p2: seq<W3CIssue>, p3: seq<W3CIssue>,
                      p5: seq<W3CIssue>, p6: seq<W3CIssue>, p7: seq<W3CIssue>, p8: seq<W3CIssue>, p9: seq<W3CIssue>)
    requires p0 == [] + SkeletonIssues(d, scan)
    requires p1 == p0 + HeadBodyIssues(d, scan)
    requires p2 == p1 + ImageIssues(d, scan.images)
    requires p3 == p2 + DeprecatedIssues(d, DeprecatedTags)
    requires p5 == p3 + InlineStyleIssues(scan) + HeadingIssues(scan)
    requires p6 == p5 + TagIssues(d, scan, scan.openTags)
    requires p7 == p6 + InputIssues(d, scan.inputs)
    requires p8 == p7 + LinkIssues(d, scan.links)
    requires p9 == p8 + VoidIssues(d, scan.voidTags)
    ensures p9 == Issues(d, scan)
  {
    assert [] + SkeletonIssues(d, scan) == SkeletonIssues(d, scan);
  }

  /**
   * `validateHTML`: the sixteen checks in order on one fresh object, then the score floored
   * at 0. Each list holds exactly the records of its kind, the document is valid exactly
   * when no error was pushed, and the score is 100 less every deduction, floored at 0.
   */
  method ValidateHtml(htmlCode: string, scan: HtmlScan) returns (r: Validation)
    ensures r.errors == InBucket(Issues(DocOf(htmlCode), scan), Errors)
    ensures r.warnings == InBucket(Issues(DocOf(htmlCode), scan), Warnings)
    ensures r.suggestions == InBucket(Issues(DocOf(htmlCode), scan), Suggestions)
    ensures r.isValid <==> r.errors == []
    ensures r.score == FinalScore(Issues(DocOf(htmlCode), scan)) && 0 <= r.score <= 100
  {
    var d := DocOf(htmlCode);
    var res := new ValidationResults();
    CheckSkeleton(res, d, scan);
    ghost var p0 := res.pushed;
    CheckHeadBody(res, d, scan);
    ghost var p1 := res.pushed;
    CheckImages(res, d, scan.images);
    ghost var p2 := res.pushed;
    CheckDeprecated(res, d);
    ghost var p3 := res.pushed;
    CheckStylesAndHeadings(res, scan);
    ghost var p5 := res.pushed;
    CheckTags(res, d, scan);
    ghost var p6 := res.pushed;
    CheckInputs(res, d, scan.inputs);
    ghost var p7 := res.pushed;
    CheckLinks(res, d, scan.links);
    ghost var p8 := res.pushed;
    CheckVoidTags(res, d, scan.voidTags);
    IssuesInOrder(d, scan, p0, p1, p2, p3, p5, p6, p7, p8, res.pushed);
    r := res.Finish();
  }

  // ---------------------------------------------------------------- generateW3CReport

  const ValidatorName: string := "W3C HTML Validator"
  const ValidMessage: string := "\U{2705} " + "Your HTML is valid according to W3C standards!"
  const InvalidMessage: string := "\U{274C} " + "Your HTML has validation errors that need to be fixed."

  datatype Summary = Summary(
    errorCount: nat, warningCount: nat, suggestionCount: nat, status: string, message: string)

  /** The report without its `timestamp`. */
  datatype W3CReport = W3CReport(
    fileName: string, validator: string, isValid: bool, score: int, totalIssues: nat,
    errors: seq<W3CIssue>, warnings: seq<W3CIssue>, suggestions: seq<W3CIssue>, summary: Summary)

  /**
   * The report of a finished validation: its lists and score unchanged, `totalIssues` the
   * errors and warnings together, the summary counts the list lengths, and the status and
   * message chosen by `isValid`.
   */
  function ReportOf(fileName: string, v: Validation): (r: W3CReport)
    ensures r.fileName == fileName && r.validator == ValidatorName
    ensures r.isValid == v.isValid && r.score == v.score
    ensures r.errors == v.errors && r.warnings == v.warnings && r.suggestions == v.suggestions
    ensures r.totalIssues == r.summary.errorCount + r.summary.warningCount
    ensures r.summary.errorCount == |v.errors| && r.summary.warningCount == |v.warnings|
    ensures r.summary.suggestionCount == |v.suggestions|
    ensures r.summary.status == "Valid" <==> v.isValid
    ensures r.summary.message == ValidMessage <==> v.isValid
  {
    assert ValidMessage[0] != InvalidMessage[0];
    W3CReport(fileName, ValidatorName, v.isValid, v.score, |v.errors| + |v.warnings|,
      v.errors, v.warnings, v.suggestions,
      Summary(|v.errors|, |v.warnings|, |v.suggestions|,
        if v.isValid then "Valid" else "Invalid",
        if v.isValid then ValidMessage else InvalidMessage))
  }

  /** `generateW3CReport(htmlCode, fileName)`: validate, then report. */
  method GenerateW3CReport(htmlCode: string, fileName: string, scan: HtmlScan) returns (r: W3CReport)
    ensures r.errors == InBucket(Issues(DocOf(htmlCode), scan), Errors)
    ensures r.warnings == InBucket(Issues(DocOf(htmlCode), scan), Warnings)
    ensures r.suggestions == InBucket(Issues(DocOf(htmlCode), scan), Suggestions)
    ensures r.isValid <==> r.errors == []
    ensures r.score == FinalScore(Issues(DocOf(htmlCode), scan))
    ensures r == ReportOf(fileName, Validation(r.isValid, r.errors, r.warnings, r.suggestions, r.score))
  {
    var v := ValidateHtml(htmlCode, scan);
    r := ReportOf(fileName, v);
  }
}
