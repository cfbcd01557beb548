/**
 * What the sixteen checks of the HTML validator add up to: when the document is valid,
 * when it scores 100, the points each rule takes off, and where the lang warning and the
 * doctype error come from.
 */
module W3CProperties {
  import opened Text
  import opened W3CValidator

  /** Every record of `s` has a check satisfying `p`. */
  predicate Every(s: seq<W3CIssue>, p: Check -> bool) {
    forall i :: 0 <= i < |s| ==> p(s[i].check)
  }

  predicate NotError(c: Check) { BucketOf(c) != Errors }
  predicate NotWarning(c: Check) { BucketOf(c) != Warnings }
  predicate IsVoidNote(c: Check) { c.VoidSlash? }
  predicate NotLang(c: Check) { c != MissingLang }

  lemma EveryConcat(a: seq<W3CIssue>, b: seq<W3CIssue>, p: Check -> bool)
    ensures Every(a + b, p) <==> Every(a, p) && Every(b, p)
  {
    if Every(a + b, p) {
      forall i | 0 <= i < |a| ensures p(a[i].check) {
        assert (a + b)[i] == a[i];
      }
      forall i | 0 <= i < |b| ensures p(b[i].check) {
        assert (a + b)[|a| + i] == b[i];
      }
    }
    if Every(a, p) && Every(b, p) {
      forall i | 0 <= i < |a + b| ensures p((a + b)[i].check) {
        if i >= |a| {
          assert (a + b)[i] == b[i - |a|];
        }
      }
    }
  }

  /** A property holds of all of `Issues` exactly when it holds of each check's part. */
  lemma EveryOfIssues(d: Doc, scan: HtmlScan, p: Check -> bool)
    ensures Every(Issues(d, scan), p) <==>
      Every(SkeletonIssues(d, scan), p) && Every(HeadBodyIssues(d, scan), p)
      && Every(ImageIssues(d, scan.images), p) && Every(DeprecatedIssues(d, DeprecatedTags), p)
      && Every(InlineStyleIssues(scan), p) && Every(HeadingIssues(scan), p)
      && Every(TagIssues(d, scan, scan.openTags), p) && Every(InputIssues(d, scan.inputs), p)
      && Every(LinkIssues(d, scan.links), p) && Every(VoidIssues(d, scan.voidTags), p)
  {
    var x1 := SkeletonIssues(d, scan) + HeadBodyIssues(d, scan);
    var x2 := x1 + ImageIssues(d, scan.images);
    var x3 := x2 + DeprecatedIssues(d, DeprecatedTags);
    var x4 := x3 + InlineStyleIssues(scan);
    var x5 := x4 + HeadingIssues(scan);
    var x6 := x5 + TagIssues(d, scan, scan.openTags);
    var x7 := x6 + InputIssues(d, scan.inputs);
    var x8 := x7 + LinkIssues(d, scan.links);
    assert Issues(d, scan) == x8 + VoidIssues(d, scan.voidTags);
    EveryConcat(SkeletonIssues(d, scan), HeadBodyIssues(d, scan), p);
    EveryConcat(x1, ImageIssues(d, scan.images), p);
    EveryConcat(x2, DeprecatedIssues(d, DeprecatedTags), p);
    EveryConcat(x3, InlineStyleIssues(scan), p);
    EveryConcat(x4, HeadingIssues(scan), p);
    EveryConcat(x5, TagIssues(d, scan, scan.openTags), p);
    EveryConcat(x6, InputIssues(d, scan.inputs), p);
    EveryConcat(x7, LinkIssues(d, scan.links), p);
    EveryConcat(x8, VoidIssues(d, scan.voidTags), p);
  }

  // ---------------------------------------------------------------- lists and score of a record sequence

  /** A list is empty exactly when no record of its kind was pushed. */
  lemma {:induction false} InBucketEmpty(s: seq<W3CIssue>)
    ensures InBucket(s, Errors) == [] <==> Every(s, NotError)
    ensures InBucket(s, Warnings) == [] <==> Every(s, NotWarning)
    decreases |s|
  {
    if |s| > 0 {
      var front := s[..|s| - 1];
      InBucketEmpty(front);
      assert s == front + [s[|s| - 1]];
      EveryConcat(front, [s[|s| - 1]], NotError);
      EveryConcat(front, [s[|s| - 1]], NotWarning);
    }
  }

  /** Only the trailing-slash notes are free: nothing is deducted exactly when every record is one. */
  lemma {:induction false} ZeroDeduction(s: seq<W3CIssue>)
    ensures TotalDeduction(s) == 0 <==> Every(s, IsVoidNote)
    decreases |s|
  {
    if |s| > 0 {
      var front := s[..|s| - 1];
      ZeroDeduction(front);
      assert s == front + [s[|s| - 1]];
      EveryConcat(front, [s[|s| - 1]], IsVoidNote);
    }
  }

  /** The trailing-slash notes never change the score. */
  lemma {:induction false} VoidNotesFree(d: Doc, voids: seq<string>)
    ensures TotalDeduction(VoidIssues(d, voids)) == 0
    decreases |voids|
  {
    if |voids| > 0 {
      var front := voids[..|voids| - 1];
      var v := voids[|voids| - 1];
      VoidNotesFree(d, front);
      var note := [W3CIssue(VoidSlash(v), d.lineOf(v))];
      assert VoidIssues(d, voids) == VoidIssues(d, front) + note;
      TotalDeductionConcat(VoidIssues(d, front), note);
    }
  }

  /** The trailing-slash notes all go to the suggestions. */
  lemma {:induction false} VoidNotesSuggested(d: Doc, voids: seq<string>)
    ensures InBucket(VoidIssues(d, voids), Suggestions) == VoidIssues(d, voids)
    decreases |voids|
  {
    if |voids| > 0 {
      var front := voids[..|voids| - 1];
      var v := voids[|voids| - 1];
      VoidNotesSuggested(d, front);
      var x := W3CIssue(VoidSlash(v), d.lineOf(v));
      assert VoidIssues(d, voids) == VoidIssues(d, front) + [x];
      InBucketConcat(VoidIssues(d, front), [x], Suggestions);
      InBucketSingle(x, Suggestions);
    }
  }

  /** A single record goes to its own bucket. */
  lemma InBucketSingle(x: W3CIssue, b: Bucket)
    requires BucketOf(x.check) == b
    ensures InBucket([x], b) == [x]
  {
    assert [x][..0] == [];
  }

  // ---------------------------------------------------------------- when a check's part is empty

  lemma {:induction false} ImagesClean(d: Doc, imgs: seq<ImageTag>)
    ensures ImageIssues(d, imgs) == [] <==> forall i :: 0 <= i < |imgs| ==> imgs[i].hasAlt
    decreases |imgs|
  {
    if |imgs| > 0 {
      var front := imgs[..|imgs| - 1];
      ImagesClean(d, front);
      if forall i :: 0 <= i < |front| ==> front[i].hasAlt {
        assert forall i :: 0 <= i < |front| ==> front[i] == imgs[i];
      }
    }
  }

  lemma {:induction false} DeprecatedClean(d: Doc, tags: seq<string>)
    ensures DeprecatedIssues(d, tags) == [] <==> forall i :: 0 <= i < |tags| ==> !d.includes(tags[i])
    decreases |tags|
  {
    if |tags| > 0 {
      var front := tags[..|tags| - 1];
      DeprecatedClean(d, front);
      assert forall i :: 0 <= i < |front| ==> front[i] == tags[i];
    }
  }

  lemma {:induction false} TagsClean(d: Doc, scan: HtmlScan, tags: seq<OpenTag>)
    ensures TagIssues(d, scan, tags) == [] <==> forall i :: 0 <= i < |tags| ==> !Mismatched(scan, tags[i])
    decreases |tags|
  {
    if |tags| > 0 {
      var front := tags[..|tags| - 1];
      TagsClean(d, scan, front);
      assert forall i :: 0 <= i < |front| ==> front[i] == tags[i];
    }
  }

  lemma {:induction false} InputsClean(d: Doc, inputs: seq<InputTag>)
    ensures InputIssues(d, inputs) == [] <==> forall i :: 0 <= i < |inputs| ==> !Unlabeled(inputs[i])
    decreases |inputs|
  {
    if |inputs| > 0 {
      var front := inputs[..|inputs| - 1];
      InputsClean(d, front);
      assert forall i :: 0 <= i < |front| ==> front[i] == inputs[i];
    }
  }

  lemma {:induction false} LinksClean(d: Doc, links: seq<LinkTag>)
    ensures LinkIssues(d, links) == [] <==> forall i :: 0 <= i < |links| ==> !BadHref(links[i])
    decreases |links|
  {
    if |links| > 0 {
      var front := links[..|links| - 1];
      LinksClean(d, front);
      assert forall i :: 0 <= i < |front| ==> front[i] == links[i];
    }
  }

  // ---------------------------------------------------------------- checks 1 to 8

  lemma WhenEvery(c: bool, x: W3CIssue, p: Check -> bool)
    ensures Every(When(c, x), p) <==> (c ==> p(x.check))
  {
    if c {
      assert When(c, x)[0] == x;
    }
  }

  lemma SkeletonEvery(d: Doc, scan: HtmlScan, p: Check -> bool)
    ensures Every(SkeletonIssues(d, scan), p) <==>
      (!d.hasDoctype ==> p(MissingDoctype)) && (!scan.hasHtmlTag ==> p(MissingHtml))
      && (scan.hasHtmlTag && !scan.htmlHasLang ==> p(MissingLang)) && (!scan.hasHead ==> p(MissingHead))
  {
    var w1 := When(!d.hasDoctype, W3CIssue(MissingDoctype, 1));
    var w2 := When(!scan.hasHtmlTag, W3CIssue(MissingHtml, d.lineOf(HtmlNeedle)));
    var w3 := When(scan.hasHtmlTag && !scan.htmlHasLang, W3CIssue(MissingLang, d.lineOf(HtmlNeedle)));
    var w4 := When(!scan.hasHead, W3CIssue(MissingHead, d.lineOf(HeadNeedle)));
    WhenEvery(!d.hasDoctype, W3CIssue(MissingDoctype, 1), p);
    WhenEvery(!scan.hasHtmlTag, W3CIssue(MissingHtml, d.lineOf(HtmlNeedle)), p);
    WhenEvery(scan.hasHtmlTag && !scan.htmlHasLang, W3CIssue(MissingLang, d.lineOf(HtmlNeedle)), p);
    WhenEvery(!scan.hasHead, W3CIssue(MissingHead, d.lineOf(HeadNeedle)), p);
    EveryConcat(w1, w2, p);
    EveryConcat(w1 + w2, w3, p);
    EveryConcat(w1 + w2 + w3, w4, p);
  }

  lemma HeadBodyEvery(d: Doc, scan: HtmlScan, p: Check -> bool)
    ensures Every(HeadBodyIssues(d, scan), p) <==>
      (!scan.hasCharset ==> p(MissingCharset)) && (!scan.hasTitle ==> p(MissingTitle))
      && (!scan.hasViewport ==> p(MissingViewport)) && (!scan.hasBody ==> p(MissingBody))
  {
    var w1 := When(!scan.hasCharset, W3CIssue(MissingCharset, d.lineOf(HeadNeedle)));
    var w2 := When(!scan.hasTitle, W3CIssue(MissingTitle, d.lineOf(HeadNeedle)));
    var w3 := When(!scan.hasViewport, W3CIssue(MissingViewport, d.lineOf(HeadNeedle)));
    var w4 := When(!scan.hasBody, W3CIssue(MissingBody, d.lineOf(BodyNeedle)));
    WhenEvery(!scan.hasCharset, W3CIssue(MissingCharset, d.lineOf(HeadNeedle)), p);
    WhenEvery(!scan.hasTitle, W3CIssue(MissingTitle, d.lineOf(HeadNeedle)), p);
    WhenEvery(!scan.hasViewport, W3CIssue(MissingViewport, d.lineOf(HeadNeedle)), p);
    WhenEvery(!scan.hasBody, W3CIssue(MissingBody, d.lineOf(BodyNeedle)), p);
    EveryConcat(w1, w2, p);
    EveryConcat(w1 + w2, w3, p);
    EveryConcat(w1 + w2 + w3, w4, p);
  }

  // ---------------------------------------------------------------- validity and the perfect score

  /** No check that pushes an error fires. */
  predicate ErrorFree(d: Doc, scan: HtmlScan) {
    d.hasDoctype && scan.hasHtmlTag && scan.hasHead && scan.hasCharset && scan.hasTitle && scan.hasBody
    && (forall i :: 0 <= i < |DeprecatedTags| ==> !d.includes(DeprecatedTags[i]))
    && (forall i :: 0 <= i < |scan.openTags| ==> !Mismatched(scan, scan.openTags[i]))
  }

  /** No check that pushes an error, a warning or an inline-style suggestion fires. */
  predicate Complete(d: Doc, scan: HtmlScan) {
    ErrorFree(d, scan) && scan.htmlHasLang && scan.hasViewport
    && (forall i :: 0 <= i < |scan.images| ==> scan.images[i].hasAlt)
    && scan.inlineStyles <= 5 && (scan.headings > 0 ==> scan.h1Count == 1)
    && (forall i :: 0 <= i < |scan.inputs| ==> !Unlabeled(scan.inputs[i]))
    && (forall i :: 0 <= i < |scan.links| ==> !BadHref(scan.links[i]))
  }

  /** Check 10 pushes only errors: its part holds none exactly when no deprecated prefix is found. */
  lemma DeprecatedErrors(d: Doc, tags: seq<string>)
    ensures Every(DeprecatedIssues(d, tags), NotError) <==> forall i :: 0 <= i < |tags| ==> !d.includes(tags[i])
    ensures Every(DeprecatedIssues(d, tags), IsVoidNote) <==> forall i :: 0 <= i < |tags| ==> !d.includes(tags[i])
  {
    var dep := DeprecatedIssues(d, tags);
    DeprecatedClean(d, tags);
    if |dep| > 0 {
      assert !NotError(dep[0].check) && !IsVoidNote(dep[0].check);
    }
  }

  /** Check 13 pushes only errors: its part holds none exactly when no tag is mismatched. */
  lemma TagErrors(d: Doc, scan: HtmlScan, tags: seq<OpenTag>)
    ensures Every(TagIssues(d, scan, tags), NotError) <==> forall i :: 0 <= i < |tags| ==> !Mismatched(scan, tags[i])
    ensures Every(TagIssues(d, scan, tags), IsVoidNote) <==> forall i :: 0 <= i < |tags| ==> !Mismatched(scan, tags[i])
  {
    var r := TagIssues(d, scan, tags);
    TagsClean(d, scan, tags);
    if |r| > 0 {
      assert !NotError(r[0].check) && !IsVoidNote(r[0].check);
    }
  }

  /** Checks 9, 14 and 15 push only warnings: each part is free of errors, and of deductions exactly when its check never fires. */
  lemma WarningLoops(d: Doc, scan: HtmlScan)
    ensures Every(ImageIssues(d, scan.images), NotError)
    ensures Every(InputIssues(d, scan.inputs), NotError)
    ensures Every(LinkIssues(d, scan.links), NotError)
    ensures Every(ImageIssues(d, scan.images), IsVoidNote) <==> forall i :: 0 <= i < |scan.images| ==> scan.images[i].hasAlt
    ensures Every(InputIssues(d, scan.inputs), IsVoidNote) <==> forall i :: 0 <= i < |scan.inputs| ==> !Unlabeled(scan.inputs[i])
    ensures Every(LinkIssues(d, scan.links), IsVoidNote) <==> forall i :: 0 <= i < |scan.links| ==> !BadHref(scan.links[i])
  {
    ImageWarnings(d, scan.images);
    InputWarnings(d, scan.inputs);
    LinkWarnings(d, scan.links);
  }

  /** Check 9 pushes only warnings, and none exactly when every image has an alt text. */
  lemma ImageWarnings(d: Doc, images: seq<ImageTag>)
    ensures Every(ImageIssues(d, images), NotError)
    ensures Every(ImageIssues(d, images), IsVoidNote) <==> forall i :: 0 <= i < |images| ==> images[i].hasAlt
  {
    var imgs := ImageIssues(d, images);
    ImagesClean(d, images);
    assert NotError(ImageWithoutAlt) && !IsVoidNote(ImageWithoutAlt);
    OneCheckEvery(imgs, ImageWithoutAlt, NotError);
    OneCheckEvery(imgs, ImageWithoutAlt, IsVoidNote);
  }

  /** Records that all carry the check `c` satisfy `p` exactly when there are none or `c` does. */
  lemma OneCheckEvery(s: seq<W3CIssue>, c: Check, p: Check -> bool)
    requires forall i :: 0 <= i < |s| ==> s[i].check == c
    ensures Every(s, p) <==> s == [] || p(c)
  {
    if |s| > 0 {
      assert s[0].check == c;
    }
  }

  /** Check 14 pushes only warnings, and none exactly when every input is labelled. */
  lemma InputWarnings(d: Doc, inputs: seq<InputTag>)
    ensures Every(InputIssues(d, inputs), NotError)
    ensures Every(InputIssues(d, inputs), IsVoidNote) <==> forall i :: 0 <= i < |inputs| ==> !Unlabeled(inputs[i])
  {
    var r := InputIssues(d, inputs);
    InputsClean(d, inputs);
    if |r| > 0 {
      assert !IsVoidNote(r[0].check);
    }
  }

  /** Check 15 pushes only warnings, and none exactly when every link has a real target. */
  lemma LinkWarnings(d: Doc, links: seq<LinkTag>)
    ensures Every(LinkIssues(d, links), NotError)
    ensures Every(LinkIssues(d, links), IsVoidNote) <==> forall i :: 0 <= i < |links| ==> !BadHref(links[i])
  {
    var r := LinkIssues(d, links);
    LinksClean(d, links);
    if |r| > 0 {
      assert !IsVoidNote(r[0].check);
    }
  }

  /** Checks 11, 12 and 16 push no errors; 11 and 12 deduct exactly when they fire, 16 never. */
  lemma CountedChecks(d: Doc, scan: HtmlScan)
    ensures Every(InlineStyleIssues(scan), NotError) && Every(HeadingIssues(scan), NotError)
    ensures Every(VoidIssues(d, scan.voidTags), NotError) && Every(VoidIssues(d, scan.voidTags), IsVoidNote)
    ensures Every(InlineStyleIssues(scan), IsVoidNote) <==> scan.inlineStyles <= 5
    ensures Every(HeadingIssues(scan), IsVoidNote) <==> (scan.headings > 0 ==> scan.h1Count == 1)
  {
    WhenEvery(scan.inlineStyles > 5, W3CIssue(InlineStyles(scan.inlineStyles), 0), IsVoidNote);
    if |HeadingIssues(scan)| > 0 {
      assert !IsVoidNote(HeadingIssues(scan)[0].check);
    }
  }

  /**
   * The document is valid (no error was pushed) exactly when it has a doctype, `<html>`,
   * `<head>`, a charset, a title and `<body>`, no deprecated prefix, and no mismatched tag.
   */
  lemma ValidIffErrorFree(d: Doc, scan: HtmlScan)
    ensures InBucket(Issues(d, scan), Errors) == [] <==> ErrorFree(d, scan)
  {
    InBucketEmpty(Issues(d, scan));
    NoErrorIff(d, scan);
  }

  /** Only checks 1 to 8, 10 and 13 can push an error. */
  lemma ErrorsInParts(d: Doc, scan: HtmlScan)
    ensures Every(Issues(d, scan), NotError) <==>
      Every(SkeletonIssues(d, scan), NotError) && Every(HeadBodyIssues(d, scan), NotError)
      && Every(DeprecatedIssues(d, DeprecatedTags), NotError) && Every(TagIssues(d, scan, scan.openTags), NotError)
  {
    EveryOfIssues(d, scan, NotError);
    WarningLoops(d, scan);
    CountedChecks(d, scan);
  }

  lemma NoErrorIff(d: Doc, scan: HtmlScan)
    ensures Every(Issues(d, scan), NotError) <==> ErrorFree(d, scan)
  {
    assert NotError(MissingLang) && NotError(MissingViewport);
    assert !NotError(MissingDoctype) && !NotError(MissingHtml) && !NotError(MissingHead);
    assert !NotError(MissingCharset) && !NotError(MissingTitle) && !NotError(MissingBody);
    ErrorsInParts(d, scan);
    SkeletonEvery(d, scan, NotError);
    HeadBodyEvery(d, scan, NotError);
    DeprecatedErrors(d, DeprecatedTags);
    TagErrors(d, scan, scan.openTags);
  }

  /**
   * The score is 100 exactly when the document is complete: only the trailing-slash notes,
   * which deduct nothing, may remain.
   */
  lemma ScoreHundredIff(d: Doc, scan: HtmlScan)
    ensures FinalScore(Issues(d, scan)) == 100 <==> Complete(d, scan)
  {
    ZeroDeduction(Issues(d, scan));
    EveryOfIssues(d, scan, IsVoidNote);
    SkeletonEvery(d, scan, IsVoidNote);
    HeadBodyEvery(d, scan, IsVoidNote);
    DeprecatedErrors(d, DeprecatedTags);
    TagErrors(d, scan, scan.openTags);
    WarningLoops(d, scan);
    CountedChecks(d, scan);
  }

  lemma EveryWeaker(s: seq<W3CIssue>, p: Check -> bool, q: Check -> bool)
    requires forall c :: p(c) ==> q(c)
    requires Every(s, p)
    ensures Every(s, q)
  {
  }

  /** A complete document is valid, has no warnings and scores 100. */
  lemma CompleteDocument(d: Doc, scan: HtmlScan)
    requires Complete(d, scan)
    ensures InBucket(Issues(d, scan), Errors) == []
    ensures InBucket(Issues(d, scan), Warnings) == []
    ensures FinalScore(Issues(d, scan)) == 100
  {
    ValidIffErrorFree(d, scan);
    ScoreHundredIff(d, scan);
    FullScoreNoWarnings(Issues(d, scan));
  }

  /** Records that take off no points hold no warning. */
  lemma FullScoreNoWarnings(s: seq<W3CIssue>)
    requires FinalScore(s) == 100
    ensures InBucket(s, Warnings) == []
  {
    ZeroDeduction(s);
    InBucketEmpty(s);
    EveryWeaker(s, IsVoidNote, NotWarning);
  }

  // ---------------------------------------------------------------- the lang warning and the doctype error

  /** Only check 3 pushes the lang warning. */
  lemma LangParts(d: Doc, scan: HtmlScan)
    ensures Every(HeadBodyIssues(d, scan), NotLang) && Every(ImageIssues(d, scan.images), NotLang)
    ensures Every(DeprecatedIssues(d, DeprecatedTags), NotLang) && Every(InlineStyleIssues(scan), NotLang)
    ensures Every(HeadingIssues(scan), NotLang) && Every(TagIssues(d, scan, scan.openTags), NotLang)
    ensures Every(InputIssues(d, scan.inputs), NotLang) && Every(LinkIssues(d, scan.links), NotLang)
    ensures Every(VoidIssues(d, scan.voidTags), NotLang)
  {
    HeadBodyEvery(d, scan, NotLang);
  }

  /** The lang warning is reported exactly when an `<html>` tag exists without `lang`. */
  lemma LangWarningIff(d: Doc, scan: HtmlScan)
    ensures (exists i :: 0 <= i < |Issues(d, scan)| && Issues(d, scan)[i].check == MissingLang)
            <==> scan.hasHtmlTag && !scan.htmlHasLang
  {
    assert !NotLang(MissingLang);
    EveryOfIssues(d, scan, NotLang);
    SkeletonEvery(d, scan, NotLang);
    LangParts(d, scan);
  }

  /** A missing doctype makes the document invalid, and its error, on line 1, is the first one. */
  lemma MissingDoctypeFirst(d: Doc, scan: HtmlScan)
    requires !d.hasDoctype
    ensures InBucket(Issues(d, scan), Errors) != []
    ensures InBucket(Issues(d, scan), Errors)[0] == W3CIssue(MissingDoctype, 1)
  {
    var x := W3CIssue(MissingDoctype, 1);
    var all := Issues(d, scan);
    assert SkeletonIssues(d, scan)[0] == x;
    assert all[0] == x;
    assert all == [x] + all[1..];
    InBucketConcat([x], all[1..], Errors);
    assert [x][..0] == [];
  }

  // ---------------------------------------------------------------- the deduction table

  function Flag(b: bool): nat {
    if b then 1 else 0
  }

  function MissingAltCount(imgs: seq<ImageTag>): nat
    decreases |imgs|
  {
    if |imgs| == 0 then 0 else MissingAltCount(imgs[..|imgs| - 1]) + Flag(!imgs[|imgs| - 1].hasAlt)
  }

  function FoundCount(d: Doc, tags: seq<string>): nat
    decreases |tags|
  {
    if |tags| == 0 then 0 else FoundCount(d, tags[..|tags| - 1]) + Flag(d.includes(tags[|tags| - 1]))
  }

  function MismatchedCount(scan: HtmlScan, tags: seq<OpenTag>): nat
    decreases |tags|
  {
    if |tags| == 0 then 0 else MismatchedCount(scan, tags[..|tags| - 1]) + Flag(Mismatched(scan, tags[|tags| - 1]))
  }

  function UnlabeledCount(inputs: seq<InputTag>): nat
    decreases |inputs|
  {
    if |inputs| == 0 then 0 else UnlabeledCount(inputs[..|inputs| - 1]) + Flag(Unlabeled(inputs[|inputs| - 1]))
  }

  function BadLinkCount(links: seq<LinkTag>): nat
    decreases |links|
  {
    if |links| == 0 then 0 else BadLinkCount(links[..|links| - 1]) + Flag(BadHref(links[|links| - 1]))
  }

  /**
   * The points off, rule by rule: 10 for each missing doctype, `<html>`, `<head>`, charset,
   * title and `<body>`; 5 for the lang and viewport warnings and for the `<h1>` check; 2 per
   * image without alt and per bad link; 8 per deprecated prefix found and per mismatched
   * tag occurrence; 3 for more than five inline styles and per unlabeled input.
   */
  function ExpectedDeduction(d: Doc, scan: HtmlScan): nat {
    SkeletonPoints(d, scan) + HeadBodyPoints(scan)
    + 2 * MissingAltCount(scan.images) + 8 * FoundCount(d, DeprecatedTags)
    + 3 * Flag(scan.inlineStyles > 5) + 5 * Flag(scan.headings > 0 && scan.h1Count != 1)
    + 8 * MismatchedCount(scan, scan.openTags) + 3 * UnlabeledCount(scan.inputs) + 2 * BadLinkCount(scan.links)
  }

  /** Doctype, `<html>`, lang and `<head>`. */
  function SkeletonPoints(d: Doc, scan: HtmlScan): nat {
    10 * Flag(!d.hasDoctype) + 10 * Flag(!scan.hasHtmlTag) + 5 * Flag(scan.hasHtmlTag && !scan.htmlHasLang)
    + 10 * Flag(!scan.hasHead)
  }

  /** Charset, title, viewport and `<body>`. */
  function HeadBodyPoints(scan: HtmlScan): nat {
    10 * Flag(!scan.hasCharset) + 10 * Flag(!scan.hasTitle) + 5 * Flag(!scan.hasViewport) + 10 * Flag(!scan.hasBody)
  }

  lemma WhenDeduction(c: bool, x: W3CIssue)
    ensures TotalDeduction(When(c, x)) == if c then Deduction(x.check) else 0
  {
    if c {
      assert When(c, x)[..0] == [];
    }
  }

  lemma SkeletonDeduction(d: Doc, scan: HtmlScan)
    ensures TotalDeduction(SkeletonIssues(d, scan)) == SkeletonPoints(d, scan)
  {
    var w1 := When(!d.hasDoctype, W3CIssue(MissingDoctype, 1));
    var w2 := When(!scan.hasHtmlTag, W3CIssue(MissingHtml, d.lineOf(HtmlNeedle)));
    var w3 := When(scan.hasHtmlTag && !scan.htmlHasLang, W3CIssue(MissingLang, d.lineOf(HtmlNeedle)));
    var w4 := When(!scan.hasHead, W3CIssue(MissingHead, d.lineOf(HeadNeedle)));
    WhenDeduction(!d.hasDoctype, W3CIssue(MissingDoctype, 1));
    WhenDeduction(!scan.hasHtmlTag, W3CIssue(MissingHtml, d.lineOf(HtmlNeedle)));
    WhenDeduction(scan.hasHtmlTag && !scan.htmlHasLang, W3CIssue(MissingLang, d.lineOf(HtmlNeedle)));
    WhenDeduction(!scan.hasHead, W3CIssue(MissingHead, d.lineOf(HeadNeedle)));
    TotalDeductionConcat(w1, w2);
    TotalDeductionConcat(w1 + w2, w3);
    TotalDeductionConcat(w1 + w2 + w3, w4);
  }

  lemma HeadBodyDeduction(d: Doc, scan: HtmlScan)
    ensures TotalDeduction(HeadBodyIssues(d, scan)) == HeadBodyPoints(scan)
  {
    var w1 := When(!scan.hasCharset, W3CIssue(MissingCharset, d.lineOf(HeadNeedle)));
    var w2 := When(!scan.hasTitle, W3CIssue(MissingTitle, d.lineOf(HeadNeedle)));
    var w3 := When(!scan.hasViewport, W3CIssue(MissingViewport, d.lineOf(HeadNeedle)));
    var w4 := When(!scan.hasBody, W3CIssue(MissingBody, d.lineOf(BodyNeedle)));
    WhenDeduction(!scan.hasCharset, W3CIssue(MissingCharset, d.lineOf(HeadNeedle)));
    WhenDeduction(!scan.hasTitle, W3CIssue(MissingTitle, d.lineOf(HeadNeedle)));
    WhenDeduction(!scan.hasViewport, W3CIssue(MissingViewport, d.lineOf(HeadNeedle)));
    WhenDeduction(!scan.hasBody, W3CIssue(MissingBody, d.lineOf(BodyNeedle)));
    TotalDeductionConcat(w1, w2);
    TotalDeductionConcat(w1 + w2, w3);
    TotalDeductionConcat(w1 + w2 + w3, w4);
  }

  lemma {:induction false} ImageDeduction(d: Doc, imgs: seq<ImageTag>)
    ensures TotalDeduction(ImageIssues(d, imgs)) == 2 * MissingAltCount(imgs)
    decreases |imgs|
  {
    if |imgs| > 0 {
      var front := imgs[..|imgs| - 1];
      var img := imgs[|imgs| - 1];
      ImageDeduction(d, front);
      var x := W3CIssue(ImageWithoutAlt, d.lineOf(img.text));
      WhenDeduction(!img.hasAlt, x);
      TotalDeductionConcat(ImageIssues(d, front), When(!img.hasAlt, x));
    }
  }

  lemma {:induction false} DeprecatedDeduction(d: Doc, tags: seq<string>)
    ensures TotalDeduction(DeprecatedIssues(d, tags)) == 8 * FoundCount(d, tags)
    decreases |tags|
  {
    if |tags| > 0 {
      var front := tags[..|tags| - 1];
      var tag := tags[|tags| - 1];
      DeprecatedDeduction(d, front);
      var x := W3CIssue(DeprecatedTag(tag), d.lineOf(tag));
      WhenDeduction(d.includes(tag), x);
      TotalDeductionConcat(DeprecatedIssues(d, front), When(d.includes(tag), x));
    }
  }

  lemma {:induction false} TagDeduction(d: Doc, scan: HtmlScan, tags: seq<OpenTag>)
    ensures TotalDeduction(TagIssues(d, scan, tags)) == 8 * MismatchedCount(scan, tags)
    decreases |tags|
  {
    if |tags| > 0 {
      var front := tags[..|tags| - 1];
      var tag := tags[|tags| - 1];
      TagDeduction(d, scan, front);
      var x := W3CIssue(MismatchedTag(Lower(tag.name)), d.lineOf(tag.text));
      WhenDeduction(Mismatched(scan, tag), x);
      TotalDeductionConcat(TagIssues(d, scan, front), When(Mismatched(scan, tag), x));
    }
  }

  lemma {:induction false} InputDeduction(d: Doc, inputs: seq<InputTag>)
    ensures TotalDeduction(InputIssues(d, inputs)) == 3 * UnlabeledCount(inputs)
    decreases |inputs|
  {
    if |inputs| > 0 {
      var front := inputs[..|inputs| - 1];
      var input := inputs[|inputs| - 1];
      InputDeduction(d, front);
      var x := W3CIssue(UnlabeledInput(if input.id.Some? then input.id.value else ""), d.lineOf(input.text));
      WhenDeduction(Unlabeled(input), x);
      TotalDeductionConcat(InputIssues(d, front), When(Unlabeled(input), x));
    }
  }

  lemma {:induction false} LinkDeduction(d: Doc, links: seq<LinkTag>)
    ensures TotalDeduction(LinkIssues(d, links)) == 2 * BadLinkCount(links)
    decreases |links|
  {
    if |links| > 0 {
      var front := links[..|links| - 1];
      var link := links[|links| - 1];
      LinkDeduction(d, front);
      var x := W3CIssue(BadLink, d.lineOf(link.text));
      WhenDeduction(BadHref(link), x);
      TotalDeductionConcat(LinkIssues(d, front), When(BadHref(link), x));
    }
  }

  /** The points of all the records are the points of each check's part, added up. */
  function PartDeductions(d: Doc, scan: HtmlScan): nat {
    TotalDeduction(SkeletonIssues(d, scan)) + TotalDeduction(HeadBodyIssues(d, scan))
    + TotalDeduction(ImageIssues(d, scan.images)) + TotalDeduction(DeprecatedIssues(d, DeprecatedTags))
    + TotalDeduction(InlineStyleIssues(scan)) + TotalDeduction(HeadingIssues(scan))
    + TotalDeduction(TagIssues(d, scan, scan.openTags)) + TotalDeduction(InputIssues(d, scan.inputs))
    + TotalDeduction(LinkIssues(d, scan.links)) + TotalDeduction(VoidIssues(d, scan.voidTags))
  }

  lemma DeductionOfIssues(d: Doc, scan: HtmlScan)
    ensures TotalDeduction(Issues(d, scan)) == PartDeductions(d, scan)
  {
    var x1 := SkeletonIssues(d, scan) + HeadBodyIssues(d, scan);
    var x2 := x1 + ImageIssues(d, scan.images);
    var x3 := x2 + DeprecatedIssues(d, DeprecatedTags);
    var x4 := x3 + InlineStyleIssues(scan);
    var x5 := x4 + HeadingIssues(scan);
    var x6 := x5 + TagIssues(d, scan, scan.openTags);
    var x7 := x6 + InputIssues(d, scan.inputs);
    var x8 := x7 + LinkIssues(d, scan.links);
    assert Issues(d, scan) == x8 + VoidIssues(d, scan.voidTags);
    TotalDeductionConcat(SkeletonIssues(d, scan), HeadBodyIssues(d, scan));
    TotalDeductionConcat(x1, ImageIssues(d, scan.images));
    TotalDeductionConcat(x2, DeprecatedIssues(d, DeprecatedTags));
    TotalDeductionConcat(x3, InlineStyleIssues(scan));
    TotalDeductionConcat(x4, HeadingIssues(scan));
    TotalDeductionConcat(x5, TagIssues(d, scan, scan.openTags));
    TotalDeductionConcat(x6, InputIssues(d, scan.inputs));
    TotalDeductionConcat(x7, LinkIssues(d, scan.links));
    TotalDeductionConcat(x8, VoidIssues(d, scan.voidTags));
  }

  /** Checks 11 and 12 take off 3 and 5 points when they fire. */
  lemma CountedDeduction(scan: HtmlScan)
    ensures TotalDeduction(InlineStyleIssues(scan)) == 3 * Flag(scan.inlineStyles > 5)
    ensures TotalDeduction(HeadingIssues(scan)) == 5 * Flag(scan.headings > 0 && scan.h1Count != 1)
  {
    WhenDeduction(scan.inlineStyles > 5, W3CIssue(InlineStyles(scan.inlineStyles), 0));
    var h := HeadingIssues(scan);
    if |h| == 1 {
      assert h[..0] == [];
    }
  }

  /** The points `validateHTML` takes off are those of the rule table. */
  lemma DeductionTable(d: Doc, scan: HtmlScan)
    ensures TotalDeduction(Issues(d, scan)) == ExpectedDeduction(d, scan)
  {
    DeductionOfIssues(d, scan);
    PartsTable(d, scan);
  }

  /** Each check's part takes off the points of its rules. */
  lemma PartsTable(d: Doc, scan: HtmlScan)
    ensures PartDeductions(d, scan) == ExpectedDeduction(d, scan)
  {
    SkeletonDeduction(d, scan);
    HeadBodyDeduction(d, scan);
    ImageDeduction(d, scan.images);
    DeprecatedDeduction(d, DeprecatedTags);
    CountedDeduction(scan);
    TagDeduction(d, scan, scan.openTags);
    InputDeduction(d, scan.inputs);
    LinkDeduction(d, scan.links);
    VoidNotesFree(d, scan.voidTags);
  }
}
