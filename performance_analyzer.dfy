/**
 * The page-speed scorer: seven content checks, each of which may report one issue through
 * the `addIssue` closure, which takes points off a mobile score (starting at 98) and a
 * desktop score (starting at 99) by impact tier; then both scores are clamped to [0, 100].
 */
module PerformanceAnalyzer {
  import opened Text

  datatype Impact = High | Medium | Low

  /** Which of the seven checks reported an issue; its title follows from it. */
  datatype Rule =
    | RenderBlocking | InlineStyleBloat | UnsizedImages | NoViewport | NoAlt
    | DomSize(tagCount: nat) | EagerImages

  datatype PerfIssue = PerfIssue(impact: Impact, rule: Rule)

  function Title(r: Rule): string {
    match r
    case RenderBlocking => "Eliminate render-blocking resources"
    case InlineStyleBloat => "Reduce inline styles"
    case UnsizedImages => "Image elements do not have explicit width and height"
    case NoViewport => "Missing viewport meta tag"
    case NoAlt => "Image elements missing alt attributes"
    case DomSize(_) => "Avoid an excessive DOM size"
    case EagerImages => "Defer offscreen images"
  }

  /** What `addIssue` takes off the mobile score; any impact other than high or medium counts as low. */
  function MobilePenalty(i: Impact): nat {
    match i
    case High => 10
    case Medium => 5
    case Low => 2
  }

  function DesktopPenalty(i: Impact): nat {
    match i
    case High => 5
    case Medium => 2
    case Low => 1
  }

  /** The position of a check in the order the checks run. */
  function RuleIndex(r: Rule): nat {
    match r
    case RenderBlocking => 0
    case InlineStyleBloat => 1
    case UnsizedImages => 2
    case NoViewport => 3
    case NoAlt => 4
    case DomSize(_) => 5
    case EagerImages => 6
  }

  // ---------------------------------------------------------------- the seven checks

  const HeadOpen: string := "<head>"
  const ImgOpen: string := "<img"
  const ViewportMeta: string := "<meta name=\"viewport\""

  /**
   * Check 1, `/<head>[\s\S]*?<script/i` without `/defer|async/i`: a `<script` somewhere after
   * the first `<head>`, compared case-insensitively, and neither word anywhere.
   */
  predicate BlocksRender(content: string) {
    var low := Lower(content);
    var h := IndexOf(low, HeadOpen);
    h >= 0 && h + |HeadOpen| <= |low| && Contains(low[h + |HeadOpen|..], "<script")
    && !Contains(low, "defer") && !Contains(low, "async")
  }

  /** Check 2: more than 5000 characters and more than 20 `style="`. */
  predicate HasInlineBloat(content: string) {
    |content| > 5000 && CountOccurrences(content, "style=\"") > 20
  }

  /** Check 3: an `<img` and neither `width="` nor `height="` anywhere. */
  predicate HasUnsizedImages(content: string) {
    Contains(content, ImgOpen) && !Contains(content, "width=\"") && !Contains(content, "height=\"")
  }

  /** Check 4: a `.html` or `.jsx` file without the viewport meta tag. */
  predicate LacksViewport(content: string, fileName: string) {
    (EndsWith(fileName, ".html") || EndsWith(fileName, ".jsx")) && !Contains(content, ViewportMeta)
  }

  /** Check 5: an `<img` and no `alt="` anywhere. */
  predicate LacksAlt(content: string) {
    Contains(content, ImgOpen) && !Contains(content, "alt=\"")
  }

  /** Check 6's count, `/<[a-z]+/gi`: the places where `<` is followed by a letter. */
  function TagCount(content: string): nat
    decreases |content|
  {
    if |content| < 2 then 0
    else (if content[0] == '<' && IsAsciiLetter(content[1]) then 1 else 0) + TagCount(content[1..])
  }

  /** Check 7: an `<img` and no `loading="lazy"` anywhere. */
  predicate LacksLazy(content: string) {
    Contains(content, ImgOpen) && !Contains(content, "loading=\"lazy\"")
  }

  /** The outcome of the seven checks on one file. */
  datatype Checks = Checks(
    blocking: bool, inlineBloat: bool, unsized: bool, noViewport: bool, noAlt: bool,
    tagCount: nat, eager: bool)

  function ChecksOf(content: string, fileName: string): Checks {
    Checks(BlocksRender(content), HasInlineBloat(content), HasUnsizedImages(content),
           LacksViewport(content, fileName), LacksAlt(content), TagCount(content), LacksLazy(content))
  }

  function When(cond: bool, issue: PerfIssue): (r: seq<PerfIssue>)
    ensures |r| <= 1
    ensures forall i :: 0 <= i < |r| ==> r[i] == issue
  {
    if cond then [issue] else []
  }

  /** The issues the checks report, in the order they run. */
  function FiredOf(c: Checks): seq<PerfIssue> {
    When(c.blocking, PerfIssue(High, RenderBlocking))
    + When(c.inlineBloat, PerfIssue(Medium, InlineStyleBloat))
    + When(c.unsized, PerfIssue(High, UnsizedImages))
    + When(c.noViewport, PerfIssue(High, NoViewport))
    + When(c.noAlt, PerfIssue(Medium, NoAlt))
    + When(c.tagCount > 1500, PerfIssue(Medium, DomSize(c.tagCount)))
    + When(c.eager, PerfIssue(Low, EagerImages))
  }

  /** The points the issues of `s` take off the mobile score together. */
  function MobileLoss(s: seq<PerfIssue>): nat
    decreases |s|
  {
    if |s| == 0 then 0 else MobileLoss(s[..|s| - 1]) + MobilePenalty(s[|s| - 1].impact)
  }

  function DesktopLoss(s: seq<PerfIssue>): nat
    decreases |s|
  {
    if |s| == 0 then 0 else DesktopLoss(s[..|s| - 1]) + DesktopPenalty(s[|s| - 1].impact)
  }

  /** `n` points when `b` holds, none otherwise. */
  function Pts(b: bool, n: nat): nat {
    if b then n else 0
  }

  /** The reported mobile score: 98 less the issues' points, 20 more for a missing viewport, clamped. */
  function MobileScore(c: Checks): int {
    Clamp100(98 - MobileLoss(FiredOf(c)) - Pts(c.noViewport, 20))
  }

  function DesktopScore(c: Checks): int {
    Clamp100(99 - DesktopLoss(FiredOf(c)))
  }

  // ---------------------------------------------------------------- analyzePerformance

  /** The result without the simulated web vitals and the timestamp. */
  datatype PerformanceReport = PerformanceReport(mobileScore: int, desktopScore: int, issues: seq<PerfIssue>)

  /** `addIssue(impact, …)`: one more issue, and the tier's points off both scores. */
  method AddIssue(issues: seq<PerfIssue>, mobileScore: int, desktopScore: int, impact: Impact, rule: Rule)
    returns (newIssues: seq<PerfIssue>, newMobile: int, newDesktop: int)
    ensures newIssues == issues + [PerfIssue(impact, rule)]
    ensures newMobile == mobileScore - MobilePenalty(impact)
    ensures newDesktop == desktopScore - DesktopPenalty(impact)
  {
    newIssues := issues + [PerfIssue(impact, rule)];
    if impact == High {
      newMobile, newDesktop := mobileScore - 10, desktopScore - 5;
    } else if impact == Medium {
      newMobile, newDesktop := mobileScore - 5, desktopScore - 2;
    } else {
      newMobile, newDesktop := mobileScore - 2, desktopScore - 1;
    }
  }

  /** `if (cond) addIssue(impact, …)`. */
  method AddIssueWhen(cond: bool, issues: seq<PerfIssue>, mobileScore: int, desktopScore: int, impact: Impact, rule: Rule)
    returns (newIssues: seq<PerfIssue>, newMobile: int, newDesktop: int)
    ensures newIssues == issues + When(cond, PerfIssue(impact, rule))
    ensures newMobile == mobileScore - Pts(cond, MobilePenalty(impact))
    ensures newDesktop == desktopScore - Pts(cond, DesktopPenalty(impact))
  {
    newIssues, newMobile, newDesktop := issues, mobileScore, desktopScore;
    if cond {
      newIssues, newMobile, newDesktop := AddIssue(issues, mobileScore, desktopScore, impact, rule);
    }
  }

  /**
   * Check 4 with its nested tests: for a `.html` or `.jsx` file without the viewport meta tag,
   * the high-impact issue and 20 more points off mobile.
   */
  method CheckViewport(content: string, fileName: string, issues: seq<PerfIssue>, mobileScore: int, desktopScore: int)
    returns (fired: bool, newIssues: seq<PerfIssue>, newMobile: int, newDesktop: int)
    ensures fired == LacksViewport(content, fileName)
    ensures newIssues == issues + When(fired, PerfIssue(High, NoViewport))
    ensures newMobile == mobileScore - Pts(fired, 30)
    ensures newDesktop == desktopScore - Pts(fired, 5)
  {
    fired, newIssues, newMobile, newDesktop := false, issues, mobileScore, desktopScore;
    if EndsWith(fileName, ".html") || EndsWith(fileName, ".jsx") {
      if !Contains(content, ViewportMeta) {
        fired := true;
        newIssues, newMobile, newDesktop := AddIssue(issues, mobileScore, desktopScore, High, NoViewport);
        newMobile := newMobile - 20;
      }
    }
  }

  /** Appending issues takes their points off on top of the earlier ones. */
  lemma {:induction false} LossConcat(a: seq<PerfIssue>, b: seq<PerfIssue>)
    ensures MobileLoss(a + b) == MobileLoss(a) + MobileLoss(b)
    ensures DesktopLoss(a + b) == DesktopLoss(a) + DesktopLoss(b)
    decreases |b|
  {
    if |b| == 0 {
      assert a + b == a;
    } else {
      var front := b[..|b| - 1];
      assert (a + b)[..|a + b| - 1] == a + front;
      LossConcat(a, front);
    }
  }

  /**
   * `analyzePerformance(content, fileName)`: the issues are those of the seven checks in
   * order; each score is its start less the points of the issues (and 20 more on mobile for
   * a missing viewport), clamped to [0, 100].
   */
  method AnalyzePerformance(content: string, fileName: string) returns (r: PerformanceReport)
    ensures r.issues == FiredOf(ChecksOf(content, fileName))
    ensures r.mobileScore == MobileScore(ChecksOf(content, fileName))
    ensures r.desktopScore == DesktopScore(ChecksOf(content, fileName))
  {
    var issues: seq<PerfIssue> := [];
    var mobileScore := 98;
    var desktopScore := 99;
    var blocking := BlocksRender(content);
    issues, mobileScore, desktopScore := AddIssueWhen(blocking, issues, mobileScore, desktopScore, High, RenderBlocking);
    ghost var s1, m1, d1 := issues, mobileScore, desktopScore;
    var inlineBloat := HasInlineBloat(content);
    issues, mobileScore, desktopScore := AddIssueWhen(inlineBloat, issues, mobileScore, desktopScore, Medium, InlineStyleBloat);
    ghost var s2, m2, d2 := issues, mobileScore, desktopScore;
    var unsized := HasUnsizedImages(content);
    issues, mobileScore, desktopScore := AddIssueWhen(unsized, issues, mobileScore, desktopScore, High, UnsizedImages);
    ghost var s3, m3, d3 := issues, mobileScore, desktopScore;
    var noViewport: bool;
    noViewport, issues, mobileScore, desktopScore := CheckViewport(content, fileName, issues, mobileScore, desktopScore);
    ghost var s4, m4, d4 := issues, mobileScore, desktopScore;
    var noAlt := LacksAlt(content);
    issues, mobileScore, desktopScore := AddIssueWhen(noAlt, issues, mobileScore, desktopScore, Medium, NoAlt);
    ghost var s5, m5, d5 := issues, mobileScore, desktopScore;
    var tagCount := TagCount(content);
    issues, mobileScore, desktopScore := AddIssueWhen(tagCount > 1500, issues, mobileScore, desktopScore, Medium, DomSize(tagCount));
    ghost var s6, m6, d6 := issues, mobileScore, desktopScore;
    var eager := LacksLazy(content);
    issues, mobileScore, desktopScore := AddIssueWhen(eager, issues, mobileScore, desktopScore, Low, EagerImages);
    ghost var c := Checks(blocking, inlineBloat, unsized, noViewport, noAlt, tagCount, eager);
    assert c == ChecksOf(content, fileName);
    FiredInSteps(c, s1, s2, s3, s4, s5, s6, issues);
    ScoresInSteps(c, m1, m2, m3, m4, m5, m6, mobileScore, d1, d2, d3, d4, d5, d6, desktopScore);
    mobileScore := Clamp100(mobileScore);
    desktopScore := Clamp100(desktopScore);
    r := PerformanceReport(mobileScore, desktopScore, issues);
  }

  /** The seven conditional appends, one after another, make up the reported issues. */
  lemma FiredInSteps(c: Checks, s1: seq<PerfIssue>, s2: seq<PerfIssue>,
                     s3: seq<PerfIssue>, s4: seq<PerfIssue>, s5: seq<PerfIssue>, s6: seq<PerfIssue>,
                     s7: seq<PerfIssue>)
    requires s1 == When(c.blocking, PerfIssue(High, RenderBlocking))
    requires s2 == s1 + When(c.inlineBloat, PerfIssue(Medium, InlineStyleBloat))
    requires s3 == s2 + When(c.unsized, PerfIssue(High, UnsizedImages))
    requires s4 == s3 + When(c.noViewport, PerfIssue(High, NoViewport))
    requires s5 == s4 + When(c.noAlt, PerfIssue(Medium, NoAlt))
    requires s6 == s5 + When(c.tagCount > 1500, PerfIssue(Medium, DomSize(c.tagCount)))
    requires s7 == s6 + When(c.eager, PerfIssue(Low, EagerImages))
    ensures s7 == FiredOf(c)
  {
  }

  /** The running scores through the seven checks give the reported ones once clamped. */
  lemma ScoresInSteps(c: Checks, m1: int, m2: int, m3: int, m4: int, m5: int, m6: int, m7: int,
                      d1: int, d2: int, d3: int, d4: int, d5: int, d6: int, d7: int)
    requires m1 == 98 - Pts(c.blocking, MobilePenalty(High)) && d1 == 99 - Pts(c.blocking, DesktopPenalty(High))
    requires m2 == m1 - Pts(c.inlineBloat, MobilePenalty(Medium)) && d2 == d1 - Pts(c.inlineBloat, DesktopPenalty(Medium))
    requires m3 == m2 - Pts(c.unsized, MobilePenalty(High)) && d3 == d2 - Pts(c.unsized, DesktopPenalty(High))
    requires m4 == m3 - Pts(c.noViewport, 30) && d4 == d3 - Pts(c.noViewport, 5)
    requires m5 == m4 - Pts(c.noAlt, MobilePenalty(Medium)) && d5 == d4 - Pts(c.noAlt, DesktopPenalty(Medium))
    requires m6 == m5 - Pts(c.tagCount > 1500, MobilePenalty(Medium)) && d6 == d5 - Pts(c.tagCount > 1500, DesktopPenalty(Medium))
    requires m7 == m6 - Pts(c.eager, MobilePenalty(Low)) && d7 == d6 - Pts(c.eager, DesktopPenalty(Low))
    ensures Clamp100(m7) == MobileScore(c)
    ensures Clamp100(d7) == DesktopScore(c)
  {
    FiredLoss(c);
  }

  /** The points the fired issues take off, check by check. */
  lemma FiredLoss(c: Checks)
    ensures MobileLoss(FiredOf(c)) ==
      Pts(c.blocking, 10) + Pts(c.inlineBloat, 5) + Pts(c.unsized, 10) + Pts(c.noViewport, 10)
      + Pts(c.noAlt, 5) + Pts(c.tagCount > 1500, 5) + Pts(c.eager, 2)
    ensures DesktopLoss(FiredOf(c)) ==
      Pts(c.blocking, 5) + Pts(c.inlineBloat, 2) + Pts(c.unsized, 5) + Pts(c.noViewport, 5)
      + Pts(c.noAlt, 2) + Pts(c.tagCount > 1500, 2) + Pts(c.eager, 1)
  {
    var w1 := When(c.blocking, PerfIssue(High, RenderBlocking));
    var w2 := When(c.inlineBloat, PerfIssue(Medium, InlineStyleBloat));
    var w3 := When(c.unsized, PerfIssue(High, UnsizedImages));
    var w4 := When(c.noViewport, PerfIssue(High, NoViewport));
    var w5 := When(c.noAlt, PerfIssue(Medium, NoAlt));
    var w6 := When(c.tagCount > 1500, PerfIssue(Medium, DomSize(c.tagCount)));
    var w7 := When(c.eager, PerfIssue(Low, EagerImages));
    WhenLoss(c.blocking, PerfIssue(High, RenderBlocking));
    WhenLoss(c.inlineBloat, PerfIssue(Medium, InlineStyleBloat));
    WhenLoss(c.unsized, PerfIssue(High, UnsizedImages));
    WhenLoss(c.noViewport, PerfIssue(High, NoViewport));
    WhenLoss(c.noAlt, PerfIssue(Medium, NoAlt));
    WhenLoss(c.tagCount > 1500, PerfIssue(Medium, DomSize(c.tagCount)));
    WhenLoss(c.eager, PerfIssue(Low, EagerImages));
    LossConcat(w1, w2);
    LossConcat(w1 + w2, w3);
    LossConcat(w1 + w2 + w3, w4);
    LossConcat(w1 + w2 + w3 + w4, w5);
    LossConcat(w1 + w2 + w3 + w4 + w5, w6);
    LossConcat(w1 + w2 + w3 + w4 + w5 + w6, w7);
  }

  lemma WhenLoss(cond: bool, issue: PerfIssue)
    ensures MobileLoss(When(cond, issue)) == Pts(cond, MobilePenalty(issue.impact))
    ensures DesktopLoss(When(cond, issue)) == Pts(cond, DesktopPenalty(issue.impact))
  {
    if cond {
      assert When(cond, issue)[..0] == [];
    }
  }

  // ---------------------------------------------------------------- properties

  /** Every issue costs at least as much on mobile as on desktop, and at least one point. */
  lemma {:induction false} LossOrder(s: seq<PerfIssue>)
    ensures |s| <= DesktopLoss(s) <= MobileLoss(s)
    ensures MobileLoss(s) <= 10 * |s|
    decreases |s|
  {
    if |s| > 0 {
      LossOrder(s[..|s| - 1]);
    }
  }

  /** An empty list takes nothing off, and a list that takes nothing off is empty. */
  lemma NoLossIff(s: seq<PerfIssue>)
    ensures DesktopLoss(s) == 0 <==> s == []
    ensures MobileLoss(s) == 0 <==> s == []
  {
    LossOrder(s);
  }

  /** There is no issue exactly when none of the seven checks fires. */
  lemma NothingFiredIff(c: Checks)
    ensures FiredOf(c) == [] <==>
      !c.blocking && !c.inlineBloat && !c.unsized && !c.noViewport && !c.noAlt
      && c.tagCount <= 1500 && !c.eager
  {
    if c.blocking || c.inlineBloat || c.unsized || c.noViewport || c.noAlt || c.tagCount > 1500 || c.eager {
      LossOrder(FiredOf(c));
      FiredLoss(c);
    }
  }

  /**
   * Both scores lie in [0, 100]; desktop never exceeds its start 99, mobile never exceeds its
   * start 98, and mobile never exceeds desktop.
   */
  lemma ScoreBounds(c: Checks)
    ensures 0 <= MobileScore(c) <= DesktopScore(c) <= 99
    ensures MobileScore(c) <= 98
  {
    LossOrder(FiredOf(c));
  }

  /**
   * With no check firing the report is exactly (98, 99, no issues); desktop keeps its start
   * score exactly when no issue was reported, and so does mobile.
   */
  lemma UntouchedScores(c: Checks)
    ensures FiredOf(c) == [] ==> MobileScore(c) == 98 && DesktopScore(c) == 99
    ensures DesktopScore(c) == 99 <==> FiredOf(c) == []
    ensures MobileScore(c) == 98 <==> FiredOf(c) == []
  {
    NoLossIff(FiredOf(c));
    if FiredOf(c) == [] {
      NothingFiredIff(c);
    }
  }

  /** A missing viewport costs mobile 30 points (the issue's 10 and 20 more) and desktop 5. */
  lemma ViewportPenalty(c: Checks)
    requires c.noViewport
    ensures var without := c.(noViewport := false);
            98 - MobileLoss(FiredOf(c)) - Pts(c.noViewport, 20) == 98 - MobileLoss(FiredOf(without)) - 30
            && DesktopLoss(FiredOf(c)) == DesktopLoss(FiredOf(without)) + 5
  {
    FiredLoss(c);
    FiredLoss(c.(noViewport := false));
  }

  /** Rule positions strictly increase along `s`. */
  predicate InCheckOrder(s: seq<PerfIssue>) {
    forall i, j :: 0 <= i < j < |s| ==> RuleIndex(s[i].rule) < RuleIndex(s[j].rule)
  }

  /** Every rule of `s` comes before position `k` in the check order. */
  predicate Below(s: seq<PerfIssue>, k: nat) {
    forall i :: 0 <= i < |s| ==> RuleIndex(s[i].rule) < k
  }

  lemma OrderedSnoc(s: seq<PerfIssue>, t: seq<PerfIssue>, cond: bool, issue: PerfIssue)
    requires InCheckOrder(s) && Below(s, RuleIndex(issue.rule))
    requires t == s + When(cond, issue)
    ensures InCheckOrder(t) && Below(t, RuleIndex(issue.rule) + 1)
  {
  }

  /** At most seven issues, one per check, in the order the checks run. */
  lemma FiredInOrder(c: Checks)
    ensures |FiredOf(c)| <= 7
    ensures InCheckOrder(FiredOf(c))
  {
    var p4 := FirstFour(c);
    FirstFourInOrder(c);
    var p5 := p4 + When(c.noAlt, PerfIssue(Medium, NoAlt));
    OrderedSnoc(p4, p5, c.noAlt, PerfIssue(Medium, NoAlt));
    var p6 := p5 + When(c.tagCount > 1500, PerfIssue(Medium, DomSize(c.tagCount)));
    OrderedSnoc(p5, p6, c.tagCount > 1500, PerfIssue(Medium, DomSize(c.tagCount)));
    var p7 := p6 + When(c.eager, PerfIssue(Low, EagerImages));
    OrderedSnoc(p6, p7, c.eager, PerfIssue(Low, EagerImages));
    assert FiredOf(c) == p7;
  }

  /** The issues of the first four checks: render-blocking resources to the viewport. */
  function FirstFour(c: Checks): seq<PerfIssue> {
    When(c.blocking, PerfIssue(High, RenderBlocking))
    + When(c.inlineBloat, PerfIssue(Medium, InlineStyleBloat))
    + When(c.unsized, PerfIssue(High, UnsizedImages))
    + When(c.noViewport, PerfIssue(High, NoViewport))
  }

  lemma FirstFourInOrder(c: Checks)
    ensures |FirstFour(c)| <= 4
    ensures InCheckOrder(FirstFour(c)) && Below(FirstFour(c), RuleIndex(NoViewport) + 1)
  {
    var p1 := When(c.blocking, PerfIssue(High, RenderBlocking));
    OrderedSnoc([], p1, c.blocking, PerfIssue(High, RenderBlocking));
    var p2 := p1 + When(c.inlineBloat, PerfIssue(Medium, InlineStyleBloat));
    OrderedSnoc(p1, p2, c.inlineBloat, PerfIssue(Medium, InlineStyleBloat));
    var p3 := p2 + When(c.unsized, PerfIssue(High, UnsizedImages));
    OrderedSnoc(p2, p3, c.unsized, PerfIssue(High, UnsizedImages));
    var p4 := p3 + When(c.noViewport, PerfIssue(High, NoViewport));
    OrderedSnoc(p3, p4, c.noViewport, PerfIssue(High, NoViewport));
  }
}
