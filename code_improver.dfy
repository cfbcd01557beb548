/**
 * The code improver proper: the first-match dispatcher from a suggestion to a rewrite rule,
 * `improveCode` folding the auto-fixable suggestions over the text, the improvement metrics,
 * and `generateCodeComparison`, the line-aligned side-by-side diff.
 */
module CodeImprover {
  import opened Common
  import opened Text
  import opened Reports
  import opened ImproverRules

  /**
   * The rewrites that are single regular-expression replacements in the source; the model
   * takes them as given string transformations.
   */
  datatype RegexRewrites = RegexRewrites(
    removeConsoleLogs: string -> string,
    addMissingKeys: string -> string,
    addAltAttributes: string -> string,
    replaceDeprecatedTags: string -> string,
    extractInlineStyles: string -> string,
    optimizeNestedLoops: string -> string,
    extractMagicNumbers: string -> string)

  /** The sixteen fixes of `applyFix`, in the order it tries them. */
  datatype Fix =
    | ConsoleLogs | VarToConstLet | Semicolons | TrailingWhitespace | Indentation
    | UnusedImports | MissingKeys | ViewportMeta | CommentedCode | AltAttributes
    | DeprecatedTags | Doctype | InlineStyles | NestedLoops | MagicNumbers | ReactImport

  function Rank(f: Fix): nat {
    match f
    case ConsoleLogs => 0
    case VarToConstLet => 1
    case Semicolons => 2
    case TrailingWhitespace => 3
    case Indentation => 4
    case UnusedImports => 5
    case MissingKeys => 6
    case ViewportMeta => 7
    case CommentedCode => 8
    case AltAttributes => 9
    case DeprecatedTags => 10
    case Doctype => 11
    case InlineStyles => 12
    case NestedLoops => 13
    case MagicNumbers => 14
    case ReactImport => 15
  }

  /** `field && field.includes(p)`: an absent field never matches. */
  predicate Has(field: Option<string>, p: string) {
    field.Some? && Contains(field.value, p)
  }

  /** The condition under which `applyFix` would pick a fix, were no earlier fix picked. */
  predicate Triggers(s: Suggestion, f: Fix) {
    match f
    case ConsoleLogs => Has(s.fixCode, "console.log")
    case VarToConstLet => Has(s.fixCode, "var with const/let")
    case Semicolons => s.kind == "syntax" && Has(s.message, "semicolon")
    case TrailingWhitespace => s.kind == "formatting"
    case Indentation => Has(s.message, "indentation")
    case UnusedImports => Has(s.message, "unused import") || Has(s.message, "Unused import")
    case MissingKeys => Has(s.message, "key")
    case ViewportMeta => Has(s.fixCode, "viewport meta tag")
    case CommentedCode => Has(s.message, "Commented out code")
    case AltAttributes => Has(s.message, "alt") || Has(s.message, "Image missing") || Has(s.fixCode, "alt")
    case DeprecatedTags => Has(s.message, "Deprecated") || Has(s.fixCode, "deprecated")
    case Doctype => Has(s.message, "DOCTYPE") || Has(s.fixCode, "DOCTYPE")
    case InlineStyles => Has(s.message, "Inline styles") || Has(s.fixCode, "inline styles")
    case NestedLoops => Has(s.message, "Nested loops") || Has(s.fixCode, "nested loops")
    case MagicNumbers => Has(s.message, "Magic numbers") || Has(s.fixCode, "magic numbers")
    case ReactImport => Has(s.message, "Missing React import") || Has(s.fixCode, "React import")
  }

  /**
   * The third test reads `suggestion.message.includes` without checking that a message
   * exists: a `syntax` suggestion with no message makes `applyFix` throw.
   */
  predicate SyntaxWithoutMessage(s: Suggestion) {
    s.kind == "syntax" && s.message.None?
  }

  datatype Dispatch = Apply(fix: Fix) | NoFix | Throws

  /** The fix `applyFix` tries in position `k`. */
  function FixOfRank(k: nat): (f: Fix)
    requires k < 16
    ensures Rank(f) == k
  {
    if k == 0 then ConsoleLogs else if k == 1 then VarToConstLet
    else if k == 2 then Semicolons else if k == 3 then TrailingWhitespace
    else if k == 4 then Indentation else if k == 5 then UnusedImports
    else if k == 6 then MissingKeys else if k == 7 then ViewportMeta
    else if k == 8 then CommentedCode else if k == 9 then AltAttributes
    else if k == 10 then DeprecatedTags else if k == 11 then Doctype
    else if k == 12 then InlineStyles else if k == 13 then NestedLoops
    else if k == 14 then MagicNumbers else ReactImport
  }

  lemma FixOfRankOf(f: Fix)
    ensures Rank(f) < 16 && FixOfRank(Rank(f)) == f
  {
  }

  /** The outcome of the chain of tests, by position. */
  datatype Pick = Picked(rank: nat) | NoPick | Thrown

  /**
   * The chain of tests in `applyFix` from position `k` on, where `fires(j)` says whether the
   * test in position `j` holds and `throwsAt2` whether the test in position 2 throws.
   */
  function FirstPick(fires: nat -> bool, throwsAt2: bool, k: nat): (r: Pick)
    requires k <= 16
    ensures r.Picked? ==> k <= r.rank < 16
    decreases 16 - k
  {
    if k == 16 then NoPick
    else if k == 2 && throwsAt2 then Thrown
    else if fires(k) then Picked(k)
    else FirstPick(fires, throwsAt2, k + 1)
  }

  lemma {:induction false} FirstPickPicked(fires: nat -> bool, throwsAt2: bool, k: nat, n: nat)
    requires k <= 16
    ensures FirstPick(fires, throwsAt2, k) == Picked(n) <==>
              k <= n < 16 && fires(n) && (forall j :: k <= j < n ==> !fires(j))
              && (k <= 2 <= n ==> !throwsAt2)
    decreases 16 - k
  {
    if k < 16 {
      FirstPickPicked(fires, throwsAt2, k + 1, n);
    }
  }

  lemma {:induction false} FirstPickFails(fires: nat -> bool, throwsAt2: bool, k: nat)
    requires k <= 16
    ensures FirstPick(fires, throwsAt2, k) == Thrown <==>
              k <= 2 && throwsAt2 && forall j :: k <= j < 2 ==> !fires(j)
    ensures FirstPick(fires, throwsAt2, k) == NoPick <==>
              (k <= 2 ==> !throwsAt2) && forall j :: k <= j < 16 ==> !fires(j)
    decreases 16 - k
  {
    if k < 16 {
      FirstPickFails(fires, throwsAt2, k + 1);
    }
  }

  /** Whether the test in position `j` of `applyFix` holds for `s`. */
  function Fires(s: Suggestion): nat -> bool {
    (j: nat) => j < 16 && Triggers(s, FixOfRank(j))
  }

  /** `applyFix`'s choice of rewrite: the first test in the chain that holds. */
  function DispatchOf(s: Suggestion): Dispatch {
    match FirstPick(Fires(s), SyntaxWithoutMessage(s), 0)
    case Picked(n) => Apply(FixOfRank(n))
    case NoPick => NoFix
    case Thrown => Throws
  }

  /** No fix ranked before `f` triggers. */
  predicate NoEarlierTrigger(s: Suggestion, f: Fix) {
    forall g: Fix :: Rank(g) < Rank(f) ==> !Triggers(s, g)
  }

  lemma NoEarlierTriggerFires(s: Suggestion, f: Fix)
    ensures NoEarlierTrigger(s, f) <==> forall j :: 0 <= j < Rank(f) ==> !Fires(s)(j)
  {
    if forall j :: 0 <= j < Rank(f) ==> !Fires(s)(j) {
      forall g: Fix | Rank(g) < Rank(f)
        ensures !Triggers(s, g)
      {
        FixOfRankOf(g);
        assert !Fires(s)(Rank(g));
      }
    }
  }

  /** The dispatcher picks exactly the lowest-ranked triggering fix, unless it throws first. */
  lemma DispatchFirstMatch(s: Suggestion, f: Fix)
    ensures DispatchOf(s) == Apply(f) <==>
              Triggers(s, f) && NoEarlierTrigger(s, f) && (Rank(f) >= 2 ==> !SyntaxWithoutMessage(s))
  {
    FixOfRankOf(f);
    var p := FirstPick(Fires(s), SyntaxWithoutMessage(s), 0);
    if p.Picked? {
      assert Rank(FixOfRank(p.rank)) == p.rank;
    }
    assert DispatchOf(s) == Apply(f) <==> p == Picked(Rank(f));
    FirstPickPicked(Fires(s), SyntaxWithoutMessage(s), 0, Rank(f));
    NoEarlierTriggerFires(s, f);
    FiresAt(s, f);
  }

  lemma FiresAt(s: Suggestion, f: Fix)
    ensures Fires(s)(Rank(f)) == Triggers(s, f)
  {
    FixOfRankOf(f);
  }

  /**
   * The dispatcher throws exactly for a `syntax` suggestion without a message that neither of
   * the first two tests claims, and finds no fix exactly when it does not throw and no test fires.
   */
  lemma DispatchFailures(s: Suggestion)
    ensures DispatchOf(s) == Throws <==>
              SyntaxWithoutMessage(s) && !Triggers(s, ConsoleLogs) && !Triggers(s, VarToConstLet)
    ensures DispatchOf(s) == NoFix <==> !SyntaxWithoutMessage(s) && forall g: Fix :: !Triggers(s, g)
  {
    FirstPickFails(Fires(s), SyntaxWithoutMessage(s), 0);
    assert Fires(s)(0) == Triggers(s, ConsoleLogs) && Fires(s)(1) == Triggers(s, VarToConstLet);
    if forall j :: 0 <= j < 16 ==> !Fires(s)(j) {
      forall g: Fix
        ensures !Triggers(s, g)
      {
        FixOfRankOf(g);
        assert !Fires(s)(Rank(g));
      }
    }
    if forall g: Fix :: !Triggers(s, g) {
      assert forall j :: 0 <= j < 16 ==> !Fires(s)(j);
    }
  }

  /** The rewrite each fix applies. */
  function Rule(rw: RegexRewrites, f: Fix): string -> string {
    match f
    case ConsoleLogs => rw.removeConsoleLogs
    case VarToConstLet => ReplaceVarWithConstLet
    case Semicolons => AddMissingSemicolons
    case TrailingWhitespace => RemoveTrailingWhitespace
    case Indentation => Reindented
    case UnusedImports => RemoveUnusedImports
    case MissingKeys => rw.addMissingKeys
    case ViewportMeta => AddViewportMetaTag
    case CommentedCode => RemoveCommentedCode
    case AltAttributes => rw.addAltAttributes
    case DeprecatedTags => rw.replaceDeprecatedTags
    case Doctype => AddDoctype
    case InlineStyles => rw.extractInlineStyles
    case NestedLoops => rw.optimizeNestedLoops
    case MagicNumbers => rw.extractMagicNumbers
    case ReactImport => WithReactImport
  }

  const NoFixReason: string := "No applicable fix found"

  /** The message of the `TypeError` a missing message raises. */
  const MissingMessageReason: string := "Cannot read properties of undefined (reading 'includes')"

  datatype FixResult = Success(code: string) | Failure(reason: string)

  /** `applyFix`, including its `catch`. */
  function ApplyFix(rw: RegexRewrites, code: string, s: Suggestion): FixResult {
    match DispatchOf(s)
    case Apply(f) => Success(Rule(rw, f)(code))
    case NoFix => Failure(NoFixReason)
    case Throws => Failure(MissingMessageReason)
  }

  datatype AppliedFix = AppliedFix(kind: string, message: Option<string>, fixCode: Option<string>)
  datatype SkippedFix = SkippedFix(kind: string, message: Option<string>, reason: string)

  /** The three variables `improveCode` threads through its loop. */
  datatype FoldState = FoldState(code: string, applied: seq<AppliedFix>, skipped: seq<SkippedFix>)

  /** One pass of the `forEach` body. */
  function Step(rw: RegexRewrites, st: FoldState, s: Suggestion): FoldState {
    if !s.autoFix then st
    else match ApplyFix(rw, st.code, s)
      case Success(c) => FoldState(c, st.applied + [AppliedFix(s.kind, s.message, s.fixCode)], st.skipped)
      case Failure(reason) => FoldState(st.code, st.applied, st.skipped + [SkippedFix(s.kind, s.message, reason)])
  }

  /** The state after the first `|ss|` suggestions. */
  function Fold(rw: RegexRewrites, code: string, ss: seq<Suggestion>): FoldState {
    if |ss| == 0 then FoldState(code, [], [])
    else Step(rw, Fold(rw, code, ss[..|ss| - 1]), ss[|ss| - 1])
  }

  predicate Applies(s: Suggestion) {
    s.autoFix && DispatchOf(s).Apply?
  }

  predicate Skips(s: Suggestion) {
    s.autoFix && !DispatchOf(s).Apply?
  }

  function ToApplied(s: Suggestion): AppliedFix {
    AppliedFix(s.kind, s.message, s.fixCode)
  }

  function SkipReason(s: Suggestion): string {
    if DispatchOf(s) == Throws then MissingMessageReason else NoFixReason
  }

  function ToSkipped(s: Suggestion): SkippedFix {
    SkippedFix(s.kind, s.message, SkipReason(s))
  }

  datatype Metrics = Metrics(
    originalLines: nat,
    improvedLines: nat,
    originalSize: nat,
    improvedSize: nat,
    sizeReduction: int,
    consolesRemoved: int,
    varsReplaced: int,
    linesChanged: nat)

  datatype Improvement = Improvement(
    improvedCode: string,
    appliedFixes: seq<AppliedFix>,
    skippedFixes: seq<SkippedFix>,
    metrics: Metrics,
    hasChanges: bool)

  /** `improveCode`: the `forEach` over the suggestions, then the metrics and `hasChanges`. */
  method ImproveCode(rw: RegexRewrites, fileName: string, originalCode: string,
                     suggestions: seq<Suggestion>, issues: seq<Issue>) returns (r: Improvement)
    ensures FoldState(r.improvedCode, r.appliedFixes, r.skippedFixes) == Fold(rw, originalCode, suggestions)
    ensures r.metrics == ImprovementMetrics(originalCode, r.improvedCode)
    ensures r.hasChanges <==> r.improvedCode != originalCode
  {
    var improved := originalCode;
    var applied: seq<AppliedFix> := [];
    var skipped: seq<SkippedFix> := [];
    for i := 0 to |suggestions|
      invariant FoldState(improved, applied, skipped) == Fold(rw, originalCode, suggestions[..i])
    {
      var s := suggestions[i];
      assert suggestions[..i + 1][..i] == suggestions[..i];
      if s.autoFix {
        var result := ApplyFix(rw, improved, s);
        match result
        case Success(c) =>
          improved := c;
          applied := applied + [AppliedFix(s.kind, s.message, s.fixCode)];
        case Failure(reason) =>
          skipped := skipped + [SkippedFix(s.kind, s.message, reason)];
      }
    }
    assert suggestions[..|suggestions|] == suggestions;
    r := Improvement(improved, applied, skipped, ImprovementMetrics(originalCode, improved), improved != originalCode);
  }

  lemma MapSeqConcat<T, U>(a: seq<T>, b: seq<T>, f: T -> U)
    ensures MapSeq(a + b, f) == MapSeq(a, f) + MapSeq(b, f)
  {
  }

  /** What one suggestion adds to each list. */
  lemma StepLists(rw: RegexRewrites, st: FoldState, s: Suggestion)
    ensures Step(rw, st, s).applied == st.applied + MapSeq(Filter([s], Applies), ToApplied)
    ensures Step(rw, st, s).skipped == st.skipped + MapSeq(Filter([s], Skips), ToSkipped)
  {
    assert [s][1..] == [];
    if Applies(s) {
      assert Filter([s], Applies) == [s];
      assert Filter([s], Skips) == [];
    } else if Skips(s) {
      assert Filter([s], Applies) == [];
      assert Filter([s], Skips) == [s];
    } else {
      assert Filter([s], Applies) == [];
      assert Filter([s], Skips) == [];
    }
  }

  /**
   * The applied and skipped lists are the auto-fixable suggestions that found a fix and those
   * that did not, each in input order; the skip reason is the exception text only for a throw.
   */
  lemma {:induction false} FoldLists(rw: RegexRewrites, code: string, ss: seq<Suggestion>)
    ensures Fold(rw, code, ss).applied == MapSeq(Filter(ss, Applies), ToApplied)
    ensures Fold(rw, code, ss).skipped == MapSeq(Filter(ss, Skips), ToSkipped)
    decreases |ss|
  {
    if |ss| > 0 {
      var init, s := ss[..|ss| - 1], ss[|ss| - 1];
      var prev := Fold(rw, code, init);
      FoldLists(rw, code, init);
      assert Fold(rw, code, ss) == Step(rw, prev, s);
      StepLists(rw, prev, s);
      SnocSplit(ss);
      MapFilterSnoc(init, s, Applies, ToApplied);
      MapFilterSnoc(init, s, Skips, ToSkipped);
    }
  }

  lemma MapFilterSnoc<T, U>(init: seq<T>, x: T, keep: T -> bool, f: T -> U)
    ensures MapSeq(Filter(init + [x], keep), f) == MapSeq(Filter(init, keep), f) + MapSeq(Filter([x], keep), f)
  {
    FilterConcat(init, [x], keep);
    MapSeqConcat(Filter(init, keep), Filter([x], keep), f);
  }

  lemma {:induction false} FilterSplit<T>(s: seq<T>, p: T -> bool, q: T -> bool, pq: T -> bool, pnq: T -> bool)
    requires forall x :: pq(x) == (p(x) && q(x)) && pnq(x) == (p(x) && !q(x))
    ensures |Filter(s, pq)| + |Filter(s, pnq)| == |Filter(s, p)|
    decreases |s|
  {
    if |s| > 0 {
      FilterSplit(s[1..], p, q, pq, pnq);
    }
  }

  /** Every auto-fixable suggestion lands in exactly one of the two lists; the others in neither. */
  lemma FoldPartition(rw: RegexRewrites, code: string, ss: seq<Suggestion>)
    ensures |Fold(rw, code, ss).applied| + |Fold(rw, code, ss).skipped|
            == CountWhere(ss, (s: Suggestion) => s.autoFix)
  {
    FoldLists(rw, code, ss);
    FilterSplit(ss, (s: Suggestion) => s.autoFix, (s: Suggestion) => DispatchOf(s).Apply?, Applies, Skips);
  }

  /** When no suggestion finds a fix, the text is returned untouched. */
  lemma {:induction false} FoldNothingApplies(rw: RegexRewrites, code: string, ss: seq<Suggestion>)
    requires forall i :: 0 <= i < |ss| ==> !Applies(ss[i])
    ensures Fold(rw, code, ss).code == code
    ensures Fold(rw, code, ss).applied == []
    decreases |ss|
  {
    if |ss| > 0 {
      FoldNothingApplies(rw, code, ss[..|ss| - 1]);
    }
  }

  /**
   * Each applied fix rewrites the text the earlier fixes produced; a skipped or non-auto-fixable
   * suggestion leaves it as it was.
   */
  lemma FoldStep(rw: RegexRewrites, code: string, ss: seq<Suggestion>, s: Suggestion)
    ensures Applies(s) ==>
              Fold(rw, code, ss + [s]).code == Rule(rw, DispatchOf(s).fix)(Fold(rw, code, ss).code)
    ensures !Applies(s) ==> Fold(rw, code, ss + [s]).code == Fold(rw, code, ss).code
    ensures !s.autoFix ==> Fold(rw, code, ss + [s]) == Fold(rw, code, ss)
  {
    assert (ss + [s])[..|ss|] == ss;
  }

  // ---------------------------------------------------------------- calculateImprovementMetrics

  /** The number of non-overlapping whole-word matches of `w` at or after `from` (`/\bw\b/g`). */
  function CountWordsFrom(s: string, w: string, from: nat): nat
    requires |w| > 0
    decreases |s| - from
  {
    var j := FirstWordFrom(s, w, from);
    if j < 0 || j + |w| > |s| then 0 else 1 + CountWordsFrom(s, w, j + |w|)
  }

  /**
   * `originalLines.filter((line, i) => line !== improvedLines[i]).length`: an original line
   * counts when the improved text has no line at its index or a different one.
   */
  function LinesChanged(o: seq<string>, im: seq<string>): (r: nat)
    ensures r <= |o|
    ensures r == 0 <==> |o| <= |im| && o == im[..|o|]
    decreases |o|
  {
    if |o| == 0 then 0
    else if |im| == 0 then 1 + LinesChanged(o[1..], [])
    else
      var rest := LinesChanged(o[1..], im[1..]);
      assert |o| <= |im| && o == im[..|o|] <==> o[0] == im[0] && |o[1..]| <= |im[1..]| && o[1..] == im[1..][..|o[1..]|] by {
        if |o| <= |im| && o[0] == im[0] && o[1..] == im[1..][..|o| - 1] {
          assert o == [o[0]] + o[1..];
          assert im[..|o|] == [im[0]] + im[1..][..|o| - 1];
        }
      }
      (if o[0] != im[0] then 1 else 0) + rest
  }

  function ImprovementMetrics(originalCode: string, improvedCode: string): (m: Metrics)
    ensures m.originalLines == CountChar(originalCode, '\n') + 1
    ensures m.improvedLines == CountChar(improvedCode, '\n') + 1
    ensures m.sizeReduction == |originalCode| - |improvedCode|
    ensures m.linesChanged <= m.originalLines
  {
    SplitCount(originalCode, '\n');
    SplitCount(improvedCode, '\n');
    var ol := Lines(originalCode);
    var il := Lines(improvedCode);
    Metrics(
      |ol|, |il|, |originalCode|, |improvedCode|, |originalCode| - |improvedCode|,
      CountOccurrences(originalCode, "console.") - CountOccurrences(improvedCode, "console."),
      CountWordsFrom(originalCode, "var", 0) - CountWordsFrom(improvedCode, "var", 0),
      LinesChanged(ol, il))
  }

  /** An unchanged text reports no change in any metric. */
  lemma MetricsOfUnchanged(code: string)
    ensures var m := ImprovementMetrics(code, code);
            m.linesChanged == 0 && m.sizeReduction == 0 && m.consolesRemoved == 0
            && m.varsReplaced == 0 && m.originalLines == m.improvedLines
  {
    var ls := Lines(code);
    assert ls[..|ls|] == ls;
  }

  // ---------------------------------------------------------------- generateCodeComparison

  datatype ChangeType = Added | Removed | Modified | Unchanged

  datatype ComparisonLine = ComparisonLine(
    lineNumber: nat,
    original: string,
    improved: string,
    isDifferent: bool,
    changeType: ChangeType)

  /** `lines[i] || ''`. */
  function LineOrEmpty(ls: seq<string>, i: nat): string {
    if i < |ls| then ls[i] else []
  }

  /**
   * The classification as the source writes it: `!original` is tested before equality, so two
   * empty lines count as `added`.
   */
  function ChangeTypeAsWritten(original: string, improved: string): ChangeType {
    if |original| == 0 then Added
    else if |improved| == 0 then Removed
    else if original != improved then Modified
    else Unchanged
  }

  /** Two empty lines are classified `added` although `isDifferent` is false. */
  lemma ChangeTypeAsWrittenBlankLine()
    ensures var o, im := "", "";
            !(o != im) && ChangeTypeAsWritten(o, im) == Added
  {
  }

  /** The classification with equality tested first, as the `unchanged` case intends. */
  function ChangeTypeOf(original: string, improved: string): (c: ChangeType)
    ensures c == Unchanged <==> original == improved
    ensures c == Added <==> original != improved && |original| == 0
    ensures c == Removed <==> original != improved && |original| > 0 && |improved| == 0
    ensures c == Modified <==> original != improved && |original| > 0 && |improved| > 0
  {
    if original == improved then Unchanged
    else if |original| == 0 then Added
    else if |improved| == 0 then Removed
    else Modified
  }

  /** The two classifications agree on every pair that is not two empty lines. */
  lemma ChangeTypeAgrees(original: string, improved: string)
    requires |original| > 0 || |improved| > 0
    ensures ChangeTypeAsWritten(original, improved) == ChangeTypeOf(original, improved)
  {
  }

  /** Entry `i` of `generateCodeComparison`, classified as the source writes it. */
  function ComparisonAt(ol: seq<string>, il: seq<string>, i: nat): ComparisonLine {
    var o := LineOrEmpty(ol, i);
    var im := LineOrEmpty(il, i);
    ComparisonLine(i + 1, o, im, o != im, ChangeTypeAsWritten(o, im))
  }

  /** `generateCodeComparison`: one entry per line index up to the longer of the two texts. */
  method GenerateCodeComparison(originalCode: string, improvedCode: string) returns (cmp: seq<ComparisonLine>)
    ensures |cmp| == Max(|Lines(originalCode)|, |Lines(improvedCode)|)
    ensures forall i :: 0 <= i < |cmp| ==> cmp[i] == ComparisonAt(Lines(originalCode), Lines(improvedCode), i)
  {
    var originalLines := Lines(originalCode);
    var improvedLines := Lines(improvedCode);
    var maxLines := Max(|originalLines|, |improvedLines|);
    cmp := [];
    for i := 0 to maxLines
      invariant |cmp| == i
      invariant forall k :: 0 <= k < i ==> cmp[k] == ComparisonAt(originalLines, improvedLines, k)
    {
      var original := LineOrEmpty(originalLines, i);
      var improved := LineOrEmpty(improvedLines, i);
      var isDifferent := original != improved;
      var changeType := if |original| == 0 then Added
                        else if |improved| == 0 then Removed
                        else if isDifferent then Modified
                        else Unchanged;
      cmp := cmp + [ComparisonLine(i + 1, original, improved, isDifferent, changeType)];
    }
  }

  /**
   * Entry `i` carries line number `i + 1` and reads a missing line as empty. It is `added`
   * exactly when the original line is empty or missing, `removed` exactly when the original is
   * there and the improved line is empty or missing, and `modified` exactly when both are there
   * and differ. An `unchanged` entry is never different, but the converse fails for two empty
   * lines (see `ComparisonAsWrittenIdentical`).
   */
  lemma ComparisonAtShape(ol: seq<string>, il: seq<string>, i: nat)
    ensures var c := ComparisonAt(ol, il, i);
            c.lineNumber == i + 1
            && c.original == LineOrEmpty(ol, i) && c.improved == LineOrEmpty(il, i)
            && (c.isDifferent <==> c.original != c.improved)
            && (c.changeType == Added <==> |c.original| == 0)
            && (c.changeType == Removed <==> |c.original| > 0 && |c.improved| == 0)
            && (c.changeType == Modified <==> |c.original| > 0 && |c.improved| > 0 && c.isDifferent)
            && (c.changeType == Unchanged ==> !c.isDifferent)
    ensures i >= |ol| ==> ComparisonAt(ol, il, i).changeType == Added
  {
  }

  /** As written, comparing `a\n\nb` with itself reports its blank middle line as `added`. */
  lemma ComparisonAsWrittenIdentical()
    ensures var ls := ["a", "", "b"];
            !ComparisonAt(ls, ls, 1).isDifferent && ComparisonAt(ls, ls, 1).changeType == Added
  {
  }

  /** Entry `i` classified as intended, with equality tested first. */
  function ComparisonAtIntended(ol: seq<string>, il: seq<string>, i: nat): ComparisonLine {
    var o := LineOrEmpty(ol, i);
    var im := LineOrEmpty(il, i);
    ComparisonLine(i + 1, o, im, o != im, ChangeTypeOf(o, im))
  }

  /**
   * Intended: `isDifferent` holds exactly when the entry is not `unchanged`, and the two
   * classifications agree on every entry that is not two empty lines.
   */
  lemma ComparisonAtIntendedShape(ol: seq<string>, il: seq<string>, i: nat)
    ensures var c := ComparisonAtIntended(ol, il, i);
            c.lineNumber == i + 1
            && (c.isDifferent <==> c.changeType != Unchanged)
            && (|c.original| > 0 || |c.improved| > 0 ==> c == ComparisonAt(ol, il, i))
  {
  }

  /** Intended: comparing a text with itself gives one `unchanged` entry per line. */
  lemma ComparisonOfIdentical(code: string, i: nat)
    requires i < |Lines(code)|
    ensures ComparisonAtIntended(Lines(code), Lines(code), i).changeType == Unchanged
    ensures !ComparisonAtIntended(Lines(code), Lines(code), i).isDifferent
  {
  }
}
