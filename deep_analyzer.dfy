/**
 * The deep analyzer: the brace and parenthesis balance check, the callback-depth counter,
 * the cyclomatic proxy, the duplicate-line scanner, the anti-pattern and error detectors built
 * on them, the bucketing of `performDeepAnalysis` and the clamped overall score.
 */
module DeepAnalyzer {
  import opened Common
  import opened Text
  import opened DependencyGraph

  datatype Severity = Critical | High | Medium | Low

  /** The `type` tag of a finding; `TypeName` gives the string the analyzer reports. */
  datatype FindingType =
    | SyntaxError | SemanticWarning | SemanticError | TypeSafety | CircularDependency
    | RuntimeError | PerformanceIssue | SecurityIssue

  function TypeName(t: FindingType): string {
    match t
    case SyntaxError => "syntax-error"
    case SemanticWarning => "semantic-warning"
    case SemanticError => "semantic-error"
    case TypeSafety => "type-safety"
    case CircularDependency => "circular-dependency"
    case RuntimeError => "runtime-error"
    case PerformanceIssue => "performance"
    case SecurityIssue => "security"
  }

  /** A reported issue `{type, severity, message, line}`. */
  datatype Finding = Finding(kind: FindingType, severity: Severity, message: string, line: int)

  /** A detected design pattern `{name, confidence, message}`. */
  datatype Pattern = Pattern(name: string, confidence: Severity, message: string)

  /** A detected anti-pattern `{name, severity, message, line}`; `AntiName` gives the name. */
  datatype AntiPattern = AntiPattern(kind: AntiKind, severity: Severity, message: string, line: int)

  // ---------------------------------------------------------------- detectSyntaxErrors

  function BraceError(open: nat, close: nat): Finding {
    Finding(SyntaxError, Critical,
      "Mismatched curly braces: " + NatToString(open) + " opening, " + NatToString(close) + " closing", 1)
  }

  function ParenError(open: nat, close: nat): Finding {
    Finding(SyntaxError, Critical,
      "Mismatched parentheses: " + NatToString(open) + " opening, " + NatToString(close) + " closing", 1)
  }

  /**
   * `detectSyntaxErrors`: one critical error when the `{` and `}` counts differ, one when the
   * `(` and `)` counts differ; the semicolon scan that follows reports nothing.
   */
  function DetectSyntaxErrors(content: string): (r: seq<Finding>)
    ensures |r| <= 2
    ensures forall i :: 0 <= i < |r| ==> r[i].kind == SyntaxError && r[i].severity == Critical && r[i].line == 1
    ensures (CountChar(content, '{') != CountChar(content, '}')) <==>
              BraceError(CountChar(content, '{'), CountChar(content, '}')) in r
    ensures (CountChar(content, '(') != CountChar(content, ')')) <==>
              ParenError(CountChar(content, '('), CountChar(content, ')')) in r
    ensures CountChar(content, '{') == CountChar(content, '}') && CountChar(content, '(') == CountChar(content, ')')
            <==> r == []
  {
    var ob, cb := CountChar(content, '{'), CountChar(content, '}');
    var op, cp := CountChar(content, '('), CountChar(content, ')');
    var braces := if ob != cb then [BraceError(ob, cb)] else [];
    var parens := if op != cp then [ParenError(op, cp)] else [];
    assert BraceError(ob, cb).message[..16] == "Mismatched curly";
    assert ParenError(op, cp).message[..16] == "Mismatched paren";
    braces + parens
  }

  // ---------------------------------------------------------------- detectCallbackDepth

  /** Position `i` holds `(` and an arrow `=>` starts within the next 20 characters. */
  predicate OpensCallback(s: string, i: nat)
    requires i < |s|
  {
    s[i] == '(' && Contains(s[i..Min(i + 20, |s|)], "=>")
  }

  /** `currentDepth` after the first `k` characters; `)` never takes it below 0. */
  function RunningDepth(s: string, k: nat): nat
    requires k <= |s|
  {
    if k == 0 then 0
    else
      var d := RunningDepth(s, k - 1);
      if OpensCallback(s, k - 1) then d + 1
      else if s[k - 1] == ')' then (if d == 0 then 0 else d - 1)
      else d
  }

  /** The largest running depth over the first `k` characters. */
  function MaxDepth(s: string, k: nat): nat
    requires k <= |s|
  {
    if k == 0 then 0
    else
      var m, d := MaxDepth(s, k - 1), RunningDepth(s, k);
      if d > m then d else m
  }

  /** `detectCallbackDepth`: the character loop over `currentDepth` and `maxDepth`. */
  method DetectCallbackDepth(content: string) returns (maxDepth: nat)
    ensures maxDepth == MaxDepth(content, |content|)
  {
    maxDepth := 0;
    var currentDepth: nat := 0;
    for i := 0 to |content|
      invariant currentDepth == RunningDepth(content, i)
      invariant maxDepth == MaxDepth(content, i)
      invariant currentDepth <= maxDepth
    {
      if content[i] == '(' && Contains(content[i..Min(i + 20, |content|)], "=>") {
        currentDepth := currentDepth + 1;
        maxDepth := if maxDepth >= currentDepth then maxDepth else currentDepth;
      } else if content[i] == ')' {
        currentDepth := if currentDepth == 0 then 0 else currentDepth - 1;
      }
    }
  }

  /** The reported depth bounds the running depth at every step and is reached at one. */
  lemma {:induction false} MaxDepthIsMax(s: string, k: nat)
    requires k <= |s|
    ensures forall j :: 0 <= j <= k ==> RunningDepth(s, j) <= MaxDepth(s, k)
    ensures exists j :: 0 <= j <= k && RunningDepth(s, j) == MaxDepth(s, k)
  {
    if k > 0 {
      MaxDepthIsMax(s, k - 1);
      var m, d := MaxDepth(s, k - 1), RunningDepth(s, k);
      assert MaxDepth(s, k) == if d > m then d else m;
      var j0 :| 0 <= j0 <= k - 1 && RunningDepth(s, j0) == m;
      if d <= m {
        assert RunningDepth(s, j0) == MaxDepth(s, k);
      }
    } else {
      assert RunningDepth(s, 0) == MaxDepth(s, 0);
    }
  }

  /** Each step moves the running depth by at most one, so it never exceeds the step count. */
  lemma {:induction false} RunningDepthBound(s: string, k: nat)
    requires k <= |s|
    ensures RunningDepth(s, k) <= k && MaxDepth(s, k) <= k
  {
    if k > 0 {
      RunningDepthBound(s, k - 1);
    }
  }

  // ---------------------------------------------------------------- calculateCyclomaticComplexity

  function Sum(xs: seq<nat>): nat {
    if |xs| == 0 then 0 else Sum(xs[..|xs| - 1]) + xs[|xs| - 1]
  }

  /**
   * The match counts of the eight decision patterns: `regexCounts` stands for the six
   * patterns `if (`, `else if (`, `for (`, `while (`, `case ` and the ternary; `&&` and `||`
   * are counted literally.
   */
  function DecisionCounts(content: string, regexCounts: seq<nat>): seq<nat> {
    regexCounts + [CountOccurrences(content, "&&"), CountOccurrences(content, "||")]
  }

  /** `calculateCyclomaticComplexity`: 1 plus the matches of each pattern in turn. */
  method CyclomaticComplexity(content: string, regexCounts: seq<nat>) returns (complexity: nat)
    ensures complexity == 1 + Sum(DecisionCounts(content, regexCounts))
    ensures complexity >= 1
  {
    var decisions := DecisionCounts(content, regexCounts);
    complexity := 1;
    for i := 0 to |decisions|
      invariant complexity == 1 + Sum(decisions[..i])
    {
      assert decisions[..i + 1][..i] == decisions[..i];
      complexity := complexity + decisions[i];
    }
    assert decisions[..|decisions|] == decisions;
  }

  // ---------------------------------------------------------------- findDuplicateCodeBlocks

  /** `split('\n').filter(line => line.trim().length > 20)`. */
  function ConsideredLines(content: string): (r: seq<string>)
    ensures forall i :: 0 <= i < |r| ==> |Trim(r[i])| > 20
  {
    var r := Filter(Lines(content), (l: string) => |Trim(l)| > 20);
    assert forall i :: 0 <= i < |r| ==> r[i] in r;
    r
  }

  /** A repeated line with the index it was first seen at and its own index. */
  datatype Duplicate = Duplicate(line: string, first: nat, index: nat)

  datatype DupState = DupState(seen: map<string, nat>, dups: seq<Duplicate>)

  /** The `seen` map and `duplicates` list after the first `n` trimmed lines `ts`. */
  function DupScan(ts: seq<string>, n: nat): DupState
    requires n <= |ts|
  {
    if n == 0 then DupState(map[], [])
    else
      var st := DupScan(ts, n - 1);
      var t := ts[n - 1];
      if t in st.seen then DupState(st.seen, st.dups + [Duplicate(t, st.seen[t], n - 1)])
      else DupState(st.seen[t := n - 1], st.dups)
  }

  /** The trimmed texts of the considered lines. */
  function TrimmedLines(content: string): seq<string> {
    MapSeq(ConsideredLines(content), Trim)
  }

  /** `findDuplicateCodeBlocks`: the `forEach` that fills `seen` and `duplicates`. */
  method FindDuplicateCodeBlocks(content: string) returns (duplicates: seq<Duplicate>)
    ensures duplicates == DupScan(TrimmedLines(content), |TrimmedLines(content)|).dups
  {
    duplicates := ScanLines(ConsideredLines(content));
  }

  /** The `forEach` over the considered lines, with the trimmed text of each. */
  method ScanLines(lines: seq<string>) returns (duplicates: seq<Duplicate>)
    ensures duplicates == DupScan(MapSeq(lines, Trim), |lines|).dups
  {
    ghost var ts := MapSeq(lines, Trim);
    var seen: map<string, nat> := map[];
    duplicates := [];
    assert |ts| == |lines|;
    for index := 0 to |lines|
      invariant Scanned(ts, index, seen, duplicates)
    {
      seen, duplicates := VisitLine(ts, index, Trim(lines[index]), seen, duplicates);
    }
  }

  /** `seen` and `duplicates` are those after the first `n` trimmed lines. */
  predicate Scanned(ts: seq<string>, n: nat, seen: map<string, nat>, duplicates: seq<Duplicate>) {
    n <= |ts| && seen == DupScan(ts, n).seen && duplicates == DupScan(ts, n).dups
  }

  /** One visit of the `forEach`: a text already in `seen` is a duplicate, a new one is recorded. */
  method VisitLine(ghost ts: seq<string>, index: nat, trimmed: string, seen: map<string, nat>, duplicates: seq<Duplicate>)
    returns (seen': map<string, nat>, duplicates': seq<Duplicate>)
    requires index < |ts| && trimmed == ts[index] && Scanned(ts, index, seen, duplicates)
    ensures Scanned(ts, index + 1, seen', duplicates')
  {
    DupScanStep(ts, index, seen, duplicates);
    if trimmed in seen {
      seen', duplicates' := seen, duplicates + [Duplicate(trimmed, seen[trimmed], index)];
    } else {
      seen', duplicates' := seen[trimmed := index], duplicates;
    }
  }

  /** One step of the scan, from the state after `n` lines. */
  lemma DupScanStep(ts: seq<string>, n: nat, seen: map<string, nat>, dups: seq<Duplicate>)
    requires n < |ts| && seen == DupScan(ts, n).seen && dups == DupScan(ts, n).dups
    ensures ts[n] in seen ==> DupScan(ts, n + 1) == DupState(seen, dups + [Duplicate(ts[n], seen[ts[n]], n)])
    ensures ts[n] !in seen ==> DupScan(ts, n + 1) == DupState(seen[ts[n] := n], dups)
  {
  }

  /** The distinct texts among the first `n` entries. */
  function Texts(ts: seq<string>, n: nat): (r: set<string>)
    requires n <= |ts|
    ensures forall t :: t in r <==> exists i :: 0 <= i < n && ts[i] == t
  {
    if n == 0 then {} else Texts(ts, n - 1) + {ts[n - 1]}
  }

  /** `seen` holds each distinct text once. */
  lemma {:induction false} DupScanKeys(ts: seq<string>, n: nat)
    requires n <= |ts|
    ensures DupScan(ts, n).seen.Keys == Texts(ts, n)
  {
    if n > 0 {
      DupScanKeys(ts, n - 1);
    }
  }

  /** Every line went either to `seen` or to the duplicates. */
  lemma {:induction false} DupScanSize(ts: seq<string>, n: nat)
    requires n <= |ts|
    ensures |DupScan(ts, n).dups| + |DupScan(ts, n).seen| == n
  {
    if n > 0 {
      DupScanSize(ts, n - 1);
    }
  }

  /** `seen` records the first index of each text. */
  lemma {:induction false} DupScanFirst(ts: seq<string>, n: nat)
    requires n <= |ts|
    ensures forall t :: t in DupScan(ts, n).seen ==>
              DupScan(ts, n).seen[t] < n && ts[DupScan(ts, n).seen[t]] == t
              && forall i :: 0 <= i < DupScan(ts, n).seen[t] ==> ts[i] != t
  {
    if n > 0 {
      DupScanFirst(ts, n - 1);
      DupScanKeys(ts, n - 1);
      var st := DupScan(ts, n - 1);
      var t := ts[n - 1];
      var m := DupScan(ts, n).seen;
      if t !in st.seen {
        assert m == st.seen[t := n - 1];
        forall u | u in m
          ensures m[u] < n && ts[m[u]] == u && forall i :: 0 <= i < m[u] ==> ts[i] != u
        {
          if u == t {
            assert t !in Texts(ts, n - 1);
          } else {
            assert m[u] == st.seen[u];
          }
        }
      } else {
        assert m == st.seen;
      }
    }
  }

  /** Each duplicate pairs the first index of its text with a later index holding the same text. */
  lemma {:induction false} DupScanPairs(ts: seq<string>, n: nat)
    requires n <= |ts|
    ensures forall d :: d in DupScan(ts, n).dups ==>
              d.first < d.index < n && ts[d.first] == d.line && ts[d.index] == d.line
              && forall i :: 0 <= i < d.first ==> ts[i] != d.line
  {
    if n > 0 {
      DupScanPairs(ts, n - 1);
      DupScanFirst(ts, n - 1);
    }
  }

  /**
   * Only lines longer than 20 characters once trimmed are considered; the number of
   * duplicates is the number considered less the number of distinct trimmed texts.
   */
  lemma DuplicateCount(content: string)
    ensures forall i :: 0 <= i < |TrimmedLines(content)| ==> |TrimmedLines(content)[i]| > 20
    ensures var ts := TrimmedLines(content);
            |DupScan(ts, |ts|).dups| == |ts| - |Texts(ts, |ts|)|
  {
    var ts := TrimmedLines(content);
    DupScanKeys(ts, |ts|);
    DupScanSize(ts, |ts|);
  }

  // ---------------------------------------------------------------- detectAntiPatterns

  /** The first `class Name` match: its name and matched text. */
  datatype ClassMatch = ClassMatch(name: string, text: string)

  /**
   * What the regular expressions of `detectAntiPatterns` find: method-like declarations,
   * the first class declaration, long string literals, and the six regex decision counts.
   */
  datatype AntiScan = AntiScan(methodCount: nat, classMatch: Option<ClassMatch>, magicStrings: nat,
                               decisionCounts: seq<nat>)

  datatype AntiKind = GodObject | CallbackHell | SpaghettiCode | MagicStrings | CopyPaste

  /** The display name of each anti-pattern. */
  function AntiName(k: AntiKind): string {
    match k
    case GodObject => "God Object"
    case CallbackHell => "Callback Hell"
    case SpaghettiCode => "Spaghetti Code"
    case MagicStrings => "Magic Strings"
    case CopyPaste => "Copy-Paste Programming"
  }

  function Complexity(content: string, scan: AntiScan): nat {
    1 + Sum(DecisionCounts(content, scan.decisionCounts))
  }

  function DuplicateBlocks(content: string): seq<Duplicate> {
    DupScan(TrimmedLines(content), |TrimmedLines(content)|).dups
  }

  const GodObjectTail: string := " methods. Consider splitting responsibilities"
  const CallbackHellTail: string := "). Use async/await or Promises"
  const SpaghettiTail: string := "). Refactor into smaller functions"
  const MagicStringsTail: string := " magic strings found. Consider using constants"
  const CopyPasteTail: string := " duplicate code blocks found. Extract to reusable functions"

  /** A check that reports one anti-pattern of kind `k` and severity `sev` when `cond` holds. */
  predicate AtMostOne(r: seq<AntiPattern>, cond: bool, k: AntiKind, sev: Severity) {
    (cond ==> |r| == 1) && (!cond ==> r == [])
    && forall i :: 0 <= i < |r| ==> r[i].kind == k && r[i].severity == sev
  }

  function GodObjectCheck(content: string, scan: AntiScan): (r: seq<AntiPattern>)
    ensures AtMostOne(r, scan.classMatch.Some? && scan.methodCount > 15, GodObject, High)
  {
    if scan.classMatch.Some? && scan.methodCount > 15 then
      [AntiPattern(GodObject, High,
        "Class \"" + scan.classMatch.value.name + "\" has " + NatToString(scan.methodCount) + GodObjectTail,
        LineOf(content, scan.classMatch.value.text))]
    else []
  }

  function CallbackHellCheck(depth: nat): (r: seq<AntiPattern>)
    ensures AtMostOne(r, depth > 3, CallbackHell, High)
  {
    if depth > 3 then
      [AntiPattern(CallbackHell, High,
        "Deeply nested callbacks detected (depth: " + NatToString(depth) + CallbackHellTail, 1)]
    else []
  }

  function SpaghettiCheck(c: nat): (r: seq<AntiPattern>)
    ensures AtMostOne(r, c > 20, SpaghettiCode, High)
  {
    if c > 20 then
      [AntiPattern(SpaghettiCode, High, "High cyclomatic complexity (" + NatToString(c) + SpaghettiTail, 1)]
    else []
  }

  function MagicStringsCheck(scan: AntiScan): (r: seq<AntiPattern>)
    ensures AtMostOne(r, scan.magicStrings > 10, MagicStrings, Medium)
  {
    if scan.magicStrings > 10 then
      [AntiPattern(MagicStrings, Medium, NatToString(scan.magicStrings) + MagicStringsTail, 1)]
    else []
  }

  function CopyPasteCheck(n: nat): (r: seq<AntiPattern>)
    ensures AtMostOne(r, n > 3, CopyPaste, Medium)
  {
    if n > 3 then
      [AntiPattern(CopyPaste, Medium, NatToString(n) + CopyPasteTail, 1)]
    else []
  }

  /** The five checks in order, given the callback depth, the complexity and the duplicate count. */
  function AntiPatternsFrom(content: string, scan: AntiScan, depth: nat, complexity: nat, duplicates: nat)
    : seq<AntiPattern>
  {
    GodObjectCheck(content, scan) + CallbackHellCheck(depth) + SpaghettiCheck(complexity)
    + MagicStringsCheck(scan) + CopyPasteCheck(duplicates)
  }

  /** `detectAntiPatterns`. */
  function DetectAntiPatterns(content: string, scan: AntiScan): seq<AntiPattern> {
    AntiPatternsFrom(content, scan, MaxDepth(content, |content|), Complexity(content, scan), |DuplicateBlocks(content)|)
  }

  /** The number of anti-patterns of severity `sev`. */
  function CountSeverity(aps: seq<AntiPattern>, sev: Severity): nat {
    if |aps| == 0 then 0
    else CountSeverity(aps[..|aps| - 1], sev) + (if aps[|aps| - 1].severity == sev then 1 else 0)
  }

  lemma {:induction false} CountSeverityConcat(a: seq<AntiPattern>, b: seq<AntiPattern>, sev: Severity)
    ensures CountSeverity(a + b, sev) == CountSeverity(a, sev) + CountSeverity(b, sev)
    decreases |b|
  {
    if |b| == 0 {
      assert a + b == a;
    } else {
      var front := b[..|b| - 1];
      assert (a + b)[..|a + b| - 1] == a + front;
      CountSeverityConcat(a, front, sev);
    }
  }

  /** A check of severity `sev` contributes its length to `sev` and nothing to another severity. */
  lemma CountSeverityOne(r: seq<AntiPattern>, cond: bool, k: AntiKind, sev: Severity, other: Severity)
    requires AtMostOne(r, cond, k, sev) && other != sev
    ensures CountSeverity(r, sev) == |r| && CountSeverity(r, other) == 0 && |r| <= 1
  {
    if |r| == 1 {
      assert r[..0] == [];
    }
  }

  /**
   * Three checks can report a high-severity anti-pattern and two a medium one, and every
   * report is one or the other.
   */
  lemma AntiPatternTally(content: string, scan: AntiScan, depth: nat, complexity: nat, duplicates: nat)
    ensures var aps := AntiPatternsFrom(content, scan, depth, complexity, duplicates);
            CountSeverity(aps, High) <= 3 && CountSeverity(aps, Medium) <= 2
            && CountSeverity(aps, High) + CountSeverity(aps, Medium) == |aps|
  {
    TallyOfParts(GodObjectCheck(content, scan), CallbackHellCheck(depth), SpaghettiCheck(complexity),
                 MagicStringsCheck(scan), CopyPasteCheck(duplicates),
                 scan.classMatch.Some? && scan.methodCount > 15, depth > 3, complexity > 20,
                 scan.magicStrings > 10, duplicates > 3);
  }

  lemma TallyOfParts(g: seq<AntiPattern>, c: seq<AntiPattern>, sp: seq<AntiPattern>,
                     m: seq<AntiPattern>, cp: seq<AntiPattern>,
                     gc: bool, cc: bool, spc: bool, mc: bool, cpc: bool)
    requires AtMostOne(g, gc, GodObject, High) && AtMostOne(c, cc, CallbackHell, High)
    requires AtMostOne(sp, spc, SpaghettiCode, High) && AtMostOne(m, mc, MagicStrings, Medium)
    requires AtMostOne(cp, cpc, CopyPaste, Medium)
    ensures var aps := g + c + sp + m + cp;
            CountSeverity(aps, High) <= 3 && CountSeverity(aps, Medium) <= 2
            && CountSeverity(aps, High) + CountSeverity(aps, Medium) == |aps|
  {
    CountSeverityOne(g, gc, GodObject, High, Medium);
    CountSeverityOne(c, cc, CallbackHell, High, Medium);
    CountSeverityOne(sp, spc, SpaghettiCode, High, Medium);
    CountSeverityOne(m, mc, MagicStrings, Medium, High);
    CountSeverityOne(cp, cpc, CopyPaste, Medium, High);
    var a1 := g + c;
    var a2 := a1 + sp;
    var a3 := a2 + m;
    CountSeverityConcat(g, c, High);
    CountSeverityConcat(a1, sp, High);
    CountSeverityConcat(a2, m, High);
    CountSeverityConcat(a3, cp, High);
    CountSeverityConcat(g, c, Medium);
    CountSeverityConcat(a1, sp, Medium);
    CountSeverityConcat(a2, m, Medium);
    CountSeverityConcat(a3, cp, Medium);
  }

  predicate HasKind(aps: seq<AntiPattern>, k: AntiKind) {
    exists i :: 0 <= i < |aps| && aps[i].kind == k
  }

  /**
   * Callback hell is reported exactly when the callback depth exceeds 3, spaghetti code
   * exactly when the complexity exceeds 20, and copy-paste programming exactly when more
   * than three duplicate lines are found.
   */
  lemma AntiPatternTriggers(content: string, scan: AntiScan, depth: nat, complexity: nat, duplicates: nat)
    ensures HasKind(AntiPatternsFrom(content, scan, depth, complexity, duplicates), CallbackHell) <==> depth > 3
    ensures HasKind(AntiPatternsFrom(content, scan, depth, complexity, duplicates), SpaghettiCode) <==> complexity > 20
    ensures HasKind(AntiPatternsFrom(content, scan, depth, complexity, duplicates), CopyPaste) <==> duplicates > 3
  {
    TriggersOfParts(GodObjectCheck(content, scan), CallbackHellCheck(depth), SpaghettiCheck(complexity),
                    MagicStringsCheck(scan), CopyPasteCheck(duplicates),
                    scan.classMatch.Some? && scan.methodCount > 15, depth > 3, complexity > 20,
                    scan.magicStrings > 10, duplicates > 3);
  }

  lemma TriggersOfParts(g: seq<AntiPattern>, c: seq<AntiPattern>, sp: seq<AntiPattern>,
                        m: seq<AntiPattern>, cp: seq<AntiPattern>,
                        gc: bool, cc: bool, spc: bool, mc: bool, cpc: bool)
    requires AtMostOne(g, gc, GodObject, High) && AtMostOne(c, cc, CallbackHell, High)
    requires AtMostOne(sp, spc, SpaghettiCode, High) && AtMostOne(m, mc, MagicStrings, Medium)
    requires AtMostOne(cp, cpc, CopyPaste, Medium)
    ensures HasKind(g + c + sp + m + cp, CallbackHell) <==> cc
    ensures HasKind(g + c + sp + m + cp, SpaghettiCode) <==> spc
    ensures HasKind(g + c + sp + m + cp, CopyPaste) <==> cpc
  {
    HasKindParts(g, c, sp, m, cp, gc, cc, spc, mc, cpc, CallbackHell);
    HasKindParts(g, c, sp, m, cp, gc, cc, spc, mc, cpc, SpaghettiCode);
    HasKindParts(g, c, sp, m, cp, gc, cc, spc, mc, cpc, CopyPaste);
  }

  lemma HasKindParts(g: seq<AntiPattern>, c: seq<AntiPattern>, sp: seq<AntiPattern>,
                     m: seq<AntiPattern>, cp: seq<AntiPattern>,
                     gc: bool, cc: bool, spc: bool, mc: bool, cpc: bool, k: AntiKind)
    requires AtMostOne(g, gc, GodObject, High) && AtMostOne(c, cc, CallbackHell, High)
    requires AtMostOne(sp, spc, SpaghettiCode, High) && AtMostOne(m, mc, MagicStrings, Medium)
    requires AtMostOne(cp, cpc, CopyPaste, Medium)
    ensures HasKind(g + c + sp + m + cp, k)
            <==> (gc && k == GodObject) || (cc && k == CallbackHell) || (spc && k == SpaghettiCode)
                 || (mc && k == MagicStrings) || (cpc && k == CopyPaste)
  {
    HasKindOne(g, gc, GodObject, High, k);
    HasKindOne(c, cc, CallbackHell, High, k);
    HasKindOne(sp, spc, SpaghettiCode, High, k);
    HasKindOne(m, mc, MagicStrings, Medium, k);
    HasKindOne(cp, cpc, CopyPaste, Medium, k);
    var a1 := g + c;
    var a2 := a1 + sp;
    var a3 := a2 + m;
    HasKindConcat(g, c, k);
    HasKindConcat(a1, sp, k);
    HasKindConcat(a2, m, k);
    HasKindConcat(a3, cp, k);
  }

  lemma HasKindOne(r: seq<AntiPattern>, cond: bool, k: AntiKind, sev: Severity, k': AntiKind)
    requires AtMostOne(r, cond, k, sev)
    ensures HasKind(r, k') <==> cond && k == k'
  {
    if cond && k == k' {
      assert r[0].kind == k';
    }
  }

  lemma HasKindConcat(a: seq<AntiPattern>, b: seq<AntiPattern>, k: AntiKind)
    ensures HasKind(a + b, k) <==> HasKind(a, k) || HasKind(b, k)
  {
    if HasKind(a + b, k) {
      var i :| 0 <= i < |a + b| && (a + b)[i].kind == k;
      if i >= |a| {
        assert b[i - |a|].kind == k;
      }
    }
    if HasKind(a, k) {
      var i :| 0 <= i < |a| && a[i].kind == k;
      assert (a + b)[i].kind == k;
    }
    if HasKind(b, k) {
      var i :| 0 <= i < |b| && b[i].kind == k;
      assert (a + b)[|a| + i].kind == k;
    }
  }

  // ---------------------------------------------------------------- realTimeErrorDetection

  /** The first `\w+.\w+.\w+` match, a `/ 0`, and a `while (true)` with no later `break`. */
  datatype RuntimeScan = RuntimeScan(unsafeAccess: Option<string>, divisionByZero: bool, infiniteLoop: bool)

  /** `.forEach(…).push(` anywhere after, the number of DOM queries, and an await in a `for`. */
  datatype PerformanceScan = PerformanceScan(forEachPush: bool, domQueries: nat, asyncInLoop: bool)

  /** Which of the security regular expressions match. */
  datatype SecurityScan = SecurityScan(
    evalCall: bool, innerHtmlAssign: bool,
    passwordLiteral: bool, apiKeyLiteral: bool, secretLiteral: bool,
    sqlKeyword: bool, quoteConcat: bool)

  const UnsafeAccessMessage: string := "Potential \"Cannot read property of undefined\" error. Use optional chaining (?.)"
  const DivisionMessage: string := "Potential division by zero"
  const InfiniteLoopMessage: string := "Potential infinite loop detected (while(true) without break)"
  const ForEachPushMessage: string := "Use .map() instead of .forEach() with .push() for better performance"
  const DomQueriesTail: string := " DOM queries detected. Consider caching selectors"
  const AsyncLoopMessage: string := "Async operations in loop. Use Promise.all() for parallel execution"
  const EvalMessage: string := "eval() usage detected - major security risk. Avoid at all costs"
  const InnerHtmlMessage: string := "innerHTML assignment can lead to XSS attacks. Use textContent or sanitize input"
  const CredentialsMessage: string := "Hardcoded credentials detected. Use environment variables"
  const SqlMessage: string := "Potential SQL injection vulnerability. Use parameterized queries"

  /** The texts whose first line `findLineNumber` reports for four of the findings. */
  const DivisionNeedle: string := "/ 0"
  const WhileNeedle: string := "while"
  const EvalNeedle: string := "eval("
  const InnerHtmlNeedle: string := ".innerHTML"


  /** One finding when `cond` holds, none otherwise. */
  function When(cond: bool, f: Finding): (r: seq<Finding>)
    ensures |r| <= 1 && forall i :: 0 <= i < |r| ==> r[i] == f
  {
    if cond then [f] else []
  }

  function DetectRuntimeErrors(content: string, scan: RuntimeScan): (r: seq<Finding>)
    ensures |r| <= 3 && forall i :: 0 <= i < |r| ==> r[i].kind == RuntimeError
  {
    When(scan.unsafeAccess.Some?,
         Finding(RuntimeError, Medium, UnsafeAccessMessage,
                 if scan.unsafeAccess.Some? then LineOf(content, scan.unsafeAccess.value) else 1))
    + When(scan.divisionByZero, Finding(RuntimeError, High, DivisionMessage, LineOf(content, DivisionNeedle)))
    + When(scan.infiniteLoop, Finding(RuntimeError, Critical, InfiniteLoopMessage, LineOf(content, WhileNeedle)))
  }

  function DetectPerformanceIssues(scan: PerformanceScan): (r: seq<Finding>)
    ensures |r| <= 3 && forall i :: 0 <= i < |r| ==> r[i].kind == PerformanceIssue && r[i].line == 1
  {
    When(scan.forEachPush, Finding(PerformanceIssue, Medium, ForEachPushMessage, 1))
    + When(scan.domQueries > 5, Finding(PerformanceIssue, Medium, NatToString(scan.domQueries) + DomQueriesTail, 1))
    + When(scan.asyncInLoop, Finding(PerformanceIssue, High, AsyncLoopMessage, 1))
  }

  function CredentialFinding(): Finding {
    Finding(SecurityIssue, Critical, CredentialsMessage, 1)
  }

  function Flag(b: bool): nat {
    if b then 1 else 0
  }

  /** One entry per credential pattern that matches. */
  function CredentialFindings(scan: SecurityScan): (r: seq<Finding>)
    ensures |r| == Flag(scan.passwordLiteral) + Flag(scan.apiKeyLiteral) + Flag(scan.secretLiteral)
    ensures forall i :: 0 <= i < |r| ==> r[i] == CredentialFinding()
  {
    When(scan.passwordLiteral, CredentialFinding())
    + When(scan.apiKeyLiteral, CredentialFinding())
    + When(scan.secretLiteral, CredentialFinding())
  }

  function EvalFindings(content: string, scan: SecurityScan): seq<Finding> {
    When(scan.evalCall, Finding(SecurityIssue, Critical, EvalMessage, LineOf(content, EvalNeedle)))
  }

  function InnerHtmlFindings(content: string, scan: SecurityScan): seq<Finding> {
    When(scan.innerHtmlAssign, Finding(SecurityIssue, High, InnerHtmlMessage, LineOf(content, InnerHtmlNeedle)))
  }

  function SqlFindings(scan: SecurityScan): seq<Finding> {
    When(scan.sqlKeyword && scan.quoteConcat, Finding(SecurityIssue, Critical, SqlMessage, 1))
  }

  function DetectSecurityVulnerabilities(content: string, scan: SecurityScan): (r: seq<Finding>)
    ensures forall i :: 0 <= i < |r| ==> r[i].kind == SecurityIssue
  {
    EvalFindings(content, scan) + InnerHtmlFindings(content, scan) + CredentialFindings(scan) + SqlFindings(scan)
  }

  function IsCredential(f: Finding): bool {
    f.message == CredentialsMessage
  }

  /** Each matching credential pattern adds its own critical entry, so there are at most three. */
  lemma CredentialEntries(content: string, scan: SecurityScan)
    ensures var r := DetectSecurityVulnerabilities(content, scan);
            CountWhere(r, IsCredential)
            == Flag(scan.passwordLiteral) + Flag(scan.apiKeyLiteral) + Flag(scan.secretLiteral)
            <= 3
  {
    var a, b, c, d := EvalFindings(content, scan), InnerHtmlFindings(content, scan),
                      CredentialFindings(scan), SqlFindings(scan);
    MessagesDiffer();
    CredentialCountParts(a, b, c, d);
  }

  lemma MessagesDiffer()
    ensures EvalMessage != CredentialsMessage && InnerHtmlMessage != CredentialsMessage
    ensures SqlMessage != CredentialsMessage
  {
    assert |CredentialsMessage| == 57;
    assert |EvalMessage| == 63 && |InnerHtmlMessage| == 79 && |SqlMessage| == 64;
  }

  lemma CredentialCountParts(a: seq<Finding>, b: seq<Finding>, c: seq<Finding>, d: seq<Finding>)
    requires forall i :: 0 <= i < |a| ==> !IsCredential(a[i])
    requires forall i :: 0 <= i < |b| ==> !IsCredential(b[i])
    requires forall i :: 0 <= i < |c| ==> IsCredential(c[i])
    requires forall i :: 0 <= i < |d| ==> !IsCredential(d[i])
    ensures CountWhere(a + b + c + d, IsCredential) == |c|
  {
    FilterConcat(a + b + c, d, IsCredential);
    FilterConcat(a + b, c, IsCredential);
    FilterConcat(a, b, IsCredential);
  }

  /** `realTimeErrorDetection`: runtime and security findings are errors, performance ones warnings. */
  datatype RealTime = RealTime(errors: seq<Finding>, warnings: seq<Finding>)

  function RealTimeErrorDetection(content: string, rt: RuntimeScan, perf: PerformanceScan, sec: SecurityScan): RealTime {
    RealTime(DetectRuntimeErrors(content, rt) + DetectSecurityVulnerabilities(content, sec),
             DetectPerformanceIssues(perf))
  }

  // ---------------------------------------------------------------- performDeepAnalysis

  /** Which design-pattern regular expressions match. */
  datatype PatternScan = PatternScan(singleton: bool, factory: bool, observer: bool, modulePattern: bool)

  const SingletonPattern: Pattern :=
    Pattern("Singleton Pattern", High, "Singleton pattern detected - ensures only one instance exists")
  const FactoryPattern: Pattern :=
    Pattern("Factory Pattern", Medium, "Factory pattern detected - centralizes object creation")
  const ObserverPattern: Pattern :=
    Pattern("Observer Pattern", Medium, "Observer pattern detected - reactive programming approach")
  const ModulePattern: Pattern :=
    Pattern("Module Pattern", High, "Module pattern detected - proper encapsulation")

  function DetectDesignPatterns(scan: PatternScan): (r: seq<Pattern>)
    ensures |r| == Flag(scan.singleton) + Flag(scan.factory) + Flag(scan.observer) + Flag(scan.modulePattern)
  {
    (if scan.singleton then [SingletonPattern] else [])
    + (if scan.factory then [FactoryPattern] else [])
    + (if scan.observer then [ObserverPattern] else [])
    + (if scan.modulePattern then [ModulePattern] else [])
  }

  /**
   * Everything the regular-expression detectors find in one file; the semantic and type
   * checks build their patterns from the text itself, so their findings are taken as given.
   */
  datatype DeepScan = DeepScan(
    patterns: PatternScan,
    anti: AntiScan,
    semanticIssues: seq<Finding>,
    typeIssues: seq<Finding>,
    runtime: RuntimeScan,
    performance: PerformanceScan,
    security: SecurityScan)

  /** `syntaxAndSemanticAnalysis`'s warnings: type checks only for `.ts` and `.tsx` files. */
  function SemanticWarnings(fileName: string, scan: DeepScan): seq<Finding> {
    scan.semanticIssues
    + (if EndsWith(fileName, ".ts") || EndsWith(fileName, ".tsx") then scan.typeIssues else [])
  }

  function IsKind(k: FindingType): Finding -> bool {
    (f: Finding) => f.kind == k
  }

  /** As written: `performanceWarnings` is filtered out of `errors`. */
  function PerformanceWarningsAsWritten(rt: RealTime): seq<Finding> {
    Filter(rt.errors, IsKind(PerformanceIssue))
  }

  /** As written, no performance warning ever reaches the results, whatever the detector finds. */
  lemma PerformanceWarningsAlwaysEmpty(content: string, rtScan: RuntimeScan, perf: PerformanceScan, sec: SecurityScan)
    ensures PerformanceWarningsAsWritten(RealTimeErrorDetection(content, rtScan, perf, sec)) == []
    ensures perf.asyncInLoop ==> |RealTimeErrorDetection(content, rtScan, perf, sec).warnings| > 0
  {
    BucketsOfParts(DetectRuntimeErrors(content, rtScan), DetectSecurityVulnerabilities(content, sec));
  }

  /** Corrected: `performanceWarnings` is filtered out of `warnings`. */
  function PerformanceWarnings(rt: RealTime): seq<Finding> {
    Filter(rt.warnings, IsKind(PerformanceIssue))
  }

  /** Corrected, the performance warnings are exactly what the performance detector reports. */
  lemma PerformanceWarningsReported(content: string, rtScan: RuntimeScan, perf: PerformanceScan, sec: SecurityScan)
    ensures PerformanceWarnings(RealTimeErrorDetection(content, rtScan, perf, sec)) == DetectPerformanceIssues(perf)
  {
  }

  /** The runtime and security buckets are exactly the outputs of their detectors. */
  lemma ErrorBuckets(content: string, rtScan: RuntimeScan, perf: PerformanceScan, sec: SecurityScan)
    ensures var rt := RealTimeErrorDetection(content, rtScan, perf, sec);
            Filter(rt.errors, IsKind(RuntimeError)) == DetectRuntimeErrors(content, rtScan)
            && Filter(rt.errors, IsKind(SecurityIssue)) == DetectSecurityVulnerabilities(content, sec)
  {
    BucketsOfParts(DetectRuntimeErrors(content, rtScan), DetectSecurityVulnerabilities(content, sec));
  }

  lemma BucketsOfParts(a: seq<Finding>, b: seq<Finding>)
    requires forall i :: 0 <= i < |a| ==> a[i].kind == RuntimeError
    requires forall i :: 0 <= i < |b| ==> b[i].kind == SecurityIssue
    ensures Filter(a + b, IsKind(RuntimeError)) == a && Filter(a + b, IsKind(SecurityIssue)) == b
    ensures Filter(a + b, IsKind(PerformanceIssue)) == []
  {
    FilterLeft(a, b, IsKind(RuntimeError));
    FilterRight(a, b, IsKind(SecurityIssue));
    FilterNone(a, b, IsKind(PerformanceIssue));
  }

  /** The object `performDeepAnalysis` returns (the timestamp aside). */
  datatype DeepResults = DeepResults(
    fileName: string,
    patterns: seq<Pattern>,
    antiPatterns: seq<AntiPattern>,
    syntaxErrors: seq<Finding>,
    semanticWarnings: seq<Finding>,
    runtimeErrors: seq<Finding>,
    performanceWarnings: seq<Finding>,
    securityVulnerabilities: seq<Finding>,
    dependencies: Option<DependencyReport>,
    overallScore: int)

  /** The unclamped score of `calculateOverallScore`. */
  function RawScore(r: DeepResults): int {
    100 - |r.syntaxErrors| * 20
    - CountSeverity(r.antiPatterns, High) * 15
    - CountSeverity(r.antiPatterns, Medium) * 10
    - |r.securityVulnerabilities| * 25
    - |r.runtimeErrors| * 15
    - |r.semanticWarnings| * 5
    - |r.performanceWarnings| * 10
    + |r.patterns| * 5
  }

  /** The score does not look at the dependency report or at a previous score. */
  lemma RawScoreIgnoresDependencies(r: DeepResults, d: Option<DependencyReport>, score: int)
    ensures RawScore(r.(dependencies := d, overallScore := score)) == RawScore(r)
  {
  }

  /** `calculateOverallScore`: the successive `score -=` updates, then the clamp. */
  method CalculateOverallScore(r: DeepResults) returns (score: int)
    ensures score == Clamp100(RawScore(r))
    ensures 0 <= score <= 100
  {
    score := 100;
    score := score - |r.syntaxErrors| * 20;
    score := score - CountSeverity(r.antiPatterns, High) * 15;
    score := score - CountSeverity(r.antiPatterns, Medium) * 10;
    score := score - |r.securityVulnerabilities| * 25;
    score := score - |r.runtimeErrors| * 15;
    score := score - |r.semanticWarnings| * 5;
    score := score - |r.performanceWarnings| * 10;
    score := score + |r.patterns| * 5;
    score := Max(0, Min(100, score));
  }

  /** More findings of any kind, or fewer patterns, never raise the score. */
  lemma ScoreMonotone(a: DeepResults, b: DeepResults)
    requires |a.syntaxErrors| <= |b.syntaxErrors|
    requires CountSeverity(a.antiPatterns, High) <= CountSeverity(b.antiPatterns, High)
    requires CountSeverity(a.antiPatterns, Medium) <= CountSeverity(b.antiPatterns, Medium)
    requires |a.securityVulnerabilities| <= |b.securityVulnerabilities|
    requires |a.runtimeErrors| <= |b.runtimeErrors|
    requires |a.semanticWarnings| <= |b.semanticWarnings|
    requires |a.performanceWarnings| <= |b.performanceWarnings|
    requires |a.patterns| >= |b.patterns|
    ensures Clamp100(RawScore(b)) <= Clamp100(RawScore(a))
  {
  }

  /**
   * The overall score straight from the detectors' outputs, with the buckets as
   * `performDeepAnalysis` fills them (the performance bucket filtered out of the errors).
   */
  function DeepScore(content: string, fileName: string, scan: DeepScan): int {
    Clamp100(DeepRawScore(content, fileName, scan))
  }

  function DeepRawScore(content: string, fileName: string, scan: DeepScan): int {
    var rt := RealTimeErrorDetection(content, scan.runtime, scan.performance, scan.security);
    var anti := DetectAntiPatterns(content, scan.anti);
    100 - |DetectSyntaxErrors(content)| * 20
    - CountSeverity(anti, High) * 15 - CountSeverity(anti, Medium) * 10
    - |Filter(rt.errors, IsKind(SecurityIssue))| * 25
    - |Filter(rt.errors, IsKind(RuntimeError))| * 15
    - |SemanticWarnings(fileName, scan)| * 5
    - |PerformanceWarningsAsWritten(rt)| * 10
    + |DetectDesignPatterns(scan.patterns)| * 5
  }

  /**
   * As written, what the performance detector finds never moves the overall score: a file
   * whose only finding is an `await` inside a `for` loop still scores as if it had none.
   */
  lemma DeepScoreIgnoresPerformance(content: string, fileName: string, scan: DeepScan, perf: PerformanceScan)
    ensures DeepScore(content, fileName, scan) == DeepScore(content, fileName, scan.(performance := perf))
  {
    PerformanceWarningsAlwaysEmpty(content, scan.runtime, scan.performance, scan.security);
    PerformanceWarningsAlwaysEmpty(content, scan.runtime, perf, scan.security);
  }

  /** A record bucketed from the detectors' outputs scores `DeepRawScore` before the clamp. */
  lemma RawScoreOfFindings(r: DeepResults, content: string, fileName: string, scan: DeepScan)
    requires r.patterns == DetectDesignPatterns(scan.patterns)
    requires r.antiPatterns == DetectAntiPatterns(content, scan.anti)
    requires r.syntaxErrors == DetectSyntaxErrors(content)
    requires r.semanticWarnings == SemanticWarnings(fileName, scan)
    requires var rt := RealTimeErrorDetection(content, scan.runtime, scan.performance, scan.security);
             r.runtimeErrors == Filter(rt.errors, IsKind(RuntimeError))
             && r.performanceWarnings == PerformanceWarningsAsWritten(rt)
             && r.securityVulnerabilities == Filter(rt.errors, IsKind(SecurityIssue))
    ensures RawScore(r) == DeepRawScore(content, fileName, scan)
  {
  }

  /** `relevantCircular`: the cycles whose chain names the file. */
  function RelevantCircular(report: DependencyReport, fileName: string): DependencyReport {
    report.(circularDependencies := Filter(report.circularDependencies, (c: Circular) => fileName in c.files))
  }

  /** The detector stages of `performDeepAnalysis`, bucketed into one record before scoring. */
  method CollectFindings(content: string, fileName: string, scan: DeepScan) returns (r: DeepResults)
    ensures r.fileName == fileName
    ensures r.patterns == DetectDesignPatterns(scan.patterns)
    ensures r.antiPatterns == DetectAntiPatterns(content, scan.anti)
    ensures r.syntaxErrors == DetectSyntaxErrors(content)
    ensures r.semanticWarnings == SemanticWarnings(fileName, scan)
    ensures var rt := RealTimeErrorDetection(content, scan.runtime, scan.performance, scan.security);
            r.runtimeErrors == Filter(rt.errors, IsKind(RuntimeError))
            && r.performanceWarnings == PerformanceWarningsAsWritten(rt)
            && r.securityVulnerabilities == Filter(rt.errors, IsKind(SecurityIssue))
    ensures r.performanceWarnings == []
    ensures r.dependencies.None? && r.overallScore == 100
  {
    var rt := RealTimeErrorDetection(content, scan.runtime, scan.performance, scan.security);
    r := DeepResults(fileName, DetectDesignPatterns(scan.patterns), DetectAntiPatterns(content, scan.anti),
                     DetectSyntaxErrors(content), SemanticWarnings(fileName, scan),
                     Filter(rt.errors, IsKind(RuntimeError)), PerformanceWarningsAsWritten(rt),
                     Filter(rt.errors, IsKind(SecurityIssue)), None, 100);
    PerformanceWarningsAlwaysEmpty(content, scan.runtime, scan.performance, scan.security);
  }

  /**
   * `performDeepAnalysis`: the detectors' outputs bucketed into one record, the dependency
   * report only when more than one file is given, and the overall score of the record.
   */
  method PerformDeepAnalysis(content: string, fileName: string, allFiles: seq<SourceFile>,
                             scan: DeepScan, importsOf: string -> seq<string>) returns (r: DeepResults)
    ensures r.fileName == fileName
    ensures r.patterns == DetectDesignPatterns(scan.patterns)
    ensures r.antiPatterns == DetectAntiPatterns(content, scan.anti)
    ensures r.syntaxErrors == DetectSyntaxErrors(content)
    ensures r.semanticWarnings == SemanticWarnings(fileName, scan)
    ensures var rt := RealTimeErrorDetection(content, scan.runtime, scan.performance, scan.security);
            r.runtimeErrors == Filter(rt.errors, IsKind(RuntimeError))
            && r.performanceWarnings == PerformanceWarningsAsWritten(rt)
            && r.securityVulnerabilities == Filter(rt.errors, IsKind(SecurityIssue))
    ensures r.performanceWarnings == []
    ensures r.dependencies.None? <==> |allFiles| <= 1
    ensures r.dependencies.Some? ==>
              var g := GraphOf(allFiles, importsOf);
              r.dependencies.value.graph == g
              && r.dependencies.value.circularDependencies
                 == Filter(CircularsOf(g, KeysOf(allFiles)), (c: Circular) => fileName in c.files)
    ensures r.overallScore == Clamp100(RawScore(r)) && 0 <= r.overallScore <= 100
    ensures r.overallScore == DeepScore(content, fileName, scan)
  {
    var findings := CollectFindings(content, fileName, scan);
    var dependencies: Option<DependencyReport> := None;
    if |allFiles| > 1 {
      var global := AnalyzeDependencies(allFiles, importsOf);
      dependencies := Some(RelevantCircular(global, fileName));
    }
    var score := CalculateOverallScore(findings);
    r := DeepResults(fileName, findings.patterns, findings.antiPatterns, findings.syntaxErrors,
                     findings.semanticWarnings, findings.runtimeErrors, findings.performanceWarnings,
                     findings.securityVulnerabilities, dependencies, score);
    RawScoreIgnoresDependencies(findings, dependencies, score);
    RawScoreOfFindings(findings, content, fileName, scan);
  }

  /** Every cycle kept for a file passes through that file. */
  lemma RelevantCircularNamesFile(report: DependencyReport, fileName: string)
    ensures forall c :: c in RelevantCircular(report, fileName).circularDependencies ==>
              c in report.circularDependencies && fileName in c.files
  {
  }
}
