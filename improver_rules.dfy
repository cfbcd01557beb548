/**
 * The rewrite rules of the code improver that work on plain strings: the line-by-line
 * rules (`split('\n')`, a per-line map or filter, `join('\n')`), the DOCTYPE, React-import
 * and viewport insertions, and the "improved" download file name.
 */
module ImproverRules {
  import opened Common
  import opened Text

  // ---------------------------------------------------------------- shared line machinery

  /** A per-line map over the lines of a text, joined back with `\n`. */
  function MapLines(code: string, f: string -> string): string {
    Unlines(MapSeq(Lines(code), f))
  }

  /** As long as the map puts no newline into a line, the result has exactly the mapped lines. */
  lemma MapLinesShape(code: string, f: string -> string)
    requires NoNewline(MapSeq(Lines(code), f))
    ensures |Lines(MapLines(code, f))| == |Lines(code)|
    ensures forall i :: 0 <= i < |Lines(code)| ==> Lines(MapLines(code, f))[i] == f(Lines(code)[i])
  {
    SplitJoin(MapSeq(Lines(code), f), '\n');
  }

  /** Lines that come out of a split hold no newline. */
  lemma LinesNoNewline(code: string)
    ensures NoNewline(Lines(code))
  {
  }

  function Spaces(n: nat): (r: string)
    ensures |r| == n && forall i :: 0 <= i < n ==> r[i] == ' '
  {
    seq(n, _ => ' ')
  }

  // ---------------------------------------------------------------- replaceVarWithConstLet

  /** The word `w` stands at index `i` of `s` between two `\b` word boundaries. */
  predicate WordAt(s: string, w: string, i: int) {
    ContainsAt(s, w, i)
    && (i == 0 || !IsWordChar(s[i - 1]))
    && (i + |w| == |s| || !IsWordChar(s[i + |w|]))
  }

  /** The first whole-word occurrence of `w` at or after `from`, or -1. */
  function FirstWordFrom(s: string, w: string, from: nat): (r: int)
    ensures r == -1 || (from <= r && WordAt(s, w, r))
    ensures forall i :: from <= i && (r == -1 || i < r) ==> !WordAt(s, w, i)
    decreases |s| - from
  {
    if from + |w| > |s| then -1
    else if WordAt(s, w, from) then from
    else FirstWordFrom(s, w, from + 1)
  }

  /** `s.replace(/\bw\b/, repl)`: only the first whole-word occurrence is replaced. */
  function ReplaceFirstWord(s: string, w: string, repl: string): string {
    var i := FirstWordFrom(s, w, 0);
    if i < 0 then s else s[..i] + repl + s[i + |w|..]
  }

  /** `/var\s+(\w+)/` matches at index `i`. */
  predicate VarNameAt(s: string, i: nat) {
    ContainsAt(s, "var", i) && i + 3 < |s| && IsSpace(s[i + 3])
    && var k := SkipSpaces(s, i + 3); k < |s| && IsWordChar(s[k])
  }

  /** `line.match(/var\s+(\w+)/)?.[1]` is a (non-empty, hence truthy) name. */
  predicate HasVarName(s: string) {
    exists i: nat :: i < |s| && VarNameAt(s, i)
  }

  /** The keyword a `var` line is rewritten to. */
  function VarKeyword(line: string): string {
    if HasVarName(line) && Contains(line, "=") then "let" else "const"
  }

  /** The per-line rewrite of `replaceVarWithConstLet`. */
  function VarLine(line: string): string {
    if Contains(line, "var ") then ReplaceFirstWord(line, "var", VarKeyword(line)) else line
  }

  function ReplaceVarWithConstLet(code: string): string {
    MapLines(code, VarLine)
  }

  /** A replacement without newlines puts none into a line that had none. */
  lemma ReplaceFirstWordNoNewline(s: string, w: string, repl: string)
    requires '\n' !in s && '\n' !in repl
    ensures '\n' !in ReplaceFirstWord(s, w, repl)
  {
    var i := FirstWordFrom(s, w, 0);
    if i >= 0 {
      var r := s[..i] + repl + s[i + |w|..];
      forall j | 0 <= j < |r|
        ensures r[j] != '\n'
      {
        if j < i {
          assert r[j] == s[j];
        } else if j >= i + |repl| {
          assert r[j] == s[j - |repl| + |w|];
        }
      }
    }
  }

  /**
   * A line without "var " is left alone. On a line with "var ", the first whole-word `var`
   * (and nothing else) becomes `let` when the line names a variable and holds `=`, and
   * `const` otherwise; a line whose "var " is never a whole word is left alone too.
   */
  lemma VarLineEffect(line: string)
    ensures !Contains(line, "var ") ==> VarLine(line) == line
    ensures Contains(line, "var ") && FirstWordFrom(line, "var", 0) == -1 ==> VarLine(line) == line
    ensures Contains(line, "var ") && FirstWordFrom(line, "var", 0) >= 0 ==>
              var i := FirstWordFrom(line, "var", 0);
              (forall j :: 0 <= j < i ==> !WordAt(line, "var", j))
              && VarLine(line) == line[..i] + VarKeyword(line) + line[i + 3..]
    ensures VarKeyword(line) == "let" <==> HasVarName(line) && Contains(line, "=")
  {
  }

  /** `replaceVarWithConstLet` keeps the line count and rewrites each line on its own. */
  lemma ReplaceVarLines(code: string)
    ensures |Lines(ReplaceVarWithConstLet(code))| == |Lines(code)|
    ensures forall i :: 0 <= i < |Lines(code)| ==>
              Lines(ReplaceVarWithConstLet(code))[i] == VarLine(Lines(code)[i])
    ensures forall i :: 0 <= i < |Lines(code)| && !Contains(Lines(code)[i], "var ") ==>
              Lines(ReplaceVarWithConstLet(code))[i] == Lines(code)[i]
  {
    var ls := Lines(code);
    forall i | 0 <= i < |ls|
      ensures '\n' !in VarLine(ls[i])
    {
      ReplaceFirstWordNoNewline(ls[i], "var", VarKeyword(ls[i]));
    }
    MapLinesShape(code, VarLine);
  }

  // ---------------------------------------------------------------- addMissingSemicolons

  /** The test `addMissingSemicolons` applies to the trimmed line. */
  predicate NeedsSemicolon(line: string) {
    var t := Trim(line);
    |t| > 0
    && !EndsWith(t, ";") && !EndsWith(t, "{") && !EndsWith(t, "}") && !EndsWith(t, ",")
    && !StartsWith(t, "//") && !StartsWith(t, "/*") && !StartsWith(t, "*")
    && !Contains(t, "import ") && !Contains(t, "export ")
    && (Contains(t, "return ") || Contains(t, "const ") || Contains(t, "let ") || Contains(t, "var "))
  }

  function SemicolonLine(line: string): string {
    if NeedsSemicolon(line) then line + ";" else line
  }

  function AddMissingSemicolons(code: string): string {
    MapLines(code, SemicolonLine)
  }

  /** Once a semicolon is appended, the trimmed line ends with it. */
  lemma TrimAppendSemicolon(line: string)
    ensures EndsWith(Trim(line + ";"), ";")
  {
    var x := line + ";";
    var a := TrimStart(x);
    assert x[|x| - 1] == ';' && !IsSpace(';');
    assert |a| > 0;
    assert a[|a| - 1] == ';';
    TrimEndUnique(a, |a|);
    assert a[..|a|] == a;
  }

  lemma SemicolonLineNoNewline(line: string)
    requires '\n' !in line
    ensures '\n' !in SemicolonLine(line)
  {
  }

  /** Each line is kept, or gets exactly one `;` appended when it needs one; the count is kept. */
  lemma AddMissingSemicolonsLines(code: string)
    ensures |Lines(AddMissingSemicolons(code))| == |Lines(code)|
    ensures forall i :: 0 <= i < |Lines(code)| ==>
              Lines(AddMissingSemicolons(code))[i]
              == (if NeedsSemicolon(Lines(code)[i]) then Lines(code)[i] + ";" else Lines(code)[i])
  {
    var ls := Lines(code);
    forall i | 0 <= i < |ls|
      ensures '\n' !in SemicolonLine(ls[i])
    {
      SemicolonLineNoNewline(ls[i]);
    }
    MapLinesShape(code, SemicolonLine);
  }

  /** A second pass adds nothing: every line the first pass fixed now ends with `;`. */
  lemma AddMissingSemicolonsIdempotent(code: string)
    ensures AddMissingSemicolons(AddMissingSemicolons(code)) == AddMissingSemicolons(code)
  {
    var ls := Lines(code);
    var r := AddMissingSemicolons(code);
    AddMissingSemicolonsLines(code);
    var rs := Lines(r);
    forall i | 0 <= i < |rs|
      ensures SemicolonLine(rs[i]) == rs[i]
    {
      if NeedsSemicolon(ls[i]) {
        TrimAppendSemicolon(ls[i]);
      }
    }
    assert MapSeq(rs, SemicolonLine) == rs;
    JoinSplit(r, '\n');
  }

  // ---------------------------------------------------------------- removeTrailingWhitespace

  function RemoveTrailingWhitespace(code: string): string {
    MapLines(code, TrimEnd)
  }

  /** Each line becomes its `trimEnd`, and the line count is kept. */
  lemma RemoveTrailingWhitespaceLines(code: string)
    ensures |Lines(RemoveTrailingWhitespace(code))| == |Lines(code)|
    ensures forall i :: 0 <= i < |Lines(code)| ==>
              Lines(RemoveTrailingWhitespace(code))[i] == TrimEnd(Lines(code)[i])
  {
    var ls := Lines(code);
    forall i | 0 <= i < |ls|
      ensures '\n' !in TrimEnd(ls[i])
    {
      TrimSubset(ls[i], '\n');
    }
    MapLinesShape(code, TrimEnd);
  }

  lemma RemoveTrailingWhitespaceIdempotent(code: string)
    ensures RemoveTrailingWhitespace(RemoveTrailingWhitespace(code)) == RemoveTrailingWhitespace(code)
  {
    var r := RemoveTrailingWhitespace(code);
    RemoveTrailingWhitespaceLines(code);
    var rs := Lines(r);
    forall i | 0 <= i < |rs|
      ensures TrimEnd(rs[i]) == rs[i]
    {
      TrimEndIdempotent(Lines(code)[i]);
    }
    assert MapSeq(rs, TrimEnd) == rs;
    JoinSplit(r, '\n');
  }

  // ---------------------------------------------------------------- fixIndentation

  /** `endsWith('{')`, `endsWith('[')` or `endsWith('(')`. */
  predicate OpensBlock(t: string) {
    |t| > 0 && (t[|t| - 1] == '{' || t[|t| - 1] == '[' || t[|t| - 1] == '(')
  }

  /** `startsWith('}')`, `startsWith(']')` or `startsWith(')')`. */
  predicate ClosesBlock(t: string) {
    |t| > 0 && (t[0] == '}' || t[0] == ']' || t[0] == ')')
  }

  /** The level a line is printed at: one less (never below 0) when it starts with a closer. */
  function PrintLevel(level: nat, t: string): nat {
    if ClosesBlock(t) then Max(0, level - 1) else level
  }

  /** The level after a line: one more when it ends with an opener. */
  function NextLevel(level: nat, t: string): nat {
    var p := PrintLevel(level, t);
    if OpensBlock(t) then p + 1 else p
  }

  function IndentLine(level: nat, t: string): string {
    if |t| == 0 then [] else Spaces(level * 2) + t
  }

  /** The lines `fixIndentation` produces from `lines` when it starts at `level`. */
  function Reindent(lines: seq<string>, level: nat): (r: seq<string>)
    ensures |r| == |lines|
    decreases |lines|
  {
    if lines == [] then []
    else
      var t := Trim(lines[0]);
      [IndentLine(PrintLevel(level, t), t)] + Reindent(lines[1..], NextLevel(level, t))
  }

  function Reindented(code: string): string {
    Unlines(Reindent(Lines(code), 0))
  }

  /** `fixIndentation`: the running `indentLevel` loop, pushing one line per input line. */
  method FixIndentation(code: string, fileName: string) returns (r: string)
    ensures r == Reindented(code)
  {
    var lines := Lines(code);
    var level: nat := 0;
    var improved: seq<string> := [];
    var i := 0;
    assert lines[0..] == lines;
    while i < |lines|
      invariant Reindenting(lines, i, level, improved)
    {
      level, improved := IndentNext(lines, i, level, improved);
      i := i + 1;
    }
    assert lines[i..] == [];
    assert improved == Reindent(lines, 0);
    r := Unlines(improved);
  }

  /** After `i` lines at `level`, the output so far and the rest re-indented make the whole. */
  predicate Reindenting(lines: seq<string>, i: nat, level: nat, improved: seq<string>) {
    i <= |lines| && improved + Reindent(lines[i..], level) == Reindent(lines, 0)
  }

  /** One pass of the loop body: dedent on a closer, push the line, indent after an opener. */
  method IndentNext(lines: seq<string>, i: nat, level: nat, improved: seq<string>)
    returns (level': nat, improved': seq<string>)
    requires i < |lines| && Reindenting(lines, i, level, improved)
    ensures Reindenting(lines, i + 1, level', improved')
  {
    var t := Trim(lines[i]);
    StepReindent(lines, i, level, improved);
    level' := level;
    if ClosesBlock(t) {
      level' := Max(0, level' - 1);
    }
    assert level' == PrintLevel(level, t);
    if |t| > 0 {
      improved' := improved + [Spaces(level' * 2) + t];
    } else {
      improved' := improved + [[]];
    }
    assert improved' == improved + [IndentLine(PrintLevel(level, t), t)];
    if OpensBlock(t) {
      level' := level' + 1;
    }
    assert level' == NextLevel(level, t);
  }

  /** One more line of the loop: the output so far grows by the line's re-indented form. */
  lemma StepReindent(lines: seq<string>, i: nat, level: nat, done: seq<string>)
    requires i < |lines|
    requires done + Reindent(lines[i..], level) == Reindent(lines, 0)
    ensures var t := Trim(lines[i]);
            (done + [IndentLine(PrintLevel(level, t), t)]) + Reindent(lines[i + 1..], NextLevel(level, t))
            == Reindent(lines, 0)
  {
    assert lines[i..][1..] == lines[i + 1..];
  }

  /** The level input line `i` is printed at, when the lines start at `level`. */
  function LevelAt(lines: seq<string>, level: nat, i: nat): nat
    requires i < |lines|
    decreases i
  {
    var t := Trim(lines[0]);
    if i == 0 then PrintLevel(level, t) else LevelAt(lines[1..], NextLevel(level, t), i - 1)
  }

  /** Output line `i` is input line `i`, trimmed and indented at its level. */
  lemma {:induction false} ReindentAt(lines: seq<string>, level: nat, i: nat)
    requires i < |lines|
    ensures Reindent(lines, level)[i] == IndentLine(LevelAt(lines, level, i), Trim(lines[i]))
    decreases i
  {
    var t := Trim(lines[0]);
    if i == 0 {
      assert Reindent(lines, level)[0] == IndentLine(PrintLevel(level, t), t);
    } else {
      ReindentAt(lines[1..], NextLevel(level, t), i - 1);
      ReindentTail(lines, level, i);
      assert lines[1..][i - 1] == lines[i];
    }
  }

  /** Past the first line, the output continues with the rest re-indented from the next level. */
  lemma ReindentTail(lines: seq<string>, level: nat, i: nat)
    requires 0 < i < |lines|
    ensures Reindent(lines, level)[i] == Reindent(lines[1..], NextLevel(level, Trim(lines[0])))[i - 1]
  {
  }

  /** Indenting a trimmed line and trimming it again gives the trimmed line back. */
  lemma TrimIndentLine(k: nat, s: string)
    ensures Trim(IndentLine(k, Trim(s))) == Trim(s)
    ensures '\n' in IndentLine(k, Trim(s)) ==> '\n' in s
  {
    var t := Trim(s);
    TrimIdempotent(s);
    TrimSubset(s, '\n');
    if |t| > 0 {
      LeadingSpacesTrim(Spaces(k * 2), t);
      assert '\n' !in Spaces(k * 2);
    } else {
      assert IndentLine(k, t) == [];
    }
  }

  /** Every output line is blank exactly when its input line is, and trims to the same text. */
  lemma ReindentLines(lines: seq<string>, level: nat)
    ensures forall i :: 0 <= i < |lines| ==> Trim(Reindent(lines, level)[i]) == Trim(lines[i])
    ensures forall i :: 0 <= i < |lines| && '\n' !in lines[i] ==> '\n' !in Reindent(lines, level)[i]
  {
    forall i | 0 <= i < |lines|
      ensures Trim(Reindent(lines, level)[i]) == Trim(lines[i])
      ensures '\n' !in lines[i] ==> '\n' !in Reindent(lines, level)[i]
    {
      ReindentAt(lines, level, i);
      TrimIndentLine(LevelAt(lines, level, i), lines[i]);
    }
  }

  /** Only the trimmed text of the lines decides the output. */
  lemma {:induction false} ReindentDependsOnTrim(a: seq<string>, b: seq<string>, level: nat)
    requires |a| == |b|
    requires forall i :: 0 <= i < |a| ==> Trim(a[i]) == Trim(b[i])
    ensures Reindent(a, level) == Reindent(b, level)
    decreases |a|
  {
    if a != [] {
      assert Trim(a[0]) == Trim(b[0]);
      forall i | 0 <= i < |a| - 1
        ensures Trim(a[1..][i]) == Trim(b[1..][i])
      {
        assert a[1..][i] == a[i + 1];
        assert b[1..][i] == b[i + 1];
      }
      ReindentDependsOnTrim(a[1..], b[1..], NextLevel(level, Trim(a[0])));
    }
  }

  lemma ReindentNoNewline(lines: seq<string>, level: nat)
    requires NoNewline(lines)
    ensures NoNewline(Reindent(lines, level))
  {
    ReindentLines(lines, level);
  }

  /** `fixIndentation` keeps the line count and changes nothing but leading white space. */
  lemma ReindentedLines(code: string)
    ensures |Lines(Reindented(code))| == |Lines(code)|
    ensures forall i :: 0 <= i < |Lines(code)| ==> Trim(Lines(Reindented(code))[i]) == Trim(Lines(code)[i])
  {
    var ls := Lines(code);
    ReindentNoNewline(ls, 0);
    SplitJoin(Reindent(ls, 0), '\n');
    ReindentLines(ls, 0);
  }

  /** Re-indenting an already re-indented text changes nothing. */
  lemma ReindentedIdempotent(code: string)
    ensures Reindented(Reindented(code)) == Reindented(code)
  {
    var ls := Lines(code);
    var out := Reindent(ls, 0);
    ReindentNoNewline(ls, 0);
    SplitJoin(out, '\n');
    ReindentLines(ls, 0);
    ReindentDependsOnTrim(out, ls, 0);
  }

  // ---------------------------------------------------------------- removeUnusedImports

  predicate IsImportLine(line: string) {
    StartsWith(Trim(line), "import ")
  }

  /** What `/import\s+(?:{([^}]+)}|(\w+))/` captured: the braced list, or one default name. */
  datatype ImportClause = Braced(list: string) | Default(name: string)

  /** The maximal run of word characters starting at `k`. */
  function WordRun(s: string, k: nat): (r: string)
    requires k <= |s|
    ensures |r| <= |s| - k && r == s[k..k + |r|]
    ensures forall j :: 0 <= j < |r| ==> IsWordChar(r[j])
    ensures k + |r| == |s| || !IsWordChar(s[k + |r|])
    decreases |s| - k
  {
    if k < |s| && IsWordChar(s[k]) then [s[k]] + WordRun(s, k + 1) else []
  }

  /** The regular expression tried at an index where `import` stands. */
  function ImportClauseAt(s: string, j: nat): (r: Option<ImportClause>)
    requires ContainsAt(s, "import", j)
    ensures r.Some? && r.value.Default? ==> r.value.name != []
    ensures r.Some? && r.value.Braced? ==> r.value.list != [] && '}' !in r.value.list
  {
    var k := SkipSpaces(s, j + 6);
    if k == j + 6 || k == |s| then None
    else if s[k] == '{' then
      var rest := s[k + 1..];
      if '}' in rest && FirstIndexOfChar(rest, '}') > 0 then Some(Braced(rest[..FirstIndexOfChar(rest, '}')]))
      else None
    else if IsWordChar(s[k]) then Some(Default(WordRun(s, k)))
    else None
  }

  /** The leftmost match of the import pattern at or after `from`. */
  function ImportClauseFrom(s: string, from: nat): Option<ImportClause>
    decreases |s| - from
  {
    var j := IndexOfFrom(s, "import", from);
    if j < 0 then None
    else match ImportClauseAt(s, j)
      case Some(c) => Some(c)
      case None => ImportClauseFrom(s, j + 1)
  }

  /** `imp.split(' as ')[0]`: the text before the first " as ". */
  function BeforeAs(s: string): string {
    var i := IndexOf(s, " as ");
    if i < 0 then s else s[..i]
  }

  /** The names an import clause brings in, as `removeUnusedImports` tests them. */
  function ImportedNames(c: ImportClause): seq<string> {
    match c
    case Braced(list) =>
      var parts := Split(list, ',');
      seq(|parts|, i requires 0 <= i < |parts| => Trim(BeforeAs(Trim(parts[i]))))
    case Default(name) => [Trim(BeforeAs(name))]
  }

  /** An import line is kept when it cannot be parsed or when one of its names occurs in the body. */
  predicate KeepImport(body: string, line: string) {
    match ImportClauseFrom(line, 0)
    case None => true
    case Some(c) => exists n :: n in ImportedNames(c) && Contains(body, n)
  }

  function ImportLines(code: string): seq<string> {
    Filter(Lines(code), IsImportLine)
  }

  function CodeLines(code: string): seq<string> {
    Filter(Lines(code), (l: string) => !IsImportLine(l))
  }

  function RemoveUnusedImports(code: string): string {
    var body := Unlines(CodeLines(code));
    Unlines(Filter(ImportLines(code), (l: string) => KeepImport(body, l)) + [[]] + CodeLines(code))
  }

  /**
   * The kept import lines come first, then one blank line, then every non-import line in its
   * original order; an import line is dropped only when it parses and none of its names is used.
   */
  lemma RemoveUnusedImportsLines(code: string)
    ensures var body := Unlines(CodeLines(code));
            var kept := Filter(ImportLines(code), (l: string) => KeepImport(body, l));
            Lines(RemoveUnusedImports(code)) == kept + [[]] + CodeLines(code)
            && (forall l :: l in kept ==> l in Lines(code) && IsImportLine(l))
            && (forall l :: l in ImportLines(code) && l !in kept ==>
                  ImportClauseFrom(l, 0).Some?
                  && forall n :: n in ImportedNames(ImportClauseFrom(l, 0).value) ==> !Contains(body, n))
  {
    var body := Unlines(CodeLines(code));
    var kept := Filter(ImportLines(code), (l: string) => KeepImport(body, l));
    var all := kept + [[]] + CodeLines(code);
    forall i | 0 <= i < |all|
      ensures '\n' !in all[i]
    {
      if i < |kept| {
        assert all[i] in kept;
      } else if i > |kept| {
        assert all[i] in CodeLines(code);
      }
    }
    SplitJoin(all, '\n');
    forall l | l in ImportLines(code) && l !in kept
      ensures !KeepImport(body, l)
    {
      if KeepImport(body, l) {
        FilterKeepsPassing(ImportLines(code), (l: string) => KeepImport(body, l), l);
      }
    }
  }

  lemma {:induction false} FilterKeepsPassing<T>(s: seq<T>, keep: T -> bool, x: T)
    requires x in s && keep(x)
    ensures x in Filter(s, keep)
    decreases |s|
  {
    if s[0] != x {
      FilterKeepsPassing(s[1..], keep, x);
    }
  }

  // ---------------------------------------------------------------- removeCommentedCode

  /** A `//` comment line that looks like code. */
  predicate IsCommentedCode(line: string) {
    var t := Trim(line);
    StartsWith(t, "//")
    && (Contains(t, "function") || Contains(t, "const ") || Contains(t, "let ")
        || Contains(t, "var ") || Contains(t, "=") || Contains(t, "return"))
  }

  function KeptLines(code: string): seq<string> {
    Filter(Lines(code), (l: string) => !IsCommentedCode(l))
  }

  function RemoveCommentedCode(code: string): string {
    Unlines(KeptLines(code))
  }

  /**
   * Every line that is not commented-out code survives, in order, and none that is; when every
   * line goes the result is the empty text.
   */
  lemma RemoveCommentedCodeLines(code: string)
    ensures KeptLines(code) == [] ==> RemoveCommentedCode(code) == []
    ensures KeptLines(code) != [] ==> Lines(RemoveCommentedCode(code)) == KeptLines(code)
    ensures forall l :: l in Lines(RemoveCommentedCode(code)) ==> !IsCommentedCode(l)
  {
    var f := KeptLines(code);
    if |f| > 0 {
      forall i | 0 <= i < |f|
        ensures '\n' !in f[i]
      {
        assert f[i] in f;
      }
      SplitJoin(f, '\n');
    } else {
      assert Lines([]) == [[]];
      assert !StartsWith(Trim([]), "//");
    }
  }

  lemma RemoveCommentedCodeIdempotent(code: string)
    ensures RemoveCommentedCode(RemoveCommentedCode(code)) == RemoveCommentedCode(code)
  {
    var f := KeptLines(code);
    RemoveCommentedCodeLines(code);
    if f == [] {
      assert Lines([]) == [[]];
      assert !StartsWith(Trim([]), "//");
    } else {
      FilterIdempotent(Lines(code), (l: string) => !IsCommentedCode(l));
    }
  }

  // ---------------------------------------------------------------- addDoctype

  const DoctypeLine: string := "<!DOCTYPE html>\n"

  predicate HasDoctype(code: string) {
    StartsWith(Lower(Trim(code)), "<!doctype")
  }

  function AddDoctype(code: string): string {
    if HasDoctype(code) then code else DoctypeLine + code
  }

  /** The declaration is prepended exactly once: after it, the text starts with one. */
  lemma AddDoctypeIdempotent(code: string)
    ensures HasDoctype(AddDoctype(code))
    ensures AddDoctype(AddDoctype(code)) == AddDoctype(code)
    ensures !HasDoctype(code) ==> AddDoctype(code) == DoctypeLine + code
  {
    if !HasDoctype(code) {
      var x := DoctypeLine + code;
      assert x[..9] == "<!DOCTYPE";
      TrimKeepsPrefix(x, 9);
      LowerPrefix(Trim(x), 9);
      assert Lower("<!DOCTYPE") == "<!doctype";
    }
  }

  /** A text that starts with a non-space keeps, after trimming, every prefix ending in a non-space. */
  lemma TrimKeepsPrefix(x: string, n: nat)
    requires 0 < n <= |x| && !IsSpace(x[0]) && !IsSpace(x[n - 1])
    ensures n <= |Trim(x)| && Trim(x)[..n] == x[..n]
  {
    TrimStartUnique(x, 0);
    assert x[0..] == x;
    var t := TrimEnd(x);
    assert |t| >= n;
  }

  lemma LowerPrefix(s: string, n: nat)
    requires n <= |s|
    ensures Lower(s)[..n] == Lower(s[..n])
  {
  }

  // ---------------------------------------------------------------- addReactImport

  const ReactImportLine: string := "import React from 'react';"

  /** Where the import goes: at the first `import ` line, or at the top when there is none. */
  function ReactImportIndex(lines: seq<string>): (r: nat)
    ensures r < |lines| || (r == 0 && lines == [])
  {
    var k := FindIndexFrom(lines, IsImportLine, 0);
    if k < 0 then 0 else k
  }

  function WithReactImport(code: string): string {
    if Contains(code, "import React") then code
    else
      var ls := Lines(code);
      var k := ReactImportIndex(ls);
      Unlines(ls[..k] + [ReactImportLine] + ls[k..])
  }

  /** `addReactImport`: `findIndex`, then one `splice` (or `unshift`) into the line array. */
  method AddReactImport(code: string) returns (r: string)
    ensures r == WithReactImport(code)
  {
    if Contains(code, "import React") {
      return code;
    }
    var lines := Lines(code);
    var i := ImportIndex(lines);
    lines := lines[..i] + [ReactImportLine] + lines[i..];
    r := Unlines(lines);
  }

  /** The `findIndex` for the first `import ` line, with `-1` turned into the top of the file. */
  method ImportIndex(lines: seq<string>) returns (i: nat)
    ensures i == ReactImportIndex(lines)
  {
    i := 0;
    while i < |lines| && !IsImportLine(lines[i])
      invariant 0 <= i <= |lines|
      invariant forall j :: 0 <= j < i ==> !IsImportLine(lines[j])
    {
      i := i + 1;
    }
    FindIndexFirst(lines, IsImportLine, i);
    if i == |lines| {
      i := 0;
    }
  }

  /**
   * Without "import React", exactly one line is inserted, before the first `import ` line or
   * at the top, and every other line keeps its order; with it, nothing changes.
   */
  lemma WithReactImportLines(code: string)
    ensures Contains(code, "import React") ==> WithReactImport(code) == code
    ensures !Contains(code, "import React") ==>
              var ls := Lines(code);
              var k := ReactImportIndex(ls);
              Lines(WithReactImport(code)) == ls[..k] + [ReactImportLine] + ls[k..]
              && |Lines(WithReactImport(code))| == |ls| + 1
              && (forall j :: 0 <= j < k ==> !IsImportLine(ls[j]))
              && (k > 0 ==> IsImportLine(ls[k]))
  {
    if !Contains(code, "import React") {
      var ls := Lines(code);
      var k := ReactImportIndex(ls);
      assert '\n' !in ReactImportLine;
      InsertNoNewline(ls, k, ReactImportLine);
      SplitJoin(ls[..k] + [ReactImportLine] + ls[k..], '\n');
    }
  }

  lemma InsertNoNewline(ls: seq<string>, k: nat, x: string)
    requires k <= |ls| && NoNewline(ls) && '\n' !in x
    ensures NoNewline(ls[..k] + [x] + ls[k..])
  {
    var out := ls[..k] + [x] + ls[k..];
    forall i | 0 <= i < |out|
      ensures '\n' !in out[i]
    {
      if i < k {
        assert out[i] == ls[i];
      } else if i > k {
        assert out[i] == ls[i - 1];
      }
    }
  }

  lemma WithReactImportIdempotent(code: string)
    ensures Contains(WithReactImport(code), "import React")
    ensures WithReactImport(WithReactImport(code)) == WithReactImport(code)
  {
    if !Contains(code, "import React") {
      var ls := Lines(code);
      var k := ReactImportIndex(ls);
      var out := ls[..k] + [ReactImportLine] + ls[k..];
      assert ReactImportLine[..12] == "import React";
      PrefixContains(ReactImportLine, "import React");
      JoinContainsPart(out, '\n', k, "import React");
    }
  }

  // ---------------------------------------------------------------- addViewportMetaTag

  const ViewportTag: string := "<meta name=\"viewport\" content=\"width=device-width, initial-scale=1.0\">"

  /** A needle with no upper-case letter found in a text is found, at the same index, in its lower-case form. */
  lemma ContainsAtLower(s: string, p: string, i: int)
    requires ContainsAt(s, p, i) && Lower(p) == p
    ensures ContainsAt(Lower(s), p, i)
  {
    assert forall j :: 0 <= j < |p| ==> Lower(s)[i + j] == LowerChar(p[j]) == p[j];
    assert Lower(s)[i..i + |p|] == p;
  }

  lemma LowerContains(s: string, p: string)
    requires Contains(s, p) && Lower(p) == p
    ensures Contains(Lower(s), p) && IndexOf(Lower(s), p) <= IndexOf(s, p)
  {
    ContainsAtLower(s, p, IndexOf(s, p));
    ContainsAtContains(Lower(s), p, IndexOf(s, p));
  }

  /**
   * `s.replace(/p/i, ins)` for a lower-case literal `p` the text is known to hold: the first
   * case-insensitive occurrence of `p` is replaced by `ins`.
   */
  function ReplaceFirstIgnoreCase(s: string, p: string, ins: string): (r: string)
    requires Lower(p) == p && Contains(s, p)
    ensures |r| == |s| - |p| + |ins|
    ensures var i := IndexOf(Lower(s), p);
            ContainsAt(Lower(s), p, i)
            && (forall j :: 0 <= j < i ==> !ContainsAt(Lower(s), p, j))
            && r == s[..i] + ins + s[i + |p|..]
  {
    LowerContains(s, p);
    var i := IndexOf(Lower(s), p);
    s[..i] + ins + s[i + |p|..]
  }

  /** What the replacement text holds, the result holds. */
  lemma ReplaceFirstIgnoreCaseContains(s: string, p: string, ins: string, q: string)
    requires Lower(p) == p && Contains(s, p) && Contains(ins, q)
    ensures Contains(ReplaceFirstIgnoreCase(s, p, ins), q)
  {
    LowerContains(s, p);
    var i := IndexOf(Lower(s), p);
    ContainsInMiddle(s[..i], ins, s[i + |p|..], q);
  }

  const HeadInsert: string := "<head>\n    " + ViewportTag
  const HeadCloseInsert: string := "    " + ViewportTag + "\n</head>"

  /**
   * `addViewportMetaTag`: when the text holds `<head>`, the first case-insensitive `<head>`
   * becomes `<head>` followed by the tag; otherwise, when it holds `</head>`, the tag goes
   * before the first case-insensitive `</head>`; otherwise the text is unchanged.
   */
  function AddViewportMetaTag(code: string): (r: string)
    ensures Contains(code, "<head>") ==> |r| == |code| + 5 + |ViewportTag|
    ensures Contains(code, "<head>") ==>
              var i := IndexOf(Lower(code), "<head>");
              ContainsAt(Lower(code), "<head>", i)
              && (forall j :: 0 <= j < i ==> !ContainsAt(Lower(code), "<head>", j))
              && r == code[..i] + HeadInsert + code[i + 6..]
    ensures !Contains(code, "<head>") && Contains(code, "</head>") ==> |r| == |code| + 5 + |ViewportTag|
    ensures !Contains(code, "<head>") && Contains(code, "</head>") ==>
              var i := IndexOf(Lower(code), "</head>");
              ContainsAt(Lower(code), "</head>", i)
              && (forall j :: 0 <= j < i ==> !ContainsAt(Lower(code), "</head>", j))
              && r == code[..i] + HeadCloseInsert + code[i + 7..]
    ensures !Contains(code, "<head>") && !Contains(code, "</head>") ==> r == code
  {
    assert Lower("<head>") == "<head>" && Lower("</head>") == "</head>";
    if Contains(code, "<head>") then ReplaceFirstIgnoreCase(code, "<head>", HeadInsert)
    else if Contains(code, "</head>") then ReplaceFirstIgnoreCase(code, "</head>", HeadCloseInsert)
    else code
  }

  /** Whenever the text has a head tag, the result holds the viewport tag. */
  lemma AddViewportMetaTagInserts(code: string)
    ensures Contains(code, "<head>") || Contains(code, "</head>") ==> Contains(AddViewportMetaTag(code), ViewportTag)
  {
    assert Lower("<head>") == "<head>" && Lower("</head>") == "</head>";
    if Contains(code, "<head>") {
      assert HeadInsert[11..] == ViewportTag;
      ContainsAtContains(HeadInsert, ViewportTag, 11);
      ReplaceFirstIgnoreCaseContains(code, "<head>", HeadInsert, ViewportTag);
    } else if Contains(code, "</head>") {
      assert HeadCloseInsert[4..4 + |ViewportTag|] == ViewportTag;
      ContainsAtContains(HeadCloseInsert, ViewportTag, 4);
      ReplaceFirstIgnoreCaseContains(code, "</head>", HeadCloseInsert, ViewportTag);
    }
  }

  // ---------------------------------------------------------------- generateDownloadableFile

  /** The index of the last `.` in a name, or -1. */
  function LastDot(s: string): (r: int)
    ensures r == -1 || (0 <= r < |s| && s[r] == '.' && '.' !in s[r + 1..])
    ensures r == -1 ==> '.' !in s
  {
    if s == [] then -1
    else if s[|s| - 1] == '.' then |s| - 1
    else
      var r := LastDot(s[..|s| - 1]);
      LastDotStep(s, r);
      r
  }

  /** A last character other than `.` leaves the last dot of the front where it was. */
  lemma LastDotStep(s: string, r: int)
    requires |s| > 0 && s[|s| - 1] != '.'
    requires r == -1 || (0 <= r < |s| - 1 && s[r] == '.' && '.' !in s[..|s| - 1][r + 1..])
    requires r == -1 ==> '.' !in s[..|s| - 1]
    ensures r == -1 || (0 <= r < |s| && s[r] == '.' && '.' !in s[r + 1..])
    ensures r == -1 ==> '.' !in s
  {
    SnocSplit(s);
    if r >= 0 {
      assert s[r + 1..] == s[..|s| - 1][r + 1..] + [s[|s| - 1]];
    }
  }

  /**
   * `fileName.replace(/(\.[^.]+)$/, '.improved$1')`: `.improved` goes in front of the final
   * extension; a name whose last dot ends it, or that has no dot, is kept.
   */
  function ImprovedFileName(name: string): (r: string)
    ensures (exists i :: 0 <= i < |name| - 1 && name[i] == '.' && '.' !in name[i + 1..]) <==> r != name
    ensures r != name ==> exists i :: 0 <= i < |name| - 1 && name[i] == '.' && '.' !in name[i + 1..]
                                     && r == name[..i] + ".improved" + name[i..]
  {
    var d := LastDot(name);
    if d >= 0 && d < |name| - 1 then
      assert |name[..d] + ".improved" + name[d..]| != |name|;
      name[..d] + ".improved" + name[d..]
    else
      assert forall i :: 0 <= i < |name| - 1 && name[i] == '.' ==> '.' in name[i + 1..] by {
        forall i | 0 <= i < |name| - 1 && name[i] == '.'
          ensures '.' in name[i + 1..]
        {
          assert d != -1;
          assert name[d] == '.';
          assert d > i;
          assert name[i + 1..][d - i - 1] == '.';
        }
      }
      name
  }

  /** The last dot of `base.ext`, when `ext` has none, is the one before `ext`. */
  lemma LastDotOf(base: string, ext: string)
    requires '.' !in ext
    ensures LastDot(base + "." + ext) == |base|
  {
    var s := base + "." + ext;
    var r := LastDot(s);
    assert s[|base|] == '.';
    assert s[|base| + 1..] == ext;
  }

  /** `.improved` goes right before the final extension, however many dots the base holds. */
  lemma ImprovedFileNameOf(base: string, ext: string)
    requires |ext| > 0 && '.' !in ext
    ensures ImprovedFileName(base + "." + ext) == base + ".improved." + ext
  {
    var s := base + "." + ext;
    LastDotOf(base, ext);
    ImprovedAtLastDot(s);
    assert s[..|base|] == base;
    assert s[|base|..] == "." + ext;
    assert base + ".improved" + ("." + ext) == base + ".improved." + ext;
  }

  /** With a dot before the last character, `.improved` goes in front of the last dot. */
  lemma ImprovedAtLastDot(name: string)
    requires 0 <= LastDot(name) < |name| - 1
    ensures ImprovedFileName(name) == name[..LastDot(name)] + ".improved" + name[LastDot(name)..]
  {
  }
}
