/**
 * The string primitives the analyzers are written with: JavaScript's `split`, `join`,
 * `trim`/`trimStart`/`trimEnd`, `includes`, `indexOf`, `startsWith`, `endsWith`,
 * ASCII `toLowerCase`, literal match counts and the "first line containing" search.
 */
module Text {

  /** The code points JavaScript's `trim` removes and `\s` matches (WhiteSpace and LineTerminator). */
  predicate IsSpace(c: char) {
    c == ' ' || c == '\t' || c == '\n' || c == '\r' || c == '\U{B}' || c == '\U{C}'
    || c == '\U{A0}' || c == '\U{1680}' || ('\U{2000}' <= c <= '\U{200A}')
    || c == '\U{2028}' || c == '\U{2029}' || c == '\U{202F}' || c == '\U{205F}'
    || c == '\U{3000}' || c == '\U{FEFF}'
  }

  /** The characters of the regular-expression class `\w`. */
  predicate IsWordChar(c: char) {
    ('a' <= c <= 'z') || ('A' <= c <= 'Z') || ('0' <= c <= '9') || c == '_'
  }

  predicate IsAsciiLetter(c: char) {
    ('a' <= c <= 'z') || ('A' <= c <= 'Z')
  }

  function LowerChar(c: char): (r: char)
    ensures IsAsciiLetter(c) ==> 'a' <= r <= 'z'
    ensures !('A' <= c <= 'Z') ==> r == c
  {
    if 'A' <= c <= 'Z' then (c as int + 32) as char else c
  }

  /** `toLowerCase` restricted to ASCII letters. */
  function Lower(s: string): (r: string)
    ensures |r| == |s|
    ensures forall i :: 0 <= i < |s| ==> r[i] == LowerChar(s[i])
  {
    seq(|s|, i requires 0 <= i < |s| => LowerChar(s[i]))
  }

  predicate StartsWith(s: string, p: string) {
    |p| <= |s| && s[..|p|] == p
  }

  predicate EndsWith(s: string, p: string) {
    |p| <= |s| && s[|s| - |p|..] == p
  }

  /** `p` occurs in `s` at index `i`. */
  predicate ContainsAt(s: string, p: string, i: int) {
    0 <= i && i + |p| <= |s| && s[i..i + |p|] == p
  }

  /** `s.indexOf(p, from)`: the first index at or after `from` where `p` occurs, or -1. */
  function IndexOfFrom(s: string, p: string, from: nat): (r: int)
    ensures r == -1 || (from <= r && ContainsAt(s, p, r))
    ensures forall i :: from <= i && (r == -1 || i < r) ==> !ContainsAt(s, p, i)
    decreases |s| - from
  {
    if from + |p| > |s| then -1
    else if s[from..from + |p|] == p then from
    else IndexOfFrom(s, p, from + 1)
  }

  function IndexOf(s: string, p: string): int {
    IndexOfFrom(s, p, 0)
  }

  /** `s.includes(p)`. */
  predicate Contains(s: string, p: string) {
    IndexOf(s, p) >= 0
  }

  /** `includes` holds exactly when the needle occurs at some index. */
  lemma ContainsIff(s: string, p: string)
    ensures Contains(s, p) <==> exists i :: ContainsAt(s, p, i)
  {
    if exists i :: ContainsAt(s, p, i) {
      var i :| ContainsAt(s, p, i);
      assert IndexOf(s, p) != -1;
    }
  }

  lemma ContainsAtContains(s: string, p: string, i: int)
    requires ContainsAt(s, p, i)
    ensures Contains(s, p)
  {
    ContainsIff(s, p);
  }

  /** A needle found inside a part is found, at a shifted index, inside any text around it. */
  lemma {:induction false} ContainsInMiddle(a: string, b: string, c: string, p: string)
    requires Contains(b, p)
    ensures Contains(a + b + c, p)
  {
    var i := IndexOf(b, p);
    assert (a + b + c)[|a| + i..|a| + i + |p|] == b[i..i + |p|];
    ContainsAtContains(a + b + c, p, |a| + i);
  }

  lemma PrefixContains(s: string, p: string)
    requires StartsWith(s, p)
    ensures Contains(s, p)
  {
    ContainsAtContains(s, p, 0);
  }

  /** Non-overlapping occurrences of a literal string, as `s.match(/p/g).length` counts them. */
  function CountOccurrences(s: string, p: string): nat
    requires |p| > 0
    decreases |s|
  {
    var i := IndexOf(s, p);
    if i < 0 then 0 else 1 + CountOccurrences(s[i + |p|..], p)
  }

  /** The number of occurrences of one character. */
  function CountChar(s: string, c: char): nat {
    multiset(s)[c]
  }

  // ---------------------------------------------------------------- trim

  /** The first index at or after `k` that does not hold white space (or `|s|`). */
  function SkipSpaces(s: string, k: nat): (r: nat)
    requires k <= |s|
    ensures k <= r <= |s|
    ensures forall i :: k <= i < r ==> IsSpace(s[i])
    ensures r == |s| || !IsSpace(s[r])
    decreases |s| - k
  {
    if k < |s| && IsSpace(s[k]) then SkipSpaces(s, k + 1) else k
  }

  /** The smallest index `r <= k` such that `s[r..k]` is all white space. */
  function SkipSpacesBack(s: string, k: nat): (r: nat)
    requires k <= |s|
    ensures r <= k
    ensures forall i :: r <= i < k ==> IsSpace(s[i])
    ensures r == 0 || !IsSpace(s[r - 1])
  {
    if k > 0 && IsSpace(s[k - 1]) then SkipSpacesBack(s, k - 1) else k
  }

  /** The two properties of `SkipSpaces` determine it. */
  lemma SkipSpacesUnique(s: string, k: nat, m: nat)
    requires k <= m <= |s|
    requires forall i :: k <= i < m ==> IsSpace(s[i])
    requires m == |s| || !IsSpace(s[m])
    ensures SkipSpaces(s, k) == m
  {
  }

  /** The two properties of `SkipSpacesBack` determine it. */
  lemma SkipSpacesBackUnique(s: string, k: nat, m: nat)
    requires m <= k <= |s|
    requires forall i :: m <= i < k ==> IsSpace(s[i])
    requires m == 0 || !IsSpace(s[m - 1])
    ensures SkipSpacesBack(s, k) == m
  {
  }

  /** `trimStart`. */
  function TrimStart(s: string): (r: string)
    ensures |r| <= |s| && r == s[|s| - |r|..]
    ensures forall i :: 0 <= i < |s| - |r| ==> IsSpace(s[i])
    ensures |r| == 0 || !IsSpace(r[0])
  {
    s[SkipSpaces(s, 0)..]
  }

  /** `trimEnd`. */
  function TrimEnd(s: string): (r: string)
    ensures |r| <= |s| && r == s[..|r|]
    ensures forall i :: |r| <= i < |s| ==> IsSpace(s[i])
    ensures |r| == 0 || !IsSpace(r[|r| - 1])
  {
    s[..SkipSpacesBack(s, |s|)]
  }

  /** `trim`. */
  function Trim(s: string): string {
    TrimEnd(TrimStart(s))
  }

  /** `trimEnd` is determined by its two defining properties. */
  lemma TrimEndUnique(s: string, k: nat)
    requires k <= |s|
    requires forall i :: k <= i < |s| ==> IsSpace(s[i])
    requires k == 0 || !IsSpace(s[k - 1])
    ensures TrimEnd(s) == s[..k]
  {
    SkipSpacesBackUnique(s, |s|, k);
  }

  /** `trimStart` is determined by its two defining properties. */
  lemma TrimStartUnique(s: string, k: nat)
    requires k <= |s|
    requires forall i :: 0 <= i < k ==> IsSpace(s[i])
    requires k == |s| || !IsSpace(s[k])
    ensures TrimStart(s) == s[k..]
  {
    SkipSpacesUnique(s, 0, k);
  }

  lemma TrimEndIdempotent(s: string)
    ensures TrimEnd(TrimEnd(s)) == TrimEnd(s)
  {
    var t := TrimEnd(s);
    TrimEndUnique(t, |t|);
    assert t[..|t|] == t;
  }

  lemma TrimStartIdempotent(s: string)
    ensures TrimStart(TrimStart(s)) == TrimStart(s)
  {
    var t := TrimStart(s);
    TrimStartUnique(t, 0);
    assert t[0..] == t;
  }

  /** A trimmed text neither starts nor ends with a space. */
  lemma TrimShape(s: string)
    ensures |Trim(s)| == 0 || (!IsSpace(Trim(s)[0]) && !IsSpace(Trim(s)[|Trim(s)| - 1]))
  {
    var a := TrimStart(s);
    var t := TrimEnd(a);
    assert t == a[..|t|];
    if |t| > 0 {
      assert t[0] == a[0];
    }
  }

  lemma TrimIdempotent(s: string)
    ensures Trim(Trim(s)) == Trim(s)
  {
    var t := Trim(s);
    TrimShape(s);
    TrimStartUnique(t, 0);
    assert t[0..] == t;
    assert TrimStart(t) == t;
    TrimEndUnique(t, |t|);
    assert t[..|t|] == t;
  }

  /** Trimming a text that has an extra run of leading spaces gives the same result. */
  lemma LeadingSpacesTrimStart(w: string, t: string)
    requires forall i :: 0 <= i < |w| ==> IsSpace(w[i])
    ensures TrimStart(w + t) == TrimStart(t)
  {
    var k := SkipSpaces(t, 0);
    SkipSpacesUnique(w + t, 0, |w| + k);
    assert (w + t)[|w| + k..] == t[k..];
  }

  lemma LeadingSpacesTrim(w: string, t: string)
    requires forall i :: 0 <= i < |w| ==> IsSpace(w[i])
    ensures Trim(w + t) == Trim(t)
  {
    LeadingSpacesTrimStart(w, t);
  }

  /** Every character of a trimmed text is a character of the original. */
  lemma TrimSubset(s: string, c: char)
    ensures c in Trim(s) ==> c in s
    ensures c in TrimEnd(s) ==> c in s
  {
    var a := TrimStart(s);
    var t := TrimEnd(a);
    if c in t {
      var j :| 0 <= j < |t| && t[j] == c;
      assert a[j] == c;
      assert s[|s| - |a| + j] == c;
    }
    var e := TrimEnd(s);
    if c in e {
      var j :| 0 <= j < |e| && e[j] == c;
      assert s[j] == c;
    }
  }

  // ---------------------------------------------------------------- split and join

  function FirstIndexOfChar(s: string, c: char): (r: nat)
    requires c in s
    ensures r < |s| && s[r] == c && c !in s[..r]
  {
    if s[0] == c then 0 else
      var k := FirstIndexOfChar(s[1..], c);
      assert s[..k + 1] == [s[0]] + s[1..][..k];
      k + 1
  }

  /** `s.split(sep)` for a one-character separator: always at least one piece, none holding `sep`. */
  function Split(s: string, sep: char): (r: seq<string>)
    ensures |r| >= 1
    ensures forall i :: 0 <= i < |r| ==> sep !in r[i]
    decreases |s|
  {
    if sep !in s then [s]
    else
      var k := FirstIndexOfChar(s, sep);
      [s[..k]] + Split(s[k + 1..], sep)
  }

  /** `parts.join(sep)`; the join of no parts is the empty string. */
  function Join(parts: seq<string>, sep: char): string {
    if |parts| == 0 then []
    else if |parts| == 1 then parts[0]
    else parts[0] + [sep] + Join(parts[1..], sep)
  }

  lemma {:induction false} JoinSplit(s: string, sep: char)
    ensures Join(Split(s, sep), sep) == s
    decreases |s|
  {
    if sep in s {
      var k := FirstIndexOfChar(s, sep);
      var parts := Split(s[k + 1..], sep);
      JoinSplit(s[k + 1..], sep);
      assert Split(s, sep) == [s[..k]] + parts;
      JoinCons(s[..k], parts, sep);
      assert s == s[..k] + [sep] + s[k + 1..];
    }
  }

  /** Joining a first part onto at least one more puts a separator between them. */
  lemma JoinCons(p: string, parts: seq<string>, sep: char)
    requires |parts| >= 1
    ensures Join([p] + parts, sep) == p + [sep] + Join(parts, sep)
  {
    assert ([p] + parts)[1..] == parts;
  }

  lemma {:induction false} SplitJoin(parts: seq<string>, sep: char)
    requires |parts| >= 1
    requires forall i :: 0 <= i < |parts| ==> sep !in parts[i]
    ensures Split(Join(parts, sep), sep) == parts
    decreases |parts|
  {
    if |parts| > 1 {
      var s := Join(parts, sep);
      assert s == parts[0] + [sep] + Join(parts[1..], sep);
      assert s[|parts[0]|] == sep;
      assert s[..|parts[0]|] == parts[0];
      var k := FirstIndexOfChar(s, sep);
      assert k == |parts[0]| by {
        assert sep !in s[..|parts[0]|];
        assert s[..k + 1][k] == sep;
      }
      assert s[k + 1..] == Join(parts[1..], sep);
      SplitJoin(parts[1..], sep);
      assert parts == [parts[0]] + parts[1..];
    }
  }

  /** A join holds each of its parts. */
  lemma {:induction false} JoinContainsPart(parts: seq<string>, sep: char, i: nat, p: string)
    requires i < |parts| && Contains(parts[i], p)
    ensures Contains(Join(parts, sep), p)
    decreases |parts|
  {
    if |parts| == 1 {
    } else if i == 0 {
      ContainsInMiddle([], parts[0], [sep] + Join(parts[1..], sep), p);
      assert [] + parts[0] + ([sep] + Join(parts[1..], sep)) == Join(parts, sep);
    } else {
      JoinContainsPart(parts[1..], sep, i - 1, p);
      ContainsInMiddle(parts[0] + [sep], Join(parts[1..], sep), [], p);
      assert parts[0] + [sep] + Join(parts[1..], sep) + [] == Join(parts, sep);
    }
  }

  /** One piece per separator, plus one. */
  lemma {:induction false} SplitCount(s: string, sep: char)
    ensures |Split(s, sep)| == CountChar(s, sep) + 1
    decreases |s|
  {
    if sep in s {
      var k := FirstIndexOfChar(s, sep);
      SplitCount(s[k + 1..], sep);
      assert s == s[..k] + [sep] + s[k + 1..];
      assert multiset(s) == multiset(s[..k]) + multiset{sep} + multiset(s[k + 1..]);
    }
  }

  /** The lines of a text: `content.split('\n')`. */
  function Lines(s: string): seq<string> {
    Split(s, '\n')
  }

  /** The text of some lines: `lines.join('\n')`. */
  function Unlines(ls: seq<string>): string {
    Join(ls, '\n')
  }

  predicate NoNewline(ls: seq<string>) {
    forall i :: 0 <= i < |ls| ==> '\n' !in ls[i]
  }

  // ---------------------------------------------------------------- numbers

  function DigitChar(d: nat): char
    requires d < 10
  {
    "0123456789"[d]
  }

  /** The decimal text of a number, as a template literal prints it. */
  function NatToString(n: nat): (r: string)
    ensures |r| >= 1
    decreases n
  {
    if n < 10 then [DigitChar(n)] else NatToString(n / 10) + [DigitChar(n % 10)]
  }

  function Max(a: int, b: int): int {
    if a >= b then a else b
  }

  function Min(a: int, b: int): int {
    if a <= b then a else b
  }

  /** `Math.max(0, Math.min(100, x))`. */
  function Clamp100(x: int): (r: int)
    ensures 0 <= r <= 100
    ensures 0 <= x <= 100 ==> r == x
    ensures x < 0 ==> r == 0
    ensures x > 100 ==> r == 100
  {
    Max(0, Min(100, x))
  }

  // ---------------------------------------------------------------- first line containing

  function FirstLineFrom(ls: seq<string>, needle: string, from: nat): (r: int)
    requires from <= |ls|
    ensures r == -1 || (from <= r < |ls| && Contains(ls[r], needle))
    ensures forall k :: from <= k < |ls| && (r == -1 || k < r) ==> !Contains(ls[k], needle)
    decreases |ls| - from
  {
    if from == |ls| then -1
    else if Contains(ls[from], needle) then from
    else FirstLineFrom(ls, needle, from + 1)
  }

  /** The 1-based number of the first line containing `needle`, or 1 when no line does. */
  function LineOf(content: string, needle: string): (r: nat)
    ensures 1 <= r <= |Lines(content)|
    ensures forall k :: 0 <= k < r - 1 ==> !Contains(Lines(content)[k], needle)
    ensures Contains(Lines(content)[r - 1], needle)
            || (r == 1 && forall k :: 0 <= k < |Lines(content)| ==> !Contains(Lines(content)[k], needle))
  {
    var i := FirstLineFrom(Lines(content), needle, 0);
    if i == -1 then 1 else i + 1
  }

  /** `findLineNumber`: an early-return scan over the lines. */
  method FindLineNumber(content: string, needle: string) returns (r: nat)
    ensures r == LineOf(content, needle)
    ensures 1 <= r <= |Lines(content)|
  {
    var lines := Lines(content);
    var i := 0;
    while i < |lines|
      invariant 0 <= i <= |lines|
      invariant forall k :: 0 <= k < i ==> !Contains(lines[k], needle)
    {
      if Contains(lines[i], needle) {
        return i + 1;
      }
      i := i + 1;
    }
    return 1;
  }
}
