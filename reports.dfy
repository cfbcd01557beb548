/**
 * The records the analyzers exchange: the suggestions the basic analyzer emits and the
 * code improver consumes, and the per-file issues.
 */
module Reports {
  import opened Common

  datatype Impact = Low | Medium | High

  /**
   * A suggestion `{type, message, autoFix, fixCode?, impact?}`. `kind` is the JavaScript
   * `type` field; an absent `type` is the empty string, an absent message or fix code is `None`.
   */
  datatype Suggestion = Suggestion(
    kind: string,
    message: Option<string>,
    autoFix: bool,
    fixCode: Option<string>,
    impact: Option<Impact>)

  datatype IssueType = Error | Warning | Info

  /** An issue `{type, line, message, code}` of the basic file analyzer. */
  datatype Issue = Issue(kind: IssueType, line: int, message: string, code: string)

  /** The number of issues of type `t`. */
  function CountIssues(issues: seq<Issue>, t: IssueType): nat
    decreases |issues|
  {
    if |issues| == 0 then 0
    else CountIssues(issues[..|issues| - 1], t) + (if issues[|issues| - 1].kind == t then 1 else 0)
  }

  lemma {:induction false} CountIssuesConcat(a: seq<Issue>, b: seq<Issue>, t: IssueType)
    ensures CountIssues(a + b, t) == CountIssues(a, t) + CountIssues(b, t)
    decreases |b|
  {
    if |b| == 0 {
      assert a + b == a;
    } else {
      assert (a + b)[..|a + b| - 1] == a + b[..|b| - 1];
      CountIssuesConcat(a, b[..|b| - 1], t);
    }
  }
}
