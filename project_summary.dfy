/**
 * The project view of the upload screen: `analyzeFiles`, which reports every uploaded file,
 * and `generateSummary`, which adds up the reports into totals, a rounded average score and a
 * pass/fail status.
 */
module ProjectSummary {
  import opened Common
  import opened FileAnalyzer

  datatype Summary = Summary(
    totalErrors: nat,
    totalWarnings: nat,
    averageQualityScore: int,
    totalLines: nat,
    status: string)

  /** `analyzedFiles.reduce((sum, file) => sum + file.errorCount, 0)`. */
  function TotalErrors(files: seq<FileAnalysis>): nat
    decreases |files|
  {
    if |files| == 0 then 0 else TotalErrors(files[..|files| - 1]) + files[|files| - 1].errorCount
  }

  function TotalWarnings(files: seq<FileAnalysis>): nat
    decreases |files|
  {
    if |files| == 0 then 0 else TotalWarnings(files[..|files| - 1]) + files[|files| - 1].warningCount
  }

  function TotalScore(files: seq<FileAnalysis>): int
    decreases |files|
  {
    if |files| == 0 then 0 else TotalScore(files[..|files| - 1]) + files[|files| - 1].qualityScore
  }

  function TotalLines(files: seq<FileAnalysis>): nat
    decreases |files|
  {
    if |files| == 0 then 0 else TotalLines(files[..|files| - 1]) + files[|files| - 1].lines
  }

  /**
   * `Math.round(total / n)`: the nearest integer to the mean, halves rounded up. Written as
   * `floor((2 * total + n) / (2 * n))`, which is `floor(total / n + 1/2)`.
   */
  function RoundedMean(total: int, n: nat): (r: int)
    requires n > 0
    ensures 2 * n * r <= 2 * total + n < 2 * n * r + 2 * n
  {
    (2 * total + n) / (2 * n)
  }

  /** `generateSummary(analyzedFiles)`, reached only with at least one file. */
  function GenerateSummary(files: seq<FileAnalysis>): (s: Summary)
    requires |files| > 0
    ensures s.status == "passed" || s.status == "failed"
    ensures s.status == "passed" <==> forall i :: 0 <= i < |files| ==> files[i].errorCount == 0
  {
    TotalErrorsZero(files);
    var totalErrors := TotalErrors(files);
    Summary(totalErrors, TotalWarnings(files), RoundedMean(TotalScore(files), |files|), TotalLines(files),
            if totalErrors == 0 then "passed" else "failed")
  }

  /** The error total is zero exactly when every file is free of errors. */
  lemma {:induction false} TotalErrorsZero(files: seq<FileAnalysis>)
    ensures TotalErrors(files) == 0 <==> forall i :: 0 <= i < |files| ==> files[i].errorCount == 0
    decreases |files|
  {
    if |files| > 0 {
      var front := files[..|files| - 1];
      TotalErrorsZero(front);
      assert forall i :: 0 <= i < |front| ==> front[i] == files[i];
    }
  }

  /** Every total of a concatenation is the sum of the totals of its parts. */
  lemma {:induction false} TotalsConcat(a: seq<FileAnalysis>, b: seq<FileAnalysis>)
    ensures TotalErrors(a + b) == TotalErrors(a) + TotalErrors(b)
    ensures TotalWarnings(a + b) == TotalWarnings(a) + TotalWarnings(b)
    ensures TotalScore(a + b) == TotalScore(a) + TotalScore(b)
    ensures TotalLines(a + b) == TotalLines(a) + TotalLines(b)
    decreases |b|
  {
    if |b| == 0 {
      assert a + b == a;
    } else {
      assert (a + b)[..|a + b| - 1] == a + b[..|b| - 1];
      TotalsConcat(a, b[..|b| - 1]);
    }
  }

  predicate ScoresInRange(files: seq<FileAnalysis>) {
    forall i :: 0 <= i < |files| ==> 0 <= files[i].qualityScore <= 100
  }

  lemma {:induction false} TotalScoreBound(files: seq<FileAnalysis>)
    requires ScoresInRange(files)
    ensures 0 <= TotalScore(files) <= 100 * |files|
    decreases |files|
  {
    if |files| > 0 {
      var front := files[..|files| - 1];
      assert forall i :: 0 <= i < |front| ==> front[i] == files[i];
      TotalScoreBound(front);
    }
  }

  /** A product with a positive factor has the sign of the other factor, and at least its size. */
  lemma {:induction false} ProductSign(m: int, k: int)
    requires m > 0
    ensures k >= 1 ==> m * k >= m
    ensures k <= -1 ==> m * k <= -m
    decreases if k < 0 then -k else k
  {
    if k > 1 {
      ProductSign(m, k - 1);
      assert m * k == m * (k - 1) + m;
    } else if k < -1 {
      ProductSign(m, k + 1);
      assert m * k == m * (k + 1) - m;
    }
  }

  /** The rounded mean of totals between 0 and `100 * n` is itself a score between 0 and 100. */
  lemma RoundedMeanBound(total: int, n: nat)
    requires n > 0 && 0 <= total <= 100 * n
    ensures 0 <= RoundedMean(total, n) <= 100
  {
    var r := RoundedMean(total, n);
    var m := 2 * n;
    assert m * r <= 2 * total + n < m * r + m;
    ProductSign(m, r + 1);
    assert m * (r + 1) == m * r + m;
    ProductSign(m, r - 100);
    assert m * (r - 100) == m * r - m * 100;
  }

  /** The mean of scores that all lie between 0 and 100 lies between 0 and 100. */
  lemma AverageInRange(files: seq<FileAnalysis>)
    requires |files| > 0 && ScoresInRange(files)
    ensures 0 <= GenerateSummary(files).averageQualityScore <= 100
  {
    TotalScoreBound(files);
    RoundedMeanBound(TotalScore(files), |files|);
  }

  /** Files that all score `c` average exactly `c`. */
  lemma RoundedMeanOfMultiple(c: int, n: nat)
    requires n > 0
    ensures RoundedMean(c * n, n) == c
  {
    var r := RoundedMean(c * n, n);
    var m := 2 * n;
    assert m * r <= 2 * (c * n) + n < m * r + m;
    assert 2 * (c * n) == m * c;
    assert m * (r - c) == m * r - m * c;
    ProductSign(m, r - c);
  }

  /** The text of one uploaded file, as `file.text()` delivers it, with what its patterns find. */
  datatype SourceFile = SourceFile(name: string, content: string, fileType: string, scan: CodeScan)

  datatype ProjectAnalysis = ProjectAnalysis(totalFiles: nat, files: seq<FileAnalysis>, summary: Summary)

  /** `a` is the report `analyzeFileContent` gives for `u`. */
  predicate Reported(u: SourceFile, a: FileAnalysis) {
    Describes(a, u.name, u.content, u.fileType, u.scan)
  }

  /** One report per file, in upload order. */
  predicate AllReported(us: seq<SourceFile>, files: seq<FileAnalysis>) {
    |us| == |files| && ReportedUpTo(us, files, |us|)
  }

  /** The first `n` files have their reports, in order. */
  predicate ReportedUpTo(us: seq<SourceFile>, files: seq<FileAnalysis>, n: nat) {
    n <= |us| && |files| == n && forall k :: 0 <= k < n ==> Reported(us[k], files[k])
  }

  /**
   * `analyzeFiles()`: nothing at all for an empty upload list; otherwise one report per file,
   * in upload order, and their summary.
   */
  method AnalyzeFiles(uploaded: seq<SourceFile>) returns (r: Option<ProjectAnalysis>)
    ensures r.None? <==> |uploaded| == 0
    ensures r.Some? ==> r.value.totalFiles == |uploaded| && AllReported(uploaded, r.value.files)
    ensures r.Some? ==> r.value.summary == GenerateSummary(r.value.files)
  {
    if |uploaded| == 0 {
      return None;
    }
    var analyzedFiles := AnalyzeAll(uploaded);
    r := Some(ProjectAnalysis(|analyzedFiles|, analyzedFiles, GenerateSummary(analyzedFiles)));
  }

  /**
   * `Promise.all(uploadedFiles.map(...))`: every file read and analyzed, the reports kept in
   * upload order.
   */
  method AnalyzeAll(uploaded: seq<SourceFile>) returns (analyzedFiles: seq<FileAnalysis>)
    ensures |analyzedFiles| == |uploaded| && AllReported(uploaded, analyzedFiles)
  {
    analyzedFiles := [];
    var i := 0;
    while i < |uploaded|
      invariant ReportedUpTo(uploaded, analyzedFiles, i)
    {
      analyzedFiles := AnalyzeNext(uploaded, i, analyzedFiles);
      i := i + 1;
    }
  }

  /** One file: `analyzeFileContent(file.name, content, file.type)`. */
  method AnalyzeNext(uploaded: seq<SourceFile>, i: nat, files: seq<FileAnalysis>) returns (r: seq<FileAnalysis>)
    requires i < |uploaded| && ReportedUpTo(uploaded, files, i)
    ensures ReportedUpTo(uploaded, r, i + 1)
  {
    var file := uploaded[i];
    var report := AnalyzeFileContent(file.name, file.content, file.fileType, file.scan);
    ReportedSnoc(uploaded, i, files, report);
    r := files + [report];
  }

  lemma ReportedSnoc(us: seq<SourceFile>, i: nat, files: seq<FileAnalysis>, a: FileAnalysis)
    requires i < |us| && ReportedUpTo(us, files, i) && Reported(us[i], a)
    ensures ReportedUpTo(us, files + [a], i + 1)
  {
    forall k | 0 <= k < i + 1
      ensures Reported(us[k], (files + [a])[k])
    {
      ReportedSnocAt(us, i, files, a, k);
    }
  }

  lemma ReportedSnocAt(us: seq<SourceFile>, i: nat, files: seq<FileAnalysis>, a: FileAnalysis, k: nat)
    requires i < |us| && ReportedUpTo(us, files, i) && Reported(us[i], a) && k <= i
    ensures Reported(us[k], (files + [a])[k])
  {
    if k < i {
      assert (files + [a])[k] == files[k];
    }
  }

  /** A report's score is `qualityScore` of its counts, which lies between 0 and 100. */
  lemma ReportedScore(u: SourceFile, a: FileAnalysis)
    requires Reported(u, a)
    ensures 0 <= a.qualityScore <= 100
  {
  }

  /** Every report of `analyzeFiles` has a score between 0 and 100. */
  lemma ReportedScoresInRange(us: seq<SourceFile>, files: seq<FileAnalysis>)
    requires AllReported(us, files)
    ensures ScoresInRange(files)
  {
    forall k | 0 <= k < |files|
      ensures 0 <= files[k].qualityScore <= 100
    {
      ReportedScore(us[k], files[k]);
    }
  }

  /** The project's average score lies between 0 and 100. */
  lemma ProjectScoreInRange(uploaded: seq<SourceFile>, files: seq<FileAnalysis>)
    requires |uploaded| > 0 && AllReported(uploaded, files)
    ensures 0 <= GenerateSummary(files).averageQualityScore <= 100
  {
    ReportedScoresInRange(uploaded, files);
    AverageInRange(files);
  }
}
