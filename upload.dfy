/**
 * The upload screen's acceptance rule (`handleFiles` and `removeFile` of the file uploader):
 * which dropped files, and which entries of dropped ZIP archives, join the upload list, and
 * which are reported as duplicates.
 */
module Upload {
  import opened Common
  import opened Text

  /** A file as the uploader tells files apart: by name and size. */
  datatype FileRef = FileRef(name: string, size: nat)

  /** An entry of `zipContent.files`: its path inside the archive, whether it is a folder, and the size of its data. */
  datatype ZipEntry = ZipEntry(filename: string, dir: bool, size: nat)

  /**
   * A dropped or picked file. For a `.zip` file, `archive` holds the entries `loadAsync` finds,
   * or `None` when loading throws; for any other file it is not read.
   */
  datatype DroppedFile = DroppedFile(name: string, size: nat, archive: Option<seq<ZipEntry>>)

  const AllowedExtensions: seq<string> := ["js", "jsx", "ts", "tsx", "css", "html", "json"]

  /** `s.split(sep).pop()`. */
  function LastPiece(s: string, sep: char): string {
    var parts := Split(s, sep);
    parts[|parts| - 1]
  }

  /** The last piece of `s.split(sep)` is the longest suffix of `s` without `sep`. */
  lemma {:induction false} LastPieceSuffix(s: string, sep: char)
    ensures |LastPiece(s, sep)| <= |s|
    ensures LastPiece(s, sep) == s[|s| - |LastPiece(s, sep)|..]
    ensures |LastPiece(s, sep)| == |s| || s[|s| - |LastPiece(s, sep)| - 1] == sep
    decreases |s|
  {
    if sep !in s {
      assert LastPiece(s, sep) == s == s[0..];
    } else {
      var k := FirstIndexOfChar(s, sep);
      LastPieceOfRest(s, sep);
      LastPieceSuffix(s[k + 1..], sep);
      SuffixOfRest(s, k, LastPiece(s, sep));
    }
  }

  /** Past the first separator, the last piece is that of the rest of the text. */
  lemma LastPieceOfRest(s: string, sep: char)
    requires sep in s
    ensures LastPiece(s, sep) == LastPiece(s[FirstIndexOfChar(s, sep) + 1..], sep)
  {
    var k := FirstIndexOfChar(s, sep);
    var parts := Split(s[k + 1..], sep);
    var all := Split(s, sep);
    assert all == [s[..k]] + parts;
    assert |all| == |parts| + 1;
    assert all[|all| - 1] == parts[|parts| - 1];
  }

  /** A separated suffix of the text after position `k`, where `s[k]` is the separator, is one of `s`. */
  lemma SuffixOfRest(s: string, k: nat, p: string)
    requires k < |s| && |p| <= |s| - k - 1
    requires p == s[k + 1..][|s| - k - 1 - |p|..]
    requires |p| == |s| - k - 1 || s[k + 1..][|s| - k - 1 - |p| - 1] == s[k]
    ensures p == s[|s| - |p|..]
    ensures |p| == |s| || s[|s| - |p| - 1] == s[k]
  {
    assert s[k + 1..][|s| - k - 1 - |p|..] == s[|s| - |p|..];
    if |p| < |s| - k - 1 {
      assert s[k + 1..][|s| - k - 1 - |p| - 1] == s[|s| - |p| - 1];
    }
  }

  /**
   * `name.split('.').pop().toLowerCase()`: the part after the last dot, lower-cased; the whole
   * name when it has no dot.
   */
  function Extension(name: string): (r: string)
    ensures '.' !in r && |r| <= |name|
    ensures r == Lower(name[|name| - |r|..])
    ensures |r| == |name| || name[|name| - |r| - 1] == '.'
  {
    LastPieceSuffix(name, '.');
    Lower(LastPiece(name, '.'))
  }

  /** Some folder or file name along the path starts with a dot. */
  predicate HiddenPart(parts: seq<string>) {
    exists i :: 0 <= i < |parts| && StartsWith(parts[i], ".")
  }

  /** `isSystemFile`: Mac metadata, `.DS_Store`, hidden files and files in hidden folders. */
  predicate IsSystemFile(filename: string) {
    Contains(filename, "__MACOSX/") || Contains(filename, ".DS_Store") || StartsWith(filename, ".")
    || HiddenPart(Split(filename, '/'))
  }

  /** A ZIP entry that is extracted: a file, not a system file, with an allowed extension. */
  predicate Extracts(e: ZipEntry) {
    !e.dir && !IsSystemFile(e.filename) && Extension(e.filename) in AllowedExtensions
  }

  /** The candidates an archive contributes, in entry order. */
  function ZipCandidates(entries: seq<ZipEntry>): seq<FileRef>
    decreases |entries|
  {
    if |entries| == 0 then []
    else
      var e := entries[|entries| - 1];
      ZipCandidates(entries[..|entries| - 1]) + (if Extracts(e) then [FileRef(e.filename, e.size)] else [])
  }

  /**
   * The candidates one dropped file contributes: the extracted entries of a ZIP archive (none
   * when it cannot be loaded), the file itself when its extension is allowed, and nothing
   * otherwise.
   */
  function FileCandidates(f: DroppedFile): seq<FileRef> {
    if Extension(f.name) == "zip" then
      match f.archive
      case None => []
      case Some(entries) => ZipCandidates(entries)
    else if Extension(f.name) in AllowedExtensions then [FileRef(f.name, f.size)]
    else []
  }

  /** Every file the handler examines for duplicates, in the order it examines them. */
  function Candidates(files: seq<DroppedFile>): seq<FileRef>
    decreases |files|
  {
    if |files| == 0 then [] else Candidates(files[..|files| - 1]) + FileCandidates(files[|files| - 1])
  }

  /** `allFiles` and `duplicates` of one call of `handleFiles`. */
  datatype Batch = Batch(accepted: seq<FileRef>, duplicates: seq<string>)

  const EmptyBatch := Batch([], [])

  /**
   * One candidate against the uploaded list and the batch so far: a file with the same name
   * and size in either makes it a duplicate, reported by name; otherwise it joins the batch.
   */
  function Admit(uploaded: seq<FileRef>, b: Batch, c: FileRef): Batch {
    if c in uploaded || c in b.accepted then Batch(b.accepted, b.duplicates + [c.name])
    else Batch(b.accepted + [c], b.duplicates)
  }

  /** The candidates admitted one after the other, starting from batch `b`. */
  function AdmitFrom(uploaded: seq<FileRef>, b: Batch, cs: seq<FileRef>): Batch
    decreases |cs|
  {
    if |cs| == 0 then b else Admit(uploaded, AdmitFrom(uploaded, b, cs[..|cs| - 1]), cs[|cs| - 1])
  }

  function AdmitAll(uploaded: seq<FileRef>, cs: seq<FileRef>): Batch {
    AdmitFrom(uploaded, EmptyBatch, cs)
  }

  lemma {:induction false} AdmitFromConcat(uploaded: seq<FileRef>, b: Batch, xs: seq<FileRef>, ys: seq<FileRef>)
    ensures AdmitFrom(uploaded, b, xs + ys) == AdmitFrom(uploaded, AdmitFrom(uploaded, b, xs), ys)
    decreases |ys|
  {
    if |ys| == 0 {
      assert xs + ys == xs;
    } else {
      assert (xs + ys)[..|xs + ys| - 1] == xs + ys[..|ys| - 1];
      AdmitFromConcat(uploaded, b, xs, ys[..|ys| - 1]);
    }
  }

  // ---------------------------------------------------------------- what the batch holds

  predicate Distinct(s: seq<FileRef>) {
    forall i, j :: 0 <= i < j < |s| ==> s[i] != s[j]
  }

  /** A candidate joins the batch exactly when it is not uploaded yet. */
  lemma {:induction false} AdmittedIff(uploaded: seq<FileRef>, cs: seq<FileRef>, c: FileRef)
    ensures c in AdmitAll(uploaded, cs).accepted <==> c in cs && c !in uploaded
    decreases |cs|
  {
    if |cs| > 0 {
      var front := cs[..|cs| - 1];
      AdmittedIff(uploaded, front, c);
      AdmittedIff(uploaded, front, cs[|cs| - 1]);
      assert cs == front + [cs[|cs| - 1]];
    }
  }

  /** The batch holds no file twice, and none that is uploaded already. */
  lemma {:induction false} AdmittedFresh(uploaded: seq<FileRef>, cs: seq<FileRef>)
    ensures Distinct(AdmitAll(uploaded, cs).accepted)
    ensures forall c :: c in AdmitAll(uploaded, cs).accepted ==> c !in uploaded
    decreases |cs|
  {
    if |cs| > 0 {
      var front := cs[..|cs| - 1];
      AdmittedFresh(uploaded, front);
      forall c | c in AdmitAll(uploaded, cs).accepted
        ensures c !in uploaded
      {
        AdmittedIff(uploaded, cs, c);
      }
    }
  }

  /** Every candidate ends up exactly once: in the batch or among the duplicates. */
  lemma {:induction false} AdmittedCount(uploaded: seq<FileRef>, cs: seq<FileRef>)
    ensures |AdmitAll(uploaded, cs).accepted| + |AdmitAll(uploaded, cs).duplicates| == |cs|
    decreases |cs|
  {
    if |cs| > 0 {
      AdmittedCount(uploaded, cs[..|cs| - 1]);
    }
  }

  /** The first occurrences of the candidates that are not uploaded yet, in order. */
  function FreshFiles(uploaded: seq<FileRef>, cs: seq<FileRef>): seq<FileRef>
    decreases |cs|
  {
    if |cs| == 0 then []
    else
      var front := cs[..|cs| - 1];
      var c := cs[|cs| - 1];
      FreshFiles(uploaded, front) + (if c in uploaded || c in front then [] else [c])
  }

  /** The names of the candidates that are uploaded already or repeat an earlier candidate. */
  function RepeatedNames(uploaded: seq<FileRef>, cs: seq<FileRef>): seq<string>
    decreases |cs|
  {
    if |cs| == 0 then []
    else
      var front := cs[..|cs| - 1];
      var c := cs[|cs| - 1];
      RepeatedNames(uploaded, front) + (if c in uploaded || c in front then [c.name] else [])
  }

  /** The batch is the fresh first occurrences, and the duplicates are the names of the rest. */
  lemma {:induction false} AdmitAllIsFirstOccurrences(uploaded: seq<FileRef>, cs: seq<FileRef>)
    ensures AdmitAll(uploaded, cs) == Batch(FreshFiles(uploaded, cs), RepeatedNames(uploaded, cs))
    decreases |cs|
  {
    if |cs| > 0 {
      var front := cs[..|cs| - 1];
      AdmitAllIsFirstOccurrences(uploaded, front);
      AdmittedIff(uploaded, front, cs[|cs| - 1]);
    }
  }

  // ---------------------------------------------------------------- which files are candidates

  lemma {:induction false} ZipCandidatesIff(entries: seq<ZipEntry>, c: FileRef)
    ensures c in ZipCandidates(entries) <==>
      exists e :: e in entries && Extracts(e) && c == FileRef(e.filename, e.size)
    decreases |entries|
  {
    if |entries| > 0 {
      var front := entries[..|entries| - 1];
      ZipCandidatesIff(front, c);
      SnocMembers(entries);
    }
  }

  lemma {:induction false} CandidatesIff(files: seq<DroppedFile>, c: FileRef)
    ensures c in Candidates(files) <==> exists f :: f in files && c in FileCandidates(f)
    decreases |files|
  {
    if |files| > 0 {
      var front := files[..|files| - 1];
      var last := files[|files| - 1];
      CandidatesIff(front, c);
      SnocMembers(files);
      assert c in Candidates(files) <==> c in Candidates(front) || c in FileCandidates(last);
    }
  }

  /**
   * The candidates of one file: itself when its extension is allowed and it is no ZIP archive;
   * the extracted entries when it is a ZIP archive that loads.
   */
  lemma FileCandidatesIff(f: DroppedFile, c: FileRef)
    ensures c in FileCandidates(f) <==>
      (Extension(f.name) != "zip" && Extension(f.name) in AllowedExtensions && c == FileRef(f.name, f.size))
      || (Extension(f.name) == "zip" && f.archive.Some?
          && exists e :: e in f.archive.value && Extracts(e) && c == FileRef(e.filename, e.size))
  {
    if f.archive.Some? {
      ZipCandidatesIff(f.archive.value, c);
    }
  }

  /** Every candidate has an allowed extension, so no ZIP archive is itself a candidate. */
  lemma CandidateAllowed(files: seq<DroppedFile>, c: FileRef)
    requires c in Candidates(files)
    ensures Extension(c.name) in AllowedExtensions
  {
    CandidatesIff(files, c);
    var f :| f in files && c in FileCandidates(f);
    FileCandidatesIff(f, c);
  }

  // ---------------------------------------------------------------- the handler

  /** `removeFile(index)`: `prev.filter((_, i) => i !== index)`. */
  function WithoutIndex(s: seq<FileRef>, index: int): (r: seq<FileRef>)
    ensures 0 <= index < |s| ==> r == s[..index] + s[index + 1..]
    ensures !(0 <= index < |s|) ==> r == s
    decreases |s|
  {
    if |s| == 0 then []
    else
      var front := s[..|s| - 1];
      WithoutIndex(front, index) + (if index == |s| - 1 then [] else [s[|s| - 1]])
  }

  lemma WithoutIndexDistinct(s: seq<FileRef>, index: int)
    requires Distinct(s)
    ensures Distinct(WithoutIndex(s, index))
  {
    if 0 <= index < |s| {
      var r := WithoutIndex(s, index);
      forall i, j | 0 <= i < j < |r|
        ensures r[i] != r[j]
      {
        var i' := if i < index then i else i + 1;
        var j' := if j < index then j else j + 1;
        assert r[i] == s[i'] && r[j] == s[j'];
      }
    }
  }

  /** The entries of one archive, in order (the inner `for` of `handleFiles`). */
  method AdmitEntries(uploaded: seq<FileRef>, entries: seq<ZipEntry>, b: Batch) returns (r: Batch)
    ensures r == AdmitFrom(uploaded, b, ZipCandidates(entries))
  {
    var allFiles := b.accepted;
    var duplicates := b.duplicates;
    for j := 0 to |entries|
      invariant Batch(allFiles, duplicates) == AdmitFrom(uploaded, b, ZipCandidates(entries[..j]))
    {
      var entry := entries[j];
      ghost var before := ZipCandidates(entries[..j]);
      ghost var step := if Extracts(entry) then [FileRef(entry.filename, entry.size)] else [];
      assert entries[..j + 1][..j] == entries[..j];
      assert ZipCandidates(entries[..j + 1]) == before + step;
      AdmitFromConcat(uploaded, b, before, step);
      assert step == [] || step[..0] == [];
      if !entry.dir && !IsSystemFile(entry.filename) {
        var fileExt := Extension(entry.filename);
        if fileExt in AllowedExtensions {
          var extractedFile := FileRef(entry.filename, entry.size);
          if extractedFile !in uploaded && extractedFile !in allFiles {
            allFiles := allFiles + [extractedFile];
          } else {
            duplicates := duplicates + [entry.filename];
          }
        }
      }
    }
    assert entries[..|entries|] == entries;
    r := Batch(allFiles, duplicates);
  }

  /** One dropped file: a ZIP archive's entries, or the file itself. */
  method AdmitFile(uploaded: seq<FileRef>, file: DroppedFile, b: Batch) returns (r: Batch)
    ensures r == AdmitFrom(uploaded, b, FileCandidates(file))
  {
    var ext := Extension(file.name);
    if ext == "zip" {
      match file.archive {
        case None =>
          r := b;
        case Some(entries) =>
          r := AdmitEntries(uploaded, entries, b);
      }
    } else if ext in AllowedExtensions {
      var c := FileRef(file.name, file.size);
      assert FileCandidates(file) == [c];
      assert [c][..0] == [];
      if c !in uploaded && c !in b.accepted {
        r := Batch(b.accepted + [c], b.duplicates);
      } else {
        r := Batch(b.accepted, b.duplicates + [file.name]);
      }
    } else {
      r := b;
    }
  }

  /** The outer `for (const file of files)` loop of `handleFiles`, against a snapshot of the upload list. */
  method AdmitFiles(uploaded: seq<FileRef>, files: seq<DroppedFile>) returns (r: Batch)
    ensures r == AdmitAll(uploaded, Candidates(files))
  {
    r := EmptyBatch;
    for i := 0 to |files|
      invariant r == AdmitAll(uploaded, Candidates(files[..i]))
    {
      assert files[..i + 1][..i] == files[..i];
      AdmitFromConcat(uploaded, EmptyBatch, Candidates(files[..i]), FileCandidates(files[i]));
      r := AdmitFile(uploaded, files[i], r);
    }
    assert files[..|files|] == files;
  }

  /** The uploader's list of uploaded files. */
  class Uploader {
    var uploadedFiles: seq<FileRef>

    /** No file is uploaded twice. */
    ghost predicate Valid()
      reads this
    {
      Distinct(uploadedFiles)
    }

    constructor()
      ensures uploadedFiles == [] && Valid()
    {
      uploadedFiles := [];
    }

    /**
     * `handleFiles(files)`: appends the batch to the upload list and returns the duplicates
     * the alert names.
     */
    method HandleFiles(files: seq<DroppedFile>) returns (duplicates: seq<string>)
      requires Valid()
      modifies this
      ensures Valid()
      ensures uploadedFiles == old(uploadedFiles) + AdmitAll(old(uploadedFiles), Candidates(files)).accepted
      ensures duplicates == AdmitAll(old(uploadedFiles), Candidates(files)).duplicates
    {
      var batch := AdmitFiles(uploadedFiles, files);
      AdmittedFresh(uploadedFiles, Candidates(files));
      AppendFresh(uploadedFiles, batch.accepted);
      uploadedFiles := uploadedFiles + batch.accepted;
      duplicates := batch.duplicates;
    }

    /** `removeFile(index)`. */
    method RemoveFile(index: int)
      requires Valid()
      modifies this
      ensures Valid()
      ensures uploadedFiles == WithoutIndex(old(uploadedFiles), index)
    {
      WithoutIndexDistinct(uploadedFiles, index);
      uploadedFiles := WithoutIndex(uploadedFiles, index);
    }
  }

  /** Appending distinct files none of which is in a distinct list keeps it distinct. */
  lemma AppendFresh(s: seq<FileRef>, t: seq<FileRef>)
    requires Distinct(s) && Distinct(t)
    requires forall c :: c in t ==> c !in s
    ensures Distinct(s + t)
  {
    forall i, j | 0 <= i < j < |s + t|
      ensures (s + t)[i] != (s + t)[j]
    {
      if i < |s| && j >= |s| {
        assert (s + t)[j] == t[j - |s|] && t[j - |s|] in t;
      }
    }
  }

  /**
   * A file joins the upload list exactly when it is a candidate (an allowed file, or an
   * extracted archive entry) that is not uploaded yet.
   */
  lemma AcceptedIff(uploaded: seq<FileRef>, files: seq<DroppedFile>, c: FileRef)
    ensures c in AdmitAll(uploaded, Candidates(files)).accepted <==>
      c !in uploaded && exists f :: f in files && c in FileCandidates(f)
  {
    AdmittedIff(uploaded, Candidates(files), c);
    CandidatesIff(files, c);
  }
}
