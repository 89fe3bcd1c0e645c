/**
 * The review step of the pull-request handler: the analysis request built from the
 * diff, the flattening of the analysis result into inline review comments, and the
 * guarded publishing step whose failures are caught.
 */
module Review {
  import opened Wrappers

  /** One changed file as the platform client reports it. `patch` is absent for binary files. */
  datatype DiffFile = DiffFile(
    filename: string,
    status: string,
    additions: int,
    deletions: int,
    changes: int,
    patch: Option<string>)

  /** One entry of `pr_data["files"]`: the six attributes copied out of a `DiffFile`. */
  datatype FileRecord = FileRecord(
    filename: string,
    status: string,
    additions: int,
    deletions: int,
    changes: int,
    patch: Option<string>)

  /** The analysis request `pr_data`: title, description and the changed files. */
  datatype PrData = PrData(title: string, description: Option<string>, files: seq<FileRecord>)

  function Record(f: DiffFile): FileRecord
  {
    FileRecord(f.filename, f.status, f.additions, f.deletions, f.changes, f.patch)
  }

  /** `pr_data`, built with one record per changed file, in the order of the diff. */
  function BuildPrData(title: string, body: Option<string>, diffFiles: seq<DiffFile>): (d: PrData)
    ensures d.title == title && d.description == body
    ensures |d.files| == |diffFiles|
    ensures forall i :: 0 <= i < |diffFiles| ==>
      && d.files[i].filename == diffFiles[i].filename
      && d.files[i].status == diffFiles[i].status
      && d.files[i].additions == diffFiles[i].additions
      && d.files[i].deletions == diffFiles[i].deletions
      && d.files[i].changes == diffFiles[i].changes
      && d.files[i].patch == diffFiles[i].patch
  {
    PrData(title, body, seq(|diffFiles|, i requires 0 <= i < |diffFiles| => Record(diffFiles[i])))
  }

  /**
   * The analysis result, file path -> (line number -> comment text), as an association
   * list so that the iteration order of the dictionaries is kept.
   */
  type LineComments = seq<(int, string)>
  type FileComments = seq<(string, LineComments)>

  /**
   * What the analysis engine hands back: the per-line mapping, a single aggregate
   * comment text, or an exception.
   */
  datatype Analysis = PerLine(fileComments: FileComments) | Aggregate(text: string) | AnalysisRaised

  /** One entry of `review_comments`: `{path, line, body}`. */
  datatype ReviewComment = ReviewComment(path: string, line: int, body: string)

  /** The review comments of one file, in the order of its line mapping. */
  function FileEntries(path: string, comments: LineComments): (r: seq<ReviewComment>)
  {
    seq(|comments|, k requires 0 <= k < |comments| => ReviewComment(path, comments[k].0, comments[k].1))
  }

  /** The reference flattening: the files' entries one file after another. */
  function Flattened(fileComments: FileComments): seq<ReviewComment>
    decreases |fileComments|
  {
    if fileComments == [] then []
    else
      var n := |fileComments| - 1;
      Flattened(fileComments[..n]) + FileEntries(fileComments[n].0, fileComments[n].1)
  }

  /** The sum of the sizes of the inner mappings. */
  function TotalComments(fileComments: FileComments): nat
    decreases |fileComments|
  {
    if fileComments == [] then 0
    else
      var n := |fileComments| - 1;
      TotalComments(fileComments[..n]) + |fileComments[n].1|
  }

  /** The nested loop that builds `review_comments` from the analysis result. */
  method FlattenComments(fileComments: FileComments) returns (reviewComments: seq<ReviewComment>)
    ensures reviewComments == Flattened(fileComments)
  {
    reviewComments := [];
    var i := 0;
    while i < |fileComments|
      invariant 0 <= i <= |fileComments|
      invariant reviewComments == Flattened(fileComments[..i])
    {
      var (filePath, comments) := fileComments[i];
      var j := 0;
      while j < |comments|
        invariant 0 <= j <= |comments|
        invariant reviewComments == Flattened(fileComments[..i]) + FileEntries(filePath, comments[..j])
      {
        var (lineNumber, comment) := comments[j];
        assert FileEntries(filePath, comments[..j + 1])
            == FileEntries(filePath, comments[..j]) + [ReviewComment(filePath, lineNumber, comment)];
        reviewComments := reviewComments + [ReviewComment(filePath, lineNumber, comment)];
        j := j + 1;
      }
      assert comments[..j] == comments;
      assert fileComments[..i + 1][..i] == fileComments[..i];
      i := i + 1;
    }
    assert fileComments[..i] == fileComments;
  }

  /** The flat list has exactly as many entries as the nested mapping. */
  lemma {:induction false} FlattenedLength(fileComments: FileComments)
    ensures |Flattened(fileComments)| == TotalComments(fileComments)
    decreases |fileComments|
  {
    if fileComments != [] {
      FlattenedLength(fileComments[..|fileComments| - 1]);
    }
  }

  /** The position of the first entry of file `i`: the entries of the files before it. */
  function Offset(fileComments: FileComments, i: nat): nat
    requires i <= |fileComments|
  {
    TotalComments(fileComments[..i])
  }

  /** Files further on start further on, each after all the entries of the previous ones. */
  lemma {:induction false} OffsetStep(fileComments: FileComments, i: nat)
    requires i < |fileComments|
    ensures Offset(fileComments, i + 1) == Offset(fileComments, i) + |fileComments[i].1|
  {
    assert fileComments[..i + 1][..i] == fileComments[..i];
  }

  lemma {:induction false} OffsetMonotone(fileComments: FileComments, i: nat, i': nat)
    requires i <= i' <= |fileComments|
    ensures Offset(fileComments, i) <= Offset(fileComments, i')
    decreases i' - i
  {
    if i < i' {
      OffsetStep(fileComments, i);
      OffsetMonotone(fileComments, i + 1, i');
    }
  }

  /**
   * Every triple of the nested mapping is in the flat list, at the position given by
   * its file's offset plus its place within the file.
   */
  lemma {:induction false} FlattenedAt(fileComments: FileComments, i: nat, j: nat)
    requires i < |fileComments| && j < |fileComments[i].1|
    ensures Offset(fileComments, i) + j < |Flattened(fileComments)|
    ensures Flattened(fileComments)[Offset(fileComments, i) + j]
         == ReviewComment(fileComments[i].0, fileComments[i].1[j].0, fileComments[i].1[j].1)
    decreases |fileComments|
  {
    var n := |fileComments| - 1;
    var front := fileComments[..n];
    FlattenedLength(front);
    if i < n {
      assert front[i] == fileComments[i];
      assert front[..i] == fileComments[..i];
      FlattenedAt(front, i, j);
    } else {
      assert fileComments[..i] == front;
    }
  }

  /** Every entry of the flat list comes from one triple of the nested mapping. */
  lemma {:induction false} FlattenedFrom(fileComments: FileComments, p: nat)
    requires p < |Flattened(fileComments)|
    ensures exists i: nat, j: nat :: (
      && i < |fileComments| && j < |fileComments[i].1|
      && p == Offset(fileComments, i) + j
      && Flattened(fileComments)[p]
         == ReviewComment(fileComments[i].0, fileComments[i].1[j].0, fileComments[i].1[j].1))
    decreases |fileComments|
  {
    var n := |fileComments| - 1;
    var front := fileComments[..n];
    FlattenedLength(front);
    if p < |Flattened(front)| {
      FlattenedFrom(front, p);
      var i: nat, j: nat :| (
        && i < |front| && j < |front[i].1|
        && p == Offset(front, i) + j
        && Flattened(front)[p] == ReviewComment(front[i].0, front[i].1[j].0, front[i].1[j].1));
      assert front[..i] == fileComments[..i];
      assert Flattened(fileComments)[p] == Flattened(front)[p];
      assert fileComments[i] == front[i];
    } else {
      var j: nat := p - |Flattened(front)|;
      assert fileComments[..n] == front;
      FlattenedAt(fileComments, n, j);
    }
  }

  /**
   * The flat list is ordered by file, then by line within a file: of two triples, the
   * one that comes first in the nested mapping comes first in the list.
   */
  lemma FlattenedOrdered(fileComments: FileComments, i: nat, j: nat, i': nat, j': nat)
    requires i < |fileComments| && j < |fileComments[i].1|
    requires i' < |fileComments| && j' < |fileComments[i'].1|
    requires i < i' || (i == i' && j < j')
    ensures Offset(fileComments, i) + j < Offset(fileComments, i') + j' < |Flattened(fileComments)|
    ensures Flattened(fileComments)[Offset(fileComments, i) + j]
         == ReviewComment(fileComments[i].0, fileComments[i].1[j].0, fileComments[i].1[j].1)
    ensures Flattened(fileComments)[Offset(fileComments, i') + j']
         == ReviewComment(fileComments[i'].0, fileComments[i'].1[j'].0, fileComments[i'].1[j'].1)
  {
    if i < i' {
      OffsetStep(fileComments, i);
      OffsetMonotone(fileComments, i + 1, i');
    }
    FlattenedAt(fileComments, i, j);
    FlattenedAt(fileComments, i', j');
  }

  /** The platform's answer to listing the pull request's commits. */
  datatype Commits = CommitList(shas: seq<string>) | GithubError(status: int) | OtherError

  /** What the guarded publishing step reports. */
  datatype PublishReport = Posted(commit: string, count: nat) | ApiError(status: int) | PostingError

  /**
   * The try block that picks the latest commit and reports the review. A platform
   * error and any other error (an empty commit list among them) are caught and told
   * apart; nothing escapes.
   */
  function Publish(commits: Commits, reviewComments: seq<ReviewComment>): (r: PublishReport)
    ensures r.Posted? <==> commits.CommitList? && |commits.shas| > 0
    ensures r.Posted? ==> r.commit == commits.shas[|commits.shas| - 1] && r.count == |reviewComments|
    ensures r.ApiError? <==> commits.GithubError?
    ensures r.ApiError? ==> r.status == commits.status
  {
    match commits
    case CommitList(shas) =>
      if |shas| == 0 then PostingError else Posted(shas[|shas| - 1], |reviewComments|)
    case GithubError(status) => ApiError(status)
    case OtherError => PostingError
  }
}
