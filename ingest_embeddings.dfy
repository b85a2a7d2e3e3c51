/**
 * The ingestion job that copies stored comments into the vector index: each comment's body is cut
 * into chunks, each chunk becomes a point whose payload describes the issue, and the points are
 * upserted in batches. Comments with no text, or already in the index, are skipped and counted.
 */
module IngestEmbeddings {
  import opened Wrappers
  import opened AgentModels
  import opened DbModels

  /** Characters per chunk. */
  const ChunkSize := 1000

  /** Points per upsert. */
  const BatchSize := 20

  datatype SparseVector = SparseVector(indices: seq<int>, values: seq<real>)

  /** A point as sent to the index: its id, its two vectors and its payload. */
  datatype Point = Point(id: string, dense: seq<real>, sparse: SparseVector, payload: Payload)

  /**
   * The job's external calls: the text wrapper, the random point ids, the two embedding models,
   * the index lookup for comments already stored, and whether the upsert of a batch succeeds.
   */
  datatype IngestServices = IngestServices(
    wrap: (string, int) -> seq<string>,
    newId: (int, nat) -> string,
    embedDense: string -> seq<real>,
    embedSparse: string -> SparseVector,
    alreadyIngested: (int, int) -> bool,
    upsert: seq<Point> -> bool)

  /** `split_text_into_chunks`: the text wrapped at `ChunkSize` characters (the wrapper is opaque). */
  function SplitTextIntoChunks(text: string, svc: IngestServices): (chunks: seq<string>)
    ensures chunks == svc.wrap(text, 1000)
  {
    svc.wrap(text, ChunkSize)
  }

  // ---------------------------------------------------------------------------------------------
  // batch_iterable
  // ---------------------------------------------------------------------------------------------

  /**
   * The size batches are cut at. A batch is yielded once `len(batch) >= batch_size`, so a size
   * below 1 behaves like 1.
   */
  function BatchCap(batchSize: int): (cap: nat)
    ensures cap >= 1
    ensures batchSize >= 1 ==> cap == batchSize
  {
    if batchSize < 1 then 1 else batchSize
  }

  function Flatten<T>(bs: seq<seq<T>>): seq<T> {
    if bs == [] then [] else bs[0] + Flatten(bs[1..])
  }

  /**
   * The batches `batch_iterable` yields: none is empty, none is longer than the cap, and all but
   * the last have exactly the cap's length.
   */
  function Batches<T>(s: seq<T>, batchSize: int): (bs: seq<seq<T>>)
    ensures s == [] <==> bs == []
    ensures forall k :: 0 <= k < |bs| ==> 0 < |bs[k]| <= BatchCap(batchSize)
    ensures forall k :: 0 <= k < |bs| - 1 ==> |bs[k]| == BatchCap(batchSize)
    decreases |s|
  {
    var cap := BatchCap(batchSize);
    if s == [] then []
    else if |s| <= cap then [s]
    else [s[..cap]] + Batches(s[cap..], batchSize)
  }

  /** Concatenating the batches gives back the input, in order. */
  lemma {:induction false} BatchesFlatten<T>(s: seq<T>, batchSize: int)
    ensures Flatten(Batches(s, batchSize)) == s
    decreases |s|
  {
    var cap := BatchCap(batchSize);
    if |s| > cap {
      BatchesFlatten(s[cap..], batchSize);
      assert s == s[..cap] + s[cap..];
    }
  }

  lemma MulAtLeast(k: int, c: int)
    requires k >= 1 && c > 0
    ensures k * c >= c
  {
  }

  /** Euclidean division has one quotient: `q * c + r` with `0 <= r < c` divides to `q`. */
  lemma DivUnique(a: int, c: int, q: int, r: int)
    requires c > 0 && 0 <= r < c && a == q * c + r
    ensures a / c == q
  {
    var q0, r0 := a / c, a % c;
    assert a == q0 * c + r0;
    if q0 < q {
      MulAtLeast(q - q0, c);
    } else if q0 > q {
      MulAtLeast(q0 - q, c);
    }
  }

  lemma DivStep(a: nat, c: nat)
    requires c > 0
    ensures (a + c) / c == a / c + 1
  {
    var q, r := a / c, a % c;
    assert a + c == (q + 1) * c + r;
    DivUnique(a + c, c, q + 1, r);
  }

  /** There are ceil(n / cap) batches. */
  lemma {:induction false} BatchesCount<T>(s: seq<T>, batchSize: int)
    ensures var cap := BatchCap(batchSize);
            |Batches(s, batchSize)| == (|s| + cap - 1) / cap
    decreases |s|
  {
    var cap := BatchCap(batchSize);
    if s == [] {
      DivUnique(cap - 1, cap, 0, cap - 1);
    } else if |s| <= cap {
      DivUnique(|s| + cap - 1, cap, 1, |s| - 1);
    } else {
      BatchesCount(s[cap..], batchSize);
      DivStep(|s| - 1, cap);
    }
  }

  /** A full batch in front comes off as the first batch. */
  lemma BatchesAfterFull<T>(buf: seq<T>, rest: seq<T>, batchSize: int)
    requires |buf| == BatchCap(batchSize)
    ensures Batches(buf + rest, batchSize) == [buf] + Batches(rest, batchSize)
  {
    var cap := BatchCap(batchSize);
    if rest != [] {
      assert (buf + rest)[..cap] == buf;
      assert (buf + rest)[cap..] == rest;
    } else {
      assert buf + rest == buf;
    }
  }

  /** `batch_iterable`: fills a buffer, yields it when full, and yields a last, shorter buffer if any. */
  method BatchIterable<T>(items: seq<T>, batchSize: int) returns (batches: seq<seq<T>>)
    ensures batches == Batches(items, batchSize)
  {
    batches := [];
    var batch: seq<T> := [];
    assert batch + items[0..] == items;
    for i := 0 to |items|
      invariant |batch| < BatchCap(batchSize)
      invariant batches + Batches(batch + items[i..], batchSize) == Batches(items, batchSize)
    {
      batches, batch := BatchAdd(items, i, batchSize, batches, batch);
    }
    assert batch + items[|items|..] == batch;
    if batch != [] {
      batches := batches + [batch];
    }
  }

  /** One iteration of `batch_iterable`'s loop: append `items[i]`, and yield the batch once it is full. */
  method BatchAdd<T>(items: seq<T>, i: nat, batchSize: int, batches: seq<seq<T>>, batch: seq<T>)
    returns (batches': seq<seq<T>>, batch': seq<T>)
    requires i < |items| && |batch| < BatchCap(batchSize)
    requires batches + Batches(batch + items[i..], batchSize) == Batches(items, batchSize)
    ensures |batch'| < BatchCap(batchSize)
    ensures batches' + Batches(batch' + items[i + 1..], batchSize) == Batches(items, batchSize)
  {
    assert batch + items[i..] == (batch + [items[i]]) + items[i + 1..];
    batch' := batch + [items[i]];
    batches' := batches;
    if |batch'| >= batchSize {
      BatchesAfterFull(batch', items[i + 1..], batchSize);
      batches' := batches' + [batch'];
      batch' := [];
      assert batch' + items[i + 1..] == items[i + 1..];
    }
  }

  // ---------------------------------------------------------------------------------------------
  // chunk_data_for_comment
  // ---------------------------------------------------------------------------------------------

  function OptionalStr(o: Option<string>): Value {
    if o.Some? then Str(o.value) else Null
  }

  function OptionalBool(o: Option<bool>): Value {
    if o.Some? then Bool(o.value) else Null
  }

  /** The nine payload keys every ingested point carries. */
  const PayloadKeys: set<string> :=
    {"issue_number", "repo", "owner", "chunk_text", "comment_id", "url", "title", "is_bug", "is_feature"}

  /** The payload of a point cut from a comment of `issue`. */
  function PayloadFor(issue: Issue, commentId: int, chunk: string): (p: Payload)
    ensures p.Keys == PayloadKeys
  {
    map[
      "issue_number" := Int(issue.number),
      "repo" := Str(issue.repo),
      "owner" := Str(issue.owner),
      "chunk_text" := Str(chunk),
      "comment_id" := Int(commentId),
      "url" := OptionalStr(issue.url),
      "title" := Str(issue.title),
      "is_bug" := OptionalBool(issue.isBug),
      "is_feature" := OptionalBool(issue.isFeature)]
  }

  /** The point for the `k`-th chunk of a comment. */
  function PointFor(issue: Issue, commentId: int, k: nat, chunk: string, svc: IngestServices): Point {
    Point(svc.newId(commentId, k), svc.embedDense(chunk), svc.embedSparse(chunk), PayloadFor(issue, commentId, chunk))
  }

  /** The points of a comment, one per chunk, in chunk order. */
  function CommentPoints(issue: Issue, comment: Comment, svc: IngestServices): (points: seq<Point>)
    requires comment.body.Some?
    ensures |points| == |SplitTextIntoChunks(comment.body.value, svc)|
    ensures forall k :: 0 <= k < |points| ==>
              && points[k].id == svc.newId(comment.commentId, k)
              && points[k].payload == PayloadFor(issue, comment.commentId, SplitTextIntoChunks(comment.body.value, svc)[k])
  {
    var chunks := SplitTextIntoChunks(comment.body.value, svc);
    seq(|chunks|, k requires 0 <= k < |chunks| => PointFor(issue, comment.commentId, k, chunks[k], svc))
  }

  /** `chunk_data_for_comment`: one point per chunk of the comment's body, in chunk order. */
  method ChunkDataForComment(comment: Comment, issue: Issue, svc: IngestServices) returns (points: seq<Point>)
    requires comment.body.Some?
    ensures points == CommentPoints(issue, comment, svc)
    ensures var chunks := SplitTextIntoChunks(comment.body.value, svc);
            && |points| == |chunks|
            && forall k :: 0 <= k < |chunks| ==>
                 && points[k].payload["chunk_text"] == Str(chunks[k])
                 && points[k].payload["comment_id"] == Int(comment.commentId)
                 && points[k].payload == PayloadFor(issue, comment.commentId, chunks[k])
  {
    var chunks := SplitTextIntoChunks(comment.body.value, svc);
    points := [];
    for k := 0 to |chunks|
      invariant |points| == k
      invariant forall j :: 0 <= j < k ==> points[j] == PointFor(issue, comment.commentId, j, chunks[j], svc)
    {
      var chunk := chunks[k];
      points := points + [Point(
        svc.newId(comment.commentId, k),
        svc.embedDense(chunk),
        svc.embedSparse(chunk),
        PayloadFor(issue, comment.commentId, chunk))];
    }
  }

  // ---------------------------------------------------------------------------------------------
  // ingest_issues_to_qdrant
  // ---------------------------------------------------------------------------------------------

  /** A comment is skipped when its body is missing or empty, or when the index already holds it. */
  function SkipComment(issue: Issue, c: Comment, svc: IngestServices): (skip: bool)
    ensures !skip <==> c.body.Some? && |c.body.value| > 0 && !svc.alreadyIngested(issue.number, c.commentId)
  {
    c.body.None? || c.body.value == "" || svc.alreadyIngested(issue.number, c.commentId)
  }

  /** The number of skipped comments. */
  function SkipCount(issue: Issue, comments: seq<Comment>, svc: IngestServices): nat {
    if comments == [] then 0
    else
      SkipCount(issue, comments[..|comments| - 1], svc)
        + (if SkipComment(issue, comments[|comments| - 1], svc) then 1 else 0)
  }

  /** The batches whose upsert succeeds, in order. */
  function Upserted(bs: seq<seq<Point>>, svc: IngestServices): (ok: seq<seq<Point>>)
    ensures |ok| <= |bs|
  {
    if bs == [] then []
    else Upserted(bs[..|bs| - 1], svc) + (if svc.upsert(bs[|bs| - 1]) then [bs[|bs| - 1]] else [])
  }

  /** A batch counts as upserted only if it is one of the batches and its upsert succeeded. */
  lemma {:induction false} UpsertedAreAccepted(bs: seq<seq<Point>>, svc: IngestServices, b: seq<Point>)
    requires b in Upserted(bs, svc)
    ensures b in bs && svc.upsert(b)
  {
    var init := bs[..|bs| - 1];
    if b in Upserted(init, svc) {
      UpsertedAreAccepted(init, svc, b);
      assert init <= bs;
    }
  }

  /** What a comment adds to the index: nothing if skipped, otherwise its batches that upserted. */
  function CommentWrites(issue: Issue, c: Comment, svc: IngestServices): seq<seq<Point>> {
    if SkipComment(issue, c, svc) then []
    else Upserted(Batches(CommentPoints(issue, c, svc), BatchSize), svc)
  }

  /** What the comments of one issue add to the index, comment by comment. */
  function Written(issue: Issue, comments: seq<Comment>, svc: IngestServices): seq<seq<Point>> {
    if comments == [] then []
    else Written(issue, comments[..|comments| - 1], svc) + CommentWrites(issue, comments[|comments| - 1], svc)
  }

  lemma PassSnoc(issue: Issue, comments: seq<Comment>, c: Comment, svc: IngestServices)
    ensures Written(issue, comments + [c], svc) == Written(issue, comments, svc) + CommentWrites(issue, c, svc)
    ensures SkipCount(issue, comments + [c], svc) == SkipCount(issue, comments, svc) + (if SkipComment(issue, c, svc) then 1 else 0)
  {
    assert (comments + [c])[..|comments|] == comments;
  }

  lemma UpsertedSnoc(bs: seq<seq<Point>>, b: seq<Point>, svc: IngestServices)
    ensures Upserted(bs + [b], svc) == Upserted(bs, svc) + (if svc.upsert(b) then [b] else [])
  {
    assert (bs + [b])[..|bs|] == bs;
  }

  /** The inner loop of the per-comment pass: upserts each batch in turn and keeps the ones that succeed. */
  method UpsertBatches(batches: seq<seq<Point>>, svc: IngestServices) returns (upserted: seq<seq<Point>>)
    ensures upserted == Upserted(batches, svc)
  {
    upserted := [];
    for j := 0 to |batches|
      invariant upserted == Upserted(batches[..j], svc)
    {
      assert batches[..j + 1] == batches[..j] + [batches[j]];
      UpsertedSnoc(batches[..j], batches[j], svc);
      if svc.upsert(batches[j]) {
        upserted := upserted + [batches[j]];
      }
    }
    assert batches[..|batches|] == batches;
  }

  /**
   * One comment of the per-issue pass: skipped when its body is missing or empty or the index
   * already holds it, otherwise chunked, batched and upserted batch by batch.
   */
  method IngestComment(issue: Issue, comment: Comment, svc: IngestServices)
    returns (skip: bool, upserted: seq<seq<Point>>)
    ensures skip == SkipComment(issue, comment, svc)
    ensures upserted == CommentWrites(issue, comment, svc)
  {
    if comment.body.None? || comment.body.value == "" {
      return true, [];
    }
    if svc.alreadyIngested(issue.number, comment.commentId) {
      return true, [];
    }
    var points := ChunkDataForComment(comment, issue, svc);
    var batches := BatchIterable(points, BatchSize);
    upserted := UpsertBatches(batches, svc);
    skip := false;
  }

  /** The counters `ingest_issues_to_qdrant` logs for one issue. */
  datatype IssueReport = IssueReport(comments: nat, skipped: nat, upsertedComments: nat, batches: nat)

  /** The report one issue's pass produces. */
  function ReportFor(issue: Issue, comments: seq<Comment>, svc: IngestServices): IssueReport {
    var n := |Written(issue, comments, svc)|;
    IssueReport(|comments|, SkipCount(issue, comments, svc), n, n)
  }

  /**
   * The pass over one issue's comments. Empty and already-ingested comments are skipped and
   * counted; a failed upsert counts nowhere; the "upserted comments" counter adds each comment's
   * batch count, so it always equals the number of batches upserted.
   */
  method IngestIssue(issue: Issue, comments: seq<Comment>, svc: IngestServices)
    returns (report: IssueReport, written: seq<seq<Point>>)
    ensures written == Written(issue, comments, svc)
    ensures report == ReportFor(issue, comments, svc)
    ensures report.skipped <= report.comments == |comments|
    ensures report.upsertedComments == report.batches == |written|
  {
    var totalSkipped: nat, totalUpsertedComments: nat, totalBatches: nat := 0, 0, 0;
    written := [];
    for i := 0 to |comments|
      invariant written == Written(issue, comments[..i], svc)
      invariant totalSkipped == SkipCount(issue, comments[..i], svc)
      invariant totalBatches == |written| && totalUpsertedComments == totalBatches
    {
      var comment := comments[i];
      assert comments[..i + 1] == comments[..i] + [comment];
      PassSnoc(issue, comments[..i], comment, svc);
      var skip, upserted := IngestComment(issue, comment, svc);
      if skip {
        totalSkipped := totalSkipped + 1;
        continue;
      }
      var batchesForComment := |upserted|;
      totalBatches := totalBatches + batchesForComment;
      if batchesForComment > 0 {
        totalUpsertedComments := totalUpsertedComments + batchesForComment;
      }
      written := written + upserted;
    }
    assert comments[..|comments|] == comments;
    SkipCountBound(issue, comments, svc);
    report := IssueReport(|comments|, totalSkipped, totalUpsertedComments, totalBatches);
  }

  /** Everything the job adds to the index, issue by issue. */
  function AllWritten(work: seq<(Issue, seq<Comment>)>, svc: IngestServices): seq<seq<Point>> {
    if work == [] then []
    else AllWritten(work[..|work| - 1], svc) + Written(work[|work| - 1].0, work[|work| - 1].1, svc)
  }

  lemma AllWrittenSnoc(work: seq<(Issue, seq<Comment>)>, w: (Issue, seq<Comment>), svc: IngestServices)
    ensures AllWritten(work + [w], svc) == AllWritten(work, svc) + Written(w.0, w.1, svc)
  {
    assert (work + [w])[..|work|] == work;
  }

  /** The reports of a run over `work`, one per issue, in order. */
  function Reports(work: seq<(Issue, seq<Comment>)>, svc: IngestServices): (rs: seq<IssueReport>)
    ensures |rs| == |work|
  {
    if work == [] then []
    else Reports(work[..|work| - 1], svc) + [ReportFor(work[|work| - 1].0, work[|work| - 1].1, svc)]
  }

  lemma ReportsSnoc(work: seq<(Issue, seq<Comment>)>, w: (Issue, seq<Comment>), svc: IngestServices)
    ensures Reports(work + [w], svc) == Reports(work, svc) + [ReportFor(w.0, w.1, svc)]
  {
    assert (work + [w])[..|work|] == work;
  }

  /** The `i`-th report is the report of the `i`-th issue's pass alone: counters do not leak between issues. */
  lemma {:induction false} ReportsAt(work: seq<(Issue, seq<Comment>)>, svc: IngestServices)
    ensures forall i :: 0 <= i < |work| ==> Reports(work, svc)[i] == ReportFor(work[i].0, work[i].1, svc)
  {
    if work != [] {
      var init := work[..|work| - 1];
      ReportsAt(init, svc);
      assert forall i :: 0 <= i < |init| ==> work[i] == init[i];
    }
  }

  /** `ingest_issues_to_qdrant`: each issue with its comments (oldest first), counters reset per issue. */
  method IngestIssuesToQdrant(work: seq<(Issue, seq<Comment>)>, svc: IngestServices)
    returns (reports: seq<IssueReport>, written: seq<seq<Point>>)
    ensures |reports| == |work|
    ensures forall i :: 0 <= i < |work| ==> reports[i] == ReportFor(work[i].0, work[i].1, svc)
    ensures written == AllWritten(work, svc)
  {
    reports, written := [], [];
    for i := 0 to |work|
      invariant reports == Reports(work[..i], svc)
      invariant written == AllWritten(work[..i], svc)
    {
      reports, written := IngestNext(work, i, svc, reports, written);
    }
    assert work[..|work|] == work;
    ReportsAt(work, svc);
  }

  /** One iteration of the job's loop: the pass over the `i`-th issue, appended to what came before. */
  method IngestNext(work: seq<(Issue, seq<Comment>)>, i: nat, svc: IngestServices,
                    reports: seq<IssueReport>, written: seq<seq<Point>>)
    returns (reports': seq<IssueReport>, written': seq<seq<Point>>)
    requires i < |work|
    requires reports == Reports(work[..i], svc) && written == AllWritten(work[..i], svc)
    ensures reports' == Reports(work[..i + 1], svc) && written' == AllWritten(work[..i + 1], svc)
  {
    assert work[..i + 1] == work[..i] + [work[i]];
    AllWrittenSnoc(work[..i], work[i], svc);
    ReportsSnoc(work[..i], work[i], svc);
    var report, issueWritten := IngestIssue(work[i].0, work[i].1, svc);
    reports' := reports + [report];
    written' := written + issueWritten;
  }

  // ---------------------------------------------------------------------------------------------
  // What the index receives
  // ---------------------------------------------------------------------------------------------

  /** The payload fields that come from the issue itself. */
  predicate DescribesIssue(p: Payload, issue: Issue) {
    && Get(p, "issue_number") == Int(issue.number)
    && Get(p, "repo") == Str(issue.repo)
    && Get(p, "owner") == Str(issue.owner)
    && Get(p, "url") == OptionalStr(issue.url)
    && Get(p, "title") == Str(issue.title)
    && Get(p, "is_bug") == OptionalBool(issue.isBug)
    && Get(p, "is_feature") == OptionalBool(issue.isFeature)
  }

  /** The ids of the comments that are not skipped. */
  function IngestibleIds(issue: Issue, comments: seq<Comment>, svc: IngestServices): set<int> {
    set c | c in comments && !SkipComment(issue, c, svc) :: c.commentId
  }

  lemma {:induction false} InBatchesInInput<T>(s: seq<T>, batchSize: int, k: nat, x: T)
    requires k < |Batches(s, batchSize)| && x in Batches(s, batchSize)[k]
    ensures x in s
    decreases |s|
  {
    var cap := BatchCap(batchSize);
    if |s| > cap && k > 0 {
      InBatchesInInput(s[cap..], batchSize, k - 1, x);
    }
  }

  /** Every point of a comment's writes carries the issue's fields and the comment's id. */
  lemma CommentWritesDescribe(issue: Issue, c: Comment, svc: IngestServices)
    ensures forall b, p :: b in CommentWrites(issue, c, svc) && p in b ==>
              !SkipComment(issue, c, svc) && DescribesIssue(p.payload, issue) && Get(p.payload, "comment_id") == Int(c.commentId)
  {
    if !SkipComment(issue, c, svc) {
      var points := CommentPoints(issue, c, svc);
      var bs := Batches(points, BatchSize);
      forall b, p | b in CommentWrites(issue, c, svc) && p in b
        ensures DescribesIssue(p.payload, issue) && Get(p.payload, "comment_id") == Int(c.commentId)
      {
        UpsertedAreAccepted(bs, svc, b);
        var k :| 0 <= k < |bs| && bs[k] == b;
        InBatchesInInput(points, BatchSize, k, p);
      }
    }
  }

  /**
   * Everything one issue's pass writes belongs to that issue and to one of its comments that was
   * not skipped: an empty or already-ingested comment is never upserted.
   */
  lemma {:induction false} WrittenPointsFromIngestibleComments(issue: Issue, comments: seq<Comment>, svc: IngestServices)
    ensures forall b, p :: b in Written(issue, comments, svc) && p in b ==>
              DescribesIssue(p.payload, issue) && Get(p.payload, "comment_id") in IdValues(IngestibleIds(issue, comments, svc))
  {
    if comments != [] {
      var init, last := comments[..|comments| - 1], comments[|comments| - 1];
      WrittenPointsFromIngestibleComments(issue, init, svc);
      CommentWritesDescribe(issue, last, svc);
      assert comments == init + [last];
      assert IngestibleIds(issue, init, svc) <= IngestibleIds(issue, comments, svc);
      assert !SkipComment(issue, last, svc) ==> last.commentId in IngestibleIds(issue, comments, svc);
    }
  }

  /** The payload values of a set of comment ids. */
  function IdValues(ids: set<int>): set<Value> {
    set id | id in ids :: Int(id)
  }

  /** Since comment ids are unique, a skipped comment's id appears in no written point. */
  lemma SkippedCommentNeverUpserted(issue: Issue, comments: seq<Comment>, svc: IngestServices, c: Comment)
    requires c in comments && SkipComment(issue, c, svc)
    requires forall d :: d in comments && d.commentId == c.commentId ==> d == c
    ensures forall b, p :: b in Written(issue, comments, svc) && p in b ==> Get(p.payload, "comment_id") != Int(c.commentId)
  {
    WrittenPointsFromIngestibleComments(issue, comments, svc);
  }

  /** The skip counter never exceeds the number of comments. */
  lemma {:induction false} SkipCountBound(issue: Issue, comments: seq<Comment>, svc: IngestServices)
    ensures SkipCount(issue, comments, svc) <= |comments|
  {
    if comments != [] {
      SkipCountBound(issue, comments[..|comments| - 1], svc);
    }
  }
}
