/**
 * The contract between the ingestion job and the similarity search: a point written for a
 * comment chunk, when it comes back as a search hit, turns into a similar-issue record that
 * describes the same issue, comment and chunk.
 */
module PayloadContract {
  import opened Wrappers
  import opened AgentModels
  import opened DbModels
  import A = Agents
  import I = IngestEmbeddings

  /** The issue, comment id and chunk text a point was written for. */
  datatype ChunkSource = ChunkSource(issue: Issue, commentId: int, chunk: string)

  /** The similar-issue record a chunk of a comment on `issue` should come back as. */
  function Expected(issue: Issue, commentId: int, chunk: string, score: real): SimilarIssue {
    SimilarIssue(
      Int(issue.number), Str(issue.repo), Str(issue.owner), Str(issue.title), I.OptionalStr(issue.url),
      Int(commentId), Str(chunk), score, I.OptionalBool(issue.isBug), I.OptionalBool(issue.isFeature))
  }

  /**
   * Every key the search stage reads is one the ingestion job writes, under the same name, so a
   * hit on an ingested point loses nothing: its record carries the issue's fields, the comment's
   * id, the chunk's text and the hit's score.
   */
  lemma SearchReadsWhatIngestionWrites(issue: Issue, commentId: int, chunk: string, score: real)
    ensures A.ToSimilarIssue(Hit(score, Some(I.PayloadFor(issue, commentId, chunk)))) == Expected(issue, commentId, chunk, score)
  {
    var p := I.PayloadFor(issue, commentId, chunk);
    assert "issue_number" in p && "repo" in p && "owner" in p && "title" in p && "url" in p;
    assert "comment_id" in p && "chunk_text" in p && "is_bug" in p && "is_feature" in p;
  }

  /**
   * Hence the search stage finds one record per ingested hit, in hit order, each as expected from
   * the (issue, comment id, chunk) its point was written for; the hits may come from any comments.
   */
  lemma {:induction false} IngestedHitsBecomeRecords(hits: seq<Hit>, sources: seq<ChunkSource>)
    requires |hits| == |sources|
    requires forall k :: 0 <= k < |hits| ==>
               hits[k].payload == Some(I.PayloadFor(sources[k].issue, sources[k].commentId, sources[k].chunk))
    ensures var out := A.ToSimilarIssues(hits);
            && |out| == |hits|
            && forall k :: 0 <= k < |hits| ==>
                 out[k] == Expected(sources[k].issue, sources[k].commentId, sources[k].chunk, hits[k].score)
  {
    A.ToSimilarIssuesLength(hits);
    forall k | 0 <= k < |hits|
      ensures A.ToSimilarIssues(hits)[k] == Expected(sources[k].issue, sources[k].commentId, sources[k].chunk, hits[k].score)
    {
      A.ToSimilarIssuesAt(hits, k);
      AllCounted(hits[..k]);
      assert forall j :: 0 <= j < k ==> hits[..k][j] == hits[j];
      SearchReadsWhatIngestionWrites(sources[k].issue, sources[k].commentId, sources[k].chunk, hits[k].score);
    }
  }

  lemma {:induction false} AllCounted(hits: seq<Hit>)
    requires forall k :: 0 <= k < |hits| ==> hits[k].payload.Some?
    ensures A.CountWithPayload(hits) == |hits|
  {
    if hits != [] {
      AllCounted(hits[1..]);
    }
  }
}
