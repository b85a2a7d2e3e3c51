# Issue-triage pipeline and comment ingestion, modelled in Dafny

This project models the core of a GitHub-issue triage service in two parts.

The first part is the triage pipeline. An issue's title and body go through a LangGraph workflow:
- an input guardrail, which may block the issue;
- a similarity search over ingested comments (`issue_search_agent`);
- an LLM classification (`classification_agent`);
- an LLM recommendation, which cites up to four distinct reference URLs (`recommendation_agent`).

Each stage updates the shared `IssueState` dict in place. It catches its own exception and appends a stage-prefixed message to `errors`.

The second part is the ingestion job (`ingest_issues_to_qdrant`). It cuts every stored comment into chunks and builds one point per chunk; the point's payload describes the issue. The points are upserted into the vector index in batches of 20. The job counts the comments it skips and the batches it upserts.

Modules:
- `Wrappers`: `Option` and `Result`.
- `AgentModels`: the records and the `IssueState` class. A stage mutates the class; `Record()` gives its current value.
- `Agents`: each stage twice. A pure step function on the record carries the contract. An in-place method on `IssueState` is proved equal to that function. `CollectReferences` is the URL-dedup loop, proved against `TopReferences`.
- `Graph`: three pieces.
  - A `StateGraph` builder class, driven by `BuildIssueWorkflow` in the source's call order.
  - The compiled graph as data, with `Next` as the step function over node names.
  - `RunFrom`/`Run` as the reference semantics of a run, and `RunWorkflow`, a loop method proved to follow it.
- `DbModels`: the `Issue` and `Comment` rows, as plain records.
- `IngestEmbeddings`:
  - `batch_iterable`, as a loop method proved equal to the recursive `Batches`;
  - `chunk_data_for_comment`;
  - the per-comment, per-issue and whole-job loops, proved equal to the recursive functions `Written`, `SkipCount`, `Reports` and `AllWritten`.
- `PayloadContract`: a point the ingestion job writes comes back from the search stage as the similar-issue record of the same issue, comment and chunk.

External calls are arrow-typed fields of a services record. These are the guardrail, the vector search, the two LLM calls, the text wrapper, the id generator, the embedding models, the "already ingested" lookup and the upsert. Their results differ:
- The vector search and the two LLM calls return a `Result`, whose `Failure` carries the exception text the stage logs.
- The upsert returns whether the batch was accepted. Its error text (`ingest_embeddings.py:120-121`) only goes to the log, which is not modelled.
- The guardrail and the remaining ingestion oracles (wrapper, ids, embeddings, "already ingested") never fail; see "## Left out".

Where the code differs from what its tests or its types suggest, the model follows the code:
- `tests/integration/test_full_graph_output_guardrails.py:54-56` expects a run to end blocked by an output-safety check after the recommendation. `graph.py` has no such node, so the model ends the run after `Recommendation`.
- `guardrail_condition` reads `blocked` with `state.get("blocked")` (`graph.py:22`), so an absent key means "pass"; there is no default of false in the state.
- The stages log with the prefixes "Async vector search error: ", "Classification error: " and "Recommendation error: " (`agents.py:38`, `60`, `97`); the model uses exactly those prefixes.
- The `IssueState` TypedDict (`src/models/agent_models.py:18-24`) has no `blocked` or `validation_summary` keys, although the guardrail writes them and `guardrail_condition` reads `blocked`. The model's record has both keys, as optional fields.

## Model

| member | source | states |
|---|---|---|
| AgentModels.Get | src/agents/agents.py:18-29 | `payload.get(key)`: the stored value when the key is present, `None` when it is absent |
| AgentModels.WithError | src/agents/agents.py:38 | `setdefault("errors", []).append(msg)`: afterwards `errors` exists and is the old log (empty if absent) plus `msg`; no other key changes |
| AgentModels.IssueState.constructor | src/agents/graph.py:49 | the initial state holds only `title` and `body` |
| AgentModels.IssueState.AppendError | src/agents/agents.py:38 | the in-place append leaves the state equal to `WithError` of the old state |
| Agents.QueryText | src/agents/agents.py:14 | the query is the title, one space, then the body, an absent title or body counting as empty |
| Agents.GuardrailStep | src/agents/graph.py:15 | the opaque guardrail changes only `blocked` and `validation_summary`; every other key, `errors` included, is as it was |
| Agents.GuardrailAgent | src/agents/graph.py:15 | the in-place guardrail agrees with `GuardrailStep` |
| Agents.ToSimilarIssue | src/agents/agents.py:18-29 | each of the nine payload fields of the record is `payload.get` of its key (`issue_number`, `repo`, `owner`, `title`, `url`, `comment_id`, `chunk_text`, `is_bug`, `is_feature`), and `score` is the hit's score |
| Agents.ToSimilarIssues | src/agents/agents.py:17-32 | there are as many records as hits with a payload |
| Agents.ToSimilarIssuesAt | src/agents/agents.py:17-32 | hit `i`, when it has a payload, becomes the record at the position after the records of the earlier hits; the records keep hit order |
| Agents.ToSimilarIssuesLength | src/agents/agents.py:31 | at most one record per hit, and one per hit exactly when no hit lacks a payload |
| Agents.SearchStep | src/agents/agents.py:12-39 | only `similar_issues` and `errors` change. On success `similar_issues` is the mapped hits and `errors` is unchanged. On failure `similar_issues` is unchanged and exactly one "Async vector search error: " entry is appended; no earlier entry is lost |
| Agents.IssueSearchAgent | src/agents/agents.py:12-39 | the in-place stage agrees with `SearchStep` |
| Agents.ClassificationOutcome | src/agents/agents.py:48-56 | a missing `title`, `body` or `similar_issues` raises `KeyError`, checked in that order; otherwise the result is the model call on those three values |
| Agents.ClassifyStep | src/agents/agents.py:47-61 | only `classification` and `errors` change, and at most one "Classification error: " entry is appended. When the call succeeds, `classification` is its result and `errors` is unchanged; when it fails (a `KeyError` included), `classification` is as it was and exactly one "Classification error: " entry with the error text is appended |
| Agents.ClassificationAgent | src/agents/agents.py:47-61 | the in-place stage, with its early returns, agrees with `ClassifyStep` |
| Agents.Urls | src/agents/agents.py:70-71 | the `url` of each similar issue, in order |
| Agents.FirstOccurrencesSpec | src/agents/agents.py:67-74 | the first occurrences hold every URL of the input and nothing else, have no duplicates, and are a subsequence of the input |
| Agents.FirstOccurrencesSnoc | src/agents/agents.py:72-74 | one more URL is appended exactly when it has not been seen |
| Agents.FirstOccurrencesOfPrefix | src/agents/agents.py:75-76 | stopping early on a prefix gives a prefix of the full first occurrences |
| Agents.TopReferences | src/agents/agents.py:67-76 | at most 4 references, a prefix of the first occurrences of the URLs; fewer than 4 only when they are all of them |
| Agents.TopReferencesSpec | src/agents/agents.py:67-76 | the references have no duplicates, keep first-seen order, are a subsequence of the URLs and number min(4, distinct URLs); a missing `similar_issues` counts as empty |
| Agents.CollectReferences | src/agents/agents.py:67-76 | the loop with its seen-set and its `break` at 4 computes `TopReferences` |
| Agents.IsSpace | src/agents/agents.py:83 | the characters `str.strip()` removes; among the first 256 code points exactly space, tab, LF, VT, FF, CR, U+001C to U+001F, U+0085 and U+00A0 |
| Agents.SkipSpaces | src/agents/agents.py:83 | the scan from the left passes only whitespace and stops at the end or on a non-whitespace character |
| Agents.SkipSpacesBack | src/agents/agents.py:83 | the scan from the right passes only whitespace and stops at the left bound or after a non-whitespace character |
| Agents.Strip | src/agents/agents.py:83 | `str.strip()`: no longer than the input, with no whitespace at either end |
| Agents.StripIsSlice | src/agents/agents.py:83 | the stripped text is a contiguous slice of the input, with only whitespace before and after it |
| Agents.StripIdempotent | src/agents/agents.py:83 | stripping twice is stripping once |
| Agents.JoinWithSpaces | src/agents/agents.py:86 | `" ".join`: the empty list gives the empty string, and one item gives itself |
| Agents.JoinWithSpacesLength | src/agents/agents.py:86 | the joined length is the items' total length plus one separator between each pair |
| Agents.NormalizeSummary | src/agents/agents.py:82-88 | string content is stripped; a list is joined with single spaces and then stripped; other content is its `str()` stripped; the summary never has whitespace at either end |
| Agents.NormalizeSummaryIdempotent | src/agents/agents.py:82-88 | normalising a summary again changes nothing |
| Agents.RecommendStep | src/agents/agents.py:64-98 | only `recommendation` and `errors` change, and at most one "Recommendation error: " entry is appended. On success `recommendation` is the normalised reply with `TopReferences` (at most 4) and `errors` is unchanged; on failure `recommendation` is as it was and exactly one "Recommendation error: " entry with the error text is appended |
| Agents.RecommendationAgent | src/agents/agents.py:64-98 | the in-place stage, using the dedup loop, agrees with `RecommendStep` |
| Graph.StateGraph.constructor | src/agents/graph.py:12 | a new builder has no entry point, no nodes and no edges |
| Graph.StateGraph.SetEntryPoint | src/agents/graph.py:13 | sets the entry point, and nothing else |
| Graph.StateGraph.AddNode | src/agents/graph.py:15-18 | adds one node, and nothing else |
| Graph.StateGraph.AddConditionalEdges | src/agents/graph.py:24 | gives `source` a branch on the route label, and nothing else |
| Graph.StateGraph.AddEdge | src/agents/graph.py:26-28 | gives `source` a fixed successor, and nothing else |
| Graph.IssueWorkflow | src/agents/graph.py:11-30 | the compiled workflow is well formed, enters at `Guardrail`, has the four stage nodes and gives each of them an outgoing edge |
| Graph.BuildIssueWorkflow | src/agents/graph.py:11-30 | the builder calls produce exactly the issue workflow graph, and that graph is well formed |
| Graph.GuardrailCondition | src/agents/graph.py:21-22 | "pass" exactly when `blocked` is absent or false |
| Graph.Next | src/agents/graph.py:24-28 | in a well-formed graph the next node is a declared node or `END`; a node without an edge is followed by `END` |
| Graph.Execute | src/agents/graph.py:15-18 | no stage changes `title` or `body`; the `END` marker changes nothing |
| Graph.WorkflowNext | src/agents/graph.py:24-28 | after the guardrail comes the search on "pass" and the end on "block"; then search, classification, recommendation and the end, in a fixed line |
| Graph.NextDescends | src/agents/graph.py:24-28 | every edge lowers the rank, so the graph is acyclic |
| Graph.BlockedRunStops | src/agents/graph.py:24 | a blocked issue runs only the guardrail; no search, classification or recommendation runs |
| Graph.PassingRunVisitsEveryStage | src/agents/graph.py:24-28 | otherwise search, classification and recommendation each run once, in that order, whatever their calls return; the final state is the composition of the four steps |
| Graph.RunFromIsShort | src/agents/graph.py:24-28 | from any node a run executes at most that node's rank of nodes, never `END` |
| Graph.RunIsShort | src/agents/graph.py:13 | every run starts at `Guardrail`, executes one to four nodes and never executes `END` |
| Graph.ExecuteKeepsErrors | src/agents/graph.py:15-18 | one node keeps every earlier error and adds at most one; the guardrail adds none |
| Graph.RunFromKeepsErrors | src/agents/graph.py:24-28 | from any node a run keeps the error log's prefix and adds at most one entry per logging stage |
| Graph.RunKeepsErrors | src/agents/graph.py:24-28 | a whole run keeps every earlier error and adds at most three |
| Graph.ExecuteNode | src/agents/graph.py:15-18 | executing a node runs the stage method it was registered with |
| Graph.RunStep | src/agents/graph.py:24-28 | one iteration of the executor keeps it on the path of the reference run, and the rank drops |
| Graph.RunWorkflow | src/agents/graph.py:48-49 | the executor loop leaves the state and the visited nodes equal to those of `Run` |
| Graph.ProcessIssue | src/agents/graph.py:48-49 | the workflow is built and compiled, and `ainvoke({"title", "body"})` on it is a run from the initial state |
| IngestEmbeddings.BatchCap | src/vectorstore/ingest_embeddings.py:25 | the effective batch size is at least 1, and equals `batch_size` when that is at least 1 |
| IngestEmbeddings.SplitTextIntoChunks | src/vectorstore/ingest_embeddings.py:13-18 | a comment is cut by the line wrapper at a width of 1000 characters |
| IngestEmbeddings.Batches | src/vectorstore/ingest_embeddings.py:21-29 | no batches exactly for empty input; every batch is non-empty and at most the size; all but the last have exactly the size |
| IngestEmbeddings.BatchesFlatten | src/vectorstore/ingest_embeddings.py:21-29 | concatenating the batches gives back the input, in order |
| IngestEmbeddings.BatchesCount | src/vectorstore/ingest_embeddings.py:24-27 | there are ceil(n / size) batches |
| IngestEmbeddings.BatchIterable | src/vectorstore/ingest_embeddings.py:21-29 | the buffer loop yields exactly `Batches` |
| IngestEmbeddings.PayloadFor | src/vectorstore/ingest_embeddings.py:55-65 | a payload has exactly the nine keys |
| IngestEmbeddings.CommentPoints | src/vectorstore/ingest_embeddings.py:49-65 | one point per chunk; point k has the id for (comment id, k) and the payload of chunk k |
| IngestEmbeddings.ChunkDataForComment | src/vectorstore/ingest_embeddings.py:46-66 | one point per chunk, in chunk order; `chunk_text` is that chunk, `comment_id` is the comment's, and the other fields come from the issue |
| IngestEmbeddings.SkipComment | src/vectorstore/ingest_embeddings.py:84-94 | a comment is ingested exactly when its body is present and non-empty and it is not already in the index |
| IngestEmbeddings.Upserted | src/vectorstore/ingest_embeddings.py:106-121 | no more successful batches than batches |
| IngestEmbeddings.UpsertedAreAccepted | src/vectorstore/ingest_embeddings.py:106-121 | a batch counts as upserted only if it is one of the comment's batches and its upsert succeeded |
| IngestEmbeddings.UpsertBatches | src/vectorstore/ingest_embeddings.py:100-121 | the upsert loop keeps exactly the batches whose upsert succeeds, in order; a failed upsert counts nowhere |
| IngestEmbeddings.IngestComment | src/vectorstore/ingest_embeddings.py:84-121 | a comment is skipped exactly when its body is missing or empty or it is already ingested; otherwise its successful batches are written |
| IngestEmbeddings.IngestIssue | src/vectorstore/ingest_embeddings.py:79-127 | the counters: `total_skipped` counts the skipped comments and never exceeds the comment count; `total_upserted_comments == total_batches ==` the number of batches written |
| IngestEmbeddings.ReportsAt | src/vectorstore/ingest_embeddings.py:79-81 | the counters are reset per issue: the i-th report is that issue's pass alone |
| IngestEmbeddings.IngestIssuesToQdrant | src/vectorstore/ingest_embeddings.py:69-135 | one report per issue, and everything written is the issues' writes in order |
| IngestEmbeddings.CommentWritesDescribe | src/vectorstore/ingest_embeddings.py:84-121 | every point written for a comment carries its issue's fields and the comment's id, and comes from a comment that was not skipped |
| IngestEmbeddings.WrittenPointsFromIngestibleComments | src/vectorstore/ingest_embeddings.py:83-127 | every point an issue's pass writes describes that issue and carries the id of one of its non-skipped comments |
| IngestEmbeddings.SkippedCommentNeverUpserted | src/vectorstore/ingest_embeddings.py:84-94 | with unique comment ids, a skipped comment's id appears in no written point |
| IngestEmbeddings.SkipCountBound | src/vectorstore/ingest_embeddings.py:84-94 | the skip count never exceeds the number of comments |
| PayloadContract.SearchReadsWhatIngestionWrites | src/agents/agents.py:18-29 | the search stage turns an ingested payload into the record of that issue, comment and chunk with the hit's score |
| PayloadContract.IngestedHitsBecomeRecords | src/agents/agents.py:17-32 | hits on ingested points, each from its own issue, comment and chunk, become one such record each, in hit order |

## Left out

- Vector search: Qdrant's RRF fusion, the dense-score threshold and the prefetch limits run inside the Qdrant server, so the search is an opaque function from query text to hits or a failure.
- `split_text_into_chunks`: `textwrap.wrap`'s whitespace and hyphenation rules are library behaviour, so it is an opaque `wrap(text, 1000)`.
- Point ids and embeddings: `uuid.uuid4()` is random, and the embedding models are foreign code. Ids are an oracle indexed by the comment id and the chunk number; vectors are oracles of the chunk text.
- `comment_already_ingested`: the scroll query is an oracle of (issue number, comment id). It answers for the index as it stood before the run; a comment id repeated later in the same run is not seen as ingested.
- The guardrail: `guardrail_agent` is imported but its code is not part of this model. It is an opaque function of the state that sets `blocked` and `validation_summary`. Its fail-closed behaviour and validator types are not modelled.
- The output guardrail, which the integration test expects: `graph.py` has no such node, so it is not modelled.
- `PromptTemplates` and the LLM clients: the templates' code is not part of this model. Building a prompt and calling the model are folded into one oracle per stage, and a failure of either surfaces as that oracle's `Failure`.
- `ClassificationState(**parsed)`: a `TypedDict` call does not validate, so the tool call's arguments are stored as they are, with keys missing, extra or of other types. The model's `Classification` record holds the `ResponseFormatter` fields and cannot represent such partial or extra-key values: the oracle returns a whole record. Only an absent tool call (`tool_calls[0]` raising `IndexError`) or arguments that are not a mapping raise, and those surface as the oracle's `Failure`.
- Agents.NormalizeSummary: list items are taken as already rendered by `str()`, and non-string, non-list content as its `str()` text; Python's object rendering is not modelled.
- Agents.CollectReferences: URLs are payload scalars, all hashable. An unhashable `url` value, which would raise `TypeError` inside the stage, is not modelled. URL values are compared structurally, so Python's `1 == True` and `0 == False` (which make `seen_urls` treat `1` and `True` as one URL) are not modelled; `TopReferences` keeps both. The ingestion job writes only a string or `None` under `url`, so its own points never meet this case.
- LangGraph: channel merging of returned dicts, rejection of keys outside the `IssueState` schema, duplicate `add_node` errors and fan-out edges are not modelled. The state is threaded through the stages as one record.
- async/await: the stages run strictly one after another, so they are ordinary sequential methods.
- Floating point: hit scores are only copied, so they are `real`.
- Logging (`loguru`) and the CLI entry points are left out, and so is the `result` printing in `graph.py`'s `main`.
- The database session: `session.query(...)`, `yield_per` and the ordering by `created_at` are the job's input, a sequence of issues, each with its comments already ordered.
- `ingest_issues_to_qdrant`'s outer `try/except`: an exception outside an upsert (a failing query, chunker or embedding call) aborts the remaining issues. The model's oracles do not fail, so this abort path is not modelled; only the upsert can fail.
- Database schema, init and drop scripts, AWS CDK stacks, `config.py`, `graph_service.py` and the collection and index scripts are infrastructure and are not part of this model.
