/**
 * The records the issue-triage pipeline passes between its stages: search hits, similar-issue
 * records, the classification and the recommendation, and the shared issue state itself.
 * Every key of the Python `IssueState` dict is optional, so every field here is an `Option`.
 */
module AgentModels {
  import opened Wrappers

  /** A JSON scalar as stored in a vector-index payload; `Null` stands for Python's `None`. */
  datatype Value = Null | Int(i: int) | Str(s: string) | Bool(b: bool)

  /** A point's payload: the key-value map attached to it in the vector index. */
  type Payload = map<string, Value>

  /** `payload.get(key)`: the value under `key`, or `Null` when the key is absent. */
  function Get(p: Payload, key: string): (v: Value)
    ensures key in p ==> v == p[key]
    ensures key !in p ==> v == Null
  {
    if key in p then p[key] else Null
  }

  /** A scored point returned by the similarity search; its payload may be missing. */
  datatype Hit = Hit(score: real, payload: Option<Payload>)

  /** One entry of `similar_issues`, built from a hit. */
  datatype SimilarIssue = SimilarIssue(
    issueNumber: Value,
    repo: Value,
    owner: Value,
    title: Value,
    url: Value,
    commentId: Value,
    chunkText: Value,
    score: real,
    isBug: Value,
    isFeature: Value)

  /** The structured output of the classification model (the fields of `ResponseFormatter`). */
  datatype Classification = Classification(
    category: string,
    priority: string,
    labels: seq<string>,
    assignee: string,
    errors: seq<string>)

  /** The drafted recommendation: a summary and the reference URLs it cites. */
  datatype Recommendation = Recommendation(summary: string, references: seq<Value>)

  datatype ErrorSpan = ErrorSpan(start: int, end: int, reason: string)

  /** What a safety check reports when it blocks an issue. */
  datatype ValidationSummary = ValidationSummary(
    kind: string,
    failureReason: string,
    score: Option<real>,
    errorSpans: Option<seq<ErrorSpan>>)

  /** The value of an `IssueState` dict at one moment; `None` means the key is absent. */
  datatype IssueRecord = IssueRecord(
    title: Option<string>,
    body: Option<string>,
    similarIssues: Option<seq<SimilarIssue>>,
    classification: Option<Classification>,
    recommendation: Option<Recommendation>,
    errors: Option<seq<string>>,
    blocked: Option<bool>,
    validationSummary: Option<ValidationSummary>)
  {
    /** The error log, an absent `errors` key read as the empty list. */
    function Errors(): seq<string> {
      errors.GetOr([])
    }
  }

  /** `state.setdefault("errors", []).append(msg)` on a record. */
  function WithError(r: IssueRecord, msg: string): (r': IssueRecord)
    ensures r'.errors.Some? && r'.Errors() == r.Errors() + [msg]
    ensures r' == r.(errors := r'.errors)
  {
    r.(errors := Some(r.Errors() + [msg]))
  }

  /** The `IssueState` dict that the stages update in place. */
  class IssueState {
    var title: Option<string>
    var body: Option<string>
    var similarIssues: Option<seq<SimilarIssue>>
    var classification: Option<Classification>
    var recommendation: Option<Recommendation>
    var errors: Option<seq<string>>
    var blocked: Option<bool>
    var validationSummary: Option<ValidationSummary>

    /** The dict's current contents. */
    function Record(): IssueRecord
      reads this
    {
      IssueRecord(title, body, similarIssues, classification, recommendation, errors, blocked, validationSummary)
    }

    /** The initial state `{"title": title, "body": body}` a run is invoked with. */
    constructor (title: string, body: string)
      ensures Record() == IssueRecord(Some(title), Some(body), None, None, None, None, None, None)
    {
      this.title := Some(title);
      this.body := Some(body);
      similarIssues, classification, recommendation := None, None, None;
      errors, blocked, validationSummary := None, None, None;
    }

    /** `state.setdefault("errors", []).append(msg)`: creates the log if missing, keeps every earlier entry. */
    method AppendError(msg: string)
      modifies this
      ensures Record() == WithError(old(Record()), msg)
    {
      errors := Some(errors.GetOr([]) + [msg]);
    }
  }
}
