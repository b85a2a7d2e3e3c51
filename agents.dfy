/**
 * The stages of the issue-triage pipeline: the similarity search, the classification and the
 * recommendation, plus the opaque input guardrail. Each stage is given twice: as a pure step
 * function on an `IssueRecord` (what the stage does to the dict's value), and as a method that
 * updates an `IssueState` in place and is proved to agree with it. A stage never raises: the
 * failure of the call it makes is caught and logged in `errors` under a stage-specific prefix.
 */
module Agents {
  import opened Wrappers
  import opened AgentModels

  const SearchErrorPrefix := "Async vector search error: "
  const ClassificationErrorPrefix := "Classification error: "
  const RecommendationErrorPrefix := "Recommendation error: "

  /** The recommendation cites at most this many distinct URLs. */
  const MaxReferences := 4

  /** What the classification prompt is formatted from. */
  datatype ClassificationPrompt = ClassificationPrompt(title: string, body: string, similarIssues: seq<SimilarIssue>)

  /** What the summary prompt is built from: a copy of the state and the chosen references. */
  datatype SummaryPrompt = SummaryPrompt(state: IssueRecord, references: seq<Value>)

  /** The content of a chat model's reply: a string, a list of parts (each already rendered by `str`), or anything else. */
  datatype Content = Text(text: string) | Parts(items: seq<string>) | Other(rendered: string)

  /** What the opaque input guardrail decides: the new values of `blocked` and `validation_summary`. */
  datatype GuardVerdict = GuardVerdict(blocked: Option<bool>, validationSummary: Option<ValidationSummary>)

  /**
   * The external calls the stages make. Each is a function of what it is given that returns a
   * value or fails with the exception's text; building the prompt is folded into the model call.
   */
  datatype Services = Services(
    guard: IssueRecord -> GuardVerdict,
    search: string -> Result<seq<Hit>>,
    classify: ClassificationPrompt -> Result<Classification>,
    summarize: SummaryPrompt -> Result<Content>)

  predicate StartsWith(s: string, prefix: string) {
    |prefix| <= |s| && s[..|prefix|] == prefix
  }

  /**
   * What every stage does to the error log: it is either unchanged or has exactly one new entry
   * at the end, starting with `prefix`; earlier entries are never dropped.
   */
  predicate LogsAtMostOne(r: IssueRecord, r': IssueRecord, prefix: string) {
    || r'.errors == r.errors
    || (&& r'.errors.Some?
        && |r'.Errors()| == |r.Errors()| + 1
        && r'.Errors()[..|r.Errors()|] == r.Errors()
        && StartsWith(r'.Errors()[|r.Errors()|], prefix))
  }

  // ---------------------------------------------------------------------------------------------
  // Guardrail (opaque)
  // ---------------------------------------------------------------------------------------------

  /** The guardrail stage: it may set `blocked` and `validation_summary` and touches nothing else. */
  function GuardrailStep(r: IssueRecord, guard: IssueRecord -> GuardVerdict): (r': IssueRecord)
    ensures r' == r.(blocked := r'.blocked, validationSummary := r'.validationSummary)
  {
    var v := guard(r);
    r.(blocked := v.blocked, validationSummary := v.validationSummary)
  }

  method GuardrailAgent(state: IssueState, guard: IssueRecord -> GuardVerdict)
    modifies state
    ensures state.Record() == GuardrailStep(old(state.Record()), guard)
  {
    var v := guard(state.Record());
    state.blocked := v.blocked;
    state.validationSummary := v.validationSummary;
  }

  // ---------------------------------------------------------------------------------------------
  // Issue search
  // ---------------------------------------------------------------------------------------------

  /** The query: title and body joined by one space, an absent key read as the empty string. */
  function QueryText(r: IssueRecord): (q: string)
    ensures |q| == |r.title.GetOr("")| + 1 + |r.body.GetOr("")|
    ensures q[..|r.title.GetOr("")|] == r.title.GetOr("") && q[|r.title.GetOr("")|] == ' '
    ensures q[|r.title.GetOr("")| + 1..] == r.body.GetOr("")
  {
    r.title.GetOr("") + " " + r.body.GetOr("")
  }

  /** The similar-issue record of a hit that has a payload. */
  function ToSimilarIssue(h: Hit): (s: SimilarIssue)
    requires h.payload.Some?
    ensures s.score == h.score
    ensures s.issueNumber == Get(h.payload.value, "issue_number")
    ensures s.repo == Get(h.payload.value, "repo") && s.owner == Get(h.payload.value, "owner")
    ensures s.title == Get(h.payload.value, "title") && s.url == Get(h.payload.value, "url")
    ensures s.commentId == Get(h.payload.value, "comment_id") && s.chunkText == Get(h.payload.value, "chunk_text")
    ensures s.isBug == Get(h.payload.value, "is_bug") && s.isFeature == Get(h.payload.value, "is_feature")
  {
    var p := h.payload.value;
    SimilarIssue(
      Get(p, "issue_number"), Get(p, "repo"), Get(p, "owner"), Get(p, "title"), Get(p, "url"),
      Get(p, "comment_id"), Get(p, "chunk_text"), h.score, Get(p, "is_bug"), Get(p, "is_feature"))
  }

  /** The number of hits that carry a payload. */
  function CountWithPayload(hits: seq<Hit>): nat {
    if hits == [] then 0
    else (if hits[0].payload.Some? then 1 else 0) + CountWithPayload(hits[1..])
  }

  /** The comprehension of `issue_search_agent`: one record per hit with a payload, in hit order. */
  function ToSimilarIssues(hits: seq<Hit>): (out: seq<SimilarIssue>)
    ensures |out| == CountWithPayload(hits)
  {
    if hits == [] then []
    else
      var rest := ToSimilarIssues(hits[1..]);
      if hits[0].payload.Some? then [ToSimilarIssue(hits[0])] + rest else rest
  }

  /**
   * Hit `i`, when it has a payload, becomes the record right after those of the hits before it:
   * records keep the hits' order, and hits without a payload leave no record.
   */
  lemma {:induction false} ToSimilarIssuesAt(hits: seq<Hit>, i: nat)
    requires i < |hits| && hits[i].payload.Some?
    ensures CountWithPayload(hits[..i]) < |ToSimilarIssues(hits)|
    ensures ToSimilarIssues(hits)[CountWithPayload(hits[..i])] == ToSimilarIssue(hits[i])
  {
    if i == 0 {
      assert hits[..0] == [];
    } else {
      ToSimilarIssuesAt(hits[1..], i - 1);
      assert hits[..i] == [hits[0]] + hits[1..][..i - 1];
      assert hits[..i][1..] == hits[1..][..i - 1];
    }
  }

  /** Hits are dropped exactly when their payload is missing. */
  lemma {:induction false} ToSimilarIssuesLength(hits: seq<Hit>)
    ensures |ToSimilarIssues(hits)| <= |hits|
    ensures |ToSimilarIssues(hits)| == |hits| <==> forall i :: 0 <= i < |hits| ==> hits[i].payload.Some?
  {
    if hits != [] {
      ToSimilarIssuesLength(hits[1..]);
      if hits[0].payload.None? {
        assert !(forall i :: 0 <= i < |hits| ==> hits[i].payload.Some?) by { assert hits[0].payload.None?; }
      } else {
        assert (forall i :: 0 <= i < |hits| ==> hits[i].payload.Some?)
          <==> (forall i :: 0 <= i < |hits[1..]| ==> hits[1..][i].payload.Some?) by {
          if forall i :: 0 <= i < |hits[1..]| ==> hits[1..][i].payload.Some? {
            forall i | 0 <= i < |hits| ensures hits[i].payload.Some? {
              if i > 0 { assert hits[i] == hits[1..][i - 1]; }
            }
          }
        }
      }
    }
  }

  /**
   * `issue_search_agent`: on success `similar_issues` is replaced by the hits' records; on failure
   * one prefixed message is logged and nothing else changes.
   */
  function SearchStep(r: IssueRecord, search: string -> Result<seq<Hit>>): (r': IssueRecord)
    ensures LogsAtMostOne(r, r', SearchErrorPrefix)
    ensures r' == r.(similarIssues := r'.similarIssues, errors := r'.errors)
    ensures search(QueryText(r)).Success? ==>
              r'.errors == r.errors && r'.similarIssues == Some(ToSimilarIssues(search(QueryText(r)).value))
    ensures search(QueryText(r)).Failure? ==>
              r'.similarIssues == r.similarIssues && r'.Errors() == r.Errors() + [SearchErrorPrefix + search(QueryText(r)).error]
  {
    match search(QueryText(r))
    case Success(hits) => r.(similarIssues := Some(ToSimilarIssues(hits)))
    case Failure(e) => WithError(r, SearchErrorPrefix + e)
  }

  method IssueSearchAgent(state: IssueState, search: string -> Result<seq<Hit>>)
    modifies state
    ensures state.Record() == SearchStep(old(state.Record()), search)
  {
    var query := QueryText(state.Record());
    var results := search(query);
    if results.Success? {
      state.similarIssues := Some(ToSimilarIssues(results.value));
    } else {
      state.AppendError(SearchErrorPrefix + results.error);
    }
  }

  // ---------------------------------------------------------------------------------------------
  // Classification
  // ---------------------------------------------------------------------------------------------

  /** The text of a `KeyError` for `key`, as `str(e)` renders it. */
  function KeyErrorText(key: string): string {
    "'" + key + "'"
  }

  /**
   * The classification call: the prompt arguments are read as `state["title"]`, `state["body"]`,
   * `state["similar_issues"]`, in that order, and the first absent one raises a `KeyError`.
   */
  function ClassificationOutcome(r: IssueRecord, classify: ClassificationPrompt -> Result<Classification>): (res: Result<Classification>)
    ensures r.title.None? ==> res == Failure(KeyErrorText("title"))
    ensures r.title.Some? && r.body.None? ==> res == Failure(KeyErrorText("body"))
    ensures r.title.Some? && r.body.Some? && r.similarIssues.None? ==> res == Failure(KeyErrorText("similar_issues"))
    ensures r.title.Some? && r.body.Some? && r.similarIssues.Some? ==>
              res == classify(ClassificationPrompt(r.title.value, r.body.value, r.similarIssues.value))
  {
    if r.title.None? then Failure(KeyErrorText("title"))
    else if r.body.None? then Failure(KeyErrorText("body"))
    else if r.similarIssues.None? then Failure(KeyErrorText("similar_issues"))
    else classify(ClassificationPrompt(r.title.value, r.body.value, r.similarIssues.value))
  }

  /**
   * `classification_agent`: `classification` is assigned only when the call succeeds; a failure
   * logs one prefixed message and leaves `classification` as it was.
   */
  function ClassifyStep(r: IssueRecord, classify: ClassificationPrompt -> Result<Classification>): (r': IssueRecord)
    ensures LogsAtMostOne(r, r', ClassificationErrorPrefix)
    ensures r' == r.(classification := r'.classification, errors := r'.errors)
    ensures r'.classification != r.classification ==> r'.classification.Some? && r'.errors == r.errors
    ensures r.similarIssues.None? ==> r'.classification == r.classification && |r'.Errors()| == |r.Errors()| + 1
    ensures ClassificationOutcome(r, classify).Success? ==>
              r'.classification == Some(ClassificationOutcome(r, classify).value) && r'.errors == r.errors
    ensures ClassificationOutcome(r, classify).Failure? ==>
              r'.classification == r.classification
              && r'.Errors() == r.Errors() + [ClassificationErrorPrefix + ClassificationOutcome(r, classify).error]
  {
    match ClassificationOutcome(r, classify)
    case Success(c) => r.(classification := Some(c))
    case Failure(e) => WithError(r, ClassificationErrorPrefix + e)
  }

  method ClassificationAgent(state: IssueState, classify: ClassificationPrompt -> Result<Classification>)
    modifies state
    ensures state.Record() == ClassifyStep(old(state.Record()), classify)
  {
    if state.title.None? {
      state.AppendError(ClassificationErrorPrefix + KeyErrorText("title"));
      return;
    }
    if state.body.None? {
      state.AppendError(ClassificationErrorPrefix + KeyErrorText("body"));
      return;
    }
    if state.similarIssues.None? {
      state.AppendError(ClassificationErrorPrefix + KeyErrorText("similar_issues"));
      return;
    }
    var response := classify(ClassificationPrompt(state.title.value, state.body.value, state.similarIssues.value));
    if response.Success? {
      state.classification := Some(response.value);
    } else {
      state.AppendError(ClassificationErrorPrefix + response.error);
    }
  }

  // ---------------------------------------------------------------------------------------------
  // Recommendation: reference selection
  // ---------------------------------------------------------------------------------------------

  function Urls(issues: seq<SimilarIssue>): (urls: seq<Value>)
    ensures |urls| == |issues| && forall k :: 0 <= k < |issues| ==> urls[k] == issues[k].url
  {
    seq(|issues|, k requires 0 <= k < |issues| => issues[k].url)
  }

  predicate NoDuplicates<T(==)>(s: seq<T>) {
    forall i, j :: 0 <= i < j < |s| ==> s[i] != s[j]
  }

  /** `a` is `b` with some elements left out, the rest kept in order. */
  predicate IsSubsequence<T(==)>(a: seq<T>, b: seq<T>)
    decreases |b|
  {
    || a == []
    || (&& b != []
        && ((a[|a| - 1] == b[|b| - 1] && IsSubsequence(a[..|a| - 1], b[..|b| - 1]))
            || IsSubsequence(a, b[..|b| - 1])))
  }

  function Elems<T>(s: seq<T>): set<T> {
    set x | x in s
  }

  /** The elements of `s` at the positions where each occurs for the first time, in order. */
  function FirstOccurrences<T(==)>(s: seq<T>): seq<T> {
    if s == [] then []
    else
      var init := s[..|s| - 1];
      var last := s[|s| - 1];
      if last in init then FirstOccurrences(init) else FirstOccurrences(init) + [last]
  }

  /** Every first occurrence is an element of `s`, and every element of `s` has one. */
  lemma {:induction false} FirstOccurrencesMembers<T>(s: seq<T>)
    ensures var r := FirstOccurrences(s);
            (forall k :: 0 <= k < |r| ==> r[k] in s) && (forall k :: 0 <= k < |s| ==> s[k] in r)
  {
    if s != [] {
      var init := s[..|s| - 1];
      FirstOccurrencesMembers(init);
      assert s == init + [s[|s| - 1]];
    }
  }

  /** No element is kept twice. */
  lemma {:induction false} FirstOccurrencesDistinct<T>(s: seq<T>)
    ensures NoDuplicates(FirstOccurrences(s))
  {
    if s != [] {
      var init := s[..|s| - 1];
      FirstOccurrencesDistinct(init);
      FirstOccurrencesMembers(init);
    }
  }

  /** The kept elements appear in `s` in the same order. */
  lemma {:induction false} FirstOccurrencesOrdered<T>(s: seq<T>)
    ensures IsSubsequence(FirstOccurrences(s), s)
  {
    if s != [] {
      var init := s[..|s| - 1];
      var last := s[|s| - 1];
      FirstOccurrencesOrdered(init);
      var r := FirstOccurrences(s);
      if last !in init {
        assert r[..|r| - 1] == FirstOccurrences(init);
      }
    }
  }

  /**
   * The first occurrences hold each element of `s` exactly once, and nothing else, and they appear
   * in `s` in the same order. That each is kept at its first occurrence, rather than a later one,
   * is what `FirstOccurrencesSnoc` adds.
   */
  lemma FirstOccurrencesSpec<T>(s: seq<T>)
    ensures var r := FirstOccurrences(s);
            && (forall k :: 0 <= k < |r| ==> r[k] in s)
            && (forall k :: 0 <= k < |s| ==> s[k] in r)
            && NoDuplicates(r)
            && IsSubsequence(r, s)
  {
    FirstOccurrencesMembers(s);
    FirstOccurrencesDistinct(s);
    FirstOccurrencesOrdered(s);
  }

  lemma FirstOccurrencesSnoc<T>(s: seq<T>, x: T)
    ensures FirstOccurrences(s + [x]) == if x in s then FirstOccurrences(s) else FirstOccurrences(s) + [x]
    ensures Elems(s + [x]) == Elems(s) + {x}
  {
    assert (s + [x])[..|s|] == s;
  }

  /** The first occurrences in a prefix of `s` are a prefix of the first occurrences in `s`. */
  lemma {:induction false} FirstOccurrencesOfPrefix<T>(s: seq<T>, n: nat)
    requires n <= |s|
    ensures |FirstOccurrences(s[..n])| <= |FirstOccurrences(s)|
    ensures FirstOccurrences(s[..n]) == FirstOccurrences(s)[..|FirstOccurrences(s[..n])|]
    decreases |s|
  {
    if n < |s| {
      var init := s[..|s| - 1];
      assert s[..n] == init[..n];
      FirstOccurrencesOfPrefix(init, n);
    } else {
      assert s[..n] == s;
    }
  }

  lemma {:induction false} DistinctCardinality<T>(s: seq<T>)
    requires NoDuplicates(s)
    ensures |Elems(s)| == |s|
  {
    if s != [] {
      var init := s[..|s| - 1];
      var last := s[|s| - 1];
      assert NoDuplicates(init);
      DistinctCardinality(init);
      assert s == init + [last];
      assert Elems(s) == Elems(init) + {last};
    }
  }

  lemma {:induction false} PrefixIsSubsequence<T>(a: seq<T>, b: seq<T>, n: nat)
    requires IsSubsequence(a, b) && n <= |a|
    ensures IsSubsequence(a[..n], b)
    decreases |b|
  {
    if n == |a| {
      assert a[..n] == a;
    } else if n == 0 {
    } else if a[|a| - 1] == b[|b| - 1] && IsSubsequence(a[..|a| - 1], b[..|b| - 1]) {
      PrefixIsSubsequence(a[..|a| - 1], b[..|b| - 1], n);
      assert a[..|a| - 1][..n] == a[..n];
    } else {
      PrefixIsSubsequence(a, b[..|b| - 1], n);
    }
  }

  /** The references `recommendation_agent` chooses: the first four distinct URLs, in first-seen order. */
  function TopReferences(similar: Option<seq<SimilarIssue>>): (refs: seq<Value>)
    ensures |refs| <= MaxReferences && refs <= FirstOccurrences(Urls(similar.GetOr([])))
    ensures |refs| < MaxReferences ==> refs == FirstOccurrences(Urls(similar.GetOr([])))
  {
    var firsts := FirstOccurrences(Urls(similar.GetOr([])));
    if |firsts| <= MaxReferences then firsts else firsts[..MaxReferences]
  }

  /**
   * The references have no duplicates, are a subsequence of the similar issues' URLs, and number
   * min(4, the number of distinct URLs), an absent `similar_issues` counting as empty.
   */
  lemma TopReferencesSpec(similar: Option<seq<SimilarIssue>>)
    ensures var refs := TopReferences(similar);
            var urls := Urls(similar.GetOr([]));
            && NoDuplicates(refs)
            && IsSubsequence(refs, urls)
            && |refs| == (if |Elems(urls)| <= MaxReferences then |Elems(urls)| else MaxReferences)
            && refs == FirstOccurrences(urls)[..|refs|]
  {
    var urls := Urls(similar.GetOr([]));
    var firsts := FirstOccurrences(urls);
    FirstOccurrencesSpec(urls);
    DistinctCardinality(firsts);
    assert Elems(firsts) == Elems(urls);
    PrefixIsSubsequence(firsts, urls, |TopReferences(similar)|);
    assert firsts[..|firsts|] == firsts;
  }

  /** One iteration of `CollectReferences`: how the first occurrences and the seen set grow by one URL. */
  lemma CollectStep<T>(urls: seq<T>, i: nat)
    requires i < |urls|
    ensures urls[i] in Elems(urls[..i]) ==> FirstOccurrences(urls[..i + 1]) == FirstOccurrences(urls[..i])
    ensures urls[i] !in Elems(urls[..i]) ==> FirstOccurrences(urls[..i + 1]) == FirstOccurrences(urls[..i]) + [urls[i]]
    ensures Elems(urls[..i + 1]) == Elems(urls[..i]) + {urls[i]}
  {
    assert urls[..i + 1] == urls[..i] + [urls[i]];
    FirstOccurrencesSnoc(urls[..i], urls[i]);
  }

  /** The loop of `recommendation_agent` that collects references, with its early `break`. */
  method CollectReferences(issues: seq<SimilarIssue>) returns (refs: seq<Value>)
    ensures refs == TopReferences(Some(issues))
  {
    ghost var urls := Urls(issues);
    refs := [];
    var seen: set<Value> := {};
    var i := 0;
    while i < |issues|
      invariant 0 <= i <= |issues|
      invariant refs == FirstOccurrences(urls[..i])
      invariant seen == Elems(urls[..i])
      invariant |refs| < MaxReferences
    {
      var url := issues[i].url;
      CollectStep(urls, i);
      if url !in seen {
        refs := refs + [url];
        seen := seen + {url};
      }
      if |refs| == MaxReferences {
        FirstOccurrencesOfPrefix(urls, i + 1);
        return;
      }
      i := i + 1;
    }
    assert urls[..i] == urls;
  }

  // ---------------------------------------------------------------------------------------------
  // Recommendation: summary normalisation
  // ---------------------------------------------------------------------------------------------

  /** The characters Python's `str.strip()` removes (those for which `str.isspace()` holds). */
  function IsSpace(c: char): (b: bool)
    ensures c < '\U{100}' ==> (b <==> c in " \t\n\U{0B}\U{0C}\r\U{1C}\U{1D}\U{1E}\U{1F}\U{85}\U{A0}")
  {
    || c == ' ' || ('\t' <= c <= '\r')
    || ('\U{1C}' <= c <= '\U{1F}') || c == '\U{85}' || c == '\U{A0}' || c == '\U{1680}'
    || ('\U{2000}' <= c <= '\U{200A}') || c == '\U{2028}' || c == '\U{2029}' || c == '\U{202F}'
    || c == '\U{205F}' || c == '\U{3000}'
  }

  /** The first position at or after `i` that holds no whitespace, or `|s|`. */
  function SkipSpaces(s: string, i: nat): (j: nat)
    requires i <= |s|
    ensures i <= j <= |s|
    ensures forall k :: i <= k < j ==> IsSpace(s[k])
    ensures j == |s| || !IsSpace(s[j])
    decreases |s| - i
  {
    if i < |s| && IsSpace(s[i]) then SkipSpaces(s, i + 1) else i
  }

  /** One past the last position before `j`, and not before `lo`, that holds no whitespace, or `lo`. */
  function SkipSpacesBack(s: string, lo: nat, j: nat): (e: nat)
    requires lo <= j <= |s|
    ensures lo <= e <= j
    ensures forall k :: e <= k < j ==> IsSpace(s[k])
    ensures e == lo || !IsSpace(s[e - 1])
    decreases j
  {
    if lo < j && IsSpace(s[j - 1]) then SkipSpacesBack(s, lo, j - 1) else j
  }

  /** Where the stripped text starts in `s`. */
  function StripStart(s: string): nat {
    SkipSpaces(s, 0)
  }

  /** Where the stripped text ends in `s`. */
  function StripEnd(s: string): nat {
    SkipSpacesBack(s, StripStart(s), |s|)
  }

  /**
   * `str.strip()`: the part of `s` between its leading and its trailing whitespace. It neither
   * starts nor ends with whitespace; `StripIsSlice` says only whitespace is removed.
   */
  function Strip(s: string): (r: string)
    ensures |r| <= |s|
    ensures r == [] || (!IsSpace(r[0]) && !IsSpace(r[|r| - 1]))
  {
    s[StripStart(s)..StripEnd(s)]
  }

  /** `Strip(s)` is `s[i..j]`, where everything before `i` and from `j` on is whitespace. */
  lemma StripIsSlice(s: string)
    ensures var i, j := StripStart(s), StripEnd(s);
            && 0 <= i <= j <= |s|
            && Strip(s) == s[i..j]
            && (forall k :: 0 <= k < i ==> IsSpace(s[k]))
            && (forall k :: j <= k < |s| ==> IsSpace(s[k]))
  {
    var i := StripStart(s);
    var j := SkipSpacesBack(s, i, |s|);
    assert forall k :: 0 <= k < i ==> IsSpace(s[k]);
    assert forall k :: j <= k < |s| ==> IsSpace(s[k]);
  }

  lemma StripIdempotent(s: string)
    ensures Strip(Strip(s)) == Strip(s)
  {
    var r := Strip(s);
    assert StripStart(r) == 0;
    assert StripEnd(r) == |r|;
    assert r[0..|r|] == r;
  }

  /** `" ".join(items)`. */
  function JoinWithSpaces(items: seq<string>): (r: string)
    ensures items == [] ==> r == ""
    ensures |items| == 1 ==> r == items[0]
  {
    if items == [] then ""
    else if |items| == 1 then items[0]
    else items[0] + " " + JoinWithSpaces(items[1..])
  }

  function TotalLength(items: seq<string>): nat {
    if items == [] then 0 else |items[0]| + TotalLength(items[1..])
  }

  /** The joined text is the items' characters plus one separator between each two neighbours. */
  lemma {:induction false} JoinWithSpacesLength(items: seq<string>)
    requires items != []
    ensures |JoinWithSpaces(items)| == TotalLength(items) + |items| - 1
  {
    if |items| > 1 {
      JoinWithSpacesLength(items[1..]);
    }
  }

  /** The reply as one string, before trimming: list parts are joined with single spaces. */
  function ReplyText(c: Content): string {
    match c
    case Text(s) => s
    case Parts(items) => JoinWithSpaces(items)
    case Other(s) => s
  }

  /** The summary: the reply's text, list parts joined with single spaces, stripped of outer whitespace. */
  function NormalizeSummary(c: Content): (summary: string)
    ensures summary == [] || (!IsSpace(summary[0]) && !IsSpace(summary[|summary| - 1]))
    ensures c.Text? ==> summary == Strip(c.text)
    ensures c.Parts? ==> summary == Strip(JoinWithSpaces(c.items))
    ensures c.Other? ==> summary == Strip(c.rendered)
  {
    Strip(ReplyText(c))
  }

  /** Normalising an already normalised summary gives it back. */
  lemma NormalizeSummaryIdempotent(c: Content)
    ensures NormalizeSummary(Text(NormalizeSummary(c))) == NormalizeSummary(c)
  {
    match c
    case Text(s) => StripIdempotent(s);
    case Parts(items) => StripIdempotent(JoinWithSpaces(items));
    case Other(s) => StripIdempotent(s);
  }

  // ---------------------------------------------------------------------------------------------
  // Recommendation stage
  // ---------------------------------------------------------------------------------------------

  /**
   * `recommendation_agent`: on success `recommendation` holds the normalised summary and the chosen
   * references; on failure one prefixed message is logged and `recommendation` is left as it was.
   */
  function RecommendStep(r: IssueRecord, summarize: SummaryPrompt -> Result<Content>): (r': IssueRecord)
    ensures LogsAtMostOne(r, r', RecommendationErrorPrefix)
    ensures r' == r.(recommendation := r'.recommendation, errors := r'.errors)
    ensures r'.recommendation != r.recommendation ==>
              && r'.errors == r.errors
              && r'.recommendation.Some?
              && r'.recommendation.value.references == TopReferences(r.similarIssues)
              && |r'.recommendation.value.references| <= MaxReferences
    ensures summarize(SummaryPrompt(r, TopReferences(r.similarIssues))).Success? ==>
              r'.recommendation == Some(Recommendation(
                NormalizeSummary(summarize(SummaryPrompt(r, TopReferences(r.similarIssues))).value),
                TopReferences(r.similarIssues)))
              && r'.errors == r.errors
    ensures summarize(SummaryPrompt(r, TopReferences(r.similarIssues))).Failure? ==>
              r'.recommendation == r.recommendation
              && r'.Errors() == r.Errors()
                   + [RecommendationErrorPrefix + summarize(SummaryPrompt(r, TopReferences(r.similarIssues))).error]
  {
    var refs := TopReferences(r.similarIssues);
    match summarize(SummaryPrompt(r, refs))
    case Success(c) => r.(recommendation := Some(Recommendation(NormalizeSummary(c), refs)))
    case Failure(e) => WithError(r, RecommendationErrorPrefix + e)
  }

  method RecommendationAgent(state: IssueState, summarize: SummaryPrompt -> Result<Content>)
    modifies state
    ensures state.Record() == RecommendStep(old(state.Record()), summarize)
  {
    var refs := CollectReferences(state.similarIssues.GetOr([]));
    var response := summarize(SummaryPrompt(state.Record(), refs));
    if response.Success? {
      state.recommendation := Some(Recommendation(NormalizeSummary(response.value), refs));
    } else {
      state.AppendError(RecommendationErrorPrefix + response.error);
    }
  }
}
