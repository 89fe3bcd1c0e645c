/**
 * The three event handlers. Each folds one event payload into the transcript of one
 * pull request, or raises before or part-way through doing so. For each handler a
 * function states its whole effect and a method performs it step by step on the store.
 */
module Handlers {
  import opened Wrappers
  import opened Decimal
  import opened Sessions
  import opened Review

  datatype PullRequest = PullRequest(number: int, title: string, body: Option<string>)
  datatype Repository = Repository(fullName: string)
  datatype Installation = Installation(id: int)
  datatype ReviewInfo = ReviewInfo(userLogin: string, state: string, body: Option<string>)
  datatype Comment = Comment(userLogin: string, body: string)
  /** An issue; `isPullRequest` says whether its object has a `pull_request` key. */
  datatype Issue = Issue(number: int, isPullRequest: bool)

  /** The parsed request body. Each top-level entry a handler reads may be absent. */
  datatype Payload = Payload(
    action: Option<string>,
    pullRequest: Option<PullRequest>,
    repository: Option<Repository>,
    installation: Option<Installation>,
    review: Option<ReviewInfo>,
    comment: Option<Comment>,
    issue: Option<Issue>)

  /** The diff as the platform client returns it, or the step at which fetching it failed. */
  datatype Fetch = Diff(files: seq<DiffFile>) | TokenRejected | DiffUnavailable

  /** What the handlers get from the world outside: the platform, the analysis engine, the serialiser. */
  datatype Collaborators = Collaborators(
    fetch: Fetch,
    analyze: PrData -> Analysis,
    commits: Commits,
    dumps: FileComments -> string)

  /** An exception that escapes a handler. */
  datatype Failure = MissingKey(name: string) | TokenExchangeFailed | DiffFetchFailed
                   | AnalysisFailed | NotAMapping

  datatype Outcome =
    | Recorded
    | Ignored
    | Reviewed(comments: seq<ReviewComment>, report: PublishReport)
    | Raised(failure: Failure)

  /** The session a handler touched (if any), what it appended there, and how it ended. */
  datatype Effect = Effect(key: Option<Key>, appended: seq<Message>, outcome: Outcome)

  function Raise(f: Failure): Effect
  {
    Effect(None, [], Raised(f))
  }

  function PrSummary(number: int, action: string, title: string): string
  {
    "Pull Request #" + IntToDecimal(number) + " " + action + ": " + title
  }

  function DescriptionText(body: Option<string>): string
  {
    "Description: " + PyStr(body)
  }

  function ReviewText(review: ReviewInfo): string
  {
    "Review by " + review.userLogin + ": " + review.state + "\nComment: " + PyStr(review.body)
  }

  function CommentText(comment: Comment): string
  {
    "Comment by " + comment.userLogin + ": " + comment.body
  }

  /** The text of `s` up to its first space. */
  function FirstWord(s: string): string
  {
    if s == [] || s[0] == ' ' then [] else [s[0]] + FirstWord(s[1..])
  }

  /** The pull-request number a summary message names: the word after "Pull Request #". */
  function SummaryNumber(text: string): Option<int>
  {
    var prefix := "Pull Request #";
    if |text| >= |prefix| && text[..|prefix|] == prefix then ParseInt(FirstWord(text[|prefix|..]))
    else None
  }

  lemma {:induction false} FirstWordOfDecimal(digits: string, rest: string)
    requires forall i :: 0 <= i < |digits| ==> digits[i] != ' '
    ensures FirstWord(digits + " " + rest) == digits
    decreases |digits|
  {
    if digits == [] {
      assert (digits + " " + rest)[0] == ' ';
    } else {
      assert (digits + " " + rest)[1..] == digits[1..] + " " + rest;
      FirstWordOfDecimal(digits[1..], rest);
    }
  }

  /** The system message names its pull request unambiguously, whatever the action and title. */
  lemma SummaryNamesPullRequest(number: int, action: string, title: string)
    ensures SummaryNumber(PrSummary(number, action, title)) == Some(number)
  {
    var digits := IntToDecimal(number);
    var text := PrSummary(number, action, title);
    assert text == "Pull Request #" + (digits + " " + (action + ": " + title));
    assert text[|"Pull Request #"|..] == digits + " " + (action + ": " + title);
    assert forall i :: 0 <= i < |digits| ==> digits[i] != ' ' by {
      if number < 0 {
        assert digits == "-" + NatDigits(-number);
        assert forall i :: 1 <= i < |digits| ==> digits[i] == NatDigits(-number)[i - 1];
      }
    }
    FirstWordOfDecimal(digits, action + ": " + title);
    DecimalRoundTrip(number);
  }

  // ---------------------------------------------------------------- pull_request

  /** `handle_pull_request`, as a function of the payload and the collaborators' answers. */
  function PullRequestEffect(payload: Payload, c: Collaborators): Effect
  {
    if payload.action.None? then Raise(MissingKey("action"))
    else if payload.pullRequest.None? then Raise(MissingKey("pull_request"))
    else if payload.repository.None? then Raise(MissingKey("repository"))
    else if payload.installation.None? then Raise(MissingKey("installation"))
    else
      var pr := payload.pullRequest.value;
      var key := (pr.number, payload.repository.value.fullName);
      var opening := [Message(System, PrSummary(pr.number, payload.action.value, pr.title)),
                      Message(User, DescriptionText(pr.body))];
      match c.fetch
      case TokenRejected => Effect(Some(key), opening, Raised(TokenExchangeFailed))
      case DiffUnavailable => Effect(Some(key), opening, Raised(DiffFetchFailed))
      case Diff(files) =>
        match c.analyze(BuildPrData(pr.title, pr.body, files))
        case AnalysisRaised => Effect(Some(key), opening, Raised(AnalysisFailed))
        case Aggregate(_) => Effect(Some(key), opening, Raised(NotAMapping))
        case PerLine(fileComments) =>
          var reviewComments := Flattened(fileComments);
          Effect(Some(key), opening + [Message(Assistant, c.dumps(fileComments))],
                 Reviewed(reviewComments, Publish(c.commits, reviewComments)))
  }

  method HandlePullRequest(store: SessionStore, payload: Payload, c: Collaborators)
    returns (outcome: Outcome)
    modifies store
    ensures store.sessions == Apply(old(store.sessions), PullRequestEffect(payload, c).key,
                                    PullRequestEffect(payload, c).appended)
    ensures outcome == PullRequestEffect(payload, c).outcome
  {
    if payload.action.None? { return Raised(MissingKey("action")); }
    if payload.pullRequest.None? { return Raised(MissingKey("pull_request")); }
    if payload.repository.None? { return Raised(MissingKey("repository")); }
    if payload.installation.None? { return Raised(MissingKey("installation")); }
    var action := payload.action.value;
    var pr := payload.pullRequest.value;
    var repo := payload.repository.value;

    var session := store.GetOrCreate(pr.number, repo.fullName);
    ghost var before := Transcript(old(store.sessions), session);
    assert store.sessions == old(store.sessions)[session := before];
    store.AddMessage(session, System, PrSummary(pr.number, action, pr.title));
    store.AddMessage(session, User, DescriptionText(pr.body));
    ghost var opening := [Message(System, PrSummary(pr.number, action, pr.title)),
                          Message(User, DescriptionText(pr.body))];
    assert before + [opening[0]] + [opening[1]] == before + opening;
    assert store.sessions == Apply(old(store.sessions), Some(session), opening);

    // Token exchange and diff fetch lie outside any try: a failure ends the handler here.
    if c.fetch.TokenRejected? { return Raised(TokenExchangeFailed); }
    if c.fetch.DiffUnavailable? { return Raised(DiffFetchFailed); }
    var diffFiles := c.fetch.files;

    var prData := BuildPrData(pr.title, pr.body, diffFiles);
    var analysis := c.analyze(prData);
    if analysis.AnalysisRaised? { return Raised(AnalysisFailed); }
    // An aggregate text has no `.items()`.
    if analysis.Aggregate? { return Raised(NotAMapping); }
    var fileComments := analysis.fileComments;

    var reviewComments := FlattenComments(fileComments);
    var report := Publish(c.commits, reviewComments);

    store.AddMessage(session, Assistant, c.dumps(fileComments));
    assert before + opening + [Message(Assistant, c.dumps(fileComments))]
        == before + (opening + [Message(Assistant, c.dumps(fileComments))]);
    outcome := Reviewed(reviewComments, report);
  }

  /** The payload carries every entry `handle_pull_request` reads. */
  predicate PullRequestPayload(payload: Payload)
  {
    payload.action.Some? && payload.pullRequest.Some? && payload.repository.Some?
    && payload.installation.Some?
  }

  /** When every call succeeds: system, user and assistant message, in that order, on the PR's session. */
  lemma PullRequestSuccess(payload: Payload, c: Collaborators)
    requires PullRequestPayload(payload) && c.fetch.Diff?
    requires c.analyze(BuildPrData(payload.pullRequest.value.title, payload.pullRequest.value.body,
                                   c.fetch.files)).PerLine?
    ensures var pr := payload.pullRequest.value;
      var fileComments := c.analyze(BuildPrData(pr.title, pr.body, c.fetch.files)).fileComments;
      var e := PullRequestEffect(payload, c);
      && e.key == Some((pr.number, payload.repository.value.fullName))
      && e.appended == [Message(System, PrSummary(pr.number, payload.action.value, pr.title)),
                        Message(User, DescriptionText(pr.body)),
                        Message(Assistant, c.dumps(fileComments))]
      && e.outcome == Reviewed(Flattened(fileComments), Publish(c.commits, Flattened(fileComments)))
  {
  }

  /**
   * A failure of the token exchange, the diff fetch or the analysis, or an aggregate
   * analysis result, ends the handler after the first two appends: no assistant message.
   */
  lemma PullRequestEarlyFailure(payload: Payload, c: Collaborators)
    requires PullRequestPayload(payload)
    requires !c.fetch.Diff? ||
      !c.analyze(BuildPrData(payload.pullRequest.value.title, payload.pullRequest.value.body,
                             c.fetch.files)).PerLine?
    ensures var pr := payload.pullRequest.value;
      var e := PullRequestEffect(payload, c);
      && e.key == Some((pr.number, payload.repository.value.fullName))
      && e.appended == [Message(System, PrSummary(pr.number, payload.action.value, pr.title)),
                        Message(User, DescriptionText(pr.body))]
      && e.outcome.Raised?
  {
  }

  /**
   * Publishing failures are contained: whatever listing the commits yields, the same
   * messages go to the same session, and whether the handler raises does not depend on it.
   */
  lemma PullRequestPublishContained(payload: Payload, c: Collaborators, commits: Commits)
    ensures PullRequestEffect(payload, c.(commits := commits)).key == PullRequestEffect(payload, c).key
    ensures PullRequestEffect(payload, c.(commits := commits)).appended
         == PullRequestEffect(payload, c).appended
    ensures PullRequestEffect(payload, c.(commits := commits)).outcome.Raised?
        <==> PullRequestEffect(payload, c).outcome.Raised?
  {
  }

  /** The session gains an assistant message exactly when the analysis produced a per-line mapping. */
  lemma PullRequestAssistantIff(payload: Payload, c: Collaborators)
    requires PullRequestPayload(payload)
    ensures var e := PullRequestEffect(payload, c);
      (exists m :: m in e.appended && m.role == Assistant) <==> !e.outcome.Raised?
  {
    var e := PullRequestEffect(payload, c);
    if !e.outcome.Raised? {
      assert e.appended[2].role == Assistant;
    }
  }

  /** A payload without one of the entries the handler reads raises before any session is touched. */
  lemma PullRequestMissingEntry(payload: Payload, c: Collaborators)
    requires !PullRequestPayload(payload)
    ensures PullRequestEffect(payload, c).key == None
    ensures PullRequestEffect(payload, c).outcome.Raised?
    ensures PullRequestEffect(payload, c).outcome.failure.MissingKey?
  {
  }

  // ---------------------------------------------------------------- pull_request_review

  /** `handle_pull_request_review`, as a function of the payload. */
  function ReviewEffect(payload: Payload): Effect
  {
    if payload.action.None? then Raise(MissingKey("action"))
    else if payload.review.None? then Raise(MissingKey("review"))
    else if payload.pullRequest.None? then Raise(MissingKey("pull_request"))
    else if payload.repository.None? then Raise(MissingKey("repository"))
    else
      Effect(Some((payload.pullRequest.value.number, payload.repository.value.fullName)),
             [Message(User, ReviewText(payload.review.value))], Recorded)
  }

  method HandlePullRequestReview(store: SessionStore, payload: Payload) returns (outcome: Outcome)
    modifies store
    ensures store.sessions == Apply(old(store.sessions), ReviewEffect(payload).key,
                                    ReviewEffect(payload).appended)
    ensures outcome == ReviewEffect(payload).outcome
  {
    if payload.action.None? { return Raised(MissingKey("action")); }
    if payload.review.None? { return Raised(MissingKey("review")); }
    if payload.pullRequest.None? { return Raised(MissingKey("pull_request")); }
    if payload.repository.None? { return Raised(MissingKey("repository")); }
    var review := payload.review.value;
    var pr := payload.pullRequest.value;
    var repo := payload.repository.value;

    var session := store.GetOrCreate(pr.number, repo.fullName);
    store.AddMessage(session, User, ReviewText(review));
    outcome := Recorded;
  }

  predicate ReviewPayload(payload: Payload)
  {
    payload.action.Some? && payload.review.Some? && payload.pullRequest.Some?
    && payload.repository.Some?
  }

  /**
   * A review appends exactly one user message, naming the reviewer, the state and the
   * body, to the session of its pull request; a payload lacking an entry touches nothing.
   */
  lemma ReviewAppendsOne(payload: Payload)
    ensures var e := ReviewEffect(payload);
      if ReviewPayload(payload) then
        && e.key == Some((payload.pullRequest.value.number, payload.repository.value.fullName))
        && e.appended == [Message(User, ReviewText(payload.review.value))]
        && e.outcome == Recorded
      else e.key == None && e.outcome.Raised?
  {
  }

  // ---------------------------------------------------------------- issue_comment

  /** `handle_issue_comment`, as a function of the payload. */
  function IssueCommentEffect(payload: Payload): Effect
  {
    if payload.action.None? then Raise(MissingKey("action"))
    else if payload.comment.None? then Raise(MissingKey("comment"))
    else if payload.issue.None? then Raise(MissingKey("issue"))
    else if payload.repository.None? then Raise(MissingKey("repository"))
    else if !payload.issue.value.isPullRequest then Effect(None, [], Ignored)
    else
      Effect(Some((payload.issue.value.number, payload.repository.value.fullName)),
             [Message(User, CommentText(payload.comment.value))], Recorded)
  }

  method HandleIssueComment(store: SessionStore, payload: Payload) returns (outcome: Outcome)
    modifies store
    ensures store.sessions == Apply(old(store.sessions), IssueCommentEffect(payload).key,
                                    IssueCommentEffect(payload).appended)
    ensures outcome == IssueCommentEffect(payload).outcome
  {
    if payload.action.None? { return Raised(MissingKey("action")); }
    if payload.comment.None? { return Raised(MissingKey("comment")); }
    if payload.issue.None? { return Raised(MissingKey("issue")); }
    if payload.repository.None? { return Raised(MissingKey("repository")); }
    var comment := payload.comment.value;
    var issue := payload.issue.value;
    var repo := payload.repository.value;

    if issue.isPullRequest {
      var session := store.GetOrCreate(issue.number, repo.fullName);
      store.AddMessage(session, User, CommentText(comment));
      outcome := Recorded;
    } else {
      outcome := Ignored;
    }
  }

  predicate CommentPayload(payload: Payload)
  {
    payload.action.Some? && payload.comment.Some? && payload.issue.Some?
    && payload.repository.Some?
  }

  /**
   * A comment on a plain issue touches no session; a comment on a pull request appends
   * exactly one user message, naming the commenter and the body, to its session; a
   * payload lacking an entry raises and touches nothing.
   */
  lemma IssueCommentAppends(payload: Payload)
    ensures var e := IssueCommentEffect(payload);
      if CommentPayload(payload) then
        && (e.key.Some? <==> payload.issue.value.isPullRequest)
        && (payload.issue.value.isPullRequest ==>
              && e.key == Some((payload.issue.value.number, payload.repository.value.fullName))
              && e.appended == [Message(User, CommentText(payload.comment.value))]
              && e.outcome == Recorded)
        && (!payload.issue.value.isPullRequest ==> e.appended == [] && e.outcome == Ignored)
      else e.key == None && e.outcome.Raised?
  {
  }

  /**
   * Whatever the payload, the pull-request handler appends at most three messages and
   * the other two handlers at most one; no handler appends without naming a session.
   */
  lemma AppendedBounds(payload: Payload, c: Collaborators)
    ensures |PullRequestEffect(payload, c).appended| <= 3
    ensures |ReviewEffect(payload).appended| <= 1
    ensures |IssueCommentEffect(payload).appended| <= 1
    ensures PullRequestEffect(payload, c).key.None? ==> PullRequestEffect(payload, c).appended == []
    ensures ReviewEffect(payload).key.None? ==> ReviewEffect(payload).appended == []
    ensures IssueCommentEffect(payload).key.None? ==> IssueCommentEffect(payload).appended == []
  {
  }
}
