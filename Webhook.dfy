/**
 * The webhook endpoint: signature check, dispatch on the event-type header, and the
 * HTTP status the platform receives. Also what a sequence of deliveries does to the store.
 */
module Webhook {
  import opened Wrappers
  import opened Sessions
  import opened Handlers
  import opened Decimal
  import opened Review

  /**
   * One delivery: the verdict of the signature check, the event-type header (absent
   * when the header is missing), the parsed body, and what the collaborators answer.
   */
  datatype Request = Request(
    signatureValid: bool,
    event: Option<string>,
    payload: Payload,
    collaborators: Collaborators)

  /**
   * `('Webhook received', 200)`; the 401 raised by `abort`; the 500 the server answers
   * when a handler's exception escapes the endpoint.
   */
  datatype Response = Received | Unauthorized | InternalServerError

  function StatusCode(r: Response): int
  {
    match r
    case Received => 200
    case Unauthorized => 401
    case InternalServerError => 500
  }

  predicate KnownEvent(event: Option<string>)
  {
    event == Some("pull_request") || event == Some("pull_request_review")
    || event == Some("issue_comment")
  }

  /** The if/elif chain on the event type. */
  function Route(event: Option<string>, payload: Payload, c: Collaborators): Effect
  {
    if event == Some("pull_request") then PullRequestEffect(payload, c)
    else if event == Some("pull_request_review") then ReviewEffect(payload)
    else if event == Some("issue_comment") then IssueCommentEffect(payload)
    else Effect(None, [], Ignored)
  }

  /** What one delivery does to the store: nothing unless the signature verifies. */
  function Delivered(req: Request): Effect
  {
    if !req.signatureValid then Effect(None, [], Ignored)
    else Route(req.event, req.payload, req.collaborators)
  }

  function Respond(req: Request): Response
  {
    if !req.signatureValid then Unauthorized
    else if Route(req.event, req.payload, req.collaborators).outcome.Raised? then InternalServerError
    else Received
  }

  method HandleWebhook(store: SessionStore, req: Request) returns (response: Response)
    modifies store
    ensures store.sessions == Apply(old(store.sessions), Delivered(req).key, Delivered(req).appended)
    ensures response == Respond(req)
  {
    if !req.signatureValid {
      return Unauthorized;
    }
    var outcome: Outcome;
    if req.event == Some("pull_request") {
      outcome := HandlePullRequest(store, req.payload, req.collaborators);
    } else if req.event == Some("pull_request_review") {
      outcome := HandlePullRequestReview(store, req.payload);
    } else if req.event == Some("issue_comment") {
      outcome := HandleIssueComment(store, req.payload);
    } else {
      outcome := Ignored;
    }
    response := if outcome.Raised? then InternalServerError else Received;
  }

  /** A request whose signature does not verify is answered 401 and changes no session. */
  lemma SignatureRejected(sessions: Store, req: Request)
    requires !req.signatureValid
    ensures Apply(sessions, Delivered(req).key, Delivered(req).appended) == sessions
    ensures StatusCode(Respond(req)) == 401
  {
  }

  /** An event type the endpoint does not handle changes no session and is still answered 200. */
  lemma UnknownEventIgnored(sessions: Store, req: Request)
    requires req.signatureValid && !KnownEvent(req.event)
    ensures Apply(sessions, Delivered(req).key, Delivered(req).appended) == sessions
    ensures StatusCode(Respond(req)) == 200
  {
  }

  /** The answer is 401 exactly for a bad signature, and 500 exactly when a handler raised. */
  lemma ResponseCodes(req: Request)
    ensures StatusCode(Respond(req)) == 401 <==> !req.signatureValid
    ensures StatusCode(Respond(req)) == 500 <==> req.signatureValid && Delivered(req).outcome.Raised?
    ensures StatusCode(Respond(req)) == 200 <==> req.signatureValid && !Delivered(req).outcome.Raised?
  {
  }

  /** A delivery touches at most the one session its payload names, and only appends to it. */
  lemma DeliveryOnlyAppends(sessions: Store, req: Request)
    ensures Extends(sessions, Apply(sessions, Delivered(req).key, Delivered(req).appended))
    ensures forall k :: Delivered(req).key != Some(k) ==>
      Transcript(Apply(sessions, Delivered(req).key, Delivered(req).appended), k) == Transcript(sessions, k)
  {
    ApplyExtends(sessions, Delivered(req).key, Delivered(req).appended);
    forall k | Delivered(req).key != Some(k)
      ensures Transcript(Apply(sessions, Delivered(req).key, Delivered(req).appended), k)
           == Transcript(sessions, k)
    {
      ApplyTranscript(sessions, Delivered(req).key, Delivered(req).appended, k);
    }
  }

  /** The store after the deliveries `reqs`, handled one after another in arrival order. */
  function Serve(sessions: Store, reqs: seq<Request>): Store
    decreases |reqs|
  {
    if reqs == [] then sessions
    else
      var last := Delivered(reqs[|reqs| - 1]);
      Apply(Serve(sessions, reqs[..|reqs| - 1]), last.key, last.appended)
  }

  /** The messages the deliveries `reqs` append to session `k`, in arrival order. */
  function AppendedTo(k: Key, reqs: seq<Request>): seq<Message>
    decreases |reqs|
  {
    if reqs == [] then []
    else
      var last := Delivered(reqs[|reqs| - 1]);
      AppendedTo(k, reqs[..|reqs| - 1]) + (if last.key == Some(k) then last.appended else [])
  }

  /**
   * After a run of deliveries, each transcript is its old contents followed by what
   * the deliveries naming that session appended, in arrival order; deliveries naming
   * other sessions leave it alone.
   */
  lemma {:induction false} ServeTranscript(sessions: Store, reqs: seq<Request>, k: Key)
    ensures Transcript(Serve(sessions, reqs), k) == Transcript(sessions, k) + AppendedTo(k, reqs)
    decreases |reqs|
  {
    if reqs != [] {
      var front := reqs[..|reqs| - 1];
      var last := Delivered(reqs[|reqs| - 1]);
      ServeTranscript(sessions, front, k);
      ApplyTranscript(Serve(sessions, front), last.key, last.appended, k);
    }
  }

  function OpenedPayload(fullName: string): Payload
  {
    Payload(Some("opened"), Some(PullRequest(42, "Fix bug", Some("Fixes #1"))),
            Some(Repository(fullName)), Some(Installation(7)), None, None, None)
  }

  /**
   * Pull request #42 opened with title "Fix bug" and body "Fixes #1", and the diff
   * fetch fails: the session holds the system and user messages, and the exception
   * escapes the endpoint, so the answer is 500.
   */
  lemma DiffFailureScenario(sessions: Store, fullName: string, c: Collaborators)
    requires c.fetch == DiffUnavailable
    ensures var req := Request(true, Some("pull_request"), OpenedPayload(fullName), c);
      && Transcript(Serve(sessions, [req]), (42, fullName))
         == Transcript(sessions, (42, fullName))
            + [Message(System, "Pull Request #42 opened: Fix bug"), Message(User, "Description: Fixes #1")]
      && StatusCode(Respond(req)) == 500
  {
    var req := Request(true, Some("pull_request"), OpenedPayload(fullName), c);
    assert IntToDecimal(42) == "42" by {
      assert NatDigits(4) == "4";
    }
    assert PrSummary(42, "opened", "Fix bug") == "Pull Request #42 opened: Fix bug";
    assert DescriptionText(Some("Fixes #1")) == "Description: Fixes #1";
    assert Delivered(req).key == Some((42, fullName));
    assert Delivered(req).appended
        == [Message(System, "Pull Request #42 opened: Fix bug"), Message(User, "Description: Fixes #1")];
    ServeTranscript(sessions, [req], (42, fullName));
    assert [req][..0] == [];
  }

  /**
   * The analysis returns {"a.py": {12: "missing null check"}}: exactly one review comment,
   * on a.py line 12 with that text, and one assistant message holding the serialised mapping.
   */
  lemma SingleCommentScenario(fullName: string, c: Collaborators)
    requires c.fetch.Diff?
    requires c.analyze(BuildPrData("Fix bug", Some("Fixes #1"), c.fetch.files))
          == PerLine([("a.py", [(12, "missing null check")])])
    ensures var e := Delivered(Request(true, Some("pull_request"), OpenedPayload(fullName), c));
      && e.outcome.Reviewed?
      && e.outcome.comments == [ReviewComment("a.py", 12, "missing null check")]
      && |e.appended| == 3
      && e.appended[2] == Message(Assistant, c.dumps([("a.py", [(12, "missing null check")])]))
  {
    var fileComments: FileComments := [("a.py", [(12, "missing null check")])];
    assert fileComments[..0] == [];
    assert FileEntries("a.py", [(12, "missing null check")]) == [ReviewComment("a.py", 12, "missing null check")];
  }
}
