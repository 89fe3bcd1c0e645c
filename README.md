# pearbot webhook core, modelled in Dafny

This project models the event-to-transcript engine of the pearbot GitHub App (`main.py`).
A webhook delivery is signature-checked, then dispatched on its `X-GitHub-Event` header
(`pull_request`, `pull_request_review`, `issue_comment`). Each handler folds the event into
the conversation transcript of one pull request, keyed by (pull-request number, repository
full name). For a pull request, the handler also builds the analysis request from the diff,
flattens the analysis result into inline review comments, and runs the guarded publishing
step.

Modules:

- `Wrappers`: `Option`, and Python's rendering of a value that may be `None`.
- `Decimal`: how an f-string renders an `int`, with a parser that reads it back.
- `Sessions`: roles, messages, the `SessionStore` class (get-or-create and append), and
  `Apply`, the store update shared by every handler.
- `Review`: `pr_data`; `file_comments` → `review_comments` as a nested loop proved
  against a reference function; the try block around publishing.
- `Handlers`: the three handlers. For each one, a function gives its whole effect (the
  session touched, the messages appended, how it ended) and a method does the same work
  step by step on the store.
- `Webhook`: the endpoint, its HTTP status, and what a run of deliveries does to the store.

Inputs that come from outside are parameters:
- the signature check's verdict, as a boolean;
- the token exchange and diff fetch, as a `Fetch` value (success with files, or the
  step that failed);
- the analysis engine, as a function from `PrData` to `Analysis`;
- the commit listing, as a `Commits` value;
- `json.dumps`, as an opaque function from the analysis result to a string.

Behaviour of the code worth noting:
- An exception from the token exchange, the diff fetch or the analysis is not caught
  anywhere, so the server answers 500, not the 200 a webhook endpoint usually returns
  once the signature verifies. `Webhook.ResponseCodes` and `Webhook.DiffFailureScenario`
  state the 500.
- An analysis result that is one aggregate text, not a per-file mapping, has no
  `.items()`. The handler raises after the first two appends.
- The posting calls are commented out. The publishing step therefore only picks the
  latest commit and reports. It is modelled as exactly that.
- No deduplication or per-key locking exists. A delivery that arrives twice appends its
  messages twice.

## Model

| member | source | states |
|---|---|---|
| `Decimal.IntToDecimal` | main.py:55 | str of an int is non-empty; it starts with a minus sign exactly when the int is negative |
| `Decimal.DecimalRoundTrip` | main.py:55 | parsing the decimal text of any int gives the int back |
| `Decimal.DecimalInjective` | main.py:55 | two different PR numbers never render to the same text |
| `Handlers.SummaryNamesPullRequest` | main.py:55 | the system message "Pull Request #N action: title" names N unambiguously, whatever action and title hold |
| `Review.BuildPrData` | main.py:76-90 | pr_data carries title and description unchanged; its files list has the diff's length and order, each record copying filename, status, additions, deletions, changes and patch |
| `Review.FlattenComments` | main.py:94-101 | the nested loop builds exactly the reference flattening of file_comments |
| `Review.FlattenedLength` | main.py:94-101 | review_comments has as many entries as the inner mappings together |
| `Review.FlattenedAt` | main.py:94-101 | every (file, line, comment) triple appears, at its file's offset plus its place in the file |
| `Review.FlattenedFrom` | main.py:94-101 | every entry of review_comments comes from one triple of file_comments |
| `Review.FlattenedOrdered` | main.py:94-101 | of two triples, the one earlier in (file, line) order has its entry at the smaller position of review_comments |
| `Review.Publish` | main.py:103-124 | the step reports Posted (latest commit, number of comments) exactly when a non-empty commit list is fetched; a GitHub error is reported with its status; an empty list or any other error is caught as a posting error |
| `Sessions.SessionStore.GetOrCreate` | main.py:54 | returns the handle for (number, full_name); an existing session is left as it is, a missing one is created empty |
| `Sessions.SessionStore.AddMessage` | main.py:55-56 | appends one message at the end of that session; every other session is unchanged |
| `Sessions.ApplyTranscript` | main.py:54-56 | a handler's update changes only the transcript of its own key, by appending |
| `Sessions.ApplyExtends` | main.py:54-56 | no message is ever removed or rewritten |
| `Handlers.HandlePullRequest` | main.py:48-136 | the handler's store and outcome are those of PullRequestEffect: lookups, two appends, fetch, analysis, flattening, publishing, assistant append |
| `Handlers.PullRequestSuccess` | main.py:54-136 | when every call succeeds, session (number, full_name) gains system "Pull Request #N action: title", user "Description: body" and assistant dumps(file_comments), in that order |
| `Handlers.PullRequestEarlyFailure` | main.py:54-95 | a failed token exchange, diff fetch or analysis, or an aggregate result, leaves only the system and user messages and raises |
| `Handlers.PullRequestPublishContained` | main.py:103-136 | whatever the commit listing yields, the same messages reach the same session and whether the handler raises is unchanged |
| `Handlers.PullRequestAssistantIff` | main.py:92-136 | an assistant message is appended exactly when the handler does not raise |
| `Handlers.PullRequestMissingEntry` | main.py:49-52 | a payload lacking action, pull_request, repository or installation raises a KeyError before any session is touched |
| `Handlers.HandlePullRequestReview` | main.py:138-145 | the handler's store and outcome are those of ReviewEffect |
| `Handlers.ReviewAppendsOne` | main.py:139-145 | a review appends exactly one user message "Review by login: state\nComment: body" to session (pr.number, full_name); a payload lacking an entry raises and touches nothing |
| `Handlers.HandleIssueComment` | main.py:156-164 | the handler's store and outcome are those of IssueCommentEffect |
| `Handlers.IssueCommentAppends` | main.py:157-164 | a session is touched exactly when the issue has a pull_request key; then one user message "Comment by login: body" goes to (issue.number, full_name); a payload lacking an entry raises and touches nothing |
| `Handlers.AppendedBounds` | main.py:48-164 | the PR handler appends at most three messages, the other two at most one; no handler appends without naming a session |
| `Webhook.HandleWebhook` | main.py:22-46 | the endpoint's store and response are those of Delivered and Respond |
| `Webhook.SignatureRejected` | main.py:29-31 | a request failing verification is answered 401 and changes no session |
| `Webhook.UnknownEventIgnored` | main.py:39-46 | an event type other than the three handled ones changes no session and is answered 200 |
| `Webhook.ResponseCodes` | main.py:29-46 | 401 exactly for a bad signature, 500 exactly when a handler raised, 200 otherwise |
| `Webhook.DeliveryOnlyAppends` | main.py:39-46 | a delivery keeps every session and changes only the one its payload names, by appending |
| `Webhook.ServeTranscript` | main.py:22-46 | after a run of deliveries, each transcript is its old contents followed by the messages appended by the deliveries naming it, in arrival order |
| `Webhook.DiffFailureScenario` | main.py:54-68 | PR #42 opened "Fix bug" / "Fixes #1", diff fetch fails: the session gains exactly the two opening messages, and the answer is 500 |
| `Webhook.SingleCommentScenario` | main.py:92-136 | analysis {"a.py": {12: "missing null check"}} gives exactly one review comment on a.py line 12 and an assistant message holding its serialisation |

## Left out

- Flask plumbing (`app`, `request`, `abort`, `app.run`): HTTP I/O. Only the response status is modelled. A request body that Flask cannot parse as JSON is not modelled.
- `verify_webhook_signature` and `get_installation_access_token`: the `auth` module is not part of this model. Their results are inputs: a boolean, and a failure case of `Fetch`.
- `storage.get_or_create_session`: its module is not part of this model. The store is an in-memory map. Persistence, and get-or-create atomicity under concurrent requests, are not modelled.
- Session objects: a handler's handle on its session is the session key, so aliasing of session objects is not modelled.
- Concurrency: the model handles deliveries one at a time. The source has no per-key locking to model.
- PyGithub calls (`Github`, `get_repo`, `get_pull`, `get_files`, `get_commits`): network library. Their results are inputs. All failures before the try block map to one diff-fetch failure, apart from the token exchange.
- `CodeReviewAgent.analyze_pr`: external engine, modelled as a function parameter.
- `json.dumps` output format: modelled as an opaque function parameter.
- `print` logging and `traceback` output: not modelled, including the reads of fields used only for logging (`pr['user']['login']`, the file attributes printed in the loop).
- Commented-out code (posting the review and the summary comment, the placeholder assistant replies): it does not run.
- Missing nested fields (for example a pull request without `title`): only missing top-level payload entries are modelled as KeyErrors. Nested fields are always present in the typed payload.
- Python dictionaries have distinct keys, but the association lists here may repeat a path. The flattening properties hold either way.
- Line numbers of the analysis result are modelled as integers. The engine's own key type is not part of this model.
