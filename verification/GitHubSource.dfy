/** libs/go/connector/github: a pure map from a raw event to normalized entities. */
module GitHubSource {
  import opened Prelude
  import opened Json
  import opened Connector

  /** A message body: bytes that are no JSON document, or the document. */
  datatype Body = Garbage | Document(root: Json)

  datatype RawEvent = RawEvent(deliveryId: string, eventType: string, body: Body)

  const ENRICHMENT_KEY := "_enrichment"

  /** The event types that produce entities; every other type is skipped unread. */
  const HANDLED := {"pull_request", "pull_request_review", "pull_request_review_comment", "issue_comment",
    "issues", "push", "check_run", "status"}

  function Normalize(raw: RawEvent): Result<Normalized, Failure> {
    if raw.eventType in HANDLED then
      var f :- PayloadFields(raw.body);
      NormalizePayload(raw.eventType, f)
    else
      Ok(SKIPPED)
  }

  /** json.Unmarshal of the body into a payload struct. */
  function PayloadFields(body: Body): Result<Fields, Failure> {
    match body
    case Garbage => Err(Undecodable)
    case Document(root) => AsFields(root)
  }

  function NormalizePayload(eventType: string, f: Fields): Result<Normalized, Failure> {
    if eventType == "pull_request" then NormalizePullRequest(f)
    else if eventType == "pull_request_review" then NormalizeReview(f)
    else if eventType == "pull_request_review_comment" then NormalizeReviewComment(f)
    else if eventType == "issue_comment" then NormalizeIssueComment(f)
    else if eventType == "issues" then NormalizeIssue(f)
    else if eventType == "push" then NormalizePush(f)
    else if eventType == "check_run" then NormalizeCheckRun(f)
    else NormalizeStatus(f)
  }

  // ---- shared payload fragments ----

  function InstallationId(f: Fields): Result<Int64, Failure> {
    var o :- AsFields(Get(f, "installation"));
    AsInt(Get(o, "id"))
  }

  function RepoName(f: Fields): Result<string, Failure> {
    NestedString(f, "repository", "full_name")
  }

  // ---- pull_request ----

  datatype PullRequest = PullRequest(
    nodeId: string, number: Int64, title: string, state: string, merged: bool,
    changedFiles: Int64, additions: Int64, deletions: Int64,
    createdAt: Time, mergedAt: Option<Time>, closedAt: Option<Time>, userLogin: string)

  function DecodePullRequest(j: Json): Result<PullRequest, Failure> {
    var f :- AsFields(j);
    var nodeId :- AsString(Get(f, "node_id"));
    var number :- AsInt(Get(f, "number"));
    var title :- AsString(Get(f, "title"));
    var state :- AsString(Get(f, "state"));
    var merged :- AsBool(Get(f, "merged"));
    var changedFiles :- AsInt(Get(f, "changed_files"));
    var additions :- AsInt(Get(f, "additions"));
    var deletions :- AsInt(Get(f, "deletions"));
    var createdAt :- AsTime(Get(f, "created_at"));
    var mergedAt :- AsTimePtr(Get(f, "merged_at"));
    var closedAt :- AsTimePtr(Get(f, "closed_at"));
    var login :- NestedString(f, "user", "login");
    Ok(PullRequest(nodeId, number, title, state, merged, changedFiles, additions, deletions,
                   createdAt, mergedAt, closedAt, login))
  }

  /** The `_enrichment` block as the normalizer reads it: absent counts stay absent. */
  datatype EnrichmentBlock = EnrichmentBlock(
    additions: Option<Int64>, deletions: Option<Int64>, changedFiles: Option<Int64>,
    commitOids: seq<string>, files: seq<FileChange>)

  function DecodeFile(j: Json): Result<FileChange, Failure> {
    var f :- AsFields(j);
    var path :- AsString(Get(f, "path"));
    var additions :- AsInt(Get(f, "additions"));
    var deletions :- AsInt(Get(f, "deletions"));
    var patch :- AsString(Get(f, "patch"));
    var truncated :- AsBool(Get(f, "truncated"));
    Ok(FileChange(path, additions, deletions, patch, truncated))
  }

  function DecodeFiles(items: seq<Json>): (r: Result<seq<FileChange>, Failure>)
    ensures r.Err? ==> r.error == Undecodable
  {
    if items == [] then Ok([])
    else
      var head :- DecodeFile(items[0]);
      var tail :- DecodeFiles(items[1..]);
      Ok([head] + tail)
  }

  function DecodeEnrichment(j: Json): Result<Option<EnrichmentBlock>, Failure> {
    if j.Null? then Ok(None)
    else
      var f :- AsFields(j);
      var additions :- AsIntPtr(Get(f, "additions"));
      var deletions :- AsIntPtr(Get(f, "deletions"));
      var changedFiles :- AsIntPtr(Get(f, "changed_files"));
      var oidItems :- AsItems(Get(f, "commit_oids"));
      var oids :- AsStrings(oidItems);
      var fileItems :- AsItems(Get(f, "files"));
      var files :- DecodeFiles(fileItems);
      Ok(Some(EnrichmentBlock(additions, deletions, changedFiles, oids, files)))
  }

  /** The members of a pull_request payload other than the enrichment block. */
  datatype PrPayload = PrPayload(action: string, number: Int64, pr: PullRequest, repo: string, installation: Int64)

  function DecodePrPayload(f: Fields): Result<PrPayload, Failure> {
    var action :- AsString(Get(f, "action"));
    var number :- AsInt(Get(f, "number"));
    var pr :- DecodePullRequest(Get(f, "pull_request"));
    var repo :- RepoName(f);
    var installation :- InstallationId(f);
    Ok(PrPayload(action, number, pr, repo, installation))
  }

  function NormalizePullRequest(f: Fields): Result<Normalized, Failure> {
    PrResult(DecodePrPayload(f), DecodeEnrichment(Get(f, ENRICHMENT_KEY)))
  }

  function PrResult(payload: Result<PrPayload, Failure>, block: Result<Option<EnrichmentBlock>, Failure>)
    : Result<Normalized, Failure>
  {
    var p :- payload;
    var enrichment :- block;
    if p.installation == 0 then Err(MissingInstallation)
    else
      var pr := if p.pr.number == 0 then p.pr.(number := p.number) else p.pr;
      var wi := ApplyEnrichment(PrWorkItem(pr, p.repo), enrichment);
      var item := wi.(event := WorkItemEvent(p.action), occurredAt := WorkItemOccurredAt(wi));
      Ok(Normalized(p.installation, [item], [], [], [], false))
  }

  function ApplyEnrichment(wi: WorkItem, enrichment: Option<EnrichmentBlock>): WorkItem {
    match enrichment
    case None => wi
    case Some(e) =>
      wi.(changedFiles := GetOr(e.changedFiles, wi.changedFiles),
          additions := GetOr(e.additions, wi.additions),
          deletions := GetOr(e.deletions, wi.deletions),
          commitOids := e.commitOids,
          files := e.files)
  }

  function PrWorkItem(pr: PullRequest, repo: string): WorkItem {
    var status := PrStatus(pr);
    WorkItem("pr", repo, pr.nodeId, pr.number, pr.title, status, status, pr.userLogin,
             pr.changedFiles, pr.additions, pr.deletions, pr.createdAt, pr.mergedAt, pr.closedAt,
             NoEvent, ZERO_TIME, [], [])
  }

  /** prStatusAndStage: status and stage always carry the same word. */
  function PrStatus(pr: PullRequest): string {
    if pr.merged then "merged" else if pr.state == "closed" then "closed" else "open"
  }

  function WorkItemEvent(action: string): EventType {
    if action == "opened" then WorkItemCreated
    else if action in {"closed", "reopened", "ready_for_review", "converted_to_draft"} then WorkItemStateChanged
    else WorkItemUpdated
  }

  function WorkItemOccurredAt(wi: WorkItem): Time {
    if wi.mergedAt.Some? then wi.mergedAt.value
    else if wi.closedAt.Some? then wi.closedAt.value
    else wi.createdAt
  }

  // ---- pull_request_review ----

  /** strings.ToLower on ASCII letters. */
  function ToLower(s: string): string {
    seq(|s|, i requires 0 <= i < |s| => if 'A' <= s[i] <= 'Z' then s[i] - 'A' + 'a' else s[i])
  }

  datatype ReviewObject = ReviewObject(nodeId: string, state: string, submittedAt: Time, userLogin: string)

  function DecodeReview(j: Json): Result<ReviewObject, Failure> {
    var f :- AsFields(j);
    var nodeId :- AsString(Get(f, "node_id"));
    var state :- AsString(Get(f, "state"));
    var submittedAt :- AsTime(Get(f, "submitted_at"));
    var login :- NestedString(f, "user", "login");
    Ok(ReviewObject(nodeId, state, submittedAt, login))
  }

  function NormalizeReview(f: Fields): Result<Normalized, Failure> {
    var action :- AsString(Get(f, "action"));
    var review :- DecodeReview(Get(f, "review"));
    var pr :- DecodePullRequest(Get(f, "pull_request"));
    var repo :- RepoName(f);
    var installation :- InstallationId(f);
    if installation == 0 then Err(MissingInstallation)
    else if action != "submitted" then Ok(SKIPPED)
    else
      Ok(Normalized(installation, [PrWorkItem(pr, repo)],
                    [Review(review.nodeId, repo, pr.nodeId, review.userLogin, ToLower(review.state), 0,
                            review.submittedAt)],
                    [], [], false))
  }

  // ---- comments ----

  datatype CommentObject = CommentObject(nodeId: string, body: string, createdAt: Time, userLogin: string)

  function DecodeComment(j: Json): Result<CommentObject, Failure> {
    var f :- AsFields(j);
    var nodeId :- AsString(Get(f, "node_id"));
    var body :- AsString(Get(f, "body"));
    var createdAt :- AsTime(Get(f, "created_at"));
    var login :- NestedString(f, "user", "login");
    Ok(CommentObject(nodeId, body, createdAt, login))
  }

  function NormalizeComment(f: Fields, parentType: string, parentNumber: Int64): Result<Normalized, Failure> {
    var action :- AsString(Get(f, "action"));
    var c :- DecodeComment(Get(f, "comment"));
    var repo :- RepoName(f);
    var installation :- InstallationId(f);
    if installation == 0 then Err(MissingInstallation)
    else if action != "created" then Ok(SKIPPED)
    else
      Ok(Normalized(installation, [], [], [],
                    [Comment(c.nodeId, repo, parentType, parentNumber, c.userLogin, c.body, c.createdAt)], false))
  }

  function NormalizeReviewComment(f: Fields): Result<Normalized, Failure> {
    var pr :- AsFields(Get(f, "pull_request"));
    var number :- AsInt(Get(pr, "number"));
    NormalizeComment(f, "pr", number)
  }

  function NormalizeIssueComment(f: Fields): Result<Normalized, Failure> {
    var issue :- AsFields(Get(f, "issue"));
    var number :- AsInt(Get(issue, "number"));
    // The issue is a pull request iff the member is present at all, null included.
    NormalizeComment(f, if "pull_request" in issue then "pr" else "issue", number)
  }

  // ---- issues ----

  datatype IssueObject = IssueObject(
    nodeId: string, number: Int64, title: string, state: string, createdAt: Time, closedAt: Option<Time>,
    userLogin: string)

  function DecodeIssue(j: Json): Result<IssueObject, Failure> {
    var f :- AsFields(j);
    var nodeId :- AsString(Get(f, "node_id"));
    var number :- AsInt(Get(f, "number"));
    var title :- AsString(Get(f, "title"));
    var state :- AsString(Get(f, "state"));
    var createdAt :- AsTime(Get(f, "created_at"));
    var closedAt :- AsTimePtr(Get(f, "closed_at"));
    var login :- NestedString(f, "user", "login");
    Ok(IssueObject(nodeId, number, title, state, createdAt, closedAt, login))
  }

  function NormalizeIssue(f: Fields): Result<Normalized, Failure> {
    var action :- AsString(Get(f, "action"));
    var issue :- DecodeIssue(Get(f, "issue"));
    var repo :- RepoName(f);
    var installation :- InstallationId(f);
    if installation == 0 then Err(MissingInstallation)
    else
      var status := if issue.state == "closed" then "closed" else "open";
      var wi := WorkItem("issue", repo, issue.nodeId, issue.number, issue.title, status, status, issue.userLogin,
                         0, 0, 0, issue.createdAt, None, issue.closedAt, WorkItemEvent(action), ZERO_TIME, [], []);
      Ok(Normalized(installation, [wi.(occurredAt := WorkItemOccurredAt(wi))], [], [], [], false))
  }

  // ---- push ----

  function FirstLine(s: string): string {
    if s == "" || s[0] == '\n' then "" else [s[0]] + FirstLine(s[1..])
  }

  function DecodeCommit(j: Json, repo: string): Result<WorkItem, Failure> {
    var c :- AsFields(j);
    var sha :- AsString(Get(c, "id"));
    var message :- AsString(Get(c, "message"));
    var timestamp :- AsTime(Get(c, "timestamp"));
    var author :- AsFields(Get(c, "author"));
    var _ :- AsString(Get(author, "name"));
    var _ :- AsString(Get(author, "email"));
    var username :- AsString(Get(author, "username"));
    Ok(WorkItem("commit", repo, sha, 0, FirstLine(message), "observed", "", username,
                0, 0, 0, timestamp, None, None, CommitObserved, timestamp, [], []))
  }

  function DecodeCommits(items: seq<Json>, repo: string): Result<seq<WorkItem>, Failure> {
    if items == [] then Ok([])
    else
      var head :- DecodeCommit(items[0], repo);
      var tail :- DecodeCommits(items[1..], repo);
      Ok([head] + tail)
  }

  ghost function Before(first: seq<WorkItem>, rest: Result<seq<WorkItem>, Failure>): Result<seq<WorkItem>, Failure> {
    if rest.Err? then rest else Ok(first + rest.value)
  }

  lemma BeforeStep(first: seq<WorkItem>, items: seq<Json>, repo: string)
    requires items != [] && DecodeCommit(items[0], repo).Ok?
    ensures Before(first, DecodeCommits(items, repo))
         == Before(first + [DecodeCommit(items[0], repo).value], DecodeCommits(items[1..], repo))
  {
    hide DecodeCommit;
    if DecodeCommits(items[1..], repo).Ok? {
      var tail := DecodeCommits(items[1..], repo).value;
      var head := DecodeCommit(items[0], repo).value;
      assert first + ([head] + tail) == first + [head] + tail;
    }
  }

  /** The loop of normalizePush: one work item a commit, in order, or the first decoding error. */
  method AppendCommits(items: seq<Json>, repo: string) returns (r: Result<seq<WorkItem>, Failure>)
    ensures r == DecodeCommits(items, repo)
  {
    hide DecodeCommit;
    var appended: seq<WorkItem> := [];
    assert items[0..] == items;
    assert DecodeCommits(items, repo).Ok? ==> [] + DecodeCommits(items, repo).value == DecodeCommits(items, repo).value;
    for i := 0 to |items|
      invariant DecodeCommits(items, repo) == Before(appended, DecodeCommits(items[i..], repo))
    {
      var decoded := DecodeCommit(items[i], repo);
      assert items[i..][1..] == items[i + 1..];
      if decoded.Err? {
        return Err(decoded.error);
      }
      BeforeStep(appended, items[i..], repo);
      appended := appended + [decoded.value];
    }
    assert appended + [] == appended;
    return Ok(appended);
  }

  function NormalizePush(f: Fields): Result<Normalized, Failure> {
    var commits :- AsItems(Get(f, "commits"));
    var repo :- RepoName(f);
    var installation :- InstallationId(f);
    var items :- DecodeCommits(commits, repo);
    if installation == 0 then Err(MissingInstallation)
    else if |items| == 0 then Ok(SKIPPED)
    else Ok(Normalized(installation, items, [], [], [], false))
  }

  // ---- check_run and status ----

  datatype CheckRunObject = CheckRunObject(
    nodeId: string, name: string, headSha: string, status: string, conclusion: string,
    startedAt: Option<Time>, completedAt: Option<Time>)

  function DecodeCheckRun(j: Json): Result<CheckRunObject, Failure> {
    var f :- AsFields(j);
    var nodeId :- AsString(Get(f, "node_id"));
    var name :- AsString(Get(f, "name"));
    var headSha :- AsString(Get(f, "head_sha"));
    var status :- AsString(Get(f, "status"));
    var conclusion :- AsString(Get(f, "conclusion"));
    var startedAt :- AsTimePtr(Get(f, "started_at"));
    var completedAt :- AsTimePtr(Get(f, "completed_at"));
    Ok(CheckRunObject(nodeId, name, headSha, status, conclusion, startedAt, completedAt))
  }

  function NormalizeCheckRun(f: Fields): Result<Normalized, Failure> {
    var _ :- AsString(Get(f, "action"));
    var run :- DecodeCheckRun(Get(f, "check_run"));
    var repo :- RepoName(f);
    var installation :- InstallationId(f);
    if installation == 0 then Err(MissingInstallation)
    else if run.status != "completed" then Ok(SKIPPED)
    else
      Ok(Normalized(installation, [], [],
                    [CheckRun(run.nodeId, repo, run.headSha, run.name, run.conclusion, run.startedAt, run.completedAt)],
                    [], false))
  }

  function Digits(n: nat): string {
    (if n < 10 then "" else Digits(n / 10)) + ["0123456789"[n % 10]]
  }

  /** fmt.Sprintf("%d", n). */
  function Decimal(n: int): string {
    if n < 0 then "-" + Digits(-n) else Digits(n)
  }

  function StatusConclusion(state: string): string {
    if state == "error" then "failure" else state
  }

  function NormalizeStatus(f: Fields): Result<Normalized, Failure> {
    var id :- AsInt(Get(f, "id"));
    var sha :- AsString(Get(f, "sha"));
    var context :- AsString(Get(f, "context"));
    var state :- AsString(Get(f, "state"));
    var updatedAt :- AsTimePtr(Get(f, "updated_at"));
    var repo :- RepoName(f);
    var installation :- InstallationId(f);
    if installation == 0 then Err(MissingInstallation)
    else if state == "pending" then Ok(SKIPPED)
    else
      Ok(Normalized(installation, [], [],
                    [CheckRun("status:" + Decimal(id), repo, sha, context, StatusConclusion(state), None, updatedAt)],
                    [], false))
  }

  // ---- what every result satisfies ----

  /** The review's PR is among the delivery's own work items. */
  ghost predicate ParentPresent(n: Normalized, rv: Review) {
    exists wi :: wi in n.workItems && wi.nodeId == rv.prNodeId
  }

  ghost predicate WellFormed(n: Normalized) {
    && (forall wi :: wi in n.workItems ==> wi.kind in {"pr", "issue", "commit"})
    && (forall rv :: rv in n.reviews ==> ParentPresent(n, rv))
    && (n.reviews != [] ==> forall wi :: wi in n.workItems ==> wi.kind == "pr")
  }

  lemma {:induction false} CommitsAreCommits(items: seq<Json>, repo: string)
    ensures DecodeCommits(items, repo).Ok? ==>
              forall wi :: wi in DecodeCommits(items, repo).value ==> wi.kind == "commit"
  {
    if items != [] {
      CommitsAreCommits(items[1..], repo);
    }
  }

  lemma PushIsWellFormed(f: Fields)
    ensures NormalizePush(f).Ok? ==> WellFormed(NormalizePush(f).value)
  {
    if AsItems(Get(f, "commits")).Ok? && RepoName(f).Ok? {
      CommitsAreCommits(AsItems(Get(f, "commits")).value, RepoName(f).value);
    }
  }

  /** A review webhook brings one review and, as an item that is only to exist, its PR. */
  lemma ReviewIsWellFormed(f: Fields)
    ensures NormalizeReview(f).Ok? ==> WellFormed(NormalizeReview(f).value)
    ensures NormalizeReview(f).Ok? && !NormalizeReview(f).value.skip ==>
              var n := NormalizeReview(f).value;
              && |n.workItems| == 1 && |n.reviews| == 1
              && n.workItems[0].event.NoEvent? && n.workItems[0].kind == "pr"
              && n.workItems[0].nodeId == n.reviews[0].prNodeId && n.workItems[0].repo == n.reviews[0].repo
  {
    if NormalizeReview(f).Ok? && !NormalizeReview(f).value.skip {
      var n := NormalizeReview(f).value;
      assert n.workItems[0] in n.workItems && n.workItems[0].nodeId == n.reviews[0].prNodeId;
    }
  }

  lemma PullRequestIsWellFormed(f: Fields)
    ensures NormalizePullRequest(f).Ok? ==> WellFormed(NormalizePullRequest(f).value)
  {
  }

  lemma IssueIsWellFormed(f: Fields)
    ensures NormalizeIssue(f).Ok? ==> WellFormed(NormalizeIssue(f).value)
  {
  }

  lemma CommentsAreWellFormed(f: Fields)
    ensures NormalizeReviewComment(f).Ok? ==> WellFormed(NormalizeReviewComment(f).value)
    ensures NormalizeIssueComment(f).Ok? ==> WellFormed(NormalizeIssueComment(f).value)
  {
  }

  lemma ChecksAreWellFormed(f: Fields)
    ensures NormalizeCheckRun(f).Ok? ==> WellFormed(NormalizeCheckRun(f).value)
    ensures NormalizeStatus(f).Ok? ==> WellFormed(NormalizeStatus(f).value)
  {
  }

  lemma PayloadIsWellFormed(eventType: string, f: Fields)
    ensures NormalizePayload(eventType, f).Ok? ==> WellFormed(NormalizePayload(eventType, f).value)
  {
    var r := NormalizePayload(eventType, f);
    if r == NormalizePullRequest(f) {
      PullRequestIsWellFormed(f);
    } else if r == NormalizeReview(f) {
      ReviewIsWellFormed(f);
    } else if r == NormalizePush(f) {
      PushIsWellFormed(f);
    } else if r == NormalizeIssue(f) {
      IssueIsWellFormed(f);
    } else if r == NormalizeReviewComment(f) || r == NormalizeIssueComment(f) {
      CommentsAreWellFormed(f);
    } else {
      ChecksAreWellFormed(f);
    }
  }

  /** Every result persists under the table's CHECK on type and carries each review's
      parent PR, so the missing-parent branch of persist cannot be taken on it. */
  lemma ResultsAreWellFormed(raw: RawEvent)
    ensures Normalize(raw).Ok? ==> WellFormed(Normalize(raw).value)
  {
    if PayloadFields(raw.body).Ok? {
      PayloadIsWellFormed(raw.eventType, PayloadFields(raw.body).value);
    }
  }

  lemma PayloadIsEmptyIffSkipped(eventType: string, f: Fields)
    ensures NormalizePayload(eventType, f).Ok? ==>
              (NormalizePayload(eventType, f).value.skip <==> NormalizePayload(eventType, f).value.Empty())
  {
    hide DecodeCommits, DecodeReview, DecodePullRequest, DecodeComment, DecodeIssue, DecodeCheckRun, DecodePrPayload,
         DecodeEnrichment, PrWorkItem, ApplyEnrichment, WorkItemEvent, WorkItemOccurredAt, ToLower, Decimal,
         StatusConclusion, RepoName, InstallationId, AsString, AsInt, AsFields, AsTimePtr, AsItems, Get;
  }

  /** A result says nothing exactly if it is marked as skipped. */
  lemma SkippedIffEmpty(raw: RawEvent)
    requires Normalize(raw).Ok?
    ensures var n := Normalize(raw).value;
            n.skip <==> n.workItems == [] && n.reviews == [] && n.checkRuns == [] && n.comments == []
  {
    if raw.eventType in HANDLED {
      PayloadIsEmptyIffSkipped(raw.eventType, PayloadFields(raw.body).value);
    }
    hide NormalizePayload;
  }
}
