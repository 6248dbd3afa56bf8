/**
  What a webhook means, read off the members of its payload: a reference for
  Normalize that decodes nothing, for every type of event and every body.
 */
module Payloads {
  import opened Prelude
  import opened Json
  import opened Connector
  import opened GitHubSource

  // ---- members and what they read as ----

  function Member(j: Json, name: string): Json {
    if j.Obj? && name in j.fields then j.fields[name] else Null
  }

  function TextOf(j: Json): string { if j.Str? then j.text else "" }

  function IntOf(j: Json): int { if j.Int? then j.n else 0 }

  function InstantOf(j: Json): Option<Time> { if j.Str? then j.instant else None }

  function ItemsOf(j: Json): seq<Json> { if j.Arr? then j.items else [] }

  predicate IsSet(j: Json) { j == Bool(true) }

  /** A member of the right type, or none: null reads like an absent member. */
  predicate IsText(j: Json) { j.Null? || j.Str? }

  predicate IsInteger(j: Json) { j.Null? || (j.Int? && -INT64_LIMIT <= j.n < INT64_LIMIT) }

  predicate IsFlag(j: Json) { j.Null? || j.Bool? }

  predicate IsInstant(j: Json) { j.Null? || (j.Str? && j.instant.Some?) }

  predicate IsObject(j: Json) { j.Null? || j.Obj? }

  predicate IsList(j: Json) { j.Null? || j.Arr? }

  // ---- payloads that decode ----

  predicate IsActor(j: Json) { IsObject(j) && IsText(Member(j, "login")) }

  predicate IsRepository(j: Json) { IsObject(j) && IsText(Member(j, "full_name")) }

  predicate IsInstallation(j: Json) { IsObject(j) && IsInteger(Member(j, "id")) }

  /** The members every payload struct has. */
  predicate IsEnvelope(root: Json) {
    IsObject(root) && IsRepository(Member(root, "repository")) && IsInstallation(Member(root, "installation"))
  }

  predicate IsPullRequest(pr: Json) {
    && IsObject(pr) && IsText(Member(pr, "node_id")) && IsInteger(Member(pr, "number"))
    && IsText(Member(pr, "title")) && IsText(Member(pr, "state")) && IsFlag(Member(pr, "merged"))
    && IsInteger(Member(pr, "changed_files")) && IsInteger(Member(pr, "additions"))
    && IsInteger(Member(pr, "deletions"))
    && IsInstant(Member(pr, "created_at")) && IsInstant(Member(pr, "merged_at")) && IsInstant(Member(pr, "closed_at"))
    && IsActor(Member(pr, "user"))
  }

  predicate IsFile(j: Json) {
    && IsObject(j) && IsText(Member(j, "path")) && IsInteger(Member(j, "additions"))
    && IsInteger(Member(j, "deletions")) && IsText(Member(j, "patch")) && IsFlag(Member(j, "truncated"))
  }

  predicate IsBlock(j: Json) {
    && IsObject(j) && IsInteger(Member(j, "additions")) && IsInteger(Member(j, "deletions"))
    && IsInteger(Member(j, "changed_files"))
    && IsList(Member(j, "commit_oids")) && IsList(Member(j, "files"))
    && (forall t :: t in ItemsOf(Member(j, "commit_oids")) ==> IsText(t))
    && (forall t :: t in ItemsOf(Member(j, "files")) ==> IsFile(t))
  }

  predicate IsReview(j: Json) {
    && IsObject(j) && IsText(Member(j, "node_id")) && IsText(Member(j, "state"))
    && IsInstant(Member(j, "submitted_at")) && IsActor(Member(j, "user"))
  }

  predicate IsComment(j: Json) {
    && IsObject(j) && IsText(Member(j, "node_id")) && IsText(Member(j, "body"))
    && IsInstant(Member(j, "created_at")) && IsActor(Member(j, "user"))
  }

  predicate IsIssue(j: Json) {
    && IsObject(j) && IsText(Member(j, "node_id")) && IsInteger(Member(j, "number")) && IsText(Member(j, "title"))
    && IsText(Member(j, "state")) && IsInstant(Member(j, "created_at")) && IsInstant(Member(j, "closed_at"))
    && IsActor(Member(j, "user"))
  }

  predicate IsAuthor(j: Json) {
    IsObject(j) && IsText(Member(j, "name")) && IsText(Member(j, "email")) && IsText(Member(j, "username"))
  }

  predicate IsCommit(j: Json) {
    && IsObject(j) && IsText(Member(j, "id")) && IsText(Member(j, "message")) && IsInstant(Member(j, "timestamp"))
    && IsAuthor(Member(j, "author"))
  }

  predicate IsCheckRun(j: Json) {
    && IsObject(j) && IsText(Member(j, "node_id")) && IsText(Member(j, "name")) && IsText(Member(j, "head_sha"))
    && IsText(Member(j, "status")) && IsText(Member(j, "conclusion"))
    && IsInstant(Member(j, "started_at")) && IsInstant(Member(j, "completed_at"))
  }

  predicate IsNumbered(j: Json) { IsObject(j) && IsInteger(Member(j, "number")) }

  /** A pull_request payload, its enrichment block aside. */
  predicate IsPrEvent(root: Json) {
    && IsEnvelope(root) && IsText(Member(root, "action")) && IsInteger(Member(root, "number"))
    && IsPullRequest(Member(root, "pull_request"))
  }

  predicate IsPrPayload(root: Json) { IsPrEvent(root) && IsBlock(Member(root, "_enrichment")) }

  predicate IsReviewPayload(root: Json) {
    && IsEnvelope(root) && IsText(Member(root, "action")) && IsReview(Member(root, "review"))
    && IsPullRequest(Member(root, "pull_request"))
  }

  /** A comment on what the member named `parent` numbers. */
  predicate IsCommentPayload(root: Json, parent: string) {
    && IsEnvelope(root) && IsText(Member(root, "action")) && IsComment(Member(root, "comment"))
    && IsNumbered(Member(root, parent))
  }

  predicate IsIssuePayload(root: Json) {
    IsEnvelope(root) && IsText(Member(root, "action")) && IsIssue(Member(root, "issue"))
  }

  predicate IsPushPayload(root: Json) {
    && IsEnvelope(root) && IsList(Member(root, "commits"))
    && forall c :: c in ItemsOf(Member(root, "commits")) ==> IsCommit(c)
  }

  predicate IsCheckPayload(root: Json) {
    IsEnvelope(root) && IsText(Member(root, "action")) && IsCheckRun(Member(root, "check_run"))
  }

  predicate IsStatusPayload(root: Json) {
    && IsEnvelope(root) && IsInteger(Member(root, "id")) && IsText(Member(root, "sha"))
    && IsText(Member(root, "context")) && IsText(Member(root, "state")) && IsInstant(Member(root, "updated_at"))
  }

  predicate Decodes(eventType: string, root: Json) {
    match eventType
    case "pull_request" => IsPrPayload(root)
    case "pull_request_review" => IsReviewPayload(root)
    case "pull_request_review_comment" => IsCommentPayload(root, "pull_request")
    case "issue_comment" => IsCommentPayload(root, "issue")
    case "issues" => IsIssuePayload(root)
    case "push" => IsPushPayload(root)
    case "check_run" => IsCheckPayload(root)
    case "status" => IsStatusPayload(root)
    case _ => true
  }

  function Repository(root: Json): string { TextOf(Member(Member(root, "repository"), "full_name")) }

  function InstallationOf(root: Json): int { IntOf(Member(Member(root, "installation"), "id")) }

  function LoginOf(j: Json): string { TextOf(Member(Member(j, "user"), "login")) }

  /** An instant that the structs hold by value: absent reads as Go's zero time. */
  function DateOf(j: Json): Time { GetOr(InstantOf(j), 0) }

  // ---- what they mean ----

  /** Status and stage: merged iff the flag is set, otherwise closed iff the state says so. */
  ghost predicate HasStatus(wi: WorkItem, merged: bool, state: string) {
    && wi.currentStage == wi.status && wi.status in {"merged", "closed", "open"}
    && (wi.status == "merged" <==> merged)
    && (wi.status == "closed" <==> !merged && state == "closed")
  }

  ghost predicate IsEventOf(event: EventType, action: string) {
    && (event.WorkItemCreated? <==> action == "opened")
    && (event.WorkItemStateChanged? <==>
          action == "closed" || action == "reopened" || action == "ready_for_review" || action == "converted_to_draft")
    && (event.WorkItemUpdated? || event.WorkItemCreated? || event.WorkItemStateChanged?)
  }

  /** The item is dated by its merge, else by its close, else by its creation. */
  ghost predicate HasDate(wi: WorkItem, merged: Option<Time>, closed: Option<Time>, created: Time) {
    && (merged.Some? ==> wi.occurredAt == merged.value)
    && (merged.None? && closed.Some? ==> wi.occurredAt == closed.value)
    && (merged.None? && closed.None? ==> wi.occurredAt == created)
  }

  /** What a PR object says of the item, in whatever event it comes, its number and sizes aside. */
  ghost predicate IsPrItem(wi: WorkItem, root: Json) {
    var pr := Member(root, "pull_request");
    && wi.kind == "pr" && wi.repo == Repository(root) && wi.nodeId == TextOf(Member(pr, "node_id"))
    && wi.title == TextOf(Member(pr, "title")) && wi.authorLogin == LoginOf(pr)
    && wi.createdAt == DateOf(Member(pr, "created_at"))
    && wi.mergedAt == InstantOf(Member(pr, "merged_at")) && wi.closedAt == InstantOf(Member(pr, "closed_at"))
    && HasStatus(wi, IsSet(Member(pr, "merged")), TextOf(Member(pr, "state")))
  }

  /** The item of a pull_request event, its sizes, commits and files aside. */
  ghost predicate IsPrEventItem(wi: WorkItem, root: Json) {
    var pr := Member(root, "pull_request");
    && IsPrItem(wi, root)
    && wi.number == IntOf(Member(if IntOf(Member(pr, "number")) == 0 then root else pr, "number"))
    && IsEventOf(wi.event, TextOf(Member(root, "action")))
    && HasDate(wi, InstantOf(Member(pr, "merged_at")), InstantOf(Member(pr, "closed_at")),
               DateOf(Member(pr, "created_at")))
  }

  /** A count of the block if it has one, of the PR object otherwise. */
  function CountOf(root: Json, name: string): int {
    var enriched := Member(Member(root, "_enrichment"), name);
    IntOf(if enriched.Null? then Member(Member(root, "pull_request"), name) else enriched)
  }

  ghost predicate IsFileItem(f: FileChange, j: Json) {
    && f.path == TextOf(Member(j, "path")) && f.additions == IntOf(Member(j, "additions"))
    && f.deletions == IntOf(Member(j, "deletions")) && f.patch == TextOf(Member(j, "patch"))
    && f.truncated == IsSet(Member(j, "truncated"))
  }

  ghost predicate AreTexts(texts: seq<string>, items: seq<Json>) {
    |texts| == |items| && forall k :: 0 <= k < |items| ==> texts[k] == TextOf(items[k])
  }

  ghost predicate AreFiles(files: seq<FileChange>, items: seq<Json>) {
    |files| == |items| && forall k :: 0 <= k < |items| ==> IsFileItem(files[k], items[k])
  }

  ghost predicate HasDetail(wi: WorkItem, root: Json) {
    var block := Member(root, "_enrichment");
    && wi.changedFiles == CountOf(root, "changed_files")
    && wi.additions == CountOf(root, "additions") && wi.deletions == CountOf(root, "deletions")
    && AreTexts(wi.commitOids, ItemsOf(Member(block, "commit_oids")))
    && AreFiles(wi.files, ItemsOf(Member(block, "files")))
  }

  ghost predicate IsLowerCased(lower: string, s: string) {
    |lower| == |s| && forall k :: 0 <= k < |s| ==>
      lower[k] == if 'A' <= s[k] <= 'Z' then (s[k] as int + 32) as char else s[k]
  }

  /** The sizes the PR object itself gives, and neither commits nor files. */
  ghost predicate HasOwnSizes(wi: WorkItem, pr: Json) {
    && wi.changedFiles == IntOf(Member(pr, "changed_files"))
    && wi.additions == IntOf(Member(pr, "additions")) && wi.deletions == IntOf(Member(pr, "deletions"))
    && wi.commitOids == [] && wi.files == []
  }

  /** The PR a review webhook names: to be stored if absent, not to be announced. */
  ghost predicate IsReviewedPr(wi: WorkItem, root: Json) {
    var pr := Member(root, "pull_request");
    && IsPrItem(wi, root) && HasOwnSizes(wi, pr)
    && wi.number == IntOf(Member(pr, "number")) && wi.event == NoEvent && wi.occurredAt == 0
  }

  ghost predicate IsReviewOf(rv: Review, root: Json) {
    var review := Member(root, "review");
    && rv.sourceId == TextOf(Member(review, "node_id")) && rv.repo == Repository(root)
    && rv.prNodeId == TextOf(Member(Member(root, "pull_request"), "node_id"))
    && rv.reviewerLogin == LoginOf(review) && IsLowerCased(rv.state, TextOf(Member(review, "state")))
    && rv.commentCount == 0 && rv.submittedAt == DateOf(Member(review, "submitted_at"))
  }

  ghost predicate IsCommentOf(cm: Comment, root: Json) {
    var comment := Member(root, "comment");
    && cm.sourceId == TextOf(Member(comment, "node_id")) && cm.repo == Repository(root)
    && cm.authorLogin == LoginOf(comment) && cm.body == TextOf(Member(comment, "body"))
    && cm.createdAt == DateOf(Member(comment, "created_at"))
  }

  /** An issue is open or closed, announced and dated like a PR that never merges. */
  ghost predicate IsIssueItem(wi: WorkItem, root: Json) {
    var issue := Member(root, "issue");
    && wi.kind == "issue" && wi.repo == Repository(root) && wi.nodeId == TextOf(Member(issue, "node_id"))
    && wi.number == IntOf(Member(issue, "number")) && wi.title == TextOf(Member(issue, "title"))
    && wi.authorLogin == LoginOf(issue) && wi.createdAt == DateOf(Member(issue, "created_at"))
    && wi.mergedAt == None && wi.closedAt == InstantOf(Member(issue, "closed_at"))
    && HasStatus(wi, false, TextOf(Member(issue, "state")))
    && IsEventOf(wi.event, TextOf(Member(root, "action")))
    && HasDate(wi, None, wi.closedAt, wi.createdAt)
    && HasOwnSizes(wi, Null)
  }

  /** What of the text comes before its first line break. */
  ghost predicate IsFirstLine(line: string, text: string) {
    && line <= text && '\n' !in line
    && (|line| < |text| ==> text[|line|] == '\n')
  }

  ghost predicate IsCommitItem(wi: WorkItem, c: Json, root: Json) {
    && wi.kind == "commit" && wi.repo == Repository(root) && wi.nodeId == TextOf(Member(c, "id")) && wi.number == 0
    && IsFirstLine(wi.title, TextOf(Member(c, "message"))) && wi.status == "observed" && wi.currentStage == ""
    && wi.authorLogin == TextOf(Member(Member(c, "author"), "username"))
    && wi.createdAt == DateOf(Member(c, "timestamp")) && wi.occurredAt == wi.createdAt
    && wi.mergedAt == None && wi.closedAt == None && wi.event == CommitObserved
    && HasOwnSizes(wi, Null)
  }

  ghost predicate IsCheckOf(cr: CheckRun, root: Json) {
    var run := Member(root, "check_run");
    && cr.sourceId == TextOf(Member(run, "node_id")) && cr.repo == Repository(root)
    && cr.headSha == TextOf(Member(run, "head_sha")) && cr.name == TextOf(Member(run, "name"))
    && cr.conclusion == TextOf(Member(run, "conclusion"))
    && cr.startedAt == InstantOf(Member(run, "started_at")) && cr.completedAt == InstantOf(Member(run, "completed_at"))
  }

  /** The number a string of decimal digits stands for. */
  function ValueOf(digits: string): int {
    if digits == "" then 0 else 10 * ValueOf(digits[..|digits| - 1]) + (digits[|digits| - 1] as int - '0' as int)
  }

  /** Digits without leading zeros that stand for n. */
  ghost predicate IsNumeral(s: string, n: nat) {
    && s != "" && (forall k :: 0 <= k < |s| ==> '0' <= s[k] <= '9')
    && (s[0] == '0' ==> n == 0 && |s| == 1) && ValueOf(s) == n
  }

  /** The usual decimal notation, with a minus sign where negative. */
  ghost predicate IsDecimal(s: string, n: int) {
    if n < 0 then s != "" && s[0] == '-' && IsNumeral(s[1..], -n) else IsNumeral(s, n)
  }

  /** A commit status as a check: an error counts as a failure. */
  ghost predicate IsStatusCheck(cr: CheckRun, root: Json) {
    var state := TextOf(Member(root, "state"));
    && |cr.sourceId| >= 7 && cr.sourceId[..7] == "status:" && IsDecimal(cr.sourceId[7..], IntOf(Member(root, "id")))
    && cr.repo == Repository(root) && cr.headSha == TextOf(Member(root, "sha"))
    && cr.name == TextOf(Member(root, "context"))
    && (cr.conclusion == "failure" <==> state == "failure" || state == "error")
    && (cr.conclusion != "failure" ==> cr.conclusion == state)
    && cr.startedAt == None && cr.completedAt == InstantOf(Member(root, "updated_at"))
  }

  ghost predicate IsSkipped(n: Normalized) {
    n.skip && n.workItems == [] && n.reviews == [] && n.checkRuns == [] && n.comments == []
  }

  ghost predicate HoldsItems(n: Normalized, count: nat) {
    !n.skip && |n.workItems| == count && n.checkRuns == [] && n.comments == []
  }

  ghost predicate HoldsCheck(n: Normalized) {
    !n.skip && n.workItems == [] && n.reviews == [] && |n.checkRuns| == 1 && n.comments == []
  }

  ghost predicate MeansPr(root: Json, n: Normalized) {
    HoldsItems(n, 1) && n.reviews == [] && IsPrEventItem(n.workItems[0], root) && HasDetail(n.workItems[0], root)
  }

  /** Only a submitted review says anything. */
  ghost predicate MeansReview(root: Json, n: Normalized) {
    if TextOf(Member(root, "action")) != "submitted" then IsSkipped(n)
    else HoldsItems(n, 1) && |n.reviews| == 1 && IsReviewedPr(n.workItems[0], root) && IsReviewOf(n.reviews[0], root)
  }

  /** Only a new comment says anything. */
  ghost predicate MeansComment(root: Json, n: Normalized, parentType: string, parent: Json) {
    if TextOf(Member(root, "action")) != "created" then IsSkipped(n)
    else
      && !n.skip && n.workItems == [] && n.reviews == [] && n.checkRuns == [] && |n.comments| == 1
      && IsCommentOf(n.comments[0], root)
      && n.comments[0].parentType == parentType && n.comments[0].parentNumber == IntOf(Member(parent, "number"))
  }

  ghost predicate MeansIssue(root: Json, n: Normalized) {
    HoldsItems(n, 1) && n.reviews == [] && IsIssueItem(n.workItems[0], root)
  }

  /** A push without commits says nothing. */
  ghost predicate MeansPush(root: Json, n: Normalized) {
    var commits := ItemsOf(Member(root, "commits"));
    if commits == [] then IsSkipped(n)
    else
      && HoldsItems(n, |commits|) && n.reviews == []
      && forall k :: 0 <= k < |commits| ==> IsCommitItem(n.workItems[k], commits[k], root)
  }

  /** Only a completed run says anything. */
  ghost predicate MeansCheckRun(root: Json, n: Normalized) {
    if TextOf(Member(Member(root, "check_run"), "status")) != "completed" then IsSkipped(n)
    else HoldsCheck(n) && IsCheckOf(n.checkRuns[0], root)
  }

  /** A pending status says nothing. */
  ghost predicate MeansStatus(root: Json, n: Normalized) {
    if TextOf(Member(root, "state")) == "pending" then IsSkipped(n)
    else HoldsCheck(n) && IsStatusCheck(n.checkRuns[0], root)
  }

  /** An issue that is a pull request says so by having the member at all. */
  predicate IsOnPr(root: Json) {
    Member(root, "issue").Obj? && "pull_request" in Member(root, "issue").fields
  }

  ghost predicate Means(eventType: string, root: Json, n: Normalized) {
    match eventType
    case "pull_request" => MeansPr(root, n)
    case "pull_request_review" => MeansReview(root, n)
    case "pull_request_review_comment" => MeansComment(root, n, "pr", Member(root, "pull_request"))
    case "issue_comment" => MeansComment(root, n, if IsOnPr(root) then "pr" else "issue", Member(root, "issue"))
    case "issues" => MeansIssue(root, n)
    case "push" => MeansPush(root, n)
    case "check_run" => MeansCheckRun(root, n)
    case "status" => MeansStatus(root, n)
    case _ => IsSkipped(n)
  }

  /** The payload is refused for what is wrong with it, or accepted for its installation. */
  ghost predicate IsDecided(r: Result<Normalized, Failure>, decodes: bool, installation: int) {
    match r
    case Err(Undecodable) => !decodes
    case Err(MissingInstallation) => decodes && installation == 0
    case Ok(n) => decodes && installation != 0 && (!n.skip ==> n.installation == installation)
  }

  // ---- decoding reads members ----

  lemma FieldsAreMembers(j: Json)
    ensures AsFields(j).Ok? <==> IsObject(j)
    ensures AsFields(j).Ok? ==> forall name :: Get(AsFields(j).value, name) == Member(j, name)
    ensures AsFields(j).Err? ==> AsFields(j).error == Undecodable
  {
  }

  lemma LoginIsRead(f: Fields)
    ensures NestedString(f, "user", "login")
         == if IsActor(Get(f, "user")) then Ok(TextOf(Member(Get(f, "user"), "login"))) else Err(Undecodable)
  {
  }

  lemma EnvelopeIsRead(root: Json)
    requires IsObject(root)
    ensures RepoName(AsFields(root).value)
         == if IsRepository(Member(root, "repository")) then Ok(Repository(root)) else Err(Undecodable)
    ensures InstallationId(AsFields(root).value)
         == if IsInstallation(Member(root, "installation")) then Ok(InstallationOf(root)) else Err(Undecodable)
  {
  }

  /** A PR object as the struct holds it. */
  function PullRequestOf(j: Json): PullRequest
    requires IsPullRequest(j)
  {
    PullRequest(
      TextOf(Member(j, "node_id")), IntOf(Member(j, "number")), TextOf(Member(j, "title")), TextOf(Member(j, "state")),
      IsSet(Member(j, "merged")),
      IntOf(Member(j, "changed_files")), IntOf(Member(j, "additions")), IntOf(Member(j, "deletions")),
      DateOf(Member(j, "created_at")), InstantOf(Member(j, "merged_at")), InstantOf(Member(j, "closed_at")), LoginOf(j))
  }

  lemma TextIsRead(f: Fields, name: string)
    ensures AsString(Get(f, name)) == if IsText(Get(f, name)) then Ok(TextOf(Get(f, name))) else Err(Undecodable)
  {
  }

  lemma IntegerIsRead(f: Fields, name: string)
    ensures AsInt(Get(f, name)) == if IsInteger(Get(f, name)) then Ok(IntOf(Get(f, name))) else Err(Undecodable)
  {
  }

  lemma FlagIsRead(f: Fields, name: string)
    ensures AsBool(Get(f, name)) == if IsFlag(Get(f, name)) then Ok(IsSet(Get(f, name))) else Err(Undecodable)
  {
  }

  lemma InstantIsRead(f: Fields, name: string)
    ensures AsTimePtr(Get(f, name)) == if IsInstant(Get(f, name)) then Ok(InstantOf(Get(f, name))) else Err(Undecodable)
    ensures AsTime(Get(f, name)) == if IsInstant(Get(f, name)) then Ok(DateOf(Get(f, name))) else Err(Undecodable)
  {
  }

  lemma PullRequestIsDecoded(j: Json)
    ensures DecodePullRequest(j) == if IsPullRequest(j) then Ok(PullRequestOf(j)) else Err(Undecodable)
  {
    FieldsAreMembers(j);
    if AsFields(j).Err? {
      return;
    }
    var f := AsFields(j).value;
    LoginIsRead(f);
    assert LoginOf(j) == TextOf(Member(Member(j, "user"), "login"));
    TextIsRead(f, "node_id");
    IntegerIsRead(f, "number");
    TextIsRead(f, "title");
    TextIsRead(f, "state");
    FlagIsRead(f, "merged");
    IntegerIsRead(f, "changed_files");
    IntegerIsRead(f, "additions");
    IntegerIsRead(f, "deletions");
    InstantIsRead(f, "created_at");
    InstantIsRead(f, "merged_at");
    InstantIsRead(f, "closed_at");
    hide AsFields, NestedString, AsString, AsInt, AsBool, AsTimePtr, AsTime, IsText, IsFlag, IsInstant, IsInteger,
         IsSet, TextOf, IntOf, InstantOf, DateOf, LoginOf, IsActor, Member, Get;
  }

  lemma {:induction false} StringsAreRead(items: seq<Json>)
    ensures AsStrings(items).Ok? <==> forall t :: t in items ==> IsText(t)
    ensures AsStrings(items).Ok? ==> AreTexts(AsStrings(items).value, items)
  {
    if items != [] {
      StringsAreRead(items[1..]);
      assert AsString(items[0]).Ok? <==> IsText(items[0]);
      assert forall t :: t in items <==> t == items[0] || t in items[1..];
      if AsStrings(items).Ok? {
        forall k | 0 <= k < |items| ensures AsStrings(items).value[k] == TextOf(items[k]) {
          assert k > 0 ==> items[k] == items[1..][k - 1];
        }
      }
    }
  }

  lemma FileIsRead(j: Json)
    ensures DecodeFile(j).Ok? <==> IsFile(j)
    ensures DecodeFile(j).Ok? ==> IsFileItem(DecodeFile(j).value, j)
  {
    FieldsAreMembers(j);
    hide AsFields;
  }

  lemma {:induction false} FilesAreRead(items: seq<Json>)
    ensures DecodeFiles(items).Ok? <==> forall t :: t in items ==> IsFile(t)
    ensures DecodeFiles(items).Ok? ==> AreFiles(DecodeFiles(items).value, items)
  {
    if items != [] {
      FileIsRead(items[0]);
      FilesAreRead(items[1..]);
      hide DecodeFile, IsFile, IsFileItem;
      assert forall t :: t in items <==> t == items[0] || t in items[1..];
      if DecodeFiles(items).Ok? {
        forall k | 0 <= k < |items| ensures IsFileItem(DecodeFiles(items).value[k], items[k]) {
          assert k > 0 ==> items[k] == items[1..][k - 1];
        }
      }
    }
  }

  /** The block as the struct holds it: it has the counts that are there, and the lists. */
  ghost predicate IsBlockOf(e: EnrichmentBlock, j: Json) {
    && e.additions == (if Member(j, "additions").Null? then None else Some(IntOf(Member(j, "additions"))))
    && e.deletions == (if Member(j, "deletions").Null? then None else Some(IntOf(Member(j, "deletions"))))
    && e.changedFiles == (if Member(j, "changed_files").Null? then None else Some(IntOf(Member(j, "changed_files"))))
    && AreTexts(e.commitOids, ItemsOf(Member(j, "commit_oids"))) && AreFiles(e.files, ItemsOf(Member(j, "files")))
  }

  lemma CountIsRead(f: Fields, name: string)
    ensures AsIntPtr(Get(f, name))
         == if !IsInteger(Get(f, name)) then Err(Undecodable)
            else Ok(if Get(f, name).Null? then None else Some(IntOf(Get(f, name))))
  {
  }

  lemma BlockIsRead(j: Json)
    ensures DecodeEnrichment(j).Ok? <==> IsBlock(j)
    ensures DecodeEnrichment(j).Err? ==> DecodeEnrichment(j).error == Undecodable
    ensures DecodeEnrichment(j).Ok? ==> (DecodeEnrichment(j).value.None? <==> j.Null?)
    ensures DecodeEnrichment(j).Ok? && !j.Null? ==> IsBlockOf(DecodeEnrichment(j).value.value, j)
  {
    FieldsAreMembers(j);
    StringsAreRead(ItemsOf(Member(j, "commit_oids")));
    FilesAreRead(ItemsOf(Member(j, "files")));
    if AsFields(j).Ok? {
      CountIsRead(AsFields(j).value, "additions");
      CountIsRead(AsFields(j).value, "deletions");
      CountIsRead(AsFields(j).value, "changed_files");
    }
    hide AsIntPtr, IsInteger, IntOf, AsFields, AreTexts, AreFiles, IsFile, IsText, AsStrings, DecodeFiles;
  }

  // ---- pull_request ----

  lemma PrPayloadIsDecoded(root: Json)
    requires IsObject(root)
    ensures DecodePrPayload(AsFields(root).value)
         == if IsPrEvent(root)
            then Ok(PrPayload(TextOf(Member(root, "action")), IntOf(Member(root, "number")),
                              PullRequestOf(Member(root, "pull_request")), Repository(root), InstallationOf(root)))
            else Err(Undecodable)
  {
    FieldsAreMembers(root);
    EnvelopeIsRead(root);
    PullRequestIsDecoded(Member(root, "pull_request"));
    TextIsRead(AsFields(root).value, "action");
    IntegerIsRead(AsFields(root).value, "number");
    hide AsFields, DecodePullRequest, IsPullRequest, RepoName, InstallationId, Repository, InstallationOf,
         AsString, AsInt, IsText, TextOf, IntOf, Member, Get, PullRequestOf;
  }

  lemma EventIsRead(action: string)
    ensures IsEventOf(WorkItemEvent(action), action)
  {
  }

  lemma PrItemIsRead(root: Json, wi: WorkItem)
    requires IsPullRequest(Member(root, "pull_request"))
    requires wi == PrWorkItem(PullRequestOf(Member(root, "pull_request")), Repository(root)).(number := wi.number,
                     changedFiles := wi.changedFiles, additions := wi.additions, deletions := wi.deletions,
                     event := wi.event, occurredAt := wi.occurredAt, commitOids := wi.commitOids, files := wi.files)
    ensures IsPrItem(wi, root)
  {
    hide Repository, IsPullRequest;
  }

  lemma DetailIsRead(root: Json, enrichment: Option<EnrichmentBlock>, wi: WorkItem)
    requires wi.changedFiles == IntOf(Member(Member(root, "pull_request"), "changed_files"))
    requires wi.additions == IntOf(Member(Member(root, "pull_request"), "additions"))
    requires wi.deletions == IntOf(Member(Member(root, "pull_request"), "deletions"))
    requires wi.commitOids == [] && wi.files == []
    requires enrichment.None? <==> Member(root, "_enrichment").Null?
    requires enrichment.Some? ==> IsBlockOf(enrichment.value, Member(root, "_enrichment"))
    ensures HasDetail(ApplyEnrichment(wi, enrichment), root)
  {
  }

  /** The item a PR payload and a block normalize to. */
  lemma PrEventIsRead(root: Json, enrichment: Option<EnrichmentBlock>)
    requires IsPrEvent(root) && InstallationOf(root) != 0
    requires enrichment.None? <==> Member(root, "_enrichment").Null?
    requires enrichment.Some? ==> IsBlockOf(enrichment.value, Member(root, "_enrichment"))
    ensures var r := PrResult(DecodePrPayload(AsFields(root).value), Ok(enrichment));
            && r.Ok? && |r.value.workItems| == 1
            && r.value == Normalized(InstallationOf(root), r.value.workItems, [], [], [], false)
            && IsPrEventItem(r.value.workItems[0], root) && HasDetail(r.value.workItems[0], root)
  {
    PrPayloadIsDecoded(root);
    var pr := PullRequestOf(Member(root, "pull_request"));
    var numbered := if pr.number == 0 then pr.(number := IntOf(Member(root, "number"))) else pr;
    var wi := PrResult(DecodePrPayload(AsFields(root).value), Ok(enrichment)).value.workItems[0];
    EventIsRead(TextOf(Member(root, "action")));
    hide DecodePrPayload, IsPrEvent, IsPullRequest, AsFields, Repository, InstallationOf, AreFiles, AreTexts,
         WorkItemEvent, PrStatus, IsEventOf;
    DetailIsRead(root, enrichment, PrWorkItem(numbered, Repository(root)));
    PrItemIsRead(root, wi);
    hide IsBlockOf, HasDetail, IsPrItem;
  }

  lemma PullRequestIsRead(root: Json)
    requires IsObject(root)
    ensures var r := NormalizePullRequest(AsFields(root).value);
            IsDecided(r, IsPrPayload(root), InstallationOf(root)) && (r.Ok? ==> MeansPr(root, r.value))
  {
    FieldsAreMembers(root);
    PrPayloadIsDecoded(root);
    BlockIsRead(Member(root, "_enrichment"));
    hide AsFields, DecodePrPayload, DecodeEnrichment, IsPrEvent, IsBlock, Repository, InstallationOf, IsPrEventItem,
         HasDetail, IsBlockOf, PullRequestOf;
    if DecodePrPayload(AsFields(root).value).Ok? && DecodeEnrichment(Member(root, "_enrichment")).Ok?
       && InstallationOf(root) != 0 {
      PrEventIsRead(root, DecodeEnrichment(Member(root, "_enrichment")).value);
    }
  }

  // ---- pull_request_review ----

  lemma ReviewPrIsRead(root: Json)
    requires IsPullRequest(Member(root, "pull_request"))
    ensures IsReviewedPr(PrWorkItem(PullRequestOf(Member(root, "pull_request")), Repository(root)), root)
  {
    PrItemIsRead(root, PrWorkItem(PullRequestOf(Member(root, "pull_request")), Repository(root)));
    hide IsPrItem, IsPullRequest, PrStatus;
  }

  lemma ReviewObjectIsDecoded(j: Json)
    ensures DecodeReview(j)
         == if IsReview(j)
            then Ok(ReviewObject(TextOf(Member(j, "node_id")), TextOf(Member(j, "state")),
                                 DateOf(Member(j, "submitted_at")), LoginOf(j)))
            else Err(Undecodable)
  {
    FieldsAreMembers(j);
    if AsFields(j).Ok? {
      LoginIsRead(AsFields(j).value);
    }
    hide AsFields, NestedString;
  }

  function ReviewOf(root: Json): Review {
    var review := Member(root, "review");
    Review(TextOf(Member(review, "node_id")), Repository(root),
           TextOf(Member(Member(root, "pull_request"), "node_id")), LoginOf(review),
           ToLower(TextOf(Member(review, "state"))), 0, DateOf(Member(review, "submitted_at")))
  }

  lemma ReviewIsDecoded(root: Json)
    requires IsObject(root)
    ensures NormalizeReview(AsFields(root).value)
         == if !IsReviewPayload(root) then Err(Undecodable)
            else if InstallationOf(root) == 0 then Err(MissingInstallation)
            else if TextOf(Member(root, "action")) != "submitted" then Ok(SKIPPED)
            else Ok(Normalized(InstallationOf(root),
                               [PrWorkItem(PullRequestOf(Member(root, "pull_request")), Repository(root))],
                               [ReviewOf(root)], [], [], false))
  {
    FieldsAreMembers(root);
    EnvelopeIsRead(root);
    TextIsRead(AsFields(root).value, "action");
    ReviewObjectIsDecoded(Member(root, "review"));
    PullRequestIsDecoded(Member(root, "pull_request"));
    hide AsFields, AsString, IsText, TextOf, DateOf, Member, Get, DecodePullRequest, IsPullRequest, PrWorkItem, LoginOf,
         DecodeReview, IsReview, IsRepository, IsInstallation, RepoName, InstallationId, Repository, InstallationOf,
         ToLower;
  }

  lemma ReviewIsRead(root: Json)
    requires IsObject(root)
    ensures var r := NormalizeReview(AsFields(root).value);
            IsDecided(r, IsReviewPayload(root), InstallationOf(root)) && (r.Ok? ==> MeansReview(root, r.value))
  {
    ReviewIsDecoded(root);
    if IsReviewPayload(root) {
      ReviewPrIsRead(root);
    }
    hide AsFields, NormalizeReview, PrWorkItem, PullRequestOf, IsReviewedPr, InstallationOf, IsPullRequest;
  }

  // ---- comments ----

  lemma CommentObjectIsDecoded(j: Json)
    ensures DecodeComment(j)
         == if IsComment(j)
            then Ok(CommentObject(TextOf(Member(j, "node_id")), TextOf(Member(j, "body")),
                                  DateOf(Member(j, "created_at")), LoginOf(j)))
            else Err(Undecodable)
  {
    FieldsAreMembers(j);
    if AsFields(j).Ok? {
      LoginIsRead(AsFields(j).value);
    }
    hide AsFields, NestedString;
  }

  lemma CommentIsRead(root: Json, parentType: string, parent: string)
    requires IsObject(root) && IsNumbered(Member(root, parent))
    ensures var r := NormalizeComment(AsFields(root).value, parentType, IntOf(Member(Member(root, parent), "number")));
            && IsDecided(r, IsCommentPayload(root, parent), InstallationOf(root))
            && (r.Ok? ==> MeansComment(root, r.value, parentType, Member(root, parent)))
  {
    FieldsAreMembers(root);
    EnvelopeIsRead(root);
    TextIsRead(AsFields(root).value, "action");
    CommentObjectIsDecoded(Member(root, "comment"));
    hide AsFields, AsString, IsText, TextOf, DateOf, Member, Get, LoginOf, DecodeComment, IsComment, IsNumbered,
         IsRepository, IsInstallation, RepoName, InstallationId, Repository, InstallationOf;
  }

  lemma NumberIsRead(j: Json)
    ensures AsFields(j).Ok? && AsInt(Get(AsFields(j).value, "number")).Ok? <==> IsNumbered(j)
    ensures IsNumbered(j) ==> AsInt(Get(AsFields(j).value, "number")) == Ok(IntOf(Member(j, "number")))
    ensures AsFields(j).Err? ==> AsFields(j).error == Undecodable
    ensures AsFields(j).Ok? && AsInt(Get(AsFields(j).value, "number")).Err? ==>
              AsInt(Get(AsFields(j).value, "number")).error == Undecodable
  {
  }

  lemma ReviewCommentIsRead(root: Json)
    requires IsObject(root)
    ensures var r := NormalizeReviewComment(AsFields(root).value);
            && IsDecided(r, IsCommentPayload(root, "pull_request"), InstallationOf(root))
            && (r.Ok? ==> MeansComment(root, r.value, "pr", Member(root, "pull_request")))
  {
    FieldsAreMembers(root);
    NumberIsRead(Member(root, "pull_request"));
    hide AsFields, AsInt, NormalizeComment, IsNumbered, InstallationOf;
    if IsNumbered(Member(root, "pull_request")) {
      CommentIsRead(root, "pr", "pull_request");
    }
    hide IsComment, IsEnvelope, MeansComment, Member, Get;
  }

  lemma IssueCommentIsRead(root: Json)
    requires IsObject(root)
    ensures var r := NormalizeIssueComment(AsFields(root).value);
            && IsDecided(r, IsCommentPayload(root, "issue"), InstallationOf(root))
            && (r.Ok? ==> MeansComment(root, r.value, if IsOnPr(root) then "pr" else "issue", Member(root, "issue")))
  {
    FieldsAreMembers(root);
    NumberIsRead(Member(root, "issue"));
    assert IsObject(Member(root, "issue"))
      ==> ("pull_request" in AsFields(Member(root, "issue")).value <==> IsOnPr(root));
    hide AsFields, AsInt, NormalizeComment, IsNumbered, InstallationOf;
    if IsNumbered(Member(root, "issue")) {
      CommentIsRead(root, if IsOnPr(root) then "pr" else "issue", "issue");
    }
    hide IsComment, IsEnvelope, MeansComment, Member, Get, IsOnPr;
  }

  // ---- issues ----

  lemma IssueObjectIsDecoded(j: Json)
    ensures DecodeIssue(j)
         == if IsIssue(j)
            then Ok(IssueObject(TextOf(Member(j, "node_id")), IntOf(Member(j, "number")), TextOf(Member(j, "title")),
                                TextOf(Member(j, "state")), DateOf(Member(j, "created_at")),
                                InstantOf(Member(j, "closed_at")), LoginOf(j)))
            else Err(Undecodable)
  {
    FieldsAreMembers(j);
    if AsFields(j).Err? {
      return;
    }
    var f := AsFields(j).value;
    LoginIsRead(f);
    TextIsRead(f, "node_id");
    IntegerIsRead(f, "number");
    TextIsRead(f, "title");
    TextIsRead(f, "state");
    InstantIsRead(f, "created_at");
    InstantIsRead(f, "closed_at");
    assert LoginOf(j) == TextOf(Member(Member(j, "user"), "login"));
    hide AsFields, NestedString, AsString, AsInt, AsTimePtr, AsTime, IsText, IsInstant, IsInteger,
         TextOf, IntOf, InstantOf, DateOf, LoginOf, IsActor, Member, Get;
  }

  function IssueItemOf(root: Json): WorkItem
    requires IsIssue(Member(root, "issue"))
  {
    var issue := Member(root, "issue");
    var status := if TextOf(Member(issue, "state")) == "closed" then "closed" else "open";
    var created, closed := DateOf(Member(issue, "created_at")), InstantOf(Member(issue, "closed_at"));
    WorkItem("issue", Repository(root), TextOf(Member(issue, "node_id")), IntOf(Member(issue, "number")),
             TextOf(Member(issue, "title")), status, status, LoginOf(issue), 0, 0, 0, created, None, closed,
             WorkItemEvent(TextOf(Member(root, "action"))), GetOr(closed, created), [], [])
  }

  lemma IssueItemIsRead(root: Json)
    requires IsIssue(Member(root, "issue"))
    ensures IsIssueItem(IssueItemOf(root), root)
  {
    EventIsRead(TextOf(Member(root, "action")));
    hide IsIssue, WorkItemEvent, IsEventOf, Repository;
  }

  lemma IssueIsDecoded(root: Json)
    requires IsObject(root)
    ensures NormalizeIssue(AsFields(root).value)
         == if !IsIssuePayload(root) then Err(Undecodable)
            else if InstallationOf(root) == 0 then Err(MissingInstallation)
            else Ok(Normalized(InstallationOf(root), [IssueItemOf(root)], [], [], [], false))
  {
    FieldsAreMembers(root);
    EnvelopeIsRead(root);
    TextIsRead(AsFields(root).value, "action");
    IssueObjectIsDecoded(Member(root, "issue"));
    hide AsFields, AsString, IsText, TextOf, IntOf, InstantOf, DateOf, Member, Get, LoginOf, DecodeIssue, IsIssue,
         IsRepository, IsInstallation, RepoName, InstallationId, Repository, InstallationOf, WorkItemEvent;
  }

  lemma IssueIsRead(root: Json)
    requires IsObject(root)
    ensures var r := NormalizeIssue(AsFields(root).value);
            IsDecided(r, IsIssuePayload(root), InstallationOf(root)) && (r.Ok? ==> MeansIssue(root, r.value))
  {
    IssueIsDecoded(root);
    if IsIssuePayload(root) {
      IssueItemIsRead(root);
    }
    hide AsFields, NormalizeIssue, IssueItemOf, IsIssueItem, InstallationOf, IsIssue;
  }

  // ---- push ----

  lemma {:induction false} FirstLineIsRead(s: string)
    ensures IsFirstLine(FirstLine(s), s)
  {
    if s != "" && s[0] != '\n' {
      FirstLineIsRead(s[1..]);
      assert s == [s[0]] + s[1..];
    }
  }

  lemma AuthorIsRead(j: Json)
    requires AsFields(j).Ok?
    ensures var a := AsFields(j).value;
            && (IsAuthor(j) <==> AsString(Get(a, "name")).Ok? && AsString(Get(a, "email")).Ok?
                                 && AsString(Get(a, "username")).Ok?)
            && AsString(Get(a, "username"))
               == (if IsText(Member(j, "username")) then Ok(TextOf(Member(j, "username"))) else Err(Undecodable))
            && (AsString(Get(a, "name")).Err? ==> AsString(Get(a, "name")).error == Undecodable)
            && (AsString(Get(a, "email")).Err? ==> AsString(Get(a, "email")).error == Undecodable)
  {
  }

  lemma CommitIsDecoded(j: Json, repo: string)
    ensures DecodeCommit(j, repo)
         == if IsCommit(j)
            then var at := DateOf(Member(j, "timestamp"));
                 Ok(WorkItem("commit", repo, TextOf(Member(j, "id")), 0, FirstLine(TextOf(Member(j, "message"))),
                             "observed", "", TextOf(Member(Member(j, "author"), "username")), 0, 0, 0, at, None, None,
                             CommitObserved, at, [], []))
            else Err(Undecodable)
  {
    FieldsAreMembers(j);
    if AsFields(j).Err? {
      return;
    }
    var f := AsFields(j).value;
    TextIsRead(f, "id");
    TextIsRead(f, "message");
    InstantIsRead(f, "timestamp");
    FieldsAreMembers(Member(j, "author"));
    if AsFields(Member(j, "author")).Ok? {
      AuthorIsRead(Member(j, "author"));
    }
    assert AsFields(Get(f, "author")).Err? ==> !IsAuthor(Member(j, "author"));
    hide AsFields, AsString, AsTimePtr, AsTime, IsText, IsInstant, TextOf, InstantOf, DateOf, Get, Member, FirstLine,
         IsAuthor;
  }

  lemma CommitIsRead(j: Json, root: Json)
    ensures DecodeCommit(j, Repository(root)).Ok? <==> IsCommit(j)
    ensures DecodeCommit(j, Repository(root)).Ok? ==> IsCommitItem(DecodeCommit(j, Repository(root)).value, j, root)
    ensures DecodeCommit(j, Repository(root)).Err? ==> DecodeCommit(j, Repository(root)).error == Undecodable
  {
    CommitIsDecoded(j, Repository(root));
    FirstLineIsRead(TextOf(Member(j, "message")));
    hide DecodeCommit, IsCommit, FirstLine, IsFirstLine, Repository;
  }

  lemma {:induction false} CommitsAreRead(items: seq<Json>, root: Json)
    ensures var r := DecodeCommits(items, Repository(root));
            && (r.Ok? <==> forall c :: c in items ==> IsCommit(c))
            && (r.Ok? ==> |r.value| == |items|
                          && forall k :: 0 <= k < |items| ==> IsCommitItem(r.value[k], items[k], root))
            && (r.Err? ==> r.error == Undecodable)
  {
    hide DecodeCommit, IsCommit, IsCommitItem, Repository;
    if items != [] {
      CommitIsRead(items[0], root);
      CommitsAreRead(items[1..], root);
      assert forall c :: c in items <==> c == items[0] || c in items[1..];
      var r := DecodeCommits(items, Repository(root));
      if r.Ok? {
        forall k | 0 <= k < |items| ensures IsCommitItem(r.value[k], items[k], root) {
          assert k > 0 ==> items[k] == items[1..][k - 1];
        }
      }
    }
  }

  lemma PushIsRead(root: Json)
    requires IsObject(root)
    ensures var r := NormalizePush(AsFields(root).value);
            IsDecided(r, IsPushPayload(root), InstallationOf(root)) && (r.Ok? ==> MeansPush(root, r.value))
  {
    FieldsAreMembers(root);
    EnvelopeIsRead(root);
    CommitsAreRead(ItemsOf(Member(root, "commits")), root);
    hide AsFields, Member, Get, DecodeCommits, IsCommit, IsCommitItem,
         IsRepository, IsInstallation, RepoName, InstallationId, Repository, InstallationOf;
  }

  // ---- check_run and status ----

  lemma CheckRunObjectIsDecoded(j: Json)
    ensures DecodeCheckRun(j)
         == if IsCheckRun(j)
            then Ok(CheckRunObject(TextOf(Member(j, "node_id")), TextOf(Member(j, "name")),
                                   TextOf(Member(j, "head_sha")), TextOf(Member(j, "status")),
                                   TextOf(Member(j, "conclusion")), InstantOf(Member(j, "started_at")),
                                   InstantOf(Member(j, "completed_at"))))
            else Err(Undecodable)
  {
    FieldsAreMembers(j);
    if AsFields(j).Err? {
      return;
    }
    var f := AsFields(j).value;
    TextIsRead(f, "node_id");
    TextIsRead(f, "name");
    TextIsRead(f, "head_sha");
    TextIsRead(f, "status");
    TextIsRead(f, "conclusion");
    InstantIsRead(f, "started_at");
    InstantIsRead(f, "completed_at");
    hide AsFields, AsString, AsTimePtr, AsTime, IsText, IsInstant, TextOf, InstantOf, DateOf, Member, Get;
  }

  lemma CheckRunIsRead(root: Json)
    requires IsObject(root)
    ensures var r := NormalizeCheckRun(AsFields(root).value);
            IsDecided(r, IsCheckPayload(root), InstallationOf(root)) && (r.Ok? ==> MeansCheckRun(root, r.value))
  {
    FieldsAreMembers(root);
    EnvelopeIsRead(root);
    TextIsRead(AsFields(root).value, "action");
    CheckRunObjectIsDecoded(Member(root, "check_run"));
    hide AsFields, AsString, IsText, TextOf, InstantOf, Member, Get, DecodeCheckRun, IsCheckRun,
         IsRepository, IsInstallation, RepoName, InstallationId, Repository, InstallationOf;
  }

  lemma DigitIsRead(d: nat)
    requires d < 10
    ensures ["0123456789"[d]] == [('0' as int + d) as char]
  {
  }

  lemma ValueOfOneMore(s: string, d: char)
    ensures ValueOf(s + [d]) == 10 * ValueOf(s) + (d as int - '0' as int)
  {
    assert (s + [d])[..|s|] == s;
  }

  lemma {:induction false} DigitsAreRead(n: nat)
    ensures IsNumeral(Digits(n), n)
  {
    DigitIsRead(n % 10);
    var d := ('0' as int + n % 10) as char;
    if n < 10 {
      assert Digits(n) == "" + [d];
      ValueOfOneMore("", d);
    } else {
      DigitsAreRead(n / 10);
      assert Digits(n) == Digits(n / 10) + [d];
      ValueOfOneMore(Digits(n / 10), d);
      hide Digits, ValueOf;
    }
  }

  lemma DecimalIsRead(n: int)
    ensures IsDecimal(Decimal(n), n)
  {
    DigitsAreRead(if n < 0 then -n else n);
    hide Digits, IsNumeral;
    if n < 0 {
      assert Decimal(n)[1..] == Digits(-n);
    }
  }

  function StatusOf(root: Json): CheckRun {
    CheckRun("status:" + Decimal(IntOf(Member(root, "id"))), Repository(root), TextOf(Member(root, "sha")),
             TextOf(Member(root, "context")), StatusConclusion(TextOf(Member(root, "state"))), None,
             InstantOf(Member(root, "updated_at")))
  }

  lemma StatusOfIsRead(root: Json)
    ensures IsStatusCheck(StatusOf(root), root)
  {
    var id := IntOf(Member(root, "id"));
    DecimalIsRead(id);
    hide Decimal, IsDecimal, Repository;
    assert ("status:" + Decimal(id))[7..] == Decimal(id);
    assert ("status:" + Decimal(id))[..7] == "status:";
  }

  lemma StatusIsDecoded(root: Json)
    requires IsObject(root)
    ensures NormalizeStatus(AsFields(root).value)
         == if !IsStatusPayload(root) then Err(Undecodable)
            else if InstallationOf(root) == 0 then Err(MissingInstallation)
            else if TextOf(Member(root, "state")) == "pending" then Ok(SKIPPED)
            else Ok(Normalized(InstallationOf(root), [], [], [StatusOf(root)], [], false))
  {
    var f := AsFields(root).value;
    FieldsAreMembers(root);
    EnvelopeIsRead(root);
    IntegerIsRead(f, "id");
    TextIsRead(f, "sha");
    TextIsRead(f, "context");
    TextIsRead(f, "state");
    InstantIsRead(f, "updated_at");
    hide AsFields, AsString, AsInt, AsTimePtr, IsText, IsInteger, IsInstant, TextOf, IntOf, InstantOf, Member, Get,
         IsRepository, IsInstallation, RepoName, InstallationId, Repository, InstallationOf, Decimal, StatusConclusion;
  }

  lemma StatusIsRead(root: Json)
    requires IsObject(root)
    ensures var r := NormalizeStatus(AsFields(root).value);
            IsDecided(r, IsStatusPayload(root), InstallationOf(root)) && (r.Ok? ==> MeansStatus(root, r.value))
  {
    StatusIsDecoded(root);
    StatusOfIsRead(root);
    hide NormalizeStatus, AsFields, StatusOf, IsStatusCheck, IsStatusPayload, InstallationOf, Member, TextOf;
  }

  // ---- every event ----

  lemma PayloadIsRead(eventType: string, root: Json)
    requires eventType in HANDLED && IsObject(root)
    ensures var r := NormalizePayload(eventType, AsFields(root).value);
            && IsDecided(r, Decodes(eventType, root), InstallationOf(root))
            && (r.Ok? ==> Means(eventType, root, r.value))
  {
    hide NormalizePullRequest, NormalizeReview, NormalizeReviewComment, NormalizeIssueComment, NormalizeIssue,
         NormalizePush, NormalizeCheckRun, NormalizeStatus, AsFields, InstallationOf, IsOnPr, Member, IsDecided,
         MeansPr, MeansReview, MeansComment, MeansIssue, MeansPush, MeansCheckRun, MeansStatus, IsSkipped,
         IsPrPayload, IsReviewPayload, IsCommentPayload, IsIssuePayload, IsPushPayload, IsCheckPayload,
         IsStatusPayload, IsObject;
    match eventType
    case "pull_request" => PullRequestIsRead(root);
    case "pull_request_review" => ReviewIsRead(root);
    case "pull_request_review_comment" => ReviewCommentIsRead(root);
    case "issue_comment" => IssueCommentIsRead(root);
    case "issues" => IssueIsRead(root);
    case "push" => PushIsRead(root);
    case "check_run" => CheckRunIsRead(root);
    case _ =>
      assert eventType == "status";
      StatusIsRead(root);
  }

  /** The root of the document, where there is one. */
  function Root(body: Body): Json { if body.Document? then body.root else Null }

  /** Every event of the eight types is refused for what is wrong with its payload, as undecodable or
      for its missing installation, and otherwise means what its payload's members say; events of
      any other type are skipped whatever their bytes. */
  lemma NormalizeIsRead(raw: RawEvent)
    ensures raw.eventType !in {"pull_request", "pull_request_review", "pull_request_review_comment", "issue_comment",
                               "issues", "push", "check_run", "status"} ==>
              Normalize(raw).Ok? && IsSkipped(Normalize(raw).value)
    ensures raw.eventType in {"pull_request", "pull_request_review", "pull_request_review_comment", "issue_comment",
                              "issues", "push", "check_run", "status"} ==>
              var r := Normalize(raw);
              && IsDecided(r, raw.body.Document? && Decodes(raw.eventType, raw.body.root),
                           InstallationOf(Root(raw.body)))
              && (r.Ok? ==> Means(raw.eventType, raw.body.root, r.value))
  {
    if raw.eventType in HANDLED && raw.body.Document? && IsObject(raw.body.root) {
      PayloadIsRead(raw.eventType, raw.body.root);
    }
    hide NormalizePayload, Means, InstallationOf;
  }
}
