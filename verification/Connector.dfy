/** The source-agnostic entities of libs/go/connector and libs/go/events. */
module Connector {
  import opened Prelude

  /** EventType; NoEvent is the empty string an ensure-only work item carries. */
  datatype EventType =
    | NoEvent
    | WorkItemCreated
    | WorkItemUpdated
    | WorkItemStateChanged
    | ReviewSubmitted
    | CommentAdded
    | CommitObserved
    | CheckCompleted

  datatype FileChange = FileChange(path: string, additions: Int64, deletions: Int64, patch: string, truncated: bool)

  datatype WorkItem = WorkItem(
    kind: string,               // pr | issue | commit
    repo: string,
    nodeId: string,
    number: Int64,
    title: string,
    status: string,
    currentStage: string,
    authorLogin: string,
    changedFiles: Int64,
    additions: Int64,
    deletions: Int64,
    createdAt: Time,
    mergedAt: Option<Time>,
    closedAt: Option<Time>,
    event: EventType,
    occurredAt: Time,
    commitOids: seq<string>,
    files: seq<FileChange>)

  datatype Review = Review(
    sourceId: string,
    repo: string,
    prNodeId: string,
    reviewerLogin: string,
    state: string,
    commentCount: Int64,
    submittedAt: Time)

  datatype CheckRun = CheckRun(
    sourceId: string,
    repo: string,
    headSha: string,
    name: string,
    conclusion: string,
    startedAt: Option<Time>,
    completedAt: Option<Time>)

  datatype Comment = Comment(
    sourceId: string,
    repo: string,
    parentType: string,
    parentNumber: Int64,
    authorLogin: string,
    body: string,
    createdAt: Time)

  /** What one raw event normalizes to (connector.Result). */
  datatype Normalized = Normalized(
    installation: Int64,
    workItems: seq<WorkItem>,
    reviews: seq<Review>,
    checkRuns: seq<CheckRun>,
    comments: seq<Comment>,
    skip: bool)
  {
    predicate Empty() {
      |workItems| == 0 && |reviews| == 0 && |checkRuns| == 0 && |comments| == 0
    }
  }

  const SKIPPED := Normalized(0, [], [], [], [], true)
}
