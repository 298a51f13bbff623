/** The broker's tables as values: live tasks, terminal history, workflows and their nodes. */
module TaskTables {
  import opened Prelude

  type TaskId = nat        // a UUID read as an unsigned number, which is how it is ordered
  type WorkerId = string
  type Queue = string
  type Time = int          // milliseconds
  type NodeId = nat
  type WorkflowId = nat

  /** The statuses of a row of horsies_tasks; a terminal row lives in the history instead. */
  datatype TaskStatus = Pending | Claimed | Running

  /** Which operation ended a task, as stored with its history row. */
  datatype MoveKind =
    | CompleteLocked | CompleteFused | FailRunning | FailStale
    | ExpireClaimed | ExpirePending | CancelAdmin | CancelOrphan
    | PauseAbandonClaim | PauseAbandonClaimBatch | PauseAbandonWorkflow
    | WorkflowCancelClaim | WorkflowCancelClaimBatch | WorkflowCancelWorkflow

  const PAUSE_KINDS := {PauseAbandonClaim, PauseAbandonClaimBatch, PauseAbandonWorkflow}
  const CANCEL_KINDS := {WorkflowCancelClaim, WorkflowCancelClaimBatch, WorkflowCancelWorkflow}

  datatype Row = Row(
    queue: Queue,
    priority: int,
    enqueuedAt: Time,
    nextRetryAt: Option<Time>,
    goodUntil: Option<Time>,
    retryCount: nat,
    isWorkflowTask: bool,
    status: TaskStatus,
    claimedAt: Option<Time>,
    claimedBy: Option<WorkerId>,
    claimExpiresAt: Option<Time>,
    startedAt: Option<Time>)

  datatype NodeStatus =
    NodePending | NodeReady | NodeEnqueued | NodeRunning | NodeCompleted | NodeFailed | NodeSkipped

  datatype Node = Node(workflow: WorkflowId, status: NodeStatus, taskId: Option<TaskId>)

  datatype WorkflowStatus = WfPending | WfRunning | WfPaused | WfCancelled | WfCompleted | WfFailed

  /** `backs` records which node a workflow task was created for; no statement reads it. */
  datatype Tables = Tables(
    tasks: map<TaskId, Row>,
    history: map<TaskId, MoveKind>,
    nodes: map<NodeId, Node>,
    workflows: map<WorkflowId, WorkflowStatus>,
    backs: map<TaskId, NodeId>)

  /** What a terminalization statement reports; Raised stands for an SQL exception. */
  datatype Outcome = Applied | AlreadyApplied | LostClaim | SourceStateConflict | TaskAbsent | Raised

  function RowAt(t: Tables, id: TaskId): Option<Row> {
    if id in t.tasks then Some(t.tasks[id]) else None
  }

  /** `deadline IS NULL OR deadline > now`. */
  predicate NotPast(deadline: Option<Time>, now: Time) {
    deadline.None? || deadline.value > now
  }

  /** `at IS NULL OR at <= now`. */
  predicate Arrived(at: Option<Time>, now: Time) {
    at.None? || at.value <= now
  }

  /** The row filter shared by both arms of the claim scan. */
  predicate Due(r: Row, now: Time) {
    r.enqueuedAt <= now && Arrived(r.nextRetryAt, now) && NotPast(r.goodUntil, now)
  }

  predicate PendingArm(r: Row, now: Time) {
    r.status == Pending && Due(r, now)
  }

  predicate ExpiredArm(r: Row, now: Time) {
    r.status == Claimed && r.claimExpiresAt.Some? && r.claimExpiresAt.value < now && Due(r, now)
  }

  /** The single OR-predicate of the claim scan. */
  predicate Claimable(r: Row, now: Time) {
    && (r.status == Pending
        || (r.status == Claimed && r.claimExpiresAt.Some? && r.claimExpiresAt.value < now))
    && Due(r, now)
  }

  /** RUNNING, or CLAIMED under a lease that has not run out. */
  predicate CountsInFlight(r: Row, now: Time) {
    r.status == Running || (r.status == Claimed && NotPast(r.claimExpiresAt, now))
  }

  function InFlight(t: Tables, now: Time): set<TaskId> {
    set id | id in t.tasks && CountsInFlight(t.tasks[id], now)
  }

  function Links(t: Tables, id: TaskId): set<NodeId> {
    set n | n in t.nodes && t.nodes[n].taskId == Some(id)
  }

  function LinkedWorkflows(t: Tables, id: TaskId): set<WorkflowId> {
    set n | n in Links(t, id) :: t.nodes[n].workflow
  }

  /** The task's node belongs to a PAUSED or CANCELLED workflow. */
  predicate Stopped(t: Tables, id: TaskId) {
    exists n :: n in Links(t, id) && t.nodes[n].workflow in t.workflows
      && t.workflows[t.nodes[n].workflow] in {WfPaused, WfCancelled}
  }
}
