/** Every statement or transaction on the task tables as one atomic step. */
module TaskSteps {
  import opened Prelude
  import opened TaskTables
  import opened ClaimPass

  // ---- rows ----

  function WithRow(t: Tables, id: TaskId, r: Row): Tables {
    t.(tasks := t.tasks[id := r])
  }

  function FreshRow(q: Queue, priority: int, enqueuedAt: Time, goodUntil: Option<Time>, workflow: bool): Row {
    Row(q, priority, enqueuedAt, None, goodUntil, 0, workflow, Pending, None, None, None, None)
  }

  /** INSERT ... ON CONFLICT (id) DO NOTHING, with the enqueued_at chosen by the CASE. */
  function Enqueue(t: Tables, id: TaskId, q: Queue, priority: int, at: Option<Time>, delay: Option<int>,
                   goodUntil: Option<Time>, now: Time): Tables {
    if id in t.tasks then t
    else
      var due := if at.Some? then at.value else if delay.Some? then now + delay.value else now;
      WithRow(t, id, FreshRow(q, priority, due, goodUntil, false))
  }

  /** CLAIMED under this worker, and under this claim generation when one is carried. */
  predicate OwnsClaim(t: Tables, id: TaskId, worker: WorkerId, gen: Option<Time>) {
    id in t.tasks && t.tasks[id].status == Claimed && t.tasks[id].claimedBy == Some(worker)
    && (gen.None? || t.tasks[id].claimedAt == gen)
  }

  /** RUNNING under this worker, and under this claim generation when one is carried. */
  predicate OwnsRun(t: Tables, id: TaskId, worker: WorkerId, gen: Option<Time>) {
    id in t.tasks && t.tasks[id].status == Running && t.tasks[id].claimedBy == Some(worker)
    && (gen.None? || t.tasks[id].claimedAt == gen)
  }

  predicate StartApplies(t: Tables, id: TaskId, worker: WorkerId, gen: Option<Time>, now: Time) {
    OwnsClaim(t, id, worker, gen) && NotPast(t.tasks[id].claimExpiresAt, now)
    && NotPast(t.tasks[id].goodUntil, now) && !Stopped(t, id)
  }

  function SetRunning(t: Tables, id: TaskId, worker: WorkerId, gen: Option<Time>, now: Time): Tables {
    if StartApplies(t, id, worker, gen, now)
    then WithRow(t, id, t.tasks[id].(status := Running, claimExpiresAt := None, startedAt := Some(now)))
    else t
  }

  /** The CAS of the retry requeue. A NULL next_retry_at compares as unknown unless good_until is NULL. */
  predicate RequeueMatches(t: Tables, id: TaskId, at: Option<Time>, worker: WorkerId, startedAt: Option<Time>) {
    id in t.tasks && t.tasks[id].status == Running && t.tasks[id].claimedBy == Some(worker)
    && (t.tasks[id].goodUntil.None? || (at.Some? && at.value < t.tasks[id].goodUntil.value))
    && (startedAt.None? || t.tasks[id].startedAt == startedAt)
  }

  function RequeuedRow(r: Row, at: Time): Row {
    r.(status := Pending, retryCount := r.retryCount + 1, nextRetryAt := Some(at), enqueuedAt := at)
  }

  /** The claim columns are left alone; a NULL next_retry_at violates NOT NULL on enqueued_at and rolls back. */
  function Requeue(t: Tables, id: TaskId, at: Option<Time>, worker: WorkerId, startedAt: Option<Time>): Tables {
    if RequeueMatches(t, id, at, worker, startedAt) && at.Some?
    then WithRow(t, id, RequeuedRow(t.tasks[id], at.value))
    else t
  }

  function ReleasedRow(r: Row): Row {
    r.(status := Pending, claimedAt := None, claimedBy := None, claimExpiresAt := None)
  }

  function Unclaim(t: Tables, id: TaskId, worker: WorkerId, gen: Option<Time>): Tables {
    if OwnsClaim(t, id, worker, gen) then WithRow(t, id, ReleasedRow(t.tasks[id])) else t
  }

  /** The heartbeat's lease renewal; it looks at the claim's age and not at the lease it replaces. */
  predicate Renewable(r: Row, worker: WorkerId, maxAge: int, now: Time) {
    r.status == Claimed && r.claimedBy == Some(worker) && r.claimedAt.Some? && r.claimedAt.value >= now - maxAge
  }

  function RenewLeases(t: Tables, worker: WorkerId, until: Time, maxAge: int, now: Time): Tables {
    t.(tasks := map id | id in t.tasks ::
         if Renewable(t.tasks[id], worker, maxAge, now)
         then t.tasks[id].(claimExpiresAt := Some(until)) else t.tasks[id])
  }

  predicate StaleClaim(r: Row, threshold: int, now: Time) {
    r.status == Claimed
    && (if r.claimExpiresAt.Some? then r.claimExpiresAt.value < now
        else r.claimedAt.Some? && r.claimedAt.value < now - threshold)
  }

  function ReleaseStaleClaims(t: Tables, threshold: int, locked: set<TaskId>, now: Time): Tables {
    t.(tasks := map id | id in t.tasks ::
         if id !in locked && StaleClaim(t.tasks[id], threshold, now)
         then ReleasedRow(t.tasks[id]) else t.tasks[id])
  }

  predicate StaleRetryMatches(t: Tables, id: TaskId, at: Time) {
    id in t.tasks && t.tasks[id].status == Running
    && (t.tasks[id].goodUntil.None? || at < t.tasks[id].goodUntil.value)
  }

  /** The reaper's requeue of a silent RUNNING row; this one clears the claim. */
  function StaleRetry(t: Tables, id: TaskId, at: Time): Tables {
    if StaleRetryMatches(t, id, at)
    then WithRow(t, id, RequeuedRow(t.tasks[id], at).(claimedAt := None, claimedBy := None, claimExpiresAt := None))
    else t
  }

  // ---- terminal moves ----

  predicate Deferred(kind: MoveKind) {
    kind in {CompleteLocked, FailRunning, FailStale, ExpireClaimed, ExpirePending}
  }

  /** The checks of the move to history; a failed one raises and the transaction rolls back. */
  predicate Movable(t: Tables, id: TaskId, kind: MoveKind) {
    id in t.tasks && id !in t.history
    && (t.tasks[id].isWorkflowTask ==>
          kind != CompleteFused && kind != CancelAdmin
          && (if Deferred(kind) then |Links(t, id)| == 1 else |LinkedWorkflows(t, id)| <= 1))
  }

  function Move(t: Tables, ids: set<TaskId>, kind: MoveKind): Tables {
    t.(tasks := t.tasks - ids,
       history := t.history + map id | id in ids :: kind)
  }

  /** How a statement that matched no row classifies the miss: terminal first, then the fence. */
  function ClassifyMiss(t: Tables, id: TaskId, kinds: set<MoveKind>, worker: Option<WorkerId>, gen: Option<Time>): Outcome {
    if id !in t.tasks then
      if id !in t.history then TaskAbsent
      else if t.history[id] in kinds then AlreadyApplied else SourceStateConflict
    else if worker.Some? && (t.tasks[id].claimedBy != worker || (gen.Some? && t.tasks[id].claimedAt != gen)) then LostClaim
    else SourceStateConflict
  }

  /** A single-row terminalization: the row matched its guard, or the miss is classified. */
  function Terminalize(t: Tables, matched: bool, id: TaskId, kind: MoveKind, kinds: set<MoveKind>,
                       worker: Option<WorkerId>, gen: Option<Time>): (Tables, Outcome) {
    if !matched then (t, ClassifyMiss(t, id, kinds, worker, gen))
    else if Movable(t, id, kind) then (Move(t, {id}, kind), Applied)
    else (t, Raised)
  }

  function CompleteTaskFused(t: Tables, id: TaskId, worker: WorkerId, gen: Option<Time>): (Tables, Outcome) {
    Terminalize(t, OwnsRun(t, id, worker, gen), id, CompleteFused, {CompleteFused, CompleteLocked}, Some(worker), gen)
  }

  /**
   * The locked finalizations of a workflow task's success and of every failure: one transaction opens with a locking
   * read fenced by worker and generation, classifies a miss under the same fence, and moves the row it has locked.
   */
  function CompleteLockedTask(t: Tables, id: TaskId, worker: WorkerId, gen: Option<Time>): (Tables, Outcome) {
    Terminalize(t, OwnsRun(t, id, worker, gen), id, CompleteLocked, {CompleteFused, CompleteLocked}, Some(worker), gen)
  }

  function FailLockedTask(t: Tables, id: TaskId, worker: WorkerId, gen: Option<Time>): (Tables, Outcome) {
    Terminalize(t, OwnsRun(t, id, worker, gen), id, FailRunning, {FailRunning}, Some(worker), gen)
  }

  /** `silent` is the verdict on the runner's heartbeats, which are not modelled. */
  function FailStaleTask(t: Tables, id: TaskId, silent: bool): (Tables, Outcome) {
    var running := id in t.tasks && t.tasks[id].status == Running;
    Terminalize(t, running && t.tasks[id].startedAt.Some? && silent, id, FailStale, {FailStale}, None, None)
  }

  /** Fenced by worker and deadline, deliberately not by claim generation. */
  predicate ExpireMatches(t: Tables, id: TaskId, worker: WorkerId, now: Time) {
    OwnsClaim(t, id, worker, None) && !NotPast(t.tasks[id].goodUntil, now)
  }

  function ExpireOwnedClaim(t: Tables, id: TaskId, worker: WorkerId, now: Time): (Tables, Outcome) {
    if OwnsClaim(t, id, worker, None) && NotPast(t.tasks[id].goodUntil, now) then (t, SourceStateConflict)
    else Terminalize(t, ExpireMatches(t, id, worker, now), id, ExpireClaimed, {ExpireClaimed, ExpirePending}, Some(worker), None)
  }

  function CancelLockedTask(t: Tables, id: TaskId, permitted: set<TaskStatus>): (Tables, Outcome) {
    Terminalize(t, id in t.tasks && !t.tasks[id].isWorkflowTask && t.tasks[id].status in permitted,
                id, CancelAdmin, {CancelAdmin}, None, None)
  }

  predicate RunnableLink(t: Tables, id: TaskId) {
    exists n :: n in Links(t, id) && t.nodes[n].status in {NodeEnqueued, NodeReady, NodePending, NodeRunning}
  }

  function CancelOwnedOrphan(t: Tables, id: TaskId, worker: WorkerId, gen: Option<Time>): (Tables, Outcome) {
    var held := OwnsClaim(t, id, worker, gen) && t.tasks[id].isWorkflowTask;
    if held && RunnableLink(t, id) then (t, SourceStateConflict)
    else Terminalize(t, held, id, CancelOrphan, {CancelOrphan}, Some(worker), gen)
  }

  function AbandonOwnedNode(t: Tables, id: TaskId, worker: WorkerId, gen: Option<Time>): (Tables, Outcome) {
    Terminalize(t, OwnsClaim(t, id, worker, gen), id, PauseAbandonClaim, PAUSE_KINDS, Some(worker), gen)
  }

  function CancelOwnedNode(t: Tables, id: TaskId, worker: WorkerId, gen: Option<Time>, acceptsPending: bool): (Tables, Outcome) {
    Terminalize(t, OwnsClaim(t, id, worker, gen) || (acceptsPending && id in t.tasks && t.tasks[id].status == Pending),
                id, WorkflowCancelClaim, CANCEL_KINDS, Some(worker), gen)
  }

  /** A batch raises as a whole when one of its rows cannot move. */
  function MoveBatch(t: Tables, ids: set<TaskId>, kind: MoveKind): Option<Tables> {
    if forall id :: id in ids ==> Movable(t, id, kind) then Some(Move(t, ids, kind)) else None
  }

  predicate ExpiredPending(t: Tables, id: TaskId, now: Time) {
    id in t.tasks && t.tasks[id].status == Pending && !NotPast(t.tasks[id].goodUntil, now)
  }

  /** Any batch of expired PENDING rows the scan may have locked. */
  function ExpirePendingTasks(t: Tables, batch: set<TaskId>, now: Time): Tables {
    var ids := set id | id in batch && ExpiredPending(t, id, now);
    var m := MoveBatch(t, ids, ExpirePending);
    if m.Some? then m.value else t
  }

  // ---- workflow nodes ----

  function ResetNodes(t: Tables, ids: set<TaskId>): Tables {
    t.(nodes := map n | n in t.nodes ::
         if t.nodes[n].taskId.Some? && t.nodes[n].taskId.value in ids
         then t.nodes[n].(status := NodeReady, taskId := None) else t.nodes[n])
  }

  const SKIPPABLE := {NodePending, NodeReady, NodeEnqueued}

  function SkipNodes(t: Tables, ids: set<TaskId>): Tables {
    t.(nodes := map n | n in t.nodes ::
         if t.nodes[n].taskId.Some? && t.nodes[n].taskId.value in ids && t.nodes[n].status in SKIPPABLE
         then t.nodes[n].(status := NodeSkipped) else t.nodes[n])
  }

  datatype StopKind = StopPaused | StopCancelled | StopOther

  /** A stop found after the claim and before the start: the terminal move and its node write commit together. */
  function StopBeforeStart(t: Tables, id: TaskId, why: StopKind, worker: WorkerId, gen: Option<Time>): (Tables, Outcome) {
    match why
    case StopPaused =>
      var (m, o) := AbandonOwnedNode(t, id, worker, gen);
      (if o in {Applied, AlreadyApplied} then ResetNodes(m, {id}) else m, o)
    case StopCancelled =>
      var (m, o) := CancelOwnedNode(t, id, worker, gen, true);
      (if o in {Applied, AlreadyApplied} then SkipNodes(m, {id}) else m, o)
    case StopOther => (t, SourceStateConflict)
  }

  function OwnedOf(t: Tables, claims: map<TaskId, Option<Time>>, worker: WorkerId): set<TaskId> {
    set id | id in claims && OwnsClaim(t, id, worker, claims[id])
  }

  /** The post-claim filter's two transactions: only rows whose move applied touch their nodes. */
  function AbandonOwnedNodes(t: Tables, claims: map<TaskId, Option<Time>>, worker: WorkerId): Tables {
    var owned := OwnedOf(t, claims, worker);
    var m := MoveBatch(t, owned, PauseAbandonClaimBatch);
    if m.Some? then ResetNodes(m.value, owned) else t
  }

  function CancelOwnedNodes(t: Tables, claims: map<TaskId, Option<Time>>, worker: WorkerId): Tables {
    var owned := OwnedOf(t, claims, worker);
    var m := MoveBatch(t, owned, WorkflowCancelClaimBatch);
    if m.Some? then SkipNodes(m.value, owned) else t
  }

  /** Live tasks linked from a node of these workflows in one of these node statuses. */
  function Backing(t: Tables, ws: set<WorkflowId>, statuses: set<NodeStatus>, locked: set<TaskId>): set<TaskId> {
    set id | id in t.tasks && id !in locked
             && exists n :: n in Links(t, id) && t.nodes[n].workflow in ws && t.nodes[n].status in statuses
  }

  /** Pause these RUNNING workflows, abandon their claimed tasks and reset exactly those nodes. */
  function PauseWorkflows(t: Tables, ws: set<WorkflowId>, locked: set<TaskId>): Tables {
    if !(forall w :: w in ws ==> w in t.workflows && t.workflows[w] == WfRunning) then t
    else
      var p := t.(workflows := t.workflows + map w | w in ws :: WfPaused);
      var ids := set id | id in Backing(p, ws, {NodeEnqueued, NodeRunning}, locked) && p.tasks[id].status == Claimed;
      var m := MoveBatch(p, ids, PauseAbandonWorkflow);
      if m.None? then t
      else m.value.(nodes := map n | n in t.nodes ::
             if t.nodes[n].taskId.Some? && t.nodes[n].taskId.value in ids && t.nodes[n].status in {NodeEnqueued, NodeRunning}
             then t.nodes[n].(status := NodeReady, taskId := None) else t.nodes[n])
  }

  function ResumeWorkflow(t: Tables, w: WorkflowId): Tables {
    if w in t.workflows && t.workflows[w] == WfPaused then t.(workflows := t.workflows[w := WfRunning]) else t
  }

  /** Cancel a workflow, its not-yet-started tasks, and the nodes those two allow to be skipped. */
  function CancelWorkflow(t: Tables, w: WorkflowId, locked: set<TaskId>): Tables {
    if !(w in t.workflows && t.workflows[w] in {WfPending, WfRunning, WfPaused}) then t
    else
      var ids := Backing(t, {w}, {NodeEnqueued}, locked);
      var m := MoveBatch(t.(workflows := t.workflows[w := WfCancelled]), ids, WorkflowCancelWorkflow);
      if m.None? then t
      else m.value.(nodes := map n | n in t.nodes ::
             if t.nodes[n].workflow == w
                && (t.nodes[n].status in {NodePending, NodeReady}
                    || (t.nodes[n].status == NodeEnqueued && t.nodes[n].taskId.Some? && t.nodes[n].taskId.value in ids))
             then t.nodes[n].(status := NodeSkipped) else t.nodes[n])
  }

  /** Insert a task for a READY node and link it; a lost guard or a used id rolls back. */
  function EnqueueNode(t: Tables, n: NodeId, id: TaskId, q: Queue, priority: int, goodUntil: Option<Time>, now: Time): Tables {
    if id !in t.tasks && n in t.nodes && t.nodes[n].status == NodeReady
       && t.nodes[n].workflow in t.workflows && t.workflows[t.nodes[n].workflow] == WfRunning
    then WithRow(t, id, FreshRow(q, priority, now, goodUntil, true))
           .(nodes := t.nodes[n := t.nodes[n].(status := NodeEnqueued, taskId := Some(id))],
             backs := t.backs[id := n])
    else t
  }

  /** The node's RUNNING handoff: it precedes the task's own start and carries no fence. */
  function NodeHandoff(t: Tables, id: TaskId): Tables {
    t.(nodes := map n | n in t.nodes ::
         if t.nodes[n].taskId == Some(id) && t.nodes[n].status in {NodeEnqueued, NodeReady, NodePending}
         then t.nodes[n].(status := NodeRunning) else t.nodes[n])
  }

  function NodeBecomesReady(t: Tables, n: NodeId): Tables {
    if n in t.nodes && t.nodes[n].status == NodePending
    then t.(nodes := t.nodes[n := t.nodes[n].(status := NodeReady)]) else t
  }

  /** A node ends on the terminal result of its task, so never while that task is live. */
  function NodeFinishes(t: Tables, n: NodeId, ok: bool): Tables {
    if n in t.nodes && t.nodes[n].status !in {NodeCompleted, NodeFailed, NodeSkipped}
       && (t.nodes[n].taskId.Some? ==> t.nodes[n].taskId.value !in t.tasks)
    then t.(nodes := t.nodes[n := t.nodes[n].(status := if ok then NodeCompleted else NodeFailed)]) else t
  }

  // ---- steps and runs ----

  datatype Op =
    | OpEnqueue(id: TaskId, q: Queue, priority: int, at: Option<Time>, delay: Option<int>, goodUntil: Option<Time>)
    | OpClaimBatch(p: ClaimParams, locked: set<TaskId>)
    | OpClaimQueue(q: Queue, limit: int, worker: WorkerId, lease: Option<Time>, locked: set<TaskId>)
    | OpSetRunning(id: TaskId, worker: WorkerId, gen: Option<Time>)
    | OpRequeue(id: TaskId, at: Option<Time>, worker: WorkerId, startedAt: Option<Time>)
    | OpUnclaim(id: TaskId, worker: WorkerId, gen: Option<Time>)
    | OpRenew(worker: WorkerId, until: Time, maxAge: int)
    | OpReleaseStale(threshold: int, locked: set<TaskId>)
    | OpStaleRetry(id: TaskId, retryAt: Time)
    | OpCompleteFused(id: TaskId, worker: WorkerId, gen: Option<Time>)
    | OpCompleteLocked(id: TaskId, worker: WorkerId, gen: Option<Time>)
    | OpFailLocked(id: TaskId, worker: WorkerId, gen: Option<Time>)
    | OpFailStale(id: TaskId, silent: bool)
    | OpExpireOwned(id: TaskId, worker: WorkerId)
    | OpExpirePending(batch: set<TaskId>)
    | OpCancelLocked(id: TaskId, permitted: set<TaskStatus>)
    | OpCancelOrphan(id: TaskId, worker: WorkerId, gen: Option<Time>)
    | OpStop(id: TaskId, why: StopKind, worker: WorkerId, gen: Option<Time>)
    | OpAbandonBatch(claims: map<TaskId, Option<Time>>, worker: WorkerId)
    | OpCancelBatch(claims: map<TaskId, Option<Time>>, worker: WorkerId)
    | OpPause(ws: set<WorkflowId>, locked: set<TaskId>)
    | OpResume(w: WorkflowId)
    | OpCancelWorkflow(w: WorkflowId, locked: set<TaskId>)
    | OpEnqueueNode(n: NodeId, id: TaskId, q: Queue, priority: int, goodUntil: Option<Time>)
    | OpHandoff(id: TaskId)
    | OpNodeReady(n: NodeId)
    | OpNodeFinish(n: NodeId, ok: bool)

  function Apply(t: Tables, op: Op, now: Time): Tables {
    match op
    case OpEnqueue(id, q, priority, at, delay, goodUntil) => Enqueue(t, id, q, priority, at, delay, goodUntil, now)
    case OpClaimBatch(p, locked) => ClaimBatch(t, p, locked, now)
    case OpClaimQueue(q, limit, worker, lease, locked) => ClaimQueue(t, q, limit, worker, lease, locked, now)
    case OpSetRunning(id, worker, gen) => SetRunning(t, id, worker, gen, now)
    case OpRequeue(id, at, worker, startedAt) => Requeue(t, id, at, worker, startedAt)
    case OpUnclaim(id, worker, gen) => Unclaim(t, id, worker, gen)
    case OpRenew(worker, until, maxAge) => RenewLeases(t, worker, until, maxAge, now)
    case OpReleaseStale(threshold, locked) => ReleaseStaleClaims(t, threshold, locked, now)
    case OpStaleRetry(id, at) => StaleRetry(t, id, at)
    case OpCompleteFused(id, worker, gen) => CompleteTaskFused(t, id, worker, gen).0
    case OpCompleteLocked(id, worker, gen) => CompleteLockedTask(t, id, worker, gen).0
    case OpFailLocked(id, worker, gen) => FailLockedTask(t, id, worker, gen).0
    case OpFailStale(id, silent) => FailStaleTask(t, id, silent).0
    case OpExpireOwned(id, worker) => ExpireOwnedClaim(t, id, worker, now).0
    case OpExpirePending(batch) => ExpirePendingTasks(t, batch, now)
    case OpCancelLocked(id, permitted) => CancelLockedTask(t, id, permitted).0
    case OpCancelOrphan(id, worker, gen) => CancelOwnedOrphan(t, id, worker, gen).0
    case OpStop(id, why, worker, gen) => StopBeforeStart(t, id, why, worker, gen).0
    case OpAbandonBatch(claims, worker) => AbandonOwnedNodes(t, claims, worker)
    case OpCancelBatch(claims, worker) => CancelOwnedNodes(t, claims, worker)
    case OpPause(ws, locked) => PauseWorkflows(t, ws, locked)
    case OpResume(w) => ResumeWorkflow(t, w)
    case OpCancelWorkflow(w, locked) => CancelWorkflow(t, w, locked)
    case OpEnqueueNode(n, id, q, priority, goodUntil) => EnqueueNode(t, n, id, q, priority, goodUntil, now)
    case OpHandoff(id) => NodeHandoff(t, id)
    case OpNodeReady(n) => NodeBecomesReady(t, n)
    case OpNodeFinish(n, ok) => NodeFinishes(t, n, ok)
  }

  datatype Event = Event(op: Op, now: Time)

  /** Each transaction has its own instant, later than every one before it. */
  predicate Ordered(es: seq<Event>, clock: Time) {
    (forall i :: 0 <= i < |es| ==> es[i].now > clock)
    && forall i, j :: 0 <= i < j < |es| ==> es[i].now < es[j].now
  }

  function Clock(es: seq<Event>, clock: Time): Time {
    if es == [] then clock else es[|es| - 1].now
  }

  /** The tables after a run, step by step. */
  function Run(t: Tables, es: seq<Event>): Tables {
    if es == [] then t
    else Apply(Run(t, es[..|es| - 1]), es[|es| - 1].op, es[|es| - 1].now)
  }

  /** The state after k + 1 events is one step from the state after k. */
  lemma RunStep(t: Tables, es: seq<Event>, k: nat)
    requires k < |es|
    ensures Run(t, es[..k + 1]) == Apply(Run(t, es[..k]), es[k].op, es[k].now)
  {
    assert es[..k + 1][..k] == es[..k];
  }

  // ---- what one step can do to one row ----

  predicate Inserts(b: Option<Row>, a: Option<Row>) {
    b.None? && a.Some? && a.value.status == Pending && a.value.retryCount == 0
    && a.value.claimedAt.None? && a.value.claimedBy.None? && a.value.startedAt.None?
  }

  predicate Claims(b: Option<Row>, a: Option<Row>, now: Time) {
    b.Some? && a.Some? && Claimable(b.value, now)
    && a.value.claimedBy.Some?
    && a.value == ClaimedRow(b.value, a.value.claimedBy.value, a.value.claimExpiresAt, now)
  }

  predicate Starts(b: Option<Row>, a: Option<Row>, now: Time) {
    b.Some? && a.Some? && b.value.status == Claimed && NotPast(b.value.claimExpiresAt, now)
    && a.value == b.value.(status := Running, claimExpiresAt := None, startedAt := Some(now))
  }

  predicate Requeues(b: Option<Row>, a: Option<Row>) {
    b.Some? && a.Some? && b.value.status == Running && a.value.status == Pending
    && a.value.retryCount == b.value.retryCount + 1 && a.value.startedAt == b.value.startedAt
    && (a.value.claimedAt == b.value.claimedAt || a.value.claimedAt.None?)
  }

  predicate Releases(b: Option<Row>, a: Option<Row>) {
    b.Some? && a.Some? && b.value.status == Claimed && a.value == ReleasedRow(b.value)
  }

  predicate Renews(b: Option<Row>, a: Option<Row>) {
    b.Some? && a.Some? && b.value.status == Claimed
    && a.value == b.value.(claimExpiresAt := a.value.claimExpiresAt)
  }

  predicate Ends(b: Option<Row>, a: Option<Row>) {
    b.Some? && a.None?
  }

  predicate RowStep(b: Option<Row>, a: Option<Row>, now: Time) {
    a == b || Inserts(b, a) || Claims(b, a, now) || Starts(b, a, now) || Requeues(b, a)
    || Releases(b, a) || Renews(b, a) || Ends(b, a)
  }

  lemma ClaimStep(t: Tables, op: Op, now: Time, id: TaskId)
    requires op.OpClaimBatch? || op.OpClaimQueue?
    ensures RowAt(Apply(t, op, now), id) == RowAt(t, id) || Claims(RowAt(t, id), RowAt(Apply(t, op, now), id), now)
  {
    match op
    case OpClaimBatch(p, locked) => PickedAreClaimable(t, p, locked, now);
    case OpClaimQueue(q, limit, worker, lease, locked) =>
      TwoArmClaimIsOneScan(t, q, 0, limit, locked, now);
  }

  predicate EndingOp(op: Op) {
    op.OpCompleteFused? || op.OpCompleteLocked? || op.OpFailLocked? || op.OpFailStale? || op.OpExpireOwned?
    || op.OpExpirePending? || op.OpCancelLocked? || op.OpCancelOrphan? || op.OpStop? || op.OpAbandonBatch?
    || op.OpCancelBatch? || op.OpPause? || op.OpCancelWorkflow?
  }

  /** The finalizations and the unfenced failure of one row. */
  predicate FinishOp(op: Op) {
    op.OpCompleteFused? || op.OpCompleteLocked? || op.OpFailLocked? || op.OpFailStale?
  }

  predicate OtherSingleEnd(op: Op) {
    op.OpExpireOwned? || op.OpCancelLocked? || op.OpCancelOrphan? || op.OpStop?
  }

  lemma FinishStep(t: Tables, op: Op, now: Time, id: TaskId)
    requires FinishOp(op)
    ensures RowAt(Apply(t, op, now), id) == RowAt(t, id) || Ends(RowAt(t, id), RowAt(Apply(t, op, now), id))
  {}

  lemma OtherSingleStep(t: Tables, op: Op, now: Time, id: TaskId)
    requires OtherSingleEnd(op)
    ensures RowAt(Apply(t, op, now), id) == RowAt(t, id) || Ends(RowAt(t, id), RowAt(Apply(t, op, now), id))
  {}

  lemma BatchStep(t: Tables, op: Op, now: Time, id: TaskId)
    requires EndingOp(op) && !FinishOp(op) && !OtherSingleEnd(op)
    ensures RowAt(Apply(t, op, now), id) == RowAt(t, id) || Ends(RowAt(t, id), RowAt(Apply(t, op, now), id))
  {}

  /** A terminalization leaves a row as it is or takes it out of the live table. */
  lemma EndingStep(t: Tables, op: Op, now: Time, id: TaskId)
    requires EndingOp(op)
    ensures RowAt(Apply(t, op, now), id) == RowAt(t, id) || Ends(RowAt(t, id), RowAt(Apply(t, op, now), id))
  {
    if FinishOp(op) {
      FinishStep(t, op, now, id);
    } else if OtherSingleEnd(op) {
      OtherSingleStep(t, op, now, id);
    } else {
      BatchStep(t, op, now, id);
    }
  }

  lemma LiveStep(t: Tables, op: Op, now: Time, id: TaskId)
    requires !EndingOp(op) && !op.OpClaimBatch? && !op.OpClaimQueue?
    ensures RowStep(RowAt(t, id), RowAt(Apply(t, op, now), id), now)
  {}

  /** Every step does to each row one of the eight things above. */
  lemma StepIsRowStep(t: Tables, op: Op, now: Time, id: TaskId)
    ensures RowStep(RowAt(t, id), RowAt(Apply(t, op, now), id), now)
  {
    if op.OpClaimBatch? || op.OpClaimQueue? {
      ClaimStep(t, op, now, id);
    } else if EndingOp(op) {
      EndingStep(t, op, now, id);
    } else {
      LiveStep(t, op, now, id);
    }
  }

  /**
   * Releasing a claim under its own generation leaves the row as it was but for the claim columns, which are cleared:
   * a row that carried none, as every row not retried does, is back exactly, and it is not due while it is held.
   */
  lemma ReleaseUndoesClaim(t: Tables, id: TaskId, worker: WorkerId, lease: Option<Time>, now: Time)
    requires id in t.tasks && PendingArm(t.tasks[id], now)
    ensures var held := MarkClaimed(t, {id}, worker, lease, now);
      OwnsClaim(held, id, worker, Some(now)) && !PendingArm(held.tasks[id], now)
      && Unclaim(held, id, worker, Some(now)) == WithRow(t, id, ReleasedRow(t.tasks[id]))
    ensures Unclaim(MarkClaimed(t, {id}, worker, lease, now), id, worker, Some(now)) == t
      <==> (t.tasks[id].claimedAt.None? && t.tasks[id].claimedBy.None? && t.tasks[id].claimExpiresAt.None?)
  {
    var held := MarkClaimed(t, {id}, worker, lease, now);
    var u := WithRow(t, id, ReleasedRow(t.tasks[id]));
    assert Unclaim(held, id, worker, Some(now)).tasks == u.tasks;
    if ReleasedRow(t.tasks[id]) == t.tasks[id] { assert u.tasks == t.tasks; } else { assert u.tasks[id] != t.tasks[id]; }
  }

  /**
   * An enqueued task is claimable exactly from its due instant (an explicit one, else now plus the delay) until its
   * deadline, and enqueueing its id again, with whatever arguments, changes nothing.
   */
  lemma EnqueuedWhenDue(t: Tables, id: TaskId, q: Queue, priority: int, at: Option<Time>, delay: Option<int>,
                        goodUntil: Option<Time>, now: Time, later: Time, again: Op)
    requires id !in t.tasks && again.OpEnqueue? && again.id == id
    ensures var u := Enqueue(t, id, q, priority, at, delay, goodUntil, now);
      var due := if at.Some? then at.value else now + (if delay.Some? then delay.value else 0);
      Claimable(u.tasks[id], later) == (due <= later && NotPast(goodUntil, later))
      && Enqueue(u, id, again.q, again.priority, again.at, again.delay, again.goodUntil, later) == u
  {}
}
