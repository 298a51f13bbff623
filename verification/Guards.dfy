/** Exactly when each transaction moves a row on or ends it, on the tables' own columns, and what it leaves behind. */
module Guards {
  import opened Prelude
  import opened TaskTables
  import opened TaskSteps

  /** The row has this status and worker, and this claim generation when one is carried. */
  predicate HeldAs(r: Row, status: TaskStatus, worker: WorkerId, gen: Option<Time>) {
    r.status == status && r.claimedBy == Some(worker) && (gen == None || gen == r.claimedAt)
  }

  predicate Linked(t: Tables, n: NodeId, id: TaskId) {
    n in t.nodes && t.nodes[n].taskId == Some(id)
  }

  /** Exactly one node links to the task. */
  predicate OneNode(t: Tables, id: TaskId) {
    (exists n :: n in t.nodes && Linked(t, n, id))
    && forall m, n :: m in t.nodes && n in t.nodes && Linked(t, m, id) && Linked(t, n, id) ==> m == n
  }

  /** Nodes of at most one workflow link to the task. */
  predicate OneWorkflow(t: Tables, id: TaskId) {
    forall m, n :: m in t.nodes && n in t.nodes && Linked(t, m, id) && Linked(t, n, id) ==> t.nodes[m].workflow == t.nodes[n].workflow
  }

  /** A claim, a pause or a cancel may move the row: it is not in the history already, nor torn between workflows. */
  predicate MayMove(t: Tables, id: TaskId) {
    id in t.tasks && id !in t.history && (t.tasks[id].isWorkflowTask ==> OneWorkflow(t, id))
  }

  /** A finalization or an expiry may: a workflow task must have its one node. */
  predicate MayFinish(t: Tables, id: TaskId) {
    id in t.tasks && id !in t.history && (t.tasks[id].isWorkflowTask ==> OneNode(t, id))
  }

  lemma OneLink(t: Tables, id: TaskId)
    ensures |Links(t, id)| == 1 <==> OneNode(t, id)
  {
    var s := Links(t, id);
    assert forall n :: n in s <==> n in t.nodes && Linked(t, n, id);
    if |s| == 1 {
      var n :| n in s;
      SubsetSize({n}, s);
    }
    if OneNode(t, id) {
      var n :| n in t.nodes && Linked(t, n, id);
      assert s == {n};
    }
  }

  lemma OneLinkedWorkflow(t: Tables, id: TaskId)
    ensures |LinkedWorkflows(t, id)| <= 1 <==> OneWorkflow(t, id)
  {
    var s, w := Links(t, id), LinkedWorkflows(t, id);
    if |w| <= 1 {
      forall m, n | m in t.nodes && n in t.nodes && Linked(t, m, id) && Linked(t, n, id)
        ensures t.nodes[m].workflow == t.nodes[n].workflow
      {
        assert m in s && n in s;
        AtMostOne(w, t.nodes[m].workflow, t.nodes[n].workflow);
      }
    }
    if OneWorkflow(t, id) && w != {} {
      var m :| m in s;
      assert Linked(t, m, id);
      assert forall n :: n in s ==> Linked(t, n, id);
      assert w == {t.nodes[m].workflow};
    }
  }

  lemma AtMostOne<T>(s: set<T>, a: T, b: T)
    requires |s| <= 1 && a in s && b in s
    ensures a == b
  {
    SubsetSize({a, b}, s);
  }

  lemma MovableMeans(t: Tables, id: TaskId, kind: MoveKind)
    ensures Movable(t, id, kind) <==>
      (if kind in {CompleteFused, CancelAdmin} then id in t.tasks && id !in t.history && !t.tasks[id].isWorkflowTask
       else if kind in {CompleteLocked, FailRunning, FailStale, ExpireClaimed, ExpirePending} then MayFinish(t, id)
       else MayMove(t, id))
  {
    OneLink(t, id);
    OneLinkedWorkflow(t, id);
  }

  // ---- the start ----

  /**
   * Over every step of a run: a CLAIMED row becomes RUNNING exactly by a start of its own worker under its own claim
   * generation, with the lease and the deadline absent or still ahead and no linked workflow PAUSED or CANCELLED.
   */
  lemma StartsExactlyWhen(t: Tables, es: seq<Event>, k: nat, id: TaskId)
    requires k < |es| && id in Run(t, es[..k]).tasks && Run(t, es[..k]).tasks[id].status == Claimed
    ensures var b, a, op, now := Run(t, es[..k]), Run(t, es[..k + 1]), es[k].op, es[k].now;
      var r := b.tasks[id];
      (id in a.tasks && a.tasks[id].status == Running)
        == (op.OpSetRunning? && op.id == id && r.claimedBy == Some(op.worker) && (op.gen == None || op.gen == r.claimedAt)
            && (r.claimExpiresAt == None || now < r.claimExpiresAt.value)
            && (r.goodUntil == None || now < r.goodUntil.value)
            && (forall n :: n in b.nodes && b.nodes[n].taskId == Some(id) && b.nodes[n].workflow in b.workflows ==>
                  b.workflows[b.nodes[n].workflow] != WfPaused && b.workflows[b.nodes[n].workflow] != WfCancelled))
    ensures var b, a := Run(t, es[..k]), Run(t, es[..k + 1]);
      id in a.tasks && a.tasks[id].status == Running ==>
        a.tasks[id] == b.tasks[id].(status := Running, claimExpiresAt := None, startedAt := Some(es[k].now))
  {
    var b, op, now := Run(t, es[..k]), es[k].op, es[k].now;
    RunStep(t, es, k);
    if op.OpSetRunning? { StartMeans(b, op.id, op.worker, op.gen, now); } else { OnlyAStartStarts(b, op, now, id); }
  }

  lemma OnlyAStartStarts(t: Tables, op: Op, now: Time, id: TaskId)
    requires !op.OpSetRunning? && id in t.tasks && t.tasks[id].status == Claimed
    ensures id in Apply(t, op, now).tasks ==> Apply(t, op, now).tasks[id].status != Running
  {
    if op.OpClaimBatch? || op.OpClaimQueue? {
      ClaimStep(t, op, now, id);
    } else if EndingOp(op) {
      EndingStep(t, op, now, id);
      assert id in Apply(t, op, now).tasks ==> RowAt(Apply(t, op, now), id).Some?;
    } else {
      QuietNeverStarts(t, op, now, id);
    }
  }

  lemma QuietNeverStarts(t: Tables, op: Op, now: Time, id: TaskId)
    requires !EndingOp(op) && !op.OpClaimBatch? && !op.OpClaimQueue? && !op.OpSetRunning?
    requires id in t.tasks && t.tasks[id].status == Claimed
    ensures id in Apply(t, op, now).tasks ==> Apply(t, op, now).tasks[id].status != Running
  {}

  lemma StartMeans(t: Tables, id: TaskId, worker: WorkerId, gen: Option<Time>, now: Time)
    ensures SetRunning(t, id, worker, gen, now) ==
        if id in t.tasks && HeldAs(t.tasks[id], Claimed, worker, gen)
           && (t.tasks[id].claimExpiresAt == None || now < t.tasks[id].claimExpiresAt.value)
           && (t.tasks[id].goodUntil == None || now < t.tasks[id].goodUntil.value)
           && (forall n :: n in t.nodes && t.nodes[n].taskId == Some(id) && t.nodes[n].workflow in t.workflows ==>
                 t.workflows[t.nodes[n].workflow] != WfPaused && t.workflows[t.nodes[n].workflow] != WfCancelled)
        then t.(tasks := t.tasks[id := t.tasks[id].(status := Running, claimExpiresAt := None, startedAt := Some(now))])
        else t
  {
    forall n | n in t.nodes && t.nodes[n].taskId == Some(id) ensures n in Links(t, id) {}
  }

  // ---- back to PENDING ----

  /** What takes a held row back to PENDING: the retry requeue, the reaper's requeue, a release, a stale release. */
  predicate GoesBack(t: Tables, op: Op, now: Time, id: TaskId)
    requires id in t.tasks
  {
    var r := t.tasks[id];
    match op
    case OpRequeue(i, at, worker, startedAt) =>
      i == id && r.status == Running && r.claimedBy == Some(worker) && (startedAt == None || startedAt == r.startedAt)
      && at.Some? && (r.goodUntil == None || at.value < r.goodUntil.value)
    case OpStaleRetry(i, at) => i == id && r.status == Running && (r.goodUntil == None || at < r.goodUntil.value)
    case OpUnclaim(i, worker, gen) => i == id && HeldAs(r, Claimed, worker, gen)
    case OpReleaseStale(threshold, locked) =>
      id !in locked && r.status == Claimed
      && (if r.claimExpiresAt == None then r.claimedAt.Some? && r.claimedAt.value + threshold < now
          else r.claimExpiresAt.value < now)
    case _ => false
  }

  lemma RequeueGoesBack(t: Tables, op: Op, now: Time, id: TaskId)
    requires (op.OpRequeue? || op.OpStaleRetry?) && id in t.tasks && t.tasks[id].status != Pending
    ensures id in Apply(t, op, now).tasks
    ensures Apply(t, op, now).tasks[id].status == Pending <==> GoesBack(t, op, now, id)
  {}

  lemma ReleaseGoesBack(t: Tables, op: Op, now: Time, id: TaskId)
    requires (op.OpUnclaim? || op.OpReleaseStale?) && id in t.tasks && t.tasks[id].status != Pending
    ensures id in Apply(t, op, now).tasks
    ensures Apply(t, op, now).tasks[id].status == Pending <==> GoesBack(t, op, now, id)
  {}

  lemma OthersNeverGoBack(t: Tables, op: Op, now: Time, id: TaskId)
    requires !EndingOp(op) && !op.OpClaimBatch? && !op.OpClaimQueue?
    requires !op.OpRequeue? && !op.OpStaleRetry? && !op.OpUnclaim? && !op.OpReleaseStale?
    requires id in t.tasks && t.tasks[id].status != Pending
    ensures id in Apply(t, op, now).tasks && Apply(t, op, now).tasks[id].status != Pending
  {}

  /** A held row goes back to PENDING exactly by one of the four transactions above, each under its own guards. */
  lemma GoesBackExactlyWhen(t: Tables, op: Op, now: Time, id: TaskId)
    requires id in t.tasks && t.tasks[id].status != Pending
    ensures (id in Apply(t, op, now).tasks && Apply(t, op, now).tasks[id].status == Pending) <==> GoesBack(t, op, now, id)
  {
    if op.OpClaimBatch? || op.OpClaimQueue? {
      ClaimStep(t, op, now, id);
    } else if EndingOp(op) {
      EndingStep(t, op, now, id);
      assert id in Apply(t, op, now).tasks ==> RowAt(Apply(t, op, now), id).Some?;
    } else if op.OpRequeue? || op.OpStaleRetry? {
      RequeueGoesBack(t, op, now, id);
    } else if op.OpUnclaim? || op.OpReleaseStale? {
      ReleaseGoesBack(t, op, now, id);
    } else {
      OthersNeverGoBack(t, op, now, id);
    }
  }

  /**
   * What a row looks like once it is back: a retry counts one more attempt and waits for its instant, and the worker's
   * own retry keeps the claim columns while the reaper's clears them; a release clears them and counts nothing.
   */
  lemma BackToPendingLeaves(t: Tables, op: Op, now: Time, id: TaskId)
    requires id in t.tasks && t.tasks[id].status != Pending && GoesBack(t, op, now, id)
    ensures id in Apply(t, op, now).tasks
    ensures var r, a := t.tasks[id], Apply(t, op, now).tasks[id];
      match op
      case OpRequeue(_, at, _, _) => at.Some? && a == Row(r.queue, r.priority, at.value, at, r.goodUntil, r.retryCount + 1,
        r.isWorkflowTask, Pending, r.claimedAt, r.claimedBy, r.claimExpiresAt, r.startedAt)
      case OpStaleRetry(_, at) => a == Row(r.queue, r.priority, at, Some(at), r.goodUntil, r.retryCount + 1,
        r.isWorkflowTask, Pending, None, None, None, r.startedAt)
      case _ => a == Row(r.queue, r.priority, r.enqueuedAt, r.nextRetryAt, r.goodUntil, r.retryCount,
        r.isWorkflowTask, Pending, None, None, None, r.startedAt)
  {
    if op.OpRequeue? || op.OpStaleRetry? { RequeueGoesBack(t, op, now, id); } else { ReleaseGoesBack(t, op, now, id); }
  }

  /** A heartbeat gives a new lease to exactly its worker's CLAIMED rows whose claim is no older than allowed. */
  lemma RenewsExactlyWhen(t: Tables, worker: WorkerId, until: Time, maxAge: int, now: Time, id: TaskId)
    requires id in t.tasks
    ensures var r, a := t.tasks[id], Apply(t, OpRenew(worker, until, maxAge), now);
      a.history == t.history && a.nodes == t.nodes && a.workflows == t.workflows && id in a.tasks
      && a.tasks[id] == if r.status == Claimed && r.claimedBy == Some(worker)
                           && r.claimedAt.Some? && now <= r.claimedAt.value + maxAge
                        then r.(claimExpiresAt := Some(until)) else r
  {}

  // ---- the end ----

  /** A workflow task of this row is still wanted by some node. */
  predicate Wanted(t: Tables, id: TaskId) {
    exists n :: n in t.nodes && Linked(t, n, id) && t.nodes[n].status !in {NodeCompleted, NodeFailed, NodeSkipped}
  }

  predicate PastDeadline(r: Row, now: Time) {
    r.goodUntil.Some? && r.goodUntil.value <= now
  }

  /** A sweep of these workflows finds the row: it is unlocked and a node of theirs in one of these statuses links to it. */
  predicate Swept(t: Tables, ws: set<WorkflowId>, statuses: set<NodeStatus>, locked: set<TaskId>, id: TaskId) {
    id in t.tasks && id !in locked
    && exists n :: n in t.nodes && Linked(t, n, id) && t.nodes[n].workflow in ws && t.nodes[n].status in statuses
  }

  /** The rows a transaction means to end; a batch ends all of them or none. */
  predicate Aimed(t: Tables, op: Op, now: Time, id: TaskId)
    requires id in t.tasks
  {
    var r := t.tasks[id];
    match op
    case OpCompleteFused(i, worker, gen) => i == id && HeldAs(r, Running, worker, gen)
    case OpCompleteLocked(i, worker, gen) => i == id && HeldAs(r, Running, worker, gen)
    case OpFailLocked(i, worker, gen) => i == id && HeldAs(r, Running, worker, gen)
    case OpFailStale(i, silent) => i == id && silent && r.status == Running && r.startedAt != None
    case OpExpireOwned(i, worker) => i == id && HeldAs(r, Claimed, worker, None) && PastDeadline(r, now)
    case OpExpirePending(batch) => id in batch && r.status == Pending && PastDeadline(r, now)
    case OpCancelLocked(i, permitted) => i == id && !r.isWorkflowTask && r.status in permitted
    case OpCancelOrphan(i, worker, gen) => i == id && HeldAs(r, Claimed, worker, gen) && r.isWorkflowTask && !Wanted(t, id)
    case OpStop(i, why, worker, gen) =>
      i == id && ((why != StopOther && HeldAs(r, Claimed, worker, gen)) || (why == StopCancelled && r.status == Pending))
    case OpAbandonBatch(claims, worker) => id in claims && HeldAs(r, Claimed, worker, claims[id])
    case OpCancelBatch(claims, worker) => id in claims && HeldAs(r, Claimed, worker, claims[id])
    case OpPause(ws, locked) =>
      (forall w :: w in ws ==> w in t.workflows && t.workflows[w] == WfRunning)
      && r.status == Claimed && Swept(t, ws, {NodeEnqueued, NodeRunning}, locked, id)
    case OpCancelWorkflow(w, locked) =>
      w in t.workflows && t.workflows[w] in {WfPending, WfRunning, WfPaused} && Swept(t, {w}, {NodeEnqueued}, locked, id)
    case _ => false
  }

  /** Under what name the row is found in the history afterwards. */
  function EndsAs(op: Op): MoveKind
    requires EndingOp(op)
  {
    match op
    case OpCompleteFused(_, _, _) => CompleteFused
    case OpCompleteLocked(_, _, _) => CompleteLocked
    case OpFailLocked(_, _, _) => FailRunning
    case OpFailStale(_, _) => FailStale
    case OpExpireOwned(_, _) => ExpireClaimed
    case OpExpirePending(_) => ExpirePending
    case OpCancelLocked(_, _) => CancelAdmin
    case OpCancelOrphan(_, _, _) => CancelOrphan
    case OpStop(_, why, _, _) => if why == StopPaused then PauseAbandonClaim else WorkflowCancelClaim
    case OpAbandonBatch(_, _) => PauseAbandonClaimBatch
    case OpCancelBatch(_, _) => WorkflowCancelClaimBatch
    case OpPause(_, _) => PauseAbandonWorkflow
    case OpCancelWorkflow(_, _) => WorkflowCancelWorkflow
  }

  /** Whether the move to the history lets this row through. */
  predicate Passes(t: Tables, op: Op, id: TaskId)
    requires EndingOp(op)
  {
    if op.OpCompleteFused? || op.OpCancelLocked? then id in t.tasks && id !in t.history && !t.tasks[id].isWorkflowTask
    else if op.OpCompleteLocked? || op.OpFailLocked? || op.OpFailStale? || op.OpExpireOwned? || op.OpExpirePending?
    then MayFinish(t, id) else MayMove(t, id)
  }

  /** The transaction ends the row: it aims at it, and lets through every row it aims at. */
  predicate EndedBy(t: Tables, op: Op, now: Time, id: TaskId)
    requires id in t.tasks
  {
    EndingOp(op) && Aimed(t, op, now, id) && forall x :: x in t.tasks && Aimed(t, op, now, x) ==> Passes(t, op, x)
  }

  lemma Terminalized(t: Tables, matched: bool, i: TaskId, kind: MoveKind, kinds: set<MoveKind>,
                     worker: Option<WorkerId>, gen: Option<Time>, id: TaskId)
    requires id in t.tasks
    ensures var a := Terminalize(t, matched, i, kind, kinds, worker, gen).0;
      (id !in a.tasks <==> id == i && matched && Movable(t, i, kind))
      && (id !in a.tasks ==> id in a.history && a.history[id] == kind)
  {}

  lemma OneCompletion(t: Tables, op: Op, now: Time, id: TaskId)
    requires (op.OpCompleteFused? || op.OpCompleteLocked?) && id in t.tasks
    ensures id !in Apply(t, op, now).tasks <==> EndedBy(t, op, now, id)
    ensures id !in Apply(t, op, now).tasks ==> id in Apply(t, op, now).history && Apply(t, op, now).history[id] == EndsAs(op)
  {
    MovableMeans(t, id, EndsAs(op));
    Terminalized(t, OwnsRun(t, op.id, op.worker, op.gen), op.id, EndsAs(op), {CompleteFused, CompleteLocked},
                 Some(op.worker), op.gen, id);
  }

  lemma OneFailure(t: Tables, op: Op, now: Time, id: TaskId)
    requires (op.OpFailLocked? || op.OpFailStale?) && id in t.tasks
    ensures id !in Apply(t, op, now).tasks <==> EndedBy(t, op, now, id)
    ensures id !in Apply(t, op, now).tasks ==> id in Apply(t, op, now).history && Apply(t, op, now).history[id] == EndsAs(op)
  {
    MovableMeans(t, id, EndsAs(op));
  }

  lemma WantedMeans(t: Tables, id: TaskId)
    ensures RunnableLink(t, id) <==> Wanted(t, id)
  {
    if n :| n in t.nodes && Linked(t, n, id) && t.nodes[n].status !in {NodeCompleted, NodeFailed, NodeSkipped} {
      assert n in Links(t, id);
      match t.nodes[n].status
      case NodePending => case NodeReady => case NodeEnqueued => case NodeRunning =>
    }
  }

  lemma OneOtherEnd(t: Tables, op: Op, now: Time, id: TaskId)
    requires (op.OpExpireOwned? || op.OpCancelLocked?) && id in t.tasks
    ensures id !in Apply(t, op, now).tasks <==> EndedBy(t, op, now, id)
    ensures id !in Apply(t, op, now).tasks ==> id in Apply(t, op, now).history && Apply(t, op, now).history[id] == EndsAs(op)
  {
    MovableMeans(t, id, EndsAs(op));
  }

  lemma OneOrphan(t: Tables, op: Op, now: Time, id: TaskId)
    requires op.OpCancelOrphan? && id in t.tasks
    ensures id !in Apply(t, op, now).tasks <==> EndedBy(t, op, now, id)
    ensures id !in Apply(t, op, now).tasks ==> id in Apply(t, op, now).history && Apply(t, op, now).history[id] == EndsAs(op)
  {
    MovableMeans(t, id, EndsAs(op));
    WantedMeans(t, id);
  }

  lemma StopMoves(t: Tables, i: TaskId, why: StopKind, worker: WorkerId, gen: Option<Time>, id: TaskId)
    requires id in t.tasks
    ensures var a, aims := StopBeforeStart(t, i, why, worker, gen).0,
        i in t.tasks && ((why != StopOther && HeldAs(t.tasks[i], Claimed, worker, gen))
                         || (why == StopCancelled && t.tasks[i].status == Pending));
      (id !in a.tasks <==> id == i && aims && MayMove(t, i))
      && (id !in a.tasks ==> id in a.history)
      && (id !in a.tasks ==> a.history[id] == if why == StopPaused then PauseAbandonClaim else WorkflowCancelClaim)
  {
    MovableMeans(t, i, PauseAbandonClaim);
    MovableMeans(t, i, WorkflowCancelClaim);
  }

  lemma OneStop(t: Tables, op: Op, now: Time, id: TaskId)
    requires op.OpStop? && id in t.tasks
    ensures id !in Apply(t, op, now).tasks <==> EndedBy(t, op, now, id)
    ensures id !in Apply(t, op, now).tasks ==> id in Apply(t, op, now).history && Apply(t, op, now).history[id] == EndsAs(op)
  {
    StopMoves(t, op.id, op.why, op.worker, op.gen, id);
  }

  lemma BatchMoves(t: Tables, ids: set<TaskId>, kind: MoveKind, op: Op, now: Time)
    requires EndingOp(op) && kind == EndsAs(op)
    requires forall x :: x in ids <==> x in t.tasks && Aimed(t, op, now, x)
    ensures MoveBatch(t, ids, kind).Some? <==> forall x :: x in t.tasks && Aimed(t, op, now, x) ==> Passes(t, op, x)
  {
    forall x ensures Movable(t, x, kind) <==> Passes(t, op, x) { MovableMeans(t, x, kind); }
  }

  lemma OwnedBatch(t: Tables, op: Op, now: Time, id: TaskId)
    requires (op.OpAbandonBatch? || op.OpCancelBatch?) && id in t.tasks
    ensures id !in Apply(t, op, now).tasks <==> EndedBy(t, op, now, id)
    ensures id !in Apply(t, op, now).tasks ==> id in Apply(t, op, now).history && Apply(t, op, now).history[id] == EndsAs(op)
  {
    BatchMoves(t, OwnedOf(t, op.claims, op.worker), EndsAs(op), op, now);
  }

  lemma ExpiryBatch(t: Tables, op: Op, now: Time, id: TaskId)
    requires op.OpExpirePending? && id in t.tasks
    ensures id !in Apply(t, op, now).tasks <==> EndedBy(t, op, now, id)
    ensures id !in Apply(t, op, now).tasks ==> id in Apply(t, op, now).history && Apply(t, op, now).history[id] == EndsAs(op)
  {
    var ids := set x | x in op.batch && ExpiredPending(t, x, now);
    BatchMoves(t, ids, ExpirePending, op, now);
  }

  lemma SweptMeans(t: Tables, ws: set<WorkflowId>, statuses: set<NodeStatus>, locked: set<TaskId>, id: TaskId)
    ensures id in Backing(t, ws, statuses, locked) <==> Swept(t, ws, statuses, locked, id)
  {
    if id in Backing(t, ws, statuses, locked) {
      var n :| n in Links(t, id) && t.nodes[n].workflow in ws && t.nodes[n].status in statuses;
      assert Linked(t, n, id);
    }
    if Swept(t, ws, statuses, locked, id) {
      var n :| n in t.nodes && Linked(t, n, id) && t.nodes[n].workflow in ws && t.nodes[n].status in statuses;
      assert n in Links(t, id);
    }
  }

  lemma PassesNoWorkflows(t: Tables, p: Tables, op: Op, id: TaskId)
    requires op.OpPause? || op.OpCancelWorkflow?
    requires p.tasks == t.tasks && p.nodes == t.nodes && p.history == t.history
    ensures Movable(p, id, EndsAs(op)) <==> Passes(t, op, id)
  {
    MovableMeans(p, id, EndsAs(op));
    assert OneWorkflow(p, id) <==> OneWorkflow(t, id) by {
      assert forall n :: Linked(p, n, id) <==> Linked(t, n, id);
    }
  }

  /** The rows a pause sweep takes are those it aims at, and it goes through when all of them may move. */
  lemma PauseAims(t: Tables, op: Op, now: Time, p: Tables, ids: set<TaskId>)
    requires op.OpPause? && forall w :: w in op.ws ==> w in t.workflows && t.workflows[w] == WfRunning
    requires p == t.(workflows := t.workflows + map w | w in op.ws :: WfPaused)
    requires ids == set x | x in Backing(p, op.ws, {NodeEnqueued, NodeRunning}, op.locked) && p.tasks[x].status == Claimed
    ensures forall x :: x in ids <==> x in t.tasks && Aimed(t, op, now, x)
    ensures forall x :: Movable(p, x, PauseAbandonWorkflow) <==> Passes(t, op, x)
  {
    forall x ensures x in ids <==> x in t.tasks && Aimed(t, op, now, x) {
      SweptMeans(p, op.ws, {NodeEnqueued, NodeRunning}, op.locked, x);
      SameSwept(t, p, op.ws, {NodeEnqueued, NodeRunning}, op.locked, x);
    }
    forall x ensures Movable(p, x, PauseAbandonWorkflow) <==> Passes(t, op, x) { PassesNoWorkflows(t, p, op, x); }
  }

  lemma PauseEnds(t: Tables, ws: set<WorkflowId>, locked: set<TaskId>, p: Tables, ids: set<TaskId>, id: TaskId)
    requires (forall w :: w in ws ==> w in t.workflows && t.workflows[w] == WfRunning) && id in t.tasks
    requires p == t.(workflows := t.workflows + map w | w in ws :: WfPaused)
    requires ids == set x | x in Backing(p, ws, {NodeEnqueued, NodeRunning}, locked) && p.tasks[x].status == Claimed
    ensures var a, goes := PauseWorkflows(t, ws, locked), forall x :: x in ids ==> Movable(p, x, PauseAbandonWorkflow);
      (id !in a.tasks <==> id in ids && goes) && (id !in a.tasks ==> id in a.history && a.history[id] == PauseAbandonWorkflow)
  {}

  lemma PauseEndsRow(t: Tables, op: Op, now: Time, p: Tables, ids: set<TaskId>, id: TaskId)
    requires op.OpPause? && (forall w :: w in op.ws ==> w in t.workflows && t.workflows[w] == WfRunning) && id in t.tasks
    requires p == t.(workflows := t.workflows + map w | w in op.ws :: WfPaused)
    requires ids == set x | x in Backing(p, op.ws, {NodeEnqueued, NodeRunning}, op.locked) && p.tasks[x].status == Claimed
    ensures EndedBy(t, op, now, id) <==> id in ids && forall x :: x in ids ==> Movable(p, x, PauseAbandonWorkflow)
  {
    PauseAims(t, op, now, p, ids);
  }

  lemma PauseSweep(t: Tables, op: Op, now: Time, id: TaskId)
    requires op.OpPause? && id in t.tasks
    ensures id !in Apply(t, op, now).tasks <==> EndedBy(t, op, now, id)
    ensures id !in Apply(t, op, now).tasks ==> id in Apply(t, op, now).history && Apply(t, op, now).history[id] == EndsAs(op)
  {
    if forall w :: w in op.ws ==> w in t.workflows && t.workflows[w] == WfRunning {
      var p := t.(workflows := t.workflows + map w | w in op.ws :: WfPaused);
      var ids := set x | x in Backing(p, op.ws, {NodeEnqueued, NodeRunning}, op.locked) && p.tasks[x].status == Claimed;
      PauseEndsRow(t, op, now, p, ids, id);
      PauseEnds(t, op.ws, op.locked, p, ids, id);
    }
  }

  lemma SameSwept(t: Tables, p: Tables, ws: set<WorkflowId>, statuses: set<NodeStatus>, locked: set<TaskId>, id: TaskId)
    requires p.tasks == t.tasks && p.nodes == t.nodes
    ensures Swept(p, ws, statuses, locked, id) <==> Swept(t, ws, statuses, locked, id)
  {
    assert forall n :: Linked(p, n, id) <==> Linked(t, n, id);
  }

  lemma CancelAims(t: Tables, op: Op, now: Time, p: Tables, ids: set<TaskId>)
    requires op.OpCancelWorkflow? && op.w in t.workflows && t.workflows[op.w] in {WfPending, WfRunning, WfPaused}
    requires p == t.(workflows := t.workflows[op.w := WfCancelled]) && ids == Backing(t, {op.w}, {NodeEnqueued}, op.locked)
    ensures forall x :: x in ids <==> x in t.tasks && Aimed(t, op, now, x)
    ensures forall x :: Movable(p, x, WorkflowCancelWorkflow) <==> Passes(t, op, x)
  {
    forall x ensures x in ids <==> x in t.tasks && Aimed(t, op, now, x) { SweptMeans(t, {op.w}, {NodeEnqueued}, op.locked, x); }
    forall x ensures Movable(p, x, WorkflowCancelWorkflow) <==> Passes(t, op, x) { PassesNoWorkflows(t, p, op, x); }
  }

  lemma CancelSweep(t: Tables, op: Op, now: Time, id: TaskId)
    requires op.OpCancelWorkflow? && id in t.tasks
    ensures id !in Apply(t, op, now).tasks <==> EndedBy(t, op, now, id)
    ensures id !in Apply(t, op, now).tasks ==> id in Apply(t, op, now).history && Apply(t, op, now).history[id] == EndsAs(op)
  {
    if op.w in t.workflows && t.workflows[op.w] in {WfPending, WfRunning, WfPaused} {
      CancelAims(t, op, now, t.(workflows := t.workflows[op.w := WfCancelled]), Backing(t, {op.w}, {NodeEnqueued}, op.locked));
    }
  }

  /**
   * A row leaves the live table exactly when a transaction that ends rows aims at it and every row it aims at can be
   * moved; it is then in the history under that transaction's name.
   */
  lemma EndsExactlyWhen(t: Tables, op: Op, now: Time, id: TaskId)
    requires id in t.tasks
    ensures id !in Apply(t, op, now).tasks <==> EndedBy(t, op, now, id)
    ensures id !in Apply(t, op, now).tasks ==> id in Apply(t, op, now).history && Apply(t, op, now).history[id] == EndsAs(op)
  {
    if !EndingOp(op) {
      StaysLive(t, op, now, id);
    } else if op.OpCompleteFused? || op.OpCompleteLocked? {
      OneCompletion(t, op, now, id);
    } else if op.OpFailLocked? || op.OpFailStale? {
      OneFailure(t, op, now, id);
    } else if op.OpStop? {
      OneStop(t, op, now, id);
    } else if op.OpCancelOrphan? {
      OneOrphan(t, op, now, id);
    } else if OtherSingleEnd(op) {
      OneOtherEnd(t, op, now, id);
    } else if op.OpExpirePending? {
      ExpiryBatch(t, op, now, id);
    } else if op.OpPause? {
      PauseSweep(t, op, now, id);
    } else if op.OpCancelWorkflow? {
      CancelSweep(t, op, now, id);
    } else {
      OwnedBatch(t, op, now, id);
    }
  }

  lemma StaysLive(t: Tables, op: Op, now: Time, id: TaskId)
    requires !EndingOp(op) && id in t.tasks
    ensures id in Apply(t, op, now).tasks
  {}

  // ---- what a terminalization answers ----

  /**
   * A matched row is Applied or, when it may not move, Raised. A miss is TaskAbsent for an unknown id, AlreadyApplied
   * when the history has it under one of these names, LostClaim for a live row of another worker or generation.
   */
  predicate Tells(o: Outcome, t: Tables, id: TaskId, matched: bool, mayMove: bool, names: set<MoveKind>,
                  worker: Option<WorkerId>, gen: Option<Time>) {
    (o == Applied <==> matched && mayMove)
    && (o == Raised <==> matched && !mayMove)
    && (o == TaskAbsent <==> !matched && id !in t.tasks && id !in t.history)
    && (o == AlreadyApplied <==> !matched && id !in t.tasks && id in t.history && t.history[id] in names)
    && (o == LostClaim <==> !matched && id in t.tasks && worker != None
                            && (t.tasks[id].claimedBy != worker || (gen != None && t.tasks[id].claimedAt != gen)))
  }

  /** The answers of the finalizations of a running task. */
  lemma FinishesAnswerExactly(t: Tables, id: TaskId, worker: WorkerId, gen: Option<Time>, silent: bool)
    ensures var ours := id in t.tasks && HeldAs(t.tasks[id], Running, worker, gen);
      var plain := id in t.tasks && id !in t.history && !t.tasks[id].isWorkflowTask;
      Tells(CompleteTaskFused(t, id, worker, gen).1, t, id, ours, plain, {CompleteFused, CompleteLocked}, Some(worker), gen)
      && Tells(CompleteLockedTask(t, id, worker, gen).1, t, id, ours, MayFinish(t, id), {CompleteFused, CompleteLocked}, Some(worker), gen)
      && Tells(FailLockedTask(t, id, worker, gen).1, t, id, ours, MayFinish(t, id), {FailRunning}, Some(worker), gen)
    ensures var stale := id in t.tasks && t.tasks[id].status == Running && t.tasks[id].startedAt != None && silent;
      Tells(FailStaleTask(t, id, silent).1, t, id, stale, MayFinish(t, id), {FailStale}, None, None)
  {
    MovableMeans(t, id, CompleteFused);
    MovableMeans(t, id, CompleteLocked);
    MovableMeans(t, id, FailRunning);
    MovableMeans(t, id, FailStale);
  }

  /** The answers of an expiry, of an administrative cancel and of an orphan's cancel. */
  lemma CancelsAnswerExactly(t: Tables, id: TaskId, worker: WorkerId, gen: Option<Time>, permitted: set<TaskStatus>, now: Time)
    ensures var late := id in t.tasks && HeldAs(t.tasks[id], Claimed, worker, None) && PastDeadline(t.tasks[id], now);
      Tells(ExpireOwnedClaim(t, id, worker, now).1, t, id, late, MayFinish(t, id), {ExpireClaimed, ExpirePending}, Some(worker), None)
    ensures var free := id in t.tasks && !t.tasks[id].isWorkflowTask && t.tasks[id].status in permitted;
      Tells(CancelLockedTask(t, id, permitted).1, t, id, free, id !in t.history, {CancelAdmin}, None, None)
    ensures var orphan := id in t.tasks && HeldAs(t.tasks[id], Claimed, worker, gen) && t.tasks[id].isWorkflowTask && !Wanted(t, id);
      Tells(CancelOwnedOrphan(t, id, worker, gen).1, t, id, orphan, MayMove(t, id), {CancelOrphan}, Some(worker), gen)
  {
    MovableMeans(t, id, ExpireClaimed);
    MovableMeans(t, id, CancelAdmin);
    MovableMeans(t, id, CancelOrphan);
    WantedMeans(t, id);
  }

  /** The answers of a stop before the start. */
  lemma StopsAnswerExactly(t: Tables, id: TaskId, worker: WorkerId, gen: Option<Time>)
    ensures var ours := id in t.tasks && HeldAs(t.tasks[id], Claimed, worker, gen);
      var waiting := id in t.tasks && t.tasks[id].status == Pending;
      Tells(StopBeforeStart(t, id, StopPaused, worker, gen).1, t, id, ours, MayMove(t, id),
            {PauseAbandonClaim, PauseAbandonClaimBatch, PauseAbandonWorkflow}, Some(worker), gen)
      && Tells(StopBeforeStart(t, id, StopCancelled, worker, gen).1, t, id, ours || waiting, MayMove(t, id),
               {WorkflowCancelClaim, WorkflowCancelClaimBatch, WorkflowCancelWorkflow}, Some(worker), gen)
      && StopBeforeStart(t, id, StopOther, worker, gen) == (t, SourceStateConflict)
  {
    MovableMeans(t, id, PauseAbandonClaim);
    MovableMeans(t, id, WorkflowCancelClaim);
  }

  // ---- what a stop leaves on the nodes ----

  /** The task of the node's link is ended by this step. */
  predicate TaskEnds(t: Tables, op: Op, now: Time, n: NodeId)
    requires n in t.nodes
  {
    t.nodes[n].taskId.Some? && t.nodes[n].taskId.value in t.tasks && EndedBy(t, op, now, t.nodes[n].taskId.value)
  }

  /**
   * After either batch of the filter each node is as before, unless the batch ended the task it links to: then an
   * abandon has made it READY and unlinked, and a cancel has made it SKIPPED if it was not yet past ENQUEUED.
   */
  lemma BatchStopLeaves(t: Tables, op: Op, now: Time, n: NodeId)
    requires (op.OpAbandonBatch? || op.OpCancelBatch?) && n in t.nodes
    ensures n in Apply(t, op, now).nodes
    ensures Apply(t, op, now).nodes[n] ==
      if !TaskEnds(t, op, now, n) then t.nodes[n]
      else if op.OpAbandonBatch? then Node(t.nodes[n].workflow, NodeReady, None)
      else match t.nodes[n].status
        case NodePending => Node(t.nodes[n].workflow, NodeSkipped, t.nodes[n].taskId)
        case NodeReady => Node(t.nodes[n].workflow, NodeSkipped, t.nodes[n].taskId)
        case NodeEnqueued => Node(t.nodes[n].workflow, NodeSkipped, t.nodes[n].taskId)
        case _ => t.nodes[n]
  {
    var owned := OwnedOf(t, op.claims, op.worker);
    BatchMoves(t, owned, EndsAs(op), op, now);
    if t.nodes[n].taskId.Some? && t.nodes[n].taskId.value in t.tasks { OwnedBatch(t, op, now, t.nodes[n].taskId.value); }
  }

  /** A paused stop makes the task's own nodes READY and unlinked when the move has been made, now or before. */
  lemma PausedStopLeaves(t: Tables, id: TaskId, worker: WorkerId, gen: Option<Time>, n: NodeId)
    requires n in t.nodes
    ensures var (a, o) := StopBeforeStart(t, id, StopPaused, worker, gen);
      n in a.nodes && a.workflows == t.workflows
      && a.nodes[n] == if Linked(t, n, id) && (o == Applied || o == AlreadyApplied)
                       then Node(t.nodes[n].workflow, NodeReady, None) else t.nodes[n]
  {}

  /** A cancelled stop skips the task's own nodes that are not past ENQUEUED, under the same condition. */
  lemma CancelledStopLeaves(t: Tables, id: TaskId, worker: WorkerId, gen: Option<Time>, n: NodeId)
    requires n in t.nodes
    ensures var (a, o) := StopBeforeStart(t, id, StopCancelled, worker, gen);
      n in a.nodes && a.workflows == t.workflows
      && a.nodes[n] == if Linked(t, n, id) && (o == Applied || o == AlreadyApplied)
                          && t.nodes[n].status in {NodePending, NodeReady, NodeEnqueued}
                       then Node(t.nodes[n].workflow, NodeSkipped, t.nodes[n].taskId) else t.nodes[n]
  {}

  /** Every row the step aims at may be moved. */
  predicate Unhindered(t: Tables, op: Op, now: Time)
    requires EndingOp(op)
  {
    forall x :: x in t.tasks && Aimed(t, op, now, x) ==> Passes(t, op, x)
  }

  lemma PauseGoes(t: Tables, ws: set<WorkflowId>, locked: set<TaskId>, p: Tables, ids: set<TaskId>, n: NodeId)
    requires (forall w :: w in ws ==> w in t.workflows && t.workflows[w] == WfRunning) && n in t.nodes
    requires p == t.(workflows := t.workflows + map w | w in ws :: WfPaused)
    requires ids == set x | x in Backing(p, ws, {NodeEnqueued, NodeRunning}, locked) && p.tasks[x].status == Claimed
    ensures var a, goes := PauseWorkflows(t, ws, locked), forall x :: x in ids ==> Movable(p, x, PauseAbandonWorkflow);
      (!goes ==> a == t) && (goes ==> a.workflows == p.workflows) && n in a.nodes
      && (goes ==> a.nodes[n] == if t.nodes[n].taskId.Some? && t.nodes[n].taskId.value in ids
                                    && t.nodes[n].status in {NodeEnqueued, NodeRunning}
                                 then Node(t.nodes[n].workflow, NodeReady, None) else t.nodes[n])
  {}

  lemma PauseEndsTask(t: Tables, op: Op, now: Time, p: Tables, ids: set<TaskId>, n: NodeId)
    requires op.OpPause? && (forall w :: w in op.ws ==> w in t.workflows && t.workflows[w] == WfRunning) && n in t.nodes
    requires p == t.(workflows := t.workflows + map w | w in op.ws :: WfPaused)
    requires ids == set x | x in Backing(p, op.ws, {NodeEnqueued, NodeRunning}, op.locked) && p.tasks[x].status == Claimed
    ensures Unhindered(t, op, now) <==> forall x :: x in ids ==> Movable(p, x, PauseAbandonWorkflow)
    ensures Unhindered(t, op, now) ==>
      (TaskEnds(t, op, now, n) <==> t.nodes[n].taskId.Some? && t.nodes[n].taskId.value in ids)
  {
    PauseAims(t, op, now, p, ids);
  }

  /**
   * A pause of RUNNING workflows that nothing hinders marks them PAUSED and takes back exactly the active nodes whose
   * task it ended; any other pause changes nothing.
   */
  lemma PauseLeaves(t: Tables, op: Op, now: Time, n: NodeId, w: WorkflowId)
    requires op.OpPause? && n in t.nodes && w in t.workflows
    ensures var a := Apply(t, op, now);
      var goes := (forall v :: v in op.ws ==> v in t.workflows && t.workflows[v] == WfRunning) && Unhindered(t, op, now);
      n in a.nodes && w in a.workflows
      && (!goes ==> a == t)
      && (goes ==> a.workflows[w] == if w in op.ws then WfPaused else t.workflows[w])
      && (goes ==> a.nodes[n] == if TaskEnds(t, op, now, n) && t.nodes[n].status in {NodeEnqueued, NodeRunning}
                                 then Node(t.nodes[n].workflow, NodeReady, None) else t.nodes[n])
  {
    if forall v :: v in op.ws ==> v in t.workflows && t.workflows[v] == WfRunning {
      var p := t.(workflows := t.workflows + map v | v in op.ws :: WfPaused);
      var ids := set x | x in Backing(p, op.ws, {NodeEnqueued, NodeRunning}, op.locked) && p.tasks[x].status == Claimed;
      PauseEndsTask(t, op, now, p, ids, n);
      PauseGoes(t, op.ws, op.locked, p, ids, n);
    }
  }

  /**
   * A cancel of a live workflow that nothing hinders marks it CANCELLED and skips its PENDING and READY nodes and the
   * ENQUEUED ones whose task it ended; any other cancel changes nothing.
   */
  lemma CancelLeaves(t: Tables, op: Op, now: Time, n: NodeId, w: WorkflowId)
    requires op.OpCancelWorkflow? && n in t.nodes && w in t.workflows
    ensures var a := Apply(t, op, now);
      var goes := op.w in t.workflows && t.workflows[op.w] in {WfPending, WfRunning, WfPaused} && Unhindered(t, op, now);
      n in a.nodes && w in a.workflows
      && (!goes ==> a == t)
      && (goes ==> a.workflows[w] == if w == op.w then WfCancelled else t.workflows[w])
      && (goes ==> a.nodes[n] == if t.nodes[n].workflow == op.w
                                    && (t.nodes[n].status in {NodePending, NodeReady}
                                        || (t.nodes[n].status == NodeEnqueued && TaskEnds(t, op, now, n)))
                                 then Node(op.w, NodeSkipped, t.nodes[n].taskId) else t.nodes[n])
  {
    if op.w in t.workflows && t.workflows[op.w] in {WfPending, WfRunning, WfPaused} {
      CancelAims(t, op, now, t.(workflows := t.workflows[op.w := WfCancelled]), Backing(t, {op.w}, {NodeEnqueued}, op.locked));
    }
  }

  // ---- the nodes' own steps ----

  /** A resume takes a PAUSED workflow back to RUNNING and touches nothing else; in any other status it does nothing. */
  lemma ResumeIsExact(t: Tables, w: WorkflowId, now: Time)
    ensures Apply(t, OpResume(w), now) ==
      if w in t.workflows && t.workflows[w] == WfPaused
      then Tables(t.tasks, t.history, t.nodes, t.workflows[w := WfRunning], t.backs) else t
  {}

  /**
   * A node's task is inserted exactly for a READY node of a RUNNING workflow under an unused id: claimable at once
   * until its deadline, and linked from the node, which is then ENQUEUED. Otherwise nothing changes.
   */
  lemma EnqueueNodeIsExact(t: Tables, n: NodeId, id: TaskId, q: Queue, priority: int, goodUntil: Option<Time>, now: Time, later: Time)
    requires now <= later
    ensures var a := Apply(t, OpEnqueueNode(n, id, q, priority, goodUntil), now);
      var goes := id !in t.tasks && n in t.nodes && t.nodes[n].status == NodeReady
        && t.nodes[n].workflow in t.workflows && t.workflows[t.nodes[n].workflow] == WfRunning;
      (!goes ==> a == t)
      && (goes ==> a.history == t.history && a.workflows == t.workflows && a.tasks.Keys == t.tasks.Keys + {id})
      && (goes ==> a.nodes == t.nodes[n := Node(t.nodes[n].workflow, NodeEnqueued, Some(id))] && a.backs == t.backs[id := n])
      && (goes ==> a.tasks[id].queue == q && a.tasks[id].priority == priority && a.tasks[id].isWorkflowTask)
      && (goes ==> a.tasks[id].retryCount == 0 && (Claimable(a.tasks[id], later) <==> goodUntil == None || later < goodUntil.value))
      && (goes ==> forall x :: x in t.tasks ==> a.tasks[x] == t.tasks[x])
  {}

  /** The handoff takes exactly the task's own nodes that are not past ENQUEUED to RUNNING and changes no table besides. */
  lemma HandoffIsExact(t: Tables, id: TaskId, now: Time, n: NodeId)
    requires n in t.nodes
    ensures var a, b := Apply(t, OpHandoff(id), now), t.nodes[n];
      a.tasks == t.tasks && a.history == t.history && a.workflows == t.workflows && n in a.nodes
      && a.nodes[n] == if Linked(t, n, id) && b.status in {NodePending, NodeReady, NodeEnqueued}
                       then Node(b.workflow, NodeRunning, b.taskId) else b
  {}

  /** Only a PENDING node becomes ready. */
  lemma ReadyIsExact(t: Tables, m: NodeId, now: Time, n: NodeId)
    requires n in t.nodes
    ensures var a, b := Apply(t, OpNodeReady(m), now), t.nodes[n];
      a.tasks == t.tasks && a.history == t.history && a.workflows == t.workflows && n in a.nodes
      && a.nodes[n] == if n == m && b.status == NodePending then Node(b.workflow, NodeReady, b.taskId) else b
  {}

  /** A node finishes once, and not while its task is live. */
  lemma FinishIsExact(t: Tables, m: NodeId, ok: bool, now: Time, n: NodeId)
    requires n in t.nodes
    ensures var a, b := Apply(t, OpNodeFinish(m, ok), now), t.nodes[n];
      a.tasks == t.tasks && a.history == t.history && a.workflows == t.workflows && n in a.nodes
      && a.nodes[n] == if n == m && b.status !in {NodeCompleted, NodeFailed, NodeSkipped}
                          && (b.taskId == None || b.taskId.value !in t.tasks)
                       then Node(b.workflow, if ok then NodeCompleted else NodeFailed, b.taskId) else b
  {}
}
