/** Workflow nodes and the tasks that back them: one live task per node, stops that commit together. */
module WorkflowStops {
  import opened Prelude
  import opened TaskTables
  import opened ClaimPass
  import opened TaskSteps
  import ScanOrder

  /** A live workflow task is the one its node links to, and that node is ENQUEUED or RUNNING. */
  ghost predicate LiveTasksLinked(t: Tables) {
    forall id :: id in t.tasks && t.tasks[id].isWorkflowTask ==>
      && id in t.backs && t.backs[id] in t.nodes
      && t.nodes[t.backs[id]].taskId == Some(id)
      && t.nodes[t.backs[id]].status in {NodeEnqueued, NodeRunning}
  }

  ghost predicate LinksAreOwn(t: Tables) {
    forall n :: n in t.nodes ==>
      && (t.nodes[n].status in {NodePending, NodeReady} ==> t.nodes[n].taskId.None?)
      && (t.nodes[n].taskId.Some? ==> t.nodes[n].taskId.value in t.backs && t.backs[t.nodes[n].taskId.value] == n)
  }

  /** A task ended by a pause is linked from no node; one ended by a cancel from no node a stop could still skip. */
  ghost predicate StopsSettled(t: Tables) {
    forall n :: n in t.nodes && t.nodes[n].taskId.Some? && t.nodes[n].taskId.value in t.history ==>
      && t.history[t.nodes[n].taskId.value] !in PAUSE_KINDS
      && (t.history[t.nodes[n].taskId.value] in CANCEL_KINDS ==> t.nodes[n].status !in SKIPPABLE)
  }

  ghost predicate Coupled(t: Tables) {
    LiveTasksLinked(t) && LinksAreOwn(t) && StopsSettled(t)
  }

  /** Node tasks are created under freshly minted ids. */
  predicate FreshId(t: Tables, op: Op) {
    op.OpEnqueueNode? ==> op.id !in t.history && op.id !in t.backs
  }

  /** No new workflow task, same nodes and links, and no task newly ended by a stop. */
  ghost predicate NodesKept(t: Tables, u: Tables) {
    && u.nodes == t.nodes && u.backs == t.backs
    && (forall id :: id in u.tasks && u.tasks[id].isWorkflowTask ==> id in t.tasks && t.tasks[id].isWorkflowTask)
    && (forall id :: NotByStop(t, u, id))
  }

  lemma KeptStaysCoupled(t: Tables, u: Tables)
    requires Coupled(t) && NodesKept(t, u)
    ensures Coupled(u)
  {
    forall n | n in u.nodes && u.nodes[n].taskId.Some? && u.nodes[n].taskId.value in u.history
      ensures u.history[u.nodes[n].taskId.value] !in PAUSE_KINDS
      ensures u.history[u.nodes[n].taskId.value] in CANCEL_KINDS ==> u.nodes[n].status !in SKIPPABLE
    {
      assert NotByStop(t, u, u.nodes[n].taskId.value);
    }
  }

  predicate NodeOp(op: Op) {
    op.OpStop? || op.OpAbandonBatch? || op.OpCancelBatch? || op.OpPause? || op.OpCancelWorkflow?
    || op.OpEnqueueNode? || op.OpHandoff? || op.OpNodeReady? || op.OpNodeFinish?
  }

  lemma EndingKeepsNodes(t: Tables, op: Op, now: Time)
    requires !NodeOp(op) && EndingOp(op)
    ensures Apply(t, op, now).nodes == t.nodes && Apply(t, op, now).backs == t.backs
  {}

  lemma LivingKeepsNodes(t: Tables, op: Op, now: Time)
    requires !NodeOp(op) && !EndingOp(op)
    ensures Apply(t, op, now).nodes == t.nodes && Apply(t, op, now).backs == t.backs
  {}

  lemma NodesUntouched(t: Tables, op: Op, now: Time)
    requires !NodeOp(op)
    ensures Apply(t, op, now).nodes == t.nodes && Apply(t, op, now).backs == t.backs
  {
    if EndingOp(op) { EndingKeepsNodes(t, op, now); } else { LivingKeepsNodes(t, op, now); }
  }

  lemma NoNewWorkflowTask(t: Tables, op: Op, now: Time, id: TaskId)
    requires !NodeOp(op)
    ensures id in Apply(t, op, now).tasks && Apply(t, op, now).tasks[id].isWorkflowTask
            ==> id in t.tasks && t.tasks[id].isWorkflowTask
  {}

  lemma LiveOpKeepsHistory(t: Tables, op: Op, now: Time)
    requires !EndingOp(op)
    ensures Apply(t, op, now).history == t.history
  {}

  /** A task newly in the history was not put there by a stop. */
  predicate NotByStop(t: Tables, u: Tables, id: TaskId) {
    id in u.history ==>
      (id in t.history && t.history[id] == u.history[id]) || u.history[id] !in PAUSE_KINDS + CANCEL_KINDS
  }

  lemma TerminalizeRecords(t: Tables, matched: bool, id: TaskId, kind: MoveKind, kinds: set<MoveKind>,
                           worker: Option<WorkerId>, gen: Option<Time>, x: TaskId)
    requires kind !in PAUSE_KINDS + CANCEL_KINDS
    ensures NotByStop(t, Terminalize(t, matched, id, kind, kinds, worker, gen).0, x)
  {}

  lemma FinishRecordsNoStop(t: Tables, op: Op, now: Time, id: TaskId)
    requires FinishOp(op)
    ensures NotByStop(t, Apply(t, op, now), id)
  {
    match op
    case OpCompleteFused(i, w, g) => TerminalizeRecords(t, OwnsRun(t, i, w, g), i, CompleteFused, {CompleteFused, CompleteLocked}, Some(w), g, id);
    case OpCompleteLocked(i, w, g) => TerminalizeRecords(t, OwnsRun(t, i, w, g), i, CompleteLocked, {CompleteFused, CompleteLocked}, Some(w), g, id);
    case OpFailLocked(i, w, g) => TerminalizeRecords(t, OwnsRun(t, i, w, g), i, FailRunning, {FailRunning}, Some(w), g, id);
    case _ =>
  }

  lemma OtherEndRecordsNoStop(t: Tables, op: Op, now: Time, id: TaskId)
    requires op.OpExpireOwned? || op.OpCancelLocked? || op.OpCancelOrphan?
    ensures NotByStop(t, Apply(t, op, now), id)
  {}

  lemma ExpiryRecordsNoStop(t: Tables, batch: set<TaskId>, now: Time, id: TaskId)
    ensures NotByStop(t, ExpirePendingTasks(t, batch, now), id)
  {}

  lemma NoStopRecorded(t: Tables, op: Op, now: Time, id: TaskId)
    requires !NodeOp(op)
    ensures NotByStop(t, Apply(t, op, now), id)
  {
    if !EndingOp(op) {
      LiveOpKeepsHistory(t, op, now);
    } else if FinishOp(op) {
      FinishRecordsNoStop(t, op, now, id);
    } else if op.OpExpirePending? {
      ExpiryRecordsNoStop(t, op.batch, now, id);
    } else {
      OtherEndRecordsNoStop(t, op, now, id);
    }
  }

  lemma TaskOpKeepsNodes(t: Tables, op: Op, now: Time, u: Tables)
    requires !NodeOp(op) && u == Apply(t, op, now)
    ensures NodesKept(t, u)
  {
    NodesUntouched(t, op, now);
    forall id ensures id in u.tasks && u.tasks[id].isWorkflowTask ==> id in t.tasks && t.tasks[id].isWorkflowTask {
      NoNewWorkflowTask(t, op, now, id);
    }
    forall id ensures NotByStop(t, u, id) { NoStopRecorded(t, op, now, id); }
  }

  lemma SettledByReset(t: Tables, ids: set<TaskId>, kind: MoveKind)
    requires Coupled(t) && kind in PAUSE_KINDS
    requires forall id :: id in ids ==> Movable(t, id, kind)
    ensures Coupled(ResetNodes(Move(t, ids, kind), ids))
  {}

  lemma SettledBySkip(t: Tables, ids: set<TaskId>, kind: MoveKind)
    requires Coupled(t) && kind in CANCEL_KINDS
    requires forall id :: id in ids ==> Movable(t, id, kind)
    ensures Coupled(SkipNodes(Move(t, ids, kind), ids))
  {}

  lemma NothingToReset(t: Tables, id: TaskId)
    requires Coupled(t) && id in t.history
    ensures t.history[id] in PAUSE_KINDS ==> ResetNodes(t, {id}) == t
    ensures t.history[id] in CANCEL_KINDS ==> SkipNodes(t, {id}) == t
  {
    if t.history[id] in PAUSE_KINDS { assert ResetNodes(t, {id}).nodes == t.nodes; }
    if t.history[id] in CANCEL_KINDS { assert SkipNodes(t, {id}).nodes == t.nodes; }
  }

  /** A stop for a task that is no longer live changes nothing at all. */
  lemma StopForDeadTaskIsNoOp(t: Tables, id: TaskId, why: StopKind, worker: WorkerId, gen: Option<Time>)
    requires Coupled(t) && id !in t.tasks
    ensures StopBeforeStart(t, id, why, worker, gen).0 == t
    ensures StopBeforeStart(t, id, why, worker, gen).1 != Applied
  {
    if id in t.history { NothingToReset(t, id); }
  }

  lemma StopKeepsCoupled(t: Tables, id: TaskId, why: StopKind, worker: WorkerId, gen: Option<Time>)
    requires Coupled(t)
    ensures Coupled(StopBeforeStart(t, id, why, worker, gen).0)
  {
    if id !in t.tasks {
      StopForDeadTaskIsNoOp(t, id, why, worker, gen);
    } else if why == StopPaused && AbandonOwnedNode(t, id, worker, gen).1 == Applied {
      SettledByReset(t, {id}, PauseAbandonClaim);
    } else if why == StopCancelled && CancelOwnedNode(t, id, worker, gen, true).1 == Applied {
      SettledBySkip(t, {id}, WorkflowCancelClaim);
    }
  }

  /** In a coupled state a pause sweep resets every node that links to a task it abandoned. */
  lemma PauseKeepsCoupled(t: Tables, ws: set<WorkflowId>, locked: set<TaskId>)
    requires Coupled(t)
    ensures Coupled(PauseWorkflows(t, ws, locked))
  {
    var p := t.(workflows := t.workflows + map w | w in ws :: WfPaused);
    var ids := set id | id in Backing(p, ws, {NodeEnqueued, NodeRunning}, locked) && p.tasks[id].status == Claimed;
    if PauseWorkflows(t, ws, locked) != t {
      PausedNodesActive(p, ws, locked);
      SettledByReset(p, ids, PauseAbandonWorkflow);
      SweepIsReset(p, ids);
    }
  }

  lemma PausedNodesActive(p: Tables, ws: set<WorkflowId>, locked: set<TaskId>)
    requires Coupled(p)
    ensures forall id, n :: id in Backing(p, ws, {NodeEnqueued, NodeRunning}, locked) && n in p.nodes ==>
              p.nodes[n].taskId == Some(id) ==> p.nodes[n].status in {NodeEnqueued, NodeRunning}
  {
    forall id, n | id in Backing(p, ws, {NodeEnqueued, NodeRunning}, locked) && n in p.nodes && p.nodes[n].taskId == Some(id)
      ensures p.nodes[n].status in {NodeEnqueued, NodeRunning}
    {
      var k :| k in Links(p, id) && p.nodes[k].status in {NodeEnqueued, NodeRunning};
      assert k == p.backs[id] == n;
    }
  }

  lemma SweepIsReset(p: Tables, ids: set<TaskId>)
    requires forall id, n :: id in ids && n in p.nodes && p.nodes[n].taskId == Some(id) ==>
               p.nodes[n].status in {NodeEnqueued, NodeRunning}
    ensures ResetNodes(p, ids).nodes == map n | n in p.nodes ::
      if p.nodes[n].taskId.Some? && p.nodes[n].taskId.value in ids && p.nodes[n].status in {NodeEnqueued, NodeRunning}
      then p.nodes[n].(status := NodeReady, taskId := None) else p.nodes[n]
  {}

  lemma CancelKeepsCoupled(t: Tables, w: WorkflowId, locked: set<TaskId>)
    requires Coupled(t)
    ensures Coupled(CancelWorkflow(t, w, locked))
  {
    var ids := Backing(t, {w}, {NodeEnqueued}, locked);
    forall id, n | id in ids && n in t.nodes && t.nodes[n].taskId == Some(id)
      ensures t.nodes[n].status == NodeEnqueued && t.nodes[n].workflow == w
    {
      var k :| k in Links(t, id) && t.nodes[k].status == NodeEnqueued && t.nodes[k].workflow == w;
    }
  }

  lemma NodeWriteKeepsCoupled(t: Tables, op: Op, now: Time)
    requires Coupled(t) && FreshId(t, op)
    requires op.OpEnqueueNode? || op.OpHandoff? || op.OpNodeReady? || op.OpNodeFinish?
    ensures Coupled(Apply(t, op, now))
  {
    if op.OpEnqueueNode? {
      EnqueueNodeCoupled(t, op.n, op.id, op.q, op.priority, op.goodUntil, now);
    } else if op.OpHandoff? {
      HandoffCoupled(t, op.id);
    } else if op.OpNodeReady? {
      ReadyCoupled(t, op.n);
    } else {
      FinishCoupled(t, op.n, op.ok);
    }
  }

  lemma ReadyCoupled(t: Tables, n: NodeId)
    requires Coupled(t)
    ensures Coupled(NodeBecomesReady(t, n))
  {}

  lemma FinishCoupled(t: Tables, n: NodeId, ok: bool)
    requires Coupled(t)
    ensures Coupled(NodeFinishes(t, n, ok))
  {}

  lemma EnqueueNodeCoupled(t: Tables, n: NodeId, id: TaskId, q: Queue, priority: int, goodUntil: Option<Time>, now: Time)
    requires Coupled(t) && id !in t.history && id !in t.backs
    ensures Coupled(EnqueueNode(t, n, id, q, priority, goodUntil, now))
  {}

  lemma HandoffCoupled(t: Tables, id: TaskId)
    requires Coupled(t)
    ensures Coupled(NodeHandoff(t, id))
  {}

  lemma AbandonKeepsCoupled(t: Tables, claims: map<TaskId, Option<Time>>, worker: WorkerId)
    requires Coupled(t)
    ensures Coupled(AbandonOwnedNodes(t, claims, worker)) && Coupled(CancelOwnedNodes(t, claims, worker))
  {
    var owned := OwnedOf(t, claims, worker);
    if MoveBatch(t, owned, PauseAbandonClaimBatch).Some? { SettledByReset(t, owned, PauseAbandonClaimBatch); }
    if MoveBatch(t, owned, WorkflowCancelClaimBatch).Some? { SettledBySkip(t, owned, WorkflowCancelClaimBatch); }
  }

  /** The batches and the sweeps, each through the lemma on its own step. */
  lemma BatchOpKeepsCoupled(t: Tables, op: Op, now: Time)
    requires Coupled(t) && (op.OpAbandonBatch? || op.OpCancelBatch?)
    ensures Coupled(Apply(t, op, now))
  {
    AbandonKeepsCoupled(t, op.claims, op.worker);
  }

  lemma SweepOpKeepsCoupled(t: Tables, op: Op, now: Time)
    requires Coupled(t) && (op.OpPause? || op.OpCancelWorkflow?)
    ensures Coupled(Apply(t, op, now))
  {
    if op.OpPause? { PauseKeepsCoupled(t, op.ws, op.locked); } else { CancelKeepsCoupled(t, op.w, op.locked); }
  }

  lemma StopOpKeepsCoupled(t: Tables, op: Op, now: Time)
    requires Coupled(t) && op.OpStop?
    ensures Coupled(Apply(t, op, now))
  {
    StopKeepsCoupled(t, op.id, op.why, op.worker, op.gen);
  }

  lemma CoupledStep(t: Tables, op: Op, now: Time)
    requires Coupled(t) && FreshId(t, op)
    ensures Coupled(Apply(t, op, now))
  {
    if !NodeOp(op) {
      var u := Apply(t, op, now);
      TaskOpKeepsNodes(t, op, now, u);
      KeptStaysCoupled(t, u);
    } else if op.OpEnqueueNode? || op.OpHandoff? || op.OpNodeReady? || op.OpNodeFinish? {
      NodeWriteKeepsCoupled(t, op, now);
    } else if op.OpStop? {
      StopOpKeepsCoupled(t, op, now);
    } else if op.OpAbandonBatch? || op.OpCancelBatch? {
      BatchOpKeepsCoupled(t, op, now);
    } else {
      SweepOpKeepsCoupled(t, op, now);
    }
  }

  ghost predicate FreshIds(t: Tables, es: seq<Event>) {
    forall k :: 0 <= k < |es| ==> FreshId(Run(t, es[..k]), es[k].op)
  }

  /** Coupling holds in every reachable state. */
  lemma {:induction false} CoupledRun(t: Tables, es: seq<Event>)
    requires Coupled(t) && FreshIds(t, es)
    ensures Coupled(Run(t, es))
    decreases |es|
  {
    if es != [] {
      var init := es[..|es| - 1];
      assert forall k :: 0 <= k < |init| ==> init[..k] == es[..k] && init[k] == es[k];
      CoupledRun(t, init);
      assert FreshId(Run(t, init), es[|es| - 1].op);
      CoupledStep(Run(t, init), es[|es| - 1].op, es[|es| - 1].now);
    }
  }

  /** No workflow node ever has two live tasks, counting every task ever created for it. */
  lemma OneLiveTaskPerNode(t: Tables, es: seq<Event>, a: TaskId, b: TaskId)
    requires Coupled(t) && FreshIds(t, es)
    ensures var s := Run(t, es);
      (a in s.tasks && b in s.tasks && s.tasks[a].isWorkflowTask && s.tasks[b].isWorkflowTask
       && a in s.backs && b in s.backs && s.backs[a] == s.backs[b]) ==> a == b
  {
    CoupledRun(t, es);
  }

  // ---- what a stop commits ----

  /** The node is taken back: READY and unlinked, or SKIPPED. */
  predicate TakenBack(t: Tables, u: Tables, n: NodeId) {
    n in t.nodes && n in u.nodes && t.nodes[n].status in {NodeEnqueued, NodeRunning}
    && u.nodes[n].status in {NodeReady, NodeSkipped}
  }

  /** The node's task was live before the step and is in the history after it. */
  predicate TaskEnded(t: Tables, u: Tables, n: NodeId)
    requires n in t.nodes
  {
    t.nodes[n].taskId.Some? && t.nodes[n].taskId.value in t.tasks
    && t.nodes[n].taskId.value !in u.tasks && t.nodes[n].taskId.value in u.history
  }

  lemma OnlyNodeOpsTakeBack(t: Tables, op: Op, now: Time, n: NodeId)
    requires TakenBack(t, Apply(t, op, now), n)
    ensures op.OpStop? || op.OpAbandonBatch? || op.OpCancelBatch? || op.OpPause? || op.OpCancelWorkflow?
  {
    if !NodeOp(op) { NodesUntouched(t, op, now); }
  }

  lemma StopEndsTheTask(t: Tables, id: TaskId, why: StopKind, worker: WorkerId, gen: Option<Time>, n: NodeId)
    requires Coupled(t) && TakenBack(t, StopBeforeStart(t, id, why, worker, gen).0, n)
    ensures TaskEnded(t, StopBeforeStart(t, id, why, worker, gen).0, n)
  {
    if id !in t.tasks { StopForDeadTaskIsNoOp(t, id, why, worker, gen); }
  }

  lemma BatchEndsTheTask(t: Tables, claims: map<TaskId, Option<Time>>, worker: WorkerId, n: NodeId)
    ensures TakenBack(t, AbandonOwnedNodes(t, claims, worker), n) ==> TaskEnded(t, AbandonOwnedNodes(t, claims, worker), n)
    ensures TakenBack(t, CancelOwnedNodes(t, claims, worker), n) ==> TaskEnded(t, CancelOwnedNodes(t, claims, worker), n)
  {}

  lemma PauseEndsTheTask(t: Tables, ws: set<WorkflowId>, locked: set<TaskId>, n: NodeId)
    requires TakenBack(t, PauseWorkflows(t, ws, locked), n)
    ensures TaskEnded(t, PauseWorkflows(t, ws, locked), n)
  {}

  lemma CancelEndsTheTask(t: Tables, w: WorkflowId, locked: set<TaskId>, n: NodeId)
    requires TakenBack(t, CancelWorkflow(t, w, locked), n)
    ensures TaskEnded(t, CancelWorkflow(t, w, locked), n)
  {}

  /** Whatever step takes a node back ends that node's live task in the same step. */
  lemma TakingBackEndsTheTask(t: Tables, op: Op, now: Time, n: NodeId)
    requires Coupled(t)
    ensures TakenBack(t, Apply(t, op, now), n) ==> TaskEnded(t, Apply(t, op, now), n)
  {
    if TakenBack(t, Apply(t, op, now), n) { TakenBackByAStop(t, op, now, n); }
  }

  lemma TakenBackByAStop(t: Tables, op: Op, now: Time, n: NodeId)
    requires Coupled(t) && TakenBack(t, Apply(t, op, now), n)
    ensures TaskEnded(t, Apply(t, op, now), n)
  {
    OnlyNodeOpsTakeBack(t, op, now, n);
    if op.OpStop? {
      StopEndsTheTask(t, op.id, op.why, op.worker, op.gen, n);
    } else if op.OpAbandonBatch? || op.OpCancelBatch? {
      BatchEndsTheTask(t, op.claims, op.worker, n);
    } else if op.OpPause? {
      PauseEndsTheTask(t, op.ws, op.locked, n);
    } else {
      CancelEndsTheTask(t, op.w, op.locked, n);
    }
  }

  /** A paused stop that applies leaves every node of the task READY and unlinked. */
  lemma PausedStopResets(t: Tables, id: TaskId, worker: WorkerId, gen: Option<Time>, n: NodeId)
    requires n in t.nodes && t.nodes[n].taskId == Some(id)
    requires StopBeforeStart(t, id, StopPaused, worker, gen).1 == Applied
    ensures var u := StopBeforeStart(t, id, StopPaused, worker, gen).0;
      u.nodes[n] == Node(t.nodes[n].workflow, NodeReady, None) && id !in u.tasks && id in u.history
  {}

  /** A cancelled stop that applies skips the node exactly when it has not been handed off to RUNNING. */
  lemma CancelledStopSkips(t: Tables, id: TaskId, worker: WorkerId, gen: Option<Time>, n: NodeId)
    requires Coupled(t) && n in t.nodes && t.nodes[n].taskId == Some(id) && t.tasks.Keys >= {id}
    requires t.tasks[id].isWorkflowTask
    requires StopBeforeStart(t, id, StopCancelled, worker, gen).1 == Applied
    ensures var u := StopBeforeStart(t, id, StopCancelled, worker, gen).0;
      && id !in u.tasks && u.history[id] == WorkflowCancelClaim
      && (u.nodes[n].status == NodeSkipped <==> t.nodes[n].status == NodeEnqueued)
      && (u.nodes[n] == t.nodes[n] <==> t.nodes[n].status == NodeRunning)
  {}

  lemma StopSparesOtherNodes(s: Tables, n: NodeId, former: TaskId, why: StopKind, worker: WorkerId, gen: Option<Time>)
    requires n in s.nodes && s.nodes[n].taskId != Some(former)
    ensures var u := StopBeforeStart(s, former, why, worker, gen).0; n in u.nodes && u.nodes[n] == s.nodes[n]
  {}

  /** Once relinked to a fresh task, a node is out of reach of every stop for the old one. */
  lemma RelinkedNodeIsSafe(t: Tables, es: seq<Event>, n: NodeId, former: TaskId, why: StopKind,
                           worker: WorkerId, gen: Option<Time>, s: Tables)
    requires Coupled(t) && FreshIds(t, es) && s == Run(t, es)
    requires n in s.nodes && s.nodes[n].taskId.Some? && s.nodes[n].taskId.value != former
    ensures var u := StopBeforeStart(s, former, why, worker, gen).0;
      n in u.nodes && u.nodes[n] == s.nodes[n] && (former !in s.tasks ==> u == s)
  {
    CoupledRun(t, es);
    StopSparesOtherNodes(s, n, former, why, worker, gen);
    if former !in s.tasks { StopForDeadTaskIsNoOp(s, former, why, worker, gen); }
  }

  // ---- the node a cancelled stop leaves behind ----

  const ONE_READY := Tables(map[], map[], map[1 := Node(1, NodeReady, None)], map[1 := WfRunning], map[])

  /** Handed off, then cancelled before its task starts. */
  const HANDED_OFF := [
    Event(OpEnqueueNode(1, 7, "q", 100, None), 1),
    Event(OpClaimQueue("q", 1, "w", None, {}), 2),
    Event(OpHandoff(7), 3),
    Event(OpCancelWorkflow(1, {}), 4),
    Event(OpStop(7, StopCancelled, "w", Some(2)), 5)]

  lemma ClaimsOnlyRow(t: Tables, row: Row)
    requires t.tasks == map[7 := row] && row.queue == "q" && PendingArm(row, 2)
    ensures ClaimQueue(t, "q", 1, "w", None, {}, 2).tasks == map[7 := ClaimedRow(row, "w", None, 2)]
  {
    var x := RankOf(0, 7, row);
    TwoArmClaimIsOneScan(t, "q", 0, 1, {}, 2);
    assert 7 in t.tasks && t.tasks[7] == row && Claimable(row, 2);
    assert x in ClaimableRanks(t, "q", 0, {}, 2);
    assert ClaimableRanks(t, "q", 0, {}, 2) == {x};
    ScanOrder.LimitNotReached({x}, 1);
    assert IdsOf({x}) == {x.id};
  }

  function AfterHandoff(): Tables {
    NodeHandoff(ClaimQueue(EnqueueNode(ONE_READY, 1, 7, "q", 100, None, 1), "q", 1, "w", None, {}, 2), 7)
  }

  lemma HandoffState()
    ensures AfterHandoff().tasks == map[7 := ClaimedRow(FreshRow("q", 100, 1, None, true), "w", None, 2)]
    ensures AfterHandoff().nodes == map[1 := Node(1, NodeRunning, Some(7))]
    ensures AfterHandoff().history == map[] && AfterHandoff().workflows == map[1 := WfRunning]
  {
    ClaimsOnlyRow(EnqueueNode(ONE_READY, 1, 7, "q", 100, None, 1), FreshRow("q", 100, 1, None, true));
  }

  lemma SweepMissesRunningNode(t: Tables)
    requires t.nodes == map[1 := Node(1, NodeRunning, Some(7))] && t.workflows == map[1 := WfRunning]
    ensures CancelWorkflow(t, 1, {}).nodes == t.nodes
    ensures CancelWorkflow(t, 1, {}).tasks == t.tasks && CancelWorkflow(t, 1, {}).history == t.history
  {
    assert Backing(t, {1}, {NodeEnqueued}, {}) == {};
  }

  lemma CancelApplies(t: Tables, id: TaskId, worker: WorkerId, gen: Option<Time>)
    requires OwnsClaim(t, id, worker, gen) && Movable(t, id, WorkflowCancelClaim)
    ensures StopBeforeStart(t, id, StopCancelled, worker, gen).0 == SkipNodes(Move(t, {id}, WorkflowCancelClaim), {id})
  {}

  lemma HandedOffCanMove(t: Tables)
    requires t.tasks == map[7 := ClaimedRow(FreshRow("q", 100, 1, None, true), "w", None, 2)]
    requires t.nodes == map[1 := Node(1, NodeRunning, Some(7))] && t.history == map[]
    ensures OwnsClaim(t, 7, "w", Some(2)) && Movable(t, 7, WorkflowCancelClaim)
  {
    assert Links(t, 7) == {1};
    assert LinkedWorkflows(t, 7) == {1};
  }

  lemma StopMissesRunningNode(t: Tables)
    requires t.tasks == map[7 := ClaimedRow(FreshRow("q", 100, 1, None, true), "w", None, 2)]
    requires t.nodes == map[1 := Node(1, NodeRunning, Some(7))] && t.history == map[]
    ensures var u := StopBeforeStart(t, 7, StopCancelled, "w", Some(2)).0;
      u.tasks == map[] && u.nodes == t.nodes && u.history == map[7 := WorkflowCancelClaim]
  {
    HandedOffCanMove(t);
    CancelApplies(t, 7, "w", Some(2));
  }

  lemma FirstTwo(t: Tables)
    ensures Apply(Apply(t, HANDED_OFF[0].op, 1), HANDED_OFF[1].op, 2)
         == ClaimQueue(EnqueueNode(t, 1, 7, "q", 100, None, 1), "q", 1, "w", None, {}, 2)
  {}

  lemma ThenHandoff(t: Tables)
    ensures Apply(t, HANDED_OFF[2].op, 3) == NodeHandoff(t, 7)
  {}

  lemma LastTwo(t: Tables)
    ensures Apply(Apply(t, HANDED_OFF[3].op, 4), HANDED_OFF[4].op, 5)
         == StopBeforeStart(CancelWorkflow(t, 1, {}), 7, StopCancelled, "w", Some(2)).0
  {}

  lemma HandedOffIsLegal()
    ensures Coupled(ONE_READY) && Ordered(HANDED_OFF, 0)
  {}

  /** A legal run ends with the workflow cancelled, its task ended, and its node RUNNING on the dead task. */
  lemma CancelledStopStrandsRunningNode()
    ensures Coupled(ONE_READY) && Ordered(HANDED_OFF, 0)
    ensures var end := Run(ONE_READY, HANDED_OFF);
      end.tasks == map[] && end.history == map[7 := WorkflowCancelClaim]
      && end.nodes == map[1 := Node(1, NodeRunning, Some(7))]
  {
    HandedOffIsLegal();
    HandoffState();
    var t := AfterHandoff();
    SweepMissesRunningNode(t);
    StopMissesRunningNode(CancelWorkflow(t, 1, {}));
    assert Run(ONE_READY, HANDED_OFF) == StopBeforeStart(CancelWorkflow(t, 1, {}), 7, StopCancelled, "w", Some(2)).0 by {
      FiveSteps(ONE_READY, HANDED_OFF);
      FirstTwo(ONE_READY);
      ThenHandoff(ClaimQueue(EnqueueNode(ONE_READY, 1, 7, "q", 100, None, 1), "q", 1, "w", None, {}, 2));
      LastTwo(t);
    }
  }

  lemma FiveSteps(t: Tables, es: seq<Event>)
    requires |es| == 5
    ensures Run(t, es) == Apply(Apply(Apply(Apply(Apply(t, es[0].op, es[0].now), es[1].op, es[1].now),
      es[2].op, es[2].now), es[3].op, es[3].now), es[4].op, es[4].now)
  {
    forall k | 0 <= k < 5 { RunStep(t, es, k); }
    assert es[..5] == es;
    assert Run(t, es[..0]) == t;
  }
}
