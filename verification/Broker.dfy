/** The broker's client methods, which change the tables one transaction at a time. */
module Broker {
  import opened Prelude
  import opened TaskTables
  import opened ClaimPass
  import opened ScanOrder
  import Steps = TaskSteps
  import Guards

  /** Database covers an SQL exception, after which the transaction has rolled back. */
  datatype BrokerError = Database | TerminalizationContract(duplicate: TaskId)

  datatype AttemptContext = AttemptContext(startedAt: Time, retryCount: nat, goodUntil: Option<Time>)

  /** The pairs of a batch fence, which must not repeat a task id. */
  predicate NoRepeats(ids: seq<TaskId>) {
    forall i, j :: 0 <= i < j < |ids| ==> ids[i] != ids[j]
  }

  /** The first claim carrying this id gives its generation. */
  function GenerationOf(claims: seq<(TaskId, Option<Time>)>, id: TaskId): Option<Time> {
    if claims == [] then None
    else if claims[0].0 == id then claims[0].1
    else GenerationOf(claims[1..], id)
  }

  function Generations(claims: seq<(TaskId, Option<Time>)>, ids: seq<TaskId>): map<TaskId, Option<Time>> {
    map id | id in ids :: GenerationOf(claims, id)
  }

  /** The ids of the found pairs whose node belongs to a workflow in this status, in order. */
  function IdsWithStatus(t: Tables, found: seq<(TaskId, NodeId)>, s: WorkflowStatus): seq<TaskId> {
    if found == [] then []
    else
      var rest := IdsWithStatus(t, found[..|found| - 1], s);
      var (id, n) := found[|found| - 1];
      if n in t.nodes && t.nodes[n].workflow in t.workflows && t.workflows[t.nodes[n].workflow] == s
      then rest + [id] else rest
  }

  /** A claimed live task linked from a node of a PAUSED or CANCELLED workflow. */
  predicate StoppedLink(t: Tables, claims: seq<(TaskId, Option<Time>)>, id: TaskId, n: NodeId) {
    (exists i :: 0 <= i < |claims| && claims[i].0 == id) && id in t.tasks && n in Links(t, id)
    && t.nodes[n].workflow in t.workflows && t.workflows[t.nodes[n].workflow] in {WfPaused, WfCancelled}
  }

  /** What the filter's lookup returns: each such link once, in any order. */
  ghost predicate FindsStopped(t: Tables, claims: seq<(TaskId, Option<Time>)>, found: seq<(TaskId, NodeId)>) {
    (forall i, j :: 0 <= i < j < |found| ==> found[i] != found[j])
    && (forall i :: 0 <= i < |found| ==> StoppedLink(t, claims, found[i].0, found[i].1))
    && forall id: TaskId, n: NodeId :: StoppedLink(t, claims, id, n) ==> (id, n) in found
  }

  /** The tables after the filter's two transactions; the second is reached only when the first succeeds. */
  function Filtered(t: Tables, claims: seq<(TaskId, Option<Time>)>, paused: seq<TaskId>, cancelled: seq<TaskId>,
                    worker: WorkerId): (Tables, Option<BrokerError>) {
    if !BatchSucceeds(t, claims, paused, worker, PauseAbandonClaimBatch) then
      (t, Some(BatchError(paused)))
    else
      var a := Steps.AbandonOwnedNodes(t, Generations(claims, paused), worker);
      if !BatchSucceeds(a, claims, cancelled, worker, WorkflowCancelClaimBatch) then (a, Some(BatchError(cancelled)))
      else (Steps.CancelOwnedNodes(a, Generations(claims, cancelled), worker), None)
  }

  predicate BatchSucceeds(t: Tables, claims: seq<(TaskId, Option<Time>)>, ids: seq<TaskId>, worker: WorkerId, kind: MoveKind) {
    NoRepeats(ids) && Steps.MoveBatch(t, Steps.OwnedOf(t, Generations(claims, ids), worker), kind).Some?
  }

  function FirstRepeat(ids: seq<TaskId>): TaskId
    requires !NoRepeats(ids)
  {
    if !NoRepeats(ids[..|ids| - 1]) then FirstRepeat(ids[..|ids| - 1])
    else
      assert forall i :: 0 <= i < |ids| - 1 ==> ids[..|ids| - 1][i] == ids[i];
      ids[|ids| - 1]
  }

  function BatchError(ids: seq<TaskId>): BrokerError {
    if NoRepeats(ids) then Database else TerminalizationContract(FirstRepeat(ids))
  }

  /** Strictly sorted by queue priority, priority, enqueued_at and id, so without repeats. */
  predicate InClaimOrder(t: Tables, p: ClaimParams, ids: seq<TaskId>) {
    (forall i :: 0 <= i < |ids| ==> ids[i] in t.tasks)
    && forall i, j :: 0 <= i < j < |ids| ==> Less(RankIn(t, p, ids[i]), RankIn(t, p, ids[j]))
  }

  /** By queue priority, 100 where none is set, then priority, enqueued_at and id. */
  predicate ComesFirst(p: ClaimParams, i: TaskId, x: Row, j: TaskId, y: Row) {
    var qx := if x.queue in p.queuePriority then p.queuePriority[x.queue] else 100;
    var qy := if y.queue in p.queuePriority then p.queuePriority[y.queue] else 100;
    qx < qy
    || (qx == qy && x.priority < y.priority)
    || (qx == qy && x.priority == y.priority && x.enqueuedAt < y.enqueuedAt)
    || (qx == qy && x.priority == y.priority && x.enqueuedAt == y.enqueuedAt && i < j)
  }

  lemma RankedComesFirst(t: Tables, p: ClaimParams, i: TaskId, j: TaskId)
    requires i in t.tasks && j in t.tasks && Less(RankIn(t, p, i), RankIn(t, p, j))
    ensures ComesFirst(p, i, t.tasks[i], j, t.tasks[j])
  {}

  /** The ids a pass picks, in the order its statement returns them. */
  method ReturnOrder(t: Tables, p: ClaimParams, locked: set<TaskId>, now: Time) returns (ids: seq<TaskId>)
    ensures forall id :: id in ids <==> id in Picked(t, p, locked, now)
    ensures InClaimOrder(t, p, ids)
  {
    if Budget(t, p, now) <= 0 { return []; }
    var ranks := FirstN(Candidates(t, p, locked, now), Budget(t, p, now));
    var sorted := SortRanks(ranks);
    ids := seq(|sorted|, i requires 0 <= i < |sorted| => sorted[i].id);
    forall i | 0 <= i < |ids| ensures ids[i] in t.tasks && RankIn(t, p, ids[i]) == sorted[i] {
      assert sorted[i] in ranks;
      CandidateIsItsRow(t, p, locked, now, sorted[i]);
    }
    forall id ensures id in ids <==> id in Picked(t, p, locked, now) {
      if id in ids {
        var i :| 0 <= i < |ids| && ids[i] == id;
        assert sorted[i] in ranks;
      }
      if id in Picked(t, p, locked, now) {
        var x :| x in ranks && x.id == id;
        var i :| 0 <= i < |sorted| && sorted[i] == x;
        assert ids[i] == id;
      }
    }
  }

  method SortRanks(ranks: set<Rank>) returns (sorted: seq<Rank>)
    ensures forall x :: x in sorted <==> x in ranks
    ensures forall i, j :: 0 <= i < j < |sorted| ==> Less(sorted[i], sorted[j])
  {
    sorted := [];
    var rest := ranks;
    while rest != {}
      invariant rest <= ranks && forall x :: x in sorted <==> x in ranks - rest
      invariant forall i, j :: 0 <= i < j < |sorted| ==> Less(sorted[i], sorted[j])
      invariant forall x, y :: x in rest && y in sorted ==> Less(x, y)
      decreases |rest|
    {
      ghost var m := LastExists(rest);
      var last :| last in rest && forall y :: y in rest && y != last ==> Less(y, last);
      sorted := [last] + sorted;
      rest := rest - {last};
    }
  }

  class PostgresBroker {
    var tasks: map<TaskId, Row>
    var history: map<TaskId, MoveKind>
    var nodes: map<NodeId, Node>
    var workflows: map<WorkflowId, WorkflowStatus>
    var backs: map<TaskId, NodeId>

    function State(): Tables
      reads this
    {
      Tables(tasks, history, nodes, workflows, backs)
    }

    constructor (t: Tables)
      ensures State() == t
    {
      tasks, history, nodes, workflows, backs := t.tasks, t.history, t.nodes, t.workflows, t.backs;
    }

    method Rollback(begun: Tables)
      modifies this
      ensures State() == begun
    {
      tasks, history, nodes, workflows, backs :=
        begun.tasks, begun.history, begun.nodes, begun.workflows, begun.backs;
    }

    /** One claim pass; the ids come back in claim order, with the generation they were all claimed under. */
    method ClaimBatch(p: ClaimParams, locked: set<TaskId>, now: Time) returns (claimed: seq<TaskId>, generation: Time)
      modifies `tasks
      ensures State() == ClaimPass.ClaimBatch(old(State()), p, locked, now)
      ensures forall id :: id in claimed <==> id in Picked(old(State()), p, locked, now)
      ensures forall id :: id in claimed ==>
        id in old(tasks) && id in tasks && tasks[id] == ClaimedRow(old(tasks)[id], p.worker, LeaseUntil(p, now), generation)
      ensures forall i, j :: 0 <= i < j < |claimed| ==>
        claimed[i] in old(tasks) && claimed[j] in old(tasks)
        && ComesFirst(p, claimed[i], old(tasks)[claimed[i]], claimed[j], old(tasks)[claimed[j]])
    {
      ghost var before := State();
      claimed := ReturnOrder(State(), p, locked, now);
      generation := now;
      tasks := MarkClaimed(State(), Picked(State(), p, locked, now), p.worker, LeaseUntil(p, now), now).tasks;
      forall id | id in claimed
        ensures id in before.tasks && id in tasks && tasks[id] == ClaimedRow(before.tasks[id], p.worker, LeaseUntil(p, now), now)
      {
        ClaimBatchRows(before, p, locked, now, id);
      }
      forall i, j | 0 <= i < j < |claimed| ensures ComesFirst(p, claimed[i], before.tasks[claimed[i]], claimed[j], before.tasks[claimed[j]]) {
        RankedComesFirst(before, p, claimed[i], claimed[j]);
      }
    }

    method SetRunning(id: TaskId, worker: WorkerId, gen: Option<Time>, now: Time) returns (ctx: Option<AttemptContext>)
      modifies `tasks
      ensures State() == Steps.SetRunning(old(State()), id, worker, gen, now)
      ensures ctx.Some? <==> Steps.StartApplies(old(State()), id, worker, gen, now)
      ensures ctx.Some? ==> ctx.value == AttemptContext(now, old(tasks)[id].retryCount, old(tasks)[id].goodUntil)
    {
      ctx := None;
      if id in tasks && tasks[id].status == Claimed && tasks[id].claimedBy == Some(worker) {
        var row := tasks[id];
        if (gen.None? || row.claimedAt == gen) && NotPast(row.claimExpiresAt, now) && NotPast(row.goodUntil, now)
           && !Stopped(State(), id) {
          tasks := tasks[id := row.(status := Running, claimExpiresAt := None, startedAt := Some(now))];
          ctx := Some(AttemptContext(now, row.retryCount, row.goodUntil));
        }
      }
    }

    /** Ok says whether the CAS applied; a matched row with no next_retry_at breaks NOT NULL on enqueued_at. */
    method RequeueInTx(id: TaskId, at: Option<Time>, worker: WorkerId, startedAt: Option<Time>)
      returns (r: Result<bool, BrokerError>)
      modifies `tasks
      ensures State() == Steps.Requeue(old(State()), id, at, worker, startedAt)
      ensures r == (if !Steps.RequeueMatches(old(State()), id, at, worker, startedAt) then Ok(false)
                    else if at.None? then Err(Database) else Ok(true))
      ensures r == Ok(true) ==> tasks[id].status == Pending && tasks[id].claimedAt == old(tasks)[id].claimedAt
    {
      if id !in tasks { return Ok(false); }
      var row := tasks[id];
      var owned := row.status == Running && row.claimedBy == Some(worker) && (startedAt.None? || row.startedAt == startedAt);
      var inTime := row.goodUntil.None? || (at.Some? && at.value < row.goodUntil.value);
      if !owned || !inTime { return Ok(false); }
      if at.None? { return Err(Database); }
      tasks := tasks[id := row.(status := Pending, retryCount := row.retryCount + 1,
                                nextRetryAt := at, enqueuedAt := at.value)];
      return Ok(true);
    }

    method UnclaimTask(id: TaskId, worker: WorkerId, gen: Option<Time>) returns (released: bool)
      modifies `tasks
      ensures State() == Steps.Unclaim(old(State()), id, worker, gen)
      ensures released == Steps.OwnsClaim(old(State()), id, worker, gen)
    {
      released := id in tasks && tasks[id].status == Claimed && tasks[id].claimedBy == Some(worker)
                  && (gen.None? || tasks[id].claimedAt == gen);
      if released {
        tasks := tasks[id := tasks[id].(status := Pending, claimedAt := None, claimedBy := None, claimExpiresAt := None)];
      }
    }

    method AbandonOwnedNode(id: TaskId, worker: WorkerId, gen: Option<Time>) returns (o: Outcome)
      modifies `tasks, `history
      ensures (State(), o) == Steps.AbandonOwnedNode(old(State()), id, worker, gen)
    {
      var t := State();
      o := Applied;
      if !Steps.OwnsClaim(t, id, worker, gen) {
        o := Steps.ClassifyMiss(t, id, PAUSE_KINDS, Some(worker), gen);
      } else if !Steps.Movable(t, id, PauseAbandonClaim) {
        o := Raised;
      } else {
        tasks, history := tasks - {id}, history[id := PauseAbandonClaim];
        assert State() == Steps.Move(t, {id}, PauseAbandonClaim);
      }
    }

    method CancelOwnedNode(id: TaskId, worker: WorkerId, gen: Option<Time>, acceptsPending: bool) returns (o: Outcome)
      modifies `tasks, `history
      ensures (State(), o) == Steps.CancelOwnedNode(old(State()), id, worker, gen, acceptsPending)
    {
      var t := State();
      o := Applied;
      if !Steps.OwnsClaim(t, id, worker, gen) && !(acceptsPending && id in tasks && tasks[id].status == Pending) {
        o := Steps.ClassifyMiss(t, id, CANCEL_KINDS, Some(worker), gen);
      } else if !Steps.Movable(t, id, WorkflowCancelClaim) {
        o := Raised;
      } else {
        tasks, history := tasks - {id}, history[id := WorkflowCancelClaim];
        assert State() == Steps.Move(t, {id}, WorkflowCancelClaim);
      }
    }

    method ResetWorkflowTasks(ids: set<TaskId>)
      modifies `nodes
      ensures State() == Steps.ResetNodes(old(State()), ids)
    {
      nodes := Steps.ResetNodes(State(), ids).nodes;
    }

    method SkipCancelledWorkflowTasks(ids: set<TaskId>)
      modifies `nodes
      ensures State() == Steps.SkipNodes(old(State()), ids)
    {
      nodes := Steps.SkipNodes(State(), ids).nodes;
    }

    /** One transaction: the terminal move, and the node write only when that move applied or had applied. */
    method HandleWorkflowStopBeforeStart(id: TaskId, status: WorkflowStatus, worker: WorkerId, gen: Option<Time>)
      returns (r: Result<Option<Outcome>, BrokerError>)
      modifies this
      ensures var why := if status == WfPaused then Steps.StopPaused
                         else if status == WfCancelled then Steps.StopCancelled else Steps.StopOther;
        State() == Steps.StopBeforeStart(old(State()), id, why, worker, gen).0
      ensures status !in {WfPaused, WfCancelled} ==> r == Ok(None)
      ensures r.Err? ==> r.error == Database && State() == old(State())
      ensures r.Ok? && r.value.Some? && r.value.value == Applied ==> id in old(tasks) && id !in tasks
      ensures nodes != old(nodes) ==> r == Ok(Some(Applied)) || r == Ok(Some(AlreadyApplied))
    {
      var begun := State();
      var o;
      if status == WfPaused {
        o := AbandonOwnedNode(id, worker, gen);
        if o in {Applied, AlreadyApplied} { ResetWorkflowTasks({id}); }
      } else if status == WfCancelled {
        o := CancelOwnedNode(id, worker, gen, true);
        if o in {Applied, AlreadyApplied} { SkipCancelledWorkflowTasks({id}); }
      } else {
        return Ok(None);
      }
      if o == Raised {
        Rollback(begun);
        return Err(Database);
      }
      return Ok(Some(o));
    }

    /** A transaction of the filter: move the owned rows of a batch and write the nodes of exactly those. */
    method StopBatch(claims: seq<(TaskId, Option<Time>)>, ids: seq<TaskId>, worker: WorkerId, paused: bool)
      returns (e: Option<BrokerError>)
      modifies this
      ensures var kind := if paused then PauseAbandonClaimBatch else WorkflowCancelClaimBatch;
        e == (if BatchSucceeds(old(State()), claims, ids, worker, kind) then None else Some(BatchError(ids)))
      ensures e.Some? ==> State() == old(State())
      ensures e.None? ==> State() == if paused then Steps.AbandonOwnedNodes(old(State()), Generations(claims, ids), worker)
                                      else Steps.CancelOwnedNodes(old(State()), Generations(claims, ids), worker)
    {
      if !NoRepeats(ids) { return Some(TerminalizationContract(FirstRepeat(ids))); }
      var kind := if paused then PauseAbandonClaimBatch else WorkflowCancelClaimBatch;
      var owned := Steps.OwnedOf(State(), Generations(claims, ids), worker);
      var moved := Steps.MoveBatch(State(), owned, kind);
      if moved.None? { return Some(Database); }
      tasks, history := moved.value.tasks, moved.value.history;
      if paused { ResetWorkflowTasks(owned); } else { SkipCancelledWorkflowTasks(owned); }
      return None;
    }

    /** The guard after a claim: ends this worker's rows of stopped workflows and reports every id to drop. */
    method FilterNonRunnableWorkflowTasks(claims: seq<(TaskId, Option<Time>)>, found: seq<(TaskId, NodeId)>, worker: WorkerId)
      returns (r: Result<seq<TaskId>, BrokerError>)
      requires FindsStopped(State(), claims, found)
      modifies this
      ensures var t, paused := old(State()), IdsWithStatus(old(State()), found, WfPaused);
        var cancelled := IdsWithStatus(t, found, WfCancelled);
        var (after, e) := Filtered(t, claims, paused, cancelled, worker);
        State() == after && r == (if e.Some? then Err(e.value) else Ok(paused + cancelled))
    {
      if claims == [] {
        NoClaims(State(), claims, found, worker);
        return Ok([]);
      }
      var paused: seq<TaskId>, cancelled: seq<TaskId> := [], [];
      for i := 0 to |found|
        invariant State() == old(State())
        invariant paused == IdsWithStatus(State(), found[..i], WfPaused)
        invariant cancelled == IdsWithStatus(State(), found[..i], WfCancelled)
      {
        assert found[..i + 1][..i] == found[..i];
        match workflows[nodes[found[i].1].workflow]
        case WfPaused => paused := paused + [found[i].0];
        case WfCancelled => cancelled := cancelled + [found[i].0];
        case _ =>
      }
      assert found[..|found|] == found;
      EmptyBatch(State(), claims, worker);
      if paused != [] {
        var e := StopBatch(claims, paused, worker, true);
        if e.Some? { return Err(e.value); }
      }
      EmptyBatch(State(), claims, worker);
      if cancelled != [] {
        var e := StopBatch(claims, cancelled, worker, false);
        if e.Some? { return Err(e.value); }
      }
      return Ok(paused + cancelled);
    }
  }

  lemma NoClaims(t: Tables, claims: seq<(TaskId, Option<Time>)>, found: seq<(TaskId, NodeId)>, worker: WorkerId)
    requires claims == [] && FindsStopped(t, claims, found)
    ensures IdsWithStatus(t, found, WfPaused) + IdsWithStatus(t, found, WfCancelled) == []
    ensures Filtered(t, claims, IdsWithStatus(t, found, WfPaused), IdsWithStatus(t, found, WfCancelled), worker) == (t, None)
  {
    assert found == [] || StoppedLink(t, claims, found[0].0, found[0].1);
    EmptyBatch(t, claims, worker);
  }

  /** Skipping a transaction for an empty list is the same as running it on nothing. */
  lemma EmptyBatch(t: Tables, claims: seq<(TaskId, Option<Time>)>, worker: WorkerId)
    ensures BatchSucceeds(t, claims, [], worker, PauseAbandonClaimBatch)
    ensures BatchSucceeds(t, claims, [], worker, WorkflowCancelClaimBatch)
    ensures Steps.AbandonOwnedNodes(t, Generations(claims, []), worker) == t
    ensures Steps.CancelOwnedNodes(t, Generations(claims, []), worker) == t
  {
    var owned := Steps.OwnedOf(t, Generations(claims, []), worker);
    assert owned == {};
    NothingMoved(t, owned, PauseAbandonClaimBatch);
    NothingMoved(t, owned, WorkflowCancelClaimBatch);
  }

  lemma NothingMoved(t: Tables, owned: set<TaskId>, kind: MoveKind)
    requires owned == {}
    ensures Steps.MoveBatch(t, owned, kind) == Some(t)
    ensures Steps.ResetNodes(t, owned) == t && Steps.SkipNodes(t, owned) == t
  {
    assert Steps.Move(t, owned, kind) == t;
  }

  // ---- what the filter guarantees ----

  lemma {:induction false} IdsWithStatusExact(t: Tables, found: seq<(TaskId, NodeId)>, s: WorkflowStatus, id: TaskId)
    ensures id in IdsWithStatus(t, found, s)
      <==> exists i :: 0 <= i < |found| && found[i].0 == id && found[i].1 in t.nodes
             && t.nodes[found[i].1].workflow in t.workflows && t.workflows[t.nodes[found[i].1].workflow] == s
  {
    if found != [] {
      var rest := found[..|found| - 1];
      IdsWithStatusExact(t, rest, s, id);
      assert forall i :: 0 <= i < |rest| ==> rest[i] == found[i];
      assert found[|found| - 1] == (found[|found| - 1].0, found[|found| - 1].1);
    }
  }

  /** The ids dropped from dispatch are exactly the claimed live tasks of a stopped workflow, owned or not. */
  lemma FilterReportsEveryStop(t: Tables, claims: seq<(TaskId, Option<Time>)>, found: seq<(TaskId, NodeId)>, id: TaskId)
    requires FindsStopped(t, claims, found)
    ensures id in IdsWithStatus(t, found, WfPaused) + IdsWithStatus(t, found, WfCancelled)
      <==> exists n :: StoppedLink(t, claims, id, n)
  {
    IdsWithStatusExact(t, found, WfPaused, id);
    IdsWithStatusExact(t, found, WfCancelled, id);
    if n: NodeId :| StoppedLink(t, claims, id, n) {
      assert (id, n) in found;
      var i :| 0 <= i < |found| && found[i] == (id, n);
    } else {
      assert forall i :: 0 <= i < |found| && found[i].0 == id ==> StoppedLink(t, claims, id, found[i].1);
    }
  }

  lemma {:induction false} GenerationOfIsAClaim(claims: seq<(TaskId, Option<Time>)>, id: TaskId)
    requires exists i :: 0 <= i < |claims| && claims[i].0 == id
    ensures (id, GenerationOf(claims, id)) in claims
  {
    if claims[0].0 == id {
      assert claims[0] == (id, GenerationOf(claims, id));
    } else {
      var i :| 0 <= i < |claims| && claims[i].0 == id;
      assert claims[1..][i - 1].0 == id;
      GenerationOfIsAClaim(claims[1..], id);
    }
  }

  lemma BatchTouchesOwned(t: Tables, claims: map<TaskId, Option<Time>>, worker: WorkerId, id: TaskId)
    ensures RowAt(Steps.AbandonOwnedNodes(t, claims, worker), id) == RowAt(t, id)
         || (RowAt(Steps.AbandonOwnedNodes(t, claims, worker), id).None? && id in claims && Steps.OwnsClaim(t, id, worker, claims[id]))
    ensures RowAt(Steps.CancelOwnedNodes(t, claims, worker), id) == RowAt(t, id)
         || (RowAt(Steps.CancelOwnedNodes(t, claims, worker), id).None? && id in claims && Steps.OwnsClaim(t, id, worker, claims[id]))
  {}

  lemma SameRowSameOwner(t: Tables, u: Tables, id: TaskId, worker: WorkerId, gen: Option<Time>)
    requires RowAt(t, id) == RowAt(u, id)
    ensures Steps.OwnsClaim(t, id, worker, gen) == Steps.OwnsClaim(u, id, worker, gen)
  {}

  /** Some claim of this id carries a generation under which the worker owns the row. */
  predicate OwnedUnderAClaim(t: Tables, claims: seq<(TaskId, Option<Time>)>, worker: WorkerId, id: TaskId) {
    exists c :: c in claims && c.0 == id && Steps.OwnsClaim(t, id, worker, c.1)
  }

  lemma OwnedByGeneration(t: Tables, claims: seq<(TaskId, Option<Time>)>, worker: WorkerId, id: TaskId)
    requires (exists i :: 0 <= i < |claims| && claims[i].0 == id) && Steps.OwnsClaim(t, id, worker, GenerationOf(claims, id))
    ensures OwnedUnderAClaim(t, claims, worker, id)
  {
    GenerationOfIsAClaim(claims, id);
    var c := (id, GenerationOf(claims, id));
    assert c in claims && c.0 == id && Steps.OwnsClaim(t, id, worker, c.1);
  }

  lemma FilteredRow(t: Tables, claims: seq<(TaskId, Option<Time>)>, paused: seq<TaskId>, cancelled: seq<TaskId>,
                    worker: WorkerId, mid: Tables, last: Tables)
    requires mid == Steps.AbandonOwnedNodes(t, Generations(claims, paused), worker)
    requires last == Steps.CancelOwnedNodes(mid, Generations(claims, cancelled), worker)
    ensures Filtered(t, claims, paused, cancelled, worker).0 in {t, mid, last}
  {}

  lemma EndedInABatch(t: Tables, mid: Tables, claims: seq<(TaskId, Option<Time>)>, worker: WorkerId, id: TaskId,
                      g: map<TaskId, Option<Time>>, h: map<TaskId, Option<Time>>, last: Tables)
    requires mid == Steps.AbandonOwnedNodes(t, g, worker) && last == Steps.CancelOwnedNodes(mid, h, worker)
    requires id in g ==> g[id] == GenerationOf(claims, id) && exists i :: 0 <= i < |claims| && claims[i].0 == id
    requires id in h ==> h[id] == GenerationOf(claims, id) && exists i :: 0 <= i < |claims| && claims[i].0 == id
    ensures RowAt(mid, id) == RowAt(t, id) || (RowAt(mid, id).None? && OwnedUnderAClaim(t, claims, worker, id))
    ensures RowAt(last, id) == RowAt(t, id) || (RowAt(last, id).None? && OwnedUnderAClaim(t, claims, worker, id))
  {
    BatchTouchesOwned(t, g, worker, id);
    BatchTouchesOwned(mid, h, worker, id);
    if RowAt(mid, id) != RowAt(t, id) {
      OwnedByGeneration(t, claims, worker, id);
    } else if RowAt(last, id) != RowAt(mid, id) {
      SameRowSameOwner(t, mid, id, worker, h[id]);
      OwnedByGeneration(t, claims, worker, id);
    }
  }

  /** A row leaves the live table only while this worker owns it under the generation of one of the claims. */
  lemma FilterTouchesOnlyItsClaims(t: Tables, claims: seq<(TaskId, Option<Time>)>, found: seq<(TaskId, NodeId)>,
                                   worker: WorkerId, id: TaskId)
    requires FindsStopped(t, claims, found)
    ensures var after := Filtered(t, claims, IdsWithStatus(t, found, WfPaused), IdsWithStatus(t, found, WfCancelled), worker).0;
      RowAt(after, id) == RowAt(t, id) || (RowAt(after, id).None? && OwnedUnderAClaim(t, claims, worker, id))
  {
    var paused, cancelled := IdsWithStatus(t, found, WfPaused), IdsWithStatus(t, found, WfCancelled);
    var g, h := Generations(claims, paused), Generations(claims, cancelled);
    var mid := Steps.AbandonOwnedNodes(t, g, worker);
    var last := Steps.CancelOwnedNodes(mid, h, worker);
    FilteredRow(t, claims, paused, cancelled, worker, mid, last);
    FilterReportsEveryStop(t, claims, found, id);
    EndedInABatch(t, mid, claims, worker, id, g, h, last);
  }

  /** No id twice, and every row this worker owns under its claim's generation may be moved. */
  predicate Acceptable(t: Tables, claims: seq<(TaskId, Option<Time>)>, ids: seq<TaskId>, worker: WorkerId) {
    (forall i, j :: 0 <= i < j < |ids| ==> ids[i] != ids[j])
    && forall id :: id in ids && id in t.tasks && Guards.HeldAs(t.tasks[id], Claimed, worker, GenerationOf(claims, id)) ==>
         Guards.MayMove(t, id)
  }

  lemma BatchSucceedsExactlyWhen(t: Tables, claims: seq<(TaskId, Option<Time>)>, ids: seq<TaskId>, worker: WorkerId, kind: MoveKind)
    requires kind == PauseAbandonClaimBatch || kind == WorkflowCancelClaimBatch
    ensures BatchSucceeds(t, claims, ids, worker, kind) <==> Acceptable(t, claims, ids, worker)
  {
    forall id ensures Steps.Movable(t, id, kind) <==> Guards.MayMove(t, id) { Guards.MovableMeans(t, id, kind); }
    var owned := Steps.OwnedOf(t, Generations(claims, ids), worker);
    forall id ensures id in owned <==>
      id in ids && id in t.tasks && Guards.HeldAs(t.tasks[id], Claimed, worker, GenerationOf(claims, id)) {}
  }

  /** The id named by a refused batch is the first one that comes a second time. */
  lemma {:induction false} FirstRepeatIsFirst(ids: seq<TaskId>)
    requires !NoRepeats(ids)
    ensures exists i, j :: 0 <= i < j < |ids| && ids[i] == ids[j] == FirstRepeat(ids) && NoRepeats(ids[..j])
    decreases |ids|
  {
    var front := ids[..|ids| - 1];
    if !NoRepeats(front) {
      FirstRepeatIsFirst(front);
      var i, j :| 0 <= i < j < |front| && front[i] == front[j] == FirstRepeat(front) && NoRepeats(front[..j]);
      assert front[..j] == ids[..j] && ids[i] == ids[j];
    } else {
      assert forall k :: 0 <= k < |front| ==> front[k] == ids[k];
      var i, j :| 0 <= i < j < |ids| && ids[i] == ids[j];
      assert ids[..j] == front;
    }
  }

  /** A refused batch without a repeated id is a database error; otherwise its error names the first id that comes again. */
  lemma BatchErrorIsExact(ids: seq<TaskId>)
    ensures (forall i, j :: 0 <= i < j < |ids| ==> ids[i] != ids[j]) ==> BatchError(ids) == Database
    ensures (exists i, j :: 0 <= i < j < |ids| && ids[i] == ids[j]) ==>
      exists i, j :: 0 <= i < j < |ids| && ids[i] == ids[j] && BatchError(ids) == TerminalizationContract(ids[j])
                     && forall a, b :: 0 <= a < b < j ==> ids[a] != ids[b]
  {
    if !NoRepeats(ids) {
      FirstRepeatIsFirst(ids);
      var i, j :| 0 <= i < j < |ids| && ids[i] == ids[j] == FirstRepeat(ids) && NoRepeats(ids[..j]);
      assert forall k :: 0 <= k < j ==> ids[..j][k] == ids[k];
    }
  }

  /**
   * The filter succeeds exactly when both lists are acceptable, the second one after the first has been applied. Then
   * it has ended exactly the reported rows this worker owns under their claims; a first list refused changes nothing.
   */
  lemma FilterEndsExactly(t: Tables, claims: seq<(TaskId, Option<Time>)>, paused: seq<TaskId>, cancelled: seq<TaskId>,
                          worker: WorkerId, id: TaskId)
    requires id in t.tasks
    ensures var (after, e) := Filtered(t, claims, paused, cancelled, worker);
      var abandoned := Steps.AbandonOwnedNodes(t, Generations(claims, paused), worker);
      (e == None <==> Acceptable(t, claims, paused, worker) && Acceptable(abandoned, claims, cancelled, worker))
      && (e == None ==> (id !in after.tasks <==>
            id in paused + cancelled && Guards.HeldAs(t.tasks[id], Claimed, worker, GenerationOf(claims, id))))
      && (!Acceptable(t, claims, paused, worker) ==> after == t && e == Some(BatchError(paused)))
      && (Acceptable(t, claims, paused, worker) && e != None ==> after == abandoned && e == Some(BatchError(cancelled)))
  {
    var abandoned := Steps.AbandonOwnedNodes(t, Generations(claims, paused), worker);
    BatchSucceedsExactlyWhen(t, claims, paused, worker, PauseAbandonClaimBatch);
    BatchSucceedsExactlyWhen(abandoned, claims, cancelled, worker, WorkflowCancelClaimBatch);
    BatchTakes(t, claims, paused, worker, id);
    if id in abandoned.tasks { BatchTakes(abandoned, claims, cancelled, worker, id); }
  }

  lemma BatchTakes(t: Tables, claims: seq<(TaskId, Option<Time>)>, ids: seq<TaskId>, worker: WorkerId, id: TaskId)
    requires id in t.tasks
    ensures var held := Guards.HeldAs(t.tasks[id], Claimed, worker, GenerationOf(claims, id));
      var a, c := Steps.AbandonOwnedNodes(t, Generations(claims, ids), worker), Steps.CancelOwnedNodes(t, Generations(claims, ids), worker);
      (BatchSucceeds(t, claims, ids, worker, PauseAbandonClaimBatch) ==> (id !in a.tasks <==> id in ids && held))
      && (BatchSucceeds(t, claims, ids, worker, WorkflowCancelClaimBatch) ==> (id !in c.tasks <==> id in ids && held))
      && (id in a.tasks ==> a.tasks[id] == t.tasks[id])
      && (id in c.tasks ==> c.tasks[id] == t.tasks[id])
  {}

  /** So the filter is a run of the two batch transactions, and what holds of every run holds of it. */
  lemma FilterIsARun(t: Tables, claims: seq<(TaskId, Option<Time>)>, paused: seq<TaskId>, cancelled: seq<TaskId>,
                     worker: WorkerId, now: Time) returns (es: seq<Steps.Event>)
    ensures Filtered(t, claims, paused, cancelled, worker).0 == Steps.Run(t, es)
    ensures Steps.Ordered(es, now)
    ensures forall e :: e in es ==> e.op.OpAbandonBatch? || e.op.OpCancelBatch?
  {
    var mid := Steps.AbandonOwnedNodes(t, Generations(claims, paused), worker);
    var a := AbandonEvent(t, mid, Generations(claims, paused), worker, now + 1);
    var end := Steps.CancelOwnedNodes(mid, Generations(claims, cancelled), worker);
    var c := CancelEvent(mid, end, Generations(claims, cancelled), worker, now + 2);
    ShortRuns(t, mid, end, a, c);
    if !BatchSucceeds(t, claims, paused, worker, PauseAbandonClaimBatch) {
      es := [];
    } else {
      es := if BatchSucceeds(mid, claims, cancelled, worker, WorkflowCancelClaimBatch) then [a, c] else [a];
    }
  }

  lemma AbandonEvent(t: Tables, end: Tables, g: map<TaskId, Option<Time>>, worker: WorkerId, now: Time) returns (e: Steps.Event)
    requires end == Steps.AbandonOwnedNodes(t, g, worker)
    ensures end == Steps.Apply(t, e.op, e.now) && e.now == now && e.op.OpAbandonBatch?
  {
    e := Steps.Event(Steps.OpAbandonBatch(g, worker), now);
  }

  lemma CancelEvent(t: Tables, end: Tables, g: map<TaskId, Option<Time>>, worker: WorkerId, now: Time) returns (e: Steps.Event)
    requires end == Steps.CancelOwnedNodes(t, g, worker)
    ensures end == Steps.Apply(t, e.op, e.now) && e.now == now && e.op.OpCancelBatch?
  {
    e := Steps.Event(Steps.OpCancelBatch(g, worker), now);
  }

  lemma ShortRuns(t: Tables, mid: Tables, end: Tables, a: Steps.Event, c: Steps.Event)
    requires mid == Steps.Apply(t, a.op, a.now) && end == Steps.Apply(mid, c.op, c.now)
    ensures Steps.Run(t, []) == t && Steps.Run(t, [a]) == mid && Steps.Run(t, [a, c]) == end
  {
    assert [a][..0] == [] && [a, c][..1] == [a];
  }
}
