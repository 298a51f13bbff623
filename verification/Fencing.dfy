/** Claim generations: once a row is re-claimed, no dispatch born before that claim can act on it. */
module Fencing {
  import opened Prelude
  import opened TaskTables
  import opened TaskSteps

  /** A held row carries its claim instant, a RUNNING row a later start instant, and none lies ahead of the clock. */
  predicate RowStamped(r: Row, clock: Time) {
    && (r.claimedAt.Some? ==> r.claimedAt.value <= clock)
    && (r.startedAt.Some? ==> r.startedAt.value <= clock)
    && (r.status != Pending ==> r.claimedAt.Some? && r.claimedBy.Some?)
    && (r.status == Running ==> r.startedAt.Some? && r.claimedAt.value < r.startedAt.value)
  }

  ghost predicate Stamped(t: Tables, clock: Time) {
    forall id :: id in t.tasks ==> RowStamped(t.tasks[id], clock)
  }

  /** Every generation before `since` is over: the row is unclaimed, or claimed and started since. */
  predicate Superseded(t: Tables, id: TaskId, since: Time) {
    RowSuperseded(RowAt(t, id), since)
  }

  lemma StampedStep(t: Tables, op: Op, clock: Time, now: Time)
    requires Stamped(t, clock) && clock < now
    ensures Stamped(Apply(t, op, now), now)
  {
    forall id | RowAt(Apply(t, op, now), id).Some? ensures RowStamped(RowAt(Apply(t, op, now), id).value, now) {
      StepIsRowStep(t, op, now, id);
      StampsAdvance(RowAt(t, id), RowAt(Apply(t, op, now), id), clock, now);
    }
    AllRows(Apply(t, op, now), now);
  }

  lemma StampsAdvance(b: Option<Row>, a: Option<Row>, clock: Time, now: Time)
    requires RowStep(b, a, now) && clock < now && a.Some?
    requires b.Some? ==> RowStamped(b.value, clock)
    ensures RowStamped(a.value, now)
  {}

  lemma AllRows(u: Tables, now: Time)
    requires forall id :: RowAt(u, id).Some? ==> RowStamped(RowAt(u, id).value, now)
    ensures Stamped(u, now)
  {
    forall id | id in u.tasks ensures RowStamped(u.tasks[id], now) { assert RowAt(u, id).Some?; }
  }

  lemma {:induction false} StampedRun(t: Tables, es: seq<Event>, clock: Time)
    requires Stamped(t, clock) && Ordered(es, clock)
    ensures Stamped(Run(t, es), Clock(es, clock))
    decreases |es|
  {
    if es != [] {
      var init := es[..|es| - 1];
      StampedRun(t, init, clock);
      StampedStep(Run(t, init), es[|es| - 1].op, Clock(init, clock), es[|es| - 1].now);
    }
  }

  predicate RowSuperseded(r: Option<Row>, since: Time) {
    r.Some? ==>
      && (r.value.claimedAt.Some? ==> r.value.claimedAt.value >= since)
      && (r.value.status == Running ==> r.value.startedAt.Some? && r.value.startedAt.value > since)
  }

  lemma SupersededAdvances(b: Option<Row>, a: Option<Row>, now: Time, since: Time)
    requires RowStep(b, a, now) && RowSuperseded(b, since) && since < now
    ensures RowSuperseded(a, since)
  {}

  lemma SupersededStep(t: Tables, op: Op, now: Time, id: TaskId, since: Time)
    requires Superseded(t, id, since) && since < now
    ensures Superseded(Apply(t, op, now), id, since)
  {
    StepIsRowStep(t, op, now, id);
    SupersededAdvances(RowAt(t, id), RowAt(Apply(t, op, now), id), now, since);
  }

  lemma {:induction false} SupersededRun(t: Tables, es: seq<Event>, i: nat, id: TaskId)
    requires i < |es| && (forall j :: i < j < |es| ==> es[i].now < es[j].now)
    requires Superseded(Run(t, es[..i + 1]), id, es[i].now)
    ensures Superseded(Run(t, es), id, es[i].now)
    decreases |es|
  {
    if i + 1 == |es| {
      assert es[..i + 1] == es;
    } else {
      var init := es[..|es| - 1];
      assert init[..i + 1] == es[..i + 1];
      SupersededRun(t, init, i, id);
      SupersededStep(Run(t, init), es[|es| - 1].op, es[|es| - 1].now, id, es[i].now);
    }
  }

  /** Step i of the run claimed this row. */
  predicate ClaimedAtStep(t: Tables, es: seq<Event>, i: nat, id: TaskId)
    requires i < |es|
  {
    Claims(RowAt(Run(t, es[..i]), id), RowAt(Run(t, es[..i + 1]), id), es[i].now)
  }

  lemma ClaimSupersedes(t: Tables, es: seq<Event>, clock: Time, i: nat, id: TaskId)
    requires Ordered(es, clock) && i < |es| && ClaimedAtStep(t, es, i, id)
    ensures Superseded(Run(t, es), id, es[i].now)
  {
    SupersededRun(t, es, i, id);
  }

  /** None of the three finalizations under this generation applies or changes a table. */
  predicate NotFinalized(s: Tables, id: TaskId, worker: WorkerId, gen: Time) {
    && CompleteTaskFused(s, id, worker, Some(gen)).0 == s && CompleteTaskFused(s, id, worker, Some(gen)).1 != Applied
    && CompleteLockedTask(s, id, worker, Some(gen)).0 == s && CompleteLockedTask(s, id, worker, Some(gen)).1 != Applied
    && FailLockedTask(s, id, worker, Some(gen)).0 == s && FailLockedTask(s, id, worker, Some(gen)).1 != Applied
  }

  /**
   * After a claim of the row at step i, and whatever ran since, no statement that carries an older
   * claim instant or start instant starts, releases, requeues, completes, fails, cancels or abandons it,
   * whichever worker sends it.
   */
  lemma StaleDispatchIsInert(t: Tables, es: seq<Event>, clock: Time, i: nat, id: TaskId, worker: WorkerId,
                             gen: Time, start: Time, at: Option<Time>, now: Time)
    requires Ordered(es, clock) && i < |es| && ClaimedAtStep(t, es, i, id)
    requires gen < es[i].now && start <= es[i].now
    ensures var s := Run(t, es);
      && SetRunning(s, id, worker, Some(gen), now) == s
      && Unclaim(s, id, worker, Some(gen)) == s
      && Requeue(s, id, at, worker, Some(start)) == s
      && NotFinalized(s, id, worker, gen)
      && CancelOwnedOrphan(s, id, worker, Some(gen)).0 == s
      && AbandonOwnedNode(s, id, worker, Some(gen)).0 == s
  {
    ClaimSupersedes(t, es, clock, i, id);
  }

  /** The batch forms fence each row by the generation travelling with its id. */
  lemma StaleBatchIsInert(t: Tables, es: seq<Event>, clock: Time, i: nat, id: TaskId, worker: WorkerId,
                          claims: map<TaskId, Option<Time>>)
    requires Ordered(es, clock) && i < |es| && ClaimedAtStep(t, es, i, id)
    requires id in claims ==> claims[id].Some? && claims[id].value < es[i].now
    ensures var s := Run(t, es);
      && RowAt(AbandonOwnedNodes(s, claims, worker), id) == RowAt(s, id)
      && RowAt(CancelOwnedNodes(s, claims, worker), id) == RowAt(s, id)
  {
    ClaimSupersedes(t, es, clock, i, id);
    assert id !in OwnedOf(Run(t, es), claims, worker);
  }

  /** The one exception is the cancel stop, and it reaches a re-claimed row exactly when that row is back to PENDING. */
  lemma StaleCancelStop(t: Tables, es: seq<Event>, clock: Time, i: nat, id: TaskId, worker: WorkerId, gen: Time)
    requires Ordered(es, clock) && i < |es| && ClaimedAtStep(t, es, i, id)
    requires gen < es[i].now
    ensures var s := Run(t, es);
      (StopBeforeStart(s, id, StopCancelled, worker, Some(gen)).1 == Applied)
        == (id in s.tasks && s.tasks[id].status == Pending && Movable(s, id, WorkflowCancelClaim))
  {
    ClaimSupersedes(t, es, clock, i, id);
  }

  /** The retry requeue leaves its generation on the row; while the row is PENDING no fenced statement reads it. */
  lemma LeftoverGenerationIsHarmless(t: Tables, id: TaskId, worker: WorkerId, gen: Option<Time>,
                                     start: Option<Time>, at: Option<Time>, now: Time)
    requires id in t.tasks && t.tasks[id].status == Pending
    ensures SetRunning(t, id, worker, gen, now) == t
    ensures Unclaim(t, id, worker, gen) == t
    ensures Requeue(t, id, at, worker, start) == t
    ensures CompleteTaskFused(t, id, worker, gen).0 == t
    ensures CompleteLockedTask(t, id, worker, gen).0 == t && FailLockedTask(t, id, worker, gen).0 == t
    ensures AbandonOwnedNode(t, id, worker, gen).0 == t
    ensures CancelOwnedOrphan(t, id, worker, gen).0 == t
    ensures ExpireOwnedClaim(t, id, worker, now).0 == t
  {}

  /** It is left there: an applied retry requeue keeps claimed_at and the worker. */
  lemma RetryRequeueKeepsGeneration(t: Tables, id: TaskId, at: Time, worker: WorkerId, startedAt: Option<Time>)
    requires RequeueMatches(t, id, Some(at), worker, startedAt)
    ensures var r := Requeue(t, id, Some(at), worker, startedAt).tasks[id];
      r.status == Pending && r.claimedBy == Some(worker) && r.claimedAt == t.tasks[id].claimedAt
  {}

  /** Two claims of one row never share a generation, and a start belongs to the latest claim. */
  lemma GenerationsAreDistinct(t: Tables, es: seq<Event>, clock: Time, i: nat, j: nat, id: TaskId)
    requires Stamped(t, clock) && Ordered(es, clock) && i < j < |es|
    requires ClaimedAtStep(t, es, i, id) && ClaimedAtStep(t, es, j, id)
    ensures Run(t, es[..i + 1]).tasks[id].claimedAt != Run(t, es[..j + 1]).tasks[id].claimedAt
    ensures var s := Run(t, es); id in s.tasks && s.tasks[id].status == Running ==>
      s.tasks[id].claimedAt.Some? && s.tasks[id].startedAt.Some?
      && es[j].now <= s.tasks[id].claimedAt.value < s.tasks[id].startedAt.value
  {
    ClaimSupersedes(t, es, clock, j, id);
    StampedRun(t, es, clock);
  }
}
