/** Retry accounting: the retry counter against the starts and requeues that really happened. */
module Attempts {
  import opened Prelude
  import opened TaskTables
  import opened TaskSteps

  /** Starts and requeues of the row since it was inserted, read off its status changes alone. */
  datatype Tally = Tally(starts: nat, requeues: nat)

  function Count(b: Option<Row>, a: Option<Row>, y: Tally): Tally {
    if b.None? || a.None? then Tally(0, 0)
    else if b.value.status == Claimed && a.value.status == Running then y.(starts := y.starts + 1)
    else if b.value.status == Running && a.value.status == Pending then y.(requeues := y.requeues + 1)
    else y
  }

  function TallyOf(t: Tables, es: seq<Event>, id: TaskId): Tally {
    if es == [] then Tally(0, 0)
    else
      var init := es[..|es| - 1];
      Count(RowAt(Run(t, init), id), RowAt(Run(t, es), id), TallyOf(t, init, id))
  }

  predicate Agrees(row: Option<Row>, y: Tally) {
    row.Some? ==>
      && row.value.retryCount == y.requeues
      && y.starts == y.requeues + (if row.value.status == Running then 1 else 0)
  }

  lemma AgreesStep(b: Option<Row>, a: Option<Row>, now: Time, y: Tally)
    requires RowStep(b, a, now) && Agrees(b, y)
    ensures Agrees(a, Count(b, a, y))
  {}

  /** retry_count is the number of applied requeues, and every start but a running one has been requeued. */
  lemma {:induction false} RetryCountIsRequeues(t: Tables, es: seq<Event>, id: TaskId)
    requires id !in t.tasks
    ensures Agrees(RowAt(Run(t, es), id), TallyOf(t, es, id))
    decreases |es|
  {
    if es != [] {
      var init, e := es[..|es| - 1], es[|es| - 1];
      RetryCountIsRequeues(t, init, id);
      StepIsRowStep(Run(t, init), e.op, e.now, id);
      AgreesStep(RowAt(Run(t, init), id), RowAt(Run(t, es), id), e.now, TallyOf(t, init, id));
    }
  }

  /** The attempt a finalization records: retry_count + 1 of the RUNNING row. */
  function AttemptNumber(r: Row): nat { r.retryCount + 1 }

  /** The k-th start of a row is attempt k: no number is skipped and none comes twice. */
  lemma KthStartIsAttemptK(t: Tables, es: seq<Event>, id: TaskId)
    requires id !in t.tasks
    ensures var s := Run(t, es);
      id in s.tasks && s.tasks[id].status == Running ==>
        AttemptNumber(s.tasks[id]) == TallyOf(t, es, id).starts
  {
    RetryCountIsRequeues(t, es, id);
  }

  /**
   * A requeue applies exactly when its check matches and it names a retry instant (a match without one is rolled
   * back). The row is then claimable from that instant until its deadline, which lies strictly later.
   */
  lemma RequeuedIsClaimable(t: Tables, id: TaskId, at: Option<Time>, worker: WorkerId, startedAt: Option<Time>, now: Time)
    ensures Requeue(t, id, at, worker, startedAt) != t <==> RequeueMatches(t, id, at, worker, startedAt) && at.Some?
    ensures RequeueMatches(t, id, None, worker, startedAt) ==> t.tasks[id].goodUntil.None?
    ensures Requeue(t, id, at, worker, startedAt) != t ==>
      var r := Requeue(t, id, at, worker, startedAt).tasks[id];
      PendingArm(r, now) == (at.value <= now && NotPast(r.goodUntil, now))
      && PendingArm(r, at.value)
      && (r.goodUntil.Some? ==> at.value < r.goodUntil.value)
  {
    if RequeueMatches(t, id, at, worker, startedAt) && at.Some? {
      assert Requeue(t, id, at, worker, startedAt).tasks[id].retryCount != t.tasks[id].retryCount;
    }
  }
}
