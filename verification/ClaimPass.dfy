/** The two claim paths: the direct queue scan and the collapsed claim pass. */
module ClaimPass {
  import opened Prelude
  import opened TaskTables
  import opened ScanOrder

  /** Inputs of one claim pass; the u32 fields are clamped to i32::MAX before they are bound. */
  datatype ClaimParams = ClaimParams(
    worker: WorkerId,
    queues: set<Queue>,
    queuePriority: map<Queue, int>,
    queueMaxConcurrency: map<Queue, nat>,
    hardCapMode: bool,
    processes: nat,
    prefetchBuffer: nat,
    maxClaimPerWorker: nat,
    maxClaimBatch: nat,
    clusterWideCap: Option<nat>,
    leaseMs: Option<nat>)

  function Clamp(x: nat): int { Min(x, I32_MAX) }

  function RankOf(queuePriority: int, id: TaskId, r: Row): Rank {
    Rank(queuePriority, r.priority, r.enqueuedAt, id)
  }

  /** The rows one arm sees: of this queue, passing its filter, not locked by another transaction. */
  function PendingRanks(t: Tables, q: Queue, qp: int, locked: set<TaskId>, now: Time): set<Rank> {
    set id | id in t.tasks && id !in locked && t.tasks[id].queue == q && PendingArm(t.tasks[id], now)
      :: RankOf(qp, id, t.tasks[id])
  }

  function ExpiredRanks(t: Tables, q: Queue, qp: int, locked: set<TaskId>, now: Time): set<Rank> {
    set id | id in t.tasks && id !in locked && t.tasks[id].queue == q && ExpiredArm(t.tasks[id], now)
      :: RankOf(qp, id, t.tasks[id])
  }

  /** The rows the single OR-predicate scan sees. */
  function ClaimableRanks(t: Tables, q: Queue, qp: int, locked: set<TaskId>, now: Time): set<Rank> {
    set id | id in t.tasks && id !in locked && t.tasks[id].queue == q && Claimable(t.tasks[id], now)
      :: RankOf(qp, id, t.tasks[id])
  }

  /** Each arm limited on its own, merged, then limited again. */
  function TwoArmPick(t: Tables, q: Queue, qp: int, limit: int, locked: set<TaskId>, now: Time): set<Rank> {
    FirstN(FirstN(PendingRanks(t, q, qp, locked, now), limit)
           + FirstN(ExpiredRanks(t, q, qp, locked, now), limit), limit)
  }

  lemma TwoArmClaimIsOneScan(t: Tables, q: Queue, qp: int, limit: int, locked: set<TaskId>, now: Time)
    ensures TwoArmPick(t, q, qp, limit, locked, now)
         == FirstN(ClaimableRanks(t, q, qp, locked, now), limit)
  {
    var p, e := PendingRanks(t, q, qp, locked, now), ExpiredRanks(t, q, qp, locked, now);
    TwoArmScan(p, e, limit);
    assert p + e == ClaimableRanks(t, q, qp, locked, now);
  }

  function IdsOf(s: set<Rank>): set<TaskId> {
    set x | x in s :: x.id
  }

  /** The UPDATE both claim statements end with. */
  function ClaimedRow(r: Row, worker: WorkerId, lease: Option<Time>, now: Time): Row {
    r.(status := Claimed, claimedAt := Some(now), claimedBy := Some(worker), claimExpiresAt := lease)
  }

  function MarkClaimed(t: Tables, ids: set<TaskId>, worker: WorkerId, lease: Option<Time>, now: Time): Tables {
    t.(tasks := map id | id in t.tasks ::
         if id in ids then ClaimedRow(t.tasks[id], worker, lease, now) else t.tasks[id])
  }

  /** The direct path: one queue, no cap accounting. */
  function ClaimQueue(t: Tables, q: Queue, limit: int, worker: WorkerId, lease: Option<Time>,
                      locked: set<TaskId>, now: Time): Tables {
    MarkClaimed(t, IdsOf(TwoArmPick(t, q, 0, limit, locked, now)), worker, lease, now)
  }

  // ---- cap accounting of the claim pass ----

  function WorkerClaimed(t: Tables, w: WorkerId, now: Time): set<TaskId> {
    set id | id in InFlight(t, now) && t.tasks[id].claimedBy == Some(w) && t.tasks[id].status == Claimed
  }

  function WorkerRunning(t: Tables, w: WorkerId, now: Time): set<TaskId> {
    set id | id in InFlight(t, now) && t.tasks[id].claimedBy == Some(w) && t.tasks[id].status == Running
  }

  function WorkerInFlight(t: Tables, w: WorkerId, now: Time): set<TaskId> {
    set id | id in InFlight(t, now) && t.tasks[id].claimedBy == Some(w)
  }

  /** The rows a queue's max_concurrency counts: all in flight in hard mode, RUNNING only otherwise. */
  function QueueCounted(t: Tables, q: Queue, hard: bool, now: Time): set<TaskId> {
    set id | id in InFlight(t, now) && t.tasks[id].queue == q && (hard || t.tasks[id].status == Running)
  }

  function MaxClaimed(p: ClaimParams): int {
    if p.maxClaimPerWorker > 0 then Clamp(p.maxClaimPerWorker)
    else if p.prefetchBuffer > 0 then Clamp(p.processes) + Clamp(p.prefetchBuffer)
    else Clamp(p.processes)
  }

  function LocalAvailable(t: Tables, p: ClaimParams, now: Time): int {
    Max(0, if p.hardCapMode then Clamp(p.processes) - |WorkerInFlight(t, p.worker, now)|
           else Clamp(p.processes) + Clamp(p.prefetchBuffer)
                - |WorkerRunning(t, p.worker, now)| - |WorkerClaimed(t, p.worker, now)|)
  }

  function GlobalRemaining(t: Tables, p: ClaimParams, now: Time): int {
    if p.clusterWideCap.Some? then Max(0, Clamp(p.clusterWideCap.value) - |InFlight(t, now)|)
    else I32_MAX
  }

  /** The number of rows this pass may claim; not positive when the pass returns early. */
  function Budget(t: Tables, p: ClaimParams, now: Time): int {
    var mine := |WorkerClaimed(t, p.worker, now)|;
    if mine >= MaxClaimed(p) then 0
    else Min(LocalAvailable(t, p, now), Min(MaxClaimed(p) - mine, GlobalRemaining(t, p, now)))
  }

  function QueueRoom(t: Tables, p: ClaimParams, q: Queue, total: int, now: Time): int {
    if q in p.queueMaxConcurrency
    then Max(0, Clamp(p.queueMaxConcurrency[q]) - |QueueCounted(t, q, p.hardCapMode, now)|)
    else total
  }

  function BatchRoom(p: ClaimParams, total: int): int {
    if p.maxClaimBatch > 0 then Clamp(p.maxClaimBatch) else total
  }

  function QueueLimit(t: Tables, p: ClaimParams, q: Queue, total: int, now: Time): int {
    Min(total, Min(QueueRoom(t, p, q, total, now), BatchRoom(p, total)))
  }

  function PriorityOf(p: ClaimParams, q: Queue): int {
    if q in p.queuePriority then p.queuePriority[q] else 100
  }

  /** A queue's candidates, and the second per-queue window the statement puts on them. */
  function QueueCandidates(t: Tables, p: ClaimParams, q: Queue, locked: set<TaskId>, now: Time): set<Rank> {
    var total := Budget(t, p, now);
    FirstN(TwoArmPick(t, q, PriorityOf(p, q), QueueLimit(t, p, q, total, now), locked, now),
           Min(QueueRoom(t, p, q, total, now), BatchRoom(p, total)))
  }

  function Candidates(t: Tables, p: ClaimParams, locked: set<TaskId>, now: Time): set<Rank> {
    set q, x | q in p.queues && x in QueueCandidates(t, p, q, locked, now) :: x
  }

  /** The ids one claim pass takes. */
  function Picked(t: Tables, p: ClaimParams, locked: set<TaskId>, now: Time): set<TaskId> {
    if Budget(t, p, now) <= 0 then {}
    else IdsOf(FirstN(Candidates(t, p, locked, now), Budget(t, p, now)))
  }

  function LeaseUntil(p: ClaimParams, now: Time): Option<Time> {
    if p.leaseMs.Some? then Some(now + p.leaseMs.value) else None
  }

  function ClaimBatch(t: Tables, p: ClaimParams, locked: set<TaskId>, now: Time): Tables {
    MarkClaimed(t, Picked(t, p, locked, now), p.worker, LeaseUntil(p, now), now)
  }

  // ---- what a pass guarantees ----

  lemma IdsSize(s: set<Rank>)
    ensures |IdsOf(s)| <= |s|
    decreases |s|
  {
    if s == {} {
      assert IdsOf(s) == {};
    } else {
      var x :| x in s;
      IdsSize(s - {x});
      assert IdsOf(s) == IdsOf(s - {x}) + {x.id};
      UnionSize(IdsOf(s - {x}), {x.id});
    }
  }

  /** The second per-queue window never drops a candidate the first one kept. */
  lemma SecondWindowIsRedundant(t: Tables, p: ClaimParams, q: Queue, locked: set<TaskId>, now: Time)
    requires Budget(t, p, now) > 0
    ensures QueueCandidates(t, p, q, locked, now)
         == FirstN(ClaimableRanks(t, q, PriorityOf(p, q), locked, now),
                   QueueLimit(t, p, q, Budget(t, p, now), now))
  {
    var total := Budget(t, p, now);
    var limit := QueueLimit(t, p, q, total, now);
    TwoArmClaimIsOneScan(t, q, PriorityOf(p, q), limit, locked, now);
    FirstNSize(ClaimableRanks(t, q, PriorityOf(p, q), locked, now), limit);
    LimitNotReached(TwoArmPick(t, q, PriorityOf(p, q), limit, locked, now),
                    Min(QueueRoom(t, p, q, total, now), BatchRoom(p, total)));
  }

  /** Only claimable, unlocked rows of the serviced queues are taken, and no more than the budget. */
  lemma PickedAreClaimable(t: Tables, p: ClaimParams, locked: set<TaskId>, now: Time)
    ensures forall id :: id in Picked(t, p, locked, now) ==>
              id in t.tasks && id !in locked && t.tasks[id].queue in p.queues && Claimable(t.tasks[id], now)
    ensures |Picked(t, p, locked, now)| <= Max(0, Budget(t, p, now))
  {
    var total := Budget(t, p, now);
    if total > 0 {
      var c := Candidates(t, p, locked, now);
      FirstNSize(c, total);
      IdsSize(FirstN(c, total));
      forall id | id in Picked(t, p, locked, now)
        ensures id in t.tasks && id !in locked && t.tasks[id].queue in p.queues && Claimable(t.tasks[id], now)
      {
        var x :| x in FirstN(c, total) && x.id == id;
        var q :| q in p.queues && x in QueueCandidates(t, p, q, locked, now);
        SecondWindowIsRedundant(t, p, q, locked, now);
        assert x in ClaimableRanks(t, q, PriorityOf(p, q), locked, now);
      }
    }
  }

  /** On the columns: what is picked is PENDING, or CLAIMED under a lease that has run out, and due but not past its deadline. */
  lemma PickedAreDue(t: Tables, p: ClaimParams, locked: set<TaskId>, now: Time, id: TaskId)
    requires id in Picked(t, p, locked, now)
    ensures id in t.tasks && id !in locked && t.tasks[id].queue in p.queues
    ensures var r := t.tasks[id];
      r.status != Running && (r.status == Claimed ==> r.claimExpiresAt.Some? && r.claimExpiresAt.value < now)
      && r.enqueuedAt <= now && (r.nextRetryAt.None? || r.nextRetryAt.value <= now)
      && (r.goodUntil.None? || r.goodUntil.value > now)
  {
    PickedAreClaimable(t, p, locked, now);
  }

  lemma ClaimBatchRows(t: Tables, p: ClaimParams, locked: set<TaskId>, now: Time, id: TaskId)
    requires id in Picked(t, p, locked, now)
    ensures id in t.tasks && id in ClaimBatch(t, p, locked, now).tasks
    ensures ClaimBatch(t, p, locked, now).tasks[id] == ClaimedRow(t.tasks[id], p.worker, LeaseUntil(p, now), now)
  {
    PickedAreClaimable(t, p, locked, now);
  }

  lemma CandidateIsItsRow(t: Tables, p: ClaimParams, locked: set<TaskId>, now: Time, x: Rank)
    requires Budget(t, p, now) > 0 && x in Candidates(t, p, locked, now)
    ensures x.id in t.tasks && x == RankIn(t, p, x.id)
  {
    var q :| q in p.queues && x in QueueCandidates(t, p, q, locked, now);
    SecondWindowIsRedundant(t, p, q, locked, now);
  }

  lemma OneIdEach(s: set<Rank>)
    requires forall x, y :: x in s && y in s && x.id == y.id ==> x == y
    ensures |IdsOf(s)| == |s|
    decreases |s|
  {
    if s == {} {
      assert IdsOf(s) == {};
    } else {
      var x :| x in s;
      OneIdEach(s - {x});
      assert IdsOf(s) == IdsOf(s - {x}) + {x.id};
      UnionSize(IdsOf(s - {x}), {x.id});
    }
  }

  /** A pass that has a budget leaves none of it unused while a queue still has a candidate. */
  lemma PassUsesItsBudget(t: Tables, p: ClaimParams, locked: set<TaskId>, now: Time)
    requires Budget(t, p, now) > 0
    ensures |Picked(t, p, locked, now)| == Min(Budget(t, p, now), |Candidates(t, p, locked, now)|)
  {
    var c, total := Candidates(t, p, locked, now), Budget(t, p, now);
    forall x, y | x in FirstN(c, total) && y in FirstN(c, total) && x.id == y.id ensures x == y {
      CandidateIsItsRow(t, p, locked, now, x);
      CandidateIsItsRow(t, p, locked, now, y);
    }
    OneIdEach(FirstN(c, total));
    FirstNSize(c, total);
  }

  function RankIn(t: Tables, p: ClaimParams, id: TaskId): Rank
    requires id in t.tasks
  {
    RankOf(PriorityOf(p, t.tasks[id].queue), id, t.tasks[id])
  }

  lemma ClaimableIsRanked(t: Tables, q: Queue, qp: int, locked: set<TaskId>, now: Time, id: TaskId)
    requires id in t.tasks && id !in locked && t.tasks[id].queue == q
    requires var r := t.tasks[id];
      (r.status == Pending || (r.status == Claimed && r.claimExpiresAt.Some? && r.claimExpiresAt.value < now))
      && r.enqueuedAt <= now && (r.nextRetryAt.None? || r.nextRetryAt.value <= now)
      && (r.goodUntil.None? || r.goodUntil.value > now)
    ensures RankOf(qp, id, t.tasks[id]) in ClaimableRanks(t, q, qp, locked, now)
  {}

  /** Whatever is picked is within its queue's window. */
  lemma PickedWithinWindow(t: Tables, p: ClaimParams, locked: set<TaskId>, now: Time, id: TaskId)
    requires id in Picked(t, p, locked, now)
    ensures id in t.tasks && t.tasks[id].queue in p.queues && Budget(t, p, now) > 0
    ensures RankIn(t, p, id) in FirstN(Candidates(t, p, locked, now), Budget(t, p, now))
    ensures var q := t.tasks[id].queue;
      RankIn(t, p, id) in FirstN(ClaimableRanks(t, q, PriorityOf(p, q), locked, now), QueueLimit(t, p, q, Budget(t, p, now), now))
  {
    var x :| x in FirstN(Candidates(t, p, locked, now), Budget(t, p, now)) && x.id == id;
    var q :| q in p.queues && x in QueueCandidates(t, p, q, locked, now);
    SecondWindowIsRedundant(t, p, q, locked, now);
  }

  /**
   * Oldest first, on the rows' own columns: of two rows of one serviced queue the one with the smaller priority, or
   * with equal priority the earlier enqueued_at, or with both equal the smaller id, is picked if the other one is.
   */
  lemma OldestFirst(t: Tables, p: ClaimParams, locked: set<TaskId>, now: Time, a: TaskId, b: TaskId)
    requires a in t.tasks && b in t.tasks && a !in locked && t.tasks[a].queue == t.tasks[b].queue
    requires var r := t.tasks[a];
      (r.status == Pending || (r.status == Claimed && r.claimExpiresAt.Some? && r.claimExpiresAt.value < now))
      && r.enqueuedAt <= now && (r.nextRetryAt.None? || r.nextRetryAt.value <= now)
      && (r.goodUntil.None? || r.goodUntil.value > now)
    requires var x, y := t.tasks[a], t.tasks[b];
      x.priority < y.priority
      || (x.priority == y.priority && x.enqueuedAt < y.enqueuedAt)
      || (x.priority == y.priority && x.enqueuedAt == y.enqueuedAt && a < b)
    requires b in Picked(t, p, locked, now)
    ensures a in Picked(t, p, locked, now)
  {
    var q, total := t.tasks[a].queue, Budget(t, p, now);
    var all, window := ClaimableRanks(t, q, PriorityOf(p, q), locked, now), QueueLimit(t, p, q, total, now);
    PickedWithinWindow(t, p, locked, now, b);
    ClaimableIsRanked(t, q, PriorityOf(p, q), locked, now, a);
    SecondWindowIsRedundant(t, p, q, locked, now);
    AheadIsKept(all, window, RankIn(t, p, a), RankIn(t, p, b));
    assert RankIn(t, p, a) in Candidates(t, p, locked, now);
    AheadIsKept(Candidates(t, p, locked, now), total, RankIn(t, p, a), RankIn(t, p, b));
    assert RankIn(t, p, a).id == a;
  }

  lemma AheadIsKept(s: set<Rank>, n: int, x: Rank, y: Rank)
    requires x in s && y in FirstN(s, n) && Less(x, y)
    ensures x in FirstN(s, n)
  {
    BeforeMonotone(s, x, y);
  }

  /** The claimable rows of the queue that sort ahead of this row of it. */
  function AheadInQueue(t: Tables, locked: set<TaskId>, now: Time, id: TaskId): set<TaskId>
    requires id in t.tasks
  {
    var r := t.tasks[id];
    set i | i in t.tasks && i !in locked && t.tasks[i].queue == r.queue && Claimable(t.tasks[i], now)
      && (t.tasks[i].priority < r.priority
          || (t.tasks[i].priority == r.priority
              && (t.tasks[i].enqueuedAt < r.enqueuedAt || (t.tasks[i].enqueuedAt == r.enqueuedAt && i < id))))
  }

  lemma AheadAreBefore(t: Tables, p: ClaimParams, locked: set<TaskId>, now: Time, id: TaskId)
    requires id in t.tasks
    ensures var q := t.tasks[id].queue;
      |Before(ClaimableRanks(t, q, PriorityOf(p, q), locked, now), RankIn(t, p, id))| == |AheadInQueue(t, locked, now, id)|
  {
    var q := t.tasks[id].queue;
    var s := Before(ClaimableRanks(t, q, PriorityOf(p, q), locked, now), RankIn(t, p, id));
    OneIdEach(s);
    forall i | i in AheadInQueue(t, locked, now, id) ensures i in IdsOf(s) {
      assert RankOf(PriorityOf(p, q), i, t.tasks[i]) in s;
    }
    assert IdsOf(s) == AheadInQueue(t, locked, now, id);
  }

  /**
   * A claimable row passed over for one that comes behind it, by queue priority (100 where none is set), priority,
   * enqueued_at and id, is passed over because its own queue's window is full of rows ahead of it.
   */
  lemma NoQueueJumping(t: Tables, p: ClaimParams, locked: set<TaskId>, now: Time, taken: TaskId, passed: TaskId)
    requires taken in Picked(t, p, locked, now) && taken in t.tasks
    requires passed in t.tasks && passed !in locked && t.tasks[passed].queue in p.queues && Claimable(t.tasks[passed], now)
    requires passed !in Picked(t, p, locked, now)
    requires var x, y := t.tasks[passed], t.tasks[taken];
      var qx := if x.queue in p.queuePriority then p.queuePriority[x.queue] else 100;
      var qy := if y.queue in p.queuePriority then p.queuePriority[y.queue] else 100;
      qx < qy
      || (qx == qy && x.priority < y.priority)
      || (qx == qy && x.priority == y.priority && x.enqueuedAt < y.enqueuedAt)
      || (qx == qy && x.priority == y.priority && x.enqueuedAt == y.enqueuedAt && passed < taken)
    ensures |AheadInQueue(t, locked, now, passed)| >= QueueLimit(t, p, t.tasks[passed].queue, Budget(t, p, now), now)
  {
    var q, total := t.tasks[passed].queue, Budget(t, p, now);
    PickedWithinWindow(t, p, locked, now, taken);
    ClaimableIsRanked(t, q, PriorityOf(p, q), locked, now, passed);
    SecondWindowIsRedundant(t, p, q, locked, now);
    AheadAreBefore(t, p, locked, now, passed);
    var y := RankIn(t, p, passed);
    if y in Candidates(t, p, locked, now) {
      AheadIsKept(Candidates(t, p, locked, now), total, y, RankIn(t, p, taken));
    }
    assert y !in QueueCandidates(t, p, q, locked, now);
  }
}
