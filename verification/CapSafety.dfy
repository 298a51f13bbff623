/** The cluster-wide cap over whole runs, and the one statement that can break it. */
module CapSafety {
  import opened Prelude
  import opened TaskTables
  import opened ClaimPass
  import opened TaskSteps
  import opened ScanOrder

  /** The expired claims a renewal brings back to life. */
  function Revived(t: Tables, op: Op, now: Time): set<TaskId> {
    if op.OpRenew? && op.until > now
    then set id | id in t.tasks && Renewable(t.tasks[id], op.worker, op.maxAge, now)
                  && !NotPast(t.tasks[id].claimExpiresAt, now)
    else {}
  }

  /** Every claim of the run is a claim pass with this one cap. */
  predicate CappedClaims(es: seq<Event>, cap: nat) {
    forall i :: 0 <= i < |es| ==>
      !es[i].op.OpClaimQueue? && (es[i].op.OpClaimBatch? ==> es[i].op.p.clusterWideCap == Some(cap))
  }

  /** A renewal has room: the claims it revives fit under the cap beside those in flight. */
  predicate HasRoom(t: Tables, op: Op, cap: nat, now: Time) {
    |InFlight(t, now)| + |Revived(t, op, now)| <= cap
  }

  /** Waiting never puts a row in flight. */
  lemma WaitingShrinks(t: Tables, early: Time, late: Time)
    requires early <= late
    ensures InFlight(t, late) <= InFlight(t, early)
    ensures |InFlight(t, late)| <= |InFlight(t, early)|
  {
    SubsetSize(InFlight(t, late), InFlight(t, early));
  }

  lemma QuietRow(t: Tables, op: Op, now: Time, id: TaskId)
    requires !EndingOp(op) && !op.OpClaimBatch? && !op.OpClaimQueue? && !op.OpRenew?
    ensures id in InFlight(Apply(t, op, now), now) ==> id in InFlight(t, now)
  {}

  /** Outside claims and renewals no row enters the in-flight set. */
  lemma QuietStep(t: Tables, op: Op, now: Time)
    requires !op.OpClaimBatch? && !op.OpClaimQueue? && !op.OpRenew?
    ensures InFlight(Apply(t, op, now), now) <= InFlight(t, now)
  {
    forall id | id in InFlight(Apply(t, op, now), now) ensures id in InFlight(t, now) {
      if EndingOp(op) {
        EndingStep(t, op, now, id);
        assert RowAt(Apply(t, op, now), id).Some?;
      } else {
        QuietRow(t, op, now, id);
      }
    }
  }

  lemma NewlyInFlight(t: Tables, p: ClaimParams, locked: set<TaskId>, now: Time)
    ensures InFlight(ClaimBatch(t, p, locked, now), now) <= InFlight(t, now) + Picked(t, p, locked, now)
  {
    var u := ClaimBatch(t, p, locked, now);
    forall id | id in InFlight(u, now) && id !in Picked(t, p, locked, now) ensures id in InFlight(t, now) {
      assert u.tasks[id] == t.tasks[id];
    }
  }

  lemma GlobalBudget(t: Tables, p: ClaimParams, now: Time)
    ensures p.clusterWideCap.Some? ==> Budget(t, p, now) <= Max(0, p.clusterWideCap.value - |InFlight(t, now)|)
    ensures p.hardCapMode ==> Budget(t, p, now) <= Max(0, p.processes - |WorkerInFlight(t, p.worker, now)|)
  {}

  /** A pass never raises the in-flight count above the cluster cap, or above where it already was. */
  lemma ClaimPassKeepsCap(t: Tables, p: ClaimParams, locked: set<TaskId>, now: Time)
    ensures p.clusterWideCap.Some? ==>
      |InFlight(ClaimBatch(t, p, locked, now), now)| <= Max(|InFlight(t, now)|, p.clusterWideCap.value)
  {
    var after, picked := InFlight(ClaimBatch(t, p, locked, now), now), Picked(t, p, locked, now);
    PickedAreClaimable(t, p, locked, now);
    NewlyInFlight(t, p, locked, now);
    GlobalBudget(t, p, now);
    SubsetSize(after, InFlight(t, now) + picked);
    UnionSize(InFlight(t, now), picked);
  }

  /** A renewal adds to the in-flight set exactly the claims it revives, when it does not shorten a lease. */
  lemma RenewalAddsRevived(t: Tables, op: Op, now: Time)
    requires op.OpRenew? && op.until > now
    ensures InFlight(Apply(t, op, now), now) == InFlight(t, now) + Revived(t, op, now)
    ensures |InFlight(Apply(t, op, now), now)| == |InFlight(t, now)| + |Revived(t, op, now)|
  {
    assert InFlight(t, now) !! Revived(t, op, now);
    UnionSize(InFlight(t, now), Revived(t, op, now));
  }

  lemma StepKeepsCap(t: Tables, e: Event, cap: nat)
    requires !e.op.OpClaimQueue? && (e.op.OpClaimBatch? ==> e.op.p.clusterWideCap == Some(cap))
    requires |InFlight(t, e.now)| <= cap
    ensures |InFlight(Apply(t, e.op, e.now), e.now)| <= cap <==> HasRoom(t, e.op, cap, e.now)
  {
    if e.op.OpClaimBatch? {
      ClaimPassKeepsCap(t, e.op.p, e.op.locked, e.now);
    } else if e.op.OpRenew? && e.op.until > e.now {
      RenewalAddsRevived(t, e.op, e.now);
    } else if e.op.OpRenew? {
      SubsetSize(InFlight(Apply(t, e.op, e.now), e.now), InFlight(t, e.now));
    } else {
      QuietStep(t, e.op, e.now);
      SubsetSize(InFlight(Apply(t, e.op, e.now), e.now), InFlight(t, e.now));
    }
  }

  /** The cap holds after k events of the run. */
  predicate CapAt(t: Tables, es: seq<Event>, cap: nat, k: nat)
    requires 0 < k <= |es|
  {
    |InFlight(Run(t, es[..k]), es[k - 1].now)| <= cap
  }

  /** The cap holds in every state of the run, and from each state until the next step. */
  predicate CapHolds(t: Tables, es: seq<Event>, cap: nat) {
    forall k :: 0 < k <= |es| ==> CapAt(t, es, cap, k)
  }

  predicate RoomAt(t: Tables, es: seq<Event>, cap: nat, k: nat)
    requires k < |es|
  {
    es[k].op.OpRenew? ==> HasRoom(Run(t, es[..k]), es[k].op, cap, es[k].now)
  }

  /** Every renewal of the run has room when it happens. */
  predicate RenewalsHaveRoom(t: Tables, es: seq<Event>, cap: nat) {
    forall k :: 0 <= k < |es| ==> RoomAt(t, es, cap, k)
  }

  lemma SamePrefix(t: Tables, es: seq<Event>, cap: nat, k: nat)
    requires k < |es|
    ensures 0 < k ==> CapAt(t, es[..|es| - 1], cap, k) == CapAt(t, es, cap, k)
    ensures k < |es| - 1 ==> RoomAt(t, es[..|es| - 1], cap, k) == RoomAt(t, es, cap, k)
  {
    assert es[..|es| - 1][..k] == es[..k];
  }

  lemma CapHoldsStep(t: Tables, es: seq<Event>, cap: nat)
    requires es != []
    ensures CapHolds(t, es, cap) <==> CapHolds(t, es[..|es| - 1], cap) && CapAt(t, es, cap, |es|)
  {
    var init := es[..|es| - 1];
    forall k | 0 < k <= |init| ensures CapAt(t, init, cap, k) == CapAt(t, es, cap, k) { SamePrefix(t, es, cap, k); }
    if CapHolds(t, es, cap) {
      forall k | 0 < k <= |init| ensures CapAt(t, init, cap, k) { assert CapAt(t, es, cap, k); }
    }
    if CapHolds(t, init, cap) && CapAt(t, es, cap, |es|) {
      forall k | 0 < k <= |es| ensures CapAt(t, es, cap, k) { if k <= |init| { assert CapAt(t, init, cap, k); } }
    }
  }

  lemma RoomStep(t: Tables, es: seq<Event>, cap: nat)
    requires es != []
    ensures RenewalsHaveRoom(t, es, cap) <==> RenewalsHaveRoom(t, es[..|es| - 1], cap) && RoomAt(t, es, cap, |es| - 1)
  {
    var init := es[..|es| - 1];
    forall k | 0 <= k < |init| ensures RoomAt(t, init, cap, k) == RoomAt(t, es, cap, k) { SamePrefix(t, es, cap, k); }
    if RenewalsHaveRoom(t, es, cap) {
      forall k | 0 <= k < |init| ensures RoomAt(t, init, cap, k) { assert RoomAt(t, es, cap, k); }
    }
    if RenewalsHaveRoom(t, init, cap) && RoomAt(t, es, cap, |es| - 1) {
      forall k | 0 <= k < |es| ensures RoomAt(t, es, cap, k) { if k < |init| { assert RoomAt(t, init, cap, k); } }
    }
  }

  /** A run of capped claim passes stays under the cap if and only if each of its renewals has room. */
  lemma {:induction false} CapSafety(t: Tables, es: seq<Event>, clock: Time, cap: nat)
    requires Ordered(es, clock) && CappedClaims(es, cap)
    requires |InFlight(t, clock)| <= cap
    ensures CapHolds(t, es, cap) <==> RenewalsHaveRoom(t, es, cap)
    decreases |es|
  {
    if es != [] {
      var init, e := es[..|es| - 1], es[|es| - 1];
      CapSafety(t, init, clock, cap);
      CapHoldsStep(t, es, cap);
      RoomStep(t, es, cap);
      if CapHolds(t, init, cap) {
        LastStepKeepsCap(t, es, clock, cap);
      }
    }
  }

  /** The state before the last event is still within the cap when that event happens. */
  lemma WithinCapBeforeLast(t: Tables, es: seq<Event>, clock: Time, cap: nat)
    requires es != [] && Ordered(es, clock) && |InFlight(t, clock)| <= cap
    requires CapHolds(t, es[..|es| - 1], cap)
    ensures |InFlight(Run(t, es[..|es| - 1]), es[|es| - 1].now)| <= cap
  {
    var init := es[..|es| - 1];
    assert init[..|init|] == init;
    if init != [] { assert CapAt(t, init, cap, |init|); }
    WaitingShrinks(Run(t, init), Clock(init, clock), es[|es| - 1].now);
  }

  lemma LastStepKeepsCap(t: Tables, es: seq<Event>, clock: Time, cap: nat)
    requires es != [] && Ordered(es, clock) && CappedClaims(es, cap)
    requires |InFlight(t, clock)| <= cap
    requires CapHolds(t, es[..|es| - 1], cap)
    ensures CapAt(t, es, cap, |es|) <==> RoomAt(t, es, cap, |es| - 1)
  {
    WithinCapBeforeLast(t, es, clock, cap);
    StepKeepsCap(Run(t, es[..|es| - 1]), es[|es| - 1], cap);
    assert es[..|es|] == es;
  }

  /** No renewal of the run touches a claim whose lease has run out. */
  predicate RenewalsAreGuarded(t: Tables, es: seq<Event>) {
    forall k :: 0 <= k < |es| ==> Revived(Run(t, es[..k]), es[k].op, es[k].now) == {}
  }

  lemma GuardedBefore(t: Tables, es: seq<Event>)
    requires es != [] && RenewalsAreGuarded(t, es)
    ensures RenewalsAreGuarded(t, es[..|es| - 1])
    ensures Revived(Run(t, es[..|es| - 1]), es[|es| - 1].op, es[|es| - 1].now) == {}
  {
    var init := es[..|es| - 1];
    forall k | 0 <= k < |init| ensures Revived(Run(t, init[..k]), init[k].op, init[k].now) == {} {
      assert init[..k] == es[..k];
    }
  }

  /** If renewals take only claims whose lease is still ahead, the cap holds in every state of the run. */
  lemma {:induction false} GuardedRenewalsKeepTheCap(t: Tables, es: seq<Event>, clock: Time, cap: nat)
    requires Ordered(es, clock) && CappedClaims(es, cap) && RenewalsAreGuarded(t, es)
    requires |InFlight(t, clock)| <= cap
    ensures CapHolds(t, es, cap)
    decreases |es|
  {
    if es != [] {
      GuardedBefore(t, es);
      GuardedRenewalsKeepTheCap(t, es[..|es| - 1], clock, cap);
      WithinCapBeforeLast(t, es, clock, cap);
      LastStepKeepsCap(t, es, clock, cap);
      CapHoldsStep(t, es, cap);
    }
  }

  // ---- hard-mode queue caps ----

  /** The rows of one queue a pass picks. */
  function PickedIn(t: Tables, p: ClaimParams, q: Queue, locked: set<TaskId>, now: Time): set<TaskId> {
    set id | id in Picked(t, p, locked, now) && id in t.tasks && t.tasks[id].queue == q
  }

  lemma NewlyInQueue(t: Tables, p: ClaimParams, q: Queue, locked: set<TaskId>, now: Time)
    ensures QueueCounted(ClaimBatch(t, p, locked, now), q, true, now)
         <= QueueCounted(t, q, true, now) + PickedIn(t, p, q, locked, now)
  {
    var u := ClaimBatch(t, p, locked, now);
    forall id | id in QueueCounted(u, q, true, now) && id !in Picked(t, p, locked, now)
      ensures id in QueueCounted(t, q, true, now)
    {
      assert u.tasks[id] == t.tasks[id];
    }
  }

  /** A pass takes no more of a queue than that queue's window. */
  lemma PickedInWindow(t: Tables, p: ClaimParams, q: Queue, locked: set<TaskId>, now: Time)
    ensures |PickedIn(t, p, q, locked, now)| <= Max(0, QueueLimit(t, p, q, Budget(t, p, now), now))
  {
    var total := Budget(t, p, now);
    if total > 0 {
      var window := QueueCandidates(t, p, q, locked, now);
      SecondWindowIsRedundant(t, p, q, locked, now);
      FirstNSize(ClaimableRanks(t, q, PriorityOf(p, q), locked, now), QueueLimit(t, p, q, total, now));
      forall id | id in PickedIn(t, p, q, locked, now) ensures id in IdsOf(window) {
        var x :| x in FirstN(Candidates(t, p, locked, now), total) && x.id == id;
        var q' :| q' in p.queues && x in QueueCandidates(t, p, q', locked, now);
        SecondWindowIsRedundant(t, p, q', locked, now);
        assert x in ClaimableRanks(t, q', PriorityOf(p, q'), locked, now);
      }
      SubsetSize(PickedIn(t, p, q, locked, now), IdsOf(window));
      IdsSize(window);
    } else {
      assert PickedIn(t, p, q, locked, now) == {};
    }
  }

  /** A pass takes no more rows of one queue than the configured batch size. */
  lemma BatchSizeKept(t: Tables, p: ClaimParams, q: Queue, locked: set<TaskId>, now: Time)
    requires p.maxClaimBatch > 0
    ensures |PickedIn(t, p, q, locked, now)| <= p.maxClaimBatch
  {
    PickedInWindow(t, p, q, locked, now);
  }

  /** In hard mode a pass fills a capped queue at most up to its max_concurrency. */
  lemma QueueCapKept(t: Tables, p: ClaimParams, q: Queue, locked: set<TaskId>, now: Time)
    requires p.hardCapMode && q in p.queueMaxConcurrency
    ensures |QueueCounted(ClaimBatch(t, p, locked, now), q, true, now)|
         <= Max(|QueueCounted(t, q, true, now)|, p.queueMaxConcurrency[q])
  {
    var before, after := QueueCounted(t, q, true, now), QueueCounted(ClaimBatch(t, p, locked, now), q, true, now);
    var picked := PickedIn(t, p, q, locked, now);
    NewlyInQueue(t, p, q, locked, now);
    PickedInWindow(t, p, q, locked, now);
    SubsetSize(after, before + picked);
    UnionSize(before, picked);
  }

  lemma NewlyMine(t: Tables, p: ClaimParams, locked: set<TaskId>, now: Time)
    ensures WorkerInFlight(ClaimBatch(t, p, locked, now), p.worker, now)
         <= WorkerInFlight(t, p.worker, now) + Picked(t, p, locked, now)
  {
    var u := ClaimBatch(t, p, locked, now);
    forall id | id in WorkerInFlight(u, p.worker, now) && id !in Picked(t, p, locked, now)
      ensures id in WorkerInFlight(t, p.worker, now)
    {
      assert u.tasks[id] == t.tasks[id];
    }
  }

  /** In hard mode a pass fills its worker at most up to its process count. */
  lemma WorkerCapKept(t: Tables, p: ClaimParams, locked: set<TaskId>, now: Time)
    requires p.hardCapMode
    ensures |WorkerInFlight(ClaimBatch(t, p, locked, now), p.worker, now)|
         <= Max(|WorkerInFlight(t, p.worker, now)|, p.processes)
  {
    var before, after := WorkerInFlight(t, p.worker, now), WorkerInFlight(ClaimBatch(t, p, locked, now), p.worker, now);
    var picked := Picked(t, p, locked, now);
    PickedAreClaimable(t, p, locked, now);
    NewlyMine(t, p, locked, now);
    GlobalBudget(t, p, now);
    SubsetSize(after, before + picked);
    UnionSize(before, picked);
  }

  lemma WorkerHalves(t: Tables, worker: WorkerId, now: Time)
    ensures WorkerInFlight(t, worker, now) == WorkerClaimed(t, worker, now) + WorkerRunning(t, worker, now)
  {}

  lemma NewlyClaimed(t: Tables, p: ClaimParams, locked: set<TaskId>, now: Time)
    ensures WorkerClaimed(ClaimBatch(t, p, locked, now), p.worker, now)
         <= WorkerClaimed(t, p.worker, now) + Picked(t, p, locked, now)
  {
    var u := ClaimBatch(t, p, locked, now);
    forall id | id in WorkerClaimed(u, p.worker, now) && id !in Picked(t, p, locked, now)
      ensures id in WorkerClaimed(t, p.worker, now)
    {
      assert u.tasks[id] == t.tasks[id];
    }
  }

  lemma ClaimLimitBudget(t: Tables, p: ClaimParams, now: Time)
    ensures Budget(t, p, now) <= Max(0, MaxClaimed(p) - |WorkerClaimed(t, p.worker, now)|)
  {}

  lemma MaxClaimedKept(t: Tables, p: ClaimParams, locked: set<TaskId>, now: Time)
    ensures |WorkerClaimed(ClaimBatch(t, p, locked, now), p.worker, now)|
         <= Max(|WorkerClaimed(t, p.worker, now)|, MaxClaimed(p))
  {
    var before, after := WorkerClaimed(t, p.worker, now), WorkerClaimed(ClaimBatch(t, p, locked, now), p.worker, now);
    var picked := Picked(t, p, locked, now);
    PickedAreClaimable(t, p, locked, now);
    NewlyClaimed(t, p, locked, now);
    ClaimLimitBudget(t, p, now);
    SubsetSize(after, before + picked);
    UnionSize(before, picked);
  }

  lemma MaxClaimedMeans(p: ClaimParams)
    ensures MaxClaimed(p) <= if p.maxClaimPerWorker > 0 then p.maxClaimPerWorker else p.processes + p.prefetchBuffer
  {}

  /** In either mode a pass never takes a worker's claimed rows past its claim limit. */
  lemma ClaimLimitKept(t: Tables, p: ClaimParams, locked: set<TaskId>, now: Time)
    ensures |WorkerClaimed(ClaimBatch(t, p, locked, now), p.worker, now)|
         <= Max(|WorkerClaimed(t, p.worker, now)|,
                if p.maxClaimPerWorker > 0 then p.maxClaimPerWorker else p.processes + p.prefetchBuffer)
  {
    MaxClaimedKept(t, p, locked, now);
    MaxClaimedMeans(p);
  }

  lemma SoftBudget(t: Tables, p: ClaimParams, now: Time)
    requires !p.hardCapMode
    ensures Budget(t, p, now)
         <= Max(0, p.processes + p.prefetchBuffer - |WorkerRunning(t, p.worker, now)| - |WorkerClaimed(t, p.worker, now)|)
  {}

  /** In soft mode a pass fills its worker at most up to its processes and its prefetch buffer. */
  lemma SoftWorkerCapKept(t: Tables, p: ClaimParams, locked: set<TaskId>, now: Time)
    requires !p.hardCapMode
    ensures |WorkerInFlight(ClaimBatch(t, p, locked, now), p.worker, now)|
         <= Max(|WorkerInFlight(t, p.worker, now)|, p.processes + p.prefetchBuffer)
  {
    var before, after := WorkerInFlight(t, p.worker, now), WorkerInFlight(ClaimBatch(t, p, locked, now), p.worker, now);
    var picked := Picked(t, p, locked, now);
    PickedAreClaimable(t, p, locked, now);
    NewlyMine(t, p, locked, now);
    SubsetSize(after, before + picked);
    UnionSize(before, picked);
    WorkerHalves(t, p.worker, now);
    SoftBudget(t, p, now);
    UnionSize(WorkerClaimed(t, p.worker, now), WorkerRunning(t, p.worker, now));
  }

  // ---- no idle capacity ----

  lemma WindowFilled(t: Tables, p: ClaimParams, q: Queue, locked: set<TaskId>, now: Time, passed: TaskId)
    requires Budget(t, p, now) > 0 && q in p.queues && Candidates(t, p, locked, now) <= FirstN(Candidates(t, p, locked, now), Budget(t, p, now))
    requires passed in t.tasks && passed !in locked && t.tasks[passed].queue == q && Claimable(t.tasks[passed], now)
    requires passed !in Picked(t, p, locked, now)
    ensures |PickedIn(t, p, q, locked, now)| >= QueueLimit(t, p, q, Budget(t, p, now), now)
  {
    var limit := QueueLimit(t, p, q, Budget(t, p, now), now);
    var all, x := ClaimableRanks(t, q, PriorityOf(p, q), locked, now), RankIn(t, p, passed);
    var window := FirstN(all, limit);
    SecondWindowIsRedundant(t, p, q, locked, now);
    assert x in all && x.id == passed;
    assert window <= Candidates(t, p, locked, now);
    assert x !in window;
    SubsetSize(Before(all, x), all);
    FirstNSize(all, limit);
    OneIdEach(window);
    assert IdsOf(window) <= PickedIn(t, p, q, locked, now);
    SubsetSize(IdsOf(window), PickedIn(t, p, q, locked, now));
  }

  lemma BudgetOrWindow(t: Tables, p: ClaimParams, locked: set<TaskId>, now: Time, passed: TaskId)
    requires passed in t.tasks && passed !in locked && t.tasks[passed].queue in p.queues && Claimable(t.tasks[passed], now)
    requires passed !in Picked(t, p, locked, now)
    ensures var q, total := t.tasks[passed].queue, Budget(t, p, now);
      |Picked(t, p, locked, now)| >= total || |PickedIn(t, p, q, locked, now)| >= QueueLimit(t, p, q, total, now)
  {
    var c, total := Candidates(t, p, locked, now), Budget(t, p, now);
    if total > 0 {
      PassUsesItsBudget(t, p, locked, now);
      if |c| < total {
        LimitNotReached(c, total);
        WindowFilled(t, p, t.tasks[passed].queue, locked, now, passed);
      }
    }
  }

  lemma LimitReached(t: Tables, p: ClaimParams, q: Queue, now: Time, taken: nat, takenHere: nat)
    requires taken >= Budget(t, p, now) || takenHere >= QueueLimit(t, p, q, Budget(t, p, now), now)
    requires takenHere <= taken
    ensures (p.clusterWideCap.Some? && |InFlight(t, now)| + taken >= Clamp(p.clusterWideCap.value))
      || |WorkerInFlight(t, p.worker, now)| + taken >= Clamp(p.processes) + (if p.hardCapMode then 0 else Clamp(p.prefetchBuffer))
      || |WorkerClaimed(t, p.worker, now)| + taken >= MaxClaimed(p)
      || (q in p.queueMaxConcurrency
          && |QueueCounted(t, q, p.hardCapMode, now)| + takenHere >= Clamp(p.queueMaxConcurrency[q]))
      || (p.maxClaimBatch > 0 && takenHere >= Clamp(p.maxClaimBatch))
      || taken >= I32_MAX
  {
    WorkerHalves(t, p.worker, now);
    UnionSize(WorkerClaimed(t, p.worker, now), WorkerRunning(t, p.worker, now));
    assert WorkerClaimed(t, p.worker, now) !! WorkerRunning(t, p.worker, now);
  }

  /**
   * A pass leaves a due, unlocked row of a serviced queue only when a limit is reached: with the rows it has taken,
   * the cluster cap, the worker's processes (with its prefetch buffer in soft mode), its claim limit, the queue's
   * max_concurrency or the batch size is used up. The configured numbers are clamped to 2^31 - 1.
   */
  lemma NoIdleCapacity(t: Tables, p: ClaimParams, locked: set<TaskId>, now: Time, passed: TaskId)
    requires passed in t.tasks && passed !in locked && t.tasks[passed].queue in p.queues
    requires var r := t.tasks[passed];
      (r.status == Pending || (r.status == Claimed && r.claimExpiresAt.Some? && r.claimExpiresAt.value < now))
      && r.enqueuedAt <= now && (r.nextRetryAt.None? || r.nextRetryAt.value <= now)
      && (r.goodUntil.None? || r.goodUntil.value > now)
    requires passed !in Picked(t, p, locked, now)
    ensures var q, most := t.tasks[passed].queue, 0x7FFF_FFFF;
      var taken, takenHere := |Picked(t, p, locked, now)|, |PickedIn(t, p, q, locked, now)|;
      (p.clusterWideCap.Some? && |InFlight(t, now)| + taken >= Min(p.clusterWideCap.value, most))
      || |WorkerInFlight(t, p.worker, now)| + taken
           >= Min(p.processes, most) + (if p.hardCapMode then 0 else Min(p.prefetchBuffer, most))
      || |WorkerClaimed(t, p.worker, now)| + taken
           >= (if p.maxClaimPerWorker > 0 then Min(p.maxClaimPerWorker, most)
               else Min(p.processes, most) + Min(p.prefetchBuffer, most))
      || (q in p.queueMaxConcurrency
          && |QueueCounted(t, q, p.hardCapMode, now)| + takenHere >= Min(p.queueMaxConcurrency[q], most))
      || (p.maxClaimBatch > 0 && takenHere >= Min(p.maxClaimBatch, most))
      || taken >= most
  {
    var q := t.tasks[passed].queue;
    BudgetOrWindow(t, p, locked, now, passed);
    assert PickedIn(t, p, q, locked, now) <= Picked(t, p, locked, now);
    SubsetSize(PickedIn(t, p, q, locked, now), Picked(t, p, locked, now));
    LimitReached(t, p, q, now, |Picked(t, p, locked, now)|, |PickedIn(t, p, q, locked, now)|);
  }

  /** What those counts count, on the rows' columns. */
  lemma CountedOnColumns(t: Tables, worker: WorkerId, q: Queue, hard: bool, now: Time, id: TaskId)
    ensures id in InFlight(t, now) <==>
      id in t.tasks && t.tasks[id].status != Pending
      && (t.tasks[id].status == Running || t.tasks[id].claimExpiresAt.None? || t.tasks[id].claimExpiresAt.value > now)
    ensures id in WorkerInFlight(t, worker, now) <==> id in InFlight(t, now) && t.tasks[id].claimedBy == Some(worker)
    ensures id in WorkerClaimed(t, worker, now) <==> id in WorkerInFlight(t, worker, now) && t.tasks[id].status == Claimed
    ensures id in QueueCounted(t, q, hard, now) <==>
      id in InFlight(t, now) && t.tasks[id].queue == q && (!hard ==> t.tasks[id].status == Running)
  {
    if id in t.tasks {
      match t.tasks[id].status
      case Pending => case Claimed => case Running =>
    }
  }

  // ---- the cap is not safe against every renewal ----

  const SLOW := "slow"
  const FAST := "fast"

  function OneSlot(worker: WorkerId): ClaimParams {
    ClaimParams(worker, {"q"}, map[], map[], true, 8, 0, 0, 0, Some(1), Some(60000))
  }

  /** Two tasks, a lease that runs out at 60003, a second claim at 60004, and the first worker's late heartbeat. */
  const LATE_HEARTBEAT := [
    Event(OpEnqueue(1, "q", 100, None, None, None), 1),
    Event(OpClaimBatch(OneSlot(SLOW), {}), 3),
    Event(OpEnqueue(2, "q", 50, None, None, None), 5),
    Event(OpClaimBatch(OneSlot(FAST), {}), 60004),
    Event(OpRenew(SLOW, 120005, 180000), 60005),
    Event(OpSetRunning(1, SLOW, Some(3)), 60006),
    Event(OpSetRunning(2, FAST, Some(60004)), 60007)]

  const NO_TABLES := Tables(map[], map[], map[], map[], map[])

  function Held(q: Queue, priority: int, at: Time, worker: WorkerId, claimedAt: Time, lease: Time): Row {
    Row(q, priority, at, None, None, 0, false, Claimed, Some(claimedAt), Some(worker), Some(lease), None)
  }

  /** A pass over one claimable row of a one-slot cluster takes that row. */
  lemma OneSlotTakes(t: Tables, worker: WorkerId, id: TaskId, now: Time)
    requires InFlight(t, now) == {}
    requires id in t.tasks && t.tasks[id].queue == "q" && PendingArm(t.tasks[id], now)
    requires forall x :: x in t.tasks && x != id && t.tasks[x].queue == "q" && Claimable(t.tasks[x], now) ==>
               Less(RankOf(100, id, t.tasks[id]), RankOf(100, x, t.tasks[x]))
    ensures Picked(t, OneSlot(worker), {}, now) == {id}
  {
    var p := OneSlot(worker);
    assert WorkerClaimed(t, worker, now) == {} && WorkerInFlight(t, worker, now) == {};
    assert Budget(t, p, now) == 1;
    assert QueueLimit(t, p, "q", 1, now) == 1;
    var all := ClaimableRanks(t, "q", 100, {}, now);
    var best := RankOf(100, id, t.tasks[id]);
    SecondWindowIsRedundant(t, p, "q", {}, now);
    assert best in all && Before(all, best) == {};
    FirstNSize(all, 1);
    assert all != {} && best in FirstN(all, 1);
    assert FirstN(all, 1) == {best} by { SubsetSize({best}, FirstN(all, 1)); }
    assert Candidates(t, p, {}, now) == {best};
    LimitNotReached({best}, 1);
    assert IdsOf({best}) == {best.id};
  }

  const FIRST := Held("q", 100, 1, SLOW, 3, 60003)
  const SECOND := Held("q", 50, 5, FAST, 60004, 120004)

  lemma FirstClaim(t: Tables)
    requires t.tasks == map[1 := FreshRow("q", 100, 1, None, false)]
    ensures ClaimBatch(t, OneSlot(SLOW), {}, 3).tasks == map[1 := FIRST]
  {
    OneSlotTakes(t, SLOW, 1, 3);
  }

  lemma FirstHasLapsed(t: Tables)
    requires t.tasks == map[1 := FIRST, 2 := FreshRow("q", 50, 5, None, false)]
    ensures InFlight(t, 60004) == {} && PendingArm(t.tasks[2], 60004)
    ensures Less(RankOf(100, 2, t.tasks[2]), RankOf(100, 1, t.tasks[1]))
  {}

  lemma MarkSecond(t: Tables)
    requires t.tasks == map[1 := FIRST, 2 := FreshRow("q", 50, 5, None, false)]
    ensures MarkClaimed(t, {2}, FAST, Some(120004), 60004).tasks == map[1 := FIRST, 2 := SECOND]
  {}

  lemma SecondClaim(t: Tables)
    requires t.tasks == map[1 := FIRST, 2 := FreshRow("q", 50, 5, None, false)]
    ensures ClaimBatch(t, OneSlot(FAST), {}, 60004).tasks == map[1 := FIRST, 2 := SECOND]
  {
    FirstHasLapsed(t);
    OneSlotTakes(t, FAST, 2, 60004);
    MarkSecond(t);
  }

  lemma LateRenewal(t: Tables)
    requires t.tasks == map[1 := FIRST, 2 := SECOND]
    ensures RenewLeases(t, SLOW, 120005, 180000, 60005).tasks
         == map[1 := FIRST.(claimExpiresAt := Some(120005)), 2 := SECOND]
  {
    assert SLOW[0] != FAST[0];
  }

  lemma BothStart(t: Tables)
    requires t.tasks == map[1 := FIRST.(claimExpiresAt := Some(120005)), 2 := SECOND] && t.nodes == map[]
    ensures var one := SetRunning(t, 1, SLOW, Some(3), 60006);
      var both := SetRunning(one, 2, FAST, Some(60004), 60007);
      both.tasks.Keys == {1, 2} && both.tasks[1].status == Running && both.tasks[2].status == Running
  {}

  function AfterRenewal(): Tables {
    var t := ClaimBatch(Enqueue(NO_TABLES, 1, "q", 100, None, None, None, 1), OneSlot(SLOW), {}, 3);
    RenewLeases(ClaimBatch(Enqueue(t, 2, "q", 50, None, None, None, 5), OneSlot(FAST), {}, 60004),
                SLOW, 120005, 180000, 60005)
  }

  lemma RenewalTrace()
    ensures AfterRenewal().tasks == map[1 := FIRST.(claimExpiresAt := Some(120005)), 2 := SECOND]
    ensures AfterRenewal().nodes == map[]
  {
    var t := Enqueue(NO_TABLES, 1, "q", 100, None, None, None, 1);
    FirstClaim(t);
    var u := Enqueue(ClaimBatch(t, OneSlot(SLOW), {}, 3), 2, "q", 50, None, None, None, 5);
    assert u.tasks == map[1 := FIRST, 2 := FreshRow("q", 50, 5, None, false)];
    SecondClaim(u);
    LateRenewal(ClaimBatch(u, OneSlot(FAST), {}, 60004));
  }

  lemma SevenSteps(t: Tables, es: seq<Event>)
    requires |es| == 7
    ensures Run(t, es) ==
      Apply(Apply(Apply(Apply(Apply(Apply(Apply(t, es[0].op, es[0].now), es[1].op, es[1].now), es[2].op, es[2].now),
        es[3].op, es[3].now), es[4].op, es[4].now), es[5].op, es[5].now), es[6].op, es[6].now)
  {
    forall k | 0 <= k < 7 { RunStep(t, es, k); }
    assert es[..7] == es;
    assert Run(t, es[..0]) == t;
  }

  function AfterStarts(): Tables {
    SetRunning(SetRunning(AfterRenewal(), 1, SLOW, Some(3), 60006), 2, FAST, Some(60004), 60007)
  }

  lemma SlowClaims(t: Tables)
    ensures Apply(Apply(t, LATE_HEARTBEAT[0].op, 1), LATE_HEARTBEAT[1].op, 3)
         == ClaimBatch(Enqueue(t, 1, "q", 100, None, None, None, 1), OneSlot(SLOW), {}, 3)
  {}

  lemma FastClaims(t: Tables)
    ensures Apply(Apply(t, LATE_HEARTBEAT[2].op, 5), LATE_HEARTBEAT[3].op, 60004)
         == ClaimBatch(Enqueue(t, 2, "q", 50, None, None, None, 5), OneSlot(FAST), {}, 60004)
  {}

  lemma SlowRenews(t: Tables)
    ensures Apply(t, LATE_HEARTBEAT[4].op, 60005) == RenewLeases(t, SLOW, 120005, 180000, 60005)
  {}

  lemma LastStarts(t: Tables)
    ensures Apply(Apply(t, LATE_HEARTBEAT[5].op, 60006), LATE_HEARTBEAT[6].op, 60007)
         == SetRunning(SetRunning(t, 1, SLOW, Some(3), 60006), 2, FAST, Some(60004), 60007)
  {}

  lemma LateHeartbeatRun()
    ensures Run(NO_TABLES, LATE_HEARTBEAT) == AfterStarts()
  {
    SevenSteps(NO_TABLES, LATE_HEARTBEAT);
    var slow := ClaimBatch(Enqueue(NO_TABLES, 1, "q", 100, None, None, None, 1), OneSlot(SLOW), {}, 3);
    SlowClaims(NO_TABLES);
    FastClaims(slow);
    SlowRenews(ClaimBatch(Enqueue(slow, 2, "q", 50, None, None, None, 5), OneSlot(FAST), {}, 60004));
    LastStarts(AfterRenewal());
  }

  lemma LateHeartbeatIsLegal()
    ensures Ordered(LATE_HEARTBEAT, 0) && CappedClaims(LATE_HEARTBEAT, 1)
    ensures InFlight(NO_TABLES, 0) == {}
  {}

  /** With a cap of one, a late heartbeat ends with two tasks RUNNING: no claim broke a rule. */
  lemma RenewalBreaksTheCap()
    ensures Ordered(LATE_HEARTBEAT, 0) && CappedClaims(LATE_HEARTBEAT, 1)
    ensures InFlight(NO_TABLES, 0) == {}
    ensures var end := Run(NO_TABLES, LATE_HEARTBEAT);
      end.tasks.Keys == {1, 2} && end.tasks[1].status == Running && end.tasks[2].status == Running
    ensures !CapHolds(NO_TABLES, LATE_HEARTBEAT, 1)
  {
    RenewalTrace();
    BothStart(AfterRenewal());
    LateHeartbeatRun();
    LateHeartbeatIsLegal();
    TwoRunningIsOverOne(LATE_HEARTBEAT);
  }

  lemma TwoRunningIsOverOne(es: seq<Event>)
    requires es != []
    requires Run(NO_TABLES, es).tasks.Keys == {1, 2}
    requires forall id :: id in {1, 2} ==> Run(NO_TABLES, es).tasks[id].status == Running
    ensures !CapHolds(NO_TABLES, es, 1)
  {
    assert es[..|es|] == es;
    assert InFlight(Run(NO_TABLES, es), es[|es| - 1].now) == {1, 2};
    assert |{1, 2}| == 2;
    assert !CapAt(NO_TABLES, es, 1, |es|);
  }
}
