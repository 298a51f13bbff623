/** Idempotent enqueue: the task insert, the key reservation table, and what a terminal move does to both. */
module Enqueue {
  import opened Prelude

  type TaskId = nat
  type Time = int
  type Digest = nat        // SHA-256 of an idempotency key under its scope
  type Fingerprint = nat   // SHA-256 of the command
  type Sha = string

  const FINGERPRINT_VERSION := 1
  const SENT_AT_SLACK := 5000

  datatype LiveTask = LiveTask(sha: Sha, version: Option<int>, fingerprint: Option<Fingerprint>, key: Option<Digest>)

  datatype Disposition = Live | Terminal(expiresAt: Time)

  datatype Reservation =
    Reservation(version: int, fingerprint: Fingerprint, taskId: TaskId, disposition: Disposition, window: Time)

  datatype Store = Store(tasks: map<TaskId, LiveTask>, reservations: map<Digest, Reservation>, history: set<TaskId>)

  datatype Send = Send(id: TaskId, sha: Sha, fingerprint: Fingerprint, key: Option<Digest>, window: Time,
                       sentAt: Option<Time>, enqueuedAt: Option<Time>, delay: Option<int>)

  datatype EnqueueError =
    | EnqueueContract
    | IdempotencyKeyConflict(holder: TaskId)
    | PayloadMismatch(id: TaskId)
    | EnqueueConflictUnverifiable(id: TaskId)

  datatype ReservationClaim = Applied | Replay(holder: TaskId) | Conflict(holder: TaskId)

  /** The outcome of the insert transaction; a used id without a key is verified by a later read. */
  datatype TxOutcome = Inserted | Bound | Answered(r: Result<TaskId, EnqueueError>) | VerifyLater

  /** A LIVE reservation, or a TERMINAL one still inside its window. */
  predicate Blocking(s: Store, d: Digest, now: Time) {
    d in s.reservations && (s.reservations[d].disposition.Live? || s.reservations[d].disposition.expiresAt > now)
  }

  function ClaimKey(s: Store, d: Digest, f: Fingerprint, id: TaskId, window: Time, now: Time): (Store, ReservationClaim) {
    if Blocking(s, d, now) then
      var r := s.reservations[d];
      (s, if r.fingerprint == f && r.version == FINGERPRINT_VERSION then Replay(r.taskId) else Conflict(r.taskId))
    else (s.(reservations := s.reservations[d := Reservation(FINGERPRINT_VERSION, f, id, Live, window)]), Applied)
  }

  predicate BreaksContract(m: Send, now: Time) {
    (m.enqueuedAt.Some? && m.delay.Some?)
    || (m.sentAt.Some? && m.sentAt.value > now + SENT_AT_SLACK && m.enqueuedAt.None? && m.delay.None?)
  }

  /** The used-id path of a keyed enqueue, inside the transaction that already holds the reservation. */
  function BindKey(s: Store, m: Send, gone: bool): TxOutcome
    requires m.id in s.tasks && m.key.Some?
  {
    var row := s.tasks[m.id];
    if gone then Answered(Err(EnqueueConflictUnverifiable(m.id)))
    else if row.sha != m.sha || row.version != Some(FINGERPRINT_VERSION) || row.fingerprint != Some(m.fingerprint) then
      Answered(Err(PayloadMismatch(m.id)))
    else if row.key.Some? && row.key != m.key then Answered(Err(IdempotencyKeyConflict(m.id)))
    else Bound
  }

  /** `gone`: a concurrent move took the conflicting row before it could be locked. */
  function EnqueueTx(s: Store, m: Send, gone: bool, now: Time): (Store, TxOutcome) {
    if BreaksContract(m, now) then (s, Answered(Err(EnqueueContract)))
    else
      var (reserved, claim) := if m.key.Some? then ClaimKey(s, m.key.value, m.fingerprint, m.id, m.window, now) else (s, Applied);
      match claim
      case Replay(holder) => (s, Answered(Ok(holder)))
      case Conflict(holder) => (s, Answered(Err(IdempotencyKeyConflict(holder))))
      case Applied =>
        if m.id !in s.tasks then
          (reserved.(tasks := s.tasks[m.id := LiveTask(m.sha, Some(FINGERPRINT_VERSION), Some(m.fingerprint), m.key)]), Inserted)
        else if m.key.None? then (s, VerifyLater)
        else
          var o := BindKey(s, m, gone);
          if o.Bound? then (reserved.(tasks := s.tasks[m.id := s.tasks[m.id].(key := m.key)]), o) else (s, o)
  }

  function ClassifyConflict(stored: Option<Sha>, m: Send): Result<TaskId, EnqueueError> {
    match stored
    case None => Err(EnqueueConflictUnverifiable(m.id))
    case Some(sha) => if sha == m.sha then Ok(m.id) else Err(PayloadMismatch(m.id))
  }

  function StoredSha(s: Store, id: TaskId): Option<Sha> {
    if id in s.tasks then Some(s.tasks[id].sha) else None
  }

  /** What the caller is told: `later` is the store at the verifying read. */
  function Answer(o: TxOutcome, m: Send, later: Store): Result<TaskId, EnqueueError> {
    match o
    case Inserted => Ok(m.id)
    case Bound => Ok(m.id)
    case Answered(r) => r
    case VerifyLater => ClassifyConflict(StoredSha(later, m.id), m)
  }

  /** The move to history ends the row and starts the window of the reservation that names it. */
  function MoveToHistory(s: Store, id: TaskId, now: Time): Store {
    if id !in s.tasks || id in s.history then s
    else
      var key := s.tasks[id].key;
      var rs := if key.Some? && key.value in s.reservations && s.reservations[key.value].taskId == id
                   && s.reservations[key.value].disposition.Live?
                then s.reservations[key.value := s.reservations[key.value]
                       .(disposition := Terminal(now + s.reservations[key.value].window))]
                else s.reservations;
      Store(s.tasks - {id}, rs, s.history + {id})
  }

  predicate ExpiredReservation(s: Store, d: Digest, now: Time) {
    d in s.reservations && s.reservations[d].disposition.Terminal? && s.reservations[d].disposition.expiresAt <= now
  }

  /** Any batch of expired TERMINAL reservations. */
  function Cleanup(s: Store, batch: set<Digest>, now: Time): Store {
    s.(reservations := map d | d in s.reservations && !(d in batch && ExpiredReservation(s, d, now)) :: s.reservations[d])
  }

  datatype Op = OpEnqueue(m: Send, gone: bool) | OpMove(id: TaskId) | OpCleanup(batch: set<Digest>) | OpPrune(ids: set<TaskId>)

  function Apply(s: Store, op: Op, now: Time): Store {
    match op
    case OpEnqueue(m, gone) => EnqueueTx(s, m, gone, now).0
    case OpMove(id) => MoveToHistory(s, id, now)
    case OpCleanup(batch) => Cleanup(s, batch, now)
    case OpPrune(ids) => s.(history := s.history - ids)
  }

  datatype Event = Event(op: Op, now: Time)

  predicate Ordered(es: seq<Event>) {
    forall i, j :: 0 <= i < j < |es| ==> es[i].now < es[j].now
  }

  function Run(s: Store, es: seq<Event>): Store {
    if es == [] then s else Apply(Run(s, es[..|es| - 1]), es[|es| - 1].op, es[|es| - 1].now)
  }

  // ---- the broker's methods ----

  class EnqueueBroker {
    var tasks: map<TaskId, LiveTask>
    var reservations: map<Digest, Reservation>
    var history: set<TaskId>

    function State(): Store
      reads this
    {
      Store(tasks, reservations, history)
    }

    constructor (s: Store)
      ensures State() == s
    {
      tasks, reservations, history := s.tasks, s.reservations, s.history;
    }

    method ClaimKeyReservation(d: Digest, f: Fingerprint, id: TaskId, window: Time, now: Time) returns (c: ReservationClaim)
      modifies `reservations
      ensures (State(), c) == ClaimKey(old(State()), d, f, id, window, now)
    {
      if d in reservations {
        var r := reservations[d];
        if r.disposition.Live? || r.disposition.expiresAt > now {
          if r.fingerprint == f && r.version == FINGERPRINT_VERSION { return Replay(r.taskId); }
          return Conflict(r.taskId);
        }
      }
      reservations := reservations[d := Reservation(FINGERPRINT_VERSION, f, id, Live, window)];
      return Applied;
    }

    /** The used-id path: Ok commits the reservation with the binding; the caller rolls an error back. */
    method BindKeyAfterTaskIdConflict(m: Send, gone: bool) returns (r: Result<TaskId, EnqueueError>)
      requires m.id in tasks && m.key.Some?
      modifies `tasks
      ensures r == Answer(BindKey(old(State()), m, gone), m, old(State()))
      ensures tasks == if r.Ok? then old(tasks)[m.id := old(tasks)[m.id].(key := m.key)] else old(tasks)
    {
      if gone { return Err(EnqueueConflictUnverifiable(m.id)); }
      var row := tasks[m.id];
      if row.sha != m.sha || row.version != Some(FINGERPRINT_VERSION) || row.fingerprint != Some(m.fingerprint) {
        return Err(PayloadMismatch(m.id));
      }
      if row.key.Some? && row.key != m.key { return Err(IdempotencyKeyConflict(m.id)); }
      if row.key.None? { tasks := tasks[m.id := row.(key := m.key)]; }
      assert tasks == old(tasks)[m.id := row.(key := m.key)];
      return Ok(m.id);
    }

    /** Transactions of other sessions. */
    method Others(es: seq<Event>)
      modifies this
      ensures State() == Run(old(State()), es)
    {
      for i := 0 to |es|
        invariant State() == Run(old(State()), es[..i])
      {
        assert es[..i + 1][..i] == es[..i];
        var s := Apply(State(), es[i].op, es[i].now);
        tasks, reservations, history := s.tasks, s.reservations, s.history;
      }
      assert es[..|es|] == es;
    }

    /** `meanwhile` runs between the insert transaction's rollback and the verifying read. */
    method Enqueue(m: Send, gone: bool, now: Time, meanwhile: seq<Event>) returns (r: Result<TaskId, EnqueueError>)
      modifies this
      ensures var (s, o) := EnqueueTx(old(State()), m, gone, now);
        State() == (if o.VerifyLater? then Run(s, meanwhile) else s) && r == Answer(o, m, State())
    {
      if m.enqueuedAt.Some? && m.delay.Some? { return Err(EnqueueContract); }
      if m.sentAt.Some? && m.sentAt.value > now + SENT_AT_SLACK && m.enqueuedAt.None? && m.delay.None? {
        return Err(EnqueueContract);
      }
      var begun := State();
      if m.key.Some? {
        var c := ClaimKeyReservation(m.key.value, m.fingerprint, m.id, m.window, now);
        match c
        case Applied =>
        case Replay(holder) => { reservations := begun.reservations; return Ok(holder); }
        case Conflict(holder) => { reservations := begun.reservations; return Err(IdempotencyKeyConflict(holder)); }
      }
      if m.id !in tasks {
        tasks := tasks[m.id := LiveTask(m.sha, Some(FINGERPRINT_VERSION), Some(m.fingerprint), m.key)];
        return Ok(m.id);
      }
      if m.key.Some? {
        r := BindKeyAfterTaskIdConflict(m, gone);
        if r.Err? { reservations := begun.reservations; }
        return r;
      }
      Others(meanwhile);
      return ClassifyConflict(if m.id in tasks then Some(tasks[m.id].sha) else None, m);
    }
  }

  // ---- key binding ----

  /** A live task holds key digest d exactly when the LIVE reservation of d names it, for the same command. */
  predicate KeysAgree(s: Store) {
    (forall id :: id in s.tasks && s.tasks[id].key.Some? ==> HeldBy(s, s.tasks[id].key.value, id))
    && forall d :: d in s.reservations && s.reservations[d].disposition.Live? ==>
         HeldBy(s, d, s.reservations[d].taskId)
  }

  predicate HeldBy(s: Store, d: Digest, id: TaskId) {
    d in s.reservations && s.reservations[d].disposition.Live? && s.reservations[d].taskId == id
    && id in s.tasks && s.tasks[id].key == Some(d) && s.tasks[id].fingerprint == Some(s.reservations[d].fingerprint)
  }

  lemma EnqueueKeepsAgreement(s: Store, m: Send, gone: bool, now: Time)
    requires KeysAgree(s)
    ensures KeysAgree(EnqueueTx(s, m, gone, now).0)
  {
    var a := EnqueueTx(s, m, gone, now).0;
    forall id | id in a.tasks && a.tasks[id].key.Some? ensures HeldBy(a, a.tasks[id].key.value, id) {
      if id in s.tasks && s.tasks[id].key.Some? { assert HeldBy(s, s.tasks[id].key.value, id); }
    }
    forall d | d in a.reservations && a.reservations[d].disposition.Live? ensures HeldBy(a, d, a.reservations[d].taskId) {
      if d in s.reservations && s.reservations[d].disposition.Live? { assert HeldBy(s, d, s.reservations[d].taskId); }
    }
  }

  lemma MoveKeepsAgreement(s: Store, id: TaskId, now: Time)
    requires KeysAgree(s)
    ensures KeysAgree(MoveToHistory(s, id, now))
  {
    var a := MoveToHistory(s, id, now);
    forall x | x in a.tasks && a.tasks[x].key.Some? ensures HeldBy(a, a.tasks[x].key.value, x) {
      assert HeldBy(s, s.tasks[x].key.value, x);
    }
    forall d | d in a.reservations && a.reservations[d].disposition.Live? ensures HeldBy(a, d, a.reservations[d].taskId) {
      assert HeldBy(s, d, s.reservations[d].taskId);
    }
  }

  lemma CleanupKeepsAgreement(s: Store, batch: set<Digest>, now: Time)
    requires KeysAgree(s)
    ensures KeysAgree(Cleanup(s, batch, now))
  {
    var a := Cleanup(s, batch, now);
    forall x | x in a.tasks && a.tasks[x].key.Some? ensures HeldBy(a, a.tasks[x].key.value, x) {
      assert HeldBy(s, s.tasks[x].key.value, x);
    }
  }

  lemma KeysAgreeStep(s: Store, op: Op, now: Time)
    requires KeysAgree(s)
    ensures KeysAgree(Apply(s, op, now))
  {
    match op
    case OpEnqueue(m, gone) => EnqueueKeepsAgreement(s, m, gone, now);
    case OpMove(id) => MoveKeepsAgreement(s, id, now);
    case OpCleanup(batch) => CleanupKeepsAgreement(s, batch, now);
    case OpPrune(ids) => assert forall d :: d in s.reservations && s.reservations[d].disposition.Live? ==> HeldBy(s, d, s.reservations[d].taskId);
  }

  /** In every state reached from agreeing tables, a live task holds d iff the LIVE reservation of d names it. */
  lemma {:induction false} KeyBinding(s: Store, es: seq<Event>, id: TaskId, d: Digest)
    requires KeysAgree(s)
    ensures var a := Run(s, es);
      KeysAgree(a)
      && ((id in a.tasks && a.tasks[id].key == Some(d))
          <==> (d in a.reservations && a.reservations[d].disposition.Live? && a.reservations[d].taskId == id))
  {
    if es != [] {
      var front := es[..|es| - 1];
      KeyBinding(s, front, id, d);
      KeysAgreeStep(Run(s, front), es[|es| - 1].op, es[|es| - 1].now);
    }
    var a := Run(s, es);
    assert d in a.reservations && a.reservations[d].disposition.Live? ==> HeldBy(a, d, a.reservations[d].taskId);
  }

  /** No key ever has two live tasks. */
  lemma OneLiveTaskPerKey(s: Store, es: seq<Event>, x: TaskId, y: TaskId)
    requires KeysAgree(s)
    requires var a := Run(s, es); x in a.tasks && y in a.tasks && a.tasks[x].key.Some? && a.tasks[x].key == a.tasks[y].key
    ensures x == y
  {
    var a := Run(s, es);
    KeyBinding(s, es, x, a.tasks[x].key.value);
    KeyBinding(s, es, y, a.tasks[x].key.value);
  }

  /** The task is live in every state of the run from its i-th on. */
  predicate LiveFrom(s: Store, es: seq<Event>, i: nat, id: TaskId) {
    forall k :: i <= k <= |es| ==> id in Run(s, es[..k]).tasks
  }

  lemma LiveBefore(s: Store, front: seq<Event>, e: Event, i: nat, id: TaskId)
    requires LiveFrom(s, front + [e], i, id) && i <= |front|
    ensures LiveFrom(s, front, i, id) && id in Run(s, front).tasks && id in Run(s, front + [e]).tasks
  {
    var all := front + [e];
    assert all[..|all|] == all && all[..|front|] == front;
    forall k | i <= k <= |front| ensures id in Run(s, front[..k]).tasks { assert front[..k] == all[..k]; }
    assert front[..|front|] == front;
  }

  /** The same task: only an unset key may have been bound in between. */
  predicate SameIdentity(b: LiveTask, a: LiveTask) {
    a == b.(key := a.key) && (b.key.Some? ==> a.key == b.key)
  }

  lemma LiveRowStep(s: Store, op: Op, now: Time, id: TaskId)
    requires id in s.tasks && id in Apply(s, op, now).tasks
    ensures SameIdentity(s.tasks[id], Apply(s, op, now).tasks[id])
  {}

  /** While a task stays live its hash, fingerprint and bound key never change; an unset key may be bound once. */
  lemma {:induction false} BoundKeyNeverChanges(s: Store, es: seq<Event>, i: nat, id: TaskId)
    requires i <= |es| && LiveFrom(s, es, i, id)
    ensures id in Run(s, es[..i]).tasks && id in Run(s, es).tasks
    ensures SameIdentity(Run(s, es[..i]).tasks[id], Run(s, es).tasks[id])
    decreases |es|
  {
    assert es[..|es|] == es;
    if i < |es| {
      var front, e := es[..|es| - 1], es[|es| - 1];
      assert front + [e] == es;
      LiveBefore(s, front, e, i, id);
      BoundKeyNeverChanges(s, front, i, id);
      assert front[..i] == es[..i];
      LiveRowStep(Run(s, front), e.op, e.now, id);
    }
  }

  /** The tables change exactly when the task was inserted or its key newly bound; every refusal rolls back. */
  lemma RefusalsChangeNothing(s: Store, m: Send, gone: bool, now: Time)
    requires KeysAgree(s)
    ensures var (a, o) := EnqueueTx(s, m, gone, now);
      (a == s <==> o.Answered? || o.VerifyLater?)
      && (o.Inserted? ==> m.id !in s.tasks && a.tasks.Keys == s.tasks.Keys + {m.id})
      && (o.Bound? ==> m.id in s.tasks && s.tasks[m.id].key.None? && a.tasks.Keys == s.tasks.Keys)
  {
    var (a, o) := EnqueueTx(s, m, gone, now);
    if o.Inserted? { assert m.id in a.tasks; }
    if o.Bound? {
      assert s.tasks[m.id].key.Some? ==> HeldBy(s, s.tasks[m.id].key.value, m.id);
      assert a.tasks[m.id].key == m.key;
    }
  }

  /** Ok names the sent id, live with the sent payload, or the key's holder for the same command. */
  lemma OkNamesTheCommand(s: Store, m: Send, gone: bool, now: Time, meanwhile: seq<Event>)
    requires KeysAgree(s)
    requires var (a, o) := EnqueueTx(s, m, gone, now); Answer(o, m, Run(a, meanwhile)).Ok?
    ensures var (a, o) := EnqueueTx(s, m, gone, now);
      var later, x := Run(a, meanwhile), Answer(o, m, Run(a, meanwhile)).value;
      (x == m.id && ((m.id in a.tasks && a.tasks[m.id].sha == m.sha) || (m.id in later.tasks && later.tasks[m.id].sha == m.sha)))
      || (m.key.Some? && Blocking(s, m.key.value, now) && s.reservations[m.key.value].taskId == x
          && s.reservations[m.key.value].fingerprint == m.fingerprint
          && (x in s.tasks && s.tasks[x].key == m.key ==> s.tasks[x].fingerprint == Some(m.fingerprint)))
  {
    if m.key.Some? && Blocking(s, m.key.value, now) {
      var x := s.reservations[m.key.value].taskId;
      if x in s.tasks && s.tasks[x].key == m.key { assert HeldBy(s, m.key.value, x); }
    }
  }

  // ---- a key names one task until its window runs out ----

  predicate Names(s: Store, d: Digest, x: TaskId) {
    d in s.reservations && s.reservations[d].taskId == x
  }

  /** The i-th event moved x to the history: x was live before it and is not after it. */
  predicate EndedBy(s: Store, es: seq<Event>, i: int, x: TaskId) {
    0 <= i < |es| && x in Run(s, es[..i]).tasks && x !in Run(s, es[..i + 1]).tasks
  }

  /** The same task and window, for the same command. */
  predicate SameHold(a: Reservation, r: Reservation) {
    a.taskId == r.taskId && a.window == r.window && a.fingerprint == r.fingerprint && a.version == r.version
  }

  /** Held as r, LIVE, or TERMINAL with a window counted from the move of its task. */
  ghost predicate Held(s: Store, es: seq<Event>, d: Digest, r: Reservation) {
    var a := Run(s, es);
    d in a.reservations && SameHold(a.reservations[d], r)
    && (a.reservations[d].disposition.Live?
        || exists i :: EndedBy(s, es, i, r.taskId) && a.reservations[d].disposition == Terminal(es[i].now + r.window))
  }

  /** The window of x's move ran out at or before some later event. */
  ghost predicate WindowRanOut(s: Store, es: seq<Event>, x: TaskId, window: Time) {
    exists i, j :: EndedBy(s, es, i, x) && i < j < |es| && es[i].now + window <= es[j].now
  }

  lemma EndedStays(s: Store, front: seq<Event>, e: Event, i: int, x: TaskId)
    requires 0 <= i < |front|
    ensures EndedBy(s, front + [e], i, x) == EndedBy(s, front, i, x) && (front + [e])[i] == front[i]
  {
    assert (front + [e])[..i] == front[..i] && (front + [e])[..i + 1] == front[..i + 1];
  }

  lemma RunSnoc(s: Store, front: seq<Event>, e: Event)
    ensures Run(s, front + [e]) == Apply(Run(s, front), e.op, e.now)
  {
    assert (front + [e])[..|front|] == front;
  }

  /** While the reservation is LIVE only the move of its holder ends it, and it starts the window. */
  lemma LiveHolderStep(m: Store, op: Op, now: Time, d: Digest, x: TaskId)
    requires KeysAgree(m) && Names(m, d, x) && m.reservations[d].disposition.Live?
    ensures var a := Apply(m, op, now);
      d in a.reservations && SameHold(a.reservations[d], m.reservations[d])
      && (a.reservations[d].disposition.Live?
          || (a.reservations[d].disposition == Terminal(now + m.reservations[d].window) && x in m.tasks && x !in a.tasks))
  {
    assert HeldBy(m, d, m.reservations[d].taskId);
  }

  /** A TERMINAL reservation stays as it is until an event at or after its expiry. */
  lemma TerminalHolderStep(m: Store, op: Op, now: Time, d: Digest)
    requires d in m.reservations && m.reservations[d].disposition.Terminal?
    ensures var a := Apply(m, op, now);
      (d in a.reservations && a.reservations[d] == m.reservations[d]) || m.reservations[d].disposition.expiresAt <= now
  {}

  lemma LiveHeldStep(s: Store, front: seq<Event>, e: Event, d: Digest, r: Reservation)
    requires KeysAgree(Run(s, front)) && d in Run(s, front).reservations && SameHold(Run(s, front).reservations[d], r)
    requires Run(s, front).reservations[d].disposition.Live?
    ensures Held(s, front + [e], d, r)
  {
    var all := front + [e];
    RunSnoc(s, front, e);
    LiveHolderStep(Run(s, front), e.op, e.now, d, r.taskId);
    assert all[..|front|] == front && all[..|front| + 1] == all && all[|front|] == e;
    if !Run(s, all).reservations[d].disposition.Live? { assert EndedBy(s, all, |front|, r.taskId); }
  }

  lemma TerminalHeldStep(s: Store, front: seq<Event>, e: Event, d: Digest, r: Reservation, i: int)
    requires d in Run(s, front).reservations && SameHold(Run(s, front).reservations[d], r)
    requires EndedBy(s, front, i, r.taskId) && Run(s, front).reservations[d].disposition == Terminal(front[i].now + r.window)
    ensures Held(s, front + [e], d, r) || WindowRanOut(s, front + [e], r.taskId, r.window)
  {
    var all := front + [e];
    RunSnoc(s, front, e);
    EndedStays(s, front, e, i, r.taskId);
    TerminalHolderStep(Run(s, front), e.op, e.now, d);
    if all[i].now + r.window <= all[|front|].now { assert i < |front| < |all|; }
  }

  lemma HeldStep(s: Store, front: seq<Event>, e: Event, d: Digest, r: Reservation)
    requires KeysAgree(Run(s, front)) && Held(s, front, d, r)
    ensures Held(s, front + [e], d, r) || WindowRanOut(s, front + [e], r.taskId, r.window)
  {
    if Run(s, front).reservations[d].disposition.Live? {
      LiveHeldStep(s, front, e, d, r);
    } else {
      var i :| EndedBy(s, front, i, r.taskId)
        && Run(s, front).reservations[d].disposition == Terminal(front[i].now + r.window);
      TerminalHeldStep(s, front, e, d, r, i);
    }
  }

  lemma RanOutStays(s: Store, front: seq<Event>, e: Event, x: TaskId, window: Time)
    requires WindowRanOut(s, front, x, window)
    ensures WindowRanOut(s, front + [e], x, window)
  {
    var i, j :| EndedBy(s, front, i, x) && i < j < |front| && front[i].now + window <= front[j].now;
    EndedStays(s, front, e, i, x);
    assert (front + [e])[j] == front[j];
  }

  lemma {:induction false} HeldUntilTheWindowEnds(s: Store, es: seq<Event>, d: Digest, x: TaskId)
    requires KeysAgree(s) && Names(s, d, x) && s.reservations[d].disposition.Live?
    ensures Held(s, es, d, s.reservations[d]) || WindowRanOut(s, es, x, s.reservations[d].window)
  {
    var r := s.reservations[d];
    if es != [] {
      var front, e := es[..|es| - 1], es[|es| - 1];
      assert front + [e] == es;
      HeldUntilTheWindowEnds(s, front, d, x);
      if Held(s, front, d, r) {
        KeyBinding(s, front, x, d);
        HeldStep(s, front, e, d, r);
      } else {
        RanOutStays(s, front, e, x, r.window);
      }
    }
  }

  /**
   * Once key d belongs to task x, no enqueue under d changes a table before x has been moved to history and its
   * window has run out: the same command is answered with x, any other with a conflict that names x.
   */
  lemma KeyNamesOneTask(s: Store, es: seq<Event>, d: Digest, x: TaskId, m: Send, gone: bool, now: Time, later: Store)
    requires KeysAgree(s) && Names(s, d, x) && s.reservations[d].disposition.Live? && m.key == Some(d)
    requires !WindowRanOut(s, es, x, s.reservations[d].window)
    requires forall i :: EndedBy(s, es, i, x) ==> now < es[i].now + s.reservations[d].window
    ensures var (a, o) := EnqueueTx(Run(s, es), m, gone, now);
      a == Run(s, es)
      && Answer(o, m, later) == (if BreaksContract(m, now) then Err(EnqueueContract)
                                 else if m.fingerprint == s.reservations[d].fingerprint
                                         && s.reservations[d].version == FINGERPRINT_VERSION then Ok(x)
                                 else Err(IdempotencyKeyConflict(x)))
  {
    HeldUntilTheWindowEnds(s, es, d, x);
  }

  // ---- when a key is free ----

  /**
   * One enqueue inserts exactly when it names at most one of a due instant and a delay, was not sent more than five
   * seconds ahead of now without either, its id is not live, and its key is unset, unreserved or reserved by a task
   * whose window has run out. Then the row is the sent one and the key is its own. The history is not consulted.
   */
  lemma InsertsExactlyWhen(s: Store, m: Send, gone: bool, now: Time, later: Store)
    ensures var (a, o) := EnqueueTx(s, m, gone, now);
      var legal := (m.enqueuedAt.None? || m.delay.None?)
        && (m.sentAt.None? || m.sentAt.value <= now + 5000 || m.enqueuedAt.Some? || m.delay.Some?);
      var free := m.key.None? || m.key.value !in s.reservations
        || (s.reservations[m.key.value].disposition.Terminal? && s.reservations[m.key.value].disposition.expiresAt <= now);
      (o.Inserted? <==> legal && m.id !in s.tasks && free)
      && (o == Answered(Err(EnqueueContract)) <==> !legal)
      && (o.Inserted? ==>
            Answer(o, m, later) == Ok(m.id) && a.history == s.history
            && a.tasks == s.tasks[m.id := LiveTask(m.sha, Some(1), Some(m.fingerprint), m.key)]
            && a.reservations == if m.key.None? then s.reservations
                                 else s.reservations[m.key.value := Reservation(1, m.fingerprint, m.id, Live, m.window)])
  {}

  /**
   * A legal enqueue under a free key whose id is already live binds the key exactly when the row is still there, is
   * the same command by hash, version and fingerprint, and holds no other key; each refusal has its own condition.
   */
  lemma BindsExactlyWhen(s: Store, m: Send, gone: bool, now: Time)
    requires m.id in s.tasks && m.key.Some?
    requires m.enqueuedAt.None? || m.delay.None?
    requires m.sentAt.None? || m.sentAt.value <= now + 5000 || m.enqueuedAt.Some? || m.delay.Some?
    requires m.key.value in s.reservations ==>
      s.reservations[m.key.value].disposition.Terminal? && s.reservations[m.key.value].disposition.expiresAt <= now
    ensures var ((a, o), row) := (EnqueueTx(s, m, gone, now), s.tasks[m.id]);
      var same := row.sha == m.sha && row.version == Some(1) && row.fingerprint == Some(m.fingerprint);
      (o == Bound <==> !gone && same && row.key in {None, m.key})
      && (o == Answered(Err(EnqueueConflictUnverifiable(m.id))) <==> gone)
      && (o == Answered(Err(PayloadMismatch(m.id))) <==> !gone && !same)
      && (o == Answered(Err(IdempotencyKeyConflict(m.id))) <==> !gone && same && row.key !in {None, m.key})
      && (a == if o != Bound then s
               else Store(s.tasks[m.id := row.(key := m.key)],
                          s.reservations[m.key.value := Reservation(1, m.fingerprint, m.id, Live, m.window)], s.history))
  {}

  /** Without a key a used id is answered by what the later read finds under it, and no table changes. */
  lemma UsedIdIsVerified(s: Store, m: Send, gone: bool, now: Time, later: Store)
    requires m.id in s.tasks && m.key.None? && (m.enqueuedAt.None? || m.delay.None?)
    requires m.sentAt.None? || m.sentAt.value <= now + 5000 || m.enqueuedAt.Some? || m.delay.Some?
    ensures var (a, o) := EnqueueTx(s, m, gone, now);
      a == s
      && (Answer(o, m, later) == Ok(m.id) <==> m.id in later.tasks && later.tasks[m.id].sha == m.sha)
      && (Answer(o, m, later) == Err(PayloadMismatch(m.id)) <==> m.id in later.tasks && later.tasks[m.id].sha != m.sha)
      && (Answer(o, m, later) == Err(EnqueueConflictUnverifiable(m.id)) <==> m.id !in later.tasks)
  {}

  /** A cleanup removes exactly the rows of its batch whose window has run out, and a prune only history rows. */
  lemma HousekeepingIsExact(s: Store, batch: set<Digest>, ids: set<TaskId>, now: Time, d: Digest, id: TaskId)
    ensures var a := Apply(s, OpCleanup(batch), now);
      a.tasks == s.tasks && a.history == s.history
      && (d in a.reservations <==>
            d in s.reservations
            && !(d in batch && s.reservations[d].disposition.Terminal? && s.reservations[d].disposition.expiresAt <= now))
      && (d in a.reservations ==> a.reservations[d] == s.reservations[d])
    ensures var a := Apply(s, OpPrune(ids), now);
      a.tasks == s.tasks && a.reservations == s.reservations && (id in a.history <==> id in s.history && id !in ids)
  {}

  /** No enqueue of the run is under key d. */
  predicate KeyUnused(es: seq<Event>, d: Digest) {
    forall k :: 0 <= k < |es| && es[k].op.OpEnqueue? ==> es[k].op.m.key != Some(d)
  }

  /** An ended reservation stays as it is until a cleanup at or after its expiry takes it away. */
  lemma {:induction false} EndedReservation(s: Store, es: seq<Event>, d: Digest, expiry: Time, now: Time)
    requires d in s.reservations && s.reservations[d].disposition == Terminal(expiry)
    requires KeyUnused(es, d) && forall k :: 0 <= k < |es| ==> es[k].now <= now
    ensures var a := Run(s, es);
      if d in a.reservations then a.reservations[d].disposition == Terminal(expiry) else expiry <= now
  {
    if es != [] {
      var front, e := es[..|es| - 1], es[|es| - 1];
      assert forall k :: 0 <= k < |front| ==> front[k] == es[k];
      EndedReservation(s, front, d, expiry, now);
      assert e.op.OpEnqueue? ==> e.op.m.key != Some(d);
      UnusedKeyStep(Run(s, front), e.op, e.now, d);
    }
  }

  lemma UnusedKeyStep(s: Store, op: Op, now: Time, d: Digest)
    requires op.OpEnqueue? ==> op.m.key != Some(d)
    requires d in s.reservations ==> s.reservations[d].disposition.Terminal?
    ensures var a := Apply(s, op, now);
      (d in a.reservations ==> d in s.reservations && a.reservations[d] == s.reservations[d])
      && (d in s.reservations && d !in a.reservations ==> s.reservations[d].disposition.expiresAt <= now)
  {}

  /**
   * The move of a key's owner at time u keeps the key until u plus the reservation's window and no longer: a legal
   * enqueue of a new id under it inserts exactly from that instant on, whatever ran in between under other keys.
   */
  lemma KeyFreesAtTheWindowsEnd(s: Store, es: seq<Event>, d: Digest, x: TaskId, u: Time, m: Send, gone: bool, now: Time)
    requires KeysAgree(s) && x in s.tasks && s.tasks[x].key == Some(d) && x !in s.history
    requires KeyUnused(es, d) && forall k :: 0 <= k < |es| ==> es[k].now <= now
    requires m.key == Some(d) && (m.enqueuedAt.None? || m.delay.None?)
    requires m.sentAt.None? || m.sentAt.value <= now + 5000 || m.enqueuedAt.Some? || m.delay.Some?
    requires m.id !in Run(MoveToHistory(s, x, u), es).tasks
    ensures d in s.reservations
    ensures EnqueueTx(Run(MoveToHistory(s, x, u), es), m, gone, now).1.Inserted? <==> u + s.reservations[d].window <= now
  {
    assert HeldBy(s, d, x);
    var ended := MoveToHistory(s, x, u);
    EndedReservation(ended, es, d, u + s.reservations[d].window, now);
    InsertsExactlyWhen(Run(ended, es), m, gone, now, s);
  }
}
