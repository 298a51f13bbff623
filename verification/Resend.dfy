/** Sending with resends over a connection that may drop a request or lose its reply. */
module Resend {
  import opened Prelude
  import opened Enqueue

  const SEND_RETRY_COUNT := 3

  datatype SendErrorCode = EnqueueFailed | CodePayloadMismatch | ValidationFailed

  /** The stored payload of a failed send: what a later retry replays. */
  datatype Payload = Payload(taskName: string, m: Send)

  datatype SendError = SendError(code: SendErrorCode, retryable: bool, taskId: Option<TaskId>, payload: Option<Payload>)

  /** What became of one attempt; a lost reply hides whatever the enqueue did. */
  datatype Fate = NotReady(retryable: bool) | NotSent(retryable: bool) | ReplyLost(retryable: bool) | Delivered

  /** `others` and `meanwhile` are other sessions' transactions before and inside the attempt. */
  datatype Attempt = Attempt(others: seq<Event>, fate: Fate, gone: bool, now: Time, meanwhile: seq<Event>)

  function Failed(p: Payload, code: SendErrorCode, retryable: bool): SendError {
    SendError(code, retryable, Some(p.m.id), Some(p))
  }

  function Classify(p: Payload, e: EnqueueError): SendError {
    Failed(p, if e.PayloadMismatch? then CodePayloadMismatch else EnqueueFailed, false)
  }

  /** The transactions of one attempt, in order. */
  function AttemptTrace(s: Store, m: Send, a: Attempt): seq<Event> {
    if a.fate.NotReady? || a.fate.NotSent? then a.others
    else
      var sent := a.others + [Event(OpEnqueue(m, a.gone), a.now)];
      if EnqueueTx(Run(s, a.others), m, a.gone, a.now).1.VerifyLater? then sent + a.meanwhile else sent
  }

  function AttemptResult(s: Store, p: Payload, a: Attempt): Result<TaskId, SendError> {
    if !a.fate.Delivered? then Err(Failed(p, EnqueueFailed, a.fate.retryable))
    else
      var o := EnqueueTx(Run(s, a.others), p.m, a.gone, a.now).1;
      var r := Answer(o, p.m, Run(s, AttemptTrace(s, p.m, a)));
      if r.Ok? then Ok(r.value) else Err(Classify(p, r.error))
  }

  predicate Resends(a: Attempt, r: Result<TaskId, SendError>) {
    r.Err? && r.error.retryable && !a.fate.NotReady?
  }

  /** All transactions of a send with at most `left` attempts, and its answer. */
  function SendFrom(s: Store, p: Payload, script: seq<Attempt>, left: nat): (seq<Event>, Result<TaskId, SendError>)
    requires 1 <= left <= |script|
    decreases left
  {
    var tr, r := AttemptTrace(s, p.m, script[0]), AttemptResult(s, p, script[0]);
    if left == 1 || !Resends(script[0], r) then (tr, r)
    else
      var (rest, last) := SendFrom(Run(s, tr), p, script[1..], left - 1);
      (tr + rest, last)
  }

  function MaxAttempts(resend: bool): nat { if resend then 1 + SEND_RETRY_COUNT else 1 }

  lemma {:induction false} RunAppend(s: Store, a: seq<Event>, b: seq<Event>)
    ensures Run(s, a + b) == Run(Run(s, a), b)
  {
    if b == [] {
      assert a + b == a;
    } else {
      RunAppend(s, a, b[..|b| - 1]);
      assert (a + b)[..|a + b| - 1] == a + b[..|b| - 1];
    }
  }

  /**
   * What an attempt does and says: lost before it is sent, nothing but the failure; with its reply lost, whatever a
   * delivered one does, and the failure all the same. A delivered refusal is never worth a resend, and only a payload
   * mismatch has a code of its own.
   */
  lemma AttemptByFate(s: Store, p: Payload, a: Attempt)
    ensures a.fate.NotReady? || a.fate.NotSent? ==> AttemptTrace(s, p.m, a) == a.others
    ensures a.fate.ReplyLost? || a.fate.Delivered? ==>
      |AttemptTrace(s, p.m, a)| > |a.others| && AttemptTrace(s, p.m, a)[..|a.others|] == a.others
      && AttemptTrace(s, p.m, a)[|a.others|] == Event(OpEnqueue(p.m, a.gone), a.now)
    ensures a.fate.ReplyLost? ==> AttemptTrace(s, p.m, a) == AttemptTrace(s, p.m, a.(fate := Delivered))
    ensures !a.fate.Delivered? ==>
      AttemptResult(s, p, a) == Err(SendError(EnqueueFailed, a.fate.retryable, Some(p.m.id), Some(p)))
    ensures a.fate.Delivered? ==>
      var answer := Answer(EnqueueTx(Run(s, a.others), p.m, a.gone, a.now).1, p.m, Run(s, AttemptTrace(s, p.m, a)));
      match answer
      case Ok(x) => AttemptResult(s, p, a) == Ok(x)
      case Err(PayloadMismatch(_)) => AttemptResult(s, p, a) == Err(SendError(CodePayloadMismatch, false, Some(p.m.id), Some(p)))
      case Err(_) => AttemptResult(s, p, a) == Err(SendError(EnqueueFailed, false, Some(p.m.id), Some(p)))
  {
    var own := Event(OpEnqueue(p.m, a.gone), a.now);
    if a.fate.ReplyLost? || a.fate.Delivered? {
      assert (a.others + [own])[..|a.others|] == a.others;
      assert ((a.others + [own]) + a.meanwhile)[..|a.others|] == a.others;
    }
  }

  method OneAttempt(broker: EnqueueBroker, p: Payload, a: Attempt) returns (r: Result<TaskId, SendError>)
    modifies broker
    ensures broker.State() == Run(old(broker.State()), AttemptTrace(old(broker.State()), p.m, a))
    ensures r == AttemptResult(old(broker.State()), p, a)
  {
    ghost var s := broker.State();
    broker.Others(a.others);
    if a.fate.NotReady? || a.fate.NotSent? { return Err(Failed(p, EnqueueFailed, a.fate.retryable)); }
    ghost var sent := a.others + [Event(OpEnqueue(p.m, a.gone), a.now)];
    assert sent[..|a.others|] == a.others;
    RunAppend(s, sent, a.meanwhile);
    var answer := broker.Enqueue(p.m, a.gone, a.now, a.meanwhile);
    if a.fate.ReplyLost? { return Err(Failed(p, EnqueueFailed, a.fate.retryable)); }
    return if answer.Ok? then Ok(answer.value) else Err(Classify(p, answer.error));
  }

  /** After `attempt` attempts: `done` has run, and the rest of the send starts from `cur`. */
  ghost predicate OnTrack(s: Store, cur: Store, done: seq<Event>, p: Payload, script: seq<Attempt>, most: nat, attempt: nat) {
    attempt < most <= |script| && cur == Run(s, done)
    && SendFrom(s, p, script, most).0 == done + SendFrom(cur, p, script[attempt..], most - attempt).0
    && SendFrom(s, p, script, most).1 == SendFrom(cur, p, script[attempt..], most - attempt).1
  }

  lemma OnTrackAtStart(s: Store, p: Payload, script: seq<Attempt>, most: nat)
    requires 1 <= most <= |script|
    ensures OnTrack(s, s, [], p, script, most, 0)
  {
    assert script[0..] == script;
  }

  lemma SendUnfold(s: Store, p: Payload, script: seq<Attempt>, left: nat)
    requires 1 <= left <= |script|
    ensures var tr, r := AttemptTrace(s, p.m, script[0]), AttemptResult(s, p, script[0]);
      if left > 1 && Resends(script[0], r) then
        SendFrom(s, p, script, left).0 == tr + SendFrom(Run(s, tr), p, script[1..], left - 1).0
        && SendFrom(s, p, script, left).1 == SendFrom(Run(s, tr), p, script[1..], left - 1).1
      else SendFrom(s, p, script, left) == (tr, r)
  {}

  lemma TracesAppend(all: seq<Event>, done: seq<Event>, tr: seq<Event>, rest: seq<Event>, tail: seq<Event>)
    requires all == done + tail && tail == tr + rest
    ensures all == (done + tr) + rest
  {}

  lemma OneMoreAttempt(s: Store, cur: Store, done: seq<Event>, p: Payload, script: seq<Attempt>, most: nat, attempt: nat)
    requires OnTrack(s, cur, done, p, script, most, attempt)
    ensures var tr, r := AttemptTrace(cur, p.m, script[attempt]), AttemptResult(cur, p, script[attempt]);
      if attempt + 1 < most && Resends(script[attempt], r)
      then OnTrack(s, Run(cur, tr), done + tr, p, script, most, attempt + 1)
      else SendFrom(s, p, script, most) == (done + tr, r) && Run(s, done + tr) == Run(cur, tr)
  {
    var tr, tail := AttemptTrace(cur, p.m, script[attempt]), script[attempt..];
    assert tail[0] == script[attempt] && tail[1..] == script[attempt + 1..];
    RunAppend(s, done, tr);
    SendUnfold(cur, p, tail, most - attempt);
    if attempt + 1 < most && Resends(script[attempt], AttemptResult(cur, p, script[attempt])) {
      TracesAppend(SendFrom(s, p, script, most).0, done, tr,
                   SendFrom(Run(cur, tr), p, script[attempt + 1..], most - attempt - 1).0,
                   SendFrom(cur, p, tail, most - attempt).0);
    }
  }

  /** The send loop: resend on a retryable enqueue error, up to the attempt limit. */
  method EnqueueWithRetry(broker: EnqueueBroker, p: Payload, resend: bool, script: seq<Attempt>)
    returns (r: Result<TaskId, SendError>)
    requires |script| >= MaxAttempts(resend)
    modifies broker
    ensures var (trace, answer) := SendFrom(old(broker.State()), p, script, MaxAttempts(resend));
      broker.State() == Run(old(broker.State()), trace) && r == answer
  {
    var maxAttempts := if resend then 1 + SEND_RETRY_COUNT else 1;
    var lastErr: Option<SendError> := None;
    ghost var s, done := broker.State(), [];
    OnTrackAtStart(s, p, script, maxAttempts);
    var attempt := 0;
    while attempt < maxAttempts
      invariant 0 <= attempt < maxAttempts
      invariant OnTrack(s, broker.State(), done, p, script, maxAttempts, attempt)
      invariant attempt > 0 ==> lastErr.Some? && lastErr.value.retryable
    {
      OneMoreAttempt(s, broker.State(), done, p, script, maxAttempts, attempt);
      done := done + AttemptTrace(broker.State(), p.m, script[attempt]);
      r := OneAttempt(broker, p, script[attempt]);
      if r.Ok? || script[attempt].fate.NotReady? { return r; }
      if !r.error.retryable || attempt == maxAttempts - 1 { return r; }
      lastErr := Some(r.error);
      attempt := attempt + 1;
    }
  }

  // ---- retrying a failed send by hand ----

  datatype RetryKind = RetrySend | RetrySchedule

  function Invalid(): SendError { SendError(ValidationFailed, false, None, None) }

  function ValidateRetry(e: SendError, taskName: string, kind: RetryKind): Result<(TaskId, Payload), SendError> {
    if e.code != EnqueueFailed then Err(Invalid())
    else if e.taskId.None? then Err(Invalid())
    else if e.payload.None? then Err(Invalid())
    else if e.payload.value.taskName != taskName then Err(Invalid())
    else if kind == RetrySend && e.payload.value.m.delay.Some? then Err(Invalid())
    else if kind == RetrySchedule && e.payload.value.m.delay.None? then Err(Invalid())
    else Ok((e.taskId.value, e.payload.value))
  }

  /**
   * Every error of a send other than a payload mismatch can be replayed by its own task, through exactly
   * one of the two retries, and the replay carries the same id, hash, key and payload.
   */
  lemma {:induction false} FailedSendsReplayThemselves(s: Store, p: Payload, script: seq<Attempt>, left: nat, name: string, kind: RetryKind)
    requires 1 <= left <= |script|
    requires SendFrom(s, p, script, left).1.Err?
    ensures var e := SendFrom(s, p, script, left).1.error;
      ValidateRetry(e, name, kind) ==
        (if e.code == EnqueueFailed && name == p.taskName && (kind == RetrySchedule <==> p.m.delay.Some?)
         then Ok((p.m.id, p)) else Err(SendError(ValidationFailed, false, None, None)))
    decreases left
  {
    var tr, r := AttemptTrace(s, p.m, script[0]), AttemptResult(s, p, script[0]);
    if left > 1 && Resends(script[0], r) {
      FailedSendsReplayThemselves(Run(s, tr), p, script[1..], left - 1, name, kind);
    }
  }

  /** The store names x as the task of m: m's own id, live with the sent hash, or the owner of its key. */
  predicate NamesTaskOf(s: Store, m: Send, x: TaskId) {
    (x == m.id && x in s.tasks && s.tasks[x].sha == m.sha)
    || (m.key.Some? && Names(s, m.key.value, x) && s.reservations[m.key.value].fingerprint == m.fingerprint)
  }

  lemma TxOkNamesTheTask(s: Store, m: Send, gone: bool, now: Time)
    requires var o := EnqueueTx(s, m, gone, now).1; o.Inserted? || o.Bound? || (o.Answered? && o.r.Ok?)
    ensures var (a, o) := EnqueueTx(s, m, gone, now); NamesTaskOf(a, m, if o.Answered? then o.r.value else m.id)
  {}

  lemma LaterOkNamesTheTask(later: Store, m: Send)
    requires ClassifyConflict(StoredSha(later, m.id), m).Ok?
    ensures ClassifyConflict(StoredSha(later, m.id), m) == Ok(m.id) && NamesTaskOf(later, m, m.id)
  {}

  lemma SentTrace(s: Store, m: Send, a: Attempt)
    requires !a.fate.NotReady? && !a.fate.NotSent?
    ensures var (b, o) := EnqueueTx(Run(s, a.others), m, a.gone, a.now);
      Run(s, AttemptTrace(s, m, a)) == if o.VerifyLater? then Run(b, a.meanwhile) else b
  {
    var sent := a.others + [Event(OpEnqueue(m, a.gone), a.now)];
    RunSnoc(s, a.others, Event(OpEnqueue(m, a.gone), a.now));
    RunAppend(s, sent, a.meanwhile);
  }

  lemma AttemptOkNamesTheTask(s: Store, p: Payload, a: Attempt)
    requires AttemptResult(s, p, a).Ok?
    ensures NamesTaskOf(Run(s, AttemptTrace(s, p.m, a)), p.m, AttemptResult(s, p, a).value)
  {
    var mid, later := Run(s, a.others), Run(s, AttemptTrace(s, p.m, a));
    var o := EnqueueTx(mid, p.m, a.gone, a.now).1;
    SentTrace(s, p.m, a);
    if o.VerifyLater? { LaterOkNamesTheTask(later, p.m); } else { TxOkNamesTheTask(mid, p.m, a.gone, a.now); }
  }

  /** A send that answers Ok names its own task, live with the sent hash, or the owner of its key for the same command. */
  lemma {:induction false} SendOkNamesTheTask(s: Store, p: Payload, script: seq<Attempt>, left: nat)
    requires 1 <= left <= |script| && SendFrom(s, p, script, left).1.Ok?
    ensures NamesTaskOf(Run(s, SendFrom(s, p, script, left).0), p.m, SendFrom(s, p, script, left).1.value)
    decreases left
  {
    var tr, r := AttemptTrace(s, p.m, script[0]), AttemptResult(s, p, script[0]);
    if left == 1 || !Resends(script[0], r) {
      AttemptOkNamesTheTask(s, p, script[0]);
    } else {
      SendOkNamesTheTask(Run(s, tr), p, script[1..], left - 1);
      RunAppend(s, tr, SendFrom(Run(s, tr), p, script[1..], left - 1).0);
    }
  }

  // ---- what a committed send settles ----

  /** The live task is m's own: its hash and fingerprint, and for a keyed m the LIVE reservation of its key names it. */
  predicate Settled(s: Store, m: Send) {
    m.id in s.tasks && s.tasks[m.id].sha == m.sha
    && s.tasks[m.id].version == Some(FINGERPRINT_VERSION) && s.tasks[m.id].fingerprint == Some(m.fingerprint)
    && (m.key.Some? ==> HeldBy(s, m.key.value, m.id) && s.reservations[m.key.value].version == FINGERPRINT_VERSION)
  }

  /** The n-th event is a send of m, by whatever session, that inserted the task or bound its key. */
  predicate Commits(s: Store, es: seq<Event>, n: nat, m: Send) {
    n < |es| && es[n].op.OpEnqueue? && es[n].op.m == m
    && var o := EnqueueTx(Run(s, es[..n]), m, es[n].op.gone, es[n].now).1;
       o.Inserted? || o.Bound?
  }

  /** A send of m committed at the n-th event and its task is live in every later state. */
  predicate CommittedAndLive(s: Store, es: seq<Event>, n: nat, m: Send) {
    Commits(s, es, n, m) && LiveFrom(s, es, n + 1, m.id)
  }

  lemma CommitSettles(s: Store, m: Send, gone: bool, now: Time)
    requires var o := EnqueueTx(s, m, gone, now).1; o.Inserted? || o.Bound?
    ensures Settled(EnqueueTx(s, m, gone, now).0, m) && !BreaksContract(m, now)
  {}

  lemma SettledStep(s: Store, e: Event, m: Send)
    requires Settled(s, m) && m.id in Apply(s, e.op, e.now).tasks
    ensures Settled(Apply(s, e.op, e.now), m)
  {}

  /** Whatever other sessions do, a settled task that stays live stays settled. */
  lemma {:induction false} SettledFrom(s: Store, es: seq<Event>, i: nat, m: Send)
    requires i <= |es| && Settled(Run(s, es[..i]), m) && LiveFrom(s, es, i, m.id)
    ensures Settled(Run(s, es), m)
    decreases |es|
  {
    assert es[..|es|] == es;
    if i < |es| {
      var front, e := es[..|es| - 1], es[|es| - 1];
      assert front + [e] == es && front[..i] == es[..i];
      LiveBefore(s, front, e, i, m.id);
      SettledFrom(s, front, i, m);
      SettledStep(Run(s, front), e, m);
    }
  }

  lemma SettledSince(s: Store, es: seq<Event>, n: nat, m: Send)
    requires CommittedAndLive(s, es, n, m)
    ensures Settled(Run(s, es), m) && !BreaksContract(m, es[n].now)
  {
    assert es[..n] + [es[n]] == es[..n + 1];
    RunSnoc(s, es[..n], es[n]);
    CommitSettles(Run(s, es[..n]), m, es[n].op.gone, es[n].now);
    SettledFrom(s, es, n + 1, m);
  }

  lemma SettledResend(s: Store, m: Send, gone: bool, now: Time)
    requires Settled(s, m)
    ensures var (a, o) := EnqueueTx(s, m, gone, now);
      a == s && (!BreaksContract(m, now) ==> o == if m.key.Some? then Answered(Ok(m.id)) else VerifyLater)
  {}

  lemma SettledOutcome(o: TxOutcome, m: Send, later: Store)
    requires Settled(later, m) && (o.Answered? ==> o.r == Ok(m.id))
    ensures Answer(o, m, later) == Ok(m.id)
  {}

  /**
   * After a send of m has committed, and for as long as its task stays live, another send of m changes no table
   * and answers Ok with the same id, whatever other sessions ran in between. Without a key the answer comes from
   * a later read, which must still find the task.
   */
  lemma ResendIsIdempotent(s: Store, es: seq<Event>, n: nat, m: Send, gone: bool, now: Time, meanwhile: seq<Event>)
    requires CommittedAndLive(s, es, n, m) && es[n].now <= now
    requires m.key.None? ==> LiveFrom(Run(s, es), meanwhile, 0, m.id)
    ensures var (a, o) := EnqueueTx(Run(s, es), m, gone, now);
      a == Run(s, es) && Answer(o, m, Run(a, meanwhile)) == Ok(m.id)
  {
    SettledSince(s, es, n, m);
    SettledResend(Run(s, es), m, gone, now);
    if m.key.None? {
      SettledFrom(Run(s, es), meanwhile, 0, m);
      SettledOutcome(VerifyLater, m, Run(Run(s, es), meanwhile));
    }
  }

  /** The run with every send of m left out. */
  function Without(es: seq<Event>, m: Send): seq<Event> {
    if es == [] then []
    else
      var e := es[|es| - 1];
      Without(es[..|es| - 1], m) + if e.op.OpEnqueue? && e.op.m == m then [] else [e]
  }

  lemma {:induction false} SettledWithout(s: Store, es: seq<Event>, m: Send)
    requires Settled(s, m) && LiveFrom(s, es, 0, m.id)
    ensures Run(s, es) == Run(s, Without(es, m)) && Settled(Run(s, es), m)
    decreases |es|
  {
    if es != [] {
      var front, e := es[..|es| - 1], es[|es| - 1];
      assert front + [e] == es;
      LiveBefore(s, front, e, 0, m.id);
      SettledWithout(s, front, m);
      SettledStep(Run(s, front), e, m);
      if e.op.OpEnqueue? && e.op.m == m {
        SettledResend(Run(s, front), m, e.op.gone, e.now);
        assert Without(es, m) == Without(front, m);
      } else {
        RunSnoc(s, Without(front, m), e);
      }
    }
  }

  /** Leaving out every later send of a committed m, of any session, leaves the outcome of the run as it is. */
  lemma ResendsAreInvisible(s: Store, es: seq<Event>, n: nat, m: Send)
    requires CommittedAndLive(s, es, n, m)
    ensures Run(s, es) == Run(s, es[..n + 1] + Without(es[n + 1..], m))
  {
    var first, rest := es[..n + 1], es[n + 1..];
    assert first + rest == es && first[..n] == es[..n] && first[..n + 1] == first;
    forall k | 0 <= k <= |rest| ensures m.id in Run(Run(s, first), rest[..k]).tasks {
      assert es[..n + 1 + k] == first + rest[..k];
      RunAppend(s, first, rest[..k]);
    }
    assert rest[..0] == [];
    assert CommittedAndLive(s, first, n, m);
    SettledSince(s, first, n, m);
    SettledWithout(Run(s, first), rest, m);
    RunAppend(s, first, rest);
    RunAppend(s, first, Without(rest, m));
  }

  /**
   * While a committed m stays live, a send of another payload under its id changes nothing and never answers Ok,
   * unless its own key is reserved and decides first.
   */
  lemma OtherPayloadIsRefused(s: Store, es: seq<Event>, n: nat, m: Send, other: Send, gone: bool, now: Time, meanwhile: seq<Event>)
    requires CommittedAndLive(s, es, n, m)
    requires other.id == m.id && (other.sha != m.sha || (other.key.Some? && other.fingerprint != m.fingerprint))
    requires !BreaksContract(other, now) && !(other.key.Some? && Blocking(Run(s, es), other.key.value, now))
    requires other.key.None? ==> LiveFrom(Run(s, es), meanwhile, 0, m.id)
    ensures var (a, o) := EnqueueTx(Run(s, es), other, gone, now);
      a == Run(s, es)
      && Answer(o, other, Run(a, meanwhile))
         == Err(if other.key.Some? && gone then EnqueueConflictUnverifiable(m.id) else PayloadMismatch(m.id))
  {
    SettledSince(s, es, n, m);
    if other.key.None? { SettledFrom(Run(s, es), meanwhile, 0, m); }
  }

  // ---- a committed send through the send loop ----

  predicate Resent(f: Fate) {
    (f.NotSent? || f.ReplyLost?) && f.retryable
  }

  lemma CommitsBefore(s: Store, all: seq<Event>, k: nat, n: nat, m: Send)
    requires n < k <= |all| && CommittedAndLive(s, all, n, m)
    ensures CommittedAndLive(s, all[..k], n, m)
  {
    assert all[..k][..n] == all[..n];
    forall j | n + 1 <= j <= k ensures m.id in Run(s, all[..k][..j]).tasks { assert all[..k][..j] == all[..j]; }
  }

  lemma DeliveredResult(s: Store, p: Payload, a: Attempt, x: TaskId)
    requires a.fate.Delivered?
    requires Answer(EnqueueTx(Run(s, a.others), p.m, a.gone, a.now).1, p.m, Run(s, AttemptTrace(s, p.m, a))) == Ok(x)
    ensures AttemptResult(s, p, a) == Ok(x)
  {}

  lemma SettledAtTheEnd(s: Store, p: Payload, a: Attempt)
    requires a.fate.Delivered? && Settled(Run(s, AttemptTrace(s, p.m, a)), p.m)
    requires var o := EnqueueTx(Run(s, a.others), p.m, a.gone, a.now).1; o.Answered? ==> o.r == Ok(p.m.id)
    ensures AttemptResult(s, p, a) == Ok(p.m.id)
  {
    var o, later := EnqueueTx(Run(s, a.others), p.m, a.gone, a.now).1, Run(s, AttemptTrace(s, p.m, a));
    SettledOutcome(o, p.m, later);
    DeliveredResult(s, p, a, p.m.id);
  }

  lemma TraceShape(s: Store, es: seq<Event>, m: Send, a: Attempt)
    requires a.fate.Delivered?
    ensures var before, all := es + a.others, es + AttemptTrace(s, m, a);
      |before| < |all| && all[..|before|] == before && all[|before|] == Event(OpEnqueue(m, a.gone), a.now)
      && (|before| + 1 < |all| ==> EnqueueTx(Run(s, a.others), m, a.gone, a.now).1.VerifyLater?)
  {
    var own := Event(OpEnqueue(m, a.gone), a.now);
    assert (es + a.others) + [own] == es + (a.others + [own]);
  }

  lemma OwnAfterCommit(s: Store, before: seq<Event>, n: nat, m: Send, a: Attempt)
    requires CommittedAndLive(s, before, n, m) && before[n].now <= a.now
    ensures var o := EnqueueTx(Run(s, before), m, a.gone, a.now).1; o.Answered? ==> o.r == Ok(m.id)
  {
    SettledSince(s, before, n, m);
    SettledResend(Run(s, before), m, a.gone, a.now);
  }

  /** The delivered attempt's own transaction refuses nothing, wherever in the trace the commit lies. */
  lemma OwnAnswer(s: Store, es: seq<Event>, m: Send, a: Attempt, n: nat)
    requires a.fate.Delivered?
    requires var all := es + AttemptTrace(Run(s, es), m, a);
      Ordered(all) && CommittedAndLive(s, all, n, m)
    ensures var o := EnqueueTx(Run(Run(s, es), a.others), m, a.gone, a.now).1; o.Answered? ==> o.r == Ok(m.id)
  {
    var before, all := es + a.others, es + AttemptTrace(Run(s, es), m, a);
    RunAppend(s, es, a.others);
    TraceShape(Run(s, es), es, m, a);
    if n < |before| {
      assert all[n].now < all[|before|].now && all[n] == before[n];
      CommitsBefore(s, all, |before|, n, m);
      OwnAfterCommit(s, before, n, m, a);
    } else if n > |before| {
      assert |before| + 1 < |all|;
    } else {
      assert all[n].op.gone == a.gone;
    }
  }

  lemma DeliveredAfterCommit(s: Store, es: seq<Event>, p: Payload, a: Attempt, n: nat)
    requires a.fate.Delivered?
    requires var all := es + AttemptTrace(Run(s, es), p.m, a);
      Ordered(all) && CommittedAndLive(s, all, n, p.m)
    ensures AttemptResult(Run(s, es), p, a) == Ok(p.m.id)
  {
    OwnAnswer(s, es, p.m, a, n);
    SettledSince(s, es + AttemptTrace(Run(s, es), p.m, a), n, p.m);
    RunAppend(s, es, AttemptTrace(Run(s, es), p.m, a));
    SettledAtTheEnd(Run(s, es), p, a);
  }

  lemma ResentStep(s: Store, es: seq<Event>, p: Payload, script: seq<Attempt>, left: nat)
    requires 1 < left <= |script| && Resent(script[0].fate)
    ensures var cur, next := Run(s, es), es + AttemptTrace(Run(s, es), p.m, script[0]);
      es + SendFrom(cur, p, script, left).0 == next + SendFrom(Run(s, next), p, script[1..], left - 1).0
      && SendFrom(cur, p, script, left).1 == SendFrom(Run(s, next), p, script[1..], left - 1).1
  {
    var cur := Run(s, es);
    var tr := AttemptTrace(cur, p.m, script[0]);
    SendUnfold(cur, p, script, left);
    RunAppend(s, es, tr);
    assert Resends(script[0], AttemptResult(cur, p, script[0]));
    TracesAppend(es + SendFrom(cur, p, script, left).0, es, tr,
                 SendFrom(Run(cur, tr), p, script[1..], left - 1).0, SendFrom(cur, p, script, left).0);
  }

  /** Attempt k is the one the loop stops at: each one before it is lost and worth a resend. */
  predicate LastOf(script: seq<Attempt>, left: nat, k: nat)
    requires left <= |script|
  {
    k < left && (k == left - 1 || !Resent(script[k].fate)) && forall j :: 0 <= j < k ==> Resent(script[j].fate)
  }

  lemma LastOfRest(script: seq<Attempt>, left: nat, k: nat)
    requires 0 < k < left <= |script| && LastOf(script, left, k)
    ensures LastOf(script[1..], left - 1, k - 1) && script[1..][k - 1] == script[k] && Resent(script[0].fate)
  {
    assert forall j :: 0 <= j < k ==> script[1..][j] == script[j + 1];
  }

  /** A delivered attempt ends the loop whatever it answers: a refusal is never retryable. */
  lemma LastAttempt(s: Store, p: Payload, script: seq<Attempt>, left: nat)
    requires 1 <= left <= |script| && (left == 1 || !Resent(script[0].fate))
    ensures SendFrom(s, p, script, left) == (AttemptTrace(s, p.m, script[0]), AttemptResult(s, p, script[0]))
  {}

  lemma ResentRest(s: Store, es: seq<Event>, p: Payload, script: seq<Attempt>, left: nat, trace: seq<Event>,
                   r: Result<TaskId, SendError>) returns (next: seq<Event>, rest: seq<Event>)
    requires 1 < left <= |script| && Resent(script[0].fate) && SendFrom(Run(s, es), p, script, left) == (trace, r)
    ensures SendFrom(Run(s, next), p, script[1..], left - 1) == (rest, r) && es + trace == next + rest
  {
    ResentStep(s, es, p, script, left);
    next := es + AttemptTrace(Run(s, es), p.m, script[0]);
    rest := SendFrom(Run(s, next), p, script[1..], left - 1).0;
  }

  /** Everything before the send's last attempt, whose transactions complete the trace and whose answer is the send's. */
  lemma {:induction false} BeforeLast(s: Store, es: seq<Event>, p: Payload, script: seq<Attempt>, left: nat, k: nat,
                                      trace: seq<Event>, r: Result<TaskId, SendError>) returns (done: seq<Event>)
    requires left <= |script| && LastOf(script, left, k) && SendFrom(Run(s, es), p, script, left) == (trace, r)
    ensures es + trace == done + AttemptTrace(Run(s, done), p.m, script[k]) && r == AttemptResult(Run(s, done), p, script[k])
    decreases left
  {
    if k == 0 {
      done := es;
      LastAttempt(Run(s, es), p, script, left);
    } else {
      LastOfRest(script, left, k);
      var next, rest := ResentRest(s, es, p, script, left, trace, r);
      done := BeforeLast(s, next, p, script[1..], left - 1, k - 1, rest, r);
    }
  }

  /**
   * A send whose task was committed at any point before its end, by an attempt whose reply was lost, by an
   * earlier send that is now retried or by another session, and is live from then on, answers as its fates say:
   * Ok with its own id if the last attempt is delivered, and otherwise the connection's failure, never a refusal.
   */
  lemma CommittedSendAnswersOk(s: Store, es: seq<Event>, p: Payload, script: seq<Attempt>, left: nat, n: nat, k: nat)
    requires left <= |script| && LastOf(script, left, k)
    requires var all := es + SendFrom(Run(s, es), p, script, left).0; Ordered(all) && CommittedAndLive(s, all, n, p.m)
    ensures SendFrom(Run(s, es), p, script, left).1
      == if script[k].fate.Delivered? then Ok(p.m.id) else Err(Failed(p, EnqueueFailed, script[k].fate.retryable))
  {
    var (trace, r) := SendFrom(Run(s, es), p, script, left);
    var done := BeforeLast(s, es, p, script, left, k, trace, r);
    if script[k].fate.Delivered? { DeliveredAfterCommit(s, done, p, script[k], n); }
  }

  /**
   * With resending on, three attempts lost on the way leave the answer to a fourth and there is no fifth; with it
   * off, the first attempt answers.
   */
  lemma ThreeResends(s: Store, p: Payload, script: seq<Attempt>)
    requires |script| >= 4 && Resent(script[0].fate) && Resent(script[1].fate) && Resent(script[2].fate)
    ensures var one := Run(s, AttemptTrace(s, p.m, script[0]));
      var two := Run(one, AttemptTrace(one, p.m, script[1]));
      var three := Run(two, AttemptTrace(two, p.m, script[2]));
      SendFrom(s, p, script, MaxAttempts(true)).1 == AttemptResult(three, p, script[3])
    ensures SendFrom(s, p, script, MaxAttempts(false)) == (AttemptTrace(s, p.m, script[0]), AttemptResult(s, p, script[0]))
  {
    var one := Run(s, AttemptTrace(s, p.m, script[0]));
    var two := Run(one, AttemptTrace(one, p.m, script[1]));
    var three := Run(two, AttemptTrace(two, p.m, script[2]));
    ResentOnce(s, p, script, 4);
    ResentOnce(one, p, script[1..], 3);
    ResentOnce(two, p, script[1..][1..], 2);
    LastAttempt(three, p, script[1..][1..][1..], 1);
    LastAttempt(s, p, script, 1);
  }

  lemma ResentOnce(s: Store, p: Payload, script: seq<Attempt>, left: nat)
    requires 1 < left <= |script| && Resent(script[0].fate)
    ensures SendFrom(s, p, script, left).1 == SendFrom(Run(s, AttemptTrace(s, p.m, script[0])), p, script[1..], left - 1).1
  {}

  // ---- at most one insert ----

  /** The statement of this step returns the row it inserted. */
  predicate InsertsNow(s: Store, e: Event, id: TaskId) {
    e.op.OpEnqueue? && e.op.m.id == id && EnqueueTx(s, e.op.m, e.op.gone, e.now).1.Inserted?
  }

  /** How many inserts of the id the run has answered. */
  function Inserts(s: Store, es: seq<Event>, id: TaskId): nat {
    if es == [] then 0
    else Inserts(s, es[..|es| - 1], id) + if InsertsNow(Run(s, es[..|es| - 1]), es[|es| - 1], id) then 1 else 0
  }

  function Ends(s: Store, es: seq<Event>, id: TaskId): nat {
    if es == [] then 0
    else Ends(s, es[..|es| - 1], id)
         + if id in Run(s, es[..|es| - 1]).tasks && id !in Run(s, es).tasks then 1 else 0
  }

  function LiveCount(s: Store, id: TaskId): nat { if id in s.tasks then 1 else 0 }

  /** A row is returned only for an id that was not live, and no id becomes live in another way. */
  lemma InsertsIsAnArrival(s: Store, e: Event, id: TaskId)
    ensures InsertsNow(s, e, id) <==> (id !in s.tasks && id in Apply(s, e.op, e.now).tasks)
  {}

  lemma {:induction false} InsertsBalanceEnds(s: Store, es: seq<Event>, id: TaskId)
    ensures LiveCount(s, id) + Inserts(s, es, id) == Ends(s, es, id) + LiveCount(Run(s, es), id)
  {
    if es != [] {
      InsertsBalanceEnds(s, es[..|es| - 1], id);
      InsertsIsAnArrival(Run(s, es[..|es| - 1]), es[|es| - 1], id);
    }
  }

  lemma {:induction false} NeverEnded(s: Store, es: seq<Event>, id: TaskId)
    requires forall i :: !EndedBy(s, es, i, id)
    ensures Ends(s, es, id) == 0
  {
    if es != [] {
      var front, e := es[..|es| - 1], es[|es| - 1];
      assert front + [e] == es;
      forall i ensures !EndedBy(s, front, i, id) {
        if 0 <= i < |front| { EndedStays(s, front, e, i, id); }
      }
      NeverEnded(s, front, id);
      assert es[..|es|] == es;
      assert !EndedBy(s, es, |front|, id);
    }
  }

  /**
   * Over any mix of attempts, lost replies, retries and other sessions, an id that never ends is answered one
   * insert when it has become live and none when it was live before or never does.
   */
  lemma OneInsertWhileLive(s: Store, es: seq<Event>, id: TaskId)
    requires forall i :: !EndedBy(s, es, i, id)
    ensures LiveCount(s, id) + Inserts(s, es, id) == LiveCount(Run(s, es), id)
  {
    InsertsBalanceEnds(s, es, id);
    NeverEnded(s, es, id);
  }

  /** Every enqueue of m's id in the run is a send of m. */
  predicate SendsOf(es: seq<Event>, m: Send) {
    forall i :: 0 <= i < |es| && es[i].op.OpEnqueue? && es[i].op.m.id == m.id ==> es[i].op.m == m
  }

  /** The reservation an inserted m leaves. */
  function ReservationOf(m: Send): Reservation {
    Reservation(FINGERPRINT_VERSION, m.fingerprint, m.id, Live, m.window)
  }

  ghost predicate HeldOrNeverInserted(s: Store, es: seq<Event>, m: Send)
    requires m.key.Some?
  {
    Inserts(s, es, m.id) == 0 || (Inserts(s, es, m.id) == 1 && Held(s, es, m.key.value, ReservationOf(m)))
  }

  lemma InsertsSnoc(s: Store, front: seq<Event>, e: Event, id: TaskId)
    ensures Inserts(s, front + [e], id) == Inserts(s, front, id)
      + if InsertsNow(Run(s, front), e, id) then 1 else 0
  {
    assert (front + [e])[..|front|] == front;
  }

  /** Only a send of m inserts m's id, and the first one leaves its key held. */
  lemma InsertingStep(s: Store, e: Event, m: Send)
    requires m.key.Some? && (e.op.OpEnqueue? && e.op.m.id == m.id ==> e.op.m == m)
    requires InsertsNow(s, e, m.id)
    ensures e.op.OpEnqueue? && e.op.m == m && !Blocking(s, m.key.value, e.now)
    ensures var a := Apply(s, e.op, e.now);
      m.key.value in a.reservations && SameHold(a.reservations[m.key.value], ReservationOf(m))
      && a.reservations[m.key.value].disposition.Live?
  {}

  lemma KeyedStep(s: Store, front: seq<Event>, e: Event, m: Send)
    requires KeysAgree(Run(s, front)) && m.key.Some? && HeldOrNeverInserted(s, front, m)
    requires e.op.OpEnqueue? && e.op.m.id == m.id ==> e.op.m == m
    requires !WindowRanOut(s, front + [e], m.id, m.window)
    ensures HeldOrNeverInserted(s, front + [e], m)
  {
    var mid := Run(s, front);
    RunSnoc(s, front, e);
    InsertsSnoc(s, front, e, m.id);
    if InsertsNow(mid, e, m.id) {
      InsertingStep(mid, e, m);
      if Inserts(s, front, m.id) == 1 { StillBlocking(s, front, e, m); }
    } else if Inserts(s, front, m.id) == 1 {
      HeldStep(s, front, e, m.key.value, ReservationOf(m));
    }
  }

  lemma StillBlocking(s: Store, front: seq<Event>, e: Event, m: Send)
    requires m.key.Some? && Held(s, front, m.key.value, ReservationOf(m))
    requires !WindowRanOut(s, front + [e], m.id, m.window)
    ensures Blocking(Run(s, front), m.key.value, e.now)
  {
    var mid := Run(s, front);
    if !mid.reservations[m.key.value].disposition.Live? {
      var i :| EndedBy(s, front, i, m.id) && mid.reservations[m.key.value].disposition == Terminal(front[i].now + m.window);
      EndedStays(s, front, e, i, m.id);
      assert (front + [e])[|front|] == e;
    }
  }

  lemma {:induction false} KeyedRun(s: Store, es: seq<Event>, m: Send)
    requires KeysAgree(s) && m.key.Some? && SendsOf(es, m) && !WindowRanOut(s, es, m.id, m.window)
    ensures HeldOrNeverInserted(s, es, m)
  {
    if es != [] {
      var front, e := es[..|es| - 1], es[|es| - 1];
      assert front + [e] == es;
      if WindowRanOut(s, front, m.id, m.window) { RanOutStays(s, front, e, m.id, m.window); }
      KeyedRun(s, front, m);
      KeyBinding(s, front, m.id, m.key.value);
      KeyedStep(s, front, e, m);
    }
  }

  /** A keyed send is inserted at most once even across its own terminal move, until its window has run out. */
  lemma KeyedSendInsertsAtMostOnce(s: Store, es: seq<Event>, m: Send)
    requires KeysAgree(s) && m.key.Some? && SendsOf(es, m) && !WindowRanOut(s, es, m.id, m.window)
    ensures Inserts(s, es, m.id) <= 1
  {
    KeyedRun(s, es, m);
  }

  // ---- where exactly-once stops ----

  const UNKEYED := Send(7, "sha", 1, None, 1, None, None, None)
  const EMPTY := Store(map[], map[], {})

  /** Committed with its reply lost, run to the end, then resent. */
  const RESENT_AFTER_DONE: seq<Event> :=
    [Event(OpEnqueue(UNKEYED, false), 1), Event(OpMove(7), 2), Event(OpEnqueue(UNKEYED, false), 3)]

  lemma FirstInsert()
    ensures Run(EMPTY, RESENT_AFTER_DONE[..1]).tasks.Keys == {7} && Run(EMPTY, RESENT_AFTER_DONE[..1]).history == {}
  {
    assert RESENT_AFTER_DONE[..1][..0] == [];
  }

  lemma ThenMoved()
    ensures Run(EMPTY, RESENT_AFTER_DONE[..2]).tasks == map[] && Run(EMPTY, RESENT_AFTER_DONE[..2]).history == {7}
  {
    FirstInsert();
    assert RESENT_AFTER_DONE[..2][..1] == RESENT_AFTER_DONE[..1];
    assert Run(EMPTY, RESENT_AFTER_DONE[..2]).tasks.Keys == {};
  }

  /**
   * Without a key, a resend after the task has already ended inserts it again. The copy cannot end:
   * its move finds the id in the history and rolls back.
   */
  lemma UnkeyedResendRunsTwice(now: Time)
    ensures Inserts(EMPTY, RESENT_AFTER_DONE, 7) == 2
    ensures var after := Run(EMPTY, RESENT_AFTER_DONE); 7 in after.tasks && MoveToHistory(after, 7, now) == after
  {
    FirstInsert();
    ThenMoved();
    assert RESENT_AFTER_DONE[..2][..1] == RESENT_AFTER_DONE[..1];
    assert RESENT_AFTER_DONE[..1][..0] == [];
    assert Inserts(EMPTY, RESENT_AFTER_DONE[..1], 7) == 1;
    assert Inserts(EMPTY, RESENT_AFTER_DONE[..2], 7) == 1;
  }
}
