/** Waiting for a task's result: poll, subscribe, poll, then waits bounded by the re-poll interval and the deadline. */
module ResultWait {
  import opened Prelude

  type Time = int   // milliseconds; a query takes no time

  const RESULT_WAIT_REPOLL := 30000

  datatype Status = StPending | StClaimed | StRunning | StCompleted | StFailed | StCancelled | StExpired

  /** What one read of the task finds: its row, live or archived, nothing, or a database error. */
  datatype Probe = Row(status: Status, result: Option<string>) | Absent | Unreadable

  datatype Answer =
    | Decoded(json: string)
    | ResultNotAvailable
    | TaskExpired
    | TaskCancelled
    | TaskNotFound
    | WaitTimeout
    | ListenerClosed
    | DatabaseError

  /** How one wait on the subscription ends if it is not cut short. */
  datatype Wake = Notified(after: nat) | Quiet | Closed(after: nat)

  predicate IsTerminal(s: Status) {
    s in {StCompleted, StFailed, StCancelled, StExpired}
  }

  function ParseRow(status: Status, result: Option<string>): Answer
    requires IsTerminal(status)
  {
    match status
    case StCancelled => TaskCancelled
    case StExpired => if result.Some? then Decoded(result.value) else TaskExpired
    case _ => if result.Some? then Decoded(result.value) else ResultNotAvailable
  }

  /** None keeps waiting. */
  function PollResult(p: Probe): Option<Answer> {
    match p
    case Row(status, result) => if IsTerminal(status) then Some(ParseRow(status, result)) else None
    case Absent => Some(TaskNotFound)
    case Unreadable => Some(DatabaseError)
  }

  function FinalPoll(p: Probe): Answer {
    if PollResult(p).Some? then PollResult(p).value else WaitTimeout
  }

  /** The read found a live row. */
  predicate Waiting(p: Probe) {
    p.Row? && p.status in {StPending, StClaimed, StRunning}
  }

  function WaitFor(now: Time, deadline: Option<Time>): Time {
    if deadline.Some? then Min(Max(0, deadline.value - now), RESULT_WAIT_REPOLL) else RESULT_WAIT_REPOLL
  }

  /** How long the wait takes: a wake-up, or the cap. */
  function Waited(w: Wake, cap: Time): Time {
    if !w.Quiet? && w.after < cap then w.after else cap
  }

  predicate Closes(w: Wake, cap: Time) {
    w.Closed? && w.after < cap
  }

  /** The loop; None means the script of wake-ups ran out while it was still waiting. */
  function WaitLoop(world: Time -> Probe, now: Time, deadline: Option<Time>, script: seq<Wake>): (Option<Answer>, Time)
    decreases |script|
  {
    if deadline.Some? && now >= deadline.value then (Some(FinalPoll(world(now))), now)
    else if script == [] then (None, now)
    else
      var cap := WaitFor(now, deadline);
      var next := now + Waited(script[0], cap);
      if Closes(script[0], cap) then (Some(ListenerClosed), next)
      else if PollResult(world(next)).Some? then (PollResult(world(next)), next)
      else WaitLoop(world, next, deadline, script[1..])
  }

  /**
   * The first read, the subscription, which may take a while to set up, the second read once it is there, and the
   * loop. The deadline counts from the second read.
   */
  function GetResult(world: Time -> Probe, start: Time, setup: nat, timeout: Option<nat>, script: seq<Wake>): (Option<Answer>, Time) {
    var subscribed := start + setup;
    if PollResult(world(start)).Some? then (PollResult(world(start)), start)
    else if PollResult(world(subscribed)).Some? then (PollResult(world(subscribed)), subscribed)
    else WaitLoop(world, subscribed, if timeout.Some? then Some(subscribed + timeout.value) else None, script)
  }

  /** Which reads an answer comes from. */
  predicate Justified(a: Answer, p: Probe, past: bool) {
    match a
    case Decoded(json) => p.Row? && p.status in {StCompleted, StFailed, StExpired} && p.result == Some(json)
    case ResultNotAvailable => p.Row? && p.status in {StCompleted, StFailed} && p.result.None?
    case TaskExpired => p == Row(StExpired, None)
    case TaskCancelled => p.Row? && p.status == StCancelled
    case TaskNotFound => p == Absent
    case WaitTimeout => past && Waiting(p)
    case ListenerClosed => true
    case DatabaseError => p == Unreadable
  }

  /** What each read answers once it is answered from. */
  predicate Answers(p: Probe, a: Answer) {
    match p
    case Row(StCompleted, Some(json)) => a == Decoded(json)
    case Row(StFailed, Some(json)) => a == Decoded(json)
    case Row(StExpired, Some(json)) => a == Decoded(json)
    case Row(StCompleted, None) => a == ResultNotAvailable
    case Row(StFailed, None) => a == ResultNotAvailable
    case Row(StExpired, None) => a == TaskExpired
    case Row(StCancelled, _) => a == TaskCancelled
    case Row(_, _) => a == WaitTimeout
    case Absent => a == TaskNotFound
    case Unreadable => a == DatabaseError
  }

  lemma PollIsFaithful(p: Probe)
    ensures PollResult(p).None? <==> Waiting(p)
    ensures PollResult(p).Some? ==> Justified(PollResult(p).value, p, false) && Answers(p, PollResult(p).value)
    ensures PollResult(p).Some? ==> PollResult(p).value != WaitTimeout && PollResult(p).value != ListenerClosed
  {
    match p
    case Row(status, result) =>
      match status {
        case StPending => case StClaimed => case StRunning =>
        case StCompleted => case StFailed => case StCancelled => case StExpired =>
      }
    case _ =>
  }

  lemma TimeoutIsFaithful(p: Probe)
    requires Waiting(p)
    ensures FinalPoll(p) == WaitTimeout && Answers(p, WaitTimeout)
  {
    PollIsFaithful(p);
    match p.status
    case StPending => case StClaimed => case StRunning =>
  }

  /** What a wait owes its caller: the answer comes from the read at `at`, as that read's row says, and in time. */
  predicate Faithful(world: Time -> Probe, start: Time, setup: nat, timeout: Option<nat>, script: seq<Wake>,
                     a: Option<Answer>, at: Time) {
    (a.Some? && a.value != ListenerClosed ==> Answers(world(at), a.value))
    && (a.Some? ==> Justified(a.value, world(at), timeout.Some? && at >= start + setup + timeout.value))
    && (a == Some(ListenerClosed) ==> exists i :: 0 <= i < |script| && script[i].Closed?)
    && (a.None? ==> Waiting(world(at)) && (timeout.Some? ==> at < start + setup + timeout.value))
    && (if !Waiting(world(start)) then a.Some? && at == start
        else if !Waiting(world(start + setup)) then a.Some? && at == start + setup
        else at >= start + setup && (timeout.Some? ==> at <= start + setup + timeout.value))
  }

  lemma {:induction false} LoopIsFaithful(world: Time -> Probe, now: Time, deadline: Option<Time>, script: seq<Wake>)
    requires Waiting(world(now)) && (deadline.Some? ==> now <= deadline.value)
    ensures var (a, at) := WaitLoop(world, now, deadline, script);
      (a.Some? && a.value != ListenerClosed ==> Answers(world(at), a.value))
      && (a.Some? ==> Justified(a.value, world(at), deadline.Some? && at >= deadline.value))
      && (a == Some(ListenerClosed) ==> exists i :: 0 <= i < |script| && script[i].Closed?)
      && (a.None? ==> Waiting(world(at)) && (deadline.Some? ==> at < deadline.value)) && at >= now && (deadline.Some? ==> at <= deadline.value)
    decreases |script|
  {
    TimeoutIsFaithful(world(now));
    if !(deadline.Some? && now >= deadline.value) && script != [] {
      var cap := WaitFor(now, deadline);
      var next := now + Waited(script[0], cap);
      PollIsFaithful(world(next));
      if !Closes(script[0], cap) && PollResult(world(next)).None? {
        LoopIsFaithful(world, next, deadline, script[1..]);
        assert forall i :: 0 <= i < |script| - 1 ==> script[1..][i] == script[i + 1];
      }
    }
  }

  lemma EveryAnswerIsFaithful(world: Time -> Probe, start: Time, setup: nat, timeout: Option<nat>, script: seq<Wake>)
    ensures var (a, at) := GetResult(world, start, setup, timeout, script); Faithful(world, start, setup, timeout, script, a, at)
  {
    PollIsFaithful(world(start));
    PollIsFaithful(world(start + setup));
    if Waiting(world(start + setup)) {
      LoopIsFaithful(world, start + setup, if timeout.Some? then Some(start + setup + timeout.value) else None, script);
    }
  }

  /** The waiting method itself; `at` is the instant it answers. */
  method GetResultWaiting(world: Time -> Probe, start: Time, setup: nat, timeout: Option<nat>, script: seq<Wake>)
    returns (a: Option<Answer>, at: Time)
    ensures (a, at) == GetResult(world, start, setup, timeout, script)
    ensures Faithful(world, start, setup, timeout, script, a, at)
  {
    EveryAnswerIsFaithful(world, start, setup, timeout, script);
    a, at := PollResult(world(start)), start;
    if a.None? {
      at := start + setup;
      a := PollResult(world(at));
      if a.None? {
        a, at := WaitForWakeUps(world, at, if timeout.Some? then Some(at + timeout.value) else None, script);
      }
    }
  }

  /** Its loop. */
  method WaitForWakeUps(world: Time -> Probe, from: Time, deadline: Option<Time>, script: seq<Wake>)
    returns (a: Option<Answer>, at: Time)
    ensures (a, at) == WaitLoop(world, from, deadline, script)
  {
    at := from;
    var i := 0;
    while true
      invariant 0 <= i <= |script|
      invariant WaitLoop(world, at, deadline, script[i..]) == WaitLoop(world, from, deadline, script)
      decreases |script| - i
    {
      if deadline.Some? && at >= deadline.value { return Some(FinalPoll(world(at))), at; }
      if i == |script| { return None, at; }
      assert script[i..][0] == script[i] && script[i..][1..] == script[i + 1..];
      var wait := if deadline.Some? then Min(Max(0, deadline.value - at), RESULT_WAIT_REPOLL) else RESULT_WAIT_REPOLL;
      at := at + Waited(script[i], wait);
      if script[i].Closed? && script[i].after < wait { return Some(ListenerClosed), at; }
      var outcome := PollResult(world(at));
      if outcome.Some? { return outcome, at; }
      i := i + 1;
    }
  }

  /** From `done` on every read finds the terminal row. */
  ghost predicate DoneFrom(world: Time -> Probe, done: Time) {
    forall t :: t >= done ==> world(t).Row? && IsTerminal(world(t).status)
  }

  /**
   * Whatever wake-ups arrive or are lost, a wait answers less than one re-poll interval after the row turned
   * terminal, or at once; one that is still waiting has not reached that instant.
   */
  lemma {:induction false} AnswersWithinOneRepoll(world: Time -> Probe, now: Time, deadline: Option<Time>, script: seq<Wake>, done: Time)
    requires DoneFrom(world, done) && now < done
    ensures var (a, at) := WaitLoop(world, now, deadline, script);
      (a.Some? ==> at < done + RESULT_WAIT_REPOLL) && (a.None? ==> at < done)
    decreases |script|
  {
    if !(deadline.Some? && now >= deadline.value) && script != [] {
      var cap := WaitFor(now, deadline);
      var next := now + Waited(script[0], cap);
      if !Closes(script[0], cap) && PollResult(world(next)).None? {
        AnswersWithinOneRepoll(world, next, deadline, script[1..], done);
      }
    }
  }

  /** A timed wait whose task ends before the deadline returns the result unless the listener or database fails. */
  lemma {:induction false} ResultBeatsTheDeadline(world: Time -> Probe, now: Time, deadline: Time, script: seq<Wake>, done: Time)
    requires DoneFrom(world, done) && done <= deadline
    ensures WaitLoop(world, now, Some(deadline), script).0 != Some(WaitTimeout)
    decreases |script|
  {
    if now < deadline && script != [] {
      var next := now + Waited(script[0], WaitFor(now, Some(deadline)));
      ResultBeatsTheDeadline(world, next, deadline, script[1..], done);
    }
  }

  /** The wait goes on with a read at this instant. */
  predicate ReadsAt(world: Time -> Probe, now: Time, deadline: Option<Time>, script: seq<Wake>, at: Time)
    requires script != []
  {
    WaitLoop(world, now, deadline, script)
    == if Waiting(world(at)) then WaitLoop(world, at, deadline, script[1..]) else (PollResult(world(at)), at)
  }

  /**
   * One wait before the deadline ends with a read at the wake-up, at the end of the 30 seconds or at the deadline,
   * whichever comes first, unless the listener is closed before that.
   */
  lemma OneWait(world: Time -> Probe, now: Time, deadline: Option<Time>, script: seq<Wake>)
    requires script != [] && (deadline.Some? ==> now < deadline.value)
    ensures var full := if deadline.Some? && deadline.value < now + 30000 then deadline.value - now else 30000;
      match script[0]
      case Notified(after) => ReadsAt(world, now, deadline, script, if after < full then now + after else now + full)
      case Quiet => ReadsAt(world, now, deadline, script, now + full)
      case Closed(after) =>
        if after < full then WaitLoop(world, now, deadline, script) == (Some(ListenerClosed), now + after)
        else ReadsAt(world, now, deadline, script, now + full)
  {
    PollIsFaithful(world(now + Waited(script[0], WaitFor(now, deadline))));
  }

  predicate AllQuiet(script: seq<Wake>) {
    forall i :: 0 <= i < |script| ==> script[i].Quiet?
  }

  /** With every NOTIFY lost, an untimed wait on a row that is never absent or unreadable still gets the result. */
  lemma {:induction false} AllNotifiesLost(world: Time -> Probe, start: Time, setup: nat, script: seq<Wake>, done: Time)
    requires DoneFrom(world, done) && (forall t :: t < done ==> Waiting(world(t)))
    requires AllQuiet(script) && |script| * RESULT_WAIT_REPOLL >= done - start - setup
    ensures var (a, at) := GetResult(world, start, setup, None, script);
      a.Some? && world(at).Row? && IsTerminal(world(at).status) && a.value == ParseRow(world(at).status, world(at).result)
      && (if start >= done then at == start
          else if start + setup >= done then at == start + setup
          else done <= at < done + 30000 && (at - start - setup) % 30000 == 0)
  {
    if start + setup < done { QuietProgress(world, start + setup, script, done); }
  }

  /** A task that ends while the subscription is being set up is found by the second read, before any wait. */
  lemma EndDuringSetup(world: Time -> Probe, start: Time, setup: nat, timeout: Option<nat>, script: seq<Wake>, done: Time)
    requires DoneFrom(world, done) && Waiting(world(start)) && done <= start + setup
    ensures var p := world(start + setup);
      GetResult(world, start, setup, timeout, script) == (Some(ParseRow(p.status, p.result)), start + setup)
  {}

  lemma {:induction false} QuietProgress(world: Time -> Probe, now: Time, script: seq<Wake>, done: Time)
    requires DoneFrom(world, done) && (forall t :: t < done ==> Waiting(world(t))) && now < done
    requires AllQuiet(script) && |script| * RESULT_WAIT_REPOLL >= done - now
    ensures var (a, at) := WaitLoop(world, now, None, script);
      a.Some? && world(at).Row? && IsTerminal(world(at).status) && a.value == ParseRow(world(at).status, world(at).result)
      && done <= at < done + 30000 && (at - now) % 30000 == 0
    decreases |script|
  {
    var next := now + RESULT_WAIT_REPOLL;
    assert script[0].Quiet?;
    if next < done { QuietProgress(world, next, script[1..], done); }
  }
}
