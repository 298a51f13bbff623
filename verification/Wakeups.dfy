/** Callers waiting for a result on the shared listener: poll, subscribe, poll again, then wait for wake-ups. */
module Wakeups {
  import opened Prelude
  import opened Listener

  type WaiterId = nat

  datatype Pc =
    | FirstPoll
    | Registering
    | Recheck(sub: Subscription)
    | Waiting(sub: Subscription)
    | Polling(sub: Subscription)
    | Finished

  datatype Waiter = Waiter(payload: Payload, pc: Pc)

  /** `queue` holds the NOTIFYs not yet fanned out; `missed` the payloads of those a reconnect lost. */
  datatype Sys = Sys(hub: Hub, terminal: set<Payload>, queue: seq<Payload>, missed: set<Payload>, waiters: map<WaiterId, Waiter>)

  const START := Sys(EMPTY, {}, [], {}, map[])

  /** A task's end and its NOTIFY commit together; `Notified` is any other NOTIFY, repeated or for a task not ended. */
  datatype Event =
    | TaskEnds(p: Payload)
    | Notified(p: Payload)
    | Deliver
    | Reconnect
    | Arrive(w: WaiterId, p: Payload)
    | Move(w: WaiterId)
    | Elapse(w: WaiterId)
    | Abandon(w: WaiterId)
    | Others(op: Op)

  function At(s: Sys, w: WaiterId, pc: Pc): Sys
    requires w in s.waiters
  {
    s.(waiters := s.waiters[w := s.waiters[w].(pc := pc)])
  }

  predicate Holds(s: Sys, w: WaiterId) {
    w in s.waiters && (s.waiters[w].pc.Recheck? || s.waiters[w].pc.Waiting? || s.waiters[w].pc.Polling?)
  }

  function Finish(s: Sys, w: WaiterId): Sys
    requires Holds(s, w)
  {
    At(s, w, Finished).(hub := Unsubscribe(s.hub, s.waiters[w].pc.sub))
  }

  /** The waiter's next statement; a wait with nothing pending stays where it is. */
  function MoveOn(s: Sys, w: WaiterId): Sys
    requires w in s.waiters
  {
    var done := s.waiters[w].payload in s.terminal;
    match s.waiters[w].pc
    case FirstPoll => At(s, w, if done then Finished else Registering)
    case Registering =>
      At(s, w, Recheck(NewSubscription(s.hub, s.waiters[w].payload))).(hub := Subscribe(s.hub, s.waiters[w].payload))
    case Recheck(sub) => if done then Finish(s, w) else At(s, w, Waiting(sub))
    case Waiting(sub) => if Tokens(s.hub, sub) > 0 then At(s, w, Polling(sub)).(hub := Receive(s.hub, sub)) else s
    case Polling(sub) => if done then Finish(s, w) else At(s, w, Waiting(sub))
    case Finished => s
  }

  /** A subscription some waiter of this system holds is its own to drop or read. */
  predicate HeldByWaiter(s: Sys, x: Subscription) {
    exists w :: w in s.waiters && Holds(s, w) && s.waiters[w].pc.sub == x
  }

  function OthersAct(s: Sys, op: Op): Sys {
    if op.OpNotify? || (!op.OpSubscribe? && HeldByWaiter(s, op.s)) then s else s.(hub := Apply(s.hub, op))
  }

  function Step(s: Sys, e: Event): Sys {
    match e
    case TaskEnds(p) => if p in s.terminal then s else s.(terminal := s.terminal + {p}, queue := s.queue + [p])
    case Notified(p) => s.(queue := s.queue + [p])
    case Deliver => if s.queue == [] then s else s.(hub := FanOut(s.hub, s.queue[0]), queue := s.queue[1..])
    case Reconnect => s.(missed := s.missed + (set p | p in s.queue), queue := [])
    case Arrive(w, p) => if w in s.waiters then s else s.(waiters := s.waiters[w := Waiter(p, FirstPoll)])
    case Move(w) => if w in s.waiters then MoveOn(s, w) else s
    case Elapse(w) =>
      if w in s.waiters && s.waiters[w].pc.Waiting? then At(s, w, Polling(s.waiters[w].pc.sub)) else s
    case Abandon(w) => if Holds(s, w) then Finish(s, w) else s
    case Others(op) => OthersAct(s, op)
  }

  function Run(s: Sys, es: seq<Event>): Sys {
    if es == [] then s else Step(Run(s, es[..|es| - 1]), es[|es| - 1])
  }

  // ---- the invariant ----

  predicate Registered(s: Sys, w: WaiterId) {
    Holds(s, w) ==> s.waiters[w].pc.sub in s.hub.live && s.waiters[w].pc.sub.payload == s.waiters[w].payload
  }

  predicate OwnHandles(s: Sys) {
    forall v, w :: v in s.waiters && w in s.waiters && Holds(s, v) && Holds(s, w) && v != w ==>
      s.waiters[v].pc.sub != s.waiters[w].pc.sub
  }

  /** A waiter on an ended task has its NOTIFY still to come, or a wake-up pending, or a lost NOTIFY to blame. */
  predicate WillWake(s: Sys, w: WaiterId) {
    w in s.waiters && s.waiters[w].pc.Waiting? && s.waiters[w].payload in s.terminal ==>
      s.waiters[w].payload in s.queue || Tokens(s.hub, s.waiters[w].pc.sub) > 0 || s.waiters[w].payload in s.missed
  }

  ghost predicate Inv(s: Sys) {
    Agrees(s.hub) && OwnHandles(s) && forall w :: w in s.waiters ==> Registered(s, w) && WillWake(s, w)
  }

  lemma FanOutWakes(h: Hub, p: Payload, x: Subscription)
    requires Agrees(h) && x in h.live
    ensures x in FanOut(h, p).live
    ensures Tokens(FanOut(h, p), x)
         == if p == x.payload && Tokens(h, x) < CHANNEL_CAPACITY then Tokens(h, x) + 1 else Tokens(h, x)
  {
    assert Entry(h, x) && Numbered(h, x);
    if p in h.senders {
      WokenByOwnId(h, p, x.channel);
      assert p == x.payload ==> x.subId in Retained(h, p);
    }
  }

  /** Live subscriptions do not share a channel. */
  lemma OwnChannel(h: Hub, x: Subscription, y: Subscription)
    requires Agrees(h) && x in h.live && y in h.live && x != y
    ensures x.channel != y.channel
  {
    assert Numbered(h, x) && Numbered(h, y);
  }

  /** Another live subscription and its wake-ups survive a drop, a leak or a read. */
  lemma OthersKeepTheirs(h: Hub, op: Op, x: Subscription)
    requires Agrees(h) && x in h.live && !op.OpNotify? && (op.OpSubscribe? || op.s != x)
    ensures x in Apply(h, op).live && Tokens(Apply(h, op), x) == Tokens(h, x)
  {
    assert Numbered(h, x);
    if !op.OpSubscribe? && op.s in h.live { OwnChannel(h, x, op.s); }
  }

  lemma FreshHandle(h: Hub, p: Payload, x: Subscription)
    requires Agrees(h) && x in h.live
    ensures x != NewSubscription(h, p)
  {
    assert Numbered(h, x);
  }

  /** How a waiter's own statement changes the hub. */
  function HubOp(s: Sys, e: Event): Option<Op> {
    match e
    case Move(w) =>
      if w !in s.waiters then None
      else if s.waiters[w].pc.Registering? then Some(OpSubscribe(s.waiters[w].payload))
      else if s.waiters[w].pc.Waiting? && Tokens(s.hub, s.waiters[w].pc.sub) > 0 then Some(OpReceive(s.waiters[w].pc.sub))
      else if (s.waiters[w].pc.Recheck? || s.waiters[w].pc.Polling?) && s.waiters[w].payload in s.terminal
      then Some(OpDrop(s.waiters[w].pc.sub))
      else None
    case Abandon(w) => if Holds(s, w) then Some(OpDrop(s.waiters[w].pc.sub)) else None
    case Deliver => if s.queue == [] then None else Some(OpNotify(s.queue[0]))
    case Others(op) => if op.OpNotify? || (!op.OpSubscribe? && HeldByWaiter(s, op.s)) then None else Some(op)
    case _ => None
  }

  lemma HubStep(s: Sys, e: Event)
    requires Inv(s) && Step(s, e).hub.issued <= U64
    ensures Step(s, e).hub == (if HubOp(s, e).Some? then Apply(s.hub, HubOp(s, e).value) else s.hub)
    ensures Agrees(Step(s, e).hub)
  {
    if e.Move? && e.w in s.waiters { assert Registered(s, e.w); }
    if e.Abandon? && e.w in s.waiters { assert Registered(s, e.w); }
    if HubOp(s, e).Some? { AgreesStep(s.hub, HubOp(s, e).value); }
  }

  predicate Acts(e: Event, w: WaiterId) {
    (e.Move? || e.Elapse? || e.Abandon?) && e.w == w
  }

  /** No step is taken on another waiter's handle, so its wake-ups only grow, and a fan-out of its payload leaves one. */
  lemma HandleKept(s: Sys, e: Event, w: WaiterId)
    requires Inv(s) && Holds(s, w) && !Acts(e, w) && HubOp(s, e).Some?
    ensures var h, op, x := Apply(s.hub, HubOp(s, e).value), HubOp(s, e).value, s.waiters[w].pc.sub;
      x in h.live && Tokens(h, x) >= Tokens(s.hub, x) && (op.OpNotify? && op.p == x.payload ==> Tokens(h, x) > 0)
  {
    var op, x := HubOp(s, e).value, s.waiters[w].pc.sub;
    assert Registered(s, w);
    if op.OpNotify? {
      FanOutWakes(s.hub, op.p, x);
    } else {
      if e.Move? || e.Abandon? { assert op.OpSubscribe? || op.s == s.waiters[e.w].pc.sub; }
      assert HeldByWaiter(s, x);
      OthersKeepTheirs(s.hub, op, x);
    }
  }

  lemma PlaceKept(s: Sys, e: Event, w: WaiterId)
    requires w in s.waiters && !Acts(e, w)
    ensures w in Step(s, e).waiters && Step(s, e).waiters[w] == s.waiters[w]
    ensures s.terminal <= Step(s, e).terminal && s.missed <= Step(s, e).missed
  {}

  /** A waiter that is not the one acting keeps its place, its handle and its wake-ups. */
  lemma BystanderKept(s: Sys, e: Event, w: WaiterId)
    requires Inv(s) && w in s.waiters && !Acts(e, w) && Step(s, e).hub.issued <= U64
    ensures var a := Step(s, e);
      w in a.waiters && a.waiters[w] == s.waiters[w] && Registered(a, w)
      && (Holds(s, w) ==> Tokens(a.hub, s.waiters[w].pc.sub) >= Tokens(s.hub, s.waiters[w].pc.sub))
      && (Holds(s, w) && e.Deliver? && s.queue != [] && s.queue[0] == s.waiters[w].payload ==>
            Tokens(a.hub, s.waiters[w].pc.sub) > 0)
  {
    HubStep(s, e);
    PlaceKept(s, e, w);
    assert Registered(s, w);
    if Holds(s, w) && HubOp(s, e).Some? { HandleKept(s, e, w); }
  }

  /** The acting waiter keeps its bargain too. */
  lemma ActorKept(s: Sys, e: Event, w: WaiterId)
    requires Inv(s) && w in s.waiters && Acts(e, w)
    requires Step(s, e).hub.issued <= U64
    ensures Registered(Step(s, e), w) && WillWake(Step(s, e), w)
  {
    assert Registered(s, w) && WillWake(s, w);
    HubStep(s, e);
  }

  /** After a step a waiter holds what it held, or what it has just subscribed. */
  lemma HandleAfter(s: Sys, e: Event, w: WaiterId)
    requires Holds(Step(s, e), w)
    ensures w in s.waiters
    ensures (Holds(s, w) && Step(s, e).waiters[w].pc.sub == s.waiters[w].pc.sub)
         || (e == Move(w) && Step(s, e).waiters[w].pc.sub == NewSubscription(s.hub, s.waiters[w].payload))
  {}

  lemma HandlesStep(s: Sys, e: Event)
    requires Inv(s)
    ensures OwnHandles(Step(s, e))
  {
    var a := Step(s, e);
    forall v, w | v in a.waiters && w in a.waiters && Holds(a, v) && Holds(a, w) && v != w
      ensures a.waiters[v].pc.sub != a.waiters[w].pc.sub
    {
      HandleAfter(s, e, v);
      HandleAfter(s, e, w);
      HandlesPair(s, e, v, w, a.waiters[v].pc.sub, a.waiters[w].pc.sub);
    }
  }

  lemma HandlesPair(s: Sys, e: Event, v: WaiterId, w: WaiterId, x: Subscription, y: Subscription)
    requires Inv(s) && v in s.waiters && w in s.waiters && v != w
    requires (Holds(s, v) && x == s.waiters[v].pc.sub) || (e == Move(v) && x == NewSubscription(s.hub, s.waiters[v].payload))
    requires (Holds(s, w) && y == s.waiters[w].pc.sub) || (e == Move(w) && y == NewSubscription(s.hub, s.waiters[w].payload))
    ensures x != y
  {
    assert Registered(s, v) && Registered(s, w);
    if e == Move(v) { FreshHandle(s.hub, s.waiters[v].payload, y); }
    if e == Move(w) { FreshHandle(s.hub, s.waiters[w].payload, x); }
  }

  lemma InvStep(s: Sys, e: Event)
    requires Inv(s) && Step(s, e).hub.issued <= U64
    ensures Inv(Step(s, e))
  {
    var a := Step(s, e);
    HubStep(s, e);
    HandlesStep(s, e);
    forall w | w in a.waiters ensures Registered(a, w) && WillWake(a, w) {
      if w in s.waiters {
        assert WillWake(s, w);
        if Acts(e, w) {
          ActorKept(s, e, w);
        } else {
          BystanderKept(s, e, w);
          BystanderWakes(s, e, w);
        }
      }
    }
  }

  /** A payload queued stays queued unless it is delivered or lost; one whose task just ended is queued. */
  lemma QueueKept(s: Sys, e: Event, p: Payload)
    ensures p in s.queue ==> p in Step(s, e).queue || p in Step(s, e).missed || (e.Deliver? && s.queue[0] == p)
    ensures p in Step(s, e).terminal && p !in s.terminal ==> p in Step(s, e).queue
  {
    if e.Deliver? && s.queue != [] && p in s.queue && p != s.queue[0] { assert p in s.queue[1..]; }
    if e.TaskEnds? && e.p == p { assert (s.queue + [p])[|s.queue|] == p; }
    if e.TaskEnds? || e.Notified? { assert p in s.queue ==> p in s.queue + [e.p]; }
  }

  lemma BystanderWakes(s: Sys, e: Event, w: WaiterId)
    requires Inv(s) && w in s.waiters && !Acts(e, w) && Step(s, e).hub.issued <= U64
    ensures WillWake(Step(s, e), w)
  {
    assert WillWake(s, w);
    BystanderKept(s, e, w);
    PlaceKept(s, e, w);
    QueueKept(s, e, s.waiters[w].payload);
  }

  /** In every reachable state a waiter on an ended task has a wake-up pending or on its way, unless a reconnect lost it. */
  lemma {:induction false} NoLostWakeUp(es: seq<Event>)
    requires Run(START, es).hub.issued <= U64
    ensures Inv(Run(START, es))
  {
    if es != [] {
      var front := es[..|es| - 1];
      IssuedGrows(Run(START, front), es[|es| - 1]);
      NoLostWakeUp(front);
      InvStep(Run(START, front), es[|es| - 1]);
    }
  }

  lemma IssuedGrows(s: Sys, e: Event)
    ensures s.hub.issued <= Step(s, e).hub.issued
  {}

  /**
   * However fan-outs, subscriptions, drops and coalesced wake-ups interleave: once every NOTIFY has been fanned
   * out, a waiter on an ended task finishes in its own next two statements.
   */
  lemma DeliveredMeansFinished(es: seq<Event>, w: WaiterId)
    requires Run(START, es).hub.issued <= U64
    requires var s := Run(START, es);
      w in s.waiters && s.waiters[w].pc.Waiting? && s.waiters[w].payload in s.terminal
      && s.waiters[w].payload !in s.queue && s.waiters[w].payload !in s.missed
    ensures Step(Step(Run(START, es), Move(w)), Move(w)).waiters[w].pc == Finished
  {
    NoLostWakeUp(es);
    assert WillWake(Run(START, es), w);
  }

  /** With the NOTIFY lost, the re-poll interval alone brings the waiter to the result. */
  lemma RepollRecovers(s: Sys, w: WaiterId)
    requires w in s.waiters && s.waiters[w].pc.Waiting? && s.waiters[w].payload in s.terminal
    ensures Step(Step(s, Elapse(w)), Move(w)).waiters[w].pc == Finished
  {}

  lemma FinishingMove(s: Sys, w: WaiterId)
    requires w in s.waiters && s.waiters[w].pc != Finished && Step(s, Move(w)).waiters[w].pc == Finished
    ensures s.waiters[w].payload in s.terminal
    ensures Holds(s, w) ==> Step(s, Move(w)).hub == Unsubscribe(s.hub, s.waiters[w].pc.sub)
  {}

  /** A waiter never finishes by its own move before its task has ended, and leaves no sender behind when it does. */
  lemma FinishesOnlyOnTheResult(es: seq<Event>, w: WaiterId)
    requires Run(START, es).hub.issued <= U64
    requires var s := Run(START, es);
      w in s.waiters && s.waiters[w].pc != Finished && Step(s, Move(w)).waiters[w].pc == Finished
    ensures var s := Run(START, es);
      s.waiters[w].payload in s.terminal && (Holds(s, w) ==> !Entry(Step(s, Move(w)).hub, s.waiters[w].pc.sub))
  {
    var s := Run(START, es);
    NoLostWakeUp(es);
    FinishingMove(s, w);
    assert Registered(s, w);
    if Holds(s, w) { DropRemovesOnlyItsOwn(s.hub, s.waiters[w].pc.sub); }
  }

  // ---- no busy waiting ----

  /** How often the waiter was woken into a read by a pending wake-up. */
  function WokenReads(es: seq<Event>, w: WaiterId): nat {
    if es == [] then 0
    else
      var front, s := es[..|es| - 1], Run(START, es[..|es| - 1]);
      WokenReads(front, w)
      + if es[|es| - 1] == Move(w) && w in s.waiters && s.waiters[w].pc.Waiting? && Run(START, es).waiters[w].pc.Polling?
        then 1 else 0
  }

  /** How many NOTIFYs of the payload have been fanned out. */
  function FannedOut(es: seq<Event>, p: Payload): nat {
    if es == [] then 0
    else
      var front, s := es[..|es| - 1], Run(START, es[..|es| - 1]);
      FannedOut(front, p) + if es[|es| - 1] == Deliver && s.queue != [] && s.queue[0] == p then 1 else 0
  }

  function Pending(s: Sys, w: WaiterId): nat {
    if Holds(s, w) then Tokens(s.hub, s.waiters[w].pc.sub) else 0
  }

  lemma HandleGains(s: Sys, e: Event, w: WaiterId)
    requires Inv(s) && Holds(s, w) && !Acts(e, w) && HubOp(s, e).Some?
    ensures var h, op, x := Apply(s.hub, HubOp(s, e).value), HubOp(s, e).value, s.waiters[w].pc.sub;
      Tokens(h, x) <= Tokens(s.hub, x) + if op == OpNotify(x.payload) then 1 else 0
  {
    var op, x := HubOp(s, e).value, s.waiters[w].pc.sub;
    assert Registered(s, w);
    if op.OpNotify? {
      FanOutWakes(s.hub, op.p, x);
    } else {
      if e.Move? || e.Abandon? { assert op.OpSubscribe? || op.s == s.waiters[e.w].pc.sub; }
      assert HeldByWaiter(s, x);
      OthersKeepTheirs(s.hub, op, x);
    }
  }

  lemma BystanderGains(s: Sys, e: Event, w: WaiterId)
    requires Inv(s) && w in s.waiters && !Acts(e, w) && Step(s, e).hub.issued <= U64
    ensures w in Step(s, e).waiters && Step(s, e).waiters[w] == s.waiters[w]
    ensures Pending(Step(s, e), w)
         <= Pending(s, w) + if e == Deliver && s.queue != [] && s.queue[0] == s.waiters[w].payload then 1 else 0
  {
    HubStep(s, e);
    PlaceKept(s, e, w);
    assert Registered(s, w);
    if Holds(s, w) && HubOp(s, e).Some? { HandleGains(s, e, w); }
  }

  lemma ActorSpends(s: Sys, e: Event, w: WaiterId)
    requires Inv(s) && w in s.waiters && Acts(e, w)
    ensures w in Step(s, e).waiters && Step(s, e).waiters[w].payload == s.waiters[w].payload
    ensures Pending(Step(s, e), w)
         + (if e == Move(w) && s.waiters[w].pc.Waiting? && Step(s, e).waiters[w].pc.Polling? then 1 else 0) <= Pending(s, w)
  {
    assert Registered(s, w);
    if e.Move? && s.waiters[w].pc.Waiting? { ReceiveTakesOne(s.hub, s.waiters[w].pc.sub); }
  }

  lemma StepPays(s: Sys, e: Event, w: WaiterId)
    requires Inv(s) && w in s.waiters && Step(s, e).hub.issued <= U64
    ensures var a := Step(s, e);
      w in a.waiters && a.waiters[w].payload == s.waiters[w].payload
      && Pending(a, w) + (if e == Move(w) && s.waiters[w].pc.Waiting? && a.waiters[w].pc.Polling? then 1 else 0)
         <= Pending(s, w) + (if e == Deliver && s.queue != [] && s.queue[0] == s.waiters[w].payload then 1 else 0)
  {
    if Acts(e, w) { ActorSpends(s, e, w); } else { BystanderGains(s, e, w); }
  }

  lemma NewcomerOwes(s: Sys, e: Event, w: WaiterId)
    requires w !in s.waiters && w in Step(s, e).waiters
    ensures Pending(Step(s, e), w) == 0
  {}

  /**
   * Each read a waiter makes out of a wake-up is paid for by its own fan-out: they are never more than the NOTIFYs of
   * its payload, whatever is still pending counted in.
   */
  lemma {:induction false} ReadsArePaidFor(es: seq<Event>, w: WaiterId)
    requires Run(START, es).hub.issued <= U64
    ensures var s := Run(START, es);
      if w in s.waiters then WokenReads(es, w) + Pending(s, w) <= FannedOut(es, s.waiters[w].payload)
      else WokenReads(es, w) == 0
  {
    if es != [] {
      var front, e := es[..|es| - 1], es[|es| - 1];
      var s := Run(START, front);
      IssuedGrows(s, e);
      ReadsArePaidFor(front, w);
      NoLostWakeUp(front);
      if w in s.waiters { StepPays(s, e, w); } else if w in Step(s, e).waiters { NewcomerOwes(s, e, w); }
    }
  }

  /** A task that has ended before its waiter's first read costs no subscription. */
  lemma EndedBeforeTheFirstRead(s: Sys, w: WaiterId)
    requires w in s.waiters && s.waiters[w].pc == FirstPoll
    ensures var a := Step(s, Move(w));
      a.hub == s.hub && a.waiters[w].pc == if s.waiters[w].payload in s.terminal then Finished else Registering
  {}

  /** What happens around the waiters: a newcomer reads first, an end notifies once, a reconnect loses all that is queued, others use their own handles. */
  lemma SurroundingsAreFree(s: Sys, p: Payload, op: Op, v: WaiterId)
    ensures v !in s.waiters ==> Step(s, Arrive(v, p)) == s.(waiters := s.waiters[v := Waiter(p, FirstPoll)])
    ensures Step(s, TaskEnds(p)) == if p in s.terminal then s else Sys(s.hub, s.terminal + {p}, s.queue + [p], s.missed, s.waiters)
    ensures Step(s, Reconnect).queue == [] && forall q :: q in Step(s, Reconnect).missed <==> q in s.missed || q in s.queue
    ensures !op.OpNotify? && (!op.OpSubscribe? ==> forall w :: w in s.waiters && Holds(s, w) ==> s.waiters[w].pc.sub != op.s)
      ==> Step(s, Others(op)) == Sys(Apply(s.hub, op), s.terminal, s.queue, s.missed, s.waiters)
  {}

  // ---- a full channel ----

  const WAITING_ON_X: seq<Event> := [Arrive(0, "x"), Move(0), Move(0), Move(0)]

  /** `n` notifications of a task that has not ended, each fanned out at once. */
  function Flood(n: nat): seq<Event> {
    if n == 0 then WAITING_ON_X else Flood(n - 1) + [Notified("x"), Deliver]
  }

  /** The waiter has subscribed and is asleep with this many wake-ups pending. */
  predicate AsleepWith(s: Sys, tokens: nat) {
    s.terminal == {} && s.queue == [] && s.missed == {} && s.hub.issued == 1 && 0 in s.waiters
    && s.waiters[0] == Waiter("x", Waiting(Subscription("x", 0, 0))) && Tokens(s.hub, Subscription("x", 0, 0)) == tokens
  }

  lemma TwoMore(s: Sys, es: seq<Event>, a: Event, b: Event)
    ensures Run(s, es + [a, b]) == Step(Step(Run(s, es), a), b)
  {
    var all := es + [a, b];
    assert all[..|all| - 1] == es + [a] && (es + [a])[..|es|] == es;
  }

  lemma AsleepAtFirst()
    ensures AsleepWith(Run(START, WAITING_ON_X), 0)
  {
    assert WAITING_ON_X == ([] + [Arrive(0, "x"), Move(0)]) + [Move(0), Move(0)];
    TwoMore(START, [], Arrive(0, "x"), Move(0));
    TwoMore(START, [] + [Arrive(0, "x"), Move(0)], Move(0), Move(0));
    SmallMod(0);
  }

  lemma OneMoreWake(s: Sys, tokens: nat)
    requires Inv(s) && AsleepWith(s, tokens)
    ensures AsleepWith(Step(Step(s, Notified("x")), Deliver), if tokens < CHANNEL_CAPACITY then tokens + 1 else tokens)
  {
    assert Registered(s, 0);
    FanOutWakes(s.hub, "x", Subscription("x", 0, 0));
  }

  /** The channel coalesces: it fills at eight wake-ups and further fan-outs leave it full. */
  lemma {:induction false} FloodCoalesces(n: nat)
    ensures AsleepWith(Run(START, Flood(n)), Min(n, 8))
  {
    if n == 0 {
      AsleepAtFirst();
    } else {
      FloodCoalesces(n - 1);
      NoLostWakeUp(Flood(n - 1));
      OneMoreWake(Run(START, Flood(n - 1)), Min(n - 1, CHANNEL_CAPACITY));
      TwoMore(START, Flood(n - 1), Notified("x"), Deliver);
    }
  }

  lemma EndsWhileFull(s: Sys)
    requires Inv(s) && AsleepWith(s, CHANNEL_CAPACITY)
    ensures var u := Step(Step(s, TaskEnds("x")), Deliver);
      u.waiters == s.waiters && u.terminal == {"x"} && Tokens(u.hub, Subscription("x", 0, 0)) == CHANNEL_CAPACITY
  {
    assert Registered(s, 0);
    FanOutWakes(s.hub, "x", Subscription("x", 0, 0));
  }

  lemma TwoMovesFinish(s: Sys, w: WaiterId)
    requires w in s.waiters && s.waiters[w].pc.Waiting? && s.waiters[w].payload in s.terminal
    requires Tokens(s.hub, s.waiters[w].pc.sub) > 0
    ensures var u := Step(Step(s, Move(w)), Move(w)); w in u.waiters && u.waiters[w].pc == Finished
  {}

  /** With the channel full when the task ends, the end's own wake-up is coalesced and the waiter still finishes. */
  lemma FullChannelStillWakes(n: nat)
    requires n >= CHANNEL_CAPACITY
    ensures var s := Run(START, Flood(n) + [TaskEnds("x"), Deliver]);
      Tokens(s.hub, Subscription("x", 0, 0)) == CHANNEL_CAPACITY
      && 0 in Step(Step(s, Move(0)), Move(0)).waiters && Step(Step(s, Move(0)), Move(0)).waiters[0].pc == Finished
  {
    FloodCoalesces(n);
    NoLostWakeUp(Flood(n));
    TwoMore(START, Flood(n), TaskEnds("x"), Deliver);
    EndsWhileFull(Run(START, Flood(n)));
    TwoMovesFinish(Run(START, Flood(n) + [TaskEnds("x"), Deliver]), 0);
  }
}
