/** The shared NOTIFY listener: its subscriber map, and the wake-ups that reach a waiting caller. */
module Listener {
  import opened Prelude

  type Payload = string

  const CHANNEL_CAPACITY := 8
  const U64 := 0x1_0000_0000_0000_0000

  /** A subscription handle; `channel` is the receiving end it holds. */
  datatype Subscription = Subscription(payload: Payload, subId: nat, channel: nat)

  /** A channel with its pending wake-ups; it is made for one subscription id of one payload. */
  datatype Channel = Channel(payload: Payload, subId: nat, tokens: nat, open: bool)

  /**
   * `senders` maps a payload to its senders by subscription id. A leaked subscription has lost its receiver
   * without having been unsubscribed.
   */
  datatype Hub = Hub(
    senders: map<Payload, map<nat, nat>>,
    channels: map<nat, Channel>,
    issued: nat,
    live: set<Subscription>,
    leaked: set<Subscription>)

  const EMPTY := Hub(map[], map[], 0, {}, {})

  predicate Open(h: Hub, c: nat) {
    c in h.channels && h.channels[c].open
  }

  function Inner(h: Hub, p: Payload): map<nat, nat> {
    if p in h.senders then h.senders[p] else map[]
  }

  /** The subscription id is a 64-bit counter that wraps; inserting replaces a sender with the same id. */
  function NewSubscription(h: Hub, p: Payload): Subscription {
    Subscription(p, h.issued % U64, h.issued)
  }

  function Subscribe(h: Hub, p: Payload): Hub {
    var s := NewSubscription(h, p);
    h.(senders := h.senders[p := Inner(h, p)[s.subId := s.channel]],
       channels := h.channels[s.channel := Channel(p, s.subId, 0, true)],
       issued := h.issued + 1,
       live := h.live + {s})
  }

  function Retained(h: Hub, p: Payload): map<nat, nat> {
    map k | k in Inner(h, p) && Open(h, Inner(h, p)[k]) :: Inner(h, p)[k]
  }

  /** try_send: a full channel keeps the wake-ups it has. */
  function Sent(c: Channel): Channel {
    if c.tokens < CHANNEL_CAPACITY then c.(tokens := c.tokens + 1) else c
  }

  function WithoutEmpty(senders: map<Payload, map<nat, nat>>, p: Payload, inner: map<nat, nat>): map<Payload, map<nat, nat>> {
    if inner == map[] then senders - {p} else senders[p := inner]
  }

  function Woken(channels: map<nat, Channel>, kept: map<nat, nat>): map<nat, Channel> {
    map c | c in channels :: if c in kept.Values then Sent(channels[c]) else channels[c]
  }

  function FanOut(h: Hub, p: Payload): Hub {
    if p !in h.senders then h
    else
      var kept := Retained(h, p);
      h.(senders := WithoutEmpty(h.senders, p, kept),
         channels := Woken(h.channels, kept),
         leaked := set s | s in h.leaked && s.payload != p)
  }

  function Unsubscribe(h: Hub, s: Subscription): Hub {
    var closed := h.(channels := if s.channel in h.channels then h.channels[s.channel := h.channels[s.channel].(open := false)] else h.channels,
                     live := h.live - {s});
    if s.payload !in h.senders then closed
    else closed.(senders := WithoutEmpty(h.senders, s.payload, h.senders[s.payload] - {s.subId}))
  }

  function Leak(h: Hub, s: Subscription): Hub {
    h.(channels := if s.channel in h.channels then h.channels[s.channel := h.channels[s.channel].(open := false)] else h.channels,
       live := h.live - {s}, leaked := h.leaked + {s})
  }

  function Tokens(h: Hub, s: Subscription): nat {
    if s.channel in h.channels then h.channels[s.channel].tokens else 0
  }

  function Receive(h: Hub, s: Subscription): Hub {
    if Tokens(h, s) == 0 then h
    else h.(channels := h.channels[s.channel := h.channels[s.channel].(tokens := h.channels[s.channel].tokens - 1)])
  }

  /** Every sender in the map has the channel made for it. */
  predicate OwnChannels(h: Hub) {
    (forall p, k :: p in h.senders && k in h.senders[p] ==> MadeFor(h, h.senders[p][k], p, k))
    && forall c :: c in h.channels ==> c < h.issued
  }

  predicate MadeFor(h: Hub, c: nat, p: Payload, k: nat) {
    c in h.channels && h.channels[c].payload == p && h.channels[c].subId == k
  }

  /** The channel's own sender is among the retained ones. */
  predicate KeptFor(channels: map<nat, Channel>, kept: map<nat, nat>, p: Payload, c: nat) {
    c in channels && channels[c].payload == p && channels[c].subId in kept && kept[channels[c].subId] == c
  }

  lemma WokenByOwnId(h: Hub, p: Payload, c: nat)
    requires OwnChannels(h)
    ensures c in Retained(h, p).Values <==> KeptFor(h.channels, Retained(h, p), p, c)
  {
    var kept := Retained(h, p);
    if c in kept.Values {
      var k :| k in kept && kept[k] == c;
      assert MadeFor(h, h.senders[p][k], p, k);
    }
  }

  lemma FanOutOwn(h: Hub, p: Payload)
    requires OwnChannels(h)
    ensures OwnChannels(FanOut(h, p))
  {
    var a := FanOut(h, p);
    forall q, k | q in a.senders && k in a.senders[q] ensures MadeFor(a, a.senders[q][k], q, k) {
      assert MadeFor(h, h.senders[q][k], q, k);
    }
  }

  // ---- the listener object ----

  class SharedNotifyListener {
    var senders: map<Payload, map<nat, nat>>
    var channels: map<nat, Channel>
    var issued: nat
    var live: set<Subscription>
    var leaked: set<Subscription>

    function State(): Hub
      reads this
    {
      Hub(senders, channels, issued, live, leaked)
    }

    predicate Valid()
      reads this
    {
      OwnChannels(State())
    }

    constructor ()
      ensures Valid() && State() == EMPTY
    {
      senders, channels, issued, live, leaked := map[], map[], 0, {}, {};
    }

    method SubscribeTo(p: Payload) returns (s: Subscription)
      requires Valid()
      modifies this
      ensures Valid() && State() == Subscribe(old(State()), p) && s == NewSubscription(old(State()), p)
    {
      s := Subscription(p, issued % U64, issued);
      issued := issued + 1;
      channels := channels[s.channel := Channel(p, s.subId, 0, true)];
      var inner := if p in senders then senders[p] else map[];
      senders := senders[p := inner[s.subId := s.channel]];
      live := live + {s};
    }

    method TrySend(c: nat)
      requires c in channels
      modifies `channels
      ensures channels == old(channels)[c := Sent(old(channels)[c])]
    {
      if channels[c].tokens < CHANNEL_CAPACITY {
        channels := channels[c := channels[c].(tokens := channels[c].tokens + 1)];
      }
      assert channels == old(channels)[c := Sent(old(channels)[c])];
    }

    /** Wake every retained sender of a payload. */
    method WakeAll(p: Payload, kept: map<nat, nat>)
      requires Valid() && p in senders && kept == Retained(State(), p)
      modifies `channels
      ensures channels == Woken(old(channels), kept)
    {
      ghost var start := State();
      var pending := kept.Keys;
      while pending != {}
        invariant pending <= kept.Keys
        invariant channels.Keys == start.channels.Keys
        invariant forall c :: c in start.channels ==>
          channels[c] == if KeptFor(start.channels, kept, p, c) && start.channels[c].subId !in pending
                         then Sent(start.channels[c]) else start.channels[c]
        decreases |pending|
      {
        var k: nat :| k in pending;
        assert MadeFor(start, start.senders[p][k], p, k);
        TrySend(kept[k]);
        pending := pending - {k};
      }
      forall c | c in start.channels ensures c in kept.Values <==> KeptFor(start.channels, kept, p, c) {
        WokenByOwnId(start, p, c);
      }
    }

    /** One NOTIFY: forget closed senders, wake the rest, drop the payload entry when none is left. */
    method Notify(p: Payload)
      requires Valid()
      modifies this
      ensures Valid() && State() == FanOut(old(State()), p)
    {
      if p !in senders { return; }
      ghost var start := State();
      var kept := Retained(State(), p);
      WakeAll(p, kept);
      if kept == map[] { senders := senders - {p}; } else { senders := senders[p := kept]; }
      leaked := set s | s in leaked && s.payload != p;
      FanOutOwn(start, p);
    }

    /** What dropping a subscription does. */
    method Drop(s: Subscription)
      requires Valid()
      modifies this
      ensures Valid() && State() == Unsubscribe(old(State()), s)
    {
      if s.payload in senders {
        var inner := senders[s.payload] - {s.subId};
        if inner == map[] { senders := senders - {s.payload}; } else { senders := senders[s.payload := inner]; }
      }
      if s.channel in channels { channels := channels[s.channel := channels[s.channel].(open := false)]; }
      live := live - {s};
    }

    /** Take a pending wake-up, if there is one. */
    method TryReceive(s: Subscription) returns (woken: bool)
      requires Valid()
      modifies `channels
      ensures Valid() && State() == Receive(old(State()), s) && woken == (Tokens(old(State()), s) > 0)
    {
      woken := s.channel in channels && channels[s.channel].tokens > 0;
      if woken { channels := channels[s.channel := channels[s.channel].(tokens := channels[s.channel].tokens - 1)]; }
    }
  }

  // ---- the map and the subscriptions agree ----

  /** The map holds this subscription's sender. */
  predicate Entry(h: Hub, s: Subscription) {
    s.payload in h.senders && s.subId in h.senders[s.payload] && h.senders[s.payload][s.subId] == s.channel
  }

  predicate Numbered(h: Hub, s: Subscription) {
    s.channel < h.issued && s.subId == s.channel % U64 && MadeFor(h, s.channel, s.payload, s.subId)
  }

  /** The map holds exactly the live subscriptions and the leaked ones not yet noticed, and no empty inner map. */
  ghost predicate Agrees(h: Hub) {
    OwnChannels(h) && h.live !! h.leaked
    && (forall p :: p in h.senders ==> h.senders[p] != map[])
    && (forall s :: Entry(h, s) <==> s in h.live || s in h.leaked)
    && (forall s :: s in h.live ==> Numbered(h, s) && h.channels[s.channel].open)
    && forall s :: s in h.leaked ==> Numbered(h, s) && !h.channels[s.channel].open
  }

  datatype Op =
    | OpSubscribe(p: Payload)
    | OpNotify(p: Payload)
    | OpDrop(s: Subscription)
    | OpLeak(s: Subscription)
    | OpReceive(s: Subscription)

  /** A subscription can only be dropped, leaked or read while its holder has it. */
  function Apply(h: Hub, op: Op): Hub {
    match op
    case OpSubscribe(p) => Subscribe(h, p)
    case OpNotify(p) => FanOut(h, p)
    case OpDrop(s) => if s in h.live then Unsubscribe(h, s) else h
    case OpLeak(s) => if s in h.live then Leak(h, s) else h
    case OpReceive(s) => if s in h.live then Receive(h, s) else h
  }

  function Run(h: Hub, ops: seq<Op>): Hub {
    if ops == [] then h else Apply(Run(h, ops[..|ops| - 1]), ops[|ops| - 1])
  }

  lemma SmallMod(n: nat)
    requires n < U64
    ensures n % U64 == n
  {}

  lemma SubscribeEntries(h: Hub, p: Payload, s: Subscription)
    requires Agrees(h) && h.issued < U64
    ensures Entry(Subscribe(h, p), s) <==> Entry(h, s) || s == NewSubscription(h, p)
  {
    SmallMod(h.issued);
    if Entry(h, s) { assert Numbered(h, s); SmallMod(s.channel); }
  }

  lemma SubscribeOwn(h: Hub, p: Payload)
    requires OwnChannels(h)
    ensures OwnChannels(Subscribe(h, p))
  {}

  lemma SubscribeAdds(h: Hub, p: Payload)
    requires Agrees(h) && h.issued < U64
    ensures Agrees(Subscribe(h, p))
    ensures forall s :: Entry(Subscribe(h, p), s) <==> Entry(h, s) || s == NewSubscription(h, p)
  {
    var a, n := Subscribe(h, p), NewSubscription(h, p);
    SubscribeOwn(h, p);
    forall s ensures Entry(a, s) <==> Entry(h, s) || s == n { SubscribeEntries(h, p, s); }
    forall s | s in h.live || s in h.leaked ensures Numbered(a, s) && a.channels[s.channel] == h.channels[s.channel] {
      assert Numbered(h, s);
    }
  }

  lemma FanOutEntries(h: Hub, p: Payload, s: Subscription)
    requires Agrees(h)
    ensures Entry(FanOut(h, p), s) <==> Entry(h, s) && (s.payload != p || s in h.live)
  {
    if Entry(h, s) {
      assert Numbered(h, s);
      assert s.payload == p ==> (s.subId in Retained(h, p) <==> s in h.live);
    }
  }

  /** A fan-out leaves every channel's owner and its being open as they were. */
  lemma FanOutChannels(h: Hub, p: Payload, c: nat)
    ensures c in FanOut(h, p).channels <==> c in h.channels
    ensures c in h.channels ==> FanOut(h, p).channels[c] == h.channels[c].(tokens := FanOut(h, p).channels[c].tokens)
  {}

  lemma FanOutNoEmpty(h: Hub, p: Payload)
    requires forall q :: q in h.senders ==> h.senders[q] != map[]
    ensures forall q :: q in FanOut(h, p).senders ==> FanOut(h, p).senders[q] != map[]
  {}

  lemma NotifyForgetsTheLeaked(h: Hub, p: Payload)
    requires Agrees(h)
    ensures Agrees(FanOut(h, p))
    ensures forall s :: Entry(FanOut(h, p), s) <==> Entry(h, s) && (s.payload != p || s in h.live)
  {
    var a := FanOut(h, p);
    FanOutOwn(h, p);
    FanOutNoEmpty(h, p);
    forall s ensures Entry(a, s) <==> Entry(h, s) && (s.payload != p || s in h.live) { FanOutEntries(h, p, s); }
    forall s | s in h.live || s in h.leaked ensures Numbered(a, s) && a.channels[s.channel].open == h.channels[s.channel].open {
      assert Numbered(h, s);
      FanOutChannels(h, p, s.channel);
    }
    if p !in h.senders {
      forall s | s in h.leaked ensures s.payload != p { assert Entry(h, s); }
    }
  }

  lemma DropEntries(h: Hub, s: Subscription, x: Subscription)
    requires Agrees(h) && s in h.live
    ensures Entry(Unsubscribe(h, s), x) <==> Entry(h, x) && x != s
  {
    assert Entry(h, s);
    var inner := h.senders[s.payload] - {s.subId};
    assert Entry(h, x) && x.payload == s.payload && x != s ==> x.subId in inner;
  }

  lemma DropOwn(h: Hub, s: Subscription)
    requires Agrees(h) && s in h.live
    ensures OwnChannels(Unsubscribe(h, s))
    ensures forall p :: p in Unsubscribe(h, s).senders ==> Unsubscribe(h, s).senders[p] != map[]
  {
    var a := Unsubscribe(h, s);
    forall q, k | q in a.senders && k in a.senders[q] ensures MadeFor(a, a.senders[q][k], q, k) {
      assert MadeFor(h, h.senders[q][k], q, k);
    }
  }

  /** Dropping a subscription removes its own sender and no other. */
  lemma DropRemovesOnlyItsOwn(h: Hub, s: Subscription)
    requires Agrees(h) && s in h.live
    ensures Agrees(Unsubscribe(h, s))
    ensures forall x :: Entry(Unsubscribe(h, s), x) <==> Entry(h, x) && x != s
    ensures !Open(Unsubscribe(h, s), s.channel)
  {
    var a := Unsubscribe(h, s);
    DropOwn(h, s);
    forall x ensures Entry(a, x) <==> Entry(h, x) && x != s { DropEntries(h, s, x); }
    forall x | x in a.live || x in a.leaked ensures x.channel != s.channel {
      assert Numbered(h, x) && Numbered(h, s);
    }
  }

  lemma LeakAgrees(h: Hub, s: Subscription)
    requires Agrees(h) && s in h.live
    ensures Agrees(Leak(h, s))
  {
    var a := Leak(h, s);
    forall x | x in a.live || (x in a.leaked && x != s) ensures x.channel != s.channel {
      assert Numbered(h, x) && Numbered(h, s);
    }
  }

  /** A wake-up is taken once: a read leaves one token fewer, and none to take leaves everything as it is. */
  lemma ReceiveTakesOne(h: Hub, s: Subscription)
    requires Agrees(h) && s in h.live
    ensures Tokens(h, s) > 0 ==> Tokens(Receive(h, s), s) == Tokens(h, s) - 1
    ensures Tokens(h, s) == 0 ==> Receive(h, s) == h
  {
    assert Numbered(h, s);
  }

  lemma ReceiveAgrees(h: Hub, s: Subscription)
    requires Agrees(h)
    ensures Agrees(Receive(h, s))
  {}

  lemma AgreesStep(h: Hub, op: Op)
    requires Agrees(h) && Apply(h, op).issued <= U64
    ensures Agrees(Apply(h, op))
  {
    match op
    case OpSubscribe(p) => SubscribeAdds(h, p);
    case OpNotify(p) => NotifyForgetsTheLeaked(h, p);
    case OpDrop(s) => if s in h.live { DropRemovesOnlyItsOwn(h, s); }
    case OpLeak(s) => if s in h.live { LeakAgrees(h, s); }
    case OpReceive(s) => if s in h.live { ReceiveAgrees(h, s); }
  }

  /** Until the 64-bit counter wraps, the map and the subscriptions agree in every reachable state. */
  lemma {:induction false} MapAgreement(ops: seq<Op>)
    requires Run(EMPTY, ops).issued <= 0x1_0000_0000_0000_0000
    ensures Agrees(Run(EMPTY, ops))
  {
    if ops != [] {
      assert Run(EMPTY, ops[..|ops| - 1]).issued <= Run(EMPTY, ops).issued;
      MapAgreement(ops[..|ops| - 1]);
      AgreesStep(Run(EMPTY, ops[..|ops| - 1]), ops[|ops| - 1]);
    }
  }

  /** When every receiver that goes away is dropped properly, the map holds exactly the live subscriptions. */
  lemma {:induction false} NoLeakNoStaleEntry(ops: seq<Op>, s: Subscription)
    requires Run(EMPTY, ops).issued <= U64
    requires forall i :: 0 <= i < |ops| ==> !ops[i].OpLeak?
    ensures Entry(Run(EMPTY, ops), s) <==> s in Run(EMPTY, ops).live
  {
    MapAgreement(ops);
    NoneLeaked(ops);
  }

  lemma {:induction false} NoneLeaked(ops: seq<Op>)
    requires forall i :: 0 <= i < |ops| ==> !ops[i].OpLeak?
    ensures Run(EMPTY, ops).leaked == {}
  {
    if ops != [] { NoneLeaked(ops[..|ops| - 1]); }
  }
}
