/** The showcase's stock reservations: per-SKU counters tied to per-line flags. */
module Stock {
  import opened Prelude

  type Sku = string
  type OrderId = string

  datatype StockRow = StockRow(onHand: int, reserved: int)

  datatype Line = Line(order: OrderId, lineNo: int, sku: Sku, quantity: int, reserved: bool, consumed: bool)

  datatype Status = Placed | Validated | Reserved | Authorized | Failed | Later(text: string)

  /** The line table is kept in row order; (order, lineNo) is its primary key. */
  datatype Store = Store(stock: map<Sku, StockRow>, orders: map<OrderId, Status>, lines: seq<Line>)

  datatype ReservationOutcome =
    ReservationOutcome(reserved: bool, replayed: bool, knownSku: bool, orderOpen: bool, available: int)

  datatype ConsumptionOutcome = ConsumptionOutcome(consumed: bool, replayed: bool)

  /** Reserved and not yet consumed. */
  predicate Held(l: Line) {
    l.reserved && !l.consumed
  }

  function Find(lines: seq<Line>, o: OrderId, n: int): (i: nat)
    ensures i <= |lines|
    ensures i < |lines| ==> lines[i].order == o && lines[i].lineNo == n
    ensures forall j :: 0 <= j < i ==> !(lines[j].order == o && lines[j].lineNo == n)
  {
    if lines == [] then 0
    else if lines[0].order == o && lines[0].lineNo == n then 0
    else 1 + Find(lines[1..], o, n)
  }

  function AvailableOf(s: Store, sku: Sku): Option<int> {
    if sku in s.stock then Some(s.stock[sku].onHand - s.stock[sku].reserved) else None
  }

  function OrZero(x: Option<int>): int {
    if x.Some? then x.value else 0
  }

  predicate Open(status: Status) {
    status in {Placed, Validated}
  }

  predicate ReserveApplies(s: Store, o: OrderId, n: int, sku: Sku, q: int) {
    o in s.orders && Open(s.orders[o]) && Find(s.lines, o, n) < |s.lines| && !s.lines[Find(s.lines, o, n)].reserved
    && sku in s.stock && s.stock[sku].onHand - s.stock[sku].reserved >= q
  }

  function ReserveLine(s: Store, o: OrderId, n: int, sku: Sku, q: int): (Store, ReservationOutcome) {
    var i, available := Find(s.lines, o, n), AvailableOf(s, sku);
    if o !in s.orders then (s, ReservationOutcome(false, false, false, false, 0))
    else if !Open(s.orders[o]) then (s, ReservationOutcome(false, false, true, false, OrZero(available)))
    else if i == |s.lines| then (s, ReservationOutcome(false, false, false, true, 0))
    else if s.lines[i].reserved then (s, ReservationOutcome(true, true, true, true, OrZero(available)))
    else if available.None? then (s, ReservationOutcome(false, false, false, true, 0))
    else if available.value < q then (s, ReservationOutcome(false, false, true, true, available.value))
    else
      (s.(stock := s.stock[sku := s.stock[sku].(reserved := s.stock[sku].reserved + q)],
          lines := s.lines[i := s.lines[i].(reserved := true)]),
       ReservationOutcome(true, false, true, true, available.value - q))
  }

  /** Quantities of the order's held lines of one SKU, and of all of them. */
  function HeldOf(lines: seq<Line>, o: OrderId, sku: Sku): int {
    if lines == [] then 0
    else
      var l := lines[|lines| - 1];
      HeldOf(lines[..|lines| - 1], o, sku) + if l.order == o && Held(l) && l.sku == sku then l.quantity else 0
  }

  function HeldUnits(lines: seq<Line>, o: OrderId): int {
    if lines == [] then 0
    else
      var l := lines[|lines| - 1];
      HeldUnits(lines[..|lines| - 1], o) + if l.order == o && Held(l) then l.quantity else 0
  }

  predicate HoldsSku(lines: seq<Line>, o: OrderId, sku: Sku) {
    exists i :: 0 <= i < |lines| && lines[i].order == o && Held(lines[i]) && lines[i].sku == sku
  }

  function Unreserve(lines: seq<Line>, o: OrderId): (r: seq<Line>)
    ensures |r| == |lines|
    ensures forall i :: 0 <= i < |lines| ==>
      r[i] == if lines[i].order == o && Held(lines[i]) then lines[i].(reserved := false) else lines[i]
  {
    if lines == [] then []
    else
      var l := lines[|lines| - 1];
      Unreserve(lines[..|lines| - 1], o) + [if l.order == o && Held(l) then l.(reserved := false) else l]
  }

  function AfterFailure(status: Status): Status {
    if status in {Placed, Validated, Reserved, Authorized} then Failed else status
  }

  function StockAfter(stock: map<Sku, StockRow>, lines: seq<Line>, o: OrderId): map<Sku, StockRow> {
    map sku | sku in stock ::
      if HoldsSku(lines, o, sku) then stock[sku].(reserved := Max(0, stock[sku].reserved - HeldOf(lines, o, sku)))
      else stock[sku]
  }

  function LessReleased(stock: map<Sku, StockRow>, released: map<Sku, int>, pending: set<Sku>): map<Sku, StockRow> {
    map sku | sku in stock ::
      if sku in released && sku !in pending then stock[sku].(reserved := Max(0, stock[sku].reserved - released[sku]))
      else stock[sku]
  }

  lemma HoldsSnoc(here: seq<Line>, line: Line, o: OrderId, sku: Sku)
    ensures HoldsSku(here + [line], o, sku) <==> HoldsSku(here, o, sku) || (line.order == o && Held(line) && line.sku == sku)
  {
    var next := here + [line];
    if HoldsSku(here, o, sku) {
      var i :| 0 <= i < |here| && here[i].order == o && Held(here[i]) && here[i].sku == sku;
      assert next[i] == here[i];
    }
    assert next[|here|] == line;
  }

  /** The map has an entry for exactly the SKUs the order holds, with what it holds of them. */
  ghost predicate Tallied(released: map<Sku, int>, lines: seq<Line>, o: OrderId) {
    forall sku :: (sku in released <==> HoldsSku(lines, o, sku))
      && HeldOf(lines, o, sku) == if sku in released then released[sku] else 0
  }

  lemma TalliedSnoc(released: map<Sku, int>, here: seq<Line>, line: Line, o: OrderId)
    requires Tallied(released, here, o)
    ensures Tallied(PlusLine(released, line, o), here + [line], o)
    ensures HeldUnits(here + [line], o) == HeldUnits(here, o) + if line.order == o && Held(line) then line.quantity else 0
  {
    assert (here + [line])[..|here|] == here;
    forall sku ensures HoldsSku(here + [line], o, sku) <==> HoldsSku(here, o, sku) || (line.order == o && Held(line) && line.sku == sku) {
      HoldsSnoc(here, line, o, sku);
    }
  }

  function PlusLine(released: map<Sku, int>, line: Line, o: OrderId): map<Sku, int> {
    if line.order == o && Held(line)
    then released[line.sku := (if line.sku in released then released[line.sku] else 0) + line.quantity]
    else released
  }

  lemma TalliedRelease(stock: map<Sku, StockRow>, lines: seq<Line>, o: OrderId, released: map<Sku, int>)
    requires Tallied(released, lines, o)
    ensures LessReleased(stock, released, {}) == StockAfter(stock, lines, o)
  {}

  function Release(s: Store, o: OrderId, markFailed: bool): (Store, int) {
    if o !in s.orders then (s, 0)
    else
      (Store(StockAfter(s.stock, s.lines, o),
             if markFailed then s.orders[o := AfterFailure(s.orders[o])] else s.orders,
             Unreserve(s.lines, o)),
       HeldUnits(s.lines, o))
  }

  /** The flag `reserved` of the line is not looked at. */
  function ConsumeLine(s: Store, o: OrderId, n: int, sku: Sku, q: int): (Store, ConsumptionOutcome) {
    var i := Find(s.lines, o, n);
    if i == |s.lines| then (s, ConsumptionOutcome(false, false))
    else if s.lines[i].consumed then (s, ConsumptionOutcome(true, true))
    else
      var stock := if sku in s.stock
                   then s.stock[sku := StockRow(Max(0, s.stock[sku].onHand - q), Max(0, s.stock[sku].reserved - q))]
                   else s.stock;
      (s.(stock := stock, lines := s.lines[i := s.lines[i].(consumed := true)]), ConsumptionOutcome(true, false))
  }

  // ---- the store object ----

  class AcmeStore {
    var stock: map<Sku, StockRow>
    var orders: map<OrderId, Status>
    var lines: seq<Line>

    function State(): Store
      reads this
    {
      Store(stock, orders, lines)
    }

    constructor (s: Store)
      ensures State() == s
    {
      stock, orders, lines := s.stock, s.orders, s.lines;
    }

    method Reserve(o: OrderId, n: int, sku: Sku, q: int) returns (r: ReservationOutcome)
      modifies `stock, `lines
      ensures (State(), r) == ReserveLine(old(State()), o, n, sku, q)
      ensures (r.reserved && !r.replayed) <==> ReserveApplies(old(State()), o, n, sku, q)
    {
      if o !in orders { return ReservationOutcome(false, false, false, false, 0); }
      var available := AvailableOf(State(), sku);
      if !Open(orders[o]) { return ReservationOutcome(false, false, true, false, OrZero(available)); }
      var i := Find(lines, o, n);
      if i == |lines| { return ReservationOutcome(false, false, false, true, 0); }
      if lines[i].reserved { return ReservationOutcome(true, true, true, true, OrZero(available)); }
      if available.None? { return ReservationOutcome(false, false, false, true, 0); }
      if available.value < q { return ReservationOutcome(false, false, true, true, available.value); }
      stock := stock[sku := stock[sku].(reserved := stock[sku].reserved + q)];
      lines := lines[i := lines[i].(reserved := true)];
      return ReservationOutcome(true, false, true, true, available.value - q);
    }

    /** The order's held lines, accumulated by SKU and in all. */
    method TallyHeld(o: OrderId) returns (releasedBySku: map<Sku, int>, releasedUnits: int)
      ensures releasedUnits == HeldUnits(lines, o)
      ensures Tallied(releasedBySku, lines, o)
    {
      releasedBySku, releasedUnits := map[], 0;
      for i := 0 to |lines|
        invariant releasedUnits == HeldUnits(lines[..i], o)
        invariant Tallied(releasedBySku, lines[..i], o)
      {
        var line := lines[i];
        assert lines[..i + 1] == lines[..i] + [line];
        TalliedSnoc(releasedBySku, lines[..i], line, o);
        ghost var next := PlusLine(releasedBySku, line, o);
        if line.order == o && line.reserved && !line.consumed {
          var soFar := if line.sku in releasedBySku then releasedBySku[line.sku] else 0;
          releasedBySku := releasedBySku[line.sku := soFar + line.quantity];
          releasedUnits := releasedUnits + line.quantity;
        }
        assert releasedBySku == next;
      }
      assert lines[..|lines|] == lines;
    }

    method ReleaseOrderReservations(o: OrderId, markFailed: bool) returns (releasedUnits: int)
      modifies this
      ensures (State(), releasedUnits) == Release(old(State()), o, markFailed)
    {
      if o !in orders { return 0; }
      if markFailed && orders[o] in {Placed, Validated, Reserved, Authorized} { orders := orders[o := Failed]; }
      assert orders == if markFailed then old(orders)[o := AfterFailure(old(orders)[o])] else old(orders);
      var releasedBySku;
      releasedBySku, releasedUnits := TallyHeld(o);
      ReleaseStock(releasedBySku);
      TalliedRelease(old(stock), lines, o, releasedBySku);
      lines := Unreserve(lines, o);
    }

    /** One UPDATE per SKU of the accumulated map. */
    method ReleaseStock(releasedBySku: map<Sku, int>)
      modifies `stock
      ensures stock == LessReleased(old(stock), releasedBySku, {})
    {
      var pending := releasedBySku.Keys;
      while pending != {}
        invariant pending <= releasedBySku.Keys
        invariant stock == LessReleased(old(stock), releasedBySku, pending)
        decreases |pending|
      {
        var sku :| sku in pending;
        pending := pending - {sku};
        if sku in stock {
          stock := stock[sku := stock[sku].(reserved := Max(0, stock[sku].reserved - releasedBySku[sku]))];
        }
      }
    }

    method Consume(o: OrderId, n: int, sku: Sku, q: int) returns (r: ConsumptionOutcome)
      modifies `stock, `lines
      ensures (State(), r) == ConsumeLine(old(State()), o, n, sku, q)
    {
      var i := Find(lines, o, n);
      if i == |lines| { return ConsumptionOutcome(false, false); }
      if lines[i].consumed { return ConsumptionOutcome(true, true); }
      if sku in stock {
        stock := stock[sku := StockRow(Max(0, stock[sku].onHand - q), Max(0, stock[sku].reserved - q))];
      }
      lines := lines[i := lines[i].(consumed := true)];
      return ConsumptionOutcome(true, false);
    }
  }

  /**
   * What a reservation answers and leaves. It applies to an unreserved line of a placed or validated order whose SKU
   * has enough left, raises that counter by the quantity and flags that line; a reserved line is answered as a replay;
   * every other answer changes nothing. The availability it reports is what the store has afterwards.
   */
  lemma ReservationReport(s: Store, o: OrderId, n: int, sku: Sku, q: int, i: nat)
    requires i < |s.lines| && s.lines[i].order == o && s.lines[i].lineNo == n
    requires forall j :: 0 <= j < |s.lines| && s.lines[j].order == o && s.lines[j].lineNo == n ==> j == i
    ensures var (a, r) := ReserveLine(s, o, n, sku, q);
      var open := o in s.orders && (s.orders[o] == Placed || s.orders[o] == Validated);
      var applies := open && !s.lines[i].reserved && sku in s.stock && s.stock[sku].onHand >= s.stock[sku].reserved + q;
      (r.orderOpen <==> open)
      && (r.replayed <==> open && s.lines[i].reserved)
      && (r.reserved <==> applies || r.replayed)
      && (o in s.orders ==> (r.knownSku <==> !open || s.lines[i].reserved || sku in s.stock))
      && (o in s.orders ==> r.available == if sku in a.stock then a.stock[sku].onHand - a.stock[sku].reserved else 0)
      && (o !in s.orders ==> !r.knownSku && r.available == 0)
      && (!applies ==> a == s)
      && (applies ==> a.stock == s.stock[sku := StockRow(s.stock[sku].onHand, s.stock[sku].reserved + q)])
      && (applies ==> a.lines == s.lines[i := s.lines[i].(reserved := true)] && a.orders == s.orders)
  {
    assert Find(s.lines, o, n) == i;
  }

  /** A line that does not exist is not reserved, and nothing changes. */
  lemma NoSuchLine(s: Store, o: OrderId, n: int, sku: Sku, q: int)
    requires forall j :: 0 <= j < |s.lines| ==> !(s.lines[j].order == o && s.lines[j].lineNo == n)
    ensures var (a, r) := ReserveLine(s, o, n, sku, q); a == s && !r.reserved && !r.replayed
    ensures o in s.orders && (s.orders[o] == Placed || s.orders[o] == Validated) ==>
      ReserveLine(s, o, n, sku, q).1 == ReservationOutcome(false, false, false, true, 0)
  {}

  /** Failing marks an order that is placed, validated, reserved or authorized, and leaves any later status as it is. */
  lemma FailureMarksTheOrder(s: Store, o: OrderId, x: OrderId)
    ensures o !in s.orders ==> Release(s, o, true) == (s, 0) && Release(s, o, false) == (s, 0)
    ensures Release(s, o, false).0.orders == s.orders
    ensures var a := Release(s, o, true).0;
      (x in a.orders <==> x in s.orders)
      && (x in s.orders && x != o ==> a.orders[x] == s.orders[x])
      && (o in s.orders ==>
            match s.orders[o]
            case Placed => a.orders[o] == Failed
            case Validated => a.orders[o] == Failed
            case Reserved => a.orders[o] == Failed
            case Authorized => a.orders[o] == Failed
            case Failed => a.orders[o] == Failed
            case Later(text) => a.orders[o] == Later(text))
  {}

  // ---- conservation ----

  /** Quantities of all held lines of a SKU. */
  function Total(lines: seq<Line>, sku: Sku): int {
    if lines == [] then 0
    else
      var l := lines[|lines| - 1];
      Total(lines[..|lines| - 1], sku) + if Held(l) && l.sku == sku then l.quantity else 0
  }

  function ReservedOf(s: Store, sku: Sku): int {
    if sku in s.stock then s.stock[sku].reserved else 0
  }

  /** Every SKU's counter is the sum over its held lines, within what is on hand. */
  ghost predicate Conserved(s: Store) {
    (forall sku :: ReservedOf(s, sku) == Total(s.lines, sku))
    && (forall sku :: sku in s.stock ==> 0 <= s.stock[sku].reserved <= s.stock[sku].onHand)
    && forall i :: 0 <= i < |s.lines| ==> s.lines[i].quantity >= 0
  }

  function Weight(l: Line, sku: Sku): int {
    if Held(l) && l.sku == sku then l.quantity else 0
  }

  lemma {:induction false} TotalUpdate(lines: seq<Line>, i: nat, l: Line, sku: Sku)
    requires i < |lines|
    ensures Total(lines[i := l], sku) == Total(lines, sku) - Weight(lines[i], sku) + Weight(l, sku)
  {
    var front := lines[..|lines| - 1];
    if i == |lines| - 1 {
      assert lines[i := l][..|lines| - 1] == front;
    } else {
      assert lines[i := l][..|lines| - 1] == front[i := l];
      TotalUpdate(front, i, l, sku);
    }
  }

  lemma {:induction false} TotalWithout(lines: seq<Line>, o: OrderId, sku: Sku)
    ensures Total(Unreserve(lines, o), sku) == Total(lines, sku) - HeldOf(lines, o, sku)
  {
    if lines != [] {
      var front := lines[..|lines| - 1];
      TotalWithout(front, o, sku);
      assert Unreserve(lines, o)[..|lines| - 1] == Unreserve(front, o);
    }
  }

  lemma {:induction false} TotalsAreNatural(lines: seq<Line>, o: OrderId, sku: Sku)
    requires forall i :: 0 <= i < |lines| ==> lines[i].quantity >= 0
    ensures 0 <= HeldOf(lines, o, sku) <= Total(lines, sku)
    ensures forall i :: 0 <= i < |lines| ==> Weight(lines[i], sku) <= Total(lines, sku)
    ensures !HoldsSku(lines, o, sku) ==> HeldOf(lines, o, sku) == 0
  {
    if lines != [] {
      var front, l := lines[..|lines| - 1], lines[|lines| - 1];
      assert front + [l] == lines;
      TotalsAreNatural(front, o, sku);
      HoldsSnoc(front, l, o, sku);
      forall i | 0 <= i < |lines| ensures Weight(lines[i], sku) <= Total(lines, sku) {
        if i < |front| { assert front[i] == lines[i]; }
      }
    }
  }

  lemma {:induction false} TotalAppend(lines: seq<Line>, more: seq<Line>, sku: Sku)
    requires forall i :: 0 <= i < |more| ==> !Held(more[i])
    ensures Total(lines + more, sku) == Total(lines, sku)
  {
    if more == [] {
      assert lines + more == lines;
    } else {
      assert (lines + more)[..|lines + more| - 1] == lines + more[..|more| - 1];
      TotalAppend(lines, more[..|more| - 1], sku);
    }
  }

  datatype Op =
    | OpInsert(o: OrderId, added: seq<Line>)
    | OpStatus(o: OrderId, status: Status)
    | OpReserve(o: OrderId, n: int, sku: Sku, q: int)
    | OpRelease(o: OrderId, markFailed: bool)
    | OpConsume(o: OrderId, n: int, sku: Sku, q: int)

  /** A used order id or line number violates a primary key and rolls the insert back. */
  predicate Inserts(s: Store, o: OrderId, added: seq<Line>) {
    o !in s.orders && (forall i :: 0 <= i < |added| ==> added[i].order == o && !added[i].reserved && !added[i].consumed)
    && forall i, j :: 0 <= i < j < |added| ==> added[i].lineNo != added[j].lineNo
  }

  function Apply(s: Store, op: Op): Store {
    match op
    case OpInsert(o, added) =>
      if Inserts(s, o, added) then s.(orders := s.orders[o := Placed], lines := s.lines + added) else s
    case OpStatus(o, status) => if o in s.orders then s.(orders := s.orders[o := status]) else s
    case OpReserve(o, n, sku, q) => ReserveLine(s, o, n, sku, q).0
    case OpRelease(o, markFailed) => Release(s, o, markFailed).0
    case OpConsume(o, n, sku, q) => ConsumeLine(s, o, n, sku, q).0
  }

  function Run(s: Store, ops: seq<Op>): Store {
    if ops == [] then s else Apply(Run(s, ops[..|ops| - 1]), ops[|ops| - 1])
  }

  /** The caller passes the line's own SKU and quantity. */
  predicate OwnArguments(s: Store, o: OrderId, n: int, sku: Sku, q: int) {
    var i := Find(s.lines, o, n);
    i < |s.lines| ==> s.lines[i].sku == sku && s.lines[i].quantity == q
  }

  /** What the conservation law asks of callers. */
  predicate WellUsed(s: Store, op: Op) {
    match op
    case OpInsert(_, added) => forall i :: 0 <= i < |added| ==> added[i].quantity >= 0
    case OpReserve(o, n, sku, q) => OwnArguments(s, o, n, sku, q)
    case OpConsume(o, n, sku, q) =>
      OwnArguments(s, o, n, sku, q) && (Find(s.lines, o, n) < |s.lines| ==> s.lines[Find(s.lines, o, n)].reserved)
    case _ => true
  }

  predicate ConsumedWereReserved(s: Store) {
    forall i :: 0 <= i < |s.lines| && s.lines[i].consumed ==> s.lines[i].reserved
  }

  lemma ReserveConserves(s: Store, o: OrderId, n: int, sku: Sku, q: int)
    requires Conserved(s) && ConsumedWereReserved(s) && WellUsed(s, OpReserve(o, n, sku, q))
    ensures Conserved(ReserveLine(s, o, n, sku, q).0)
  {
    var a, i := ReserveLine(s, o, n, sku, q).0, Find(s.lines, o, n);
    if ReserveApplies(s, o, n, sku, q) {
      forall k: Sku ensures ReservedOf(a, k) == Total(a.lines, k) { TotalUpdate(s.lines, i, s.lines[i].(reserved := true), k); }
    }
  }

  lemma ReleaseOfSku(s: Store, o: OrderId, markFailed: bool, sku: Sku)
    requires Conserved(s) && o in s.orders
    ensures var a := Release(s, o, markFailed).0;
      ReservedOf(a, sku) == Total(a.lines, sku) && ReservedOf(a, sku) == ReservedOf(s, sku) - HeldOf(s.lines, o, sku)
      && (sku in a.stock ==> 0 <= a.stock[sku].reserved <= a.stock[sku].onHand)
  {
    TotalWithout(s.lines, o, sku);
    TotalsAreNatural(s.lines, o, sku);
    assert ReservedOf(s, sku) == Total(s.lines, sku);
    if sku in s.stock { ReleasedCounter(s.stock, s.lines, o, sku); }
  }

  lemma ReleasedCounter(stock: map<Sku, StockRow>, lines: seq<Line>, o: OrderId, sku: Sku)
    requires sku in stock && 0 <= HeldOf(lines, o, sku) <= stock[sku].reserved
    requires !HoldsSku(lines, o, sku) ==> HeldOf(lines, o, sku) == 0
    ensures sku in StockAfter(stock, lines, o)
    ensures StockAfter(stock, lines, o)[sku] == stock[sku].(reserved := stock[sku].reserved - HeldOf(lines, o, sku))
  {}

  /** Release takes off each counter exactly what the order held, and the clamp never bites. */
  lemma ReleaseConserves(s: Store, o: OrderId, markFailed: bool)
    requires Conserved(s)
    ensures var a := Release(s, o, markFailed).0;
      Conserved(a) && forall sku :: o in s.orders ==> ReservedOf(a, sku) == ReservedOf(s, sku) - HeldOf(s.lines, o, sku)
  {
    var a := Release(s, o, markFailed).0;
    if o in s.orders {
      forall k: Sku
        ensures ReservedOf(a, k) == Total(a.lines, k) && ReservedOf(a, k) == ReservedOf(s, k) - HeldOf(s.lines, o, k)
        ensures k in a.stock ==> 0 <= a.stock[k].reserved <= a.stock[k].onHand
      {
        ReleaseOfSku(s, o, markFailed, k);
      }
    }
  }

  lemma ConsumeOfSku(s: Store, o: OrderId, n: int, sku: Sku, q: int, k: Sku)
    requires Conserved(s) && WellUsed(s, OpConsume(o, n, sku, q))
    requires Find(s.lines, o, n) < |s.lines| && !s.lines[Find(s.lines, o, n)].consumed
    ensures var a := ConsumeLine(s, o, n, sku, q).0;
      ReservedOf(a, k) == Total(a.lines, k) && ReservedOf(a, k) == ReservedOf(s, k) - (if k == sku then q else 0)
      && (k == sku && k in s.stock ==> q <= s.stock[k].reserved)
  {
    var i := Find(s.lines, o, n);
    TotalUpdate(s.lines, i, s.lines[i].(consumed := true), k);
    TotalsAreNatural(s.lines, o, k);
    assert ReservedOf(s, k) == Total(s.lines, k) && Weight(s.lines[i], k) <= Total(s.lines, k);
  }

  /** Consuming a held line takes its quantity off both counters, and neither clamp bites. */
  lemma ConsumeConserves(s: Store, o: OrderId, n: int, sku: Sku, q: int)
    requires Conserved(s) && WellUsed(s, OpConsume(o, n, sku, q))
    ensures var (a, r) := ConsumeLine(s, o, n, sku, q);
      Conserved(a) && (forall k :: AvailableOf(a, k) == AvailableOf(s, k))
      && (r.consumed && !r.replayed && sku in s.stock ==>
            a.stock[sku] == StockRow(s.stock[sku].onHand - q, s.stock[sku].reserved - q))
  {
    var a, i := ConsumeLine(s, o, n, sku, q).0, Find(s.lines, o, n);
    if i < |s.lines| && !s.lines[i].consumed {
      forall k: Sku ensures ReservedOf(a, k) == Total(a.lines, k) { ConsumeOfSku(s, o, n, sku, q, k); }
      ConsumeOfSku(s, o, n, sku, q, sku);
    }
  }

  lemma StepConserves(s: Store, op: Op)
    requires Conserved(s) && ConsumedWereReserved(s) && WellUsed(s, op)
    ensures Conserved(Apply(s, op)) && ConsumedWereReserved(Apply(s, op))
  {
    match op
    case OpInsert(o, added) =>
      if Inserts(s, o, added) {
        forall k: Sku ensures Total(s.lines + added, k) == Total(s.lines, k) { TotalAppend(s.lines, added, k); }
      }
    case OpStatus(o, status) =>
    case OpReserve(o, n, sku, q) => ReserveConserves(s, o, n, sku, q);
    case OpRelease(o, markFailed) => ReleaseConserves(s, o, markFailed);
    case OpConsume(o, n, sku, q) => ConsumeConserves(s, o, n, sku, q);
  }

  /** Over every run of well-used operations each counter stays the sum of its held lines, within what is on hand. */
  lemma {:induction false} Conservation(s: Store, ops: seq<Op>)
    requires Conserved(s) && ConsumedWereReserved(s)
    requires forall k :: 0 <= k < |ops| ==> WellUsed(Run(s, ops[..k]), ops[k])
    ensures Conserved(Run(s, ops)) && ConsumedWereReserved(Run(s, ops))
  {
    if ops != [] {
      var front := ops[..|ops| - 1];
      forall k | 0 <= k < |front| ensures WellUsed(Run(s, front[..k]), front[k]) { assert front[..k] == ops[..k]; }
      Conservation(s, front);
      StepConserves(Run(s, front), ops[|ops| - 1]);
    }
  }

  /** Consuming a line that was not reserved keeps the law exactly when there is nothing it could take from others. */
  lemma ConsumeKeepsTheLawExactlyWhen(s: Store, o: OrderId, n: int, sku: Sku, q: int)
    requires Conserved(s) && OwnArguments(s, o, n, sku, q)
    requires Find(s.lines, o, n) < |s.lines| && !s.lines[Find(s.lines, o, n)].consumed
    ensures Conserved(ConsumeLine(s, o, n, sku, q).0)
      <==> (s.lines[Find(s.lines, o, n)].reserved || q == 0 || ReservedOf(s, sku) == 0)
  {
    var a, i := ConsumeLine(s, o, n, sku, q).0, Find(s.lines, o, n);
    if s.lines[i].reserved {
      ConsumeConserves(s, o, n, sku, q);
    } else {
      forall k: Sku ensures Total(a.lines, k) == Total(s.lines, k) { TotalUpdate(s.lines, i, s.lines[i].(consumed := true), k); }
      if q == 0 || ReservedOf(s, sku) == 0 {
        forall k: Sku ensures ReservedOf(a, k) == Total(a.lines, k) { assert ReservedOf(s, k) == Total(s.lines, k); }
      } else {
        assert ReservedOf(s, sku) == Total(s.lines, sku);
        assert ReservedOf(a, sku) != Total(a.lines, sku);
      }
    }
  }

  const HOLDER := Line("A", 1, "mug", 5, true, false)
  const UNRESERVED := Line("B", 1, "mug", 5, false, false)
  const SHARED_SHELF := Store(map["mug" := StockRow(5, 5)], map["A" := Reserved, "B" := Validated], [HOLDER, UNRESERVED])

  /** Packing an order whose line was never reserved eats the units another order still holds. */
  lemma UnreservedConsumptionBreaksTheLaw()
    ensures Conserved(SHARED_SHELF) && !Conserved(ConsumeLine(SHARED_SHELF, "B", 1, "mug", 5).0)
  {
    var lines := SHARED_SHELF.lines;
    assert lines[..1] == [HOLDER] && lines[..1][..0] == [];
    forall k: Sku ensures Total(lines, k) == if k == "mug" then 5 else 0 {
      assert Total(lines[..1], k) == Total(lines[..1][..0], k) + Weight(HOLDER, k);
      assert Total(lines, k) == Total(lines[..1], k) + Weight(UNRESERVED, k);
    }
    assert lines[1..] == [UNRESERVED] && Find(lines[1..], "B", 1) == 0;
    assert Find(lines, "B", 1) == 1;
    ConsumeKeepsTheLawExactlyWhen(SHARED_SHELF, "B", 1, "mug", 5);
  }

  // ---- compensation ----

  /** The order takes no reservation and holds none. */
  predicate Closed(s: Store, o: OrderId) {
    o in s.orders && !Open(s.orders[o]) && forall i :: 0 <= i < |s.lines| && s.lines[i].order == o ==> !Held(s.lines[i])
  }

  lemma FailCloses(s: Store, o: OrderId)
    requires o in s.orders
    ensures Closed(Release(s, o, true).0, o)
  {}

  lemma {:induction false} NothingHeldNothingReleased(lines: seq<Line>, o: OrderId)
    requires forall i :: 0 <= i < |lines| && lines[i].order == o ==> !Held(lines[i])
    ensures HeldUnits(lines, o) == 0
  {
    if lines != [] { NothingHeldNothingReleased(lines[..|lines| - 1], o); }
  }

  lemma ClosedStep(s: Store, op: Op, o: OrderId)
    requires Closed(s, o) && !(op.OpStatus? && op.o == o && Open(op.status))
    ensures Closed(Apply(s, op), o)
  {}

  /**
   * After an order is failed, no later run that does not set its status back to placed or validated leaves it with
   * an unconsumed reservation, and releasing it again changes no counter and no line and returns zero units.
   */
  lemma {:induction false} CompensationIsFinal(s: Store, o: OrderId, ops: seq<Op>, markFailed: bool)
    requires o in s.orders
    requires forall k :: 0 <= k < |ops| ==> !(ops[k].OpStatus? && ops[k].o == o && Open(ops[k].status))
    ensures var after := Run(Release(s, o, true).0, ops);
      Closed(after, o) && Release(after, o, markFailed).1 == 0
      && Release(after, o, markFailed).0.stock == after.stock && Release(after, o, markFailed).0.lines == after.lines
  {
    FailCloses(s, o);
    var after := Run(Release(s, o, true).0, ops);
    if ops != [] {
      CompensationIsFinal(s, o, ops[..|ops| - 1], markFailed);
      ClosedStep(Run(Release(s, o, true).0, ops[..|ops| - 1]), ops[|ops| - 1], o);
    }
    NothingHeldNothingReleased(after.lines, o);
  }

  /** An order is placed with its lines unless its id is used; a status is set on an order that exists. */
  lemma PlacingIsExact(s: Store, o: OrderId, added: seq<Line>, status: Status)
    requires forall i :: 0 <= i < |added| ==> added[i].order == o && !added[i].reserved && !added[i].consumed
    requires forall i, j :: 0 <= i < j < |added| ==> added[i].lineNo != added[j].lineNo
    ensures Apply(s, OpInsert(o, added)) ==
      if o in s.orders then s else Store(s.stock, s.orders[o := Placed], s.lines + added)
    ensures Apply(s, OpStatus(o, status)) == if o in s.orders then Store(s.stock, s.orders[o := status], s.lines) else s
  {}

  /** No two lines of one order share a number, and every line's order exists. */
  predicate LinesAreKeyed(s: Store) {
    (forall i :: 0 <= i < |s.lines| ==> s.lines[i].order in s.orders)
    && forall i, j :: 0 <= i < j < |s.lines| ==> s.lines[i].order != s.lines[j].order || s.lines[i].lineNo != s.lines[j].lineNo
  }

  /** Nothing but placing an order changes which lines and orders there are. */
  lemma OthersKeepTheKeys(s: Store, op: Op)
    requires !op.OpInsert?
    ensures var a := Apply(s, op);
      a.orders.Keys == s.orders.Keys && |a.lines| == |s.lines|
      && forall i :: 0 <= i < |s.lines| ==> a.lines[i].order == s.lines[i].order && a.lines[i].lineNo == s.lines[i].lineNo
  {}

  lemma PlacingKeepsTheKeys(s: Store, o: OrderId, added: seq<Line>)
    requires LinesAreKeyed(s) && Inserts(s, o, added)
    ensures LinesAreKeyed(Store(s.stock, s.orders[o := Placed], s.lines + added))
  {
    var lines := s.lines + added;
    assert forall i :: 0 <= i < |lines| ==> lines[i] == if i < |s.lines| then s.lines[i] else added[i - |s.lines|];
  }

  lemma KeyedStep(s: Store, op: Op)
    requires LinesAreKeyed(s)
    ensures LinesAreKeyed(Apply(s, op))
  {
    if op.OpInsert? {
      if Inserts(s, op.o, op.added) { PlacingKeepsTheKeys(s, op.o, op.added); }
    } else {
      OthersKeepTheKeys(s, op);
    }
  }

  /** In every reachable state (order, line number) names at most one line, so each answer is about the line asked for. */
  lemma {:induction false} LinesStayKeyed(s: Store, ops: seq<Op>)
    requires LinesAreKeyed(s)
    ensures LinesAreKeyed(Run(s, ops))
  {
    if ops != [] {
      LinesStayKeyed(s, ops[..|ops| - 1]);
      KeyedStep(Run(s, ops[..|ops| - 1]), ops[|ops| - 1]);
    }
  }

  // ---- a release undoes a reservation ----

  lemma UnreserveRestores(lines: seq<Line>, i: nat, o: OrderId)
    requires i < |lines| && lines[i].order == o && !lines[i].reserved && !lines[i].consumed
    requires forall j :: 0 <= j < |lines| && lines[j].order == o ==> !Held(lines[j])
    ensures var held := lines[i := lines[i].(reserved := true)];
      Unreserve(held, o) == lines && forall sku :: HoldsSku(held, o, sku) <==> sku == lines[i].sku
  {
    var held := lines[i := lines[i].(reserved := true)];
    assert Held(held[i]);
    assert Unreserve(held, o) == lines;
  }

  lemma {:induction false} OnlyNewlyHeld(lines: seq<Line>, i: nat, o: OrderId)
    requires i < |lines| && lines[i].order == o && !lines[i].reserved && !lines[i].consumed
    requires forall j :: 0 <= j < |lines| && lines[j].order == o ==> !Held(lines[j])
    ensures var held := lines[i := lines[i].(reserved := true)];
      HeldUnits(held, o) == lines[i].quantity && HeldOf(held, o, lines[i].sku) == lines[i].quantity
  {
    var held, front := lines[i := lines[i].(reserved := true)], lines[..|lines| - 1];
    if i == |lines| - 1 {
      assert held[..|held| - 1] == front;
      NothingHeldNothingReleased(front, o);
      NothingHeldOfSku(front, o, lines[i].sku);
    } else {
      assert held[..|held| - 1] == front[i := lines[i].(reserved := true)];
      OnlyNewlyHeld(front, i, o);
    }
  }

  lemma {:induction false} NothingHeldOfSku(lines: seq<Line>, o: OrderId, sku: Sku)
    requires forall i :: 0 <= i < |lines| && lines[i].order == o ==> !Held(lines[i])
    ensures HeldOf(lines, o, sku) == 0
  {
    if lines != [] { NothingHeldOfSku(lines[..|lines| - 1], o, sku); }
  }

  /** Releasing an order whose one held line was just reserved restores the store and returns that line's quantity. */
  lemma ReleaseUndoesReserve(s: Store, o: OrderId, n: int, sku: Sku, q: int)
    requires Conserved(s) && ConsumedWereReserved(s) && OwnArguments(s, o, n, sku, q) && ReserveApplies(s, o, n, sku, q)
    requires forall i :: 0 <= i < |s.lines| && s.lines[i].order == o ==> !Held(s.lines[i])
    ensures Release(ReserveLine(s, o, n, sku, q).0, o, false) == (s, q)
  {
    var i, held := Find(s.lines, o, n), ReserveLine(s, o, n, sku, q).0;
    UnreserveRestores(s.lines, i, o);
    OnlyNewlyHeld(s.lines, i, o);
    assert StockAfter(held.stock, held.lines, o) == s.stock;
  }

  // ---- the returned count ----

  predicate NoRepeats(skus: seq<Sku>) {
    forall i, j :: 0 <= i < j < |skus| ==> skus[i] != skus[j]
  }

  /** How much the counters of these SKUs drop together. */
  function Drop(before: Store, after: Store, skus: seq<Sku>): int {
    if skus == [] then 0
    else Drop(before, after, skus[..|skus| - 1])
         + ReservedOf(before, skus[|skus| - 1]) - ReservedOf(after, skus[|skus| - 1])
  }

  function HeldAmong(lines: seq<Line>, o: OrderId, skus: seq<Sku>): int {
    if skus == [] then 0
    else HeldAmong(lines, o, skus[..|skus| - 1]) + HeldOf(lines, o, skus[|skus| - 1])
  }

  lemma {:induction false} HeldAmongSnoc(lines: seq<Line>, o: OrderId, skus: seq<Sku>)
    requires lines != [] && NoRepeats(skus)
    ensures var l := lines[|lines| - 1];
      HeldAmong(lines, o, skus) == HeldAmong(lines[..|lines| - 1], o, skus)
        + if l.order == o && Held(l) && l.sku in skus then l.quantity else 0
  {
    if skus != [] {
      HeldAmongSnoc(lines, o, skus[..|skus| - 1]);
      assert skus == skus[..|skus| - 1] + [skus[|skus| - 1]];
    }
  }

  lemma {:induction false} UnitsBySku(lines: seq<Line>, o: OrderId, skus: seq<Sku>)
    requires NoRepeats(skus) && forall i :: 0 <= i < |lines| && lines[i].order == o && Held(lines[i]) ==> lines[i].sku in skus
    ensures HeldUnits(lines, o) == HeldAmong(lines, o, skus)
  {
    if lines == [] {
      NoneAmong(o, skus);
    } else {
      UnitsBySku(lines[..|lines| - 1], o, skus);
      HeldAmongSnoc(lines, o, skus);
    }
  }

  lemma {:induction false} NoneAmong(o: OrderId, skus: seq<Sku>)
    ensures HeldAmong([], o, skus) == 0
  {
    if skus != [] { NoneAmong(o, skus[..|skus| - 1]); }
  }

  lemma {:induction false} DropIsHeld(s: Store, o: OrderId, markFailed: bool, skus: seq<Sku>)
    requires Conserved(s) && o in s.orders
    ensures Drop(s, Release(s, o, markFailed).0, skus) == HeldAmong(s.lines, o, skus)
  {
    ReleaseConserves(s, o, markFailed);
    if skus != [] { DropIsHeld(s, o, markFailed, skus[..|skus| - 1]); }
  }

  /** The units a release reports are the total drop of the counters of the SKUs it touches, each counted once. */
  lemma ReportedUnitsAreTheDrop(s: Store, o: OrderId, markFailed: bool, skus: seq<Sku>)
    requires Conserved(s) && o in s.orders && NoRepeats(skus)
    requires forall i :: 0 <= i < |s.lines| && s.lines[i].order == o && Held(s.lines[i]) ==> s.lines[i].sku in skus
    ensures Release(s, o, markFailed).1 == Drop(s, Release(s, o, markFailed).0, skus)
  {
    UnitsBySku(s.lines, o, skus);
    DropIsHeld(s, o, markFailed, skus);
  }
}
