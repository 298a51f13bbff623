/** Putting a batch's outcome rows back into the order of the ids that were asked about. */
module Ordinals {
  import opened Prelude

  datatype Row<T> = Row(value: T, ordinality: Option<int>)

  datatype ContractError = NotOne(got: nat) | NoOrdinality | Outside(ordinal: int) | Duplicate(ordinal: int) | Missing(ordinal: int)

  datatype Cardinality = ExactlyOne | IdKeyedBatch(expected: nat) | PerTransition

  predicate InRange<T>(row: Row<T>, n: nat) {
    row.ordinality.Some? && 1 <= row.ordinality.value <= n
  }

  predicate Distinct<T>(rows: seq<Row<T>>) {
    forall i, j :: 0 <= i < j < |rows| ==> rows[i].ordinality != rows[j].ordinality
  }

  ghost predicate Answers<T>(rows: seq<Row<T>>, ordinal: int) {
    exists i :: 0 <= i < |rows| && rows[i].ordinality == Some(ordinal)
  }

  /** The ordinals are 1..=n, each exactly once. */
  ghost predicate ExactOrdinals<T>(rows: seq<Row<T>>, n: nat) {
    (forall i :: 0 <= i < |rows| ==> InRange(rows[i], n)) && Distinct(rows)
    && forall k :: 1 <= k <= n ==> Answers(rows, k)
  }

  /** Row k answers the k-th input. */
  predicate InInputOrder<T>(rows: seq<Row<T>>) {
    forall i :: 0 <= i < |rows| ==> rows[i].ordinality == Some(i + 1)
  }

  /** Which contract each refusal says was broken. */
  ghost predicate Explains<T>(e: ContractError, rows: seq<Row<T>>, n: nat) {
    match e
    case NotOne(_) => false
    case NoOrdinality => exists i :: 0 <= i < |rows| && rows[i].ordinality.None?
    case Outside(o) => Answers(rows, o) && !(1 <= o <= n)
    case Duplicate(o) => exists i, j :: 0 <= i < j < |rows| && rows[i].ordinality == rows[j].ordinality == Some(o)
    case Missing(o) => 1 <= o <= n && !Answers(rows, o)
  }

  /** Slot k holds the row with ordinal k + 1 among the first `upTo` rows, if there is one. */
  ghost predicate Filled<T>(slots: seq<Option<Row<T>>>, rows: seq<Row<T>>, upTo: nat)
    requires upTo <= |rows|
  {
    (forall k :: 0 <= k < |slots| && slots[k].Some? ==>
       slots[k].value in rows[..upTo] && slots[k].value.ordinality == Some(k + 1))
    && forall i :: 0 <= i < upTo ==> InRange(rows[i], |slots|) && slots[rows[i].ordinality.value - 1] == Some(rows[i])
  }

  method ReorderByOrdinal<T(==)>(outcomes: seq<Row<T>>, expected: nat) returns (r: Result<seq<Row<T>>, ContractError>)
    ensures r.Ok? <==> ExactOrdinals(outcomes, expected)
    ensures r.Ok? ==> |r.value| == expected && InInputOrder(r.value) && multiset(r.value) == multiset(outcomes)
    ensures r.Err? ==> Explains(r.error, outcomes, expected)
  {
    var byOrdinal := new Option<Row<T>>[expected](_ => None);
    for i := 0 to |outcomes|
      invariant Filled(byOrdinal[..], outcomes, i)
      invariant Distinct(outcomes[..i])
    {
      var outcome := outcomes[i];
      if outcome.ordinality.None? { return Err(NoOrdinality); }
      var ordinal := outcome.ordinality.value;
      if ordinal < 1 || ordinal > expected { return Err(Outside(ordinal)); }
      if byOrdinal[ordinal - 1].Some? {
        assert byOrdinal[..][ordinal - 1].value in outcomes[..i];
        var j :| 0 <= j < i && outcomes[j] == byOrdinal[ordinal - 1].value;
        assert outcomes[j].ordinality == outcomes[i].ordinality;
        return Err(Duplicate(ordinal));
      }
      assert forall j :: 0 <= j < i ==> outcomes[j].ordinality != outcome.ordinality;
      ghost var before := byOrdinal[..];
      byOrdinal[ordinal - 1] := Some(outcome);
      assert byOrdinal[..] == before[ordinal - 1 := Some(outcome)];
      FillStep(before, byOrdinal[..], outcomes, i);
    }
    assert outcomes[..|outcomes|] == outcomes;
    var ordered: seq<Row<T>> := [];
    for index := 0 to expected
      invariant |ordered| == index
      invariant forall k :: 0 <= k < index ==> byOrdinal[k] == Some(ordered[k])
    {
      if byOrdinal[index].None? {
        assert byOrdinal[..][index].None? && !Answers(outcomes, index + 1);
        return Err(Missing(index + 1));
      }
      ordered := ordered + [byOrdinal[index].value];
    }
    AllSlots(byOrdinal[..], outcomes, ordered);
    return Ok(ordered);
  }

  lemma FillStep<T>(before: seq<Option<Row<T>>>, after: seq<Option<Row<T>>>, rows: seq<Row<T>>, i: nat)
    requires i < |rows| && Filled(before, rows, i) && InRange(rows[i], |before|) && Distinct(rows[..i])
    requires before[rows[i].ordinality.value - 1].None?
    requires after == before[rows[i].ordinality.value - 1 := Some(rows[i])]
    ensures Filled(after, rows, i + 1) && Distinct(rows[..i + 1])
  {
    assert rows[..i + 1] == rows[..i] + [rows[i]];
  }

  lemma AllSlots<T>(slots: seq<Option<Row<T>>>, rows: seq<Row<T>>, ordered: seq<Row<T>>)
    requires Filled(slots, rows, |rows|) && Distinct(rows) && |ordered| == |slots|
    requires forall k :: 0 <= k < |slots| ==> slots[k] == Some(ordered[k])
    ensures InInputOrder(ordered) && ExactOrdinals(rows, |slots|) && multiset(ordered) == multiset(rows)
  {
    forall k | 1 <= k <= |slots| ensures Answers(rows, k) {
      assert slots[k - 1].value in rows[..|rows|];
      var i :| 0 <= i < |rows| && rows[i] == slots[k - 1].value;
    }
    forall x ensures x in ordered <==> x in rows {
      if x in ordered {
        var k :| 0 <= k < |ordered| && ordered[k] == x;
        assert slots[k].value in rows[..|rows|];
      }
      if x in rows {
        var i :| 0 <= i < |rows| && rows[i] == x;
        assert ordered[rows[i].ordinality.value - 1] == x;
      }
    }
    SameRows(ordered, rows);
  }

  lemma {:induction false} DistinctCounts<T>(rows: seq<Row<T>>, x: Row<T>)
    requires Distinct(rows)
    ensures multiset(rows)[x] == if x in rows then 1 else 0
  {
    if rows != [] {
      var front, last := rows[..|rows| - 1], rows[|rows| - 1];
      assert rows == front + [last];
      DistinctCounts(front, x);
      assert forall i :: 0 <= i < |front| ==> front[i] == rows[i];
    }
  }

  lemma SameRows<T>(a: seq<Row<T>>, b: seq<Row<T>>)
    requires Distinct(a) && Distinct(b) && forall x :: x in a <==> x in b
    ensures multiset(a) == multiset(b)
  {
    forall x ensures multiset(a)[x] == multiset(b)[x] {
      DistinctCounts(a, x);
      DistinctCounts(b, x);
    }
  }

  /** Arrival order decides neither acceptance nor the result: rows restored from two arrivals of a batch are equal. */
  lemma ArrivalOrderIsIrrelevant<T>(a: seq<Row<T>>, b: seq<Row<T>>, n: nat, ra: seq<Row<T>>, rb: seq<Row<T>>)
    requires multiset(a) == multiset(b)
    requires |ra| == |rb| == n && InInputOrder(ra) && InInputOrder(rb)
    requires multiset(ra) == multiset(a) && multiset(rb) == multiset(b)
    ensures ra == rb
  {
    forall i | 0 <= i < n ensures ra[i] == rb[i] {
      assert ra[i] in multiset(rb);
      var j :| 0 <= j < |rb| && rb[j] == ra[i];
    }
  }

  /** A batch is accepted exactly when some ordering of its rows is in input order. */
  lemma AcceptedIffOrderable<T>(rows: seq<Row<T>>, n: nat)
    ensures ExactOrdinals(rows, n)
      <==> exists r: seq<Row<T>> :: |r| == n && InInputOrder(r) && multiset(r) == multiset(rows)
  {
    if ExactOrdinals(rows, n) {
      var r := Restored(rows, n);
      assert |r| == n && InInputOrder(r);
    }
    if r: seq<Row<T>> :| |r| == n && InInputOrder(r) && multiset(r) == multiset(rows) {
      forall k | 1 <= k <= n ensures Answers(rows, k) {
        assert r[k - 1] in multiset(rows);
        var i :| 0 <= i < |rows| && rows[i] == r[k - 1];
      }
      forall i | 0 <= i < |rows| ensures InRange(rows[i], n) {
        assert rows[i] in multiset(r);
        var k :| 0 <= k < |r| && r[k] == rows[i];
      }
      forall i, j | 0 <= i < j < |rows| ensures rows[i].ordinality != rows[j].ordinality {
        if rows[i].ordinality == rows[j].ordinality {
          assert rows[i] in multiset(r) && rows[j] in multiset(r);
          assert rows[i] == r[rows[i].ordinality.value - 1] == rows[j];
          TwiceCounts(rows, i, j);
          DistinctCounts(r, rows[i]);
          assert false;
        }
      }
    }
  }

  lemma TwiceCounts<T>(rows: seq<Row<T>>, i: nat, j: nat)
    requires i < j < |rows| && rows[i] == rows[j]
    ensures multiset(rows)[rows[i]] >= 2
  {
    assert rows == rows[..i] + [rows[i]] + rows[i + 1..j] + [rows[j]] + rows[j + 1..];
  }

  lemma Restored<T>(rows: seq<Row<T>>, n: nat) returns (r: seq<Row<T>>)
    requires ExactOrdinals(rows, n)
    ensures |r| == n && InInputOrder(r) && multiset(r) == multiset(rows)
  {
    r := RestoredUpTo(rows, n, n);
    forall x ensures x in r <==> x in rows {
      if x in rows {
        var i :| 0 <= i < |rows| && rows[i] == x;
        var k := x.ordinality.value;
        assert r[k - 1] in rows;
        var j :| 0 <= j < |rows| && rows[j] == r[k - 1];
      }
    }
    SameRows(r, rows);
  }

  lemma RestoredUpTo<T>(rows: seq<Row<T>>, n: nat, k: nat) returns (r: seq<Row<T>>)
    requires ExactOrdinals(rows, n) && k <= n
    ensures |r| == k && InInputOrder(r) && forall i :: 0 <= i < k ==> r[i] in rows
  {
    if k == 0 {
      r := [];
    } else {
      var front := RestoredUpTo(rows, n, k - 1);
      assert Answers(rows, k);
      var i :| 0 <= i < |rows| && rows[i].ordinality == Some(k);
      r := front + [rows[i]];
    }
  }

  method EnforceCardinality<T(==)>(outcomes: seq<Row<T>>, c: Cardinality) returns (r: Result<seq<Row<T>>, ContractError>)
    ensures c.ExactlyOne? ==> r == if |outcomes| == 1 then Ok(outcomes) else Err(NotOne(|outcomes|))
    ensures c.PerTransition? ==> r == Ok(outcomes)
    ensures c.IdKeyedBatch? ==> (r.Ok? <==> ExactOrdinals(outcomes, c.expected))
    ensures c.IdKeyedBatch? && r.Ok? ==> |r.value| == c.expected && InInputOrder(r.value) && multiset(r.value) == multiset(outcomes)
    ensures c.IdKeyedBatch? && r.Err? ==> Explains(r.error, outcomes, c.expected)
  {
    match c
    case ExactlyOne =>
      if |outcomes| != 1 { return Err(NotOne(|outcomes|)); }
      return Ok(outcomes);
    case IdKeyedBatch(expected) => r := ReorderByOrdinal(outcomes, expected);
    case PerTransition => return Ok(outcomes);
  }
}
