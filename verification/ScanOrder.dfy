/** ORDER BY ... LIMIT over a strict total order, and the two-arm claim scan. */
module ScanOrder {
  import opened Prelude

  /** The sort key of a claim candidate: per-queue priority, row priority, enqueued_at, id. */
  datatype Rank = Rank(queuePriority: int, priority: int, enqueuedAt: int, id: nat)

  predicate Less(a: Rank, b: Rank) {
    if a.queuePriority != b.queuePriority then a.queuePriority < b.queuePriority
    else if a.priority != b.priority then a.priority < b.priority
    else if a.enqueuedAt != b.enqueuedAt then a.enqueuedAt < b.enqueuedAt
    else a.id < b.id
  }

  /** The candidates sorted strictly ahead of x. */
  function Before(s: set<Rank>, x: Rank): set<Rank> {
    set y | y in s && Less(y, x)
  }

  /** What ORDER BY ... LIMIT n keeps of s: the candidates with fewer than n ahead of them. */
  function FirstN(s: set<Rank>, n: int): set<Rank> {
    set x | x in s && |Before(s, x)| < n
  }

  lemma LastExists(s: set<Rank>) returns (m: Rank)
    requires s != {}
    ensures m in s
    ensures forall y :: y in s && y != m ==> Less(y, m)
  {
    var x :| x in s;
    m := x;
    if s - {x} != {} {
      var k := LastExists(s - {x});
      if Less(x, k) { m := k; }
    }
    forall y | y in s && y != m ensures Less(y, m) {
      if y != x { assert y in s - {x}; }
    }
  }

  /** LIMIT n keeps exactly n candidates, or all of them when there are fewer. */
  lemma {:induction false} FirstNSize(s: set<Rank>, n: int)
    ensures |FirstN(s, n)| == Max(0, Min(n, |s|))
    decreases |s|
  {
    if s == {} {
      assert FirstN(s, n) == {};
    } else {
      var m := LastExists(s);
      var r := s - {m};
      FirstNSize(r, n);
      assert Before(s, m) == r;
      forall x | x in r ensures Before(s, x) == Before(r, x) {}
      assert FirstN(s, n) == FirstN(r, n) + (if |r| < n then {m} else {});
    }
  }

  lemma BeforeMonotone(s: set<Rank>, x: Rank, y: Rank)
    requires x in s && y in s && Less(x, y)
    ensures Before(s, x) < Before(s, y)
    ensures |Before(s, x)| < |Before(s, y)|
  {
    assert x in Before(s, y) && x !in Before(s, x);
    SubsetSize(Before(s, x) + {x}, Before(s, y));
  }

  /** No candidate left out sorts ahead of one kept. */
  lemma FirstNDominates(s: set<Rank>, n: int, kept: Rank, left: Rank)
    requires kept in FirstN(s, n)
    requires left in s && left !in FirstN(s, n)
    ensures Less(kept, left)
  {
    if Less(left, kept) { BeforeMonotone(s, left, kept); }
  }

  /** A kept candidate is kept by every smaller scan it belongs to. */
  lemma KeptInSubscan(sub: set<Rank>, s: set<Rank>, n: int, x: Rank)
    requires sub <= s && x in sub && x in FirstN(s, n)
    ensures x in FirstN(sub, n)
  {
    SubsetSize(Before(sub, x), Before(s, x));
  }

  /** Merging the top n of two arms and re-limiting selects what one scan over both selects. */
  lemma TwoArmScan(a: set<Rank>, b: set<Rank>, n: int)
    ensures FirstN(FirstN(a, n) + FirstN(b, n), n) == FirstN(a + b, n)
  {
    var whole, merged := a + b, FirstN(a, n) + FirstN(b, n);
    var top := FirstN(whole, n);
    forall x | x in top ensures x in merged {
      if x in a { KeptInSubscan(a, whole, n, x); } else { KeptInSubscan(b, whole, n, x); }
    }
    forall x | x in top ensures x in FirstN(merged, n) {
      KeptInSubscan(merged, whole, n, x);
    }
    forall x | x in FirstN(merged, n) ensures x in top {
      if x !in top {
        forall y | y in top ensures y in Before(merged, x) { FirstNDominates(whole, n, y, x); }
        SubsetSize(top, Before(merged, x));
        FirstNSize(whole, n);
        SubsetSize(Before(whole, x), whole);
      }
    }
  }

  /** A limit no smaller than the input drops nothing. */
  lemma LimitNotReached(s: set<Rank>, n: int)
    requires |s| <= n
    ensures FirstN(s, n) == s
  {
    forall x | x in s ensures |Before(s, x)| < n {
      assert Before(s, x) <= s - {x};
      SubsetSize(Before(s, x), s - {x});
    }
  }
}
