/**
 The claim queue that the dispatchers share: `ORDER BY <time> LIMIT <n> FOR UPDATE SKIP LOCKED`.

 `at` is the ordering column. Rows another transaction has locked are not eligible; ties are broken
 in any way the database likes, so a claim is a relation and not a function.
 */
module ClaimQueue {
  import opened Collections

  function Min(a: nat, b: nat): nat { if a < b then a else b }

  ghost predicate EarliestBatch<Id>(at: map<Id, int>, eligible: set<Id>, limit: nat, batch: set<Id>) {
    && batch <= eligible <= at.Keys
    && |batch| == Min(limit, |eligible|)
    && forall b, e :: b in batch && e in eligible - batch ==> at[b] <= at[e]
  }

  /** One row with the smallest time. */
  method Earliest<Id(==)>(at: map<Id, int>, eligible: set<Id>) returns (first: Id)
    requires eligible != {} && eligible <= at.Keys
    ensures first in eligible && forall e :: e in eligible ==> at[first] <= at[e]
  {
    first :| first in eligible;
    var todo := eligible - {first};
    while todo != {}
      invariant first in eligible && todo <= eligible
      invariant forall e :: e in eligible && e !in todo ==> at[first] <= at[e]
      decreases |todo|
    {
      var e :| e in todo;
      if at[e] < at[first] {
        first := e;
      }
      todo := todo - {e};
    }
  }

  /** `order` lists the members of `batch`, each once. */
  ghost predicate Lists<Id(!new)>(order: seq<Id>, batch: set<Id>) {
    && (forall id :: id in order <==> id in batch)
    && (forall i, j :: 0 <= i < j < |order| ==> order[i] != order[j])
  }

  lemma {:induction false} ListsAll<Id(!new)>(order: seq<Id>, batch: set<Id>)
    requires Lists(order, batch)
    ensures |order| == |batch|
    decreases |order|
  {
    if order == [] {
      assert batch == {};
    } else {
      var n := |order| - 1;
      var last := order[n];
      assert forall id :: id in order[..n] <==> id in order && id != last;
      ListsAll(order[..n], batch - {last});
    }
  }

  /** The claim of a transaction that sees the rows `eligible`. */
  method SelectEarliest<Id(==, !new)>(at: map<Id, int>, eligible: set<Id>, limit: nat)
    returns (order: seq<Id>, batch: set<Id>)
    requires eligible <= at.Keys
    ensures EarliestBatch(at, eligible, limit, batch) && Lists(order, batch)
  {
    order, batch := [], {};
    while |batch| < limit && batch != eligible
      invariant batch <= eligible && |batch| <= limit && Lists(order, batch)
      invariant forall b, e :: b in batch && e in eligible - batch ==> at[b] <= at[e]
      decreases |eligible - batch|
    {
      assert eligible - batch != {};
      var first := Earliest(at, eligible - batch);
      assert eligible - (batch + {first}) < eligible - batch;
      Subset(eligible - (batch + {first}), eligible - batch - {first});
      order, batch := order + [first], batch + {first};
    }
    Subset(batch, eligible);
  }

  /** Whatever a claim leaves comes later than what it takes, and is left only for want of room. */
  lemma LeftAreLater<Id>(at: map<Id, int>, eligible: set<Id>, limit: nat, batch: set<Id>, left: Id)
    requires EarliestBatch(at, eligible, limit, batch) && left in eligible && left !in batch
    ensures |batch| == limit && forall b :: b in batch ==> at[b] <= at[left]
  {
    if |batch| == |eligible| {
      Exhausted(batch, eligible);
    }
    assert left in eligible - batch;
  }

  /** Rows whose time has come by `now`. */
  function DueBy<Id>(at: map<Id, int>, now: int): set<Id> {
    set id | id in at && at[id] <= now
  }

  /** An earliest-first claim at `later` serves the rows that were due at `now` before any that came due since. */
  lemma EarlierDueFirst<Id>(at: map<Id, int>, now: int, later: int, limit: nat, batch: set<Id>)
    requires now <= later && EarliestBatch(at, DueBy(at, later), limit, batch)
    ensures |DueBy(at, now) - batch| == if |DueBy(at, now)| > limit then |DueBy(at, now)| - limit else 0
  {
    var due, all := DueBy(at, now), DueBy(at, later);
    assert due <= all;
    Subset(due, all);
    if batch <= due {
      assert |due - batch| == |due| - |batch|;
      if |batch| < limit {
        Exhausted(batch, all);
      }
    } else {
      var b :| b in batch && b !in due;
      assert due <= batch;
      Subset(due, batch);
      assert due - batch == {};
    }
  }

  lemma Exhausted<Id>(a: set<Id>, b: set<Id>)
    requires a <= b && |a| == |b|
    ensures a == b
  {
    if a != b {
      var x :| x in b && x !in a;
      Subset(a, b - {x});
      assert false;
    }
  }
}
