/** What does not change an ingredient's status, total and shortfall, and what can only improve the status. */
module InventoryLaws {
  import opened Collections
  import opened Wrappers
  import opened Units
  import opened InventoryMatch

  /** The outcome for a recipe amount and unit, from the ingredient's inventory rows. */
  function Judged(table: Table, required: Option<real>, unit: string, rows: seq<Row>): Outcome {
    Judge(required, Worths(table, rows, unit))
  }

  // --- Totals -------------------------------------------------------------------------------------------

  function ValueOf(w: Worth): real {
    if w.Amount? then w.value else 0.0
  }

  lemma {:induction false} TotalJoin(a: seq<Worth>, b: seq<Worth>)
    ensures Total(a + b) == Total(a) + Total(b)
    decreases |b|
  {
    if b == [] {
      assert a + b == a;
    } else {
      TotalJoin(a, b[..|b| - 1]);
      assert (a + b)[..|a + b| - 1] == a + b[..|b| - 1];
    }
  }

  lemma TotalParts(a: seq<Worth>, mid: seq<Worth>, b: seq<Worth>)
    ensures Total(a + mid + b) == Total(a) + Total(mid) + Total(b)
  {
    TotalJoin(a, mid);
    TotalJoin(a + mid, b);
  }

  lemma TotalOfOne(w: Worth)
    ensures Total([w]) == ValueOf(w)
  {
    assert [w][..0] == [];
    assert Total([w][..0]) == 0.0;
  }

  lemma TotalWithout(a: seq<Worth>, j: nat)
    requires j < |a|
    ensures Total(a) == Total(a[..j] + a[j + 1..]) + ValueOf(a[j])
  {
    Around(a, j);
    TotalParts(a[..j], [a[j]], a[j + 1..]);
    TotalOfOne(a[j]);
    TotalJoin(a[..j], a[j + 1..]);
  }

  lemma {:induction false} TotalPermutes(a: seq<Worth>, b: seq<Worth>)
    requires multiset(a) == multiset(b)
    ensures Total(a) == Total(b)
    decreases |a|
  {
    if a == [] {
      assert |multiset(b)| == 0;
    } else {
      var n := |a| - 1;
      assert a[n] in multiset(b);
      var j :| 0 <= j < |b| && b[j] == a[n];
      WithoutOne(a, b, j);
      TotalPermutes(a[..n], b[..j] + b[j + 1..]);
      TotalWithout(b, j);
    }
  }

  lemma SameComparable(a: seq<Worth>, b: seq<Worth>)
    requires multiset(a) == multiset(b) && Comparable(a)
    ensures Comparable(b)
  {
    var i :| 0 <= i < |a| && a[i].Amount?;
    assert a[i] in multiset(b);
    var j :| 0 <= j < |b| && b[j] == a[i];
  }

  lemma JudgePermutes(required: Option<real>, a: seq<Worth>, b: seq<Worth>)
    requires multiset(a) == multiset(b)
    ensures Judge(required, a) == Judge(required, b)
  {
    assert |a| == |multiset(a)| == |multiset(b)| == |b|;
    assert Unmeasured in a <==> Unmeasured in multiset(a);
    assert Unmeasured in b <==> Unmeasured in multiset(b);
    TotalPermutes(a, b);
    if Comparable(a) {
      SameComparable(a, b);
    }
    if Comparable(b) {
      SameComparable(b, a);
    }
  }

  // --- Order of the rows ------------------------------------------------------------------------------------

  lemma {:induction false} WorthsJoin(table: Table, a: seq<Row>, b: seq<Row>, unit: string)
    ensures Worths(table, a + b, unit) == Worths(table, a, unit) + Worths(table, b, unit)
    decreases |b|
  {
    if b == [] {
      assert a + b == a;
    } else {
      WorthsJoin(table, a, b[..|b| - 1], unit);
      assert (a + b)[..|a + b| - 1] == a + b[..|b| - 1];
    }
  }

  lemma WorthsOfOne(table: Table, row: Row, unit: string)
    ensures Worths(table, [row], unit) == [WorthOf(table, row, unit)]
  {
    assert [row][..0] == [];
  }

  lemma WorthsWithout(table: Table, rows: seq<Row>, unit: string, j: nat)
    requires j < |rows|
    ensures multiset(Worths(table, rows, unit))
            == multiset(Worths(table, rows[..j] + rows[j + 1..], unit)) + multiset{WorthOf(table, rows[j], unit)}
  {
    var a, b := Worths(table, rows[..j], unit), Worths(table, rows[j + 1..], unit);
    assert Worths(table, rows, unit) == a + [WorthOf(table, rows[j], unit)] + b by {
      Around(rows, j);
      WorthsOfOne(table, rows[j], unit);
      WorthsJoin(table, rows[..j], [rows[j]], unit);
      WorthsJoin(table, rows[..j] + [rows[j]], rows[j + 1..], unit);
    }
    assert Worths(table, rows[..j] + rows[j + 1..], unit) == a + b by {
      WorthsJoin(table, rows[..j], rows[j + 1..], unit);
    }
  }

  lemma {:induction false} WorthsPermute(table: Table, a: seq<Row>, b: seq<Row>, unit: string)
    requires multiset(a) == multiset(b)
    ensures multiset(Worths(table, a, unit)) == multiset(Worths(table, b, unit))
    decreases |a|
  {
    if a == [] {
      assert |multiset(b)| == 0;
    } else {
      var n := |a| - 1;
      assert a[n] in multiset(b);
      var j :| 0 <= j < |b| && b[j] == a[n];
      WithoutOne(a, b, j);
      assert a == a[..n] + [a[n]];
      WorthsPermute(table, a[..n], b[..j] + b[j + 1..], unit);
      WorthsWithout(table, b, unit, j);
    }
  }

  /** The order of the inventory rows does not matter. */
  lemma RowsPermute(table: Table, required: Option<real>, unit: string, a: seq<Row>, b: seq<Row>)
    requires multiset(a) == multiset(b)
    ensures Judged(table, required, unit, a) == Judged(table, required, unit, b)
  {
    WorthsPermute(table, a, b, unit);
    JudgePermutes(required, Worths(table, a, unit), Worths(table, b, unit));
  }

  /** Rows of one ingredient repeat its columns. */
  ghost predicate Joined(rows: seq<Row>) {
    forall r, q :: r in rows && q in rows && r.ingredient == q.ingredient ==> SameIngredient(r, q)
  }

  predicate SameIngredient(r: Row, q: Row) {
    r.kind == q.kind && r.name == q.name && r.amount == q.amount && r.unit == q.unit
  }

  lemma {:induction false} MatchesCount(rows: seq<Row>, id: IngredientId, r: Row)
    ensures multiset(Matches(rows, id))[r] == if r.ingredient == id && r.inventory.Some? then multiset(rows)[r] else 0
    decreases |rows|
  {
    if rows != [] {
      var n := |rows| - 1;
      MatchesCount(rows[..n], id, r);
      assert rows == rows[..n] + [rows[n]];
    }
  }

  lemma {:induction false} HeaderIsARow(rows: seq<Row>, id: IngredientId)
    ensures Header(rows, id).Some? ==> Header(rows, id).value in rows && Header(rows, id).value.ingredient == id
    ensures Header(rows, id).None? ==> forall r :: r in rows ==> r.ingredient != id
    decreases |rows|
  {
    if rows != [] {
      HeaderIsARow(rows[..|rows| - 1], id);
      assert rows == rows[..|rows| - 1] + [rows[|rows| - 1]];
    }
  }

  function OutcomeFor(table: Table, rows: seq<Row>, id: IngredientId): Option<Outcome> {
    var h := Header(rows, id);
    if h.None? then None else Some(Judged(table, h.value.amount, TextOrEmpty(h.value.unit), Matches(rows, id)))
  }

  /** However the join is ordered, each ingredient gets the same status, total and shortfall. */
  lemma JoinOrderDoesNotMatter(table: Table, rows: seq<Row>, others: seq<Row>, id: IngredientId)
    requires multiset(rows) == multiset(others) && Joined(rows)
    ensures OutcomeFor(table, rows, id) == OutcomeFor(table, others, id)
  {
    HeaderIsARow(rows, id);
    HeaderIsARow(others, id);
    forall r
      ensures r in rows <==> r in others
    {
      assert r in multiset(rows) <==> r in multiset(others);
    }
    forall r
      ensures multiset(Matches(rows, id))[r] == multiset(Matches(others, id))[r]
    {
      MatchesCount(rows, id, r);
      MatchesCount(others, id, r);
    }
    assert multiset(Matches(rows, id)) == multiset(Matches(others, id));
    if Header(rows, id).Some? {
      var h, g := Header(rows, id).value, Header(others, id).value;
      assert SameIngredient(h, g);
      RowsPermute(table, h.amount, TextOrEmpty(h.unit), Matches(rows, id), Matches(others, id));
    }
  }

  // --- Splitting and re-expressing a row -----------------------------------------------------------------------

  lemma UnmeasuredParts(a: seq<Worth>, mid: seq<Worth>, b: seq<Worth>)
    ensures Unmeasured in a + mid + b <==> Unmeasured in a || Unmeasured in mid || Unmeasured in b
  {
  }

  lemma JudgeParts(required: Option<real>, a: seq<Worth>, mid: seq<Worth>, other: seq<Worth>, b: seq<Worth>)
    requires mid != [] && other != [] && Unmeasured !in mid && Unmeasured !in other
    requires Comparable(mid) <==> Comparable(other)
    requires Total(mid) == Total(other)
    ensures Judge(required, a + mid + b) == Judge(required, a + other + b)
  {
    var x, y := a + mid + b, a + other + b;
    assert Total(x) == Total(y) by {
      TotalParts(a, mid, b);
      TotalParts(a, other, b);
    }
    assert Comparable(x) <==> Comparable(y) by {
      ComparableParts(a, mid, b);
      ComparableParts(a, other, b);
    }
    assert Unmeasured in x <==> Unmeasured in y by {
      UnmeasuredParts(a, mid, b);
      UnmeasuredParts(a, other, b);
    }
    assert x != [] && y != [];
  }

  lemma ComparableParts(a: seq<Worth>, mid: seq<Worth>, b: seq<Worth>)
    ensures Comparable(a + mid + b) <==> Comparable(a) || Comparable(mid) || Comparable(b)
  {
    var all := a + mid + b;
    assert forall i :: 0 <= i < |a| ==> all[i] == a[i];
    assert forall i :: 0 <= i < |mid| ==> all[|a| + i] == mid[i];
    assert forall i :: 0 <= i < |b| ==> all[|a| + |mid| + i] == b[i];
    if Comparable(mid) {
      var i :| 0 <= i < |mid| && mid[i].Amount?;
      assert all[|a| + i].Amount?;
    }
    if Comparable(b) {
      var i :| 0 <= i < |b| && b[i].Amount?;
      assert all[|a| + |mid| + i].Amount?;
    }
  }

  lemma WorthsParts(table: Table, a: seq<Row>, mid: seq<Row>, b: seq<Row>, unit: string)
    ensures Worths(table, a + mid + b, unit)
            == Worths(table, a, unit) + Worths(table, mid, unit) + Worths(table, b, unit)
  {
    WorthsJoin(table, a, mid, unit);
    WorthsJoin(table, a + mid, b, unit);
  }

  lemma PairOfWorths(x: Worth, y: Worth)
    ensures Total([x, y]) == ValueOf(x) + ValueOf(y) && Total([x]) == ValueOf(x)
    ensures Comparable([x, y]) <==> x.Amount? || y.Amount?
    ensures Comparable([x]) <==> x.Amount?
  {
    TotalOfOne(x);
    TotalOfOne(y);
    TotalJoin([x], [y]);
    assert [x] + [y] == [x, y];
    assert x == [x, y][0] == [x][0] && y == [x, y][1];
  }

  lemma WorthsOfTwo(table: Table, one: Row, two: Row, unit: string)
    ensures Worths(table, [one, two], unit) == [WorthOf(table, one, unit), WorthOf(table, two, unit)]
  {
    assert [one, two] == [one] + [two];
    WorthsJoin(table, [one], [two], unit);
    WorthsOfOne(table, one, unit);
    WorthsOfOne(table, two, unit);
  }

  /** The two parts are worth what the row is worth. */
  lemma PartsAreWorthTheRow(table: Table, unit: string, row: Row, one: Row, two: Row)
    requires row.invAmount.Some? && one.invAmount.Some? && two.invAmount.Some?
    requires row.invAmount.value == one.invAmount.value + two.invAmount.value
    requires one.invUnit == row.invUnit == two.invUnit
    ensures var w, x, y := WorthOf(table, row, unit), WorthOf(table, one, unit), WorthOf(table, two, unit);
            && (w.Amount? <==> x.Amount?) && (w.Amount? <==> y.Amount?)
            && w != Unmeasured && x != Unmeasured && y != Unmeasured
            && ValueOf(w) == ValueOf(x) + ValueOf(y)
  {
    var from := TextOrEmpty(row.invUnit);
    ConvertibleIff(table, one.invAmount.value, from, unit);
    ConvertibleIff(table, two.invAmount.value, from, unit);
    ConvertibleIff(table, row.invAmount.value, from, unit);
    if Convertible(table, from, unit) {
      ConversionIsLinear(table, one.invAmount.value, two.invAmount.value, from, unit);
    }
  }

  /** Splitting a measured row into two of the same unit changes nothing. */
  lemma SplittingARow(table: Table, required: Option<real>, unit: string, a: seq<Row>, row: Row, b: seq<Row>,
                      x: real, y: real, other: InventoryId)
    requires row.invAmount == Some(x + y)
    ensures Judged(table, required, unit, a + [row] + b)
            == Judged(table, required, unit,
                      a + [row.(invAmount := Some(x)), row.(invAmount := Some(y), inventory := Some(other))] + b)
  {
    var one, two := row.(invAmount := Some(x)), row.(invAmount := Some(y), inventory := Some(other));
    WorthsParts(table, a, [row], b, unit);
    WorthsParts(table, a, [one, two], b, unit);
    WorthsOfOne(table, row, unit);
    WorthsOfTwo(table, one, two, unit);
    PartsAreWorthTheRow(table, unit, row, one, two);
    PairOfWorths(WorthOf(table, one, unit), WorthOf(table, two, unit));
    PairOfWorths(WorthOf(table, row, unit), WorthOf(table, row, unit));
    JudgeParts(required, Worths(table, a, unit), Worths(table, [row], unit), Worths(table, [one, two], unit),
               Worths(table, b, unit));
  }

  lemma WorthReexpressed(table: Table, unit: string, row: Row, to: string)
    requires row.invAmount.Some? && Convertible(table, TextOrEmpty(row.invUnit), to)
    ensures WorthOf(table, row.(invAmount := Convert(table, row.invAmount.value, TextOrEmpty(row.invUnit), to),
                                invUnit := Some(to)), unit)
            == WorthOf(table, row, unit)
  {
    var from, x := TextOrEmpty(row.invUnit), row.invAmount.value;
    ConvertibleIff(table, x, from, to);
    var there := Convert(table, x, from, to).value;
    ConvertibleIff(table, x, from, unit);
    ConvertibleIff(table, there, to, unit);
    ConvertibleIsAnEquivalence(table, from, to, unit);
    ConvertibleIsAnEquivalence(table, to, from, unit);
    if Convertible(table, to, unit) {
      ConversionsCompose(table, x, from, to, unit);
    }
  }

  /** Writing a measured row in another unit it converts to changes nothing. */
  lemma ReexpressingARow(table: Table, required: Option<real>, unit: string, a: seq<Row>, row: Row, b: seq<Row>,
                         to: string)
    requires row.invAmount.Some? && Convertible(table, TextOrEmpty(row.invUnit), to)
    ensures var again := row.(invAmount := Convert(table, row.invAmount.value, TextOrEmpty(row.invUnit), to),
                              invUnit := Some(to));
            Judged(table, required, unit, a + [row] + b) == Judged(table, required, unit, a + [again] + b)
  {
    var again := row.(invAmount := Convert(table, row.invAmount.value, TextOrEmpty(row.invUnit), to),
                      invUnit := Some(to));
    WorthsParts(table, a, [row], b, unit);
    WorthsParts(table, a, [again], b, unit);
    WorthsOfOne(table, row, unit);
    WorthsOfOne(table, again, unit);
    WorthReexpressed(table, unit, row, to);
  }

  // --- More rows --------------------------------------------------------------------------------------------

  function Better(status: Status): nat {
    match status
    case Missing => 0
    case Short => 1
    case Have => 2
  }

  lemma JudgeMore(required: Option<real>, a: seq<Worth>, w: Worth, b: seq<Worth>)
    requires w.Amount? ==> w.value >= 0.0
    ensures Better(Judge(required, a + b).status) <= Better(Judge(required, a + [w] + b).status)
  {
    TotalJoin(a, b);
    TotalParts(a, [w], b);
    PairOfWorths(w, w);
    ComparableParts(a, [], b);
    ComparableParts(a, [w], b);
    assert a + [] + b == a + b;
    assert Unmeasured in a + b ==> Unmeasured in a + [w] + b;
  }

  /** Another inventory row with a non-negative amount, or none, never makes the status worse. */
  lemma MoreIsNeverWorse(table: Table, required: Option<real>, unit: string, a: seq<Row>, row: Row, b: seq<Row>)
    requires row.invAmount.Some? ==> row.invAmount.value >= 0.0
    ensures Better(Judged(table, required, unit, a + b).status)
            <= Better(Judged(table, required, unit, a + [row] + b).status)
  {
    WorthsJoin(table, a, b, unit);
    WorthsParts(table, a, [row], b, unit);
    WorthsOfOne(table, row, unit);
    if row.invAmount.Some? {
      ConvertibleIff(table, row.invAmount.value, TextOrEmpty(row.invUnit), unit);
      if Convertible(table, TextOrEmpty(row.invUnit), unit) {
        ConversionIsLinear(table, row.invAmount.value, 0.0, TextOrEmpty(row.invUnit), unit);
      }
    }
    JudgeMore(required, Worths(table, a, unit), WorthOf(table, row, unit), Worths(table, b, unit));
  }

  /** One measured row counts for exactly what it converts to. */
  lemma SingleRow(table: Table, required: real, unit: string, row: Row)
    requires row.invAmount.Some?
    ensures var from := if row.invUnit.Some? then row.invUnit.value else "";
            var converted := Convert(table, row.invAmount.value, from, unit);
            Judged(table, Some(required), unit, [row]) ==
            if converted.None? then Outcome(Missing, true, None, None)
            else if converted.value < required
            then Outcome(Short, false, converted, Some(required - converted.value))
            else Outcome(Have, false, converted, None)
  {
    WorthsOfOne(table, row, unit);
    TotalOfOne(WorthOf(table, row, unit));
  }

  /** Measured rows together are worth the sum of what they are worth apart. */
  lemma TotalsAdd(table: Table, unit: string, a: seq<Row>, b: seq<Row>)
    ensures Total(Worths(table, a + b, unit)) == Total(Worths(table, a, unit)) + Total(Worths(table, b, unit))
  {
    WorthsJoin(table, a, b, unit);
    TotalJoin(Worths(table, a, unit), Worths(table, b, unit));
  }

  /**
   Total and shortfall make up the required amount exactly when the ingredient is short, and then it is short of
   something.
   */
  lemma ShortIff(table: Table, required: real, unit: string, rows: seq<Row>)
    ensures var o := Judged(table, Some(required), unit, rows);
            && (o.status == Short
                <==> o.total.Some? && o.shortfall.Some? && o.total.value + o.shortfall.value == required)
            && (o.status == Short ==> o.shortfall.value > 0.0)
            && (o.status == Have && o.total.Some? ==> o.total.value >= required)
  {
  }
}
