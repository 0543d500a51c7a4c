/**
 What a brewer has of each recipe ingredient: the rows of the ingredient-inventory join are grouped by
 ingredient, and each group is classified as have, short or missing. Amounts are exact.
 */
module InventoryMatch {
  import opened Wrappers
  import opened Units

  type IngredientId = nat
  type InventoryId = nat

  /** One row of the left join; without an inventory item on the right, `inventory` is None. */
  datatype Row = Row(ingredient: IngredientId, kind: string, name: string, amount: Option<real>, unit: Option<string>,
                     inventory: Option<InventoryId>, invAmount: Option<real>, invUnit: Option<string>)

  datatype Status = Missing | Short | Have

  datatype View = View(ingredient: IngredientId, kind: string, name: string, amount: Option<real>, unit: string,
                       status: Status, inventory: Option<InventoryId>, unitMismatch: bool,
                       total: Option<real>, shortfall: Option<real>)

  function TextOrEmpty(text: Option<string>): string {
    if text.Some? then text.value else ""
  }

  // --- Grouping -------------------------------------------------------------------------------------

  /** Ingredients in the order of their first rows. */
  function FirstAppearance(rows: seq<Row>): seq<IngredientId> {
    if rows == [] then []
    else
      var before := FirstAppearance(rows[..|rows| - 1]);
      var id := rows[|rows| - 1].ingredient;
      if id in before then before else before + [id]
  }

  /** The ingredient's rows that carry an inventory item, in input order. */
  function Matches(rows: seq<Row>, id: IngredientId): seq<Row> {
    if rows == [] then []
    else
      var before, last := Matches(rows[..|rows| - 1], id), rows[|rows| - 1];
      if last.ingredient == id && last.inventory.Some? then before + [last] else before
  }

  /** The ingredient's first row. */
  function Header(rows: seq<Row>, id: IngredientId): Option<Row> {
    if rows == [] then None
    else
      var before, last := Header(rows[..|rows| - 1], id), rows[|rows| - 1];
      if before.None? && last.ingredient == id then Some(last) else before
  }

  predicate Mentions(rows: seq<Row>, id: IngredientId) {
    exists i :: 0 <= i < |rows| && rows[i].ingredient == id
  }

  lemma {:induction false} AppearanceMentions(rows: seq<Row>, id: IngredientId)
    ensures id in FirstAppearance(rows) <==> Mentions(rows, id)
    decreases |rows|
  {
    if rows != [] {
      var n := |rows| - 1;
      AppearanceMentions(rows[..n], id);
      if Mentions(rows[..n], id) {
        var i :| 0 <= i < n && rows[..n][i].ingredient == id;
        assert rows[i].ingredient == id;
      }
      if Mentions(rows, id) && rows[n].ingredient != id {
        var i :| 0 <= i < |rows| && rows[i].ingredient == id;
        assert rows[..n][i].ingredient == id;
      }
    }
  }

  /** One view per distinct ingredient. */
  lemma {:induction false} AppearsOnce(rows: seq<Row>)
    ensures forall i, j :: 0 <= i < j < |FirstAppearance(rows)| ==> FirstAppearance(rows)[i] != FirstAppearance(rows)[j]
    decreases |rows|
  {
    if rows != [] {
      AppearsOnce(rows[..|rows| - 1]);
    }
  }

  /** Row i is the ingredient's first. */
  predicate FirstAt(rows: seq<Row>, id: IngredientId, i: nat) {
    i < |rows| && rows[i].ingredient == id && forall j :: 0 <= j < i ==> rows[j].ingredient != id
  }

  lemma FirstAtPrefix(rows: seq<Row>, id: IngredientId, i: nat, n: nat)
    requires n <= |rows| && FirstAt(rows, id, i)
    ensures i < n ==> FirstAt(rows[..n], id, i)
    ensures Mentions(rows[..n], id) <==> i < n
  {
    if i < n {
      assert rows[..n][i].ingredient == id;
    }
  }

  lemma {:induction false} HeaderIsFirst(rows: seq<Row>, id: IngredientId, i: nat)
    requires FirstAt(rows, id, i)
    ensures Header(rows, id) == Some(rows[i])
    decreases |rows|
  {
    var n := |rows| - 1;
    if i < n {
      FirstAtPrefix(rows, id, i, n);
      HeaderIsFirst(rows[..n], id, i);
    } else {
      NoHeader(rows[..n], id);
    }
  }

  lemma {:induction false} NoHeader(rows: seq<Row>, id: IngredientId)
    requires forall j :: 0 <= j < |rows| ==> rows[j].ingredient != id
    ensures Header(rows, id) == None
    decreases |rows|
  {
    if rows != [] {
      NoHeader(rows[..|rows| - 1], id);
    }
  }

  /** The order of the views is the order of first occurrences. */
  lemma {:induction false} AppearanceIsOrdered(rows: seq<Row>, p: nat, q: nat, i: nat, j: nat)
    requires p < q < |FirstAppearance(rows)|
    requires FirstAt(rows, FirstAppearance(rows)[p], i) && FirstAt(rows, FirstAppearance(rows)[q], j)
    ensures i < j
    decreases |rows|
  {
    var n, ids := |rows| - 1, FirstAppearance(rows);
    var before := FirstAppearance(rows[..n]);
    assert ids[p] in before;
    AppearanceMentions(rows[..n], ids[p]);
    AppearanceMentions(rows[..n], ids[q]);
    FirstAtPrefix(rows, ids[p], i, n);
    FirstAtPrefix(rows, ids[q], j, n);
    if q < |before| {
      assert ids[q] in before;
      AppearanceIsOrdered(rows[..n], p, q, i, j);
    } else {
      AppearsOnce(rows);
      assert ids[q] !in before;
    }
  }

  predicate Qualifies(row: Row, id: IngredientId) {
    row.ingredient == id && row.inventory.Some?
  }

  predicate Ascending(at: seq<nat>) {
    forall i, j :: 0 <= i < j < |at| ==> at[i] < at[j]
  }

  /** `out` is what stands at these indices. */
  predicate ReadsOff(rows: seq<Row>, at: seq<nat>, out: seq<Row>) {
    |at| == |out| && forall k :: 0 <= k < |at| ==> at[k] < |rows| && rows[at[k]] == out[k]
  }

  lemma ReadsOffOneMore(rows: seq<Row>, at: seq<nat>, out: seq<Row>)
    requires rows != [] && Ascending(at) && ReadsOff(rows[..|rows| - 1], at, out)
    ensures Ascending(at + [|rows| - 1]) && ReadsOff(rows, at, out)
    ensures ReadsOff(rows, at + [|rows| - 1], out + [rows[|rows| - 1]])
  {
  }

  /** A bucket is the subsequence of the ingredient's rows with an inventory item, in input order. */
  lemma {:induction false} MatchesAreASubsequence(rows: seq<Row>, id: IngredientId) returns (at: seq<nat>)
    ensures Ascending(at) && ReadsOff(rows, at, Matches(rows, id))
    ensures forall i: nat :: i < |rows| ==> (i in at <==> Qualifies(rows[i], id))
    decreases |rows|
  {
    at := [];
    if rows != [] {
      var n := |rows| - 1;
      var before := MatchesAreASubsequence(rows[..n], id);
      ReadsOffOneMore(rows, before, Matches(rows[..n], id));
      at := if Qualifies(rows[n], id) then before + [n] else before;
      assert n !in before;
      assert forall i: nat :: i < n ==> rows[..n][i] == rows[i];
    }
  }

  function AllMatches(rows: seq<Row>, ids: seq<IngredientId>): seq<Row> {
    if ids == [] then [] else Matches(rows, ids[0]) + AllMatches(rows, ids[1..])
  }

  function WithInventory(rows: seq<Row>): seq<Row> {
    if rows == [] then []
    else
      var last := rows[|rows| - 1];
      WithInventory(rows[..|rows| - 1]) + if last.inventory.Some? then [last] else []
  }

  lemma {:induction false} NoneBefore(rows: seq<Row>, id: IngredientId)
    requires !Mentions(rows, id)
    ensures Matches(rows, id) == []
    decreases |rows|
  {
    if rows != [] {
      assert rows[|rows| - 1].ingredient != id;
      assert forall i :: 0 <= i < |rows| - 1 ==> rows[..|rows| - 1][i] == rows[i];
      NoneBefore(rows[..|rows| - 1], id);
    }
  }

  lemma MatchesGrow(rows: seq<Row>, id: IngredientId)
    requires rows != []
    ensures var last := rows[|rows| - 1];
            multiset(Matches(rows, id)) ==
            multiset(Matches(rows[..|rows| - 1], id))
            + if last.ingredient == id && last.inventory.Some? then multiset{last} else multiset{}
  {
  }

  /** One more row lands in its own bucket and in no other. */
  lemma {:induction false} OneMoreInBuckets(rows: seq<Row>, ids: seq<IngredientId>)
    requires rows != []
    requires forall i, j :: 0 <= i < j < |ids| ==> ids[i] != ids[j]
    ensures var last := rows[|rows| - 1];
            multiset(AllMatches(rows, ids)) ==
            multiset(AllMatches(rows[..|rows| - 1], ids))
            + if last.ingredient in ids && last.inventory.Some? then multiset{last} else multiset{}
    decreases |ids|
  {
    if ids != [] {
      OneMoreInBuckets(rows, ids[1..]);
      MatchesGrow(rows, ids[0]);
      var last := rows[|rows| - 1];
      assert last.ingredient == ids[0] ==> last.ingredient !in ids[1..];
      assert last.ingredient in ids <==> last.ingredient == ids[0] || last.ingredient in ids[1..];
    }
  }

  lemma {:induction false} EmptyBucketLast(rows: seq<Row>, ids: seq<IngredientId>, id: IngredientId)
    requires Matches(rows, id) == []
    ensures AllMatches(rows, ids + [id]) == AllMatches(rows, ids)
    decreases |ids|
  {
    if ids == [] {
      assert ids + [id] == [id];
      assert [id][1..] == [];
    } else {
      EmptyBucketLast(rows, ids[1..], id);
      assert (ids + [id])[1..] == ids[1..] + [id];
    }
  }

  /** No row with an inventory item is lost, and none lands in two buckets. */
  lemma {:induction false} BucketsPartition(rows: seq<Row>)
    ensures multiset(AllMatches(rows, FirstAppearance(rows))) == multiset(WithInventory(rows))
    decreases |rows|
  {
    if rows != [] {
      var before, id := rows[..|rows| - 1], rows[|rows| - 1].ingredient;
      BucketsPartition(before);
      AppearsOnce(rows);
      OneMoreInBuckets(rows, FirstAppearance(rows));
      if id !in FirstAppearance(before) {
        AppearanceMentions(before, id);
        NoneBefore(before, id);
        EmptyBucketLast(before, FirstAppearance(before), id);
      }
    }
  }

  // --- Classifying one ingredient ---------------------------------------------------------------------

  /** What one inventory row is worth in the recipe's unit. */
  datatype Worth = Unmeasured | Incompatible | Amount(value: real)

  function WorthOf(table: Table, row: Row, unit: string): Worth {
    if row.invAmount.None? then Unmeasured
    else
      var c := Convert(table, row.invAmount.value, TextOrEmpty(row.invUnit), unit);
      if c.Some? then Amount(c.value) else Incompatible
  }

  function Worths(table: Table, rows: seq<Row>, unit: string): (w: seq<Worth>)
    ensures |w| == |rows|
  {
    if rows == [] then [] else Worths(table, rows[..|rows| - 1], unit) + [WorthOf(table, rows[|rows| - 1], unit)]
  }

  datatype Outcome = Outcome(status: Status, unitMismatch: bool, total: Option<real>, shortfall: Option<real>)

  function Total(worths: seq<Worth>): real {
    if worths == [] then 0.0
    else Total(worths[..|worths| - 1]) + (if worths[|worths| - 1].Amount? then worths[|worths| - 1].value else 0.0)
  }

  predicate Comparable(worths: seq<Worth>) {
    exists i :: 0 <= i < |worths| && worths[i].Amount?
  }

  /** Have, short or missing, from what the rows are worth; their order plays no part. */
  function Judge(required: Option<real>, worths: seq<Worth>): Outcome {
    if worths == [] then Outcome(Missing, false, None, None)
    else if required.None? || Unmeasured in worths then Outcome(Have, false, None, None)
    else if !Comparable(worths) then Outcome(Missing, true, None, None)
    else if Total(worths) < required.value
    then Outcome(Short, false, Some(Total(worths)), Some(required.value - Total(worths)))
    else Outcome(Have, false, Some(Total(worths)), None)
  }

  function OutcomeOf(v: View): Outcome {
    Outcome(v.status, v.unitMismatch, v.total, v.shortfall)
  }

  /** The item the view links to: the first row, the first unmeasured one, or the first that can be compared. */
  ghost predicate Links(required: Option<real>, rows: seq<Row>, worths: seq<Worth>, inventory: Option<InventoryId>)
    requires |worths| == |rows|
  {
    if rows == [] then inventory == None
    else if required.None? then inventory == rows[0].inventory
    else if Unmeasured in worths then IsFirst(rows, worths, true, inventory)
    else if Comparable(worths) then IsFirst(rows, worths, false, inventory)
    else inventory == None
  }

  /** The row is unmeasured, or can be compared. */
  predicate Counts(worth: Worth, unmeasured: bool) {
    if unmeasured then worth == Unmeasured else worth.Amount?
  }

  ghost predicate IsFirst(rows: seq<Row>, worths: seq<Worth>, unmeasured: bool, inventory: Option<InventoryId>)
    requires |worths| == |rows|
  {
    exists i :: 0 <= i < |rows| && Counts(worths[i], unmeasured) && inventory == rows[i].inventory
                && forall j :: 0 <= j < i ==> !Counts(worths[j], unmeasured)
  }

  lemma {:induction false} WorthsAt(table: Table, rows: seq<Row>, unit: string, i: nat)
    requires i < |rows|
    ensures Worths(table, rows, unit)[i] == WorthOf(table, rows[i], unit)
    decreases |rows|
  {
    var n := |rows| - 1;
    if i < n {
      WorthsAt(table, rows[..n], unit, i);
      assert rows[..n][i] == rows[i];
    }
  }

  predicate AllMeasured(rows: seq<Row>) {
    forall i :: 0 <= i < |rows| ==> rows[i].invAmount.Some?
  }

  /** Every row has an amount, and none is in a unit that converts to this one. */
  ghost predicate NoneConverts(table: Table, rows: seq<Row>, unit: string) {
    forall i :: 0 <= i < |rows| ==>
      && rows[i].invAmount.Some?
      && var from := if rows[i].invUnit.Some? then rows[i].invUnit.value else "";
         Convert(table, rows[i].invAmount.value, from, unit).None?
  }

  lemma WorthsSpelled(table: Table, rows: seq<Row>, unit: string)
    ensures Unmeasured in Worths(table, rows, unit) <==> !AllMeasured(rows)
    ensures AllMeasured(rows) ==> (!Comparable(Worths(table, rows, unit)) <==> NoneConverts(table, rows, unit))
  {
    var worths := Worths(table, rows, unit);
    forall i | 0 <= i < |rows|
      ensures worths[i] == WorthOf(table, rows[i], unit)
    {
      WorthsAt(table, rows, unit, i);
    }
    if !AllMeasured(rows) {
      var i :| 0 <= i < |rows| && rows[i].invAmount.None?;
      assert worths[i] == Unmeasured;
    }
  }

  method ClassifyMatch(table: Table, ingredient: Row, matches: seq<Row>) returns (v: View)
    requires forall i :: 0 <= i < |matches| ==> matches[i].inventory.Some?
    ensures v.ingredient == ingredient.ingredient && v.kind == ingredient.kind && v.name == ingredient.name
    ensures v.amount == ingredient.amount && v.unit == TextOrEmpty(ingredient.unit)
    ensures v.unit == if ingredient.unit.Some? then ingredient.unit.value else ""
    ensures OutcomeOf(v) == Judge(ingredient.amount, Worths(table, matches, v.unit))
    ensures Links(ingredient.amount, matches, Worths(table, matches, v.unit), v.inventory)
    ensures matches == [] ==> OutcomeOf(v) == Outcome(Missing, false, None, None) && v.inventory.None?
    ensures matches != [] && ingredient.amount.None? ==>
              OutcomeOf(v) == Outcome(Have, false, None, None) && v.inventory == matches[0].inventory
    ensures matches != [] && ingredient.amount.Some?
            && (exists i :: 0 <= i < |matches| && matches[i].invAmount.None?) ==>
              OutcomeOf(v) == Outcome(Have, false, None, None)
    ensures matches != [] && ingredient.amount.Some? && NoneConverts(table, matches, v.unit) ==>
              OutcomeOf(v) == Outcome(Missing, true, None, None) && v.inventory.None?
    ensures matches != [] && ingredient.amount.Some?
            && AllMeasured(matches) && !NoneConverts(table, matches, v.unit) ==>
              && !v.unitMismatch && v.total.Some?
              && v.status == (if v.total.value < ingredient.amount.value then Short else Have)
              && v.shortfall == (if v.total.value < ingredient.amount.value
                                 then Some(ingredient.amount.value - v.total.value) else None)
  {
    WorthsSpelled(table, matches, TextOrEmpty(ingredient.unit));
    var unit := TextOrEmpty(ingredient.unit);
    v := View(ingredient.ingredient, ingredient.kind, ingredient.name, ingredient.amount, unit, Missing, None, false,
              None, None);
    if |matches| == 0 {
      return;
    }
    if ingredient.amount.None? {
      v := v.(status := Have, inventory := matches[0].inventory);
      return;
    }
    v := ClassifyAmount(table, v, matches);
  }

  /** The recipe gives an amount, and there are rows. */
  method ClassifyAmount(table: Table, blank: View, matches: seq<Row>) returns (v: View)
    requires blank.amount.Some? && matches != [] && OutcomeOf(blank) == Outcome(Missing, false, None, None)
             && blank.inventory.None?
    requires forall i :: 0 <= i < |matches| ==> matches[i].inventory.Some?
    ensures v == blank.(status := v.status, inventory := v.inventory, unitMismatch := v.unitMismatch, total := v.total,
                        shortfall := v.shortfall)
    ensures OutcomeOf(v) == Judge(blank.amount, Worths(table, matches, blank.unit))
    ensures Links(blank.amount, matches, Worths(table, matches, blank.unit), v.inventory)
  {
    v := blank;
    var unmeasured, sum, convertible := SumMatches(table, matches, v.unit);
    if unmeasured.Some? {
      v := v.(status := Have, inventory := unmeasured);
      return;
    }
    if convertible == 0 {
      v := v.(unitMismatch := true);
      return;
    }
    var first := FirstComparable(table, matches, v.unit);
    v := v.(total := Some(sum), inventory := first);
    if sum < v.amount.value {
      v := v.(shortfall := Some(v.amount.value - sum), status := Short);
      return;
    }
    v := v.(status := Have);
  }

  /** The summing loop; it stops at the first row without an amount. */
  method SumMatches(table: Table, matches: seq<Row>, unit: string)
    returns (unmeasured: Option<InventoryId>, sum: real, convertible: nat)
    requires forall i :: 0 <= i < |matches| ==> matches[i].inventory.Some?
    ensures unmeasured.Some? <==> Unmeasured in Worths(table, matches, unit)
    ensures unmeasured.Some? ==> IsFirst(matches, Worths(table, matches, unit), true, unmeasured)
    ensures unmeasured.None? ==>
              sum == Total(Worths(table, matches, unit))
              && (convertible > 0 <==> Comparable(Worths(table, matches, unit)))
  {
    unmeasured, sum, convertible := None, 0.0, 0;
    ghost var worths := Worths(table, matches, unit);
    var i := 0;
    while i < |matches|
      invariant 0 <= i <= |matches|
      invariant forall j :: 0 <= j < i ==> worths[j] != Unmeasured
      invariant sum == Total(worths[..i]) && (convertible > 0 <==> Comparable(worths[..i]))
    {
      WorthsAt(table, matches, unit, i);
      ghost var so := worths[..i + 1];
      assert so[..i] == worths[..i] && so[i] == worths[i];
      if matches[i].invAmount.None? {
        unmeasured := matches[i].inventory;
        assert worths[i] == Unmeasured;
        return;
      }
      var converted := Convert(table, matches[i].invAmount.value, TextOrEmpty(matches[i].invUnit), unit);
      if converted.Some? {
        sum := sum + converted.value;
        convertible := convertible + 1;
      }
      assert Comparable(so) <==> Comparable(worths[..i]) || worths[i].Amount? by { ComparableSoFar(worths, i); }
      i := i + 1;
    }
    assert worths[..i] == worths;
  }

  lemma ComparableSoFar(worths: seq<Worth>, i: nat)
    requires i < |worths|
    ensures Comparable(worths[..i + 1]) <==> Comparable(worths[..i]) || worths[i].Amount?
  {
    var so := worths[..i + 1];
    if Comparable(worths[..i]) {
      var j :| 0 <= j < i && worths[..i][j].Amount?;
      assert so[j].Amount?;
    }
    if Comparable(so) && !worths[i].Amount? {
      var j :| 0 <= j < |so| && so[j].Amount?;
      assert worths[..i][j].Amount?;
    }
    assert so[i] == worths[i];
  }

  /** The loop that looks for the item to link to; it asks whether one unit of it would convert. */
  method FirstComparable(table: Table, matches: seq<Row>, unit: string) returns (inventory: Option<InventoryId>)
    requires forall i :: 0 <= i < |matches| ==> matches[i].inventory.Some?
    requires Unmeasured !in Worths(table, matches, unit) && Comparable(Worths(table, matches, unit))
    ensures IsFirst(matches, Worths(table, matches, unit), false, inventory)
  {
    ghost var worths := Worths(table, matches, unit);
    inventory := None;
    var i := 0;
    while i < |matches|
      invariant 0 <= i <= |matches|
      invariant forall j :: 0 <= j < i ==> !worths[j].Amount?
    {
      WorthsAt(table, matches, unit, i);
      assert worths[i] in worths;
      ConvertibleIff(table, matches[i].invAmount.value, TextOrEmpty(matches[i].invUnit), unit);
      if Convert(table, 1.0, TextOrEmpty(matches[i].invUnit), unit).Some? {
        inventory := matches[i].inventory;
        return;
      }
      i := i + 1;
    }
  }

  // --- The whole answer ---------------------------------------------------------------------------------

  datatype Bucket = Bucket(ingredient: Row, matches: seq<Row>)

  ghost predicate BucketOk(rows: seq<Row>, id: IngredientId, b: Bucket) {
    Header(rows, id) == Some(b.ingredient) && b.matches == Matches(rows, id)
  }

  lemma {:induction false} MatchesHaveInventory(rows: seq<Row>, id: IngredientId)
    ensures forall i :: 0 <= i < |Matches(rows, id)| ==> Matches(rows, id)[i].inventory.Some?
    decreases |rows|
  {
    if rows != [] {
      MatchesHaveInventory(rows[..|rows| - 1], id);
    }
  }

  lemma {:induction false} HeaderIffAppears(rows: seq<Row>, id: IngredientId)
    ensures Header(rows, id).Some? <==> id in FirstAppearance(rows)
    ensures Header(rows, id).Some? ==> Header(rows, id).value.ingredient == id
    ensures Header(rows, id).None? ==> Matches(rows, id) == []
    decreases |rows|
  {
    if rows != [] {
      HeaderIffAppears(rows[..|rows| - 1], id);
    }
  }

  /** The grouping loop. */
  method GroupRows(rows: seq<Row>) returns (order: seq<IngredientId>, buckets: map<IngredientId, Bucket>)
    ensures order == FirstAppearance(rows)
    ensures forall id :: id in order ==> id in buckets && BucketOk(rows, id, buckets[id])
  {
    order, buckets := [], map[];
    var i := 0;
    while i < |rows|
      invariant 0 <= i <= |rows| && order == FirstAppearance(rows[..i])
      invariant forall id :: id in order <==> id in buckets
      invariant forall id :: id in order ==> BucketOk(rows[..i], id, buckets[id])
    {
      var row := rows[i];
      ghost var was := buckets;
      assert rows[..i + 1][..i] == rows[..i];
      HeaderIffAppears(rows[..i], row.ingredient);
      if row.ingredient !in buckets {
        buckets := buckets[row.ingredient := Bucket(row, [])];
        order := order + [row.ingredient];
      }
      if row.inventory.Some? {
        var b := buckets[row.ingredient];
        buckets := buckets[row.ingredient := b.(matches := b.matches + [row])];
      }
      i := i + 1;
      forall id | id in order
        ensures BucketOk(rows[..i], id, buckets[id])
      {
        OneMoreRow(rows[..i], id);
        assert id != row.ingredient ==> buckets[id] == was[id];
      }
    }
    assert rows[..i] == rows;
  }

  lemma OneMoreRow(rows: seq<Row>, id: IngredientId)
    requires rows != []
    ensures var before, last := rows[..|rows| - 1], rows[|rows| - 1];
            && Header(rows, id) ==
               (if Header(before, id).None? && last.ingredient == id then Some(last) else Header(before, id))
            && Matches(rows, id) ==
               Matches(before, id) + (if last.ingredient == id && last.inventory.Some? then [last] else [])
  {
  }

  /** The view says of this ingredient what its rows amount to. */
  ghost predicate Describes(table: Table, rows: seq<Row>, id: IngredientId, v: View) {
    && Header(rows, id).Some?
    && var h := Header(rows, id).value;
       && v.ingredient == id && v.kind == h.kind && v.name == h.name && v.amount == h.amount
          && v.unit == TextOrEmpty(h.unit)
       && OutcomeOf(v) == Judge(h.amount, Worths(table, Matches(rows, id), v.unit))
       && Links(h.amount, Matches(rows, id), Worths(table, Matches(rows, id), v.unit), v.inventory)
  }

  /** What the loop does for one ingredient. */
  method MatchBucket(table: Table, ghost rows: seq<Row>, id: IngredientId, b: Bucket) returns (v: View)
    requires BucketOk(rows, id, b)
    ensures Describes(table, rows, id, v)
  {
    HeaderIffAppears(rows, id);
    MatchesHaveInventory(rows, id);
    v := ClassifyMatch(table, b.ingredient, b.matches);
  }

  method AggregateInventoryMatch(table: Table, rows: seq<Row>) returns (views: seq<View>)
    ensures |views| == |FirstAppearance(rows)|
    ensures forall k :: 0 <= k < |views| ==> Describes(table, rows, FirstAppearance(rows)[k], views[k])
  {
    var order, buckets := GroupRows(rows);
    views := [];
    var k := 0;
    while k < |order|
      invariant 0 <= k <= |order| && |views| == k
      invariant forall j :: 0 <= j < k ==> Describes(table, rows, order[j], views[j])
    {
      assert order[k] in order;
      var v := MatchBucket(table, rows, order[k], buckets[order[k]]);
      views := views + [v];
      k := k + 1;
    }
  }

  /** The answer with the program's own table of units. */
  method MatchRecipe(rows: seq<Row>) returns (views: seq<View>)
    ensures |views| == |FirstAppearance(rows)|
    ensures forall k :: 0 <= k < |views| ==> Describes(UnitTable(), rows, FirstAppearance(rows)[k], views[k])
  {
    views := AggregateInventoryMatch(UnitTable(), rows);
  }
}
