/** An update committed between the two reads of a fork: the fork copies no revision of its source. */
module RecipeTorn {
  import opened Wrappers
  import opened RecipeModel
  import opened RecipeRuns
  import opened RecipeHandlers

  const JUICE := Ingredient("fruit", "apple juice", None, None, 0, "")
  const CYSER := Meta("cyser", None, None, None, None, None, None)
  const RENAME := NO_CHANGE.(name := Some("cyser"))

  /** The row read in `first`, the ingredient rows read in `listed`, and the fork committed in `end`. */
  ghost predicate TornFork(first: State, listed: State, end: State, src: RecipeId, id: RecipeId, rev: RevisionId) {
    && Reachable(first) && Leads(first, listed) && Leads(listed, end) && src in first.db.recipes
    && (exists rows, user :: src in listed.db.ingredients && multiset(rows) == listed.db.ingredients[src]
                             && Forks(listed.db, end.db, user, src, first.db.recipes[src], None, id, rev, rows, None))
    && rev in end.db.revisions
    && forall v :: v in end.db.revisions && end.db.revisions[v].recipe == src ==>
         !CopiesRevision(end.db.revisions[v], end.db.revisions[rev], None)
  }

  // --- The update -------------------------------------------------------------------------------

  function SecondRevision(): Revision {
    Revision(0, 2, 0, None, CYSER, BuildSnapshot([JUICE]))
  }

  function Updated(): State {
    State(Db(map[0 := Recipe(0, None, None, Some(1), 2, 0, CYSER, Public)], map[0 := multiset{JUICE}],
             map[0 := FirstRevision(), 1 := SecondRevision()]),
          {0}, {0, 1}, map[])
  }

  function Updating(): Tx {
    Tx(0, Update(0, RENAME), Inserting, None, 0, Some(Recipe(0, None, None, Some(0), 1, 0, CYSER, Public)),
       Some(multiset{JUICE}), [JUICE], None)
  }

  /** The update has written the row, and is about to insert its ingredient. */
  function Renamed(): Tx {
    Updating().(ings := Some(multiset{}), rows := [])
  }

  lemma UpdateRenames(u: State)
    requires Leads(OneRecipe().(txs := map[1 := Renamed()]), u)
    ensures Leads(OneRecipe(), u)
  {
    var begun := Tx(0, Update(0, RENAME), Begun, None, 0, None, None, [], None);
    var written := begun.(stage := RowWritten, row := Updating().row);
    var s1 := OneRecipe().(txs := map[1 := begun]);
    var s2 := OneRecipe().(txs := map[1 := written]);
    StepFirst(s2, DeleteIngredients(1), OneRecipe().(txs := map[1 := Renamed()]), u, RowLock);
    StepFirst(s1, UpdateMeta(1), s2, u, RowLock);
    StepFirst(OneRecipe(), Begin(1, 0, Update(0, RENAME)), s1, u, RowLock);
  }

  lemma UpdateWrites(u: State)
    requires Leads(OneRecipe().(txs := map[1 := Updating()]), u)
    ensures Leads(OneRecipe(), u)
  {
    var s := OneRecipe().(txs := map[1 := Renamed()]);
    assert multiset{} + multiset{JUICE} == multiset{JUICE} && [] + [JUICE] == [JUICE];
    StepFirst(s, InsertIngredient(1, JUICE), OneRecipe().(txs := map[1 := Updating()]), u, RowLock);
    UpdateRenames(u);
  }

  lemma UpdateCommits()
    ensures Leads(OneRecipe().(txs := map[1 := Updating()]), Updated())
  {
    var recorded := Updating().(stage := RevisionWritten, revision := Some((1, SecondRevision())));
    var pointed := recorded.(stage := PointerSet, row := Some(Updated().db.recipes[0]));
    var s1 := OneRecipe().(txs := map[1 := Updating()]);
    var s2 := OneRecipe().(usedRevisions := {0, 1}, txs := map[1 := recorded]);
    var s3 := OneRecipe().(usedRevisions := {0, 1}, txs := map[1 := pointed]);
    assert !NumberTaken(s1, 1, 0, 2);
    assert s3.txs - {1} == map[];
    Stays(Updated(), RowLock);
    StepFirst(s3, Commit(1), Updated(), Updated(), RowLock);
    StepFirst(s2, SetPointer(1), s3, Updated(), RowLock);
    StepFirst(s1, InsertRevision(1, 1, None), s2, Updated(), RowLock);
  }

  // --- The fork ---------------------------------------------------------------------------------

  function TornRevision(): Revision {
    Revision(1, 1, 1, None, PLAIN, BuildSnapshot([JUICE]))
  }

  function Counted0(): Recipe {
    Updated().db.recipes[0].(forkCount := 1)
  }

  function TornRow(): Recipe {
    Recipe(1, Some(0), Some(0), None, 0, 0, PLAIN, Private)
  }

  function Forked(): State {
    State(Db(map[0 := Counted0(), 1 := TornRow().(current := Some(2), revisionCount := 1)],
             map[0 := multiset{JUICE}, 1 := multiset{JUICE}],
             map[0 := FirstRevision(), 1 := SecondRevision(), 2 := TornRevision()]),
          {0, 1}, {0, 1, 2}, map[])
  }

  function Forking(): Tx {
    Tx(1, Fork(0, OneRecipe().db.recipes[0], None), Inserting, Some(Counted0()), 1, Some(TornRow()),
       Some(multiset{JUICE}), [JUICE], None)
  }

  function Counted1(): Tx {
    Tx(1, Fork(0, OneRecipe().db.recipes[0], None), Counted, Some(Counted0()), 0, None, None, [], None)
  }

  lemma ForkCounts(u: State)
    requires Leads(Updated().(txs := map[2 := Counted1()]), u)
    ensures Leads(Updated(), u)
  {
    var s := Updated().(txs := map[2 := Counted1().(stage := Begun, source := None)]);
    StepFirst(s, CountFork(2), Updated().(txs := map[2 := Counted1()]), u, RowLock);
    StepFirst(Updated(), Begin(2, 1, Fork(0, OneRecipe().db.recipes[0], None)), s, u, RowLock);
  }

  lemma ForkWrites(u: State)
    requires Leads(Updated().(usedRecipes := {0, 1}, txs := map[2 := Forking()]), u)
    ensures Leads(Updated(), u)
  {
    var s1 := Updated().(txs := map[2 := Counted1()]);
    var s2 := Updated().(usedRecipes := {0, 1}, txs := map[2 := Forking().(ings := Some(multiset{}), rows := [])]);
    var s3 := Updated().(usedRecipes := {0, 1}, txs := map[2 := Forking()]);
    assert {0} + {1} == {0, 1};
    assert multiset{} + multiset{JUICE} == multiset{JUICE} && [] + [JUICE] == [JUICE];
    StepFirst(s2, InsertIngredient(2, JUICE), s3, u, RowLock);
    StepFirst(s1, InsertRecipe(2, 1), s2, u, RowLock);
    ForkCounts(u);
  }

  lemma ForkCommits()
    ensures Leads(Updated().(usedRecipes := {0, 1}, txs := map[2 := Forking()]), Forked())
  {
    var recorded := Forking().(stage := RevisionWritten, revision := Some((2, TornRevision())));
    var pointed := recorded.(stage := PointerSet, row := Some(Forked().db.recipes[1]));
    var s1 := Updated().(usedRecipes := {0, 1}, txs := map[2 := Forking()]);
    var s2 := s1.(usedRevisions := {0, 1, 2}, txs := map[2 := recorded]);
    var s3 := s2.(txs := map[2 := pointed]);
    assert !NumberTaken(s1, 2, 1, 1);
    assert s3.txs - {2} == map[];
    Stays(Forked(), RowLock);
    StepFirst(s3, Commit(2), Forked(), Forked(), RowLock);
    StepFirst(s2, SetPointer(2), s3, Forked(), RowLock);
    StepFirst(s1, InsertRevision(2, 2, None), s2, Forked(), RowLock);
  }

  lemma CopiesNeither(v: RevisionId)
    requires v in Forked().db.revisions && Forked().db.revisions[v].recipe == 0
    ensures !CopiesRevision(Forked().db.revisions[v], TornRevision(), None)
  {
    assert SnapOf(JUICE) in multiset(TornRevision().snapshot) by {
      assert TornRevision().snapshot[0] == SnapOf(JUICE);
    }
    assert multiset(FirstRevision().snapshot) == multiset{};
  }

  lemma WholeFork()
    ensures Forks(Updated().db, Forked().db, 1, 0, OneRecipe().db.recipes[0], None, 1, 2, [JUICE], None)
  {
  }

  lemma WholeRun()
    ensures Reachable(OneRecipe()) && Leads(OneRecipe(), Updated()) && Leads(Updated(), Forked())
  {
    Stays(OneRecipe(), RowLock);
    CreateOneRecipe(OneRecipe(), RowLock);
    UpdateCommits();
    UpdateWrites(Updated());
    ForkCommits();
    ForkWrites(Forked());
  }

  /** The fork has the name of the first revision and the ingredient of the second. */
  lemma ForksMayTear()
    ensures exists first, listed, end :: TornFork(first, listed, end, 0, 1, 2)
  {
    var first, listed, end := OneRecipe(), Updated(), Forked();
    WholeRun();
    WholeFork();
    assert multiset([JUICE]) == listed.db.ingredients[0];
    forall v | v in end.db.revisions && end.db.revisions[v].recipe == 0
      ensures !CopiesRevision(end.db.revisions[v], end.db.revisions[2], None)
    {
      CopiesNeither(v);
    }
    assert TornFork(first, listed, end, 0, 1, 2);
  }
}
