/**
 The create, update and fork handlers as code over the transactional database. Between two statements any
 other transaction may run (`Interfere`); the contracts say the handlers take only steps of the model.
 */
module RecipeHandlers {
  import Fresh
  import opened Collections
  import opened Wrappers
  import opened RecipeModel
  import opened RecipeSafety
  import opened RecipeRuns

  lemma {:induction false} RunsJoin(s: State, acts: seq<Action>, more: seq<Action>)
    requires ValidRun(s, acts, RowLock) && ValidRun(RunFrom(s, acts, RowLock), more, RowLock)
    ensures ValidRun(s, acts + more, RowLock)
    ensures RunFrom(s, acts + more, RowLock) == RunFrom(RunFrom(s, acts, RowLock), more, RowLock)
    decreases |acts|
  {
    if acts == [] {
      assert acts + more == more;
    } else {
      RunsJoin(Apply(s, acts[0], RowLock), acts[1..], more);
      assert (acts + more)[1..] == acts[1..] + more;
    }
  }

  /** The second state follows the first by steps of this and other transactions. */
  ghost predicate Leads(s: State, t: State) {
    Reaches(s, t, RowLock)
  }

  ghost predicate Reachable(s: State) {
    Leads(Empty(), s)
  }

  lemma ReachableInv(s: State)
    requires Reachable(s)
    ensures Inv(s)
  {
    var acts :| ValidRun(Empty(), acts, RowLock) && RunFrom(Empty(), acts, RowLock) == s;
    EmptyInv();
    RunKeepsInv(Empty(), acts);
  }

  lemma Then(s: State, t: State, u: State)
    requires Leads(s, t) && Leads(t, u)
    ensures Leads(s, u)
  {
    var acts :| ValidRun(s, acts, RowLock) && RunFrom(s, acts, RowLock) == t;
    var more :| ValidRun(t, more, RowLock) && RunFrom(t, more, RowLock) == u;
    RunsJoin(s, acts, more);
  }

  ghost predicate Steps(s: State, act: Action, t: State) {
    Enabled(s, act, RowLock) && t == Apply(s, act, RowLock)
  }

  lemma OneStep(s: State, act: Action, t: State)
    requires Steps(s, act, t)
    ensures Leads(s, t)
  {
    Stays(t, RowLock);
    StepFirst(s, act, t, t, RowLock);
  }

  /** A recipe stays, and stays its author's. */
  lemma {:induction false} AuthorInRun(s: State, acts: seq<Action>, r: RecipeId)
    requires Inv(s) && ValidRun(s, acts, RowLock) && r in s.db.recipes
    ensures r in RunFrom(s, acts, RowLock).db.recipes
    ensures RunFrom(s, acts, RowLock).db.recipes[r].author == s.db.recipes[r].author
    decreases |acts|
  {
    if acts != [] {
      StepKeepsInv(s, acts[0]);
      if acts[0].Commit? {
        ReadyAtCommit(s, acts[0].tx);
        CommittedRow(s.db, s.txs[acts[0].tx], r);
      }
      assert acts[0].Commit? || Apply(s, acts[0], RowLock).db == s.db;
      AuthorInRun(Apply(s, acts[0], RowLock), acts[1..], r);
    }
  }

  lemma AuthorIsFixed(s: State, t: State, r: RecipeId)
    requires Reachable(s) && Leads(s, t) && r in s.db.recipes
    ensures r in t.db.recipes && t.db.recipes[r].author == s.db.recipes[r].author
  {
    ReachableInv(s);
    var acts :| ValidRun(s, acts, RowLock) && RunFrom(s, acts, RowLock) == t;
    AuthorInRun(s, acts, r);
  }

  lemma NumberIsFree(s: State, t: TxId)
    requires Reachable(s) && (At(s, t, Inserting) || At(s, t, Listed)) && s.txs[t].row.Some?
    ensures !NumberTaken(s, t, s.txs[t].target, s.txs[t].row.value.revisionCount + 1)
  {
    ReachableInv(s);
    NextNumberIsFree(s, t);
  }

  class Database {
    var db: Db
    var usedRecipes: set<RecipeId>
    var usedRevisions: set<RevisionId>
    var txs: map<TxId, Tx>

    ghost function S(): State
      reads this
    {
      State(db, usedRecipes, usedRevisions, txs)
    }

    constructor ()
      ensures S() == Empty() && Reachable(S())
    {
      db, usedRecipes, usedRevisions, txs := Db(map[], map[], map[]), {}, {}, map[];
      new;
      Stays(Empty(), RowLock);
    }

    /** Any steps of other transactions. The contract is all a caller may use. */
    method Interfere(ghost t: TxId)
      modifies this
      ensures Leads(old(S()), S())
      ensures t in txs <==> t in old(txs)
      ensures t in txs ==> txs[t] == old(txs)[t]
    {
      Stays(S(), RowLock);
    }

    method BeginTx(t: TxId, user: UserId, job: Job)
      requires t !in txs && (job.Fork? ==> job.src in db.recipes && WasRow(db, job.src, job.copy))
      modifies this
      ensures Steps(old(S()), Begin(t, user, job), S())
    {
      txs := txs[t := Tx(user, job, Begun, None, if job.Update? then job.recipe else 0, None, None, [], None)];
    }

    predicate RowFree(r: RecipeId)
      reads this
    {
      forall t :: t in txs ==> r !in Locks(txs[t])
    }

    /** No row back: the recipe is not there or not the user's. The row lock must be free. */
    method UpdateRecipeMeta(t: TxId) returns (row: Option<Recipe>)
      requires At(S(), t, Begun) && txs[t].job.Update? && RowFree(txs[t].job.recipe)
      modifies this
      ensures row.Some?
              <==> var tx := old(txs)[t]; tx.job.recipe in db.recipes && db.recipes[tx.job.recipe].author == tx.user
      ensures t in txs && (row.Some? ==> Steps(old(S()), UpdateMeta(t), S()) && txs[t].row == row)
      ensures row.None? ==> S() == old(S())
      ensures row.Some? ==>
                var tx := old(txs)[t];
                PatchedTo(db.recipes[tx.job.recipe], tx.job.patch, row.value)
                && row.value.current == db.recipes[tx.job.recipe].current
                && row.value.revisionCount == db.recipes[tx.job.recipe].revisionCount
    {
      var r := txs[t].job.recipe;
      row := None;
      if r in db.recipes && db.recipes[r].author == txs[t].user {
        row := Some(PatchRecipe(db.recipes[r], txs[t].job.patch));
        txs := txs[t := txs[t].(stage := RowWritten, row := row)];
      }
    }

    method IncrementForkCount(t: TxId)
      requires At(S(), t, Begun) && txs[t].job.Fork? && txs[t].job.src in db.recipes && RowFree(txs[t].job.src)
      modifies this
      ensures Steps(old(S()), CountFork(t), S())
    {
      var src := txs[t].job.src;
      txs := txs[t := txs[t].(stage := Counted,
                              source := Some(db.recipes[src].(forkCount := db.recipes[src].forkCount + 1)))];
    }

    method InsertRecipeRow(t: TxId) returns (id: RecipeId)
      requires (At(S(), t, Begun) && txs[t].job.Create?) || (At(S(), t, Counted) && txs[t].job.Fork?)
      modifies this
      ensures Steps(old(S()), InsertRecipe(t, id), S())
    {
      id := Fresh.UnusedId(usedRecipes);
      txs := txs[t := txs[t].(stage := Inserting, target := id, row := Some(NewRecipe(txs[t])),
                              ings := Some(multiset{}))];
      usedRecipes := usedRecipes + {id};
    }

    method DeleteRecipeIngredients(t: TxId)
      requires At(S(), t, RowWritten)
      modifies this
      ensures Steps(old(S()), DeleteIngredients(t), S())
    {
      txs := txs[t := txs[t].(stage := Inserting, ings := Some(multiset{}))];
    }

    method CreateRecipeIngredient(t: TxId, ing: Ingredient)
      requires At(S(), t, Inserting)
      modifies this
      ensures Steps(old(S()), InsertIngredient(t, ing), S())
    {
      var ings := if txs[t].ings.Some? then txs[t].ings.value else multiset{};
      txs := txs[t := txs[t].(ings := Some(ings + multiset{ing}), rows := txs[t].rows + [ing])];
    }

    /** `order` is the order the database lists the live rows in. */
    method ListRecipeIngredients(t: TxId, order: seq<Ingredient>)
      requires At(S(), t, RowWritten) && txs[t].target in db.ingredients
               && multiset(order) == db.ingredients[txs[t].target]
      modifies this
      ensures Steps(old(S()), ListIngredients(t, order), S())
    {
      txs := txs[t := txs[t].(stage := Listed, rows := order)];
    }

    method CreateRecipeRevision(t: TxId, message: Option<string>) returns (id: RevisionId)
      requires Reachable(S()) && (At(S(), t, Inserting) || At(S(), t, Listed)) && txs[t].row.Some?
      modifies this
      ensures Steps(old(S()), InsertRevision(t, id, message), S())
    {
      NumberIsFree(S(), t);
      id := Fresh.UnusedId(usedRevisions);
      txs := txs[t := txs[t].(stage := RevisionWritten, revision := Some((id, NewRevision(txs[t], message))))];
      usedRevisions := usedRevisions + {id};
    }

    method SetRecipeRevision(t: TxId)
      requires At(S(), t, RevisionWritten) && txs[t].row.Some? && txs[t].revision.Some?
      modifies this
      ensures Steps(old(S()), SetPointer(t), S())
    {
      var row := txs[t].row.value;
      txs := txs[t := txs[t].(stage := PointerSet,
                              row := Some(row.(current := Some(txs[t].revision.value.0),
                                               revisionCount := row.revisionCount + 1)))];
    }

    method CommitTx(t: TxId)
      requires At(S(), t, PointerSet) && txs[t].row.Some? && txs[t].revision.Some?
      modifies this
      ensures Steps(old(S()), Commit(t), S())
    {
      db := Committed(db, txs[t]);
      txs := txs - {t};
    }

    method RollbackTx(t: TxId)
      requires t in txs
      modifies this
      ensures Steps(old(S()), Rollback(t), S())
    {
      txs := txs - {t};
    }

    /**
     Waiting for a row lock: other transactions go on until none of them holds it. Here those that do are rolled
     back; the contract covers every way in which they may end.
     */
    method AwaitRow(t: TxId, r: RecipeId)
      requires t in txs && r !in Locks(txs[t])
      modifies this
      ensures Leads(old(S()), S()) && RowFree(r)
      ensures t in txs && txs[t] == old(txs)[t]
    {
      Stays(S(), RowLock);
      var todo := txs.Keys - {t};
      while todo != {}
        invariant Leads(old(S()), S())
        invariant t in txs && txs[t] == old(txs)[t] && t !in todo
        invariant forall u :: u in txs && u !in todo ==> r !in Locks(txs[u])
        decreases |todo|
      {
        var u :| u in todo;
        ghost var s := S();
        if u in txs && r in Locks(txs[u]) {
          RollbackTx(u);
          OneStep(s, Rollback(u), S());
          Then(old(S()), s, S());
        }
        todo := todo - {u};
      }
    }
  }

  // --- The tail the handlers share --------------------------------------------------------------------

  method InsertOne(d: Database, t: TxId, ing: Ingredient)
    requires At(d.S(), t, Inserting) && d.txs[t].ings.Some?
    modifies d
    ensures Leads(old(d.S()), d.S()) && t in d.txs
    ensures var tx := old(d.txs)[t];
            d.txs[t] == tx.(rows := tx.rows + [ing], ings := Some(tx.ings.value + multiset{ing}))
  {
    ghost var s0 := d.S();
    d.Interfere(t);
    ghost var s1 := d.S();
    d.CreateRecipeIngredient(t, ing);
    OneStep(s1, InsertIngredient(t, ing), d.S());
    Then(s0, s1, d.S());
  }

  /** Insert the rows one by one; the rows collected are the request's ingredients, in order. */
  method InsertIngredients(d: Database, t: TxId, ings: seq<Ingredient>)
    requires At(d.S(), t, Inserting) && d.txs[t].rows == [] && d.txs[t].ings == Some(multiset{})
    modifies d
    ensures Leads(old(d.S()), d.S())
    ensures t in d.txs && d.txs[t] == old(d.txs)[t].(rows := ings, ings := Some(multiset(ings)))
  {
    ghost var s0 := d.S();
    Stays(s0, RowLock);
    var i := 0;
    while i < |ings|
      invariant 0 <= i <= |ings|
      invariant Leads(s0, d.S())
      invariant t in d.txs && d.txs[t] == old(d.txs)[t].(rows := ings[..i], ings := Some(multiset(ings[..i])))
    {
      ghost var s1 := d.S();
      InsertOne(d, t, ings[i]);
      Then(s0, s1, d.S());
      assert ings[..i + 1] == ings[..i] + [ings[i]];
      i := i + 1;
    }
    assert ings[..i] == ings;
  }

  /** The transaction about to commit, when it recorded revision `rev` of what it had written as `tx`. */
  function FinalTx(tx: Tx, rev: RevisionId, message: Option<string>): Tx
    requires tx.row.Some?
  {
    var row := tx.row.value;
    tx.(stage := PointerSet, revision := Some((rev, NewRevision(tx, message))),
        row := Some(row.(current := Some(rev), revisionCount := row.revisionCount + 1)))
  }

  /**
   Record the revision, point the recipe at it and commit. `late` is the state that the commit found: all the
   transaction wrote takes effect on it at once.
   */
  method RecordAndCommit(d: Database, t: TxId, message: Option<string>) returns (rev: RevisionId, ghost late: State)
    requires Reachable(d.S()) && (At(d.S(), t, Inserting) || At(d.S(), t, Listed)) && d.txs[t].row.Some?
    modifies d
    ensures Leads(old(d.S()), late) && Leads(late, d.S()) && t !in d.txs
    ensures var tx := FinalTx(old(d.txs)[t], rev, message);
            Reachable(late) && Ready(late.db, tx) && d.db == Committed(late.db, tx)
  {
    ghost var s0 := d.S();
    rev := Record(d, t, message);
    ghost var s1 := d.S();
    Point(d, t);
    ghost var s2 := d.S();
    Then(s0, s1, s2);
    Then(Empty(), s0, s2);
    late := Finish(d, t);
    Then(s0, s2, late);
  }

  method Record(d: Database, t: TxId, message: Option<string>) returns (rev: RevisionId)
    requires Reachable(d.S()) && (At(d.S(), t, Inserting) || At(d.S(), t, Listed)) && d.txs[t].row.Some?
    modifies d
    ensures Leads(old(d.S()), d.S()) && t in d.txs
    ensures var tx := old(d.txs)[t];
            d.txs[t] == tx.(stage := RevisionWritten, revision := Some((rev, NewRevision(tx, message))))
  {
    ghost var s0 := d.S();
    d.Interfere(t);
    ghost var s1 := d.S();
    Then(Empty(), s0, s1);
    rev := d.CreateRecipeRevision(t, message);
    OneStep(s1, InsertRevision(t, rev, message), d.S());
    Then(s0, s1, d.S());
  }

  method Point(d: Database, t: TxId)
    requires At(d.S(), t, RevisionWritten) && d.txs[t].row.Some? && d.txs[t].revision.Some?
    modifies d
    ensures Leads(old(d.S()), d.S()) && t in d.txs
    ensures var tx := old(d.txs)[t];
            var row := tx.row.value;
            d.txs[t] == tx.(stage := PointerSet,
                            row := Some(row.(current := Some(tx.revision.value.0),
                                             revisionCount := row.revisionCount + 1)))
  {
    ghost var s0 := d.S();
    d.Interfere(t);
    ghost var s1 := d.S();
    d.SetRecipeRevision(t);
    OneStep(s1, SetPointer(t), d.S());
    Then(s0, s1, d.S());
  }

  method Finish(d: Database, t: TxId) returns (ghost late: State)
    requires Reachable(d.S()) && At(d.S(), t, PointerSet) && d.txs[t].row.Some? && d.txs[t].revision.Some?
    modifies d
    ensures Leads(old(d.S()), late) && Leads(late, d.S()) && t !in d.txs
    ensures Reachable(late) && Ready(late.db, old(d.txs)[t]) && d.db == Committed(late.db, old(d.txs)[t])
  {
    ghost var s0 := d.S();
    d.Interfere(t);
    late := d.S();
    Then(Empty(), s0, late);
    ReachableInv(late);
    ReadyAtCommit(late, t);
    d.CommitTx(t);
    OneStep(late, Commit(t), d.S());
  }

  method Start(d: Database, t: TxId, user: UserId, job: Job)
    requires t !in d.txs && (job.Fork? ==> job.src in d.db.recipes && WasRow(d.db, job.src, job.copy))
    modifies d
    ensures Leads(old(d.S()), d.S()) && At(d.S(), t, Begun)
    ensures d.db == old(d.db)
    ensures d.txs[t] == Tx(user, job, Begun, None, if job.Update? then job.recipe else 0, None, None, [], None)
  {
    ghost var s0 := d.S();
    d.BeginTx(t, user, job);
    OneStep(s0, Begin(t, user, job), d.S());
  }

  // --- PATCH ------------------------------------------------------------------------------------------

  /** Wait for the row lock; the row written is the latest committed one, patched. */
  method WriteRecipe(d: Database, t: TxId)
    requires Reachable(d.S()) && At(d.S(), t, Begun) && d.txs[t].job.Update? && d.txs[t].row.None?
    requires d.txs[t].job.recipe in d.db.recipes && d.db.recipes[d.txs[t].job.recipe].author == d.txs[t].user
    modifies d
    ensures Leads(old(d.S()), d.S()) && At(d.S(), t, RowWritten)
    ensures d.txs[t] == old(d.txs)[t].(stage := RowWritten, row := d.txs[t].row)
    ensures var job := d.txs[t].job;
            && job.recipe in d.db.recipes && d.txs[t].row == Some(PatchRecipe(d.db.recipes[job.recipe], job.patch))
            && PatchedTo(d.db.recipes[job.recipe], job.patch, d.txs[t].row.value)
  {
    ghost var s0 := d.S();
    d.AwaitRow(t, d.txs[t].job.recipe);
    ghost var s1 := d.S();
    AuthorIsFixed(s0, s1, d.txs[t].job.recipe);
    var row := d.UpdateRecipeMeta(t);
    OneStep(s1, UpdateMeta(t), d.S());
    Then(s0, s1, d.S());
  }

  /** The ingredients of the new revision: those given, or else the live rows. */
  method ReadOrReplaceIngredients(d: Database, t: TxId, ings: Option<seq<Ingredient>>)
    requires Reachable(d.S()) && At(d.S(), t, RowWritten) && d.txs[t].rows == [] && d.txs[t].ings.None?
    modifies d
    ensures Leads(old(d.S()), d.S()) && (At(d.S(), t, Inserting) || At(d.S(), t, Listed))
    ensures ings.Some?
            ==> d.txs[t] == old(d.txs)[t].(stage := Inserting, rows := ings.value, ings := Some(multiset(ings.value)))
    ensures ings.None? ==> d.txs[t] == old(d.txs)[t].(stage := Listed, rows := d.txs[t].rows)
                           && d.txs[t].target in d.db.ingredients
                           && multiset(d.txs[t].rows) == d.db.ingredients[d.txs[t].target]
  {
    ghost var s0 := d.S();
    if ings.Some? {
      ClearIngredients(d, t);
      ghost var s1 := d.S();
      InsertIngredients(d, t, ings.value);
      Then(s0, s1, d.S());
    } else {
      ListIngredients(d, t);
    }
  }

  method ClearIngredients(d: Database, t: TxId)
    requires At(d.S(), t, RowWritten)
    modifies d
    ensures Leads(old(d.S()), d.S()) && At(d.S(), t, Inserting)
    ensures d.txs[t] == old(d.txs)[t].(stage := Inserting, ings := Some(multiset{}))
  {
    ghost var s0 := d.S();
    d.Interfere(t);
    ghost var s1 := d.S();
    d.DeleteRecipeIngredients(t);
    OneStep(s1, DeleteIngredients(t), d.S());
    Then(s0, s1, d.S());
  }

  ghost predicate Lists(order: seq<Ingredient>, ings: multiset<Ingredient>) {
    multiset(order) == ings
  }

  /** A committed recipe has ingredient rows, and they can be listed. */
  lemma CommittedRowsList(s: State, r: RecipeId) returns (order: seq<Ingredient>)
    requires Reachable(s) && r in s.db.recipes
    ensures r in s.db.ingredients && Lists(order, s.db.ingredients[r])
  {
    ReachableInv(s);
    assert RecipeOk(s.db, r);
    var c := s.db.recipes[r].current.value;
    order :| multiset(order) == s.db.ingredients[r] && BuildSnapshot(order) == s.db.revisions[c].snapshot;
  }

  lemma LockedRowIsCommitted(s: State, t: TxId)
    requires Reachable(s) && At(s, t, RowWritten)
    ensures s.txs[t].target in s.db.recipes
  {
    ReachableInv(s);
    assert TxOk(s.db, IdsOf(s), s.txs[t]);
  }

  method ListIngredients(d: Database, t: TxId)
    requires Reachable(d.S()) && At(d.S(), t, RowWritten)
    modifies d
    ensures Leads(old(d.S()), d.S()) && At(d.S(), t, Listed)
    ensures d.txs[t] == old(d.txs)[t].(stage := Listed, rows := d.txs[t].rows)
    ensures d.txs[t].target in d.db.ingredients && multiset(d.txs[t].rows) == d.db.ingredients[d.txs[t].target]
  {
    ghost var s0 := d.S();
    d.Interfere(t);
    ghost var s1 := d.S();
    Then(Empty(), s0, s1);
    LockedRowIsCommitted(s1, t);
    ghost var listed := CommittedRowsList(s1, d.txs[t].target);
    var order: seq<Ingredient> :| multiset(order) == d.db.ingredients[d.txs[t].target];
    d.ListRecipeIngredients(t, order);
    OneStep(s1, RecipeModel.ListIngredients(t, order), d.S());
    Then(s0, s1, d.S());
  }

  /**
   The whole PATCH as one step from `m` to `d`: the row is patched, one revision is added that says what the row
   and its ingredients now say, and every other recipe, ingredient and revision is as it was.
   */
  ghost predicate Patches(m: Db, d: Db, id: RecipeId, user: UserId, patch: Patch, ings: Option<seq<Ingredient>>,
                          message: Option<string>, rev: RevisionId)
  {
    && PatchesTables(m, d, id, user, patch, ings, message, rev)
    && id in d.ingredients && SnapshotOf(d.revisions[rev].snapshot, d.ingredients[id])
    && (ings.Some? ==> d.revisions[rev].snapshot == BuildSnapshot(ings.value))
  }

  predicate PatchesTables(m: Db, d: Db, id: RecipeId, user: UserId, patch: Patch, ings: Option<seq<Ingredient>>,
                          message: Option<string>, rev: RevisionId)
  {
    && id in m.recipes && rev !in m.revisions && rev in d.revisions
    && var row := PatchRecipe(m.recipes[id], patch);
       var snapshot := d.revisions[rev].snapshot;
       && d.recipes == m.recipes[id := row.(current := Some(rev), revisionCount := row.revisionCount + 1)]
       && d.ingredients == (if ings.Some? then m.ingredients[id := multiset(ings.value)] else m.ingredients)
       && d.revisions == m.revisions[rev := Revision(id, row.revisionCount + 1, user, message, row.meta, snapshot)]
  }

  lemma CommitPatchesTables(m: Db, tx: Tx, rev: RevisionId, message: Option<string>, ings: Option<seq<Ingredient>>)
    requires tx.job.Update? && tx.row.Some? && Ready(m, FinalTx(tx, rev, message))
    requires tx.ings == if ings.Some? then Some(multiset(ings.value)) else None
    ensures PatchesTables(m, Committed(m, FinalTx(tx, rev, message)), tx.target, tx.user, tx.job.patch, ings, message,
                          rev)
  {
    var last, row := FinalTx(tx, rev, message), PatchRecipe(m.recipes[tx.target], tx.job.patch);
    var d := Committed(m, last);
    assert last.row.value == row.(current := Some(rev), revisionCount := row.revisionCount + 1);
    assert last.revision.value.1 == d.revisions[rev];
  }

  lemma CommitPatchesSnapshot(m: Db, tx: Tx, rev: RevisionId, message: Option<string>)
    requires tx.job.Update? && tx.row.Some? && Ready(m, FinalTx(tx, rev, message))
    requires tx.ings.Some? || tx.target in m.ingredients
    ensures var d := Committed(m, FinalTx(tx, rev, message));
            && rev in d.revisions && d.revisions[rev].snapshot == BuildSnapshot(tx.rows)
            && tx.target in d.ingredients && SnapshotOf(d.revisions[rev].snapshot, d.ingredients[tx.target])
  {
    var last := FinalTx(tx, rev, message);
    assert Committed(m, last).ingredients[tx.target] == VisibleIngredients(m, last);
  }

  lemma CommitPatches(m: Db, tx: Tx, rev: RevisionId, message: Option<string>, ings: Option<seq<Ingredient>>)
    requires HistoriesOk(m) && tx.job.Update? && tx.row.Some? && Ready(m, FinalTx(tx, rev, message))
    requires if ings.Some? then tx.rows == ings.value && tx.ings == Some(multiset(ings.value)) else tx.ings.None?
    ensures Patches(m, Committed(m, FinalTx(tx, rev, message)), tx.target, tx.user, tx.job.patch, ings, message, rev)
  {
    CommitPatchesTables(m, tx, rev, message, ings);
    assert tx.target in m.ingredients by {
      assert RecipeOk(m, tx.target);
    }
    CommitPatchesSnapshot(m, tx, rev, message);
  }

  /**
   PATCH. Exactly the author's own recipe is updated. Whatever else runs, the request takes effect at one moment,
   on the database `late`, as if it ran alone.
   */
  method HandleUpdateRecipe(d: Database, t: TxId, user: UserId, id: RecipeId, patch: Patch,
                            ings: Option<seq<Ingredient>>, message: Option<string>)
    returns (rev: Option<RevisionId>, ghost late: State)
    requires Reachable(d.S()) && t !in d.txs
    modifies d
    ensures Leads(old(d.S()), late) && Leads(late, d.S()) && t !in d.txs
    ensures rev.Some? <==> id in old(d.db).recipes && old(d.db).recipes[id].author == user
    ensures rev.None? ==> d.S() == late == old(d.S())
    ensures rev.Some? ==> Patches(late.db, d.db, id, user, patch, ings, message, rev.value)
    ensures rev.Some? ==>
              && PatchedTo(late.db.recipes[id], patch, d.db.recipes[id])
              && d.db.recipes[id].current == rev
              && d.db.recipes[id].revisionCount == late.db.recipes[id].revisionCount + 1
              && var v := d.db.revisions[rev.value];
                 && v.recipe == id && v.number == d.db.recipes[id].revisionCount && v.author == user
                 && v.message == message && v.meta == d.db.recipes[id].meta
                 && d.db.ingredients[id] == (if ings.Some? then multiset(ings.value) else late.db.ingredients[id])
                 && (if ings.Some? then Describes(v.snapshot, ings.value)
                     else DescribesSome(v.snapshot, d.db.ingredients[id]))
  {
    ghost var s0 := d.S();
    late := s0;
    Stays(s0, RowLock);
    if id !in d.db.recipes || d.db.recipes[id].author != user {
      rev := None;
      return;
    }
    d.Interfere(t);
    ghost var s1 := d.S();
    AuthorIsFixed(s0, s1, id);
    Start(d, t, user, Update(id, patch));
    ghost var s2 := d.S();
    Then(s0, s1, s2);
    Then(Empty(), s0, s2);
    var v;
    v, late := UpdateRecipe(d, t, ings, message);
    Then(s0, s2, late);
    rev := Some(v);
    if ings.None? {
      SnapshotDescribes(d.db.revisions[v].snapshot, d.db.ingredients[id]);
    }
  }

  lemma SnapshotDescribes(snaps: seq<Snap>, ings: multiset<Ingredient>)
    requires SnapshotOf(snaps, ings)
    ensures DescribesSome(snaps, ings)
  {
    var rows: seq<Ingredient> :| multiset(rows) == ings && BuildSnapshot(rows) == snaps;
    assert Describes(snaps, rows);
  }

  method UpdateRecipe(d: Database, t: TxId, ings: Option<seq<Ingredient>>, message: Option<string>)
    returns (rev: RevisionId, ghost late: State)
    requires Reachable(d.S()) && At(d.S(), t, Begun) && d.txs[t].job.Update?
    requires d.txs[t].row.None? && d.txs[t].rows == [] && d.txs[t].ings.None? && d.txs[t].target == d.txs[t].job.recipe
    requires d.txs[t].job.recipe in d.db.recipes && d.db.recipes[d.txs[t].job.recipe].author == d.txs[t].user
    modifies d
    ensures Leads(old(d.S()), late) && Leads(late, d.S()) && t !in d.txs
    ensures var tx := old(d.txs)[t];
            Patches(late.db, d.db, tx.job.recipe, tx.user, tx.job.patch, ings, message, rev)
  {
    ghost var s0 := d.S();
    WriteRecipe(d, t);
    ghost var s1 := d.S();
    Then(Empty(), s0, s1);
    ReadOrReplaceIngredients(d, t, ings);
    ghost var s2 := d.S();
    Then(s0, s1, s2);
    Then(Empty(), s0, s2);
    ghost var tx := d.txs[t];
    rev, late := RecordAndCommit(d, t, message);
    Then(s0, s2, late);
    ReachableInv(late);
    CommitPatches(late.db, tx, rev, message, ings);
  }

  // --- POST and fork ------------------------------------------------------------------------------------

  /** A new recipe with revision 1, as one step; a fork counts on its source at the same time. */
  function Created(db: Db, tx: Tx, id: RecipeId, rev: RevisionId, ings: seq<Ingredient>, message: Option<string>): Db
    requires tx.job.Create? || (tx.job.Fork? && tx.job.src in db.recipes)
  {
    var row := NewRecipe(tx);
    var recipes := if tx.job.Fork?
                   then var source := db.recipes[tx.job.src];
                        db.recipes[tx.job.src := source.(forkCount := source.forkCount + 1)]
                   else db.recipes;
    Db(recipes[id := row.(current := Some(rev), revisionCount := 1)],
       db.ingredients[id := multiset(ings)],
       db.revisions[rev := Revision(id, 1, tx.user, message, row.meta, BuildSnapshot(ings))])
  }

  lemma CommitCreates(m: Db, tx: Tx, id: RecipeId, rev: RevisionId, message: Option<string>, ings: seq<Ingredient>)
    requires !tx.job.Update?
    requires Ready(m, FinalTx(WithNewRow(tx, id, ings), rev, message))
    ensures id !in m.recipes && rev !in m.revisions && (tx.job.Fork? ==> tx.job.src in m.recipes)
    ensures Committed(m, FinalTx(WithNewRow(tx, id, ings), rev, message)) == Created(m, tx, id, rev, ings, message)
  {
  }

  /** The transaction once it has its row and ingredients. */
  function WithNewRow(tx: Tx, id: RecipeId, ings: seq<Ingredient>): Tx
    requires !tx.job.Update?
  {
    tx.(stage := Inserting, target := id, row := Some(NewRecipe(tx)), ings := Some(multiset(ings)), rows := ings)
  }

  /** The new row of the creating or forking transaction. */
  method WriteNewRow(d: Database, t: TxId) returns (id: RecipeId)
    requires (At(d.S(), t, Begun) && d.txs[t].job.Create?) || (At(d.S(), t, Counted) && d.txs[t].job.Fork?)
    modifies d
    ensures Leads(old(d.S()), d.S()) && t in d.txs
    ensures var tx := old(d.txs)[t];
            d.txs[t] == tx.(stage := Inserting, target := id, row := Some(NewRecipe(tx)), ings := Some(multiset{}))
  {
    ghost var s0 := d.S();
    d.Interfere(t);
    ghost var s1 := d.S();
    id := d.InsertRecipeRow(t);
    OneStep(s1, InsertRecipe(t, id), d.S());
    Then(s0, s1, d.S());
  }

  /** The new row with its ingredients, its first revision and the commit. */
  method WriteNewRecipe(d: Database, t: TxId, ings: seq<Ingredient>, message: Option<string>)
    returns (id: RecipeId, rev: RevisionId, ghost late: State)
    requires Reachable(d.S()) && t in d.txs && d.txs[t].rows == []
    requires (At(d.S(), t, Begun) && d.txs[t].job.Create?) || (At(d.S(), t, Counted) && d.txs[t].job.Fork?)
    modifies d
    ensures Leads(old(d.S()), late) && Leads(late, d.S()) && t !in d.txs
    ensures id !in late.db.recipes && rev !in late.db.revisions
    ensures var tx := old(d.txs)[t];
            (tx.job.Fork? ==> tx.job.src in late.db.recipes) && d.db == Created(late.db, tx, id, rev, ings, message)
  {
    ghost var s0 := d.S();
    id := WriteNewRow(d, t);
    ghost var s1 := d.S();
    InsertIngredients(d, t, ings);
    ghost var s2 := d.S();
    Then(s0, s1, s2);
    Then(Empty(), s0, s2);
    ghost var tx := old(d.txs)[t];
    assert d.txs[t] == WithNewRow(tx, id, ings);
    rev, late := RecordAndCommit(d, t, message);
    Then(s0, s2, late);
    CommitCreates(late.db, tx, id, rev, message, ings);
  }

  /** POST. A recipe of the user's with revision 1, which takes effect at one moment. */
  method HandleCreateRecipe(d: Database, t: TxId, user: UserId, meta: Meta, visibility: Visibility,
                            ings: seq<Ingredient>, message: Option<string>)
    returns (id: RecipeId, rev: RevisionId, ghost late: State)
    requires Reachable(d.S()) && t !in d.txs
    modifies d
    ensures Leads(old(d.S()), late) && Leads(late, d.S()) && t !in d.txs
    ensures id !in late.db.recipes && rev !in late.db.revisions
    ensures d.db == Db(late.db.recipes[id := Recipe(user, None, None, Some(rev), 1, 0, meta, visibility)],
                       late.db.ingredients[id := multiset(ings)],
                       late.db.revisions[rev := Revision(id, 1, user, message, meta, BuildSnapshot(ings))])
    ensures Describes(d.db.revisions[rev].snapshot, ings)
  {
    ghost var s0 := d.S();
    Start(d, t, user, Create(meta, visibility));
    ghost var s1 := d.S();
    Then(Empty(), s0, s1);
    id, rev, late := WriteNewRecipe(d, t, ings, message);
    Then(s0, s1, late);
  }

  predicate VisibleTo(r: Recipe, user: UserId) {
    r.visibility != Private || r.author == user
  }

  /** An empty name does not rename. */
  function NewName(name: Option<string>): Option<string> {
    if name == Some("") then None else name
  }

  /** The rows on their way through the request type: an empty unit is no unit. */
  function Copies(rows: seq<Ingredient>): (copies: seq<Ingredient>)
    ensures |copies| == |rows|
  {
    seq(|rows|, i requires 0 <= i < |rows| => if rows[i].unit == Some("") then rows[i].(unit := None) else rows[i])
  }

  /** A copy differs from its row only in that an empty unit is none. */
  lemma CopyAt(rows: seq<Ingredient>, i: nat)
    requires i < |rows|
    ensures var (row, copy) := (rows[i], Copies(rows)[i]);
            && copy.kind == row.kind && copy.name == row.name && copy.amount == row.amount
            && copy.sortOrder == row.sortOrder && copy.details == row.details
            && (copy.unit == if row.unit.Some? && row.unit.value != "" then row.unit else None)
  {
  }

  lemma CopiesLookAlike(rows: seq<Ingredient>)
    ensures BuildSnapshot(Copies(rows)) == BuildSnapshot(rows)
  {
  }

  /** The second unlocked read of a fork, some time after the first: the source's ingredient rows. */
  method ReadIngredients(d: Database, t: TxId, src: RecipeId) returns (rows: seq<Ingredient>, ghost listed: State)
    requires Reachable(d.S()) && t !in d.txs && src in d.db.recipes
    modifies d
    ensures Leads(old(d.S()), d.S()) && d.S() == listed && t !in d.txs
    ensures src in d.db.recipes && src in d.db.ingredients && multiset(rows) == d.db.ingredients[src]
  {
    ghost var s0 := d.S();
    d.Interfere(t);
    listed := d.S();
    Then(Empty(), s0, listed);
    AuthorIsFixed(s0, listed, src);
    ghost var order := CommittedRowsList(listed, src);
    rows :| multiset(rows) == d.db.ingredients[src];
  }

  lemma RevisionStays(s: State, t: State, v: RevisionId)
    requires Reachable(s) && Leads(s, t) && v in s.db.revisions
    ensures v in t.db.revisions && t.db.revisions[v] == s.db.revisions[v]
  {
    ReachableInv(s);
    var acts :| ValidRun(s, acts, RowLock) && RunFrom(s, acts, RowLock) == t;
    RevisionsAreImmutable(s, acts, v);
  }

  lemma ReadRowWasRow(s: State, t: State, src: RecipeId)
    requires Reachable(s) && Leads(s, t) && src in s.db.recipes
    ensures src in t.db.recipes && WasRow(t.db, src, s.db.recipes[src])
  {
    ReachableInv(s);
    assert RecipeOk(s.db, src);
    AuthorIsFixed(s, t, src);
    RevisionStays(s, t, s.db.recipes[src].current.value);
  }

  lemma SameRowsSameEntries(a: seq<Snap>, b: seq<Snap>, ings: multiset<Ingredient>)
    requires SnapshotOf(a, ings) && SnapshotOf(b, ings)
    ensures multiset(a) == multiset(b)
  {
    var p: seq<Ingredient> :| multiset(p) == ings && BuildSnapshot(p) == a;
    var q: seq<Ingredient> :| multiset(q) == ings && BuildSnapshot(q) == b;
    EntriesPermute(p, q);
  }

  lemma {:induction false} EntriesPermute(p: seq<Ingredient>, q: seq<Ingredient>)
    requires multiset(p) == multiset(q)
    ensures multiset(BuildSnapshot(p)) == multiset(BuildSnapshot(q))
    decreases |p|
  {
    if p == [] {
      assert |multiset(q)| == 0;
    } else {
      var n := |p| - 1;
      assert p[n] in multiset(q);
      var j :| 0 <= j < |q| && q[j] == p[n];
      WithoutOne(p, q, j);
      EntriesPermute(p[..n], q[..j] + q[j + 1..]);
      EntriesAround(q, j);
      EntriesAround(p, n);
      assert p[..n] + p[n + 1..] == p[..n];
    }
  }

  lemma EntriesAround(q: seq<Ingredient>, j: nat)
    requires j < |q|
    ensures multiset(BuildSnapshot(q)) == multiset(BuildSnapshot(q[..j] + q[j + 1..])) + multiset{SnapOf(q[j])}
  {
    assert BuildSnapshot(q) == BuildSnapshot(q[..j]) + [SnapOf(q[j])] + BuildSnapshot(q[j + 1..]);
    assert BuildSnapshot(q[..j] + q[j + 1..]) == BuildSnapshot(q[..j]) + BuildSnapshot(q[j + 1..]);
  }

  /** The fork's first revision says what the source's revision `v` says, but for the name. */
  predicate CopiesRevision(v: Revision, fork: Revision, name: Option<string>) {
    && fork.meta == (if NewName(name).Some? then v.meta.(name := name.value) else v.meta)
    && multiset(fork.snapshot) == multiset(v.snapshot)
  }

  /** Recipe `src` in this state: its current revision. */
  function CurrentRevision(db: Db, src: RecipeId): Option<Revision> {
    if src in db.recipes && db.recipes[src].current.Some? && db.recipes[src].current.value in db.revisions
    then Some(db.revisions[db.recipes[src].current.value])
    else None
  }

  lemma CurrentDescribes(s: State, src: RecipeId)
    requires Reachable(s) && src in s.db.recipes
    ensures src in s.db.ingredients && CurrentRevision(s.db, src).Some?
    ensures CurrentRevision(s.db, src).value.meta == s.db.recipes[src].meta
    ensures SnapshotOf(CurrentRevision(s.db, src).value.snapshot, s.db.ingredients[src])
  {
    ReachableInv(s);
    assert RecipeOk(s.db, src);
  }

  /**
   A fork names the revision it read first as its origin. It copies that revision exactly when the one that was
   current at its second read has the same ingredients.
   */
  lemma CopiesOriginIff(first: State, listed: State, src: RecipeId, rows: seq<Ingredient>, fork: Revision,
                        name: Option<string>)
    requires Reachable(first) && Reachable(listed) && src in first.db.recipes && src in listed.db.recipes
    requires src in listed.db.ingredients && multiset(rows) == listed.db.ingredients[src]
    requires fork.snapshot == BuildSnapshot(Copies(rows))
    requires var m := first.db.recipes[src].meta;
             fork.meta == if NewName(name).Some? then m.(name := name.value) else m
    ensures CurrentRevision(first.db, src).Some? && CurrentRevision(listed.db, src).Some?
    ensures var v, w := CurrentRevision(first.db, src).value, CurrentRevision(listed.db, src).value;
            CopiesRevision(v, fork, name) <==> multiset(v.snapshot) == multiset(w.snapshot)
  {
    CurrentDescribes(first, src);
    CurrentDescribes(listed, src);
    CopiesLookAlike(rows);
    var w := CurrentRevision(listed.db, src).value;
    assert SnapshotOf(fork.snapshot, listed.db.ingredients[src]);
    SameRowsSameEntries(fork.snapshot, w.snapshot, listed.db.ingredients[src]);
  }

  /** So it does if the source was not updated between the two reads. */
  lemma UnchangedSourceIsCopied(first: State, listed: State, src: RecipeId, rows: seq<Ingredient>, fork: Revision,
                                name: Option<string>)
    requires Reachable(first) && Reachable(listed) && Leads(first, listed) && src in first.db.recipes
    requires src in listed.db.recipes && listed.db.recipes[src].current == first.db.recipes[src].current
    requires src in listed.db.ingredients && multiset(rows) == listed.db.ingredients[src]
    requires fork.snapshot == BuildSnapshot(Copies(rows))
    requires var m := first.db.recipes[src].meta;
             fork.meta == if NewName(name).Some? then m.(name := name.value) else m
    ensures CurrentRevision(first.db, src).Some?
    ensures CopiesRevision(CurrentRevision(first.db, src).value, fork, name)
  {
    CopiesOriginIff(first, listed, src, rows, fork, name);
    RevisionStays(first, listed, first.db.recipes[src].current.value);
  }

  /**
   POST .../fork. Exactly a recipe visible to the user is forked. The row is read at once and the ingredient rows
   in the state `listed`, both without a lock; the fork takes effect at one moment on `late`. It copies the revision
   that it records as its origin exactly when the revision current at `listed` has the same ingredients.
   */
  method HandleForkRecipe(d: Database, t: TxId, user: UserId, src: RecipeId, name: Option<string>,
                          message: Option<string>)
    returns (rev: Option<RevisionId>, ghost id: RecipeId, ghost rows: seq<Ingredient>, ghost listed: State,
             ghost late: State)
    requires Reachable(d.S()) && t !in d.txs
    modifies d
    ensures Leads(old(d.S()), listed) && Leads(listed, late) && Leads(late, d.S()) && t !in d.txs
    ensures rev.Some? <==>
              && src in old(d.db).recipes
              && (old(d.db).recipes[src].visibility != Private || old(d.db).recipes[src].author == user)
    ensures rev.None? ==> d.S() == old(d.S())
    ensures rev.Some? ==>
              && src in listed.db.ingredients && multiset(rows) == listed.db.ingredients[src]
              && Forks(late.db, d.db, user, src, old(d.db).recipes[src], NewName(name), id, rev.value, Copies(rows),
                       message)
    ensures rev.Some? ==>
              && Describes(d.db.revisions[rev.value].snapshot, rows)
              && d.db.recipes[id].visibility == Private && d.db.recipes[id].parent == Some(src)
              && d.db.recipes[id].author == user && d.db.recipes[id].meta == d.db.revisions[rev.value].meta
              && d.db.recipes[id].meta.(name := old(d.db).recipes[src].meta.name) == old(d.db).recipes[src].meta
              && d.db.recipes[id].meta.name ==
                 (if name.Some? && name.value != "" then name.value else old(d.db).recipes[src].meta.name)
              && d.db.recipes[src].forkCount == late.db.recipes[src].forkCount + 1
    ensures rev.Some? ==>
              && d.db.recipes[id].parentRevision == old(d.db).recipes[src].current
              && CurrentRevision(old(d.db), src).Some? && CurrentRevision(listed.db, src).Some?
              && var v, w := CurrentRevision(old(d.db), src).value, CurrentRevision(listed.db, src).value;
                 CopiesRevision(v, d.db.revisions[rev.value], name) <==> multiset(v.snapshot) == multiset(w.snapshot)
  {
    ghost var s0 := d.S();
    rev, id, rows, listed, late := None, 0, [], s0, s0;
    Stays(s0, RowLock);
    if src !in d.db.recipes || !VisibleTo(d.db.recipes[src], user) {
      return;
    }
    var copy := d.db.recipes[src];
    var copied;
    copied, listed := ReadIngredients(d, t, src);
    rows := copied;
    Then(Empty(), s0, listed);
    var n, v;
    n, v, late := ForkRecipe(d, t, user, src, copy, name, Copies(copied), message, s0);
    id, rev := n, Some(v);
    CopiesOriginIff(s0, listed, src, copied, d.db.revisions[v], name);
  }

  /** The whole fork as one step from `m` to `d`. */
  ghost predicate Forks(m: Db, d: Db, user: UserId, src: RecipeId, copy: Recipe, name: Option<string>, id: RecipeId,
                        rev: RevisionId, ings: seq<Ingredient>, message: Option<string>)
  {
    var meta := if name.Some? then copy.meta.(name := name.value) else copy.meta;
    && src in m.recipes && id !in m.recipes && rev !in m.revisions
    && d.recipes == m.recipes[src := m.recipes[src].(forkCount := m.recipes[src].forkCount + 1)]
                             [id := Recipe(user, Some(src), copy.current, Some(rev), 1, 0, meta, Private)]
    && d.ingredients == m.ingredients[id := multiset(ings)]
    && d.revisions == m.revisions[rev := Revision(id, 1, user, message, meta, BuildSnapshot(ings))]
  }

  /** The transaction of a fork, given what was read: `copy` in the state `first`, and `ings`. */
  method ForkRecipe(d: Database, t: TxId, user: UserId, src: RecipeId, copy: Recipe, name: Option<string>,
                    ings: seq<Ingredient>, message: Option<string>, ghost first: State)
    returns (id: RecipeId, rev: RevisionId, ghost late: State)
    requires Reachable(d.S()) && t !in d.txs
    requires Reachable(first) && Leads(first, d.S()) && src in first.db.recipes && first.db.recipes[src] == copy
    modifies d
    ensures Leads(old(d.S()), late) && Leads(late, d.S()) && t !in d.txs
    ensures Forks(late.db, d.db, user, src, copy, NewName(name), id, rev, ings, message)
  {
    ghost var s0 := d.S();
    StartFork(d, t, user, src, copy, name, first);
    ghost var s1 := d.S();
    Then(Empty(), s0, s1);
    id, rev, late := WriteNewRecipe(d, t, ings, message);
    Then(s0, s1, late);
  }

  /** Begins the transaction and counts the fork. */
  method StartFork(d: Database, t: TxId, user: UserId, src: RecipeId, copy: Recipe, name: Option<string>,
                   ghost first: State)
    requires Reachable(d.S()) && t !in d.txs
    requires Reachable(first) && Leads(first, d.S()) && src in first.db.recipes && first.db.recipes[src] == copy
    modifies d
    ensures Leads(old(d.S()), d.S()) && At(d.S(), t, Counted)
    ensures d.txs[t] == Tx(user, Fork(src, copy, NewName(name)), Counted, d.txs[t].source, 0, None, None, [], None)
  {
    ghost var s0 := d.S();
    BeginFork(d, t, user, src, copy, name, first);
    ghost var s1 := d.S();
    Then(Empty(), s0, s1);
    CountTheFork(d, t);
    Then(s0, s1, d.S());
  }

  method BeginFork(d: Database, t: TxId, user: UserId, src: RecipeId, copy: Recipe, name: Option<string>,
                   ghost first: State)
    requires t !in d.txs
    requires Reachable(first) && Leads(first, d.S()) && src in first.db.recipes && first.db.recipes[src] == copy
    modifies d
    ensures Leads(old(d.S()), d.S()) && At(d.S(), t, Begun) && src in d.db.recipes
    ensures d.txs[t] == Tx(user, Fork(src, copy, NewName(name)), Begun, None, 0, None, None, [], None)
  {
    ghost var s0 := d.S();
    d.Interfere(t);
    ghost var s1 := d.S();
    Then(first, s0, s1);
    ReadRowWasRow(first, s1, src);
    Start(d, t, user, Fork(src, copy, NewName(name)));
    Then(s0, s1, d.S());
  }

  method CountTheFork(d: Database, t: TxId)
    requires Reachable(d.S()) && At(d.S(), t, Begun) && d.txs[t].job.Fork? && d.txs[t].source.None?
    requires d.txs[t].job.src in d.db.recipes
    modifies d
    ensures Leads(old(d.S()), d.S()) && t in d.txs
    ensures d.txs[t] == old(d.txs)[t].(stage := Counted, source := d.txs[t].source)
  {
    ghost var s0 := d.S();
    d.AwaitRow(t, d.txs[t].job.src);
    ghost var s1 := d.S();
    AuthorIsFixed(s0, s1, d.txs[t].job.src);
    d.IncrementForkCount(t);
    OneStep(s1, CountFork(t), d.S());
    Then(s0, s1, d.S());
  }
}
