/** Every committed state has a sound revision history, and no update and no fork is lost. */
module RecipeSafety {
  import opened Wrappers
  import opened RecipeModel

  // --- The history of one recipe ---------------------------------------------------------------

  /** The snapshot lists exactly the rows `ings`, in some order. */
  ghost predicate SnapshotOf(snapshot: seq<Snap>, ings: multiset<Ingredient>) {
    exists rows: seq<Ingredient> :: multiset(rows) == ings && BuildSnapshot(rows) == snapshot
  }

  ghost predicate Numbered(db: Db, v: RevisionId, r: RecipeId, number: nat) {
    v in db.revisions && db.revisions[v].recipe == r && db.revisions[v].number == number
  }

  ghost predicate HasNumber(db: Db, r: RecipeId, k: nat) {
    exists v :: Numbered(db, v, r, k)
  }

  /** The recipe's revision numbers are exactly 1..n, each used once. */
  ghost predicate NumbersAre(db: Db, r: RecipeId, n: nat) {
    && (forall v :: v in db.revisions && db.revisions[v].recipe == r ==> 1 <= db.revisions[v].number <= n)
    && (forall v, w :: v in db.revisions && w in db.revisions && v != w
                       && db.revisions[v].recipe == r && db.revisions[w].recipe == r
                       ==> db.revisions[v].number != db.revisions[w].number)
    && (forall k :: 1 <= k <= n ==> HasNumber(db, r, k))
  }

  /** The current revision is the last one, and is what the live recipe and its ingredient rows say. */
  ghost predicate CurrentIsLive(db: Db, r: RecipeId)
    requires r in db.recipes
  {
    var recipe := db.recipes[r];
    && r in db.ingredients
    && recipe.current.Some? && Numbered(db, recipe.current.value, r, recipe.revisionCount)
    && db.revisions[recipe.current.value].meta == recipe.meta
    && SnapshotOf(db.revisions[recipe.current.value].snapshot, db.ingredients[r])
  }

  ghost predicate LineageOk(db: Db, r: RecipeId)
    requires r in db.recipes
  {
    var recipe := db.recipes[r];
    && (recipe.parent.Some? ==> recipe.parent.value in db.recipes)
    && (recipe.parentRevision.Some? ==>
          && recipe.parent.Some? && recipe.parentRevision.value in db.revisions
          && db.revisions[recipe.parentRevision.value].recipe == recipe.parent.value)
  }

  function Forks(db: Db, r: RecipeId): set<RecipeId> {
    set f | f in db.recipes && db.recipes[f].parent == Some(r)
  }

  ghost predicate RecipeOk(db: Db, r: RecipeId)
    requires r in db.recipes
  {
    && NumbersAre(db, r, db.recipes[r].revisionCount)
    && CurrentIsLive(db, r)
    && LineageOk(db, r)
    && db.recipes[r].forkCount == |Forks(db, r)|
  }

  ghost predicate HistoriesOk(db: Db) {
    && (forall r :: r in db.recipes ==> RecipeOk(db, r))
    && (forall v :: v in db.revisions ==> db.revisions[v].recipe in db.recipes)
  }

  // --- Transactions in flight --------------------------------------------------------------------

  /** The ids handed out so far; both kinds are random UUIDs and never repeat. */
  datatype Ids = Ids(recipes: set<RecipeId>, revisions: set<RevisionId>)

  function IdsOf(s: State): Ids {
    Ids(s.usedRecipes, s.usedRevisions)
  }

  /** The row the transaction started from: the committed row it locked, or a new one. */
  function Base(db: Db, tx: Tx): Option<Recipe> {
    if !tx.job.Update? then Some(NewRecipe(tx))
    else if tx.job.recipe in db.recipes then Some(PatchRecipe(db.recipes[tx.job.recipe], tx.job.patch))
    else None
  }

  function VisibleIngredients(db: Db, tx: Tx): multiset<Ingredient> {
    if tx.ings.Some? then tx.ings.value
    else if tx.target in db.ingredients then db.ingredients[tx.target]
    else multiset{}
  }

  ghost predicate RowWritable(db: Db, ids: Ids, tx: Tx) {
    && tx.row.Some? && Base(db, tx).Some?
    && (if tx.job.Update? then tx.target == tx.job.recipe
        else tx.target !in db.recipes && tx.target in ids.recipes && tx.ings.Some?)
    && (tx.job.Fork? ==> tx.source.Some?)
  }

  ghost predicate RevisionOk(db: Db, ids: Ids, tx: Tx) {
    && tx.revision.Some? && tx.revision.value.0 in ids.revisions && tx.revision.value.0 !in db.revisions
    && Base(db, tx).Some?
    && var rev := tx.revision.value.1;
       && rev.recipe == tx.target && rev.number == Base(db, tx).value.revisionCount + 1
       && rev.meta == Base(db, tx).value.meta
       && SnapshotOf(rev.snapshot, VisibleIngredients(db, tx))
  }

  ghost predicate StageOk(db: Db, ids: Ids, tx: Tx) {
    match tx.stage
    case Begun => tx.row.None? && tx.source.None? && tx.revision.None? && tx.ings.None? && tx.rows == []
    case Counted => tx.job.Fork? && tx.row.None? && tx.source.Some? && tx.revision.None? && tx.rows == []
    case RowWritten =>
      tx.job.Update? && RowWritable(db, ids, tx) && tx.row == Base(db, tx) && tx.revision.None?
      && tx.ings.None? && tx.rows == []
    case Inserting =>
      RowWritable(db, ids, tx) && tx.row == Base(db, tx) && tx.revision.None?
      && tx.ings == Some(multiset(tx.rows))
    case Listed =>
      RowWritable(db, ids, tx) && tx.row == Base(db, tx) && tx.revision.None?
      && multiset(tx.rows) == VisibleIngredients(db, tx)
    case RevisionWritten => RowWritable(db, ids, tx) && tx.row == Base(db, tx) && RevisionOk(db, ids, tx)
    case PointerSet =>
      && RowWritable(db, ids, tx) && RevisionOk(db, ids, tx)
      && var base := Base(db, tx).value;
         tx.row.value == base.(current := Some(tx.revision.value.0), revisionCount := base.revisionCount + 1)
  }

  ghost predicate JobOk(db: Db, tx: Tx) {
    && (tx.job.Update? ==> tx.target == tx.job.recipe)
    && (tx.job.Fork? ==>
          && tx.job.src in db.recipes
          && (tx.job.copy.current.Some? ==>
                tx.job.copy.current.value in db.revisions
                  && db.revisions[tx.job.copy.current.value].recipe == tx.job.src))
    && (tx.source.Some? ==>
          && tx.job.Fork? && tx.job.src in db.recipes
          && tx.source.value == db.recipes[tx.job.src].(forkCount := db.recipes[tx.job.src].forkCount + 1))
  }

  ghost predicate TxOk(db: Db, ids: Ids, tx: Tx) {
    JobOk(db, tx) && StageOk(db, ids, tx)
  }

  ghost predicate Apart(a: Tx, b: Tx) {
    && Locks(a) !! Locks(b)
    && (a.row.Some? && b.row.Some? ==> a.target != b.target)
    && (a.revision.Some? && b.revision.Some? ==> a.revision.value.0 != b.revision.value.0)
  }

  ghost predicate TxsOk(db: Db, ids: Ids, txs: map<TxId, Tx>) {
    && (forall t :: t in txs ==> TxOk(db, ids, txs[t]))
    && (forall t, u :: t in txs && u in txs && t != u ==> Apart(txs[t], txs[u]))
  }

  ghost predicate CommittedPartOk(db: Db, ids: Ids) {
    HistoriesOk(db) && db.recipes.Keys <= ids.recipes && db.revisions.Keys <= ids.revisions
  }

  ghost predicate Inv(s: State) {
    CommittedPartOk(s.db, IdsOf(s)) && TxsOk(s.db, IdsOf(s), s.txs)
  }

  lemma EmptyInv()
    ensures Inv(Empty())
  {
  }

  // --- Steps before the commit ---------------------------------------------------------------------

  lemma MoreIds(db: Db, ids: Ids, more: Ids, tx: Tx)
    requires TxOk(db, ids, tx) && ids.recipes <= more.recipes && ids.revisions <= more.revisions
    ensures TxOk(db, more, tx)
  {
  }

  /** A transaction's own statement: the database is as it was, and the new private state is sound. */
  lemma PrivateStep(db: Db, ids: Ids, more: Ids, txs: map<TxId, Tx>, t: TxId, tx: Tx)
    requires TxsOk(db, ids, txs)
    requires ids.recipes <= more.recipes && ids.revisions <= more.revisions
    requires TxOk(db, more, tx)
    requires forall u :: u in txs && u != t ==> Apart(tx, txs[u])
    ensures TxsOk(db, more, txs[t := tx])
  {
    var txs' := txs[t := tx];
    forall u | u in txs'
      ensures TxOk(db, more, txs'[u])
    {
      if u != t {
        MoreIds(db, ids, more, txs[u]);
      }
    }
  }

  lemma EarlyTxOk(s: State, act: Action)
    requires TxsOk(s.db, IdsOf(s), s.txs) && Enabled(s, act, RowLock)
    requires act.Begin? || act.CountFork? || act.InsertRecipe? || act.UpdateMeta?
    requires s.db.recipes.Keys <= s.usedRecipes
    ensures TxOk(s.db, IdsOf(Apply(s, act, RowLock)), Apply(s, act, RowLock).txs[act.tx])
  {
    assert act.Begin? || TxOk(s.db, IdsOf(s), s.txs[act.tx]);
  }

  lemma EarlyApart(s: State, act: Action, u: TxId)
    requires TxsOk(s.db, IdsOf(s), s.txs) && Enabled(s, act, RowLock)
    requires act.Begin? || act.CountFork? || act.InsertRecipe? || act.UpdateMeta?
    requires s.db.recipes.Keys <= s.usedRecipes
    requires u in s.txs && u != act.tx
    ensures Apart(Apply(s, act, RowLock).txs[act.tx], s.txs[u])
  {
    assert TxOk(s.db, IdsOf(s), s.txs[u]);
    if !act.Begin? {
      assert TxOk(s.db, IdsOf(s), s.txs[act.tx]) && Apart(s.txs[act.tx], s.txs[u]);
    }
  }

  lemma EarlyStepKeeps(s: State, act: Action)
    requires Inv(s) && Enabled(s, act, RowLock)
    requires act.Begin? || act.CountFork? || act.InsertRecipe? || act.UpdateMeta?
    ensures Inv(Apply(s, act, RowLock))
  {
    var s' := Apply(s, act, RowLock);
    EarlyTxOk(s, act);
    forall u | u in s.txs && u != act.tx
      ensures Apart(s'.txs[act.tx], s.txs[u])
    {
      EarlyApart(s, act, u);
    }
    PrivateStep(s.db, IdsOf(s), IdsOf(s'), s.txs, act.tx, s'.txs[act.tx]);
    assert s'.db == s.db && s'.txs == s.txs[act.tx := s'.txs[act.tx]];
  }

  lemma RevisionTxOk(db: Db, ids: Ids, tx: Tx, id: RevisionId, message: Option<string>)
    requires TxOk(db, ids, tx) && (tx.stage == Inserting || tx.stage == Listed) && tx.row.Some?
    requires id !in ids.revisions && db.revisions.Keys <= ids.revisions
    ensures TxOk(db, ids.(revisions := ids.revisions + {id}),
                 tx.(stage := RevisionWritten, revision := Some((id, NewRevision(tx, message)))))
  {
    var tx' := tx.(stage := RevisionWritten, revision := Some((id, NewRevision(tx, message))));
    assert multiset(tx.rows) == VisibleIngredients(db, tx');
    assert BuildSnapshot(tx.rows) == tx'.revision.value.1.snapshot;
  }

  lemma IngredientTxOk(db: Db, ids: Ids, tx: Tx, ing: Ingredient)
    requires TxOk(db, ids, tx) && tx.stage == Inserting
    ensures tx.ings.Some? && TxOk(db, ids, tx.(ings := Some(tx.ings.value + multiset{ing}), rows := tx.rows + [ing]))
  {
    assert multiset(tx.rows + [ing]) == multiset(tx.rows) + multiset{ing};
  }

  lemma PointerTxOk(db: Db, ids: Ids, tx: Tx)
    requires TxOk(db, ids, tx) && tx.stage == RevisionWritten && tx.row.Some? && tx.revision.Some?
    ensures var row := tx.row.value;
            TxOk(db, ids, tx.(stage := PointerSet,
                              row := Some(row.(current := Some(tx.revision.value.0),
                                               revisionCount := row.revisionCount + 1))))
  {
  }

  lemma ClearedTxOk(db: Db, ids: Ids, tx: Tx)
    requires TxOk(db, ids, tx) && tx.stage == RowWritten
    ensures TxOk(db, ids, tx.(stage := Inserting, ings := Some(multiset{})))
  {
  }

  lemma ListedTxOk(db: Db, ids: Ids, tx: Tx, order: seq<Ingredient>)
    requires TxOk(db, ids, tx) && tx.stage == RowWritten && tx.target in db.ingredients
             && multiset(order) == db.ingredients[tx.target]
    ensures TxOk(db, ids, tx.(stage := Listed, rows := order))
  {
  }

  lemma TheTxOk(s: State, t: TxId)
    requires TxsOk(s.db, IdsOf(s), s.txs) && t in s.txs
    ensures TxOk(s.db, IdsOf(s), s.txs[t])
  {
  }

  lemma LateTxOk(s: State, act: Action)
    requires TxsOk(s.db, IdsOf(s), s.txs) && Enabled(s, act, RowLock)
    requires act.DeleteIngredients? || act.InsertIngredient? || act.ListIngredients? || act.InsertRevision?
             || act.SetPointer?
    requires s.db.revisions.Keys <= s.usedRevisions
    ensures TxOk(s.db, IdsOf(Apply(s, act, RowLock)), Apply(s, act, RowLock).txs[act.tx])
  {
    TheTxOk(s, act.tx);
    var db, ids, tx := s.db, IdsOf(s), s.txs[act.tx];
    match act
    case DeleteIngredients(_) => ClearedTxOk(db, ids, tx);
    case InsertIngredient(_, ing) => IngredientTxOk(db, ids, tx, ing);
    case ListIngredients(_, order) => ListedTxOk(db, ids, tx, order);
    case InsertRevision(_, id, message) => RevisionTxOk(db, ids, tx, id, message);
    case SetPointer(_) => PointerTxOk(db, ids, tx);
  }

  lemma LateApart(s: State, act: Action, u: TxId)
    requires TxsOk(s.db, IdsOf(s), s.txs) && Enabled(s, act, RowLock)
    requires act.DeleteIngredients? || act.InsertIngredient? || act.ListIngredients? || act.InsertRevision?
             || act.SetPointer?
    requires u in s.txs && u != act.tx
    ensures Apart(Apply(s, act, RowLock).txs[act.tx], s.txs[u])
  {
    assert Apart(s.txs[act.tx], s.txs[u]) && TxOk(s.db, IdsOf(s), s.txs[u]);
  }

  lemma LateStepKeeps(s: State, act: Action)
    requires Inv(s) && Enabled(s, act, RowLock)
    requires act.DeleteIngredients? || act.InsertIngredient? || act.ListIngredients? || act.InsertRevision?
             || act.SetPointer?
    ensures Inv(Apply(s, act, RowLock))
  {
    var s' := Apply(s, act, RowLock);
    LateTxOk(s, act);
    forall u | u in s.txs && u != act.tx
      ensures Apart(s'.txs[act.tx], s.txs[u])
    {
      LateApart(s, act, u);
    }
    PrivateStep(s.db, IdsOf(s), IdsOf(s'), s.txs, act.tx, s'.txs[act.tx]);
    assert s'.db == s.db && s'.txs == s.txs[act.tx := s'.txs[act.tx]];
  }

  // --- The commit -----------------------------------------------------------------------------------

  /** A transaction that is about to commit, spelled out. */
  ghost predicate Ready(db: Db, tx: Tx) {
    && tx.row.Some? && tx.revision.Some? && tx.revision.value.0 !in db.revisions
    && (tx.job.Update? ==> tx.target == tx.job.recipe && tx.target in db.recipes)
    && (!tx.job.Update? ==> tx.target !in db.recipes && tx.ings.Some?)
    && (tx.job.Fork? ==>
          && tx.job.src in db.recipes
          && tx.source == Some(db.recipes[tx.job.src].(forkCount := db.recipes[tx.job.src].forkCount + 1))
          && (tx.job.copy.current.Some? ==>
                tx.job.copy.current.value in db.revisions
                  && db.revisions[tx.job.copy.current.value].recipe == tx.job.src))
    && var base := if tx.job.Update? then PatchRecipe(db.recipes[tx.target], tx.job.patch) else NewRecipe(tx);
       var rev := tx.revision.value.1;
       && tx.row.value == base.(current := Some(tx.revision.value.0), revisionCount := base.revisionCount + 1)
       && rev.recipe == tx.target && rev.number == base.revisionCount + 1 && rev.meta == base.meta
       && SnapshotOf(rev.snapshot, VisibleIngredients(db, tx))
  }

  lemma PointerSetIsReady(db: Db, ids: Ids, tx: Tx)
    requires TxOk(db, ids, tx) && tx.stage == PointerSet
    ensures Ready(db, tx)
  {
  }

  /** What a commit does to the row of one recipe. */
  lemma CommittedRow(db: Db, tx: Tx, r: RecipeId)
    requires Ready(db, tx)
    ensures var db' := Committed(db, tx);
            && (r in db'.recipes <==> r in db.recipes || r == tx.target)
            && (r in db.recipes && r != tx.target ==>
                  db'.recipes[r] == if tx.job.Fork? && r == tx.job.src
                                    then db.recipes[r].(forkCount := db.recipes[r].forkCount + 1)
                                    else db.recipes[r])
            && db'.recipes[tx.target] == tx.row.value
  {
  }

  lemma CommittedRevision(db: Db, tx: Tx, v: RevisionId)
    requires Ready(db, tx)
    ensures var db' := Committed(db, tx);
            && (v in db'.revisions <==> v in db.revisions || v == tx.revision.value.0)
            && (v in db.revisions ==> db'.revisions[v] == db.revisions[v])
            && db'.revisions[tx.revision.value.0] == tx.revision.value.1
  {
  }

  lemma CommitNumbers(db: Db, tx: Tx, r: RecipeId, n: nat)
    requires Ready(db, tx) && NumbersAre(db, r, n)
    requires n == if r in db.recipes then db.recipes[r].revisionCount else 0
    ensures NumbersAre(Committed(db, tx), r, if r == tx.target then n + 1 else n)
  {
    var db', v := Committed(db, tx), tx.revision.value.0;
    forall w
      ensures w in db'.revisions <==> w in db.revisions || w == v
      ensures w in db.revisions ==> db'.revisions[w] == db.revisions[w]
    {
      CommittedRevision(db, tx, w);
    }
    CommittedRevision(db, tx, v);
    var m := if r == tx.target then n + 1 else n;
    forall k | 1 <= k <= m
      ensures HasNumber(db', r, k)
    {
      if k == n + 1 {
        assert Numbered(db', v, r, k);
      } else {
        assert HasNumber(db, r, k);
        var w :| Numbered(db, w, r, k);
        assert Numbered(db', w, r, k);
      }
    }
  }

  lemma CommitLiveTarget(db: Db, tx: Tx)
    requires Ready(db, tx)
    requires tx.job.Update? ==> CurrentIsLive(db, tx.target) && LineageOk(db, tx.target)
    ensures tx.target in Committed(db, tx).recipes
    ensures CurrentIsLive(Committed(db, tx), tx.target) && LineageOk(Committed(db, tx), tx.target)
  {
    CommittedRow(db, tx, tx.target);
    CommittedRevision(db, tx, tx.revision.value.0);
    assert tx.row.value.parent.Some? ==> tx.row.value.parent.value in db.recipes;
    if tx.row.value.parent.Some? {
      CommittedRow(db, tx, tx.row.value.parent.value);
    }
    if tx.row.value.parentRevision.Some? {
      CommittedRevision(db, tx, tx.row.value.parentRevision.value);
    }
  }

  lemma CommitLiveOther(db: Db, tx: Tx, r: RecipeId)
    requires Ready(db, tx) && r in db.recipes && r != tx.target
    requires CurrentIsLive(db, r) && LineageOk(db, r)
    ensures r in Committed(db, tx).recipes
    ensures CurrentIsLive(Committed(db, tx), r) && LineageOk(Committed(db, tx), r)
  {
    CommittedRow(db, tx, r);
    CommittedRevision(db, tx, db.recipes[r].current.value);
    if db.recipes[r].parent.Some? {
      CommittedRow(db, tx, db.recipes[r].parent.value);
    }
    if db.recipes[r].parentRevision.Some? {
      CommittedRevision(db, tx, db.recipes[r].parentRevision.value);
    }
  }

  lemma CommitForks(db: Db, tx: Tx, r: RecipeId)
    requires Ready(db, tx)
    requires forall f :: f in db.recipes ==> LineageOk(db, f)
    requires r in db.recipes ==> db.recipes[r].forkCount == |Forks(db, r)|
    requires r in Committed(db, tx).recipes
    ensures Committed(db, tx).recipes[r].forkCount == |Forks(Committed(db, tx), r)|
  {
    var db' := Committed(db, tx);
    forall f
      ensures f in db'.recipes <==> f in db.recipes || f == tx.target
      ensures f in db.recipes ==> db'.recipes[f].parent == db.recipes[f].parent
    {
      CommittedRow(db, tx, f);
    }
    CommittedRow(db, tx, r);
    if tx.job.Fork? && r == tx.job.src {
      assert Forks(db', r) == Forks(db, r) + {tx.target};
    } else if r in db.recipes {
      assert Forks(db', r) == Forks(db, r);
    } else {
      assert forall f :: f in db.recipes ==> LineageOk(db, f) && db.recipes[f].parent != Some(r);
      assert Forks(db', r) == {};
    }
  }

  lemma CommitHistories(db: Db, tx: Tx)
    requires Ready(db, tx) && HistoriesOk(db)
    ensures HistoriesOk(Committed(db, tx))
  {
    var db' := Committed(db, tx);
    forall r | r in db'.recipes
      ensures RecipeOk(db', r)
    {
      CommittedRow(db, tx, r);
      assert forall x :: x in db.recipes ==> RecipeOk(db, x);
      CommitNumbers(db, tx, r, if r in db.recipes then db.recipes[r].revisionCount else 0);
      CommitForks(db, tx, r);
      if r == tx.target {
        CommitLiveTarget(db, tx);
      } else {
        CommitLiveOther(db, tx, r);
      }
    }
    forall v | v in db'.revisions
      ensures db'.revisions[v].recipe in db'.recipes
    {
      CommittedRevision(db, tx, v);
      CommittedRow(db, tx, db'.revisions[v].recipe);
    }
  }

  /** A commit does not disturb what another transaction has locked or created. */
  lemma CommitKeepsOther(db: Db, ids: Ids, tx: Tx, other: Tx)
    requires Ready(db, tx) && TxOk(db, ids, other) && Apart(tx, other)
    ensures TxOk(Committed(db, tx), ids, other)
  {
    var db' := Committed(db, tx);
    CommittedRow(db, tx, other.target);
    if other.job.Fork? {
      CommittedRow(db, tx, other.job.src);
      if other.job.copy.current.Some? {
        CommittedRevision(db, tx, other.job.copy.current.value);
      }
      if other.source.Some? {
        assert other.job.src in Locks(other);
        assert tx.job.Fork? ==> tx.job.src in Locks(tx);
        assert tx.job.Update? ==> tx.target in Locks(tx);
      }
    }
    if other.revision.Some? {
      CommittedRevision(db, tx, other.revision.value.0);
    }
    if other.row.Some? {
      OtherRowStands(db, ids, tx, other);
    }
  }

  lemma OtherRowStands(db: Db, ids: Ids, tx: Tx, other: Tx)
    requires Ready(db, tx) && TxOk(db, ids, other) && Apart(tx, other) && other.row.Some?
    ensures Base(Committed(db, tx), other) == Base(db, other)
    ensures VisibleIngredients(Committed(db, tx), other) == VisibleIngredients(db, other)
  {
    CommittedRow(db, tx, other.target);
    if other.job.Update? {
      assert other.job.recipe in Locks(other);
      assert tx.job.Fork? ==> tx.job.src in Locks(tx);
      assert tx.job.Update? ==> tx.target in Locks(tx);
    }
  }

  lemma CommittedKeys(db: Db, tx: Tx)
    requires Ready(db, tx)
    ensures Committed(db, tx).recipes.Keys == db.recipes.Keys + {tx.target}
    ensures Committed(db, tx).revisions.Keys == db.revisions.Keys + {tx.revision.value.0}
  {
  }

  lemma PointerSetIds(db: Db, ids: Ids, tx: Tx)
    requires TxOk(db, ids, tx) && tx.stage == PointerSet && db.recipes.Keys <= ids.recipes
    ensures tx.target in ids.recipes && tx.revision.Some? && tx.revision.value.0 in ids.revisions
  {
  }

  lemma CommitKeepsTxs(db: Db, ids: Ids, txs: map<TxId, Tx>, t: TxId)
    requires TxsOk(db, ids, txs) && t in txs && Ready(db, txs[t])
    ensures TxsOk(Committed(db, txs[t]), ids, txs - {t})
  {
    forall u | u in txs && u != t
      ensures TxOk(Committed(db, txs[t]), ids, txs[u])
    {
      assert TxOk(db, ids, txs[u]) && Apart(txs[t], txs[u]);
      CommitKeepsOther(db, ids, txs[t], txs[u]);
    }
  }

  lemma CommitKeepsDb(db: Db, ids: Ids, tx: Tx)
    requires CommittedPartOk(db, ids) && TxOk(db, ids, tx) && tx.stage == PointerSet
    ensures Ready(db, tx) && CommittedPartOk(Committed(db, tx), ids)
  {
    PointerSetIsReady(db, ids, tx);
    PointerSetIds(db, ids, tx);
    CommitHistories(db, tx);
    CommittedKeys(db, tx);
  }

  lemma CommitKeeps(s: State, act: Action)
    requires Inv(s) && Enabled(s, act, RowLock) && act.Commit?
    ensures Inv(Apply(s, act, RowLock))
  {
    var tx, ids := s.txs[act.tx], IdsOf(s);
    var db' := Committed(s.db, tx);
    assert CommittedPartOk(db', ids) && TxsOk(db', ids, s.txs - {act.tx}) by {
      CommitKeepsDb(s.db, ids, tx);
      CommitKeepsTxs(s.db, ids, s.txs, act.tx);
    }
    assert Apply(s, act, RowLock) == State(db', s.usedRecipes, s.usedRevisions, s.txs - {act.tx});
  }

  lemma StepKeepsInv(s: State, act: Action)
    requires Inv(s) && Enabled(s, act, RowLock)
    ensures Inv(Apply(s, act, RowLock))
  {
    match act
    case Begin(_, _, _) => EarlyStepKeeps(s, act);
    case CountFork(_) => EarlyStepKeeps(s, act);
    case InsertRecipe(_, _) => EarlyStepKeeps(s, act);
    case UpdateMeta(_) => EarlyStepKeeps(s, act);
    case DeleteIngredients(_) => LateStepKeeps(s, act);
    case InsertIngredient(_, _) => LateStepKeeps(s, act);
    case ListIngredients(_, _) => LateStepKeeps(s, act);
    case InsertRevision(_, _, _) => LateStepKeeps(s, act);
    case SetPointer(_) => LateStepKeeps(s, act);
    case Commit(_) => CommitKeeps(s, act);
    case Rollback(_) =>
  }
}
