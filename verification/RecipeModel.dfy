/**
 Recipes, their revisions and ingredient rows under concurrent transactions.

 Statements see the latest committed rows plus the transaction's own writes (READ COMMITTED); the first
 UPDATE of a recipe row takes its lock, which the transaction holds until it commits or rolls back.
 */
module RecipeModel {
  import opened Wrappers

  type RecipeId = nat
  type RevisionId = nat
  type UserId = nat
  type TxId = nat

  datatype Meta = Meta(name: string, style: Option<string>, description: Option<string>,
                       targetOG: Option<real>, targetFG: Option<real>, targetABV: Option<real>,
                       batchSizeL: Option<real>)

  datatype Visibility = Public | Unlisted | Private

  datatype Recipe = Recipe(author: UserId, parent: Option<RecipeId>, parentRevision: Option<RevisionId>,
                           current: Option<RevisionId>, revisionCount: nat, forkCount: nat,
                           meta: Meta, visibility: Visibility)

  datatype Ingredient = Ingredient(kind: string, name: string, amount: Option<real>, unit: Option<string>,
                                   sortOrder: int, details: string)

  /** One entry of a revision's JSON snapshot. */
  datatype Snap = Snap(kind: string, name: string, amount: Option<real>, unit: string, sortOrder: int, details: string)

  datatype Revision = Revision(recipe: RecipeId, number: nat, author: UserId, message: Option<string>,
                               meta: Meta, snapshot: seq<Snap>)

  /** Omitted fields of a PATCH keep their value (COALESCE). */
  datatype Patch = Patch(name: Option<string>, style: Option<string>, description: Option<string>,
                         targetOG: Option<real>, targetFG: Option<real>, targetABV: Option<real>,
                         batchSizeL: Option<real>, visibility: Option<Visibility>)

  function Or<T>(given: Option<T>, kept: Option<T>): Option<T> {
    if given.Some? then given else kept
  }

  function PatchMeta(m: Meta, p: Patch): Meta {
    Meta(if p.name.Some? then p.name.value else m.name, Or(p.style, m.style), Or(p.description, m.description),
         Or(p.targetOG, m.targetOG), Or(p.targetFG, m.targetFG), Or(p.targetABV, m.targetABV),
         Or(p.batchSizeL, m.batchSizeL))
  }

  function PatchRecipe(r: Recipe, p: Patch): Recipe {
    r.(meta := PatchMeta(r.meta, p), visibility := if p.visibility.Some? then p.visibility.value else r.visibility)
  }

  /** The row after the PATCH: each field is the given value if there is one, and as it was otherwise. */
  ghost predicate PatchedTo(was: Recipe, p: Patch, now: Recipe) {
    && (if p.name.Some? then now.meta.name == p.name.value else now.meta.name == was.meta.name)
    && (if p.style.Some? then now.meta.style == p.style else now.meta.style == was.meta.style)
    && (if p.description.Some? then now.meta.description == p.description
        else now.meta.description == was.meta.description)
    && (if p.targetOG.Some? then now.meta.targetOG == p.targetOG else now.meta.targetOG == was.meta.targetOG)
    && (if p.targetFG.Some? then now.meta.targetFG == p.targetFG else now.meta.targetFG == was.meta.targetFG)
    && (if p.targetABV.Some? then now.meta.targetABV == p.targetABV else now.meta.targetABV == was.meta.targetABV)
    && (if p.batchSizeL.Some? then now.meta.batchSizeL == p.batchSizeL else now.meta.batchSizeL == was.meta.batchSizeL)
    && (if p.visibility.Some? then now.visibility == p.visibility.value else now.visibility == was.visibility)
    && now.author == was.author && now.parent == was.parent && now.parentRevision == was.parentRevision
    && now.forkCount == was.forkCount
  }

  function SnapOf(i: Ingredient): Snap {
    Snap(i.kind, i.name, i.amount, if i.unit.Some? then i.unit.value else "", i.sortOrder, i.details)
  }

  function BuildSnapshot(rows: seq<Ingredient>): (snaps: seq<Snap>)
    ensures |snaps| == |rows|
  {
    seq(|rows|, i requires 0 <= i < |rows| => SnapOf(rows[i]))
  }

  /** One entry for each row, in order, saying what the row says; a row without a unit has the empty one. */
  ghost predicate Describes(snaps: seq<Snap>, rows: seq<Ingredient>) {
    && |snaps| == |rows|
    && forall i :: 0 <= i < |rows| ==>
         && snaps[i].kind == rows[i].kind && snaps[i].name == rows[i].name && snaps[i].amount == rows[i].amount
         && (if rows[i].unit.Some? then snaps[i].unit == rows[i].unit.value else snaps[i].unit == "")
         && snaps[i].sortOrder == rows[i].sortOrder && snaps[i].details == rows[i].details
  }

  /** Some listing of the rows is described. */
  ghost predicate DescribesSome(snaps: seq<Snap>, ings: multiset<Ingredient>) {
    exists rows: seq<Ingredient> :: multiset(rows) == ings && Describes(snaps, rows)
  }

  // --- Database and transactions --------------------------------------------------------------

  datatype Db = Db(recipes: map<RecipeId, Recipe>, ingredients: map<RecipeId, multiset<Ingredient>>,
                   revisions: map<RevisionId, Revision>)

  datatype Job =
    | Create(meta: Meta, visibility: Visibility)
    | Update(recipe: RecipeId, patch: Patch)
    | Fork(src: RecipeId, copy: Recipe, name: Option<string>)

  /**
   `Begun`: nothing written. `Counted`: a fork has incremented its source. `RowWritten`: an update has written
   (and locked) its row. `Inserting`: ingredient rows are being inserted. `Listed`: the live rows were read.
   */
  datatype Stage = Begun | Counted | RowWritten | Inserting | Listed | RevisionWritten | PointerSet

  /** A transaction's own writes; they reach the database when it commits. */
  datatype Tx = Tx(user: UserId, job: Job, stage: Stage,
                   source: Option<Recipe>, target: RecipeId, row: Option<Recipe>,
                   ings: Option<multiset<Ingredient>>, rows: seq<Ingredient>, revision: Option<(RevisionId, Revision)>)

  datatype State = State(db: Db, usedRecipes: set<RecipeId>, usedRevisions: set<RevisionId>, txs: map<TxId, Tx>)

  function Empty(): State {
    State(Db(map[], map[], map[]), {}, {}, map[])
  }

  /** Rows of the committed table the transaction has updated, and so locked. */
  function Locks(tx: Tx): set<RecipeId> {
    if tx.job.Update? then (if tx.row.Some? then {tx.job.recipe} else {})
    else if tx.job.Fork? && tx.source.Some? then {tx.job.src}
    else {}
  }

  ghost predicate LockFree(s: State, r: RecipeId) {
    forall t :: t in s.txs ==> r !in Locks(s.txs[t])
  }

  datatype Action =
    | Begin(tx: TxId, user: UserId, job: Job)
    | CountFork(tx: TxId)
    | InsertRecipe(tx: TxId, id: RecipeId)
    | UpdateMeta(tx: TxId)
    | DeleteIngredients(tx: TxId)
    | InsertIngredient(tx: TxId, ing: Ingredient)
    | ListIngredients(tx: TxId, order: seq<Ingredient>)
    | InsertRevision(tx: TxId, id: RevisionId, message: Option<string>)
    | SetPointer(tx: TxId)
    | Commit(tx: TxId)
    | Rollback(tx: TxId)

  predicate At(s: State, t: TxId, stage: Stage) {
    t in s.txs && s.txs[t].stage == stage
  }

  /** Another row, committed or about to be, already has this recipe and number. */
  ghost predicate NumberTaken(s: State, t: TxId, recipe: RecipeId, number: nat) {
    || (exists v :: v in s.db.revisions && s.db.revisions[v].recipe == recipe && s.db.revisions[v].number == number)
    || (exists u :: u in s.txs && u != t && s.txs[u].revision.Some?
                    && s.txs[u].revision.value.1.recipe == recipe && s.txs[u].revision.value.1.number == number)
  }

  /** The row of `src` at some time: it goes with one of the recipe's revisions. */
  predicate WasRow(db: Db, src: RecipeId, row: Recipe) {
    && row.current.Some? && row.current.value in db.revisions
    && var v := db.revisions[row.current.value];
       v.recipe == src && v.number == row.revisionCount && v.meta == row.meta
  }

  /** Does an update or a fork wait for the row lock? The database says yes; the other value is for comparison. */
  datatype Locking = RowLock | NoLock

  ghost predicate Enabled(s: State, act: Action, locking: Locking) {
    match act
    case Begin(t, user, job) =>
      && t !in s.txs
      // The fork's copy of its source is an unlocked read, some time ago, of the committed row.
      && (job.Fork? ==> job.src in s.db.recipes && WasRow(s.db, job.src, job.copy))
    case CountFork(t) =>
      && At(s, t, Begun) && s.txs[t].job.Fork? && s.txs[t].job.src in s.db.recipes
      && (locking == RowLock ==> LockFree(s, s.txs[t].job.src))
    case InsertRecipe(t, id) =>
      id !in s.usedRecipes && ((At(s, t, Begun) && s.txs[t].job.Create?) || (At(s, t, Counted) && s.txs[t].job.Fork?))
    case UpdateMeta(t) =>
      && At(s, t, Begun) && s.txs[t].job.Update?
      && s.txs[t].job.recipe in s.db.recipes && s.db.recipes[s.txs[t].job.recipe].author == s.txs[t].user
      && (locking == RowLock ==> LockFree(s, s.txs[t].job.recipe))
    case DeleteIngredients(t) => At(s, t, RowWritten)
    case InsertIngredient(t, ing) => At(s, t, Inserting)
    case ListIngredients(t, order) =>
      && At(s, t, RowWritten) && s.txs[t].target in s.db.ingredients
      && multiset(order) == s.db.ingredients[s.txs[t].target]
    case InsertRevision(t, id, message) =>
      && id !in s.usedRevisions && (At(s, t, Inserting) || At(s, t, Listed)) && s.txs[t].row.Some?
      && !NumberTaken(s, t, s.txs[t].target, s.txs[t].row.value.revisionCount + 1)
    case SetPointer(t) => At(s, t, RevisionWritten) && s.txs[t].row.Some? && s.txs[t].revision.Some?
    case Commit(t) => At(s, t, PointerSet) && s.txs[t].row.Some? && s.txs[t].revision.Some?
    case Rollback(t) => t in s.txs
  }

  function With(s: State, t: TxId, tx: Tx): State {
    s.(txs := s.txs[t := tx])
  }

  function NewRecipe(tx: Tx): Recipe
    requires !tx.job.Update?
  {
    match tx.job
    case Create(meta, visibility) => Recipe(tx.user, None, None, None, 0, 0, meta, visibility)
    case Fork(src, copy, name) =>
      var meta := if name.Some? then copy.meta.(name := name.value) else copy.meta;
      Recipe(tx.user, Some(src), copy.current, None, 0, 0, meta, Private)
  }

  function NewRevision(tx: Tx, message: Option<string>): Revision
    requires tx.row.Some?
  {
    Revision(tx.target, tx.row.value.revisionCount + 1, tx.user, message, tx.row.value.meta, BuildSnapshot(tx.rows))
  }

  /** The transaction's writes become visible all at once. */
  function Committed(db: Db, tx: Tx): Db
    requires tx.row.Some? && tx.revision.Some?
  {
    var recipes := if tx.job.Fork? && tx.source.Some? then db.recipes[tx.job.src := tx.source.value] else db.recipes;
    Db(recipes[tx.target := tx.row.value],
       if tx.ings.Some? then db.ingredients[tx.target := tx.ings.value] else db.ingredients,
       db.revisions[tx.revision.value.0 := tx.revision.value.1])
  }

  ghost function Apply(s: State, act: Action, locking: Locking): State
    requires Enabled(s, act, locking)
  {
    match act
    case Begin(t, user, job) =>
      With(s, t, Tx(user, job, Begun, None, if job.Update? then job.recipe else 0, None, None, [], None))
    case CountFork(t) =>
      var src := s.db.recipes[s.txs[t].job.src];
      With(s, t, s.txs[t].(stage := Counted, source := Some(src.(forkCount := src.forkCount + 1))))
    case InsertRecipe(t, id) =>
      With(s.(usedRecipes := s.usedRecipes + {id}), t,
           s.txs[t].(stage := Inserting, target := id, row := Some(NewRecipe(s.txs[t])), ings := Some(multiset{})))
    case UpdateMeta(t) =>
      var row := PatchRecipe(s.db.recipes[s.txs[t].job.recipe], s.txs[t].job.patch);
      With(s, t, s.txs[t].(stage := RowWritten, row := Some(row)))
    case DeleteIngredients(t) =>
      With(s, t, s.txs[t].(stage := Inserting, ings := Some(multiset{})))
    case InsertIngredient(t, ing) =>
      var ings := if s.txs[t].ings.Some? then s.txs[t].ings.value else multiset{};
      With(s, t, s.txs[t].(ings := Some(ings + multiset{ing}), rows := s.txs[t].rows + [ing]))
    case ListIngredients(t, order) =>
      With(s, t, s.txs[t].(stage := Listed, rows := order))
    case InsertRevision(t, id, message) =>
      With(s.(usedRevisions := s.usedRevisions + {id}), t,
           s.txs[t].(stage := RevisionWritten, revision := Some((id, NewRevision(s.txs[t], message)))))
    case SetPointer(t) =>
      var row := s.txs[t].row.value;
      With(s, t, s.txs[t].(stage := PointerSet,
                           row := Some(row.(current := Some(s.txs[t].revision.value.0),
                                            revisionCount := row.revisionCount + 1))))
    case Commit(t) => s.(db := Committed(s.db, s.txs[t]), txs := s.txs - {t})
    case Rollback(t) => s.(txs := s.txs - {t})
  }

  ghost predicate ValidRun(s: State, acts: seq<Action>, locking: Locking)
    decreases |acts|
  {
    acts == [] || (Enabled(s, acts[0], locking) && ValidRun(Apply(s, acts[0], locking), acts[1..], locking))
  }

  ghost function RunFrom(s: State, acts: seq<Action>, locking: Locking): State
    requires ValidRun(s, acts, locking)
    decreases |acts|
  {
    if acts == [] then s else RunFrom(Apply(s, acts[0], locking), acts[1..], locking)
  }
}
