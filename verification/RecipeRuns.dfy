/** Concurrent recipe updates and forks over whole runs. */
module RecipeRuns {
  import opened Wrappers
  import opened RecipeModel
  import opened RecipeSafety

  lemma {:induction false} RunKeepsInv(s: State, acts: seq<Action>)
    requires Inv(s) && ValidRun(s, acts, RowLock)
    ensures Inv(RunFrom(s, acts, RowLock))
    decreases |acts|
  {
    if acts != [] {
      StepKeepsInv(s, acts[0]);
      RunKeepsInv(Apply(s, acts[0], RowLock), acts[1..]);
    }
  }

  /**
   Whatever creates, updates and forks interleave, every committed recipe has revisions numbered exactly
   1..revision_count, its current revision is the last and says what the live row and its ingredient rows say,
   its parent revision belongs to its parent, and fork_count is the number of its forks.
   */
  lemma HistoriesStaySound(acts: seq<Action>, r: RecipeId)
    requires ValidRun(Empty(), acts, RowLock) && r in RunFrom(Empty(), acts, RowLock).db.recipes
    ensures RecipeOk(RunFrom(Empty(), acts, RowLock).db, r)
  {
    EmptyInv();
    RunKeepsInv(Empty(), acts);
  }

  /** A committed revision is never rewritten or removed. */
  lemma {:induction false} RevisionsAreImmutable(s: State, acts: seq<Action>, v: RevisionId)
    requires Inv(s) && ValidRun(s, acts, RowLock) && v in s.db.revisions
    ensures var t := RunFrom(s, acts, RowLock); v in t.db.revisions && t.db.revisions[v] == s.db.revisions[v]
    decreases |acts|
  {
    if acts != [] {
      StepKeepsInv(s, acts[0]);
      if acts[0].Commit? {
        ReadyAtCommit(s, acts[0].tx);
        CommittedRevision(s.db, s.txs[acts[0].tx], v);
      }
      RevisionsAreImmutable(Apply(s, acts[0], RowLock), acts[1..], v);
    }
  }

  lemma ReadyAtCommit(s: State, t: TxId)
    requires Inv(s) && Enabled(s, Commit(t), RowLock)
    ensures Ready(s.db, s.txs[t])
  {
    PointerSetIsReady(s.db, IdsOf(s), s.txs[t]);
  }

  lemma CommittedNumbersAreLower(db: Db, ids: Ids, tx: Tx, v: RevisionId)
    requires HistoriesOk(db) && TxOk(db, ids, tx) && (tx.stage == Inserting || tx.stage == Listed) && tx.row.Some?
    requires v in db.revisions && db.revisions[v].recipe == tx.target
    ensures db.revisions[v].number <= tx.row.value.revisionCount
  {
    assert tx.target in db.recipes;
    assert RecipeOk(db, tx.target);
  }

  lemma OthersWriteElsewhere(s: State, t: TxId, u: TxId)
    requires TxsOk(s.db, IdsOf(s), s.txs) && t in s.txs && u in s.txs && t != u
    requires (At(s, t, Inserting) || At(s, t, Listed)) && s.txs[t].row.Some? && s.txs[u].revision.Some?
    ensures s.txs[u].revision.value.1.recipe != s.txs[t].target
  {
    assert TxOk(s.db, IdsOf(s), s.txs[u]) && Apart(s.txs[t], s.txs[u]);
  }

  /** The UNIQUE (recipe, number) constraint never trips: nobody else has, or is inserting, the next number. */
  lemma NextNumberIsFree(s: State, t: TxId)
    requires Inv(s) && (At(s, t, Inserting) || At(s, t, Listed)) && s.txs[t].row.Some?
    ensures !NumberTaken(s, t, s.txs[t].target, s.txs[t].row.value.revisionCount + 1)
  {
    var tx := s.txs[t];
    assert TxOk(s.db, IdsOf(s), tx);
    forall v | v in s.db.revisions && s.db.revisions[v].recipe == tx.target
      ensures s.db.revisions[v].number <= tx.row.value.revisionCount
    {
      CommittedNumbersAreLower(s.db, IdsOf(s), tx, v);
    }
    forall u | u in s.txs && u != t && s.txs[u].revision.Some?
      ensures s.txs[u].revision.value.1.recipe != tx.target
    {
      OthersWriteElsewhere(s, t, u);
    }
  }

  // --- No lost updates -----------------------------------------------------------------------------

  /** What a recipe says of itself at a moment: its metadata, its visibility and its ingredient rows. */
  datatype Live = Live(meta: Meta, visibility: Visibility, ings: multiset<Ingredient>)

  function LiveOf(db: Db, r: RecipeId): Live
    requires r in db.recipes
  {
    Live(db.recipes[r].meta, db.recipes[r].visibility, if r in db.ingredients then db.ingredients[r] else multiset{})
  }

  /** A committed update: what it patched and the rows it put in place of the old ones, if it did. */
  datatype Change = Change(patch: Patch, ings: Option<multiset<Ingredient>>)

  function Changed(l: Live, c: Change): Live {
    Live(PatchMeta(l.meta, c.patch), if c.patch.visibility.Some? then c.patch.visibility.value else l.visibility,
         if c.ings.Some? then c.ings.value else l.ings)
  }

  function ChangeAll(l: Live, changes: seq<Change>): Live
    decreases |changes|
  {
    if changes == [] then l else ChangeAll(Changed(l, changes[0]), changes[1..])
  }

  /** The updates of `r` that the run commits, in commit order. */
  ghost function CommittedChanges(s: State, acts: seq<Action>, r: RecipeId): seq<Change>
    requires ValidRun(s, acts, RowLock)
    decreases |acts|
  {
    if acts == [] then []
    else
      var rest := CommittedChanges(Apply(s, acts[0], RowLock), acts[1..], r);
      if acts[0].Commit? && s.txs[acts[0].tx].job.Update? && s.txs[acts[0].tx].job.recipe == r
      then [Change(s.txs[acts[0].tx].job.patch, s.txs[acts[0].tx].ings)] + rest
      else rest
  }

  /** Forks of `r` that the run commits. */
  ghost function CommittedForks(s: State, acts: seq<Action>, r: RecipeId): nat
    requires ValidRun(s, acts, RowLock)
    decreases |acts|
  {
    if acts == [] then 0
    else (if acts[0].Commit? && s.txs[acts[0].tx].job.Fork? && s.txs[acts[0].tx].job.src == r then 1 else 0)
         + CommittedForks(Apply(s, acts[0], RowLock), acts[1..], r)
  }

  lemma CommitChanges(db: Db, tx: Tx, r: RecipeId)
    requires Ready(db, tx) && r in db.recipes
    ensures r in Committed(db, tx).recipes
    ensures var l, m := LiveOf(db, r), LiveOf(Committed(db, tx), r);
            m == if tx.job.Update? && tx.job.recipe == r then Changed(l, Change(tx.job.patch, tx.ings)) else l
  {
    CommittedRow(db, tx, r);
  }

  /**
   Serializability of one recipe: after any interleaving its metadata, visibility and ingredient rows are what the
   committed updates give when applied one after another, each adds one revision, and each committed fork adds one
   to fork_count. No update is lost.
   */
  lemma {:induction false} UpdatesAreSerial(s: State, acts: seq<Action>, r: RecipeId)
    requires Inv(s) && ValidRun(s, acts, RowLock) && r in s.db.recipes
    ensures var t := RunFrom(s, acts, RowLock);
            var changes := CommittedChanges(s, acts, r);
            && r in t.db.recipes
            && LiveOf(t.db, r) == ChangeAll(LiveOf(s.db, r), changes)
            && t.db.recipes[r].revisionCount == s.db.recipes[r].revisionCount + |changes|
            && t.db.recipes[r].forkCount == s.db.recipes[r].forkCount + CommittedForks(s, acts, r)
    decreases |acts|
  {
    if acts != [] {
      var s1 := Apply(s, acts[0], RowLock);
      StepKeepsInv(s, acts[0]);
      if acts[0].Commit? {
        ReadyAtCommit(s, acts[0].tx);
        CommittedRow(s.db, s.txs[acts[0].tx], r);
        CommitChanges(s.db, s.txs[acts[0].tx], r);
      }
      UpdatesAreSerial(s1, acts[1..], r);
      assert acts[0].Commit? || s1.db == s.db;
    }
  }

  // --- What the lock is for -----------------------------------------------------------------------------

  const NO_CHANGE := Patch(None, None, None, None, None, None, None, None)
  const PLAIN := Meta("mead", None, None, None, None, None, None)

  function FirstRevision(): Revision {
    Revision(0, 1, 0, None, PLAIN, [])
  }

  /** One committed recipe with one revision and no ingredients. */
  function OneRecipe(): State {
    State(Db(map[0 := Recipe(0, None, None, Some(0), 1, 0, PLAIN, Public)], map[0 := multiset{}],
             map[0 := FirstRevision()]),
          {0}, {0}, map[])
  }

  ghost predicate Reaches(s: State, t: State, locking: Locking) {
    exists acts :: ValidRun(s, acts, locking) && RunFrom(s, acts, locking) == t
  }

  lemma Stays(s: State, locking: Locking)
    ensures Reaches(s, s, locking)
  {
    assert ValidRun(s, [], locking) && RunFrom(s, [], locking) == s;
  }

  lemma StepFirst(s: State, act: Action, t: State, u: State, locking: Locking)
    requires Enabled(s, act, locking) && Apply(s, act, locking) == t && Reaches(t, u, locking)
    ensures Reaches(s, u, locking)
  {
    var rest :| ValidRun(t, rest, locking) && RunFrom(t, rest, locking) == u;
    assert ([act] + rest)[1..] == rest;
    assert ValidRun(s, [act] + rest, locking) && RunFrom(s, [act] + rest, locking) == u;
  }

  /** The recipe's row and revision are inserted, and not yet committed. */
  function Creating(): Tx {
    Tx(0, Create(PLAIN, Public), RevisionWritten, None, 0, Some(Recipe(0, None, None, None, 0, 0, PLAIN, Public)),
       Some(multiset{}), [], Some((0, FirstRevision())))
  }

  function AlmostOneRecipe(): State {
    State(Db(map[], map[], map[]), {0}, {0}, map[0 := Creating()])
  }

  lemma CreateWrites(u: State, locking: Locking)
    requires Reaches(AlmostOneRecipe(), u, locking)
    ensures Reaches(Empty(), u, locking)
  {
    var begun := Creating().(stage := Begun, row := None, ings := None, revision := None);
    var inserted := Creating().(stage := Inserting, revision := None);
    var s1 := Empty().(txs := map[0 := begun]);
    var s2 := Empty().(usedRecipes := {0}, txs := map[0 := inserted]);
    assert BuildSnapshot([]) == [];
    assert Enabled(s2, InsertRevision(0, 0, None), locking);
    StepFirst(s2, InsertRevision(0, 0, None), AlmostOneRecipe(), u, locking);
    StepFirst(s1, InsertRecipe(0, 0), s2, u, locking);
    StepFirst(Empty(), Begin(0, 0, Create(PLAIN, Public)), s1, u, locking);
  }

  lemma CreateOneRecipe(u: State, locking: Locking)
    requires Reaches(OneRecipe(), u, locking)
    ensures Reaches(Empty(), u, locking)
  {
    var s := AlmostOneRecipe();
    var t := Apply(s, SetPointer(0), locking);
    assert Apply(t, Commit(0), locking) == OneRecipe();
    StepFirst(t, Commit(0), OneRecipe(), u, locking);
    StepFirst(s, SetPointer(0), t, u, locking);
    CreateWrites(u, locking);
  }

  function Begun0(): Tx {
    Tx(0, Update(0, NO_CHANGE), Begun, None, 0, None, None, [], None)
  }

  function Written(): Tx {
    Begun0().(stage := RowWritten, row := Some(PatchRecipe(OneRecipe().db.recipes[0], NO_CHANGE)))
  }

  /** Two updates of the recipe have written its row: the second did not wait for the first. */
  function BothWritten(): State {
    OneRecipe().(txs := map[1 := Written(), 2 := Written()])
  }

  function BothBegun(): State {
    OneRecipe().(txs := map[1 := Begun0(), 2 := Begun0()])
  }

  lemma BothBegin(u: State)
    requires Reaches(BothBegun(), u, NoLock)
    ensures Reaches(OneRecipe(), u, NoLock)
  {
    var s := OneRecipe().(txs := map[1 := Begun0()]);
    StepFirst(s, Begin(2, 0, Update(0, NO_CHANGE)), BothBegun(), u, NoLock);
    StepFirst(OneRecipe(), Begin(1, 0, Update(0, NO_CHANGE)), s, u, NoLock);
  }

  lemma NobodyWaits(u: State)
    requires Reaches(BothWritten(), u, NoLock)
    ensures Reaches(OneRecipe(), u, NoLock)
  {
    var s := OneRecipe().(txs := map[1 := Written(), 2 := Begun0()]);
    StepFirst(s, UpdateMeta(2), BothWritten(), u, NoLock);
    StepFirst(BothBegun(), UpdateMeta(1), s, u, NoLock);
    BothBegin(u);
  }

  /** Revision 2 is inserted by the first update while the second is about to insert it too. */
  function Colliding(): State {
    var inserting := Written().(stage := Inserting, ings := Some(multiset{}));
    var inserted := inserting.(stage := RevisionWritten, revision := Some((1, NewRevision(inserting, None))));
    OneRecipe().(usedRevisions := {0, 1}, txs := map[1 := inserted, 2 := inserting])
  }

  lemma ThenTheyCollide()
    ensures Reaches(BothWritten(), Colliding(), NoLock)
  {
    var inserting := Written().(stage := Inserting, ings := Some(multiset{}));
    var s1 := OneRecipe().(txs := map[1 := inserting, 2 := Written()]);
    var s2 := OneRecipe().(txs := map[1 := inserting, 2 := inserting]);
    assert forall v :: v in s2.db.revisions ==> s2.db.revisions[v].number == 1;
    Stays(Colliding(), NoLock);
    StepFirst(s2, InsertRevision(1, 1, None), Colliding(), Colliding(), NoLock);
    StepFirst(s1, DeleteIngredients(2), s2, Colliding(), NoLock);
    StepFirst(BothWritten(), DeleteIngredients(1), s1, Colliding(), NoLock);
  }

  /** It is the row lock that keeps the next number free: without it two updates can want the same one. */
  lemma LockIsNeeded()
    ensures exists s, t ::
              && Reaches(Empty(), s, NoLock)
              && At(s, t, Inserting) && s.txs[t].row.Some?
              && NumberTaken(s, t, s.txs[t].target, s.txs[t].row.value.revisionCount + 1)
  {
    var s := Colliding();
    ThenTheyCollide();
    NobodyWaits(s);
    CreateOneRecipe(s, NoLock);
    assert At(s, 2, Inserting);
    assert 1 in s.txs && s.txs[1].revision.Some? && s.txs[1].revision.value.1.recipe == s.txs[2].target;
    assert NumberTaken(s, 2, s.txs[2].target, s.txs[2].row.value.revisionCount + 1);
  }
}
