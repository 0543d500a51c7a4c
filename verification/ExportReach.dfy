/** What an actor may rely on while others take any number of steps. */
module ExportReach {
  import opened Wrappers
  import opened ClaimQueue
  import opened ExportModel
  import opened ExportSafety
  import opened ExportRuns

  ghost predicate Reaches(s: State, t: State) {
    exists acts :: ValidRun(s, acts) && RunFrom(s, acts) == t
  }

  ghost predicate Steps(s: State, act: Action, t: State) {
    Enabled(s, act) && t == Apply(s, act)
  }

  lemma Stays(s: State)
    ensures Reaches(s, s)
  {
    assert ValidRun(s, []) && RunFrom(s, []) == s;
  }

  lemma {:induction false} RunsJoin(s: State, acts: seq<Action>, more: seq<Action>)
    requires ValidRun(s, acts) && ValidRun(RunFrom(s, acts), more)
    ensures ValidRun(s, acts + more) && RunFrom(s, acts + more) == RunFrom(RunFrom(s, acts), more)
    decreases |acts|
  {
    if acts == [] {
      assert acts + more == more;
    } else {
      RunsJoin(Apply(s, acts[0]), acts[1..], more);
      assert (acts + more)[1..] == acts[1..] + more;
    }
  }

  lemma Onward(s: State, t: State, u: State)
    requires Reaches(s, t) && Reaches(t, u)
    ensures Reaches(s, u)
  {
    var acts :| ValidRun(s, acts) && RunFrom(s, acts) == t;
    var more :| ValidRun(t, more) && RunFrom(t, more) == u;
    RunsJoin(s, acts, more);
  }

  lemma OneStep(s: State, act: Action, t: State)
    requires Steps(s, act, t)
    ensures Reaches(s, t)
  {
    assert ValidRun(t, []) && RunFrom(t, []) == t;
    assert [act][1..] == [];
    assert ValidRun(s, [act]) && RunFrom(s, [act]) == t;
  }

  lemma StepFirst(s: State, act: Action, t: State, u: State)
    requires Steps(s, act, t) && Reaches(t, u)
    ensures Reaches(s, u)
  {
    OneStep(s, act, t);
    Onward(s, t, u);
  }

  lemma ReachKeepsInv(s: State, t: State)
    requires Inv(s) && Reaches(s, t)
    ensures Inv(t) && t.pipeline == s.pipeline && s.used <= t.used
  {
    var acts :| ValidRun(s, acts) && RunFrom(s, acts) == t;
    RunKeepsInv(s, acts);
    PipelineIsFixed(s, acts);
    UsedGrows(s, acts);
  }

  lemma {:induction false} UsedGrows(s: State, acts: seq<Action>)
    requires ValidRun(s, acts)
    ensures s.used <= RunFrom(s, acts).used
    decreases |acts|
  {
    if acts != [] {
      UsedGrows(Apply(s, acts[0]), acts[1..]);
    }
  }

  lemma ReachKeepsRank(s: State, t: State, id: Id)
    requires Inv(s) && Reaches(s, t)
    ensures Rank(s, id) <= Rank(t, id)
  {
    var acts :| ValidRun(s, acts) && RunFrom(s, acts) == t;
    RankNeverDropsInRun(s, acts, id);
  }

  lemma {:induction false} RankNeverDropsInRun(s: State, acts: seq<Action>, id: Id)
    requires Inv(s) && ValidRun(s, acts)
    ensures Rank(s, id) <= Rank(RunFrom(s, acts), id)
    decreases |acts|
  {
    if acts != [] {
      StepKeepsInv(s, acts[0]);
      RankNeverDrops(s, acts[0], id);
      RankNeverDropsInRun(Apply(s, acts[0]), acts[1..], id);
    }
  }

  lemma OwnersAreFixed(s: State, t: State, id: Id)
    requires Inv(s) && Reaches(s, t) && id in s.rows
    ensures id in t.rows ==> t.rows[id].owner == s.rows[id].owner
  {
    var acts :| ValidRun(s, acts) && RunFrom(s, acts) == t;
    OwnerInRun(s, acts, id, s.rows[id].owner);
  }

  lemma {:induction false} OwnerInRun(s: State, acts: seq<Action>, id: Id, owner: UserId)
    requires Inv(s) && ValidRun(s, acts) && id in s.used && (id in s.rows ==> s.rows[id].owner == owner)
    ensures id in RunFrom(s, acts).rows ==> RunFrom(s, acts).rows[id].owner == owner
    decreases |acts|
  {
    if acts != [] {
      StepKeepsInv(s, acts[0]);
      OwnerInRun(Apply(s, acts[0]), acts[1..], id, owner);
    }
  }

  // --- The blob of a finished job is never rewritten -------------------------------------------

  ghost predicate SameOrGone(path: Path, s: State, t: State) {
    path in t.blobs ==> path in s.blobs && t.blobs[path] == s.blobs[path]
  }

  /** The job has been claimed and given up or completed: no worker is on it, now or later. */
  ghost predicate Settled(s: State, id: Id) {
    Finished(s, id) && (id in s.rows ==> s.rows[id].status != Pending)
  }

  lemma SettledByClaim(s: State, act: Action, path: Path)
    requires Inv(s) && Enabled(s, act) && Settled(s, PathId(path)) && act.Claim?
    ensures Settled(Apply(s, act), PathId(path)) && Apply(s, act).blobs == s.blobs
  {
    var t, w := Apply(s, act), Worker(JobsOf(s, act.order), None, false);
    ClaimedArePending(s, act);
    ClaimedJobs(s, act.batch, act.order);
    assert Active(w) == act.batch && PathId(path) !in act.batch;
  }

  lemma SettledByWorker(s: State, act: Action, path: Path)
    requires Inv(s) && Enabled(s, act) && Settled(s, PathId(path))
    requires !act.Create? && !act.Claim? && IsWorker(s, act.actor)
    ensures Settled(Apply(s, act), PathId(path)) && SameOrGone(path, s, Apply(s, act))
  {
    var w := s.actors[act.actor];
    if w.todo != [] {
      assert ActorOk(s, w) && w.todo[0] in w.todo;
      ActiveAfterPop(w);
      assert OnJob(s, act.actor) ==> w.todo[0].id in Active(w);
    }
    forall b | b in Apply(s, act).actors
      ensures PathId(path) !in Active(Apply(s, act).actors[b])
    {
      assert b in s.actors && PathId(path) !in Active(s.actors[b]);
    }
  }

  lemma SettledStep(s: State, act: Action, path: Path)
    requires Inv(s) && Enabled(s, act) && Settled(s, PathId(path))
    ensures Settled(Apply(s, act), PathId(path)) && SameOrGone(path, s, Apply(s, act))
  {
    if act.Claim? {
      SettledByClaim(s, act, path);
    } else if !act.Create? && IsWorker(s, act.actor) {
      SettledByWorker(s, act, path);
    }
  }

  lemma {:induction false} SettledInRun(s: State, acts: seq<Action>, path: Path)
    requires Inv(s) && ValidRun(s, acts) && Settled(s, PathId(path))
    ensures SameOrGone(path, s, RunFrom(s, acts)) && Settled(RunFrom(s, acts), PathId(path))
    decreases |acts|
  {
    if acts != [] {
      StepKeepsInv(s, acts[0]);
      SettledStep(s, acts[0], path);
      SettledInRun(Apply(s, acts[0]), acts[1..], path);
    }
  }

  /** Once its row is complete, a file may disappear but its bytes never change. */
  lemma CompleteFileIsFrozen(s: State, t: State, id: Id)
    requires Inv(s) && Reaches(s, t)
    requires id in s.rows && s.rows[id].status == Complete
    ensures s.rows[id].filePath.Some? && SameOrGone(s.rows[id].filePath.value, s, t)
  {
    assert RowOk(s, id);
    var acts :| ValidRun(s, acts) && RunFrom(s, acts) == t;
    SettledInRun(s, acts, s.rows[id].filePath.value);
  }

  // --- Reachable states -------------------------------------------------------------------------

  ghost predicate Reachable(s: State) {
    Reaches(Empty(s.pipeline), s)
  }

  lemma ReachableInv(s: State)
    requires Reachable(s)
    ensures Inv(s)
  {
    EmptyInv(s.pipeline);
    ReachKeepsInv(Empty(s.pipeline), s);
  }

  lemma StaysReachable(s: State, t: State)
    requires Reachable(s) && Reaches(s, t) && s.pipeline == t.pipeline
    ensures Reachable(t)
  {
    Onward(Empty(s.pipeline), s, t);
  }

  /** A deleted file of a settled job does not come back. */
  lemma GoneForGood(s: State, t: State, p: Path)
    requires Reachable(s) && Reaches(s, t) && Settled(s, PathId(p))
    ensures Settled(t, PathId(p)) && (p !in s.blobs ==> p !in t.blobs)
  {
    ReachableInv(s);
    var acts :| ValidRun(s, acts) && RunFrom(s, acts) == t;
    SettledInRun(s, acts, p);
  }

  // --- A job once recorded --------------------------------------------------------------------------

  /** The row, while there is one, is complete or expired with this receipt, and no worker has the job. */
  ghost predicate Recorded(s: State, id: Id, receipt: Receipt) {
    && id in s.used
    && (forall a :: a in s.actors ==> id !in Held(s.actors[a]))
    && (id in s.rows ==> s.rows[id].status in {Complete, Expired} && s.rows[id].receipt == Some(receipt))
  }

  lemma CompletedIsRecorded(s: State, a: ActorId, now: int)
    requires Inv(s) && Enabled(s, CompleteJob(a, now)) && s.actors[a].todo[0].id in s.rows
    ensures Recorded(Apply(s, CompleteJob(a, now)), s.actors[a].todo[0].id, s.actors[a].stored.value)
  {
    var w := s.actors[a];
    assert ActorOk(s, w) && w.todo[0] in w.todo && w.todo[0].id in Held(w) && JobOk(s, w.todo[0]);
    ActiveAfterPop(w);
  }

  lemma RecordedByWorker(s: State, act: Action, id: Id, receipt: Receipt)
    requires Inv(s) && Enabled(s, act) && Recorded(s, id, receipt)
    requires !act.Create? && !act.Claim? && IsWorker(s, act.actor)
    ensures Recorded(Apply(s, act), id, receipt)
  {
    var w := s.actors[act.actor];
    if w.todo != [] {
      assert ActorOk(s, w) && w.todo[0] in w.todo && w.todo[0].id in Held(w);
      ActiveAfterPop(w);
    }
  }

  lemma RecordedByClaim(s: State, act: Action, id: Id, receipt: Receipt)
    requires Enabled(s, act) && Recorded(s, id, receipt) && act.Claim?
    ensures Recorded(Apply(s, act), id, receipt)
  {
    var t, w := Apply(s, act), Worker(JobsOf(s, act.order), None, false);
    ClaimedArePending(s, act);
    ClaimedJobs(s, act.batch, act.order);
    assert id !in act.batch;
    assert Held(w) == act.batch;
    forall a | a in t.actors
      ensures id !in Held(t.actors[a])
    {
      assert t.actors[a] == if a == act.actor then w else s.actors[a];
    }
  }

  lemma RecordedStep(s: State, act: Action, id: Id, receipt: Receipt)
    requires Inv(s) && Enabled(s, act) && Recorded(s, id, receipt)
    ensures Recorded(Apply(s, act), id, receipt)
  {
    if act.Claim? {
      RecordedByClaim(s, act, id, receipt);
    } else if !act.Create? && IsWorker(s, act.actor) {
      RecordedByWorker(s, act, id, receipt);
    }
  }

  lemma {:induction false} RecordedInRun(s: State, acts: seq<Action>, id: Id, receipt: Receipt)
    requires Inv(s) && ValidRun(s, acts) && Recorded(s, id, receipt)
    ensures Recorded(RunFrom(s, acts), id, receipt)
    decreases |acts|
  {
    if acts != [] {
      StepKeepsInv(s, acts[0]);
      RecordedStep(s, acts[0], id, receipt);
      RecordedInRun(Apply(s, acts[0]), acts[1..], id, receipt);
    }
  }

  /** A recorded receipt stands for as long as the row does. */
  lemma RecordedForGood(s: State, t: State, id: Id, receipt: Receipt)
    requires Reachable(s) && Reaches(s, t) && Recorded(s, id, receipt)
    ensures Recorded(t, id, receipt)
  {
    ReachableInv(s);
    var acts :| ValidRun(s, acts) && RunFrom(s, acts) == t;
    RecordedInRun(s, acts, id, receipt);
  }

  lemma RankForGood(s: State, t: State, id: Id)
    requires Reachable(s) && Reaches(s, t)
    ensures Rank(s, id) <= Rank(t, id)
  {
    ReachableInv(s);
    ReachKeepsRank(s, t, id);
  }
}
