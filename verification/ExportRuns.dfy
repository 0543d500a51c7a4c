/** What holds over whole runs of the export and backup pipelines. */
module ExportRuns {
  import opened Wrappers
  import opened ClaimQueue
  import opened ExportModel
  import opened ExportSafety

  // --- Safety over every run -----------------------------------------------------------

  lemma {:induction false} RunKeepsInv(s: State, acts: seq<Action>)
    requires Inv(s) && ValidRun(s, acts)
    ensures Inv(RunFrom(s, acts))
    decreases |acts|
  {
    if acts != [] {
      StepKeepsInv(s, acts[0]);
      RunKeepsInv(Apply(s, acts[0]), acts[1..]);
    }
  }

  /**
   Over every interleaving, with actors stopping anywhere, store and database errors included: a complete
   row has its blob in the store and records exactly the length and digest of those bytes.
   */
  lemma CompleteRowHasItsBlob(pipeline: Pipeline, acts: seq<Action>, id: Id)
    requires ValidRun(Empty(pipeline), acts)
    requires id in RunFrom(Empty(pipeline), acts).rows && RunFrom(Empty(pipeline), acts).rows[id].status == Complete
    ensures var s := RunFrom(Empty(pipeline), acts);
            var path := PathOf(pipeline, id, s.rows[id]);
            && s.rows[id].filePath == Some(path)
            && path in s.blobs
            && s.rows[id].receipt == Some(Receipt(|s.blobs[path]|, Sha256(s.blobs[path])))
  {
    var s := RunFrom(Empty(pipeline), acts);
    EmptyInv(pipeline);
    RunKeepsInv(Empty(pipeline), acts);
    assert RowOk(s, id);
    PipelineIsFixed(Empty(pipeline), acts);
  }

  lemma {:induction false} PipelineIsFixed(s: State, acts: seq<Action>)
    requires ValidRun(s, acts)
    ensures RunFrom(s, acts).pipeline == s.pipeline
    decreases |acts|
  {
    if acts != [] {
      PipelineIsFixed(Apply(s, acts[0]), acts[1..]);
    }
  }

  // --- Claimed once, retired once ---------------------------------------------------------

  /** How far the row has come. Nothing moves a row back, and a deleted row does not return. */
  ghost function Rank(s: State, id: Id): nat {
    if id !in s.used then 0
    else if id !in s.rows then 6
    else match s.rows[id].status
      case Pending => 1
      case Running => 2
      case Complete => 3
      case Expired => 4
      case Failed => 5
  }

  lemma WorkerKeepsRank(s: State, act: Action, id: Id)
    requires Inv(s) && Enabled(s, act) && (act.CompleteJob? || act.CompleteError? || act.FailJob?)
    ensures Rank(s, id) <= Rank(Apply(s, act), id)
  {
    var w := s.actors[act.actor];
    assert ActorOk(s, w) && w.todo[0] in w.todo && JobOk(s, w.todo[0]);
    assert !act.FailJob? ==> w.todo[0].id in Active(w);
  }

  lemma ClaimKeepsRank(s: State, act: Action, id: Id)
    requires Enabled(s, act) && act.Claim?
    ensures Rank(s, id) <= Rank(Apply(s, act), id)
  {
    ClaimedArePending(s, act);
  }

  lemma RankNeverDrops(s: State, act: Action, id: Id)
    requires Inv(s) && Enabled(s, act)
    ensures Rank(s, id) <= Rank(Apply(s, act), id)
  {
    if id in s.rows {
      assert RowOk(s, id);
    }
    if act.CompleteJob? || act.CompleteError? || act.FailJob? {
      WorkerKeepsRank(s, act, id);
    } else if act.Claim? {
      ClaimKeepsRank(s, act, id);
    }
  }

  /** Claims of `id` in the run. */
  function Claims(acts: seq<Action>, id: Id): nat {
    if acts == [] then 0
    else (if acts[0].Claim? && id in acts[0].batch then 1 else 0) + Claims(acts[1..], id)
  }

  /** Steps of the run that turn the row from complete to expired, by a download or by the pruner. */
  ghost function Retirements(s: State, acts: seq<Action>, id: Id): nat
    requires ValidRun(s, acts)
    decreases |acts|
  {
    if acts == [] then 0
    else (if Rank(s, id) == 3 && Rank(Apply(s, acts[0]), id) == 4 then 1 else 0)
         + Retirements(Apply(s, acts[0]), acts[1..], id)
  }

  lemma {:induction false} ClaimedAtMostOnce(s: State, acts: seq<Action>, id: Id)
    requires Inv(s) && ValidRun(s, acts)
    ensures Claims(acts, id) <= if Rank(s, id) <= 1 then 1 else 0
    decreases |acts|
  {
    if acts != [] {
      var t := Apply(s, acts[0]);
      StepKeepsInv(s, acts[0]);
      RankNeverDrops(s, acts[0], id);
      ClaimedAtMostOnce(t, acts[1..], id);
      if acts[0].Claim? && id in acts[0].batch {
        ClaimedArePending(s, acts[0]);
        assert RowOk(s, id);
        assert Rank(s, id) == 1 && Rank(t, id) == 2;
      }
    }
  }

  lemma {:induction false} RetiredAtMostOnce(s: State, acts: seq<Action>, id: Id)
    requires Inv(s) && ValidRun(s, acts)
    ensures Retirements(s, acts, id) <= if Rank(s, id) <= 3 then 1 else 0
    decreases |acts|
  {
    if acts != [] {
      StepKeepsInv(s, acts[0]);
      RankNeverDrops(s, acts[0], id);
      RetiredAtMostOnce(Apply(s, acts[0]), acts[1..], id);
    }
  }
}
