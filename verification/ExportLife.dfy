/** How long a finished export or backup stays: what ends it, and that nothing ends it before its time. */
module ExportLife {
  import opened Wrappers
  import opened ClaimQueue
  import opened ExportModel
  import opened ExportSafety
  import opened ExportRuns
  import opened ExportReach

  predicate IsComplete(s: State, id: Id) {
    id in s.rows && s.rows[id].status == Complete
  }

  /** A download of the export, by its owner, retires it. */
  predicate RetiresIt(s: State, act: Action, id: Id)
    requires id in s.rows
  {
    && (act.Retire? || (act.RetireError? && act.applied)) && act.actor in s.actors && s.actors[act.actor].Download?
    && s.actors[act.actor].id == id && s.actors[act.actor].user == s.rows[id].owner
  }

  /** The pruner comes after its time: later than `expires_at`, or more than the days of retention after its end. */
  predicate OutlivesIt(s: State, act: Action, id: Id)
    requires id in s.rows
  {
    || (act.ExpireOld? && s.rows[id].expiresAt.Some? && s.rows[id].expiresAt.value < act.now)
    || (act.PurgeOld? && s.rows[id].completedAt.Some?
        && s.rows[id].completedAt.value + act.retentionDays * 86_400_000_000 < act.now)
  }

  predicate DeletesOwner(s: State, act: Action, id: Id)
    requires id in s.rows
  {
    act.CommitAnonymize? && act.actor in s.actors && s.actors[act.actor].Anonymizer?
    && s.actors[act.actor].user == s.rows[id].owner
  }

  /** The worker that completed it was told of an error all the same, and now records a failure. */
  predicate FailsIt(s: State, act: Action, id: Id) {
    act.FailJob? && act.applied && IsWorker(s, act.actor) && s.actors[act.actor].todo != []
    && s.actors[act.actor].todo[0].id == id
  }

  predicate Ends(s: State, act: Action, id: Id)
    requires id in s.rows
  {
    RetiresIt(s, act, id) || OutlivesIt(s, act, id) || DeletesOwner(s, act, id) || FailsIt(s, act, id)
  }

  lemma CompletingIsForOthers(s: State, act: Action, id: Id)
    requires Inv(s) && Enabled(s, act) && IsComplete(s, id) && (act.CompleteJob? || act.CompleteError?)
    ensures id in Apply(s, act).rows && Apply(s, act).rows[id] == s.rows[id]
  {
    var w := s.actors[act.actor];
    assert RowOk(s, id) && ActorOk(s, w) && w.todo[0] in w.todo && w.todo[0].id in Active(w);
  }

  ghost predicate AsStated(s: State, act: Action, id: Id)
    requires Enabled(s, act) && id in s.rows
  {
    && (IsComplete(Apply(s, act), id) <==> !Ends(s, act, id))
    && (IsComplete(Apply(s, act), id) ==> Apply(s, act).rows[id] == s.rows[id])
  }

  lemma PrunerEndsIff(s: State, act: Action, id: Id)
    requires Enabled(s, act) && IsComplete(s, id) && (act.ExpireOld? || act.PurgeOld?)
    ensures AsStated(s, act, id)
  {
    assert !RetiresIt(s, act, id) && !DeletesOwner(s, act, id) && !FailsIt(s, act, id);
    if act.ExpireOld? {
      assert Apply(s, act).rows == ExpireRows(s.rows, act.now);
    } else {
      assert Apply(s, act).rows == PurgeRows(s.rows, act.now, act.retentionDays);
    }
  }

  lemma RequestEndsIff(s: State, act: Action, id: Id)
    requires Enabled(s, act) && IsComplete(s, id) && (act.Retire? || act.RetireError? || act.CommitAnonymize?)
    ensures AsStated(s, act, id)
  {
    assert !OutlivesIt(s, act, id) && !FailsIt(s, act, id);
  }

  lemma FailureEndsIff(s: State, act: Action, id: Id)
    requires Enabled(s, act) && IsComplete(s, id) && act.FailJob?
    ensures AsStated(s, act, id)
  {
    assert !OutlivesIt(s, act, id) && !RetiresIt(s, act, id) && !DeletesOwner(s, act, id);
  }

  lemma OthersEndNothing(s: State, act: Action, id: Id)
    requires Inv(s) && Enabled(s, act) && IsComplete(s, id)
    requires !act.ExpireOld? && !act.PurgeOld? && !act.Retire? && !act.RetireError? && !act.CommitAnonymize?
    requires !act.FailJob?
    ensures id in Apply(s, act).rows && Apply(s, act).rows[id] == s.rows[id]
  {
    if act.CompleteJob? || act.CompleteError? {
      CompletingIsForOthers(s, act, id);
    } else if act.Claim? {
      ClaimedArePending(s, act);
    } else if act.Create? {
      assert RowOk(s, id);
    }
  }

  /** A complete row stays as it is, to the last field, exactly unless one of these steps ends it. */
  lemma EndsIff(s: State, act: Action, id: Id)
    requires Inv(s) && Enabled(s, act) && IsComplete(s, id)
    ensures IsComplete(Apply(s, act), id) <==> !Ends(s, act, id)
    ensures IsComplete(Apply(s, act), id) ==> Apply(s, act).rows[id] == s.rows[id]
  {
    if act.ExpireOld? || act.PurgeOld? {
      PrunerEndsIff(s, act, id);
    } else if act.Retire? || act.RetireError? || act.CommitAnonymize? {
      RequestEndsIff(s, act, id);
    } else if act.FailJob? {
      FailureEndsIff(s, act, id);
    } else {
      OthersEndNothing(s, act, id);
    }
  }

  /** No step of the run ends it. */
  ghost predicate NoneEnds(s: State, acts: seq<Action>, id: Id)
    requires ValidRun(s, acts)
    decreases |acts|
  {
    acts != [] ==>
      && (id in s.rows ==> !Ends(s, acts[0], id))
      && NoneEnds(Apply(s, acts[0]), acts[1..], id)
  }

  lemma {:induction false} StaysOver(s: State, acts: seq<Action>, id: Id)
    requires Inv(s) && ValidRun(s, acts) && Rank(s, id) > 3
    ensures !IsComplete(RunFrom(s, acts), id)
  {
    RankNeverDropsInRun(s, acts, id);
  }

  /** Over any run: complete at the end, and then as it was, exactly if no step of the run ends it. */
  lemma {:induction false} CompleteUntilEnded(s: State, acts: seq<Action>, id: Id)
    requires Inv(s) && ValidRun(s, acts) && IsComplete(s, id)
    ensures NoneEnds(s, acts, id) ==> IsComplete(RunFrom(s, acts), id) && RunFrom(s, acts).rows[id] == s.rows[id]
    ensures IsComplete(RunFrom(s, acts), id) ==> NoneEnds(s, acts, id)
    decreases |acts|
  {
    if acts != [] {
      var t := Apply(s, acts[0]);
      StepKeepsInv(s, acts[0]);
      EndsIff(s, acts[0], id);
      if Ends(s, acts[0], id) {
        assert RowOk(s, id);
        RankNeverDrops(s, acts[0], id);
        assert Rank(t, id) > 3;
        StaysOver(t, acts[1..], id);
      } else {
        CompleteUntilEnded(t, acts[1..], id);
      }
    }
  }
}
